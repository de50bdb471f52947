/** What the transpiler does with a library: the functions a library line
    defines are renamed into the library's namespace
    (`get_functions_from_lexed_library_code`, enkelt.py:177-183), and the
    library's text is looked for in a fixed order of places
    (`import_library`, enkelt.py:250-274). */
module Libraries {
  import opened Outcomes
  import opened Lexer

  /** `p` repeated `n` times. */
  function Repeat(p: string, n: nat): (r: string)
    ensures |r| == n * |p|
  {
    if n == 0 then "" else p + Repeat(p, n - 1)
  }

  /** The number of USER_FUNCTION tokens among `tokens`. */
  function CountUserFunctions(tokens: seq<Token>): (n: nat)
    ensures n <= |tokens|
    ensures n == 0 <==> forall k :: 0 <= k < |tokens| ==> tokens[k].kind != UserFunction
  {
    if tokens == [] then 0
    else
      var init := tokens[..|tokens| - 1];
      assert forall k :: 0 <= k < |init| ==> init[k] == tokens[k];
      CountUserFunctions(init) + (if tokens[|tokens| - 1].kind == UserFunction then 1 else 0)
  }

  /** Counting one token further. */
  lemma CountStep(ts: seq<Token>, i: nat)
    requires i < |ts|
    ensures CountUserFunctions(ts[..i + 1]) == CountUserFunctions(ts[..i]) + if ts[i].kind == UserFunction then 1 else 0
  {
    assert ts[..i + 1][..i] == ts[..i];
  }

  /** A token with a USER_FUNCTION name moved into the library's namespace. */
  function Prefixed(t: Token, library: string): Token {
    if t.kind == UserFunction then Token(UserFunction, library + "." + t.text) else t
  }

  /** The user's functions with the last one moved `n` levels into the
      library's namespace. */
  function Renamed(userFunctions: seq<string>, library: string, n: nat): seq<string>
    requires |userFunctions| > 0
  {
    var last := |userFunctions| - 1;
    userFunctions[last := Repeat(library + ".", n) + userFunctions[last]]
  }

  /** Moving the last name one level further. */
  lemma RenamedAgain(userFunctions: seq<string>, library: string, n: nat)
    requires |userFunctions| > 0
    ensures var r := Renamed(userFunctions, library, n);
            r[|r| - 1 := library + "." + r[|r| - 1]] == Renamed(userFunctions, library, n + 1)
  {
    var p := library + ".";
    assert p + (Repeat(p, n) + userFunctions[|userFunctions| - 1]) == Repeat(p, n + 1) + userFunctions[|userFunctions| - 1];
  }

  /** The tokens with those before index `i` moved into the namespace. */
  function PrefixedBefore(ts: seq<Token>, library: string, i: nat): seq<Token> {
    seq(|ts|, k requires 0 <= k < |ts| => if k < i then Prefixed(ts[k], library) else ts[k])
  }

  /** Moving one more token into the namespace. */
  lemma PrefixedStep(ts: seq<Token>, library: string, i: nat)
    requires i < |ts|
    ensures PrefixedBefore(ts, library, i)[i := Prefixed(ts[i], library)] == PrefixedBefore(ts, library, i + 1)
  {
  }

  /** What `get_functions_from_lexed_library_code` leaves: every
      USER_FUNCTION token gets the prefix `library.`, and so does the last
      of the user's functions, once per such token; with no user function
      to rename, the first such token raises. A comment line has no tokens
      and is left as it is. */
  function LibraryFunctions(lexed: Lexed, library: string, userFunctions: seq<string>)
    : (r: Result<(Lexed, seq<string>)>)
    ensures lexed.CommentLine? ==> r == Ok((lexed, userFunctions))
    ensures r.Err? <==> lexed.Tokens? && CountUserFunctions(lexed.tokens) > 0 && |userFunctions| == 0
    ensures r.Err? ==> r.error == IndexError
    ensures r.Ok? && lexed.Tokens? ==>
              r.value.0.Tokens? && |r.value.0.tokens| == |lexed.tokens| && |r.value.1| == |userFunctions|
              && (forall k :: 0 <= k < |lexed.tokens| ==> r.value.0.tokens[k].kind == lexed.tokens[k].kind)
              && (forall k :: 0 <= k < |lexed.tokens| && lexed.tokens[k].kind != UserFunction
                    ==> r.value.0.tokens[k] == lexed.tokens[k])
              && (forall k :: 0 <= k < |lexed.tokens| && lexed.tokens[k].kind == UserFunction
                    ==> r.value.0.tokens[k].text == library + "." + lexed.tokens[k].text)
              && (forall k :: 0 <= k < |userFunctions| - 1 ==> r.value.1[k] == userFunctions[k])
  {
    match lexed
    case CommentLine(_) => Ok((lexed, userFunctions))
    case Tokens(ts) =>
      var n := CountUserFunctions(ts);
      if n == 0 then Ok((lexed, userFunctions))
      else if |userFunctions| == 0 then Err(IndexError)
      else Ok((Tokens(seq(|ts|, k requires 0 <= k < |ts| => Prefixed(ts[k], library))),
               Renamed(userFunctions, library, n)))
  }

  /** `get_functions_from_lexed_library_code` (enkelt.py:177-183), with the
      global `user_functions` passed in and out. */
  method PrefixLibraryFunctions(lexed: Lexed, library: string, userFunctions: seq<string>)
    returns (r: Result<(Lexed, seq<string>)>)
    ensures r == LibraryFunctions(lexed, library, userFunctions)
  {
    if lexed.CommentLine? {
      return Ok((lexed, userFunctions));
    }
    var ts := lexed.tokens;
    var data := ts;
    var functions := userFunctions;
    ghost var count := 0;
    var i := 0;
    while i < |data|
      invariant 0 <= i <= |ts|
      invariant data == PrefixedBefore(ts, library, i)
      invariant count == CountUserFunctions(ts[..i])
      invariant count == 0 ==> functions == userFunctions
      invariant count > 0 ==> |userFunctions| > 0 && functions == Renamed(userFunctions, library, count)
    {
      CountStep(ts, i);
      PrefixedStep(ts, library, i);
      if data[i].kind == UserFunction {
        data := data[i := Token(UserFunction, library + "." + data[i].text)];
        if |functions| == 0 {
          assert ts[i].kind == UserFunction;
          return Err(IndexError);
        }
        var last := |functions| - 1;
        if count == 0 {
          assert "" + userFunctions[last] == userFunctions[last];
          assert Renamed(userFunctions, library, 0) == functions;
        }
        RenamedAgain(userFunctions, library, count);
        functions := functions[last := library + "." + functions[last]];
        count := count + 1;
      }
      i := i + 1;
    }
    assert ts[..i] == ts;
    if count == 0 {
      assert data == ts;
    } else {
      assert data == seq(|ts|, k requires 0 <= k < |ts| => Prefixed(ts[k], library));
    }
    r := Ok((Tokens(data), functions));
  }

  /** A line that defines one function, whose name `lex` has just added to
      the user's functions, has the definition and the user's function
      renamed alike, to `library.name`; every other token stays. */
  lemma SingleDefinitionRenamed(ts: seq<Token>, library: string, userFunctions: seq<string>, k: nat)
    requires k < |ts| && ts[k].kind == UserFunction
    requires forall m :: 0 <= m < |ts| && m != k ==> ts[m].kind != UserFunction
    requires |userFunctions| > 0 && userFunctions[|userFunctions| - 1] == ts[k].text
    ensures var r := LibraryFunctions(Tokens(ts), library, userFunctions);
            var name := library + "." + ts[k].text;
            r.Ok? && r.value.0.tokens[k] == Token(UserFunction, name)
            && (forall m :: 0 <= m < |ts| && m != k ==> r.value.0.tokens[m] == ts[m])
            && r.value.1 == userFunctions[|userFunctions| - 1 := name]
  {
    CountSingle(ts, k);
    assert Repeat(library + ".", 1) == library + ".";
  }

  /** A single USER_FUNCTION token is counted once. */
  lemma {:induction false} CountSingle(ts: seq<Token>, k: nat)
    requires k < |ts| && ts[k].kind == UserFunction
    requires forall m :: 0 <= m < |ts| && m != k ==> ts[m].kind != UserFunction
    ensures CountUserFunctions(ts) == 1
  {
    var init := ts[..|ts| - 1];
    if k == |ts| - 1 {
      assert forall m :: 0 <= m < |init| ==> init[m].kind != UserFunction;
    } else {
      CountSingle(init, k);
    }
  }

  /** Where a library's text can come from, in the order `import_library`
      tries them: a local `.e` file beside the script, a local `.epy`
      extension, then the remote `.e` and `.epy` files. */
  datatype Source = LocalScript | LocalExtension | RemoteScript | RemoteExtension

  /** Which of the four places hold the library: the file checks and
      downloads themselves are not part of this model. */
  datatype Availability = Availability(localScript: bool, localExtension: bool, remoteScript: bool, remoteExtension: bool)

  predicate Available(a: Availability, s: Source) {
    match s
    case LocalScript => a.localScript
    case LocalExtension => a.localExtension
    case RemoteScript => a.remoteScript
    case RemoteExtension => a.remoteExtension
  }

  /** The order of the fallbacks. */
  function Rank(s: Source): nat {
    match s
    case LocalScript => 0
    case LocalExtension => 1
    case RemoteScript => 2
    case RemoteExtension => 3
  }

  /** The fallback chain of `import_library` (enkelt.py:250-274): the first
      place that holds the library is used; when none does, the import
      fails. */
  function ResolveLibrary(a: Availability): (r: Option<Source>)
    ensures r.Some? ==> Available(a, r.value)
    ensures r.Some? ==> forall s: Source :: Rank(s) < Rank(r.value) ==> !Available(a, s)
    ensures r.None? ==> forall s: Source :: !Available(a, s)
  {
    if a.localScript then Some(LocalScript)
    else if a.localExtension then Some(LocalExtension)
    else if a.remoteScript then Some(RemoteScript)
    else if a.remoteExtension then Some(RemoteExtension)
    else
      assert !Available(a, LocalScript) && !Available(a, LocalExtension);
      assert !Available(a, RemoteScript) && !Available(a, RemoteExtension);
      None
  }

  /** A place that holds the library is used unless an earlier one holds
      it as well: more places holding it never makes the import fail, and
      a local file always wins over the remote ones. */
  lemma ResolveLibraryPrefersEarlier(a: Availability, s: Source)
    requires Available(a, s)
    ensures ResolveLibrary(a).Some? && Rank(ResolveLibrary(a).value) <= Rank(s)
  {
  }

  /** The message `import_library` prints when no place holds the library. */
  function ImportFailureMessage(name: string): (m: string)
    ensures |m| > |name| && m[|m| - |name|..] == name
  {
    "Det inträffade ett fel!! Kunde inte importera " + name
  }
}
