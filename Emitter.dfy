/** What the emitter `parse` (enkelt.py:428-589) does with one token: the
    fragment it appends to `source_code`, and how it moves the state that
    runs from line to line (the stacks `indent_layers` and
    `needs_start_statuses`, the flags, the lambda counter, the imported
    libraries). The functions here specify the methods of
    `Transpiler.Transpiler`. */
module Emitter {
  import opened Text
  import opened Tables
  import opened Outcomes
  import opened Lexer
  import opened Libraries

  /** The block stacks: `indent_layers` holds one marker per open block
      (only its length is ever read), and `needs_start_statuses` says,
      for the innermost construct, whether a `{` opens a host block. */
  datatype Layout = Layout(indentLayers: nat, needsStart: seq<bool>)

  /** The statement flags `parse` sets and clears. */
  datatype Flags = Flags(
    isIf: bool,
    isMath: bool,
    isFor: bool,
    lookForLoopEnding: bool,
    isFileOpen: bool,
    isExtension: bool)

  /** The libraries imported so far, and the messages printed. */
  datatype Imports = Imports(imported: seq<string>, printed: seq<string>)

  /** Everything `parse` reads and writes, apart from the tokens. */
  datatype EmitState = EmitState(
    out: seq<string>,
    layout: Layout,
    flags: Flags,
    lambdaNum: int,
    imports: Imports)

  /** What `parse` reads and never writes: whether the console is running,
      and which places hold each library. */
  datatype Env = Env(console: bool, places: map<string, Availability>)

  /** The state of a freshly started transpiler. */
  const Start := EmitState([], Layout(0, [false]), Flags(false, false, false, false, false, false), 0, Imports([], []))

  /** One tab fragment per open block. */
  function Tabs(n: nat): (r: seq<string>)
    ensures |r| == n && forall k :: 0 <= k < n ==> r[k] == "\t"
  {
    seq(n, k => "\t")
  }

  function Append(s: EmitState, fragment: string): EmitState {
    s.(out := s.out + [fragment])
  }

  /** `needs_start_statuses.append(True)`: the construct just emitted wants
      its `{` to open a host block. */
  function Push(s: EmitState): EmitState {
    s.(layout := s.layout.(needsStart := s.layout.needsStart + [true]))
  }

  /** `source_code[:-1]`. */
  function DropLast(out: seq<string>): seq<string> {
    if |out| == 0 then out else out[..|out| - 1]
  }

  /** Where the places of a library are not known, none holds it. */
  function PlacesOf(places: map<string, Availability>, name: string): Availability {
    if name in places then places[name] else Availability(false, false, false, false)
  }

  /** The FUNCTION branch (enkelt.py:459-482). */
  function EmitFunction(s: EmitState, v: string, console: bool): EmitState {
    if v == "skriv" || v == "in" then
      var prefix := if !console then "Enkelt.enkelt_" else "";
      Append(s, prefix + if v == "skriv" then "print(" else "input(")
    else if v == "om" || v == "anom" then
      Append(s, TranslateFunction(v) + " ").(flags := s.flags.(isIf := true))
    else if v == "öppna" then
      Push(Append(s, TranslateFunction(v) + "(")).(flags := s.flags.(isFileOpen := true))
    else if v == "för" || v == "medan" then
      Append(s, TranslateFunction(v) + " ").(flags := s.flags.(lookForLoopEnding := true, isFor := s.flags.isFor || v == "för"))
    else if v == "töm" then
      Append(s, TranslateFunction(v))
    else
      Append(s, TranslateFunction(v) + "(")
  }

  /** The message printed for a forbidden variable name. */
  function ForbiddenNameMessage(v: string): string {
    "Det inträffade ett fel! namnet " + v + " är inte tillåtet som variabelnamn!"
  }

  /** The VAR branch (enkelt.py:483-489): a forbidden name is not emitted;
      `själv` becomes `self` and any other one is reported. */
  function EmitVar(s: EmitState, v: string): EmitState {
    if v !in ForbiddenVariableNames then Append(s, v)
    else if v == "själv" then Append(s, "self")
    else s.(imports := s.imports.(printed := s.imports.printed + [ForbiddenNameMessage(v)]))
  }

  /** The STRING branch (enkelt.py:490-493): once a file has been opened,
      a string of at most two characters is read as a file mode. */
  function EmitString(s: EmitState, v: string): EmitState {
    var text := if s.flags.isFileOpen && |v| <= 2 then ReplaceAll(ReplaceAll(v, "l", "r"), "ö", "w") else v;
    Append(s, "\"" + text + "\"")
  }

  /** `import_library` (enkelt.py:250-274) with the library's text left
      out: the library is recorded as imported when some place holds it,
      and the failure is printed otherwise. */
  function ImportLibrary(s: EmitState, name: string, places: map<string, Availability>): EmitState {
    match ResolveLibrary(PlacesOf(places, name))
    case Some(_) => s.(imports := s.imports.(imported := s.imports.imported + [name]))
    case None => s.(imports := s.imports.(printed := s.imports.printed + [ImportFailureMessage(name)]))
  }

  /** The IMPORT and EXTENSION branch (enkelt.py:496-499): an extension
      switches the transpiler to passing library lines through. */
  function EmitImport(s: EmitState, isExtension: bool, name: string, places: map<string, Availability>): EmitState {
    var marked := if isExtension then s.(flags := s.flags.(isExtension := true)) else s;
    ImportLibrary(marked, name, places)
  }

  /** `token_val == '>' and lexed[token_index-1][1] == '='`: the
      arrow of a lambda, whose previous token is read with the host's
      wrap-around for index -1. */
  predicate ArrowAfterEquals(ts: seq<Token>, i: nat)
    requires i < |ts|
  {
    ts[i].text == ">" && ts[PyIndex(|ts|, i - 1)].text == "="
  }

  /** The lambda arrow: the counter goes up and `lambda ` is emitted, after
      dropping the last fragment unless the token two back is a VAR. */
  function EmitLambda(s: EmitState, ts: seq<Token>, i: nat): EmitState
    requires 2 <= |ts| && i < |ts|
  {
    var before := ts[PyIndex(|ts|, i - 2)];
    var out := if before.kind != Var then DropLast(s.out) else s.out;
    s.(out := out + ["lambda "], lambdaNum := s.lambdaNum + 1)
  }

  /** The OPERATOR branch (enkelt.py:500-528). A `)` closes the condition
      of an `om`, a math call or a loop header; a `>` after `=` and before
      a user function call opens a lambda (a `>` after `=` as the last
      token reads past the end and raises); a `)` inside a lambda ends
      its parameters; `&`, `|` and `!` become words, `!` before `=` the
      host's `!`. */
  function EmitOperator(s: EmitState, ts: seq<Token>, i: nat): Result<EmitState>
    requires i < |ts|
  {
    var v := ts[i].text;
    if s.flags.isIf && v == ")" then Ok(Push(s.(flags := s.flags.(isIf := false))))
    else if s.flags.isMath && v == ")" then Ok(s.(flags := s.flags.(isMath := false)))
    else if s.flags.lookForLoopEnding && v == ")" then Ok(Push(s.(flags := s.flags.(lookForLoopEnding := false))))
    else if ArrowAfterEquals(ts, i) && i + 1 >= |ts| then Err(IndexError)
    else if ArrowAfterEquals(ts, i) && ts[i + 1].kind == UserFunctionCall then Ok(EmitLambda(s, ts, i))
    else if s.lambdaNum != 0 && v == ")" then Ok(Append(s, ": "))
    else if v == "&" || v == "|" || v == "!" then
      var word := if v == "!" && i + 1 < |ts| && ts[i + 1].text == "=" then "not" else v;
      Ok(Append(s, TranslateOperator(word)))
    else Ok(Append(s, v))
  }

  /** The START branch (enkelt.py:531-540): outside a lambda, a `{` that a
      header asked for becomes `:` (with a line break unless it ends the
      line) and opens an indentation layer; any other `{` is kept. */
  function EmitStart(s: EmitState, needsStart: bool, isLast: bool, v: string): EmitState {
    if s.lambdaNum != 0 then s
    else
      var fragment := if !needsStart then v else if isLast then ":" else ":\n";
      var emitted := Append(s, fragment);
      if needsStart then emitted.(layout := emitted.layout.(indentLayers := emitted.layout.indentLayers + 1))
      else emitted
  }

  /** The END branch (enkelt.py:541-552): inside a lambda a `}` only ends
      it; a `}` that closes a host block pops both stacks (an empty
      `indent_layers` raises) and starts the next line at the new
      indentation, unless it ends the line; any other `}` is kept. */
  function EmitEnd(s: EmitState, needsStart: bool, isLast: bool, v: string): Result<EmitState>
    requires |s.layout.needsStart| > 0
  {
    if s.lambdaNum != 0 then Ok(s.(lambdaNum := s.lambdaNum - 1))
    else if !needsStart then Ok(Append(s, v))
    else if s.layout.indentLayers == 0 then Err(IndexError)
    else
      var layout := Layout(s.layout.indentLayers - 1, s.layout.needsStart[..|s.layout.needsStart| - 1]);
      var out := if !isLast then s.out + ["\n"] + Tabs(layout.indentLayers) else s.out;
      Ok(s.(out := out, layout := layout))
  }

  /** The KEYWORD and BOOL branch (enkelt.py:553-560). */
  function EmitKeyword(s: EmitState, v: string): EmitState {
    if v == "annars" then Push(Append(s, TranslateKeyword(v)))
    else Append(s, TranslateKeyword(v))
  }

  /** The index of the first `.` of a name. */
  function DotIndex(v: string): (k: nat)
    requires '.' in v
    ensures k < |v| && v[k] == '.' && '.' !in v[..k]
  {
    if v[0] == '.' then 0
    else
      var k := DotIndex(v[1..]) + 1;
      assert v[..k] == [v[0]] + v[1..][..k - 1];
      k
  }

  /** The name a call is emitted under (enkelt.py:567-576): a call into the
      standard library is qualified with `Enkelt.StandardLibrary.` (the
      rest of the name losing its dots), and any other dotted name has
      each `.` spelt `__enkelt__`. */
  function CallName(v: string): string {
    if '.' !in v then v
    else
      var k := DotIndex(v);
      if v[..k] in StandardLibrary then "Enkelt.StandardLibrary." + v[..k] + "." + Remove(v[k + 1..], '.')
      else ReplaceAll(v, ".", "__enkelt__")
  }

  /** What one token does (enkelt.py:446-585), before `parse` moves on to
      the next: reading `needs_start_statuses[-1]` raises on an empty
      stack; the first token of a line is preceded by one tab per open
      block. */
  function EmitToken(s: EmitState, ts: seq<Token>, i: nat, env: Env): Result<EmitState>
    requires i < |ts|
  {
    if |s.layout.needsStart| == 0 then Err(IndexError)
    else
      var needsStart := s.layout.needsStart[|s.layout.needsStart| - 1];
      var t := s.(out := if i == 0 then s.out + Tabs(s.layout.indentLayers) else s.out);
      EmitKind(t, needsStart, ts, i, env)
  }

  /** What token `i` emits by its kind, once the indentation is written;
      `needsStart` is the top of `needs_start_statuses`. */
  function EmitKind(t: EmitState, needsStart: bool, ts: seq<Token>, i: nat, env: Env): Result<EmitState>
    requires i < |ts| && |t.layout.needsStart| > 0
  {
    var v := ts[i].text;
    match ts[i].kind
    case Function => Ok(EmitFunction(t, v, env.console))
    case Var => Ok(EmitVar(t, v))
    case Str => Ok(EmitString(t, v))
    case PNumber => Ok(Append(t, v))
    case NNumber => Ok(Append(t, v))
    case Import => Ok(EmitImport(t, false, v, env.places))
    case Extension => Ok(EmitImport(t, true, v, env.places))
    case Operator => EmitOperator(t, ts, i)
    case ListStart => Ok(Append(t, v))
    case ListEnd => Ok(Append(t, v))
    case Start => Ok(EmitStart(t, needsStart, i == |ts| - 1, v))
    case End => EmitEnd(t, needsStart, i == |ts| - 1, v)
    case Keyword => Ok(EmitKeyword(t, v))
    case Bool => Ok(EmitKeyword(t, v))
    case UserFunction => Ok(Push(Append(t, "def " + ReplaceAll(v, ".", "__enkelt__") + "(")))
    case UserFunctionCall => Ok(if t.lambdaNum == 0 then Append(t, CallName(v) + "(") else t)
    case ObjNotation => Ok(Push(Append(t, TranslateObjNotation(v))))
    case ObjNotationParam => Ok(Push(Append(t, " " + v)))
    case LambdaCall => Ok(Append(t, v))
  }

  /** `parse` from token `i` to the end of the line. */
  function EmitFrom(s: EmitState, ts: seq<Token>, i: nat, env: Env): Result<EmitState>
    requires i <= |ts|
    decreases |ts| - i, 1
  {
    if i == |ts| then Ok(s) else EmitStep(s, ts, i, env)
  }

  /** Token `i`, then the tokens after it; the first error ends the line. */
  function EmitStep(s: EmitState, ts: seq<Token>, i: nat, env: Env): Result<EmitState>
    requires i < |ts|
    decreases |ts| - i, 0
  {
    match EmitToken(s, ts, i, env)
    case Ok(next) => EmitFrom(next, ts, i + 1, env)
    case Err(e) => Err(e)
  }

  /** `parse(lexed, 0)` for what `lex` returned. The pair `['COMMENT',
      line]` is walked as if its two strings were tokens: the first
      "token" gives the indentation, the second reads `line[1]` (which
      raises for the line `#`), and neither matches a token kind. An
      empty token list raises at `lexed[0]`. */
  function EmitLine(s: EmitState, lexed: Lexed, env: Env): Result<EmitState> {
    match lexed
    case CommentLine(line) =>
      if |s.layout.needsStart| == 0 || |line| < 2 then Err(IndexError)
      else Ok(s.(out := s.out + Tabs(s.layout.indentLayers)))
    case Tokens(ts) =>
      if |ts| == 0 then Err(IndexError) else EmitFrom(s, ts, 0, env)
  }
}
