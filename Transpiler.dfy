/** The transpiler's module-level state (enkelt.py:943-971) as an object:
    the emitter's fields that `parse` (enkelt.py:428-589) updates token by
    token, the transpiled lines in `final`, and the user functions the
    lexer collects. `TranspileLine` runs one source line through
    `fix_up_code_line`, `lex` and `parse` (enkelt.py:854-876), and
    `FixUpAndPrepareTranspiledCode` turns `final` into the program text
    (enkelt.py:773-801). Every method is proved against the functions of
    `Emitter`, `Lexer`, `Normaliser` and `PostProcessor`. */
module Transpiler {
  import opened Text
  import opened Tables
  import opened Outcomes
  import opened Lexer
  import opened Libraries
  import opened Emitter
  import opened EmitterProperties
  import opened Normaliser
  import opened Escapes
  import opened PostProcessor

  /** What one line leaves for the next: the emitter's state, the lines
      in `final`, and the user functions. */
  datatype Session = Session(emit: EmitState, final: seq<string>, userFunctions: seq<string>)

  /** `transpile_line`: a line that is exactly a newline is skipped;
      any other line is normalised, lexed and emitted, and the fragments
      it produced are joined into one entry of `final` followed by a
      newline entry. A lexing or emitting error ends the run. */
  function TranspileStep(s: Session, line: string, env: Env): Result<Session> {
    if line == "\n" then Ok(s)
    else
      match LexLine(Normalise(line, s.emit.flags.isExtension), s.userFunctions, s.emit.imports.imported)
      case Err(e) => Err(e)
      case Ok((lexed, userFunctions)) =>
        match EmitLine(s.emit, lexed, env)
        case Err(e) => Err(e)
        case Ok(n) => Ok(Session(n.(out := []), s.final + [Join(n.out), "\n"], userFunctions))
  }

  /** A transpiled line adds exactly two entries to `final` (its text and
      a newline) and leaves `source_code` empty; the emitter's state stays
      valid; the only errors are an IndexError or a KeyError. */
  lemma TranspileStepKeepsValid(s: Session, line: string, env: Env)
    requires Valid(s.emit) && s.emit.out == []
    ensures match TranspileStep(s, line, env)
            case Ok(n) =>
              Valid(n.emit) && n.emit.out == []
              && (line == "\n" ==> n == s)
              && (line != "\n" ==> |n.final| == |s.final| + 2 && n.final[..|s.final|] == s.final
                                   && n.final[|s.final| + 1] == "\n")
            case Err(e) => e == IndexError || e == KeyError
  {
    if line != "\n" {
      match LexLine(Normalise(line, s.emit.flags.isExtension), s.userFunctions, s.emit.imports.imported)
      case Err(e) =>
      case Ok((lexed, userFunctions)) =>
        EmitLineKeepsValid(s.emit, lexed, env);
        match EmitLine(s.emit, lexed, env)
        case Err(e) =>
        case Ok(n) =>
          var next := s.final + [Join(n.out), "\n"];
          assert next[..|s.final|] == s.final;
    }
  }

  /** A line whose normal form is a comment adds one entry holding only
      the current indentation, and changes nothing else but `final`. */
  lemma CommentLineIndentsOnly(s: Session, line: string, env: Env)
    requires Valid(s.emit) && s.emit.out == [] && line != "\n"
    requires var data := Normalise(line, s.emit.flags.isExtension); |data| >= 2 && data[0] == '#'
    ensures TranspileStep(s, line, env)
            == Ok(Session(s.emit, s.final + [Join(Tabs(s.emit.layout.indentLayers)), "\n"], s.userFunctions))
  {
    var data := Normalise(line, s.emit.flags.isExtension);
    CommentLineEmitsIndentation(s.emit, data, s.userFunctions, s.emit.imports.imported, env);
    assert s.emit.out + Tabs(s.emit.layout.indentLayers) == Tabs(s.emit.layout.indentLayers);
  }

  class Transpiler {
    /** `source_code`: the fragments of the line being emitted. */
    var sourceCode: seq<string>
    /** `final`: the transpiled program, one entry per line and newline. */
    var final: seq<string>
    /** The length of `indent_layers`, whose entries are never read. */
    var indentLayers: nat
    var needsStartStatuses: seq<bool>
    var isIf: bool
    var isMath: bool
    var isFor: bool
    var lookForLoopEnding: bool
    var isFileOpen: bool
    var isExtension: bool
    var lambdaNum: int
    var importedLibraries: seq<string>
    /** The diagnostics `parse` and `import_library` print. */
    var printed: seq<string>
    var userFunctions: seq<string>
    /** `is_console_mode`, fixed for a run. */
    const console: bool
    /** Which places hold each library, fixed for a run. */
    const places: map<string, Availability>

    /** The fields `parse` reads and writes, as one value. */
    function State(): EmitState
      reads this
    {
      EmitState(sourceCode, Layout(indentLayers, needsStartStatuses),
                Flags(isIf, isMath, isFor, lookForLoopEnding, isFileOpen, isExtension),
                lambdaNum, Imports(importedLibraries, printed))
    }

    function Snapshot(): Session
      reads this
    {
      Session(State(), final, userFunctions)
    }

    function Environment(): Env {
      Env(console, places)
    }

    /** The state at start-up (enkelt.py:943-971). */
    constructor(console: bool, places: map<string, Availability>)
      ensures State() == Emitter.Start && final == [] && userFunctions == []
      ensures this.console == console && this.places == places
      ensures Valid(State())
    {
      sourceCode := [];
      final := [];
      indentLayers := 0;
      needsStartStatuses := [false];
      isIf := false;
      isMath := false;
      isFor := false;
      lookForLoopEnding := false;
      isFileOpen := false;
      isExtension := false;
      lambdaNum := 0;
      importedLibraries := [];
      printed := [];
      userFunctions := [];
      this.console := console;
      this.places := places;
    }

    /** `for _ in indent_layers: source_code.append('\t')`. */
    method AppendTabs()
      modifies this
      ensures State() == old(State()).(out := old(sourceCode) + Tabs(indentLayers))
      ensures final == old(final) && userFunctions == old(userFunctions)
    {
      var k := 0;
      while k < indentLayers
        invariant 0 <= k <= indentLayers
        invariant State() == old(State()).(out := old(sourceCode) + Tabs(k))
        invariant final == old(final) && userFunctions == old(userFunctions)
      {
        sourceCode := sourceCode + ["\t"];
        k := k + 1;
        assert Tabs(k) == Tabs(k - 1) + ["\t"];
      }
    }

    /** `source_code.append(fragment)`. */
    method Emit(fragment: string)
      modifies this
      ensures State() == Append(old(State()), fragment)
      ensures final == old(final) && userFunctions == old(userFunctions)
    {
      sourceCode := sourceCode + [fragment];
    }

    /** A fragment that opens a construct: `source_code.append(fragment)`
        and `needs_start_statuses.append(True)`. */
    method EmitOpening(fragment: string)
      modifies this
      ensures State() == Push(Append(old(State()), fragment))
      ensures final == old(final) && userFunctions == old(userFunctions)
    {
      sourceCode := sourceCode + [fragment];
      needsStartStatuses := needsStartStatuses + [true];
    }

    /** `om` and `anom` (enkelt.py:466-468): the keyword, and the next `)`
        closes the condition. */
    method OpenCondition(fragment: string)
      modifies this
      ensures State() == Append(old(State()), fragment).(flags := old(State()).flags.(isIf := true))
      ensures final == old(final) && userFunctions == old(userFunctions)
    {
      sourceCode := sourceCode + [fragment];
      isIf := true;
    }

    /** `öppna` (enkelt.py:469-472): the call opens a block and marks the
        file as open. */
    method OpenFile(fragment: string)
      modifies this
      ensures State() == Push(Append(old(State()), fragment)).(flags := old(State()).flags.(isFileOpen := true))
      ensures final == old(final) && userFunctions == old(userFunctions)
    {
      sourceCode := sourceCode + [fragment];
      needsStartStatuses := needsStartStatuses + [true];
      isFileOpen := true;
    }

    /** `för` and `medan` (enkelt.py:473-477): the keyword, and the next
        `)` closes the loop header; `för` also marks a for loop. */
    method OpenLoop(fragment: string, forLoop: bool)
      modifies this
      ensures State() == Append(old(State()), fragment).(flags := old(State()).flags.(lookForLoopEnding := true, isFor := old(State()).flags.isFor || forLoop))
      ensures final == old(final) && userFunctions == old(userFunctions)
    {
      sourceCode := sourceCode + [fragment];
      lookForLoopEnding := true;
      if forLoop {
        isFor := true;
      }
    }

    /** The FUNCTION branch (enkelt.py:459-482). */
    method ParseFunction(v: string)
      modifies this
      ensures State() == EmitFunction(old(State()), v, console)
      ensures final == old(final) && userFunctions == old(userFunctions)
    {
      if v == "skriv" || v == "in" {
        var prefix := "";
        if !console {
          prefix := "Enkelt.enkelt_";
        }
        Emit(prefix + if v == "skriv" then "print(" else "input(");
      } else if v == "om" || v == "anom" {
        OpenCondition(TranslateFunction(v) + " ");
      } else if v == "öppna" {
        OpenFile(TranslateFunction(v) + "(");
      } else if v == "för" || v == "medan" {
        OpenLoop(TranslateFunction(v) + " ", v == "för");
      } else if v == "töm" {
        Emit(TranslateFunction(v));
      } else {
        Emit(TranslateFunction(v) + "(");
      }
    }

    /** The VAR branch (enkelt.py:483-489). */
    method ParseVar(v: string)
      modifies this
      ensures State() == EmitVar(old(State()), v)
      ensures final == old(final) && userFunctions == old(userFunctions)
    {
      if v !in ForbiddenVariableNames {
        sourceCode := sourceCode + [v];
      } else if v == "själv" {
        sourceCode := sourceCode + ["self"];
      } else {
        printed := printed + [ForbiddenNameMessage(v)];
      }
    }

    /** The STRING branch (enkelt.py:490-493). */
    method ParseString(v: string)
      modifies this
      ensures State() == EmitString(old(State()), v)
      ensures final == old(final) && userFunctions == old(userFunctions)
    {
      var text := v;
      if isFileOpen && |v| <= 2 {
        text := ReplaceAll(ReplaceAll(v, "l", "r"), "ö", "w");
      }
      sourceCode := sourceCode + ["\"" + text + "\""];
    }

    /** `import_library` (enkelt.py:243-274) without the library's text:
        the first place that holds the library wins, and a library no
        place holds is reported. */
    method ImportLibrary(name: string)
      modifies this
      ensures State() == Emitter.ImportLibrary(old(State()), name, places)
      ensures final == old(final) && userFunctions == old(userFunctions)
    {
      var found := ResolveLibrary(PlacesOf(places, name));
      if found.Some? {
        importedLibraries := importedLibraries + [name];
      } else {
        printed := printed + [ImportFailureMessage(name)];
      }
    }

    /** The IMPORT and EXTENSION branch (enkelt.py:496-499). */
    method ParseImport(extension: bool, name: string)
      modifies this
      ensures State() == EmitImport(old(State()), extension, name, places)
      ensures final == old(final) && userFunctions == old(userFunctions)
    {
      if extension {
        isExtension := true;
      }
      ImportLibrary(name);
    }

    /** The OPERATOR branch (enkelt.py:500-528). */
    method ParseOperator(ts: seq<Token>, i: nat) returns (err: Option<PyError>)
      requires i < |ts|
      modifies this
      ensures match EmitOperator(old(State()), ts, i)
              case Ok(n) => err == None && State() == n
              case Err(e) => err == Some(e)
      ensures final == old(final) && userFunctions == old(userFunctions)
    {
      ghost var s0 := State();
      var v := ts[i].text;
      if isIf && v == ")" {
        CloseCondition();
      } else if isMath && v == ")" {
        isMath := false;
      } else if lookForLoopEnding && v == ")" {
        CloseLoopHeader();
      } else if ArrowAfterEquals(ts, i) && i + 1 >= |ts| {
        return Some(IndexError);
      } else if ArrowAfterEquals(ts, i) && ts[i + 1].kind == UserFunctionCall {
        ParseLambda(ts, i);
        assert EmitOperator(s0, ts, i) == Ok(EmitLambda(s0, ts, i));
      } else if lambdaNum != 0 && v == ")" {
        Emit(": ");
      } else if v == "&" || v == "|" || v == "!" {
        var toTranslate := v;
        if v == "!" && i + 1 < |ts| {
          if ts[i + 1].text == "=" {
            toTranslate := "not";
          }
        }
        Emit(TranslateOperator(toTranslate));
      } else {
        Emit(v);
      }
      return None;
    }

    /** The `)` that ends an `om` condition (enkelt.py:502-504): the block
        it heads will need a START. */
    method CloseCondition()
      modifies this
      ensures State() == Push(old(State()).(flags := old(State()).flags.(isIf := false)))
      ensures final == old(final) && userFunctions == old(userFunctions)
    {
      isIf := false;
      needsStartStatuses := needsStartStatuses + [true];
    }

    /** The `)` that ends a loop header (enkelt.py:507-509). */
    method CloseLoopHeader()
      modifies this
      ensures State() == Push(old(State()).(flags := old(State()).flags.(lookForLoopEnding := false)))
      ensures final == old(final) && userFunctions == old(userFunctions)
    {
      lookForLoopEnding := false;
      needsStartStatuses := needsStartStatuses + [true];
    }

    /** A `>` after `=` that opens a lambda (enkelt.py:510-514). */
    method ParseLambda(ts: seq<Token>, i: nat)
      requires 2 <= |ts| && i < |ts|
      modifies this
      ensures State() == EmitLambda(old(State()), ts, i)
      ensures final == old(final) && userFunctions == old(userFunctions)
    {
      lambdaNum := lambdaNum + 1;
      if ts[PyIndex(|ts|, i - 2)].kind != Var && |sourceCode| > 0 {
        sourceCode := sourceCode[..|sourceCode| - 1];
      }
      sourceCode := sourceCode + ["lambda "];
    }

    /** The START branch (enkelt.py:531-540). */
    method ParseStart(needsStart: bool, isLast: bool, v: string)
      modifies this
      ensures State() == EmitStart(old(State()), needsStart, isLast, v)
      ensures final == old(final) && userFunctions == old(userFunctions)
    {
      if lambdaNum == 0 {
        if !needsStart {
          sourceCode := sourceCode + [v];
        } else if isLast {
          sourceCode := sourceCode + [":"];
        } else {
          sourceCode := sourceCode + [":\n"];
        }
        if needsStart {
          indentLayers := indentLayers + 1;
        }
      }
    }

    /** The END branch (enkelt.py:541-552): the pop of
        `needs_start_statuses` happens before the pop of an empty
        `indent_layers` raises. */
    method ParseEnd(needsStart: bool, isLast: bool, v: string) returns (err: Option<PyError>)
      requires |needsStartStatuses| > 0
      modifies this
      ensures match EmitEnd(old(State()), needsStart, isLast, v)
              case Ok(n) => err == None && State() == n
              case Err(e) => err == Some(e)
      ensures final == old(final) && userFunctions == old(userFunctions)
    {
      if lambdaNum != 0 {
        lambdaNum := lambdaNum - 1;
      } else if !needsStart {
        sourceCode := sourceCode + [v];
      } else {
        needsStartStatuses := needsStartStatuses[..|needsStartStatuses| - 1];
        if indentLayers == 0 {
          return Some(IndexError);
        }
        indentLayers := indentLayers - 1;
        if !isLast {
          sourceCode := sourceCode + ["\n"];
          AppendTabs();
        }
      }
      return None;
    }

    /** The KEYWORD and BOOL branch (enkelt.py:553-560). */
    method ParseKeyword(v: string)
      modifies this
      ensures State() == EmitKeyword(old(State()), v)
      ensures final == old(final) && userFunctions == old(userFunctions)
    {
      sourceCode := sourceCode + [TranslateKeyword(v)];
      if v == "annars" {
        needsStartStatuses := needsStartStatuses + [true];
      }
    }

    /** The USER_FUNCTION_CALL branch (enkelt.py:566-577). */
    method ParseCall(v: string)
      modifies this
      ensures State() == Append(old(State()), CallName(v) + "(")
      ensures final == old(final) && userFunctions == old(userFunctions)
    {
      var name := v;
      if '.' in v {
        var k := DotIndex(v);
        if v[..k] in StandardLibrary {
          name := "Enkelt.StandardLibrary." + v[..k] + "." + Remove(v[k + 1..], '.');
        } else {
          name := ReplaceAll(v, ".", "__enkelt__");
        }
      }
      sourceCode := sourceCode + [name + "("];
    }

    /** One call of `parse(lexed, token_index)` without its recursive
        call: the tabs of a first token, then the branch of its kind. */
    method ParseToken(ts: seq<Token>, i: nat) returns (err: Option<PyError>)
      requires i < |ts|
      modifies this
      ensures match EmitToken(old(State()), ts, i, Environment())
              case Ok(n) => err == None && State() == n
              case Err(e) => err == Some(e)
      ensures final == old(final) && userFunctions == old(userFunctions)
    {
      if |needsStartStatuses| == 0 {
        return Some(IndexError);
      }
      var needsStart := needsStartStatuses[|needsStartStatuses| - 1];
      if i == 0 {
        AppendTabs();
      }
      err := ParseKind(needsStart, ts, i);
    }

    /** The dispatch on the token's kind (enkelt.py:456-585). */
    method ParseKind(needsStart: bool, ts: seq<Token>, i: nat) returns (err: Option<PyError>)
      requires i < |ts| && |needsStartStatuses| > 0
      modifies this
      ensures match EmitKind(old(State()), needsStart, ts, i, Environment())
              case Ok(n) => err == None && State() == n
              case Err(e) => err == Some(e)
      ensures final == old(final) && userFunctions == old(userFunctions)
    {
      err := None;
      var v := ts[i].text;
      var isLast := i == |ts| - 1;
      match ts[i].kind {
        case Function => ParseFunction(v);
        case Var => ParseVar(v);
        case Str => ParseString(v);
        case PNumber => Emit(v);
        case NNumber => Emit(v);
        case Import => ParseImport(false, v);
        case Extension => ParseImport(true, v);
        case Operator => err := ParseOperator(ts, i);
        case ListStart => Emit(v);
        case ListEnd => Emit(v);
        case Start => ParseStart(needsStart, isLast, v);
        case End => err := ParseEnd(needsStart, isLast, v);
        case Keyword => ParseKeyword(v);
        case Bool => ParseKeyword(v);
        case UserFunction => EmitOpening("def " + ReplaceAll(v, ".", "__enkelt__") + "(");
        case UserFunctionCall =>
          if lambdaNum == 0 {
            ParseCall(v);
          }
        case ObjNotation => EmitOpening(TranslateObjNotation(v));
        case ObjNotationParam => EmitOpening(" " + v);
        case LambdaCall => Emit(v);
      }
    }

    /** `parse(lexed, 0)` (enkelt.py:428-589). A comment pair is walked
        as two "tokens" that emit nothing but the indentation, the second
        of which reads `line[1]`; a token list is emitted from its first
        token on; an empty one raises at `lexed[0]`. */
    method Parse(lexed: Lexed) returns (err: Option<PyError>)
      modifies this
      ensures match EmitLine(old(State()), lexed, Environment())
              case Ok(n) => err == None && State() == n
              case Err(e) => err == Some(e)
      ensures final == old(final) && userFunctions == old(userFunctions)
    {
      match lexed {
        case CommentLine(line) =>
          if |needsStartStatuses| == 0 {
            return Some(IndexError);
          }
          AppendTabs();
          if |line| < 2 {
            return Some(IndexError);
          }
          return None;
        case Tokens(ts) =>
          if |ts| == 0 {
            return Some(IndexError);
          }
          err := ParseFrom(ts, 0);
      }
    }

    /** `parse(lexed, token_index)` and its tail call for the next token
        (enkelt.py:587-589): the tokens from `i` on, first to last; the
        first error ends the line. */
    method ParseFrom(ts: seq<Token>, i: nat) returns (err: Option<PyError>)
      requires i <= |ts|
      modifies this
      ensures match EmitFrom(old(State()), ts, i, Environment())
              case Ok(n) => err == None && State() == n
              case Err(e) => err == Some(e)
      ensures final == old(final) && userFunctions == old(userFunctions)
      decreases |ts| - i
    {
      if i == |ts| {
        return None;
      }
      err := ParseNext(ts, i);
      if err.None? {
        err := ParseFrom(ts, i + 1);
      }
    }

    /** One step of `parse(lexed, token_index)` stated as what it leaves
        for the tokens after it. */
    method ParseNext(ts: seq<Token>, i: nat) returns (err: Option<PyError>)
      requires i < |ts|
      modifies this
      ensures EmitFrom(old(State()), ts, i, Environment())
              == if err.None? then EmitFrom(State(), ts, i + 1, Environment()) else Err(err.value)
      ensures final == old(final) && userFunctions == old(userFunctions)
    {
      ghost var s0 := State();
      err := ParseToken(ts, i);
      assert EmitFrom(s0, ts, i, Environment()) == EmitStep(s0, ts, i, Environment());
    }

    /** `transpile_line` (enkelt.py:854-876). */
    method TranspileLine(line: string) returns (err: Option<PyError>)
      modifies this
      ensures match TranspileStep(old(Snapshot()), line, Environment())
              case Ok(n) => err == None && Snapshot() == n
              case Err(e) => err == Some(e)
    {
      if line != "\n" {
        var data := FixUpCodeLine(line, isExtension);
        var result := Lex(data, userFunctions, importedLibraries);
        match result {
          case Err(e) =>
            return Some(e);
          case Ok((lexed, functions)) =>
            err := EmitLexedLine(lexed, functions);
            return;
        }
      }
      return None;
    }

    /** The part of `transpile_line` after lexing (enkelt.py:872-876): the
        user functions the lexer found are kept, the tokens are emitted,
        and the line's fragments become one entry of `final` followed by
        a newline entry. */
    method EmitLexedLine(lexed: Lexed, functions: seq<string>) returns (err: Option<PyError>)
      modifies this
      ensures match EmitLine(old(State()), lexed, Environment())
              case Ok(n) => err == None && Snapshot() == Session(n.(out := []), old(final) + [Join(n.out), "\n"], functions)
              case Err(e) => err == Some(e)
    {
      userFunctions := functions;
      err := Parse(lexed);
      if err.None? {
        final := final + [Join(sourceCode), "\n"];
        sourceCode := [];
      }
    }

    /** `fix_up_and_prepare_transpiled_code` (enkelt.py:773-801): each
        entry of `final` is repaired in place, and `final` then becomes
        the characters of the rewritten text, three times over. The
        escape placeholders are restored in one scan, as
        `PostProcessor.PreparedCode` states. */
    method FixUpAndPrepareTranspiledCode() returns (code: string)
      modifies this
      ensures code == PreparedCode(old(final))
      ensures final == Chars(code)
      ensures State() == old(State()) && userFunctions == old(userFunctions)
    {
      var lineIndex := 0;
      while lineIndex < |final|
        invariant 0 <= lineIndex <= |final| == |old(final)|
        invariant forall j :: 0 <= j < lineIndex ==> final[j] == RepairedTabs(old(final)[j])
        invariant forall j :: lineIndex <= j < |final| ==> final[j] == old(final)[j]
        invariant State() == old(State()) && userFunctions == old(userFunctions)
      {
        var line := RepairTabs(final[lineIndex]);
        final := final[lineIndex := line];
        lineIndex := lineIndex + 1;
      }
      assert final == seq(|old(final)|, k requires 0 <= k < |old(final)| => RepairedTabs(old(final)[k]));
      var closed := CloseUpOperators(Join(final));
      final := Chars(closed);
      JoinChars(closed);
      var restored := RestoreEscapesInOnePass(Join(final));
      final := Chars(restored);
      JoinChars(restored);
      final := Chars(CollapseBlankLines(Join(final)));
      JoinChars(CollapseBlankLines(restored));
      code := Join(final);
    }
  }
}
