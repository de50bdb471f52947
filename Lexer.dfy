/** The lexer `lex` (enkelt.py:592-743): one pass over a normalised line,
    driven by a handful of flags, that turns it into `[kind, text]` tokens.
    It reads the user's functions and the imported libraries and adds the
    name of every function the line defines to the user's functions. */
module Lexer {
  import opened Text
  import opened Tables
  import opened Outcomes

  /** The token kinds, in the order the emitter handles them. */
  datatype Kind =
    | Function | Var | Str | PNumber | NNumber | Import | Extension | Operator
    | ListStart | ListEnd | Start | End | Keyword | Bool | UserFunction
    | UserFunctionCall | ObjNotation | ObjNotationParam | LambdaCall

  datatype Token = Token(kind: Kind, text: string)

  /** What `lex` returns: a list of tokens, or, for a line that starts with
      `#`, the two-element list `['COMMENT', line]` itself. */
  datatype Lexed = Tokens(tokens: seq<Token>) | CommentLine(line: string)

  /** `last_action`: which kind of number the previous character extended. */
  datatype LastAction = NoAction | PNumberAction | NNumberAction

  /** The flags of `lex` that say what the characters read so far are
      part of. */
  datatype Modes = Modes(
    isString: bool,
    isVar: bool,
    isFunction: bool,
    isObjNotation: bool,
    isImport: bool,
    isExtensionMode: bool)

  /** The number bookkeeping of `lex`: `last_action`, `might_be_negative`
      and `data_index`. */
  datatype Numbers = Numbers(lastAction: LastAction, mightBeNegative: bool, dataIndex: int)

  /** The local variables of `lex`, and the user's functions it appends to. */
  datatype LexState = LexState(
    tokens: seq<Token>,
    tmp: string,
    modes: Modes,
    numbers: Numbers,
    userFunctions: seq<string>)

  /** How one character ends: lexing goes on, stops at a comment sign, or
      raises. */
  datatype Step = Continue(st: LexState) | Stop(st: LexState) | Fail(error: PyError)

  /** Membership in `operators + list(' =[]{}(')`: the characters that end
      a variable name. */
  predicate IsVarTerminator(c: char) {
    IsOperatorSymbol(c) || c == ' ' || c == '=' || c == '[' || c == ']' || c == '{' || c == '}' || c == '('
  }

  /** `op_dict`: the kind of token the character that ends a variable
      becomes; the space has no entry. */
  function TerminatorKind(c: char): Option<Kind> {
    if IsOperatorSymbol(c) then Some(Operator)
    else if c == '[' then Some(ListStart)
    else if c == ']' then Some(ListEnd)
    else if c == '{' then Some(Start)
    else if c == '}' then Some(End)
    else if c == '(' then Some(LambdaCall)
    else None
  }

  /** Of the characters that end a variable, only the space has no token
      kind, and every other one ends it as an operator, a bracket, a brace
      or a call. */
  lemma SpaceIsTheOnlyUnmappedTerminator(c: char)
    requires IsVarTerminator(c)
    ensures TerminatorKind(c).None? <==> c == ' '
    ensures TerminatorKind(c) == Some(Operator) <==> IsOperatorSymbol(c)
  {
  }

  /** `data_index` counts the number tokens minus one, so it stays below
      the number of tokens; a number being extended has a token to extend. */
  predicate WellFormed(st: LexState) {
    -1 <= st.numbers.dataIndex < |st.tokens|
    && (st.numbers.lastAction == PNumberAction ==> |st.tokens| > 0)
    && (st.numbers.lastAction == NNumberAction ==> st.numbers.dataIndex >= 0)
  }

  const NoModes := Modes(false, false, false, false, false, false)

  /** The state before the first character. */
  function Initial(userFunctions: seq<string>): LexState {
    LexState([], "", NoModes, Numbers(NoAction, false, -1), userFunctions)
  }

  /** The import handling that runs first for every character
      (enkelt.py:625-631): an import line collects its non-space
      characters and is emitted at its last one. */
  function ImportPrelude(st: LexState, c: char, isLast: bool): LexState {
    var tmp := if st.modes.isImport && c != ' ' then st.tmp + [c] else st.tmp;
    if st.modes.isImport && isLast then
      st.(tokens := st.tokens + [Token(if !st.modes.isExtensionMode then Import else Extension, tmp)],
          modes := st.modes.(isImport := false, isExtensionMode := false), tmp := "")
    else st.(tmp := tmp)
  }

  /** A digit outside strings and variables (enkelt.py:649-667). A pending
      `-` or a negative number just before makes it part of a negative
      number, whose continuation writes to index `data_index - 1` of the
      tokens (counting from the end when that is negative); an index
      outside the tokens raises. */
  function LexDigit(st: LexState, c: char): Step {
    var n := st.numbers;
    if n.mightBeNegative || n.lastAction == NNumberAction then
      if n.lastAction == NNumberAction then
        var i := n.dataIndex - 1;
        if -|st.tokens| <= i < |st.tokens| then
          var j := PyIndex(|st.tokens|, i);
          Continue(st.(tokens := st.tokens[j := Token(NNumber, st.tokens[j].text + [c])],
                       numbers := Numbers(NNumberAction, false, n.dataIndex)))
        else Fail(IndexError)
      else
        Continue(st.(tokens := st.tokens + [Token(NNumber, ['-', c])],
                     numbers := Numbers(NNumberAction, false, n.dataIndex + 1)))
    else if n.lastAction == PNumberAction then
      var k := |st.tokens|;
      if k > 0 then
        Continue(st.(tokens := st.tokens[k - 1 := Token(PNumber, st.tokens[k - 1].text + [c])]))
      else Fail(IndexError)
    else
      Continue(st.(tokens := st.tokens + [Token(PNumber, [c])],
                   numbers := Numbers(PNumberAction, false, n.dataIndex + 1)))
  }

  /** A character inside a variable name (enkelt.py:685-702). */
  function LexVar(st: LexState, c: char, isLast: bool): Step {
    var ended := st.modes.(isVar := false);
    if IsVarTerminator(c) then
      if c != ';' then
        match TerminatorKind(c)
        case None => Fail(KeyError)
        case Some(k) =>
          Continue(st.(tokens := st.tokens + [Token(Var, st.tmp), Token(k, [c])], tmp := "", modes := ended))
      else
        Continue(st.(tokens := st.tokens + [Token(Var, st.tmp + " ")], tmp := "", modes := ended))
    else
      var name := st.tmp + [c];
      if isLast then Continue(st.(tokens := st.tokens + [Token(Var, name)], tmp := "", modes := ended))
      else Continue(st.(tmp := name))
  }

  /** A character that reaches the word block (enkelt.py:709-721): a
      complete boolean is emitted, and an opening parenthesis makes the
      word a call of a built-in or of a user function. */
  function LexWord(st: LexState, c: char): LexState {
    if st.tmp == "Sant" || st.tmp == "Falskt" then
      st.(tokens := st.tokens + [Token(Bool, st.tmp)], tmp := "")
    else if c == '(' && TranslateFunction(st.tmp) != NotFound then
      st.(tokens := st.tokens + [Token(Function, st.tmp)], tmp := "")
    else if (c == '(' && st.tmp in st.userFunctions) || (c == '(' && TranslateFunction(st.tmp) == NotFound) then
      st.(tokens := st.tokens + [Token(UserFunctionCall, st.tmp)], tmp := "")
    else ExtendWord(st, c)
  }

  /** Any other character extends the word, outside an import line
      (enkelt.py:722-743); booleans, keywords, `def`, the import keywords
      and object notations are recognised as soon as the word reads as
      one. */
  function ExtendWord(st: LexState, c: char): LexState {
    var word := if !st.modes.isImport then st.tmp + [c] else st.tmp;
    if word == "Sant" || word == "Falskt" then
      st.(tokens := st.tokens + [Token(Bool, word)], tmp := "")
    else if TranslateKeyword(word) != NotFound then
      st.(tokens := st.tokens + [Token(Keyword, word)], tmp := "")
    else if word == "def" then
      st.(modes := st.modes.(isFunction := true), tmp := "")
    else if word == "importera" || word == "utöka" then
      st.(modes := st.modes.(isImport := true, isExtensionMode := word == "utöka"), tmp := "")
    else if word in ObjNotations then
      st.(tokens := st.tokens + [Token(ObjNotation, word)], tmp := "", modes := st.modes.(isObjNotation := true))
    else
      st.(tmp := word)
  }

  /** Every character the earlier branches do not take (enkelt.py:668-743),
      after `last_action` has been cleared: strings, brackets, variables,
      operators and words. */
  function LexOther(st: LexState, c: char, isLast: bool, imported: seq<string>): Step {
    if c == '"' && !st.modes.isString then Continue(st.(modes := st.modes.(isString := true), tmp := ""))
    else if c == '"' && st.modes.isString then
      Continue(st.(modes := st.modes.(isString := false), tokens := st.tokens + [Token(Str, st.tmp)], tmp := ""))
    else if st.modes.isString then Continue(st.(tmp := st.tmp + [c]))
    else if c == '[' && !st.modes.isVar then Continue(st.(tokens := st.tokens + [Token(ListStart, "[")]))
    else if c == ']' && !st.modes.isVar then Continue(st.(tokens := st.tokens + [Token(ListEnd, "]")]))
    else if c == '$' then Continue(st.(modes := st.modes.(isVar := true), tmp := ""))
    else if st.modes.isVar then LexVar(st, c, isLast)
    else if IsOperatorSymbol(c) && st.tmp !in imported && st.tmp !in StandardLibrary then
      Continue(st.(tokens := st.tokens + [Token(Operator, [c])]))
    else if [c] in imported || ([c] in StandardLibrary && c != '.') then
      Continue(st.(tokens := st.tokens + [Token(Operator, [c])]))
    else if [c] in imported || ([c] in StandardLibrary && c == '.') then
      Continue(st.(tmp := st.tmp + [c]))
    else Continue(LexWord(st, c))
  }

  /** One turn of the character loop of `lex` (enkelt.py:624-743). */
  function LexChar(st: LexState, c: char, isLast: bool, imported: seq<string>): Step {
    var pre := ImportPrelude(st, c, isLast);
    var m := pre.modes;
    if m.isFunction && !IsOperatorSymbol(c) && c != '(' then
      Continue(pre.(tmp := pre.tmp + [c]))
    else if m.isFunction && c == '(' then
      Continue(pre.(tokens := pre.tokens + [Token(UserFunction, pre.tmp)],
                    userFunctions := pre.userFunctions + [pre.tmp], tmp := "", modes := m.(isFunction := false)))
    else if c == '{' && !m.isVar then
      if m.isObjNotation then
        Continue(pre.(tokens := pre.tokens + [Token(ObjNotationParam, pre.tmp), Token(Start, "{")], tmp := "",
                      modes := m.(isObjNotation := false)))
      else Continue(pre.(tokens := pre.tokens + [Token(Start, "{")]))
    else if c == '}' && !m.isVar then
      Continue(pre.(tokens := pre.tokens + [Token(End, "}")]))
    else if c == '#' && !m.isString then
      Stop(pre)
    else if IsDigit(c) && !m.isString && !m.isVar then
      LexDigit(pre, c)
    else if c == '-' && !m.isString && !m.isVar then
      Continue(pre.(numbers := pre.numbers.(mightBeNegative := true)))
    else
      LexOther(pre.(numbers := pre.numbers.(lastAction := NoAction)), c, isLast, imported)
  }

  /** The character loop run over `line[i..j]`. */
  function LexRun(st: LexState, line: string, i: nat, j: nat, imported: seq<string>): Step
    requires i <= j <= |line|
    decreases j - i, 0
  {
    if i == j then Continue(st)
    else Follow(LexChar(st, line[i], i == |line| - 1, imported), line, i + 1, j, imported)
  }

  /** The loop after a character has given `step`: it goes on with
      `line[i..j]` only if the character let it continue. */
  function Follow(step: Step, line: string, i: nat, j: nat, imported: seq<string>): Step
    requires i <= j <= |line|
    decreases j - i, 1
  {
    match step
    case Continue(next) => LexRun(next, line, i, j, imported)
    case Stop(last) => Stop(last)
    case Fail(e) => Fail(e)
  }

  /** What `lex` returns for a line, with the user's functions after it;
      the empty line raises at `line[0]`. */
  function LexLine(line: string, userFunctions: seq<string>, imported: seq<string>): Result<(Lexed, seq<string>)> {
    if |line| == 0 then Err(IndexError)
    else if line[0] == '#' then Ok((CommentLine(line), userFunctions))
    else
      match LexRun(Initial(userFunctions), line, 0, |line|, imported)
      case Continue(st) => Ok((Tokens(st.tokens), st.userFunctions))
      case Stop(st) => Ok((Tokens(st.tokens), st.userFunctions))
      case Fail(e) => Err(e)
  }

  /** Running over `line[i..k]` runs over `line[i..j]` and then, unless
      that stopped, over `line[j..k]`. */
  lemma {:induction false} LexRunSplit(st: LexState, line: string, i: nat, j: nat, k: nat, imported: seq<string>)
    requires i <= j <= k <= |line|
    ensures LexRun(st, line, i, k, imported) == Follow(LexRun(st, line, i, j, imported), line, j, k, imported)
    decreases j - i, 0
  {
    if i < j {
      FollowSplit(LexChar(st, line[i], i == |line| - 1, imported), line, i + 1, j, k, imported);
    }
  }

  lemma {:induction false} FollowSplit(step: Step, line: string, i: nat, j: nat, k: nat, imported: seq<string>)
    requires i <= j <= k <= |line|
    ensures Follow(step, line, i, k, imported) == Follow(Follow(step, line, i, j, imported), line, j, k, imported)
    decreases j - i, 1
  {
    if step.Continue? {
      LexRunSplit(step.st, line, i, j, k, imported);
    }
  }

  /** The digit block of `lex` (enkelt.py:649-665). */
  method ScanDigit(st: LexState, c: char) returns (r: Step)
    ensures r == LexDigit(st, c)
  {
    var tokens := st.tokens;
    var dataIndex := st.numbers.dataIndex;
    var lastAction;
    if st.numbers.mightBeNegative || st.numbers.lastAction == NNumberAction {
      if st.numbers.lastAction == NNumberAction {
        var i := dataIndex - 1;
        if !(-|tokens| <= i < |tokens|) {
          return Fail(IndexError);
        }
        var j := PyIndex(|tokens|, i);
        tokens := tokens[j := Token(NNumber, tokens[j].text + [c])];
      } else {
        tokens := tokens + [Token(NNumber, ['-', c])];
        dataIndex := dataIndex + 1;
      }
      lastAction := NNumberAction;
    } else {
      if st.numbers.lastAction == PNumberAction {
        if |tokens| == 0 {
          return Fail(IndexError);
        }
        var last := |tokens| - 1;
        tokens := tokens[last := Token(PNumber, tokens[last].text + [c])];
      } else {
        tokens := tokens + [Token(PNumber, [c])];
        dataIndex := dataIndex + 1;
      }
      lastAction := PNumberAction;
    }
    r := Continue(st.(tokens := tokens, numbers := Numbers(lastAction, false, dataIndex)));
  }

  /** The variable block of `lex` (enkelt.py:685-702); a terminator with
      no entry in `op_dict` raises. */
  method ScanVariable(st: LexState, c: char, isLast: bool) returns (r: Step)
    ensures r == LexVar(st, c, isLast)
  {
    var ended := st.modes.(isVar := false);
    if IsVarTerminator(c) {
      var tokens := st.tokens + [Token(Var, st.tmp)];
      if c != ';' {
        var kind := TerminatorKind(c);
        if kind.None? {
          return Fail(KeyError);
        }
        tokens := tokens + [Token(kind.value, [c])];
      } else {
        tokens := tokens[|tokens| - 1 := Token(Var, st.tmp + " ")];
      }
      r := Continue(st.(tokens := tokens, tmp := "", modes := ended));
    } else {
      var tmp := st.tmp + [c];
      if isLast {
        r := Continue(st.(tokens := st.tokens + [Token(Var, tmp)], tmp := "", modes := ended));
      } else {
        r := Continue(st.(tmp := tmp));
      }
    }
  }

  /** The word block of `lex` (enkelt.py:709-721). */
  method ScanWord(st: LexState, c: char) returns (next: LexState)
    ensures next == LexWord(st, c)
  {
    var kind := None;
    if st.tmp == "Sant" || st.tmp == "Falskt" {
      kind := Some(Bool);
    } else if c == '(' && TranslateFunction(st.tmp) != NotFound {
      kind := Some(Function);
    } else if (c == '(' && st.tmp in st.userFunctions) || (c == '(' && TranslateFunction(st.tmp) == NotFound) {
      kind := Some(UserFunctionCall);
    }
    if kind.Some? {
      next := st.(tokens := st.tokens + [Token(kind.value, st.tmp)], tmp := "");
    } else {
      next := ScanWordExtension(st, c);
    }
  }

  /** The end of the word block (enkelt.py:722-743). */
  method ScanWordExtension(st: LexState, c: char) returns (next: LexState)
    ensures next == ExtendWord(st, c)
  {
    var tmp := st.tmp;
    if !st.modes.isImport {
      tmp := tmp + [c];
    }
    if tmp == "Sant" || tmp == "Falskt" {
      next := st.(tokens := st.tokens + [Token(Bool, tmp)], tmp := "");
    } else if TranslateKeyword(tmp) != NotFound {
      next := st.(tokens := st.tokens + [Token(Keyword, tmp)], tmp := "");
    } else if tmp == "def" {
      next := st.(modes := st.modes.(isFunction := true), tmp := "");
    } else if tmp == "importera" || tmp == "utöka" {
      next := st.(modes := st.modes.(isImport := true, isExtensionMode := tmp == "utöka"), tmp := "");
    } else if tmp in ObjNotations {
      next := st.(tokens := st.tokens + [Token(ObjNotation, tmp)], tmp := "", modes := st.modes.(isObjNotation := true));
    } else {
      next := st.(tmp := tmp);
    }
  }

  /** The last block of the character loop (enkelt.py:668-743), after
      `last_action` has been cleared: strings, brackets, variables,
      operators and words. */
  method ScanOther(st: LexState, c: char, isLast: bool, importedLibraries: seq<string>) returns (r: Step)
    ensures r == LexOther(st, c, isLast, importedLibraries)
  {
    var m := st.modes;
    if c == '"' && !m.isString {
      r := Continue(st.(modes := m.(isString := true), tmp := ""));
    } else if c == '"' && m.isString {
      r := Continue(st.(modes := m.(isString := false), tokens := st.tokens + [Token(Str, st.tmp)], tmp := ""));
    } else if m.isString {
      r := Continue(st.(tmp := st.tmp + [c]));
    } else if c == '[' && !m.isVar {
      r := Continue(st.(tokens := st.tokens + [Token(ListStart, "[")]));
    } else if c == ']' && !m.isVar {
      r := Continue(st.(tokens := st.tokens + [Token(ListEnd, "]")]));
    } else if c == '$' {
      r := Continue(st.(modes := m.(isVar := true), tmp := ""));
    } else if m.isVar {
      r := ScanVariable(st, c, isLast);
    } else if IsOperatorSymbol(c) && st.tmp !in importedLibraries && st.tmp !in StandardLibrary {
      r := Continue(st.(tokens := st.tokens + [Token(Operator, [c])]));
    } else if [c] in importedLibraries || ([c] in StandardLibrary && c != '.') {
      r := Continue(st.(tokens := st.tokens + [Token(Operator, [c])]));
    } else if [c] in importedLibraries || ([c] in StandardLibrary && c == '.') {
      r := Continue(st.(tmp := st.tmp + [c]));
    } else {
      var next := ScanWord(st, c);
      r := Continue(next);
    }
  }

  /** The import handling at the head of the character loop
      (enkelt.py:625-631). */
  method ScanImport(st: LexState, c: char, isLast: bool) returns (next: LexState)
    ensures next == ImportPrelude(st, c, isLast)
  {
    var tmp := st.tmp;
    if st.modes.isImport && c != ' ' {
      tmp := tmp + [c];
    }
    if st.modes.isImport && isLast {
      var kind := if !st.modes.isExtensionMode then Import else Extension;
      next := st.(tokens := st.tokens + [Token(kind, tmp)],
                  modes := st.modes.(isImport := false, isExtensionMode := false), tmp := "");
    } else {
      next := st.(tmp := tmp);
    }
  }

  /** One turn of the character loop of `lex` (enkelt.py:624-743). */
  method ScanChar(st: LexState, c: char, isLast: bool, importedLibraries: seq<string>) returns (r: Step)
    ensures r == LexChar(st, c, isLast, importedLibraries)
  {
    var pre := ScanImport(st, c, isLast);
    var m := pre.modes;
    if m.isFunction && !IsOperatorSymbol(c) && c != '(' {
      r := Continue(pre.(tmp := pre.tmp + [c]));
    } else if m.isFunction && c == '(' {
      var name := pre.tmp;
      r := Continue(pre.(tokens := pre.tokens + [Token(UserFunction, name)],
                         userFunctions := pre.userFunctions + [name], tmp := "", modes := m.(isFunction := false)));
    } else if c == '{' && !m.isVar {
      if m.isObjNotation {
        r := Continue(pre.(tokens := pre.tokens + [Token(ObjNotationParam, pre.tmp), Token(Start, "{")], tmp := "",
                           modes := m.(isObjNotation := false)));
      } else {
        r := Continue(pre.(tokens := pre.tokens + [Token(Start, "{")]));
      }
    } else if c == '}' && !m.isVar {
      r := Continue(pre.(tokens := pre.tokens + [Token(End, "}")]));
    } else if c == '#' && !m.isString {
      r := Stop(pre);
    } else if IsDigit(c) && !m.isString && !m.isVar {
      r := ScanDigit(pre, c);
    } else if c == '-' && !m.isString && !m.isVar {
      r := Continue(pre.(numbers := pre.numbers.(mightBeNegative := true)));
    } else {
      r := ScanOther(pre.(numbers := pre.numbers.(lastAction := NoAction)), c, isLast, importedLibraries);
    }
  }

  /** `lex` (enkelt.py:592-743), with the globals `user_functions` and
      `imported_libraries` passed in and the new `user_functions` passed
      out; a line that raises gives the error. */
  method Lex(line: string, userFunctions: seq<string>, importedLibraries: seq<string>)
    returns (r: Result<(Lexed, seq<string>)>)
    ensures r == LexLine(line, userFunctions, importedLibraries)
  {
    if |line| == 0 {
      return Err(IndexError);
    }
    if line[0] == '#' {
      return Ok((CommentLine(line), userFunctions));
    }

    var st := Initial(userFunctions);
    var i := 0;
    while i < |line|
      invariant 0 <= i <= |line|
      invariant LexRun(st, line, i, |line|, importedLibraries)
                == LexRun(Initial(userFunctions), line, 0, |line|, importedLibraries)
    {
      var step := ScanChar(st, line[i], i == |line| - 1, importedLibraries);
      match step
      case Fail(e) =>
        return Err(e);
      case Stop(last) =>
        return Ok((Tokens(last.tokens), last.userFunctions));
      case Continue(next) =>
        st := next;
      i := i + 1;
    }
    r := Ok((Tokens(st.tokens), st.userFunctions));
  }
}
