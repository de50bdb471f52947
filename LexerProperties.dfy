/** What the lexer promises: how digits, a minus sign and variables are
    tokenised, that a brace is a block token even inside a string, that the
    only error a non-empty line can raise is the missing `op_dict` entry for
    a space after a variable, and what the negative-number continuation
    really writes to. */
module LexerProperties {
  import opened Text
  import opened Tables
  import opened Outcomes
  import opened Lexer

  /** Outside a string, a variable, a function header and an import line. */
  predicate Plain(st: LexState) {
    !st.modes.isString && !st.modes.isVar && !st.modes.isFunction && !st.modes.isImport
  }

  /** The import prelude only appends tokens; the numbers and the user's
      functions stay as they were. */
  lemma ImportPreludeKeeps(st: LexState, c: char, isLast: bool)
    ensures var pre := ImportPrelude(st, c, isLast);
            |pre.tokens| >= |st.tokens| && pre.numbers == st.numbers && pre.userFunctions == st.userFunctions
  {
  }

  /** The word block only appends tokens; the numbers and the user's
      functions stay as they were. */
  lemma LexWordKeeps(st: LexState, c: char)
    ensures var next := LexWord(st, c);
            |next.tokens| >= |st.tokens| && next.numbers == st.numbers && next.userFunctions == st.userFunctions
  {
  }

  /** The last block of the loop only appends tokens and leaves the numbers
      and the user's functions alone; it fails only on a space that ends a
      variable. */
  lemma LexOtherKeeps(st: LexState, c: char, isLast: bool, imported: seq<string>)
    ensures var r := LexOther(st, c, isLast, imported);
            !r.Fail? ==> |r.st.tokens| >= |st.tokens| && r.st.numbers == st.numbers
                         && r.st.userFunctions == st.userFunctions
    ensures var r := LexOther(st, c, isLast, imported);
            r.Fail? ==> r.error == KeyError && c == ' ' && st.modes.isVar
  {
    if st.modes.isString || c == '"' || c == '[' || c == ']' || c == '$' {
    } else if st.modes.isVar {
    } else {
      LexWordKeeps(st, c);
    }
  }

  /** A number is only ever extended when there is a token to extend. */
  lemma LexDigitKeepsWellFormed(st: LexState, c: char)
    requires WellFormed(st)
    ensures LexDigit(st, c).Continue? && WellFormed(LexDigit(st, c).st)
  {
  }

  /** One character keeps the state well formed, and the only error it
      can raise is the KeyError of a space that ends a variable. */
  lemma LexCharKeepsWellFormed(st: LexState, c: char, isLast: bool, imported: seq<string>)
    requires WellFormed(st)
    ensures var r := LexChar(st, c, isLast, imported);
            (!r.Fail? ==> WellFormed(r.st)) && (r.Fail? ==> r.error == KeyError && c == ' ')
  {
    var pre := ImportPrelude(st, c, isLast);
    ImportPreludeKeeps(st, c, isLast);
    var m := pre.modes;
    if m.isFunction && !IsOperatorSymbol(c) && c != '(' {
    } else if m.isFunction && c == '(' {
    } else if (c == '{' || c == '}') && !m.isVar {
    } else if c == '#' && !m.isString {
    } else if IsDigit(c) && !m.isString && !m.isVar {
      LexDigitKeepsWellFormed(pre, c);
    } else if c == '-' && !m.isString && !m.isVar {
    } else {
      LexOtherKeeps(pre.(numbers := pre.numbers.(lastAction := NoAction)), c, isLast, imported);
    }
  }

  /** The same over a stretch of the line. */
  lemma {:induction false} LexRunKeepsWellFormed(st: LexState, line: string, i: nat, j: nat, imported: seq<string>)
    requires WellFormed(st) && i <= j <= |line|
    ensures var r := LexRun(st, line, i, j, imported);
            (!r.Fail? ==> WellFormed(r.st)) && (r.Fail? ==> r.error == KeyError && ' ' in line[i..j])
    decreases j - i
  {
    if i < j {
      var step := LexChar(st, line[i], i == |line| - 1, imported);
      LexCharKeepsWellFormed(st, line[i], i == |line| - 1, imported);
      assert LexRun(st, line, i, j, imported) == Follow(step, line, i + 1, j, imported);
      if step.Continue? {
        LexRunKeepsWellFormed(step.st, line, i + 1, j, imported);
        assert forall x :: x in line[i + 1..j] ==> x in line[i..j];
      } else if step.Fail? {
        assert line[i] == line[i..j][0];
      }
    }
  }

  /** `lex` raises an IndexError only on the empty line and a KeyError only
      on a line with a space in it: the index it writes a number digit to
      always exists. */
  lemma LexErrors(line: string, userFunctions: seq<string>, imported: seq<string>)
    ensures LexLine(line, userFunctions, imported) == Err(IndexError) <==> |line| == 0
    ensures LexLine(line, userFunctions, imported) == Err(KeyError) ==> ' ' in line
  {
    if |line| > 0 && line[0] != '#' {
      LexRunKeepsWellFormed(Initial(userFunctions), line, 0, |line|, imported);
      assert line[0..|line|] == line;
    }
  }

  /** A digit outside strings and variables with no `-` pending opens a
      PNUMBER token, unless it continues one. */
  lemma DigitOpensNumber(st: LexState, c: char, isLast: bool, imported: seq<string>)
    requires Plain(st) && IsDigit(c) && !st.numbers.mightBeNegative && st.numbers.lastAction == NoAction
    ensures LexChar(st, c, isLast, imported)
            == Continue(st.(tokens := st.tokens + [Token(PNumber, [c])],
                            numbers := Numbers(PNumberAction, false, st.numbers.dataIndex + 1)))
  {
  }

  /** The next digit is appended to the last token, the PNUMBER it
      continues. */
  lemma DigitExtendsNumber(st: LexState, c: char, isLast: bool, imported: seq<string>)
    requires Plain(st) && IsDigit(c) && !st.numbers.mightBeNegative && st.numbers.lastAction == PNumberAction
    requires |st.tokens| > 0
    ensures var n := |st.tokens|;
            LexChar(st, c, isLast, imported)
            == Continue(st.(tokens := st.tokens[..n - 1] + [Token(PNumber, st.tokens[n - 1].text + [c])]))
  {
    var n := |st.tokens|;
    assert st.tokens[n - 1 := Token(PNumber, st.tokens[n - 1].text + [c])]
           == st.tokens[..n - 1] + [Token(PNumber, st.tokens[n - 1].text + [c])];
  }

  /** Consecutive digits, with no `-` pending, merge into one PNUMBER token
      whose text is those digits. */
  lemma DigitsFormOneNumber(st: LexState, line: string, i: nat, j: nat, imported: seq<string>)
    requires Plain(st) && !st.numbers.mightBeNegative && st.numbers.lastAction == NoAction
    requires i < j <= |line| && forall k :: i <= k < j ==> IsDigit(line[k])
    ensures LexRun(st, line, i, j, imported)
            == Continue(st.(tokens := st.tokens + [Token(PNumber, line[i..j])],
                            numbers := Numbers(PNumberAction, false, st.numbers.dataIndex + 1)))
  {
    DigitOpensNumber(st, line[i], i == |line| - 1, imported);
    var first := st.(tokens := st.tokens + [Token(PNumber, [line[i]])],
                     numbers := Numbers(PNumberAction, false, st.numbers.dataIndex + 1));
    assert LexRun(st, line, i, j, imported) == LexRun(first, line, i + 1, j, imported);
    DigitsContinueNumber(first, st.tokens, [line[i]], line, i + 1, j, imported);
    assert [line[i]] + line[i + 1..j] == line[i..j];
  }

  lemma {:induction false} DigitsContinueNumber(st: LexState, before: seq<Token>, digits: string,
                                                line: string, i: nat, j: nat, imported: seq<string>)
    requires Plain(st) && !st.numbers.mightBeNegative && st.numbers.lastAction == PNumberAction
    requires st.tokens == before + [Token(PNumber, digits)]
    requires i <= j <= |line| && forall k :: i <= k < j ==> IsDigit(line[k])
    ensures LexRun(st, line, i, j, imported)
            == Continue(st.(tokens := before + [Token(PNumber, digits + line[i..j])]))
    decreases j - i
  {
    if i == j {
      assert digits + line[i..j] == digits;
      assert st.(tokens := before + [Token(PNumber, digits)]) == st;
    } else {
      DigitExtendsNumber(st, line[i], i == |line| - 1, imported);
      var n := |st.tokens|;
      assert st.tokens[..n - 1] == before;
      var next := st.(tokens := before + [Token(PNumber, digits + [line[i]])]);
      assert LexRun(st, line, i, j, imported) == LexRun(next, line, i + 1, j, imported);
      DigitsContinueNumber(next, before, digits + [line[i]], line, i + 1, j, imported);
      assert digits + [line[i]] + line[i + 1..j] == digits + line[i..j];
    }
  }

  /** A `-` outside strings and variables never becomes an OPERATOR token:
      it only sets the pending flag. */
  lemma MinusIsPending(st: LexState, isLast: bool, imported: seq<string>)
    requires !st.modes.isString && !st.modes.isVar && !st.modes.isImport
    ensures LexChar(st, '-', isLast, imported) == Continue(st.(numbers := st.numbers.(mightBeNegative := true)))
  {
  }

  /** With a `-` pending, the next digit opens an NNUMBER token whose text
      is `-` followed by that digit. */
  lemma PendingMinusOpensNegativeNumber(st: LexState, c: char, isLast: bool, imported: seq<string>)
    requires Plain(st) && IsDigit(c) && st.numbers.mightBeNegative && st.numbers.lastAction != NNumberAction
    ensures LexChar(st, c, isLast, imported)
            == Continue(st.(tokens := st.tokens + [Token(NNumber, ['-', c])],
                            numbers := Numbers(NNumberAction, false, st.numbers.dataIndex + 1)))
  {
  }

  /** The pending `-` is sticky: only a digit outside strings, variables
      and function headers clears it, only a `-` there sets it, and every
      other character leaves it as it was. */
  lemma PendingMinusFlag(st: LexState, c: char, isLast: bool, imported: seq<string>)
    requires !LexChar(st, c, isLast, imported).Fail?
    ensures LexChar(st, c, isLast, imported).st.numbers.mightBeNegative
            == if IsDigit(c) && !st.modes.isString && !st.modes.isVar && !st.modes.isFunction then false
               else if c == '-' && !st.modes.isString && !st.modes.isVar then true
               else st.numbers.mightBeNegative
  {
    var pre := ImportPrelude(st, c, isLast);
    ImportPreludeKeeps(st, c, isLast);
    var m := pre.modes;
    if m.isFunction && !IsOperatorSymbol(c) && c != '(' {
    } else if m.isFunction && c == '(' {
    } else if (c == '{' || c == '}') && !m.isVar {
    } else if c == '#' && !m.isString {
    } else if IsDigit(c) && !m.isString && !m.isVar {
    } else if c == '-' && !m.isString && !m.isVar {
    } else {
      LexOtherKeeps(pre.(numbers := pre.numbers.(lastAction := NoAction)), c, isLast, imported);
    }
  }

  /** A digit that continues a negative number is written to index
      `data_index - 1` of the tokens, counting from the end when that is
      -1, and no other token changes. */
  lemma NegativeContinuationTarget(st: LexState, c: char, isLast: bool, imported: seq<string>)
    requires WellFormed(st) && Plain(st) && IsDigit(c) && st.numbers.lastAction == NNumberAction
    ensures var j := PyIndex(|st.tokens|, st.numbers.dataIndex - 1);
            LexChar(st, c, isLast, imported)
            == Continue(st.(tokens := st.tokens[j := Token(NNumber, st.tokens[j].text + [c])],
                            numbers := st.numbers.(mightBeNegative := false)))
  {
  }

  /** So a negative number extends itself only when it is the first number
      of the line; after an earlier number the digit lands on the token at
      `data_index - 1`, which is not the last token. */
  lemma NegativeContinuationMissesLaterNumber(st: LexState, c: char, isLast: bool, imported: seq<string>)
    requires WellFormed(st) && Plain(st) && IsDigit(c) && st.numbers.lastAction == NNumberAction
    requires st.numbers.dataIndex >= 1
    ensures var n := |st.tokens|;
            var r := LexChar(st, c, isLast, imported);
            var target := st.numbers.dataIndex - 1;
            r.Continue? && r.st.tokens[n - 1] == st.tokens[n - 1]
            && r.st.tokens[target] == Token(NNumber, st.tokens[target].text + [c])
  {
    NegativeContinuationTarget(st, c, isLast, imported);
  }

  /** A `-` and digits make one NNUMBER token `-` + digits when no number
      came earlier on the line. */
  lemma NegativeFirstNumber(st: LexState, line: string, i: nat, j: nat, imported: seq<string>)
    requires Plain(st) && st.numbers == Numbers(NoAction, false, -1)
    requires i + 1 < j <= |line| && line[i] == '-' && forall k :: i < k < j ==> IsDigit(line[k])
    ensures LexRun(st, line, i, j, imported)
            == Continue(st.(tokens := st.tokens + [Token(NNumber, ['-'] + line[i + 1..j])],
                            numbers := Numbers(NNumberAction, false, 0)))
  {
    MinusIsPending(st, i == |line| - 1, imported);
    var pending := st.(numbers := Numbers(NoAction, true, -1));
    assert LexRun(st, line, i, j, imported) == LexRun(pending, line, i + 1, j, imported);
    PendingMinusOpensNegativeNumber(pending, line[i + 1], i + 1 == |line| - 1, imported);
    var started := st.(tokens := st.tokens + [Token(NNumber, ['-', line[i + 1]])],
                       numbers := Numbers(NNumberAction, false, 0));
    assert LexRun(pending, line, i + 1, j, imported) == LexRun(started, line, i + 2, j, imported);
    NegativeDigitsContinue(started, st.tokens, ['-', line[i + 1]], line, i + 2, j, imported);
    assert ['-', line[i + 1]] + line[i + 2..j] == ['-'] + line[i + 1..j];
  }

  lemma {:induction false} NegativeDigitsContinue(st: LexState, before: seq<Token>, text: string,
                                                  line: string, i: nat, j: nat, imported: seq<string>)
    requires Plain(st) && st.numbers == Numbers(NNumberAction, false, 0)
    requires st.tokens == before + [Token(NNumber, text)]
    requires i <= j <= |line| && forall k :: i <= k < j ==> IsDigit(line[k])
    ensures LexRun(st, line, i, j, imported)
            == Continue(st.(tokens := before + [Token(NNumber, text + line[i..j])]))
    decreases j - i
  {
    if i == j {
      assert text + line[i..j] == text;
      assert st.(tokens := before + [Token(NNumber, text)]) == st;
    } else {
      NegativeContinuationTarget(st, line[i], i == |line| - 1, imported);
      var n := |st.tokens|;
      assert PyIndex(n, -1) == n - 1;
      assert st.tokens[n - 1 := Token(NNumber, text + [line[i]])] == before + [Token(NNumber, text + [line[i]])];
      var next := st.(tokens := before + [Token(NNumber, text + [line[i]])]);
      assert LexRun(st, line, i, j, imported) == LexRun(next, line, i + 1, j, imported);
      NegativeDigitsContinue(next, before, text + [line[i]], line, i + 1, j, imported);
      assert text + [line[i]] + line[i + 1..j] == text + line[i..j];
    }
  }

  /** The tokens a variable named `name` and ended by `t` leaves: a VAR
      token and the terminator's own token, or, for `;`, one VAR token
      whose text ends in a space. */
  function VarTokens(name: string, t: char): seq<Token>
    requires IsVarTerminator(t) && t != ' '
  {
    if t == ';' then [Token(Var, name + " ")] else [Token(Var, name), Token(TerminatorKind(t).value, [t])]
  }

  /** A character that can be part of a variable name. */
  predicate IsNameChar(c: char) {
    !IsVarTerminator(c) && c != '$' && c != '"' && c != '#'
  }

  /** Inside a variable, outside strings, function headers and import lines. */
  predicate InVar(st: LexState) {
    st.modes.isVar && !st.modes.isString && !st.modes.isFunction && !st.modes.isImport
  }

  /** A terminator ends the variable: VAR, then `[op_dict[c], c]`, except
      that `;` gives the VAR text a trailing space and a space raises. */
  lemma VariableEnds(st: LexState, c: char, isLast: bool, imported: seq<string>)
    requires InVar(st) && IsVarTerminator(c)
    ensures c == ' ' ==> LexChar(st, c, isLast, imported) == Fail(KeyError)
    ensures c != ' ' ==> LexChar(st, c, isLast, imported)
                         == Continue(st.(tokens := st.tokens + VarTokens(st.tmp, c), tmp := "",
                                         modes := st.modes.(isVar := false),
                                         numbers := st.numbers.(lastAction := NoAction)))
  {
  }

  /** Name characters are collected into the variable's text. */
  lemma {:induction false} NameChars(st: LexState, line: string, i: nat, j: nat, imported: seq<string>)
    returns (named: LexState)
    requires InVar(st) && st.numbers.lastAction == NoAction
    requires i <= j < |line| && forall k :: i <= k < j ==> IsNameChar(line[k])
    ensures named == st.(tmp := st.tmp + line[i..j])
    ensures LexRun(st, line, i, j, imported) == Continue(named)
    decreases j - i
  {
    if i == j {
      named := st;
      assert st.tmp + line[i..j] == st.tmp;
    } else {
      var next := st.(tmp := st.tmp + [line[i]]);
      assert LexChar(st, line[i], false, imported) == Continue(next);
      assert LexRun(st, line, i, j, imported) == LexRun(next, line, i + 1, j, imported);
      named := NameChars(next, line, i + 1, j, imported);
      assert st.tmp + [line[i]] + line[i + 1..j] == st.tmp + line[i..j];
    }
  }

  /** `$name` followed by a terminator yields the variable's tokens. */
  lemma VariableToken(st: LexState, line: string, i: nat, j: nat, imported: seq<string>)
    requires Plain(st)
    requires i < j < |line| && line[i] == '$' && forall k :: i < k < j ==> IsNameChar(line[k])
    requires IsVarTerminator(line[j]) && line[j] != ' '
    ensures LexRun(st, line, i, j + 1, imported)
            == Continue(st.(tokens := st.tokens + VarTokens(line[i + 1..j], line[j]), tmp := "",
                            numbers := st.numbers.(lastAction := NoAction)))
  {
    var inVar := st.(modes := st.modes.(isVar := true), tmp := "", numbers := st.numbers.(lastAction := NoAction));
    assert LexChar(st, '$', false, imported) == Continue(inVar);
    assert LexRun(st, line, i, j + 1, imported) == LexRun(inVar, line, i + 1, j + 1, imported);
    var named := NameChars(inVar, line, i + 1, j, imported);
    LexRunSplit(inVar, line, i + 1, j, j + 1, imported);
    VariableEnds(named, line[j], j == |line| - 1, imported);
    assert "" + line[i + 1..j] == line[i + 1..j];
    var ended := named.(tokens := named.tokens + VarTokens(named.tmp, line[j]), tmp := "",
                        modes := named.modes.(isVar := false), numbers := named.numbers.(lastAction := NoAction));
    assert ended == st.(tokens := st.tokens + VarTokens(line[i + 1..j], line[j]), tmp := "",
                        numbers := st.numbers.(lastAction := NoAction));
    assert LexRun(named, line, j, j + 1, imported) == Follow(Continue(ended), line, j + 1, j + 1, imported);
    assert Follow(Continue(ended), line, j + 1, j + 1, imported) == Continue(ended);
  }

  /** A variable that runs to the end of the line is still emitted. */
  lemma VariableAtLineEnd(st: LexState, line: string, i: nat, imported: seq<string>)
    requires Plain(st)
    requires i + 1 < |line| && line[i] == '$' && forall k :: i < k < |line| ==> IsNameChar(line[k])
    ensures LexRun(st, line, i, |line|, imported)
            == Continue(st.(tokens := st.tokens + [Token(Var, line[i + 1..])], tmp := "",
                            numbers := st.numbers.(lastAction := NoAction)))
  {
    var n := |line|;
    var inVar := st.(modes := st.modes.(isVar := true), tmp := "", numbers := st.numbers.(lastAction := NoAction));
    assert LexChar(st, '$', false, imported) == Continue(inVar);
    assert LexRun(st, line, i, n, imported) == LexRun(inVar, line, i + 1, n, imported);
    var named := NameChars(inVar, line, i + 1, n - 1, imported);
    LexRunSplit(inVar, line, i + 1, n - 1, n, imported);
    assert "" + line[i + 1..n - 1] + [line[n - 1]] == line[i + 1..];
    var ended := st.(tokens := st.tokens + [Token(Var, line[i + 1..])], tmp := "",
                     numbers := st.numbers.(lastAction := NoAction));
    assert LexChar(named, line[n - 1], true, imported) == Continue(ended);
    assert LexRun(named, line, n - 1, n, imported) == Follow(Continue(ended), line, n, n, imported);
    assert Follow(Continue(ended), line, n, n, imported) == Continue(ended);
  }

  /** Braces are checked before strings, so a brace inside a string is
      still a block token; a `#` there is kept as text. */
  lemma BracesInsideStrings(st: LexState, isLast: bool, imported: seq<string>)
    requires st.modes.isString && !st.modes.isVar && !st.modes.isFunction && !st.modes.isImport
    requires !st.modes.isObjNotation
    ensures LexChar(st, '{', isLast, imported) == Continue(st.(tokens := st.tokens + [Token(Start, "{")]))
    ensures LexChar(st, '}', isLast, imported) == Continue(st.(tokens := st.tokens + [Token(End, "}")]))
    ensures LexChar(st, '#', isLast, imported)
            == Continue(st.(tmp := st.tmp + ['#'], numbers := st.numbers.(lastAction := NoAction)))
  {
  }

  /** The name `def` starts a function header; its name is added to the
      user's functions exactly when the header's `(` emits the
      USER_FUNCTION token for it, and no other character adds one. */
  lemma UserFunctionRecorded(st: LexState, c: char, isLast: bool, imported: seq<string>)
    requires !LexChar(st, c, isLast, imported).Fail?
    ensures var next := LexChar(st, c, isLast, imported).st;
            var pre := ImportPrelude(st, c, isLast);
            if st.modes.isFunction && c == '(' then
              next.userFunctions == st.userFunctions + [pre.tmp]
              && next.tokens == pre.tokens + [Token(UserFunction, pre.tmp)]
            else next.userFunctions == st.userFunctions
  {
    var pre := ImportPrelude(st, c, isLast);
    ImportPreludeKeeps(st, c, isLast);
    var m := pre.modes;
    if m.isFunction && !IsOperatorSymbol(c) && c != '(' {
    } else if m.isFunction && c == '(' {
    } else if (c == '{' || c == '}') && !m.isVar {
    } else if c == '#' && !m.isString {
    } else if IsDigit(c) && !m.isString && !m.isVar {
    } else if c == '-' && !m.isString && !m.isVar {
    } else {
      LexOtherKeeps(pre.(numbers := pre.numbers.(lastAction := NoAction)), c, isLast, imported);
    }
  }
}
