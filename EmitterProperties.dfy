/** What the emitter promises: `needs_start_statuses` is never emptied and
    the lambda counter never goes negative, so `parse` raises only where a
    `}` closes a block that was never opened or an arrow ends the line; a
    header, its `{` and its `}` leave both stacks as they were; the lambda
    counter rises only on the arrow `= >` before a user function call and
    suspends block handling while it is positive; calls into the standard
    library are qualified; a comment line emits only its indentation. */
module EmitterProperties {
  import opened Text
  import opened Tables
  import opened Outcomes
  import opened Lexer
  import opened Emitter

  /** The bottom `False` of `needs_start_statuses` is still there, and the
      lambda counter is not negative. */
  predicate Valid(s: EmitState) {
    |s.layout.needsStart| >= 1 && !s.layout.needsStart[0] && s.lambdaNum >= 0
  }

  /** `needs_start_statuses[-1]`. */
  function Top(s: EmitState): bool
    requires |s.layout.needsStart| > 0
  {
    s.layout.needsStart[|s.layout.needsStart| - 1]
  }

  /** The output after the tabs that precede the first token of a line. */
  function Indented(s: EmitState, i: nat): seq<string> {
    if i == 0 then s.out + Tabs(s.layout.indentLayers) else s.out
  }

  /** A `}` that would close a host block when no block is open. */
  predicate UnopenedEnd(s: EmitState, t: Token)
    requires |s.layout.needsStart| > 0
  {
    t.kind == End && s.lambdaNum == 0 && Top(s) && s.layout.indentLayers == 0
  }

  lemma StartStartsValid()
    ensures Valid(Emitter.Start)
  {
  }

  /** What one token may do: keep the state valid, or raise an IndexError
      for a `}` with no open block or an arrow `= >` at the end of the
      line. */
  predicate TokenKeepsValid(s: EmitState, ts: seq<Token>, i: nat, env: Env)
    requires |s.layout.needsStart| > 0 && i < |ts|
  {
    match EmitToken(s, ts, i, env)
    case Ok(n) => Valid(n)
    case Err(e) =>
      e == IndexError
      && (UnopenedEnd(s, ts[i]) || (ts[i].kind == Operator && ArrowAfterEquals(ts, i) && i == |ts| - 1))
  }

  /** The OPERATOR branch keeps the state valid and raises only for an
      arrow `= >` at the end of the line. */
  lemma EmitOperatorKeepsValid(s: EmitState, ts: seq<Token>, i: nat)
    requires Valid(s) && i < |ts|
    ensures match EmitOperator(s, ts, i)
            case Ok(n) => Valid(n)
            case Err(e) => e == IndexError && ArrowAfterEquals(ts, i) && i == |ts| - 1
  {
  }

  /** The END branch keeps the state valid: the `True` it pops is never the
      bottom `False`. */
  lemma EmitEndKeepsValid(s: EmitState, isLast: bool, v: string)
    requires Valid(s)
    ensures match EmitEnd(s, Top(s), isLast, v)
            case Ok(n) => Valid(n)
            case Err(e) => e == IndexError && s.lambdaNum == 0 && Top(s) && s.layout.indentLayers == 0
  {
    var ns := s.layout.needsStart;
    if s.lambdaNum == 0 && Top(s) && s.layout.indentLayers > 0 {
      assert |ns| != 1;
      assert ns[..|ns| - 1][0] == ns[0];
    }
  }

  lemma FunctionKeepsValid(s: EmitState, ts: seq<Token>, i: nat, env: Env)
    requires Valid(s) && i < |ts| && ts[i].kind == Function
    ensures TokenKeepsValid(s, ts, i, env)
  {
  }

  lemma KeywordKeepsValid(s: EmitState, ts: seq<Token>, i: nat, env: Env)
    requires Valid(s) && i < |ts| && (ts[i].kind == Keyword || ts[i].kind == Bool)
    ensures TokenKeepsValid(s, ts, i, env)
  {
  }

  /** The tokens that open a construct: a fragment and a `True` pushed. */
  lemma PushKeepsValid(s: EmitState, ts: seq<Token>, i: nat, env: Env)
    requires Valid(s) && i < |ts|
    requires ts[i].kind == UserFunction || ts[i].kind == ObjNotation || ts[i].kind == ObjNotationParam
    ensures TokenKeepsValid(s, ts, i, env)
  {
  }

  lemma ImportKeepsValid(s: EmitState, ts: seq<Token>, i: nat, env: Env)
    requires Valid(s) && i < |ts| && (ts[i].kind == Import || ts[i].kind == Extension)
    ensures TokenKeepsValid(s, ts, i, env)
  {
  }

  /** The tokens that leave both stacks alone. */
  lemma AppendKeepsValid(s: EmitState, ts: seq<Token>, i: nat, env: Env)
    requires Valid(s) && i < |ts|
    requires ts[i].kind == Var || ts[i].kind == Str || ts[i].kind == PNumber || ts[i].kind == NNumber
             || ts[i].kind == ListStart || ts[i].kind == ListEnd || ts[i].kind == Start
             || ts[i].kind == UserFunctionCall || ts[i].kind == LambdaCall
    ensures TokenKeepsValid(s, ts, i, env)
  {
  }

  /** One token keeps the state valid; it raises only an IndexError, and
      only for a `}` with no open block or an arrow `= >` at the end of
      the line. */
  lemma EmitTokenKeepsValid(s: EmitState, ts: seq<Token>, i: nat, env: Env)
    requires Valid(s) && i < |ts|
    ensures TokenKeepsValid(s, ts, i, env)
  {
    var t := s.(out := Indented(s, i));
    var k := ts[i].kind;
    if k == Operator {
      EmitOperatorKeepsValid(t, ts, i);
    } else if k == End {
      EmitEndKeepsValid(t, i == |ts| - 1, ts[i].text);
    } else if k == Function {
      FunctionKeepsValid(s, ts, i, env);
    } else if k == Keyword || k == Bool {
      KeywordKeepsValid(s, ts, i, env);
    } else if k == UserFunction || k == ObjNotation || k == ObjNotationParam {
      PushKeepsValid(s, ts, i, env);
    } else if k == Import || k == Extension {
      ImportKeepsValid(s, ts, i, env);
    } else {
      AppendKeepsValid(s, ts, i, env);
    }
  }

  /** The same over the rest of a line. */
  lemma {:induction false} EmitFromKeepsValid(s: EmitState, ts: seq<Token>, i: nat, env: Env)
    requires Valid(s) && i <= |ts|
    ensures match EmitFrom(s, ts, i, env)
            case Ok(n) => Valid(n)
            case Err(e) => e == IndexError
    decreases |ts| - i
  {
    if i < |ts| {
      assert EmitFrom(s, ts, i, env) == EmitStep(s, ts, i, env);
      EmitTokenKeepsValid(s, ts, i, env);
      match EmitToken(s, ts, i, env)
      case Ok(next) => EmitFromKeepsValid(next, ts, i + 1, env);
      case Err(_) =>
    }
  }

  /** `parse` on what `lex` returned keeps the state valid and raises
      nothing but IndexError. */
  lemma EmitLineKeepsValid(s: EmitState, lexed: Lexed, env: Env)
    requires Valid(s)
    ensures match EmitLine(s, lexed, env)
            case Ok(n) => Valid(n)
            case Err(e) => e == IndexError
  {
    if lexed.Tokens? && |lexed.tokens| > 0 {
      EmitFromKeepsValid(s, lexed.tokens, 0, env);
    }
  }

  /** Outside a lambda, a `{` that a header asked for becomes `:` (`:\n`
      when more follows) and opens one indentation layer. */
  lemma StartOpensBlock(s: EmitState, ts: seq<Token>, i: nat, env: Env)
    requires Valid(s) && s.lambdaNum == 0 && Top(s)
    requires i < |ts| && ts[i].kind == Start
    ensures EmitToken(s, ts, i, env)
            == Ok(s.(out := Indented(s, i) + [if i == |ts| - 1 then ":" else ":\n"],
                     layout := s.layout.(indentLayers := s.layout.indentLayers + 1)))
  {
  }

  /** Outside a lambda, the `}` of an open block pops both stacks and, when
      more follows, breaks the line and indents it to the new depth. */
  lemma EndClosesBlock(s: EmitState, ts: seq<Token>, i: nat, env: Env)
    requires Valid(s) && s.lambdaNum == 0 && Top(s) && s.layout.indentLayers > 0
    requires i < |ts| && ts[i].kind == End
    ensures var ns := s.layout.needsStart;
            var depth := s.layout.indentLayers - 1;
            EmitToken(s, ts, i, env)
            == Ok(s.(out := Indented(s, i) + (if i == |ts| - 1 then [] else ["\n"] + Tabs(depth)),
                     layout := Layout(depth, ns[..|ns| - 1])))
  {
    var ns := s.layout.needsStart;
    var depth := s.layout.indentLayers - 1;
    if i < |ts| - 1 {
      assert Indented(s, i) + ["\n"] + Tabs(depth) == Indented(s, i) + (["\n"] + Tabs(depth));
    } else {
      assert Indented(s, i) + [] == Indented(s, i);
    }
  }

  /** A header pushes `True`; its `{` then opens a layer, and the `}` that
      meets the same stacks again pops both: the stacks are back where they
      were before the header, whatever the block emitted in between. */
  lemma BlockRestoresLayout(s: EmitState, ts: seq<Token>, i: nat, inner: EmitState, j: nat, env: Env)
    requires Valid(s) && s.lambdaNum == 0
    requires i < |ts| && ts[i].kind == Start && j < |ts| && ts[j].kind == End
    requires EmitToken(Push(s), ts, i, env).Ok?
    requires inner.layout == EmitToken(Push(s), ts, i, env).value.layout && inner.lambdaNum == 0
    ensures EmitToken(inner, ts, j, env).Ok?
    ensures EmitToken(inner, ts, j, env).value.layout == s.layout
  {
    var header := Push(s);
    assert Valid(header) && Top(header);
    StartOpensBlock(header, ts, i, env);
    var ns := header.layout.needsStart;
    assert Valid(inner) && Top(inner) by {
      assert inner.layout.needsStart == ns;
    }
    EndClosesBlock(inner, ts, j, env);
    assert ns[..|ns| - 1] == s.layout.needsStart;
  }

  /** The arrow of a lambda: `>` after `=` and before a user function
      call, read with the host's wrap-around for the token before. */
  predicate LambdaArrow(ts: seq<Token>, i: nat)
    requires i < |ts|
  {
    ts[i].kind == Operator && ArrowAfterEquals(ts, i) && i + 1 < |ts| && ts[i + 1].kind == UserFunctionCall
  }

  /** The lambda counter rises exactly on the arrow of a lambda, by one,
      and falls by at most one. */
  lemma LambdaCounter(s: EmitState, ts: seq<Token>, i: nat, env: Env)
    requires Valid(s) && i < |ts| && EmitToken(s, ts, i, env).Ok?
    ensures var n := EmitToken(s, ts, i, env).value;
            (n.lambdaNum > s.lambdaNum <==> LambdaArrow(ts, i))
            && (LambdaArrow(ts, i) ==> n.lambdaNum == s.lambdaNum + 1)
            && s.lambdaNum - 1 <= n.lambdaNum
  {
    var t := s.(out := Indented(s, i));
    assert EmitToken(s, ts, i, env) == EmitKind(t, Top(s), ts, i, env);
    match ts[i].kind {
      case Operator => OperatorLambdaCount(t, ts, i);
      case Function =>
      case Var =>
      case Str =>
      case PNumber =>
      case NNumber =>
      case Import =>
      case Extension =>
      case ListStart =>
      case ListEnd =>
      case Start =>
      case End =>
      case Keyword =>
      case Bool =>
      case UserFunction =>
      case UserFunctionCall =>
      case ObjNotation =>
      case ObjNotationParam =>
      case LambdaCall =>
    }
  }

  /** An operator raises the lambda counter by one on the arrow and leaves
      it as it was otherwise. */
  lemma OperatorLambdaCount(t: EmitState, ts: seq<Token>, i: nat)
    requires i < |ts| && ts[i].kind == Operator && EmitOperator(t, ts, i).Ok?
    ensures EmitOperator(t, ts, i).value.lambdaNum == if LambdaArrow(ts, i) then t.lambdaNum + 1 else t.lambdaNum
  {
    if LambdaArrow(ts, i) {
      assert EmitOperator(t, ts, i) == Ok(EmitLambda(t, ts, i));
    }
  }

  /** While a lambda is open, a `{` emits nothing and touches no stack, and
      a `}` only closes the lambda. */
  lemma LambdaSuspendsBlocks(s: EmitState, ts: seq<Token>, i: nat, env: Env)
    requires Valid(s) && s.lambdaNum > 0 && i < |ts|
    ensures ts[i].kind == Start ==> EmitToken(s, ts, i, env) == Ok(s.(out := Indented(s, i)))
    ensures ts[i].kind == End
            ==> EmitToken(s, ts, i, env) == Ok(s.(out := Indented(s, i), lambdaNum := s.lambdaNum - 1))
  {
  }

  /** The first dot of `lib.rest` is the one after `lib` when `lib` has
      none. */
  lemma DotAfterPrefix(lib: string, rest: string)
    requires '.' !in lib
    ensures DotIndex(lib + "." + rest) == |lib|
    decreases |lib|
  {
    var v := lib + "." + rest;
    if lib != [] {
      assert v[1..] == lib[1..] + "." + rest;
      DotAfterPrefix(lib[1..], rest);
    }
  }

  /** A call `lib.rest` into the standard library is emitted as
      `Enkelt.StandardLibrary.lib.rest(`, with the dots of `rest`
      dropped. */
  lemma StandardLibraryCall(lib: string, rest: string)
    requires lib in StandardLibrary
    ensures CallName(lib + "." + rest) == "Enkelt.StandardLibrary." + lib + "." + Remove(rest, '.')
  {
    var v := lib + "." + rest;
    assert '.' !in lib;
    DotAfterPrefix(lib, rest);
    assert v[|lib|] == '.';
    assert v[..|lib|] == lib && v[|lib| + 1..] == rest;
  }

  /** Any other call keeps no dot: each one is spelt `__enkelt__`, and a
      name without dots is emitted as it is. */
  lemma OtherCallHasNoDots(v: string)
    requires '.' !in v || v[..DotIndex(v)] !in StandardLibrary
    ensures '.' !in v ==> CallName(v) == v
    ensures '.' in v ==> CallName(v) == ReplaceAll(v, ".", "__enkelt__") && '.' !in CallName(v)
  {
    if '.' in v {
      ReplaceCharGone(v, '.', "__enkelt__");
    }
  }

  /** A comment line lexes to the comment pair, and `parse` then emits
      its indentation and nothing else; the line `#` alone raises. */
  lemma CommentLineEmitsIndentation(s: EmitState, line: string, userFunctions: seq<string>,
                                    imported: seq<string>, env: Env)
    requires Valid(s) && |line| > 0 && line[0] == '#'
    ensures LexLine(line, userFunctions, imported) == Ok((CommentLine(line), userFunctions))
    ensures |line| >= 2 ==> EmitLine(s, CommentLine(line), env) == Ok(s.(out := s.out + Tabs(s.layout.indentLayers)))
    ensures |line| == 1 ==> EmitLine(s, CommentLine(line), env) == Err(IndexError)
  {
  }
}
