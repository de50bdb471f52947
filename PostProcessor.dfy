/** The post-processor `fix_up_and_prepare_transpiled_code`
    (enkelt.py:773-801), which runs once over everything emitted: the tabs
    a line carries after its first character become spaces, three spaced
    operators are closed up, the escape placeholders are turned back, and
    every run of blank lines becomes one empty line. The method that
    changes `final` in place is `Transpiler.Transpiler.FixUpAndPrepareTranspiledCode`;
    the functions here say what it computes. */
module PostProcessor {
  import opened Text
  import opened Outcomes
  import opened Escapes

  /** A character of the indentation that the repair keeps. */
  predicate IsIndent(c: char) {
    c == '\t' || c == '\n'
  }

  /** The length of the leading run of tabs and newlines. */
  function LeadingRun(line: string): (n: nat)
    ensures n <= |line|
    ensures forall j :: 0 <= j < n ==> IsIndent(line[j])
    ensures n < |line| ==> !IsIndent(line[n])
    decreases |line|
  {
    if line != [] && IsIndent(line[0]) then 1 + LeadingRun(line[1..]) else 0
  }

  /** One fragment after the tab repair of enkelt.py:777-786. */
  function RepairedTabs(line: string): string {
    var n := LeadingRun(line);
    seq(|line|, j requires 0 <= j < |line| => if j >= n && line[j] == '\t' then ' ' else line[j])
  }

  /** The tab repair of one fragment: a walk over its characters that,
      once a character other than a tab or a newline has been seen, turns
      each later tab into a space. The fragment keeps its length and its
      leading run of tabs and newlines; after that run no tab is left and
      every other character stays. */
  method RepairTabs(line: string) returns (r: string)
    ensures |r| == |line|
    ensures r[..LeadingRun(line)] == line[..LeadingRun(line)]
    ensures forall j :: LeadingRun(line) <= j < |line| ==> r[j] == (if line[j] == '\t' then ' ' else line[j])
    ensures r == RepairedTabs(line)
  {
    var n := LeadingRun(line);
    r := line;
    var charsStarted := false;
    var k := 0;
    while k < |r|
      invariant 0 <= k <= |r| == |line|
      invariant charsStarted <==> k > n
      invariant forall j :: 0 <= j < k ==> r[j] == (if j >= n && line[j] == '\t' then ' ' else line[j])
      invariant r[k..] == line[k..]
    {
      var c := r[k];
      assert c == line[k];
      if c != '\t' && c != '\n' && !charsStarted {
        charsStarted := true;
      } else if charsStarted && c == '\t' && k > 0 {
        r := r[k := ' '];
      }
      k := k + 1;
    }
  }

  /** Repairing a second time changes nothing: the repaired fragment has
      the same leading run and no tab after it. */
  lemma RepairTabsIdempotent(line: string)
    ensures RepairedTabs(RepairedTabs(line)) == RepairedTabs(line)
    ensures '\t' !in RepairedTabs(line)[LeadingRun(line)..]
  {
    var r := RepairedTabs(line);
    var n := LeadingRun(line);
    assert n < |line| ==> r[n] == line[n];
    LeadingRunAgree(line, r, n);
    assert LeadingRun(r) == n;
  }

  /** Two texts that agree on a leading run and on the character ending
      it have that run in common. */
  lemma {:induction false} LeadingRunAgree(a: string, b: string, n: nat)
    requires n == LeadingRun(a) && |a| == |b|
    requires a[..n] == b[..n] && (n < |a| ==> b[n] == a[n])
    ensures LeadingRun(b) == n
    decreases n
  {
    if n > 0 {
      assert a[1..][..n - 1] == b[1..][..n - 1];
      assert b[0] == a[0];
      LeadingRunAgree(a[1..], b[1..], n - 1);
    }
  }

  /** The three rewrites of enkelt.py:789, in order. The second one turns
      a spaced `! =` into `==`, not into `!=`. */
  function CloseUpOperators(s: string): string {
    ReplaceAll(ReplaceAll(ReplaceAll(s, "= =", "=="), "! =", "=="), "+ =", "+=")
  }

  /** A spaced `! =` comes out as the equality `==`, and a spaced `+ =`
      as `+=`. */
  lemma SpacedOperators()
    ensures CloseUpOperators("! =") == "=="
    ensures CloseUpOperators("+ =") == "+="
    ensures CloseUpOperators("= =") == "=="
  {
    var p := "! =";
    assert ReplaceAll(p, "= =", "==") == p by {
      assert p[..3] != "= =";
      assert p[1..][..3 - 1] == " =";
    }
    assert ReplaceAll(p, "! =", "==") == "==" by {
      ReplaceAllAtMatch("! =", "", "==");
      assert "! =" + "" == "! =";
    }
    assert ReplaceAll("==", "+ =", "+=") == "==";
    var q := "+ =";
    assert ReplaceAll(q, "= =", "==") == q by {
      assert q[1..][..3 - 1] == " =";
    }
    assert ReplaceAll(q, "! =", "==") == q;
    assert ReplaceAll(q, "+ =", "+=") == "+=" by {
      ReplaceAllAtMatch("+ =", "", "+=");
      assert "+ =" + "" == "+ =";
    }
    var e := "= =";
    assert ReplaceAll(e, "= =", "==") == "==" by {
      ReplaceAllAtMatch("= =", "", "==");
      assert "= =" + "" == "= =";
    }
    assert ReplaceAll("==", "! =", "==") == "==";
  }

  /** Text with no space is not changed by the rewrites: each pattern
      holds a space. */
  lemma CloseUpWithoutSpaces(s: string)
    requires ' ' !in s
    ensures CloseUpOperators(s) == s
  {
    NoSpaceNoMatch(s, "= =");
    ReplaceAllAbsent(s, "= =", "==");
    NoSpaceNoMatch(s, "! =");
    ReplaceAllAbsent(s, "! =", "==");
    NoSpaceNoMatch(s, "+ =");
    ReplaceAllAbsent(s, "+ =", "+=");
  }

  lemma NoSpaceNoMatch(s: string, p: string)
    requires ' ' !in s && |p| == 3 && p[1] == ' '
    ensures !Occurs(s, p)
  {
    forall i: nat
      ensures !OccursAt(s, p, i)
    {
      if i + 3 <= |s| {
        assert s[i..i + 3][1] == s[i + 1];
      }
    }
  }

  /** The length of the leading run of whitespace. */
  function SpacePrefix(x: string): (n: nat)
    ensures n <= |x|
    ensures forall j :: 0 <= j < n ==> IsSpace(x[j])
    ensures n < |x| ==> !IsSpace(x[n])
    decreases |x|
  {
    if x != [] && IsSpace(x[0]) then 1 + SpacePrefix(x[1..]) else 0
  }

  /** The index of the last newline of a text. */
  function LastNewline(x: string): (r: Option<nat>)
    ensures r.Some? ==> r.value < |x| && x[r.value] == '\n' && '\n' !in x[r.value + 1..]
    ensures r.None? ==> '\n' !in x
    decreases |x|
  {
    if x == [] then None
    else if x[|x| - 1] == '\n' then Some(|x| - 1)
    else
      var r := LastNewline(x[..|x| - 1]);
      assert x == x[..|x| - 1] + [x[|x| - 1]];
      if r.Some? then
        assert x[r.value + 1..] == x[..|x| - 1][r.value + 1..] + [x[|x| - 1]];
        r
      else r
  }

  /** The host's `re.sub(r'\n\s*\n', '\n\n', s)`. At a newline the
      pattern takes the longest run of whitespace that follows and gives
      back characters until it ends on a newline; when that run holds no
      newline there is no match there and the scan moves on by one
      character. */
  function CollapseBlankLines(s: string): string
    decreases |s|
  {
    if s == [] then []
    else if s[0] == '\n' then
      var rest := s[1..];
      match LastNewline(rest[..SpacePrefix(rest)])
      case Some(k) => "\n\n" + CollapseBlankLines(rest[k + 1..])
      case None => "\n" + CollapseBlankLines(rest)
    else [s[0]] + CollapseBlankLines(s[1..])
  }

  /** No newline before the first character that is not whitespace. */
  predicate NoLeadingNewline(x: string) {
    '\n' !in x[..SpacePrefix(x)]
  }

  /** Text without blank lines: every newline is followed, before the next
      character that is not whitespace, by no other newline, or by one
      more newline at once and then no other. */
  predicate Collapsed(r: string)
    decreases |r|
  {
    r == []
    || (Collapsed(r[1..])
        && (r[0] == '\n' ==> NoLeadingNewline(r[1..]) || (|r| > 1 && r[1] == '\n' && NoLeadingNewline(r[2..]))))
  }

  /** Collapsing keeps a leading stretch of whitespace free of newlines. */
  lemma {:induction false} CollapseKeepsNoLeadingNewline(s: string)
    requires NoLeadingNewline(s)
    ensures NoLeadingNewline(CollapseBlankLines(s))
    decreases |s|
  {
    var r := CollapseBlankLines(s);
    if s != [] {
      assert s[0] != '\n' by {
        if SpacePrefix(s) == 0 { assert !IsSpace(s[0]); } else { assert s[..SpacePrefix(s)][0] == s[0]; }
      }
      assert r == [s[0]] + CollapseBlankLines(s[1..]);
      if IsSpace(s[0]) {
        assert s[..SpacePrefix(s)] == [s[0]] + s[1..][..SpacePrefix(s[1..])];
        CollapseKeepsNoLeadingNewline(s[1..]);
        var t := CollapseBlankLines(s[1..]);
        assert r[1..] == t;
        assert r[..SpacePrefix(r)] == [s[0]] + t[..SpacePrefix(t)];
      } else {
        assert SpacePrefix(r) == 0;
      }
    }
  }

  /** After the last newline of a whitespace run the run holds no other
      newline. */
  lemma AfterLastNewline(rest: string, k: nat)
    requires LastNewline(rest[..SpacePrefix(rest)]) == Some(k)
    ensures NoLeadingNewline(rest[k + 1..])
  {
    var w := SpacePrefix(rest);
    var tail := rest[k + 1..];
    assert SpacePrefix(tail) == w - (k + 1) by {
      SpacePrefixFrom(rest, k + 1);
    }
    assert tail[..SpacePrefix(tail)] == rest[..w][k + 1..];
  }

  /** Inside a whitespace run, the run from a later point ends where the
      whole run ends. */
  lemma {:induction false} SpacePrefixFrom(x: string, m: nat)
    requires m <= SpacePrefix(x)
    ensures SpacePrefix(x[m..]) == SpacePrefix(x) - m
    decreases m
  {
    if m > 0 {
      assert x[m..] == x[1..][m - 1..];
      SpacePrefixFrom(x[1..], m - 1);
    }
  }

  /** The result of the substitution has no blank lines left. */
  lemma {:induction false} CollapseBlankLinesCollapses(s: string)
    ensures Collapsed(CollapseBlankLines(s))
    decreases |s|
  {
    var r := CollapseBlankLines(s);
    if s != [] {
      var rest := s[1..];
      if s[0] == '\n' {
        match LastNewline(rest[..SpacePrefix(rest)])
        case Some(k) =>
          var t := CollapseBlankLines(rest[k + 1..]);
          CollapseBlankLinesCollapses(rest[k + 1..]);
          AfterLastNewline(rest, k);
          CollapseKeepsNoLeadingNewline(rest[k + 1..]);
          assert r[1..] == "\n" + t && r[2..] == t;
          assert Collapsed(r[1..]) by {
            assert r[1..][1..] == t;
            assert NoLeadingNewline(r[1..][1..]);
          }
        case None =>
          CollapseBlankLinesCollapses(rest);
          assert NoLeadingNewline(rest);
          CollapseKeepsNoLeadingNewline(rest);
          assert r[1..] == CollapseBlankLines(rest);
      } else {
        CollapseBlankLinesCollapses(rest);
        assert r[1..] == CollapseBlankLines(rest);
      }
    }
  }

  /** Text with no blank lines is left as it is, so collapsing twice is
      collapsing once. */
  lemma {:induction false} CollapsedUnchanged(s: string)
    requires Collapsed(s)
    ensures CollapseBlankLines(s) == s
    decreases |s|
  {
    if s != [] {
      var rest := s[1..];
      if s[0] == '\n' {
        if NoLeadingNewline(rest) {
          assert LastNewline(rest[..SpacePrefix(rest)]).None?;
          CollapsedUnchanged(rest);
        } else {
          assert |s| > 1 && s[1] == '\n' && NoLeadingNewline(s[2..]);
          assert IsSpace(rest[0]);
          assert SpacePrefix(rest) == 1 + SpacePrefix(rest[1..]);
          assert rest[1..] == s[2..];
          assert rest[..SpacePrefix(rest)] == [rest[0]] + s[2..][..SpacePrefix(s[2..])];
          assert LastNewline(rest[..SpacePrefix(rest)]) == Some(0) by {
            var x := rest[..SpacePrefix(rest)];
            assert x[1..] == s[2..][..SpacePrefix(s[2..])];
            assert forall j :: 1 <= j < |x| ==> x[j] == x[1..][j - 1];
          }
          assert Collapsed(s[2..]) by { assert s[2..] == s[1..][1..]; }
          CollapsedUnchanged(s[2..]);
          assert rest[1..] == s[2..];
          assert s == "\n\n" + s[2..];
        }
      } else {
        CollapsedUnchanged(rest);
      }
    }
  }

  lemma CollapseIdempotent(s: string)
    ensures CollapseBlankLines(CollapseBlankLines(s)) == CollapseBlankLines(s)
  {
    CollapseBlankLinesCollapses(s);
    CollapsedUnchanged(CollapseBlankLines(s));
  }

  /** The characters that are not whitespace, in order. */
  function Visible(s: string): string
    decreases |s|
  {
    if s == [] then [] else (if IsSpace(s[0]) then [] else [s[0]]) + Visible(s[1..])
  }

  lemma {:induction false} VisibleOfSpaces(s: string, n: nat)
    requires n <= |s| && forall j :: 0 <= j < n ==> IsSpace(s[j])
    ensures Visible(s) == Visible(s[n..])
    decreases n
  {
    if n > 0 {
      assert s[n..] == s[1..][n - 1..];
      VisibleOfSpaces(s[1..], n - 1);
    }
  }

  lemma VisibleCons(c: char, t: string)
    ensures Visible([c] + t) == (if IsSpace(c) then [] else [c]) + Visible(t)
  {
    assert ([c] + t)[1..] == t;
  }

  /** The substitution removes whitespace only: every other character is
      kept, in order. */
  lemma {:induction false} CollapseKeepsVisible(s: string)
    ensures Visible(CollapseBlankLines(s)) == Visible(s)
    decreases |s|
  {
    if s != [] {
      var rest := s[1..];
      VisibleCons(s[0], rest);
      assert s == [s[0]] + rest;
      if s[0] == '\n' {
        match LastNewline(rest[..SpacePrefix(rest)])
        case Some(k) =>
          var t := CollapseBlankLines(rest[k + 1..]);
          CollapseKeepsVisible(rest[k + 1..]);
          VisibleOfSpaces(rest, k + 1);
          VisibleCons('\n', t);
          VisibleCons('\n', "\n" + t);
          assert "\n\n" + t == ['\n'] + (['\n'] + t);
        case None =>
          CollapseKeepsVisible(rest);
          VisibleCons('\n', CollapseBlankLines(rest));
      } else {
        CollapseKeepsVisible(rest);
        VisibleCons(s[0], CollapseBlankLines(rest));
      }
    }
  }

  /** The text `fix_up_and_prepare_transpiled_code` returns for the
      fragments in `final`, with the placeholders restored in one scan
      (`Escapes.RestoreEscapesInOnePass`) rather than by the two
      whole-text replacements of enkelt.py:793, which can break an
      escape apart (`Escapes.RestoreAsWrittenBreaksRoundTrip`). */
  function PreparedCode(final: seq<string>): string {
    var repaired := seq(|final|, k requires 0 <= k < |final| => RepairedTabs(final[k]));
    CollapseBlankLines(RestoreEscapesInOnePass(CloseUpOperators(Join(repaired))))
  }
}
