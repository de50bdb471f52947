/** The escape placeholders of Enkelt. Before a line is lexed, an escaped
    quote and every remaining backslash are replaced by placeholder text
    (enkelt.py:751-752), so that the lexer cannot mistake them for string
    delimiters; after the whole program is emitted the placeholders are
    turned back (enkelt.py:792-794). */
module Escapes {
  import opened Text

  const QuoteWord := "-ENKELT_ESCAPED_QUOTE-"
  const BackslashWord := "-ENKELT_ESCAPED_BACKSLASH-"
  const EscapedQuote := "|" + QuoteWord + "|"
  const EscapedBackslash := "|" + BackslashWord + "|"

  predicate StartsWith(s: string, p: string) {
    |p| <= |s| && s[..|p|] == p
  }

  /** The two replacements of enkelt.py:751-752: first each backslash-quote
      pair, then every backslash left over. */
  function EncodeEscapes(s: string): string {
    ReplaceAll(ReplaceAll(s, "\\\"", EscapedQuote), "\\", EscapedBackslash)
  }

  /** The two replacements of enkelt.py:793, as written: first every quote
      placeholder, then every backslash placeholder, each over the whole
      text. */
  function RestoreEscapes(t: string): string {
    ReplaceAll(ReplaceAll(t, EscapedQuote, "\\\""), EscapedBackslash, "\\")
  }

  /** The same encoding described escape by escape: a backslash-quote pair
      becomes one placeholder, a lone backslash another, and every other
      character stays. */
  function EncodeAtoms(s: string): (r: string)
    ensures '\\' !in r
    decreases |s|
  {
    if s == [] then []
    else if StartsWith(s, "\\\"") then EscapedQuote + EncodeAtoms(s[2..])
    else if s[0] == '\\' then EscapedBackslash + EncodeAtoms(s[1..])
    else [s[0]] + EncodeAtoms(s[1..])
  }

  /** Restoration in one left-to-right scan: a placeholder is recognised
      only where the scan stands, so the end of one placeholder can never
      be read as the start of another. */
  function RestoreEscapesInOnePass(t: string): string
    decreases |t|
  {
    if t == [] then []
    else if StartsWith(t, EscapedQuote) then "\\\"" + RestoreEscapesInOnePass(t[|EscapedQuote|..])
    else if StartsWith(t, EscapedBackslash) then "\\" + RestoreEscapesInOnePass(t[|EscapedBackslash|..])
    else [t[0]] + RestoreEscapesInOnePass(t[1..])
  }

  lemma NoBackslashInQuotePlaceholder()
    ensures ReplaceAll(EscapedQuote, "\\", EscapedBackslash) == EscapedQuote
  {
    ReplaceAllSkip(EscapedQuote, "\\", EscapedBackslash, |EscapedQuote|);
  }

  /** The replacements of enkelt.py:751-752 encode escape by escape. */
  lemma {:induction false} EncodeEscapesAtomwise(s: string)
    ensures EncodeEscapes(s) == EncodeAtoms(s)
    decreases |s|
  {
    var q := "\\\"";
    var b := "\\";
    if s == [] {
    } else if |s| < 2 {
      assert ReplaceAll(s, q, EscapedQuote) == s;
      assert s == [s[0]] + [] && s[1..] == [];
      assert !StartsWith(s, q);
      if s[0] == '\\' {
        ReplaceAllAtMatch(b, [], EscapedBackslash);
        assert s == b + [];
        assert EncodeAtoms(s) == EscapedBackslash + EncodeAtoms([]);
      } else {
        assert ReplaceAll(s, b, EscapedBackslash) == [s[0]] + ReplaceAll([], b, EscapedBackslash);
        assert EncodeAtoms(s) == [s[0]] + EncodeAtoms([]);
      }
    } else if s[..2] == q {
      assert StartsWith(s, q);
      var rest := s[2..];
      assert ReplaceAll(s, q, EscapedQuote) == EscapedQuote + ReplaceAll(rest, q, EscapedQuote);
      ReplaceCharConcat(EscapedQuote, ReplaceAll(rest, q, EscapedQuote), '\\', EscapedBackslash);
      NoBackslashInQuotePlaceholder();
      EncodeEscapesAtomwise(rest);
    } else {
      assert !StartsWith(s, q);
      var rest := s[1..];
      assert ReplaceAll(s, q, EscapedQuote) == [s[0]] + ReplaceAll(rest, q, EscapedQuote);
      ReplaceCharConcat([s[0]], ReplaceAll(rest, q, EscapedQuote), '\\', EscapedBackslash);
      if s[0] == '\\' {
        ReplaceAllAtMatch(b, [], EscapedBackslash);
        assert [s[0]] == b + [];
      } else {
        assert ReplaceAll([s[0]], b, EscapedBackslash) == [s[0]];
      }
      EncodeEscapesAtomwise(rest);
    }
  }

  /** Placeholder text never begins where an ordinary character stands. */
  lemma StartsWithFirst(s: string, p: string)
    requires |p| > 0 && |s| > 0 && s[0] != p[0]
    ensures !StartsWith(s, p)
  {
    if |p| <= |s| {
      assert s[..|p|][0] == s[0];
    }
  }

  /** Restoring in one scan gives back every text that had no '|' in it. */
  lemma {:induction false} EscapeRoundTrip(s: string)
    requires '|' !in s
    ensures RestoreEscapesInOnePass(EncodeEscapes(s)) == s
  {
    EncodeEscapesAtomwise(s);
    AtomsRoundTrip(s);
  }

  lemma {:induction false} AtomsRoundTrip(s: string)
    requires '|' !in s
    ensures RestoreEscapesInOnePass(EncodeAtoms(s)) == s
    decreases |s|
  {
    if s == [] {
    } else if StartsWith(s, "\\\"") {
      var rest := EncodeAtoms(s[2..]);
      var t := EscapedQuote + rest;
      assert t[..|EscapedQuote|] == EscapedQuote;
      assert t[|EscapedQuote|..] == rest;
      AtomsRoundTrip(s[2..]);
      assert s == s[..2] + s[2..];
    } else if s[0] == '\\' {
      var rest := EncodeAtoms(s[1..]);
      var t := EscapedBackslash + rest;
      assert t[..|EscapedQuote|][17] != EscapedQuote[17];
      assert !StartsWith(t, EscapedQuote);
      assert t[..|EscapedBackslash|] == EscapedBackslash;
      assert t[|EscapedBackslash|..] == rest;
      AtomsRoundTrip(s[1..]);
      assert s == [s[0]] + s[1..];
    } else {
      var rest := EncodeAtoms(s[1..]);
      var t := [s[0]] + rest;
      StartsWithFirst(t, EscapedQuote);
      StartsWithFirst(t, EscapedBackslash);
      assert t[1..] == rest;
      AtomsRoundTrip(s[1..]);
      assert s == [s[0]] + s[1..];
    }
  }

  /** Text with no backslash encodes to itself. */
  lemma {:induction false} EncodeAtomsPlain(s: string)
    requires '\\' !in s
    ensures EncodeAtoms(s) == s
    decreases |s|
  {
    if s != [] {
      assert !StartsWith(s, "\\\"") by { StartsWithFirst(s, "\\\""); }
      EncodeAtomsPlain(s[1..]);
      assert s == [s[0]] + s[1..];
    }
  }

  /** The line of the counterexample below and its encoding. */
  const BrokenLine := "\\" + QuoteWord + "\\"

  lemma EncodeBrokenLine()
    ensures EncodeEscapes(BrokenLine) == EscapedBackslash + QuoteWord + EscapedBackslash
  {
    var s := BrokenLine;
    EncodeEscapesAtomwise(s);
    assert s[..2][1] != "\\\""[1];
    assert EncodeAtoms(s) == EscapedBackslash + EncodeAtoms(s[1..]);
    assert s[1..] == QuoteWord + "\\";
    EncodeAtomsConcat(QuoteWord, "\\");
    EncodeAtomsPlain(QuoteWord);
    assert EncodeAtoms("\\") == EscapedBackslash + EncodeAtoms([]);
  }

  /** A pattern made of the last character of `b`, then `m`, then the
      first character of `b` is found straddling two copies of `b` around
      `m`, when nothing earlier can start a match. */
  lemma {:induction false} StraddlingMatch(b: string, m: string, q: string, r: string)
    requires |b| >= 2 && q == [b[|b| - 1]] + m + [b[0]]
    requires !StartsWith(b + m + b, q)
    requires forall j :: 1 <= j < |b| - 1 ==> b[j] != q[0]
    ensures ReplaceAll(b + m + b, q, r) == b[..|b| - 1] + r + ReplaceAll(b[1..], q, r)
  {
    var e := b + m + b;
    var e1 := e[1..];
    var k := |b| - 2;
    var tail := ReplaceAll(b[1..], q, r);
    StraddleShape(b, m, q);
    var whole := ReplaceAll(e, q, r);
    var rest := ReplaceAll(e1, q, r);
    assert whole == [e[0]] + rest by {
      assert e[..|q|] != q;
    }
    var pre := e1[..k];
    assert rest == pre + (r + tail) by {
      ReplaceAllSkip(e1, q, r, k);
      ReplaceAllAtMatch(q, b[1..], r);
    }
    assert [e[0]] + pre == b[..|b| - 1];
    assert [e[0]] + (pre + (r + tail)) == ([e[0]] + pre) + r + tail;
  }

  /** How `b + m + b` cuts around the straddling pattern. */
  lemma StraddleShape(b: string, m: string, q: string)
    requires |b| >= 2 && q == [b[|b| - 1]] + m + [b[0]]
    ensures var e := b + m + b;
            |e| >= |q|
            && e[1..][|b| - 2..] == q + b[1..]
            && [e[0]] + e[1..][..|b| - 2] == b[..|b| - 1]
            && forall j :: 0 <= j < |b| - 2 ==> e[1..][j] == b[j + 1]
  {
    var e := b + m + b;
    assert e[1..][|b| - 2..] == [b[|b| - 1]] + m + b;
    assert b == [b[0]] + b[1..];
  }

  /** The first replacement of enkelt.py:793 on that encoding copies the
      first 27 characters and then finds a quote placeholder made of the
      last '|' of one backslash placeholder, the middle text and the first
      '|' of the other. */
  lemma FirstRestoreOnBrokenLine()
    ensures ReplaceAll(EscapedBackslash + QuoteWord + EscapedBackslash, EscapedQuote, "\\\"")
            == EscapedBackslash[..27] + "\\\"" + ReplaceAll(EscapedBackslash[1..], EscapedQuote, "\\\"")
  {
    var b := EscapedBackslash;
    var e := b + QuoteWord + b;
    assert EscapedQuote == [b[27]] + QuoteWord + [b[0]];
    assert e[..|EscapedQuote|][17] != EscapedQuote[17];
    assert b[1..27] == BackslashWord;
    assert '|' !in BackslashWord;
    assert forall j :: 1 <= j < 27 ==> b[j] == b[1..27][j - 1];
    StraddlingMatch(b, QuoteWord, EscapedQuote, "\\\"");
  }

  /** Text that does not start with the pattern keeps its first
      character. */
  lemma FirstCharacterKept(s: string, p: string, r: string)
    requires |p| > 0 && |s| > 0 && !StartsWith(s, p)
    ensures ReplaceAll(s, p, r)[0] == s[0]
  {
  }

  /** The line `\-ENKELT_ESCAPED_QUOTE-\`: no '|', and a backslash first. */
  lemma BrokenLineHasNoBar()
    ensures '|' !in BrokenLine && BrokenLine[0] == '\\'
  {
    assert '|' !in QuoteWord;
  }

  /** After the first replacement of enkelt.py:793 the encoded line
      starts with '|' and has a backslash where a backslash placeholder
      would need its closing '|'. */
  lemma HalfRestoredBrokenLine()
    ensures var a := ReplaceAll(EncodeEscapes(BrokenLine), EscapedQuote, "\\\"");
            |a| > 27 && a[0] == '|' && a[27] == '\\'
  {
    var b := EscapedBackslash;
    EncodeBrokenLine();
    FirstRestoreOnBrokenLine();
    var head := b[..27];
    var tail := "\\\"" + ReplaceAll(b[1..], EscapedQuote, "\\\"");
    assert (head + tail)[0] == head[0] == '|';
    assert (head + tail)[27] == tail[0];
  }

  /** A line with no '|' that the two-step restoration of enkelt.py:793
      does not give back: its encoding restores to a text that starts with
      '|'. */
  lemma RestoreAsWrittenBreaksRoundTrip()
    ensures '|' !in BrokenLine && RestoreEscapes(EncodeEscapes(BrokenLine)) != BrokenLine
  {
    var b := EscapedBackslash;
    var a := ReplaceAll(EncodeEscapes(BrokenLine), EscapedQuote, "\\\"");
    HalfRestoredBrokenLine();
    BrokenLineHasNoBar();
    assert !StartsWith(a, b) by {
      assert b[27] == '|';
      assert a[..|b|][27] != b[27];
    }
    FirstCharacterKept(a, b, "\\");
  }

  /** An ordinary first character is copied by the encoding. */
  lemma EncodeAtomsOrdinary(s: string)
    requires s != [] && s[0] != '\\'
    ensures EncodeAtoms(s) == [s[0]] + EncodeAtoms(s[1..])
  {
    StartsWithFirst(s, "\\\"");
  }

  /** Encoding works escape by escape on a text cut after an ordinary
      character. */
  lemma {:induction false} EncodeAtomsConcat(x: string, y: string)
    requires '\\' !in x
    ensures EncodeAtoms(x + y) == EncodeAtoms(x) + EncodeAtoms(y)
    decreases |x|
  {
    if x == [] {
      assert x + y == y;
    } else {
      var xy := x + y;
      var a, b := EncodeAtoms(x[1..]), EncodeAtoms(y);
      assert EncodeAtoms(xy) == [x[0]] + EncodeAtoms(x[1..] + y) by {
        assert xy[0] == x[0] && xy[1..] == x[1..] + y;
        EncodeAtomsOrdinary(xy);
      }
      assert EncodeAtoms(x[1..] + y) == a + b by {
        EncodeAtomsConcat(x[1..], y);
      }
      assert EncodeAtoms(x) == [x[0]] + a by {
        EncodeAtomsOrdinary(x);
      }
      Regroup([x[0]], a, b);
    }
  }
}
