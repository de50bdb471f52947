/** Text operations the transpiler borrows from its host language: the
    left-to-right, non-overlapping substring replacement of a string
    (`str.replace`), digit and whitespace classes, and character filtering. */
module Text {

  /** A decimal digit. The host's `isdigit` also accepts other Unicode
      digits; the model keeps to the ASCII ones. */
  predicate IsDigit(c: char) {
    '0' <= c <= '9'
  }

  /** The characters the host's regular-expression class `\s` matches in a
      text pattern (every code point the host calls whitespace). */
  predicate IsSpace(c: char) {
    c == ' ' || ('\t' <= c <= '\r') || ('\U{1C}' <= c <= '\U{1F}')
    || c == '\U{85}' || c == '\U{A0}' || c == '\U{1680}'
    || ('\U{2000}' <= c <= '\U{200A}') || c == '\U{2028}' || c == '\U{2029}'
    || c == '\U{202F}' || c == '\U{205F}' || c == '\U{3000}'
  }

  /** `p` occurs in `s` starting at index `i`. */
  predicate OccursAt(s: string, p: string, i: nat) {
    i + |p| <= |s| && s[i..i + |p|] == p
  }

  ghost predicate Occurs(s: string, p: string) {
    exists i: nat :: OccursAt(s, p, i)
  }

  /** Every occurrence of `p`, scanning left to right and never
      overlapping, is replaced by `r` (the host's `s.replace(p, r)` for a
      non-empty `p`). */
  function ReplaceAll(s: string, p: string, r: string): string
    requires |p| > 0
    decreases |s|
  {
    if |s| < |p| then s
    else if s[..|p|] == p then r + ReplaceAll(s[|p|..], p, r)
    else [s[0]] + ReplaceAll(s[1..], p, r)
  }

  /** `s` with every `c` taken out. */
  function Remove(s: string, c: char): (r: string)
    ensures c !in r
    ensures forall d :: d in r <==> d in s && d != c
  {
    if s == [] then [] else (if s[0] == c then [] else [s[0]]) + Remove(s[1..], c)
  }

  lemma RemoveConcat(a: string, b: string, c: char)
    ensures Remove(a + b, c) == Remove(a, c) + Remove(b, c)
  {
    if a != [] {
      assert (a + b)[1..] == a[1..] + b;
      assert (a + b)[0] == a[0];
      RemoveConcat(a[1..], b, c);
      var h := if a[0] == c then [] else [a[0]];
      assert Remove(a + b, c) == h + Remove(a[1..] + b, c);
      assert Remove(a, c) == h + Remove(a[1..], c);
    } else {
      assert a + b == b;
    }
  }

  /** Text in which `p` does not occur comes back unchanged. */
  lemma {:induction false} ReplaceAllAbsent(s: string, p: string, r: string)
    requires |p| > 0 && !Occurs(s, p)
    ensures ReplaceAll(s, p, r) == s
  {
    if |s| >= |p| {
      assert !OccursAt(s, p, 0);
      assert s[..|p|] != p;
      forall i: nat ensures !OccursAt(s[1..], p, i) {
        assert !OccursAt(s, p, i + 1);
        if i + |p| <= |s| - 1 {
          assert s[1..][i..i + |p|] == s[i + 1..i + 1 + |p|];
        }
      }
      ReplaceAllAbsent(s[1..], p, r);
      assert s == [s[0]] + s[1..];
    }
  }

  /** Replacing a pattern by itself changes nothing. */
  lemma {:induction false} ReplaceAllIdentity(s: string, p: string)
    requires |p| > 0
    ensures ReplaceAll(s, p, p) == s
    decreases |s|
  {
    if |s| >= |p| {
      if s[..|p|] == p {
        ReplaceAllIdentity(s[|p|..], p);
        assert s == s[..|p|] + s[|p|..];
      } else {
        ReplaceAllIdentity(s[1..], p);
        assert s == [s[0]] + s[1..];
      }
    }
  }

  /** Every character of the result comes from the text or from the
      replacement. */
  lemma {:induction false} ReplaceAllChars(s: string, p: string, r: string)
    requires |p| > 0
    ensures forall c :: c in ReplaceAll(s, p, r) ==> c in s || c in r
    decreases |s|
  {
    if |s| >= |p| {
      if s[..|p|] == p {
        ReplaceAllChars(s[|p|..], p, r);
        assert forall c :: c in s[|p|..] ==> c in s;
      } else {
        ReplaceAllChars(s[1..], p, r);
        assert forall c :: c in s[1..] ==> c in s;
      }
    }
  }

  /** Replacing a single character by text that does not contain it leaves
      none of that character behind. */
  lemma {:induction false} ReplaceCharGone(s: string, c: char, r: string)
    requires c !in r
    ensures c !in ReplaceAll(s, [c], r)
    decreases |s|
  {
    if |s| >= 1 {
      ReplaceCharGone(s[1..], c, r);
      if s[..1] != [c] {
        assert s[0] != c;
      }
    }
  }

  /** A character that is absent before and absent from the replacement
      stays absent. */
  lemma ReplaceAllKeepsAbsent(s: string, p: string, r: string, c: char)
    requires |p| > 0 && c !in s && c !in r
    ensures c !in ReplaceAll(s, p, r)
  {
    ReplaceAllChars(s, p, r);
  }

  /** For a one-character pattern, replacement works character by
      character, so it distributes over concatenation. */
  lemma {:induction false} ReplaceCharConcat(a: string, b: string, c: char, r: string)
    ensures ReplaceAll(a + b, [c], r) == ReplaceAll(a, [c], r) + ReplaceAll(b, [c], r)
    decreases |a|
  {
    if a != [] {
      assert (a + b)[1..] == a[1..] + b;
      assert (a + b)[..1] == a[..1];
      assert |[c]| == 1;
      ReplaceCharConcat(a[1..], b, c, r);
      if a[..1] == [c] {
        assert ReplaceAll(a + b, [c], r) == r + ReplaceAll(a[1..] + b, [c], r);
        assert ReplaceAll(a, [c], r) == r + ReplaceAll(a[1..], [c], r);
      } else {
        assert ReplaceAll(a + b, [c], r) == [a[0]] + ReplaceAll(a[1..] + b, [c], r);
        assert ReplaceAll(a, [c], r) == [a[0]] + ReplaceAll(a[1..], [c], r);
      }
    } else {
      assert a + b == b;
    }
  }

  /** A prefix free of the pattern's first character is copied through. */
  lemma {:induction false} ReplaceAllSkip(s: string, p: string, r: string, k: nat)
    requires |p| > 0 && k <= |s|
    requires forall j :: 0 <= j < k ==> s[j] != p[0]
    ensures ReplaceAll(s, p, r) == s[..k] + ReplaceAll(s[k..], p, r)
  {
    ReplaceAllPrefix(s[..k], s[k..], p, r);
    assert s[..k] + s[k..] == s;
  }

  /** The same, stated on a prefix `a` that holds no first letter of the
      pattern. */
  lemma {:induction false} ReplaceAllPrefix(a: string, b: string, p: string, r: string)
    requires |p| > 0
    requires forall j :: 0 <= j < |a| ==> a[j] != p[0]
    ensures ReplaceAll(a + b, p, r) == a + ReplaceAll(b, p, r)
    decreases |a|
  {
    if a == [] {
      assert a + b == b;
    } else {
      var s, t := a + b, a[1..] + b;
      assert s[1..] == t;
      assert ReplaceAll(s, p, r) == [a[0]] + ReplaceAll(t, p, r) by {
        if |s| >= |p| {
          assert s[..|p|][0] == a[0];
        }
      }
      ReplaceAllPrefix(a[1..], b, p, r);
      assert [a[0]] + (a[1..] + ReplaceAll(b, p, r)) == a + ReplaceAll(b, p, r);
    }
  }

  /** Text that starts with the pattern gives the replacement first. */
  lemma ReplaceAllAtMatch(p: string, s: string, r: string)
    requires |p| > 0
    ensures ReplaceAll(p + s, p, r) == r + ReplaceAll(s, p, r)
  {
    assert (p + s)[..|p|] == p;
    assert (p + s)[|p|..] == s;
  }

  /** Concatenation regroups freely. */
  lemma Regroup(a: string, b: string, c: string)
    ensures a + (b + c) == (a + b) + c
  {
  }

  /** The host's `''.join(parts)`. */
  function Join(parts: seq<string>): string
    decreases |parts|
  {
    if parts == [] then [] else Join(parts[..|parts| - 1]) + parts[|parts| - 1]
  }

  /** The host's `list(s)`: one string per character. */
  function Chars(s: string): seq<string> {
    seq(|s|, k requires 0 <= k < |s| => [s[k]])
  }

  /** Joining the characters of a text gives the text back. */
  lemma {:induction false} JoinChars(s: string)
    ensures Join(Chars(s)) == s
    decreases |s|
  {
    if s != [] {
      var n := |s| - 1;
      assert Chars(s)[..n] == Chars(s[..n]);
      JoinChars(s[..n]);
      assert s == s[..n] + [s[n]];
    }
  }
}
