/** The line normaliser `fix_up_code_line` (enkelt.py:746-770): it prepares a
    source line with a fixed chain of replacements and then drops every space
    that stands outside a double-quoted string, unless the line has started
    with the import keyword `importera`. */
module Normaliser {
  import opened Text
  import opened Escapes

  const ImportKeyword := "importera"

  /** The replacements of enkelt.py:749-754: newlines go, single quotes
      become double quotes, escapes become placeholders and, outside an
      extension, tabs go. */
  function Prepare(statement: string, isExtension: bool): string {
    var noNewline := ReplaceAll(statement, "\n", "");
    var doubleQuoted := ReplaceAll(noNewline, "'", "\"");
    var escaped := EncodeEscapes(doubleQuoted);
    if isExtension then escaped else ReplaceAll(escaped, "\t", "")
  }

  /** The prepared line holds no newline, no single quote and no backslash,
      and no tab unless an extension is being read. */
  lemma PrepareClean(statement: string, isExtension: bool)
    ensures var p := Prepare(statement, isExtension);
            '\n' !in p && '\'' !in p && '\\' !in p && (!isExtension ==> '\t' !in p)
  {
    var a := ReplaceAll(statement, "\n", "");
    ReplaceCharGone(statement, '\n', "");
    var b := ReplaceAll(a, "'", "\"");
    ReplaceCharGone(a, '\'', "\"");
    ReplaceAllKeepsAbsent(a, "'", "\"", '\n');
    EncodeEscapesAtomwise(b);
    var c := EncodeEscapes(b);
    assert '\\' !in c;
    ReplaceAllKeepsAbsent(b, "\\\"", EscapedQuote, '\n');
    ReplaceAllKeepsAbsent(b, "\\\"", EscapedQuote, '\'');
    ReplaceAllKeepsAbsent(ReplaceAll(b, "\\\"", EscapedQuote), "\\", EscapedBackslash, '\n');
    ReplaceAllKeepsAbsent(ReplaceAll(b, "\\\"", EscapedQuote), "\\", EscapedBackslash, '\'');
    if !isExtension {
      ReplaceCharGone(c, '\t', "");
      ReplaceAllKeepsAbsent(c, "\t", "", '\n');
      ReplaceAllKeepsAbsent(c, "\t", "", '\'');
      ReplaceAllKeepsAbsent(c, "\t", "", '\\');
    }
  }

  /** The character scan of enkelt.py:756-770 from a given point: `line`
      is what has been kept so far, `inString` says whether an odd number
      of quotes has been kept, `inImport` whether the kept text has read
      `importera`. */
  function Scan(s: string, inString: bool, inImport: bool, line: string): string
    decreases |s|
  {
    if s == [] then line
    else if s[0] == ' ' && !inString && !inImport then Scan(s[1..], inString, inImport, line)
    else
      var kept := line + [s[0]];
      Scan(s[1..], if s[0] == '"' then !inString else inString, inImport || kept == ImportKeyword, kept)
  }

  /** What `fix_up_code_line` returns, given whether an extension is being
      read. */
  function Normalise(statement: string, isExtension: bool): string {
    Scan(Prepare(statement, isExtension), false, false, "")
  }

  /** Spaces outside quotes dropped, everything else kept: an independent
      statement of the scan without the import rule. */
  function DropUnquotedSpaces(s: string, inString: bool): string
    decreases |s|
  {
    if s == [] then []
    else if s[0] == ' ' && !inString then DropUnquotedSpaces(s[1..], inString)
    else [s[0]] + DropUnquotedSpaces(s[1..], if s[0] == '"' then !inString else inString)
  }

  /** Once the import keyword has been read, nothing more is dropped. */
  lemma {:induction false} ScanInImportKeepsAll(s: string, inString: bool, line: string)
    ensures Scan(s, inString, true, line) == line + s
    decreases |s|
  {
    if s != [] {
      ScanInImportKeepsAll(s[1..], if s[0] == '"' then !inString else inString, line + [s[0]]);
      assert line + [s[0]] + s[1..] == line + s;
    }
  }

  /** The scan drops only spaces: with the spaces taken out, its result and
      its input are the same text. */
  lemma {:induction false} ScanDropsOnlySpaces(s: string, inString: bool, inImport: bool, line: string)
    ensures Remove(Scan(s, inString, inImport, line), ' ') == Remove(line, ' ') + Remove(s, ' ')
    decreases |s|
  {
    if s != [] {
      var t := s[1..];
      var h := if s[0] == ' ' then [] else [s[0]];
      assert Remove(s, ' ') == h + Remove(t, ' ');
      if s[0] == ' ' && !inString && !inImport {
        ScanDropsOnlySpaces(t, inString, inImport, line);
        assert h + Remove(t, ' ') == Remove(t, ' ');
      } else {
        var kept := line + [s[0]];
        ScanDropsOnlySpaces(t, if s[0] == '"' then !inString else inString, inImport || kept == ImportKeyword, kept);
        RemoveConcat(line, [s[0]], ' ');
        assert Remove([s[0]], ' ') == h by {
          assert [s[0]][1..] == [];
        }
        Regroup(Remove(line, ' '), h, Remove(t, ' '));
      }
    }
  }

  /** Every character of the scan's result was already kept or read. */
  lemma {:induction false} ScanChars(s: string, inString: bool, inImport: bool, line: string)
    ensures forall c :: c in Scan(s, inString, inImport, line) ==> c in line || c in s
    decreases |s|
  {
    if s != [] {
      var kept := line + [s[0]];
      if s[0] == ' ' && !inString && !inImport {
        ScanChars(s[1..], inString, inImport, line);
      } else {
        ScanChars(s[1..], if s[0] == '"' then !inString else inString, inImport || kept == ImportKeyword, kept);
      }
      assert forall c :: c in s[1..] ==> c in s;
    }
  }

  predicate StartsWithImport(t: string) {
    StartsWith(t, ImportKeyword)
  }

  /** A line that does not begin with `importera` (spaces aside) has
      exactly its unquoted spaces dropped. */
  lemma {:induction false} ScanWithoutImport(s: string, inString: bool, line: string)
    requires !StartsWithImport(line + DropUnquotedSpaces(s, inString))
    ensures Scan(s, inString, false, line) == line + DropUnquotedSpaces(s, inString)
    decreases |s|
  {
    if s != [] {
      if s[0] == ' ' && !inString {
        ScanWithoutImport(s[1..], inString, line);
      } else {
        var kept := line + [s[0]];
        var q := if s[0] == '"' then !inString else inString;
        var rest := DropUnquotedSpaces(s[1..], q);
        assert line + DropUnquotedSpaces(s, inString) == kept + rest;
        assert (kept + rest)[..|kept|] == kept;
        assert kept != ImportKeyword;
        ScanWithoutImport(s[1..], q, kept);
      }
    }
  }

  /** A line that begins with `importera` (spaces aside) has its unquoted
      spaces dropped only up to the end of that keyword, at index `k` of the
      text; from there on every character is kept. */
  lemma {:induction false} ScanWithImport(s: string, inString: bool, line: string) returns (k: nat)
    requires |line| < |ImportKeyword| && line == ImportKeyword[..|line|]
    requires StartsWithImport(line + DropUnquotedSpaces(s, inString))
    ensures k <= |s| && line + DropUnquotedSpaces(s[..k], inString) == ImportKeyword
    ensures Scan(s, inString, false, line) == ImportKeyword + s[k..]
    decreases |s|, 1
  {
    if s == [] {
      assert false;
    } else if s[0] == ' ' && !inString {
      var k' := ScanWithImport(s[1..], inString, line);
      k := k' + 1;
      DropLeadingCharacter(s, inString, k);
      assert [] + DropUnquotedSpaces(s[1..][..k'], inString) == DropUnquotedSpaces(s[1..][..k'], inString);
      assert s[1..][k'..] == s[k..];
    } else {
      k := ScanWithImportKept(s, inString, line);
    }
  }

  /** The same when the scan keeps the first character. */
  lemma {:induction false} ScanWithImportKept(s: string, inString: bool, line: string) returns (k: nat)
    requires |line| < |ImportKeyword| && line == ImportKeyword[..|line|]
    requires StartsWithImport(line + DropUnquotedSpaces(s, inString))
    requires s != [] && !(s[0] == ' ' && !inString)
    ensures k <= |s| && line + DropUnquotedSpaces(s[..k], inString) == ImportKeyword
    ensures Scan(s, inString, false, line) == ImportKeyword + s[k..]
    decreases |s|, 0
  {
    var kept := line + [s[0]];
    var q := if s[0] == '"' then !inString else inString;
    var rest := DropUnquotedSpaces(s[1..], q);
    assert line + DropUnquotedSpaces(s, inString) == kept + rest;
    assert kept == ImportKeyword[..|kept|] by {
      assert (kept + rest)[..|ImportKeyword|] == ImportKeyword;
      assert kept == (kept + rest)[..|kept|];
    }
    if kept == ImportKeyword {
      ScanInImportKeepsAll(s[1..], q, kept);
      k := 1;
      DropLeadingCharacter(s, inString, k);
      assert s[1..][..0] == [];
      assert [s[0]] + DropUnquotedSpaces([], q) == [s[0]];
    } else {
      var k' := ScanWithImport(s[1..], q, kept);
      k := k' + 1;
      DropLeadingCharacter(s, inString, k);
      Regroup(line, [s[0]], DropUnquotedSpaces(s[1..][..k'], q));
      assert s[1..][k'..] == s[k..];
    }
  }

  /** Dropping spaces from a prefix of `s` looks at its first character
      and then at the rest of the prefix. */
  lemma DropLeadingCharacter(s: string, inString: bool, k: nat)
    requires 0 < k <= |s|
    ensures DropUnquotedSpaces(s[..k], inString)
            == (if s[0] == ' ' && !inString then [] else [s[0]])
               + DropUnquotedSpaces(s[1..][..k - 1], if s[0] == '"' then !inString else inString)
  {
    assert s[..k][0] == s[0];
    assert s[..k][1..] == s[1..][..k - 1];
  }

  /** `fix_up_code_line` (enkelt.py:746-770), with the global `is_extension`
      passed in. */
  method FixUpCodeLine(statement: string, isExtension: bool) returns (currentLine: string)
    ensures currentLine == Normalise(statement, isExtension)
    ensures '\n' !in currentLine && '\'' !in currentLine && '\\' !in currentLine
    ensures !isExtension ==> '\t' !in currentLine
    ensures Remove(currentLine, ' ') == Remove(Prepare(statement, isExtension), ' ')
  {
    var s := ReplaceAll(statement, "\n", "");
    s := ReplaceAll(s, "'", "\"");
    s := ReplaceAll(s, "\\\"", EscapedQuote);
    s := ReplaceAll(s, "\\", EscapedBackslash);
    if !isExtension {
      s := ReplaceAll(s, "\t", "");
    }
    assert s == Prepare(statement, isExtension);

    currentLine := "";
    var isString := false;
    var isImport := false;
    var i := 0;
    while i < |s|
      invariant 0 <= i <= |s|
      invariant Scan(s[i..], isString, isImport, currentLine) == Scan(s, false, false, "")
    {
      var c := s[i];
      assert s[i..][0] == c && s[i..][1..] == s[i + 1..];
      if c == ' ' && !isString && !isImport {
        i := i + 1;
        continue;
      } else if c == '"' {
        isString := !isString;
      }
      currentLine := currentLine + [c];
      if currentLine == ImportKeyword {
        isImport := true;
      }
      i := i + 1;
    }

    PrepareClean(statement, isExtension);
    ScanChars(s, false, false, "");
    ScanDropsOnlySpaces(s, false, false, "");
  }
}
