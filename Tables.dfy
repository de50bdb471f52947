/** The fixed translation tables of Enkelt and the pure lookups over them
    (enkelt.py:277-418), `has_numbers`, and the replacement chain that turns
    printed host values into Swedish words. */
module Tables {
  import opened Text

  /** What `translate_clear` gives on a system that is not Windows. */
  const ClearCommand := "clear"

  /** Built-in Enkelt functions and their host spellings: the 'functions'
      part of `functions_keywords_and_obj_notations`. */
  const FunctionTranslations: map<string, string> := map[
    "skriv" := "print",
    "in" := "input",
    "Sträng" := "str",
    "Heltal" := "int",
    "Decimal" := "float",
    "Bool" := "bool",
    "längd" := "len",
    "till" := "append",
    "bort" := "pop",
    "sortera" := "sorted",
    "slump" := "__import__(\"random\").randint",
    "slumpval" := "__import__(\"random\").choice",
    "blanda" := "__import__(\"random\").shuffle",
    "området" := "range",
    "lista" := "list",
    "ärnum" := "isdigit",
    "runda" := "round",
    "versal" := "upper",
    "gemen" := "lower",
    "ärversal" := "isupper",
    "ärgemen" := "islower",
    "ersätt" := "replace",
    "infoga" := "insert",
    "index" := "index",
    "dela" := "split",
    "foga" := "join",
    "typ" := "type",
    "läs" := "read",
    "överför" := "write",
    "veckodag" := "weekday",
    "värden" := "values",
    "element" := "elements",
    "numrera" := "enumerate",
    "töm" := "os.system(\"" + ClearCommand + "\"",
    "kasta" := "raise Exception",
    "nycklar" := "keys",
    "om" := "if",
    "anom" := "elif",
    "öppna" := "with open",
    "för" := "for",
    "medan" := "while"
  ]

  /** Keywords and boolean literals: the 'keywords' part of the table. */
  const KeywordTranslations: map<string, string> := map[
    "Sant" := "True",
    "Falskt" := "False",
    "inom" := "in ",
    "bryt" := "break",
    "fortsätt" := "continue",
    "returnera" := "return ",
    "passera" := "pass",
    "år" := "year",
    "månad" := "month",
    "dag" := "day",
    "timme" := "hour",
    "minut" := "minute",
    "sekund" := "second",
    "mikrosekund" := "microsecond",
    "global" := "global ",
    "om" := " if ",
    "annars" := " else "
  ]

  /** Object notations: the 'obj_notations' part of the table. */
  const ObjNotationTranslations: map<string, string> := map[
    "klass" := "class ",
    "försök" := "try",
    "fånga" := "except Exception as ",
    "slutligen" := "finally"
  ]

  /** The object notations the lexer recognises (`get_obj_notations`);
      "slutligen" has a translation but is not among them. */
  const ObjNotations: seq<string> := ["klass", "försök", "fånga"]

  /** The boolean operators and their host words (`translate_operator`);
      "not" stands for the '!' of a '!=' comparison. */
  const OperatorTranslations: map<string, string> := map[
    "&" := " and ",
    "|" := " or ",
    "!" := "not ",
    "not" := "!"
  ]

  /** Membership in `operator_symbols`: the characters the lexer treats as
      operators. */
  predicate IsOperatorSymbol(c: char) {
    c == '+' || c == '-' || c == '*' || c == '/' || c == '%' || c == '<' || c == '>' || c == '='
    || c == '!' || c == '.' || c == ',' || c == ')' || c == ':' || c == ';' || c == '&' || c == '|'
  }

  /** `forbidden_variable_names`. */
  const ForbiddenVariableNames: seq<string> := ["in", "själv"]

  /** The modules of the built-in standard library. */
  const StandardLibrary: seq<string> := ["matte", "tid"]

  /** The text every failed lookup returns. */
  const NotFound := "error"

  /** No table maps a name to the "error" sentinel, so a lookup that
      answers "error" has really found nothing. */
  lemma NoValueIsSentinel()
    ensures forall k :: k in FunctionTranslations ==> FunctionTranslations[k] != NotFound
    ensures forall k :: k in KeywordTranslations ==> KeywordTranslations[k] != NotFound
    ensures forall k :: k in ObjNotationTranslations ==> ObjNotationTranslations[k] != NotFound
  {
    FunctionsNotSentinel();
    KeywordsNotSentinel();
    ObjNotationsNotSentinel();
  }

  lemma FunctionsNotSentinel()
    ensures NotFound !in FunctionTranslations.Values
  {
  }

  lemma KeywordsNotSentinel()
    ensures NotFound !in KeywordTranslations.Values
  {
  }

  lemma ObjNotationsNotSentinel()
    ensures NotFound !in ObjNotationTranslations.Values
  {
  }

  /** `translate_function`: the host spelling of a built-in function, or
      "error" when the name is not one. */
  function TranslateFunction(name: string): string {
    if name in FunctionTranslations then FunctionTranslations[name] else NotFound
  }

  /** `translate_keyword`. */
  function TranslateKeyword(name: string): string {
    if name in KeywordTranslations then KeywordTranslations[name] else NotFound
  }

  /** `translate_obj_notation`. */
  function TranslateObjNotation(name: string): string {
    if name in ObjNotationTranslations then ObjNotationTranslations[name] else NotFound
  }

  /** Each lookup answers "error" exactly when the name is not in its
      table, and otherwise the table's entry: a caller may test for
      "error" to ask whether the name is known. */
  lemma LookupsFindExactlyTheTable(name: string)
    ensures TranslateFunction(name) == NotFound <==> name !in FunctionTranslations
    ensures name in FunctionTranslations ==> TranslateFunction(name) == FunctionTranslations[name]
    ensures TranslateKeyword(name) == NotFound <==> name !in KeywordTranslations
    ensures name in KeywordTranslations ==> TranslateKeyword(name) == KeywordTranslations[name]
    ensures TranslateObjNotation(name) == NotFound <==> name !in ObjNotationTranslations
    ensures name in ObjNotationTranslations ==> TranslateObjNotation(name) == ObjNotationTranslations[name]
  {
    NoValueIsSentinel();
  }

  /** `translate_operator`: a plain dictionary lookup, so it is only
      defined on the four keys (its one caller passes nothing else). The
      '&', '|' and '!' operators become the host's word operators, each
      padded so that it cannot run into its operands, and "not" gives back
      the '!' of a '!=' comparison. */
  function TranslateOperator(op: string): (r: string)
    requires op in OperatorTranslations
    ensures op == "&" ==> r == " and "
    ensures op == "|" ==> r == " or "
    ensures op == "!" ==> r == "not "
    ensures op == "not" ==> r == "!"
  {
    OperatorTranslations[op]
  }

  /** `has_numbers`: some character of the text is a digit. */
  function HasNumbers(s: string): (r: bool)
    ensures r <==> exists i :: 0 <= i < |s| && IsDigit(s[i])
  {
    if s == [] then false
    else if IsDigit(s[0]) then true
    else
      var rest := HasNumbers(s[1..]);
      assert forall i :: 1 <= i < |s| ==> s[i] == s[1..][i - 1];
      rest
  }

  /** The replacements `translate_output_to_swedish` applies, in the
      order of its dictionary. */
  const OutputReplacements: seq<(string, string)> := [
    ("True", "Sant"),
    ("False", "Falskt"),
    ("<class 'float'>", "decimaltal"),
    ("<class 'str'>", "sträng"),
    ("<class 'int'>", "heltal"),
    ("<class 'list'>", "lista"),
    ("<class 'dict'>", "lexikon"),
    ("<class 'bool'>", "boolesk"),
    ("<class 'NoneType'>", "inget"),
    ("<class 'Exception'>", "Feltyp"),
    ("<class 'datetime.date'>", "datum"),
    ("<class 'datetime.datetime'>", "datum & tid"),
    ("<class 'range'>", "område")
  ]

  /** Applies each replacement in turn to the whole text. */
  function ReplaceChain(s: string, pairs: seq<(string, string)>): string
    requires forall i :: 0 <= i < |pairs| ==> |pairs[i].0| > 0
    decreases |pairs|
  {
    if pairs == [] then s
    else ReplaceChain(ReplaceAll(s, pairs[0].0, pairs[0].1), pairs[1..])
  }

  /** The replacement loop of `translate_output_to_swedish`, applied to
      the printed form of a value. */
  function TranslateOutputToSwedish(printed: string): string {
    ReplaceChain(printed, OutputReplacements)
  }

  /** A chain of replacements leaves alone a text in which none of the
      patterns occurs. */
  lemma {:induction false} ReplaceChainAbsent(s: string, pairs: seq<(string, string)>)
    requires forall i :: 0 <= i < |pairs| ==> |pairs[i].0| > 0
    requires forall i :: 0 <= i < |pairs| ==> !Occurs(s, pairs[i].0)
    ensures ReplaceChain(s, pairs) == s
  {
    if pairs != [] {
      ReplaceAllAbsent(s, pairs[0].0, pairs[0].1);
      ReplaceChainAbsent(s, pairs[1..]);
    }
  }

  /** Text shorter than every pattern left in the chain passes through. */
  lemma {:induction false} ReplaceChainShort(s: string, pairs: seq<(string, string)>)
    requires forall i :: 0 <= i < |pairs| ==> |s| < |pairs[i].0|
    ensures ReplaceChain(s, pairs) == s
  {
    if pairs != [] {
      ReplaceChainShort(s, pairs[1..]);
    }
  }

  /** Printed text that mentions no host type name or boolean is shown as
      it is. */
  lemma TranslateOutputUnchanged(printed: string)
    requires forall i :: 0 <= i < |OutputReplacements| ==> !Occurs(printed, OutputReplacements[i].0)
    ensures TranslateOutputToSwedish(printed) == printed
  {
    ReplaceChainAbsent(printed, OutputReplacements);
  }

  /** Every pattern after the first two is longer than six characters. */
  lemma LongTypePatterns()
    ensures forall i :: 2 <= i < |OutputReplacements| ==> 6 < |OutputReplacements[i].0|
  {
  }

  /** A chain whose first two replacements take `s` to `out`, and whose
      later patterns are all longer than `out`, gives `out`. */
  lemma {:induction false} ChainAfterTwo(s: string, mid: string, out: string, pairs: seq<(string, string)>)
    requires forall i :: 0 <= i < |pairs| ==> |pairs[i].0| > 0
    requires |pairs| >= 2
    requires ReplaceAll(s, pairs[0].0, pairs[0].1) == mid
    requires ReplaceAll(mid, pairs[1].0, pairs[1].1) == out
    requires forall i :: 2 <= i < |pairs| ==> |out| < |pairs[i].0|
    ensures ReplaceChain(s, pairs) == out
  {
    var rest := pairs[1..];
    assert ReplaceChain(s, pairs) == ReplaceChain(mid, rest);
    assert ReplaceChain(mid, rest) == ReplaceChain(out, rest[1..]);
    ReplaceChainShort(out, rest[1..]);
  }

  lemma TrueReplacements()
    ensures ReplaceAll("True", "True", "Sant") == "Sant"
    ensures ReplaceAll("Sant", "False", "Falskt") == "Sant"
  {
    ReplaceAllAtMatch("True", "", "Sant");
    assert "True" + "" == "True";
  }

  lemma FalseReplacements()
    ensures ReplaceAll("False", "True", "Sant") == "False"
    ensures ReplaceAll("False", "False", "Falskt") == "Falskt"
  {
    assert "False"[..4][0] != "True"[0];
    ReplaceAllSkip("False", "True", "Sant", 5);
    ReplaceAllAtMatch("False", "", "Falskt");
    assert "False" + "" == "False";
  }

  /** The host's True prints as the Swedish word. */
  lemma TranslateOutputTrue()
    ensures TranslateOutputToSwedish("True") == "Sant"
  {
    LongTypePatterns();
    TrueReplacements();
    ChainAfterTwo("True", "Sant", "Sant", OutputReplacements);
  }

  /** The host's False prints as the Swedish word. */
  lemma TranslateOutputFalse()
    ensures TranslateOutputToSwedish("False") == "Falskt"
  {
    LongTypePatterns();
    FalseReplacements();
    ChainAfterTwo("False", "False", "Falskt", OutputReplacements);
  }
}
