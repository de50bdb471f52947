# Enkelt transpiler core, modelled in Dafny

Enkelt is a small programming language with Swedish keywords. It is
transpiled line by line into Python. This project models the transpiler
in `enkelt.py`:

- **Normaliser.** `fix_up_code_line` prepares each source line:
  - it drops newlines;
  - it turns `'` into `"`;
  - it replaces escaped quotes and backslashes by placeholder text;
  - it drops tabs unless an extension is being read;
  - it drops every space outside strings, but only until the line has
    read `importera`.
- **Lexer.** `lex` turns the line into tokens, character by character.
- **Emitter.** `parse` turns the tokens into fragments of Python. It
  threads a state from line to line: the indentation stack, the stack of
  "does the next `{` open a block" flags, statement flags, a lambda
  counter and the imported libraries.
- **Driver.** `transpile_line` collects each line's fragments into
  `final`.
- **Post-processor.** `fix_up_and_prepare_transpiled_code` turns `final`
  into program text:
  - it repairs tabs;
  - it closes up spaced operators;
  - it restores the escape placeholders;
  - it collapses blank lines.
- **Around these:**
  - the translation tables and their lookups;
  - `has_numbers`;
  - the chain of replacements that turns printed Python values into Swedish;
  - the renaming of a library's functions into the library's namespace;
  - the order in which `import_library` looks for a library.

The modules follow that structure:

- `Outcomes`:
  - the host's `IndexError` and `KeyError` as values;
  - `Result`, `Option`;
  - Python's negative index wrap-around (`PyIndex`).
- `Text`: Python's `str.replace` (`ReplaceAll`), character classes and `''.join`.
- `Tables`: the translation tables and the output replacements.
- `Escapes`: the escape placeholders.
- `Normaliser`: `fix_up_code_line`.
- `Lexer`:
  - one turn of the character loop is the function `LexChar`;
  - `Lex` and the `Scan*` methods are the loop and its blocks, proved against it.
- `LexerProperties`: what the lexer promises about numbers, variables, braces and errors.
- `Libraries`: the library renaming and the import fallback order.
- `Emitter`: one token of `parse` as a function of the emitter's state.
- `EmitterProperties`: what the emitter keeps invariant and what each block construct does.
- `PostProcessor`: the passes of `fix_up_and_prepare_transpiled_code`.
- `Transpiler`:
  - the class `Transpiler` holds the module-level state as fields;
  - its methods `Parse`, `TranspileLine` and `FixUpAndPrepareTranspiledCode` update those fields;
  - each method is proved against the functions of `Emitter`, `Lexer`, `Normaliser` and `PostProcessor`.

The host raises in a few places. The model turns each into an error value:

- `lex("")` reads `line[0]` → `IndexError`.
- A variable name ended by a space looks up `op_dict[' ']` → `KeyError`.
- `parse([])` reads `lexed[0]` → `IndexError`.
- A one-character comment line reads `line[1]` → `IndexError`.
- A `}` that closes a block when none is open pops an empty list → `IndexError`.
- A lambda arrow `= >` as the last token reads past the end → `IndexError`.

Quirks of the code are kept as written:

- A comment line is lexed to the pair `['COMMENT', line]`. It emits only the indentation.
- Braces inside a string still become START and END tokens.
- The continuation of a negative number is written to index `data_index - 1` of the tokens. Python's wrap-around applies.
- A pending `-` stays pending across other characters.
- `! =` is closed up to `==`.
- The lambda check reads the previous token with Python's index wrap-around.

Two points where the code differs from the behaviour usually described for this system:

- The number of indentation layers and the length of `needs_start_statuses` are not kept equal:
  - the status stack starts with a bottom `False`;
  - every header pushes onto it whether or not a `{` follows.

  The invariant the code does keep is that the bottom `False` is never popped (`EmitterProperties.EmitFromKeepsValid`).
- Whether library lines are passed through untransformed does not depend on the library's file extension. It depends on the global `is_extension` flag, which any earlier `utöka` sets (enkelt.py:196-201, 496-499).

## Model

| member | source | states |
|---|---|---|
| Outcomes.PyIndex | enkelt.py:652 | Python's index wrap-around: a non-negative index is itself; a negative one counts back from the end; the result lies in range |
| Tables.LookupsFindExactlyTheTable | enkelt.py:397-418 | `translate_function`, `translate_keyword` and `translate_obj_notation` return `'error'` exactly when the name is not in their table, and the table's entry otherwise |
| Tables.NoValueIsSentinel | enkelt.py:299-371 | no entry of the function, keyword or object-notation tables is the string `error`, so the sentinel test is a membership test |
| Tables.TranslateOperator | enkelt.py:378-386 | the four keys `&`, bar, `!` and `not` translate to the padded words ` and `, ` or `, `not ` and to `!` |
| Tables.HasNumbers | enkelt.py:283-284 | true exactly when some character of the string is a digit |
| Tables.ReplaceChainAbsent | enkelt.py:155-156 | a chain of replacements leaves a text none of whose patterns occurs in it unchanged |
| Tables.ReplaceChainShort | enkelt.py:155-156 | a chain of replacements leaves a text shorter than every pattern unchanged |
| Tables.TranslateOutputUnchanged | enkelt.py:134-158 | printed text holding none of the thirteen patterns is returned unchanged |
| Tables.TranslateOutputToSwedish | enkelt.py:134-158 | definition without a contract of its own: the thirteen replacements applied in the dictionary's order, each over the whole text; its properties are the lemmas below |
| Tables.TranslateOutputTrue | enkelt.py:134-158 | example: the printed `True` becomes `Sant` |
| Tables.TranslateOutputFalse | enkelt.py:134-158 | example: the printed `False` becomes `Falskt` |
| Escapes.EncodeEscapes | enkelt.py:751-752 | definition without a contract of its own: the two replacements as written; `EncodeEscapesAtomwise` and `EncodeAtoms` state what they do |
| Escapes.EncodeAtoms | enkelt.py:751-752 | after the escape encoding no backslash is left |
| Escapes.EncodeEscapesAtomwise | enkelt.py:751-752 | the two whole-text replacements equal an escape-by-escape encoding: a backslash-quote pair becomes the quote placeholder, a lone backslash the backslash placeholder |
| Escapes.NoBackslashInQuotePlaceholder | enkelt.py:751-752 | the second replacement does not touch the placeholder the first one inserted |
| Escapes.EncodeAtomsPlain | enkelt.py:751-752 | text without a backslash is not changed by the encoding |
| Escapes.RestoreEscapes | enkelt.py:793 | definition without a contract of its own: the two restoring replacements as written, used only by the finding below |
| Escapes.RestoreEscapesInOnePass | enkelt.py:792-794 | definition without a contract of its own: the corrected restoration, one left-to-right scan; `EscapeRoundTrip` states that it inverts the encoding |
| Escapes.EscapeRoundTrip | enkelt.py:792-794 | restoring the placeholders in one scan gives back every encoded line that holds no bar character |
| Escapes.AtomsRoundTrip | enkelt.py:792-794 | the one-scan restoration inverts the escape-by-escape encoding on text without a bar character |
| Escapes.EncodeBrokenLine | enkelt.py:751-752 | the line `\-ENKELT_ESCAPED_QUOTE-\` is encoded as two backslash placeholders around `-ENKELT_ESCAPED_QUOTE-` |
| Escapes.HalfRestoredBrokenLine | enkelt.py:793 | after the first restoring replacement that encoded line starts with a bar and holds a backslash where the closing bar of its first backslash placeholder was: the quote placeholder matched across the two backslash placeholders |
| Escapes.RestoreAsWrittenBreaksRoundTrip | enkelt.py:792-794 | the restoration as written (two whole-text replacements) does not give that line back, although it holds no bar character |
| Normaliser.Prepare | enkelt.py:749-754 | definition without a contract of its own: the four replacements, and the tab removal outside extensions; `PrepareClean` states what is left |
| Normaliser.Scan | enkelt.py:756-770 | definition without a contract of its own: the character loop with its string and import flags; the `Scan*` lemmas below state what it keeps and drops |
| Normaliser.PrepareClean | enkelt.py:749-754 | after the replacements of `fix_up_code_line` the line has no newline, no `'` and no backslash, and no tab unless an extension is being read |
| Normaliser.ScanDropsOnlySpaces | enkelt.py:760-768 | the character loop of `fix_up_code_line` removes spaces and nothing else |
| Normaliser.ScanChars | enkelt.py:760-768 | the loop introduces no character that was not in its input |
| Normaliser.ScanInImportKeepsAll | enkelt.py:760-768 | once `importera` has been read, every later character, spaces included, is kept |
| Normaliser.ScanWithoutImport | enkelt.py:760-768 | when the collected line never reads `importera`, the loop drops exactly the spaces outside strings |
| Normaliser.ScanWithImport | enkelt.py:760-768 | when it does, the loop drops the unquoted spaces up to the end of `importera` and keeps the rest as it is |
| Normaliser.FixUpCodeLine | enkelt.py:746-770 | the normalised line: no newline, `'` or backslash, no tab outside extensions, and the prepared line with only spaces removed |
| Lexer.LexLine | enkelt.py:592-743 | definition without a contract of its own: a comment line gives the comment pair, an empty line IndexError, any other line the loop's tokens and user functions; `LexerProperties.LexErrors` states its errors |
| Lexer.SpaceIsTheOnlyUnmappedTerminator | enkelt.py:614-622 | of the characters that end a variable name, only the space has no entry in `op_dict`; every operator symbol maps to OPERATOR |
| Lexer.LexRunSplit | enkelt.py:624-741 | the character loop over a range equals the loop over its first part followed by the loop over the rest |
| Lexer.ScanImport | enkelt.py:625-631 | the import prelude of one loop turn, as `ImportPrelude` specifies it |
| Lexer.ScanDigit | enkelt.py:649-665 | the digit block of one loop turn, as `LexDigit` specifies it |
| Lexer.ScanVariable | enkelt.py:685-702 | the variable block of one loop turn, as `LexVar` specifies it |
| Lexer.ScanWord | enkelt.py:709-721 | the word block of one loop turn, as `LexWord` specifies it |
| Lexer.ScanWordExtension | enkelt.py:722-741 | the end of the word block, as `ExtendWord` specifies it |
| Lexer.ScanOther | enkelt.py:668-741 | the last block of one loop turn, as `LexOther` specifies it |
| Lexer.ScanChar | enkelt.py:625-741 | one loop turn, as `LexChar` specifies it |
| Lexer.Lex | enkelt.py:592-743 | `lex` returns the tokens and the user functions that `LexLine` gives, or its error |
| LexerProperties.LexOtherKeeps | enkelt.py:668-741 | the last block never changes the user functions, and raises only a KeyError on a space that ends a variable |
| LexerProperties.LexCharKeepsWellFormed | enkelt.py:624-741 | one loop turn keeps `data_index` within the tokens, and raises only a KeyError on a space |
| LexerProperties.LexRunKeepsWellFormed | enkelt.py:624-741 | the loop keeps `data_index` within the tokens, and raises only a KeyError where the line holds a space |
| LexerProperties.LexErrors | enkelt.py:592-743 | `lex` raises IndexError exactly on the empty line; a KeyError needs a space in the line |
| LexerProperties.DigitOpensNumber | enkelt.py:659-665 | a digit after no number and no pending `-` opens a new PNUMBER token and advances `data_index` |
| LexerProperties.DigitExtendsNumber | enkelt.py:659-660 | a digit right after a PNUMBER is appended to that token |
| LexerProperties.DigitsFormOneNumber | enkelt.py:649-665 | a run of digits becomes one PNUMBER token holding exactly those digits |
| LexerProperties.DigitsContinueNumber | enkelt.py:659-660 | further digits extend the last PNUMBER token |
| LexerProperties.MinusIsPending | enkelt.py:666-667 | a `-` outside strings and variables only sets the pending-minus flag and emits nothing |
| LexerProperties.PendingMinusOpensNegativeNumber | enkelt.py:650-657 | a digit after a pending `-` opens an NNUMBER token `-d` and clears the flag |
| LexerProperties.PendingMinusFlag | enkelt.py:649-667 | the pending-minus flag is cleared only by a digit block, set by a `-`, and otherwise kept: it is sticky |
| LexerProperties.NegativeContinuationTarget | enkelt.py:651-652 | a digit after an NNUMBER is appended to the token at index `data_index - 1`, with wrap-around |
| LexerProperties.NegativeContinuationMissesLaterNumber | enkelt.py:651-652 | once other tokens follow, that write lands on an earlier token and the last token is left as it was |
| LexerProperties.NegativeFirstNumber | enkelt.py:650-657 | on a fresh line, `-` followed by digits becomes one NNUMBER token holding `-` and those digits |
| LexerProperties.NegativeDigitsContinue | enkelt.py:651-652 | while the NNUMBER is the first number, further digits extend it |
| LexerProperties.VariableEnds | enkelt.py:688-696 | a terminator ends a variable with a VAR token and the terminator's own token; a `;` instead gives one VAR token whose text ends in a space; a space raises KeyError |
| LexerProperties.NameChars | enkelt.py:697-698 | name characters are collected into the variable's name |
| LexerProperties.VariableToken | enkelt.py:685-696 | `$name` followed by a terminator other than a space yields the VAR token `name` and the terminator's token |
| LexerProperties.VariableAtLineEnd | enkelt.py:699-702 | `$name` at the end of the line yields the VAR token `name` |
| LexerProperties.BracesInsideStrings | enkelt.py:639-648 | inside a string `{` and `}` still become START and END tokens, while `#` is kept as text |
| LexerProperties.UserFunctionRecorded | enkelt.py:632-638 | after `def`, the `(` emits USER_FUNCTION with the collected name and appends it to the user functions; no other turn changes them |
| Libraries.CountUserFunctions | enkelt.py:178-181 | the count of USER_FUNCTION tokens is zero exactly when there is none |
| Libraries.LibraryFunctions | enkelt.py:177-183 | a comment line is left as it is; the result is IndexError exactly when there is a USER_FUNCTION token and no user function to rename; otherwise every token keeps its kind, the others are unchanged, each USER_FUNCTION gets the prefix `library.`, and every user function but the last is unchanged |
| Libraries.PrefixLibraryFunctions | enkelt.py:177-183 | every USER_FUNCTION token gets the prefix `library.`; the last user function gets it once per such token; with no user function to rename it raises IndexError |
| Libraries.SingleDefinitionRenamed | enkelt.py:177-183 | a library line defining one function renames exactly that token and the last user function, and leaves every other token |
| Libraries.CountSingle | enkelt.py:178-181 | a line with one USER_FUNCTION token counts one |
| Libraries.ResolveLibrary | enkelt.py:250-274 | the chosen place holds the library and no earlier place does; when none is chosen, no place holds it |
| Libraries.ResolveLibraryPrefersEarlier | enkelt.py:250-274 | a place holding the library guarantees a successful import from that place or an earlier one |
| Libraries.ImportFailureMessage | enkelt.py:274 | the failure message ends with the library's name |
| Emitter.Tabs | enkelt.py:453-455 | one tab fragment per open indentation layer |
| Emitter.DotIndex | enkelt.py:568-570 | the position of the first `.` of a dotted name |
| Emitter.EmitLine | enkelt.py:428-589 | definition without a contract of its own: a comment pair emits the indentation and reads `line[1]`, an empty token list raises IndexError, any other runs `EmitFrom` from the first token; `EmitterProperties.EmitLineKeepsValid` states what it keeps |
| EmitterProperties.StartStartsValid | enkelt.py:943-959 | the start-up state keeps the bottom `False` of `needs_start_statuses` and a zero lambda counter |
| EmitterProperties.EmitOperatorKeepsValid | enkelt.py:500-528 | an operator keeps the invariant, and raises only on a lambda arrow that is the last token |
| EmitterProperties.EmitEndKeepsValid | enkelt.py:541-552 | a `}` keeps the invariant, and raises only when it would close a block while none is open |
| EmitterProperties.FunctionKeepsValid | enkelt.py:459-482 | a built-in function keeps the invariant |
| EmitterProperties.KeywordKeepsValid | enkelt.py:553-560 | a keyword or boolean keeps the invariant |
| EmitterProperties.PushKeepsValid | enkelt.py:561-583 | a function definition and an object notation push `True` and keep the invariant |
| EmitterProperties.ImportKeepsValid | enkelt.py:496-499 | an import keeps the invariant |
| EmitterProperties.AppendKeepsValid | enkelt.py:483-585 | the tokens that only append a fragment keep the invariant |
| EmitterProperties.EmitTokenKeepsValid | enkelt.py:446-585 | every token keeps the invariant |
| EmitterProperties.EmitFromKeepsValid | enkelt.py:587-589 | `parse` over the rest of a line keeps the invariant, and its only error is IndexError |
| EmitterProperties.EmitLineKeepsValid | enkelt.py:428-589 | `parse(lexed, 0)` keeps the invariant, and its only error is IndexError |
| EmitterProperties.StartOpensBlock | enkelt.py:531-540 | outside a lambda, a `{` after a header emits `:` (with a line break unless it ends the line) and adds one indentation layer |
| EmitterProperties.EndClosesBlock | enkelt.py:541-552 | outside a lambda, a `}` closing a block pops both stacks and starts the next line at the new depth, unless it ends the line |
| EmitterProperties.BlockRestoresLayout | enkelt.py:531-552 | a header, its `{` and its `}` leave both stacks as they were before the header |
| EmitterProperties.LambdaCounter | enkelt.py:510-514 | the lambda counter rises exactly on a `>` after `=` before a user function call, by one, and falls by at most one |
| EmitterProperties.LambdaSuspendsBlocks | enkelt.py:531-552 | while a lambda is open a `{` emits nothing and a `}` only lowers the counter |
| EmitterProperties.DotAfterPrefix | enkelt.py:568-570 | the first `.` of `lib.rest` is the one after `lib` when `lib` has none |
| EmitterProperties.StandardLibraryCall | enkelt.py:566-577 | a call `lib.rest` into the standard library is emitted as `Enkelt.StandardLibrary.lib.` followed by `rest` without its dots |
| EmitterProperties.OtherCallHasNoDots | enkelt.py:566-577 | a call outside the standard library keeps an undotted name and spells each `.` as `__enkelt__`, leaving no dot |
| EmitterProperties.CommentLineEmitsIndentation | enkelt.py:453-458 | a comment line lexes to the comment pair and emits only the current indentation; a one-character comment raises IndexError |
| PostProcessor.LeadingRun | enkelt.py:780-782 | the length of the leading run of tabs and newlines |
| PostProcessor.RepairTabs | enkelt.py:777-786 | a line keeps its length and its leading run of tabs and newlines; after that run each tab becomes a space and every other character stays |
| PostProcessor.RepairTabsIdempotent | enkelt.py:777-786 | repairing twice is repairing once, and no tab is left after the leading run |
| PostProcessor.CloseUpOperators | enkelt.py:789 | definition without a contract of its own: the three replacements over the whole text, in the source's order |
| PostProcessor.SpacedOperators | enkelt.py:789 | example: `= =` and `! =` become `==` and `+ =` becomes `+=` |
| PostProcessor.CloseUpWithoutSpaces | enkelt.py:789 | text without a space is left unchanged |
| PostProcessor.CollapseBlankLines | enkelt.py:797 | definition without a contract of its own: `re.sub(r'\n\s*\n', '\n\n', ...)` with the regular expression's backtracking written out; the lemmas below state what it does |
| PostProcessor.CollapseBlankLinesCollapses | enkelt.py:797 | after collapsing, no whitespace stretch between two lines holds more than one empty line |
| PostProcessor.CollapsedUnchanged | enkelt.py:797 | text without blank lines is left as it is |
| PostProcessor.CollapseIdempotent | enkelt.py:797 | collapsing twice is collapsing once |
| PostProcessor.CollapseKeepsVisible | enkelt.py:797 | collapsing removes only whitespace: the other characters stay, in order |
| Transpiler.TranspileStepKeepsValid | enkelt.py:854-876 | a blank line changes nothing; any other line adds exactly its text and a newline to `final`, empties `source_code` and keeps the emitter's invariant; the only errors are IndexError and KeyError |
| Transpiler.CommentLineIndentsOnly | enkelt.py:854-876 | a comment line adds only the current indentation to `final` and changes no other state |
| Transpiler.Transpiler.constructor | enkelt.py:943-959 | the start-up state: empty output, no open block, the bottom `False`, every flag clear, no lambda and no library |
| Transpiler.Transpiler.AppendTabs | enkelt.py:453-455 | one tab per open layer is appended to `source_code` |
| Transpiler.Transpiler.Emit | enkelt.py:494-495 | the fragment is appended to `source_code` and nothing else changes |
| Transpiler.Transpiler.EmitOpening | enkelt.py:561-583 | the fragment is appended and `True` pushed onto `needs_start_statuses` |
| Transpiler.Transpiler.OpenCondition | enkelt.py:466-468 | `om`/`anom` are emitted and `is_if` is set |
| Transpiler.Transpiler.OpenFile | enkelt.py:469-472 | `öppna` is emitted, `True` pushed and `is_file_open` set |
| Transpiler.Transpiler.OpenLoop | enkelt.py:473-477 | `för`/`medan` are emitted, `look_for_loop_ending` is set, and `is_for` is set for `för` |
| Transpiler.Transpiler.ParseFunction | enkelt.py:459-482 | the FUNCTION branch, as `EmitFunction` specifies it |
| Transpiler.Transpiler.ParseVar | enkelt.py:483-489 | the VAR branch: a forbidden name is reported, `själv` becomes `self` |
| Transpiler.Transpiler.ParseString | enkelt.py:490-493 | the STRING branch: quoted, and read as a file mode after `öppna` |
| Transpiler.Transpiler.ImportLibrary | enkelt.py:243-274 | a library some place holds is recorded as imported; otherwise the failure is printed |
| Transpiler.Transpiler.ParseImport | enkelt.py:496-499 | an EXTENSION token sets `is_extension`; both kinds import the library |
| Transpiler.Transpiler.ParseOperator | enkelt.py:500-528 | the OPERATOR branch as `EmitOperator` specifies it, with its IndexError |
| Transpiler.Transpiler.CloseCondition | enkelt.py:502-504 | the `)` of a condition clears `is_if` and pushes `True` |
| Transpiler.Transpiler.CloseLoopHeader | enkelt.py:507-509 | the `)` of a loop header clears `look_for_loop_ending` and pushes `True` |
| Transpiler.Transpiler.ParseLambda | enkelt.py:510-514 | the lambda arrow, as `EmitLambda` specifies it |
| Transpiler.Transpiler.ParseStart | enkelt.py:531-540 | the START branch, as `EmitStart` specifies it |
| Transpiler.Transpiler.ParseEnd | enkelt.py:541-552 | the END branch as `EmitEnd` specifies it, with its IndexError |
| Transpiler.Transpiler.ParseKeyword | enkelt.py:553-560 | the KEYWORD and BOOL branch: `annars` also pushes `True` |
| Transpiler.Transpiler.ParseCall | enkelt.py:566-577 | the call is emitted under `CallName` |
| Transpiler.Transpiler.ParseToken | enkelt.py:446-585 | one token, as `EmitToken` specifies it |
| Transpiler.Transpiler.ParseKind | enkelt.py:456-585 | the dispatch on the token's kind, as `EmitKind` specifies it |
| Transpiler.Transpiler.Parse | enkelt.py:428-589 | `parse(lexed, 0)` leaves the state `EmitLine` gives, or reports its error; `final` and the user functions are not touched |
| Transpiler.Transpiler.ParseFrom | enkelt.py:587-589 | the tokens from `i` on, as `EmitFrom` specifies them |
| Transpiler.Transpiler.ParseNext | enkelt.py:587-589 | one step of `parse`, stated as what it leaves for the tokens after it |
| Transpiler.Transpiler.TranspileLine | enkelt.py:854-876 | the state after one line is the state `TranspileStep` gives, or the line's error |
| Transpiler.Transpiler.EmitLexedLine | enkelt.py:871-876 | the emitted line's text and a newline are appended to `final`, and `source_code` is emptied |
| Transpiler.Transpiler.FixUpAndPrepareTranspiledCode | enkelt.py:773-801 | the program text is `PreparedCode` of the old `final` (tabs repaired line by line, operators closed up, placeholders restored in one scan, blank lines collapsed), and `final` becomes its characters |

## Left out

- Reading the script, the REPL (`console_mode`), running the transpiled program (`run_transpiled_code`) and the update check: file, network and process I/O.
- Transpiling a library's own lines (`get_import`, `transpile_library_code`, `load_library_from_remote`). The library texts are files and downloads, so an import records the library as imported, or prints its failure. Which places hold a library is a parameter (`places`).
- The source code is prefixed with the `import enkelt as Enkelt` prelude before the final fix-up (enkelt.py:809-812). That step belongs to running the program and is not modelled.
- `StandardLibrary`, `ErrorClass`, `enkelt_print` and `enkelt_input`: runtime support of the transpiled program.
- The developer-mode prints and the `str()`/`KeysView` conversion at the head of `translate_output_to_swedish`: the model starts from the printed text.
- `translate_clear` depends on the operating system. It is the constant `clear`; a console flag is a parameter.
- Tables.TranslateOperator: called only with a key of its table. For any other key the host raises KeyError, but `parse` passes only `&`, `|`, `!` and `not`.
- Tables.HasNumbers: Python's `isdigit` accepts every Unicode digit; the model accepts the ASCII digits only.
- Lexer.Lex: the digit test of the number branch (enkelt.py:649) accepts the ASCII digits only, where `isdigit` accepts every Unicode digit. A line with another digit, such as `٣`, adds it to the pending word instead of opening a PNUMBER.
- Lexer.ScanChar: the same ASCII-only digit test as `Lexer.Lex`, and the same for the function `Lexer.LexChar` it is proved against.
- Transpiler.Transpiler.FixUpAndPrepareTranspiledCode: restores the escape placeholders with the corrected one-scan restoration, not with the two replacements of enkelt.py:793. The output differs from the source's only on text that already held a placeholder word, such as `\-ENKELT_ESCAPED_QUOTE-\`; see "## Findings".
- PostProcessor.PreparedCode: the same corrected restoration as `Transpiler.Transpiler.FixUpAndPrepareTranspiledCode`, for the same reason.
- EmitterProperties.EmitLineKeepsValid: `parse` calls itself once per token (enkelt.py:587-589), so a line of about a thousand tokens hits Python's recursion limit and raises RecursionError. The model has no recursion limit, and its only error there is IndexError.
- EmitterProperties.EmitFromKeepsValid: the same missing recursion limit as `EmitterProperties.EmitLineKeepsValid`.
- The state left behind when `lex` or `parse` raises part-way through a line: the model reports the error and says nothing of the partially updated state.
- `is_list`: set nowhere in the core and read nowhere; not modelled. `is_math` is never set in the source; it is kept as a field so that its branch is mirrored.
- The entries of `indent_layers` are never read, so the model keeps only their number.

## Findings

| source | as written | input that shows it | evidently intended | confidence | as-written member | corrected member |
|---|---|---|---|---|---|---|
| enkelt.py:793 | the placeholders are restored by two replacements over the whole text, first the quote placeholder and then the backslash placeholder | the line `\-ENKELT_ESCAPED_QUOTE-\`: it encodes to two backslash placeholders around `-ENKELT_ESCAPED_QUOTE-`, whose bars combine with the middle into a quote placeholder, so the output differs from the input | each placeholder is turned back where it was inserted, so that every line without a bar character comes back as written | not executed | Escapes.RestoreAsWrittenBreaksRoundTrip | Escapes.EscapeRoundTrip |

The as-written restoration is `Escapes.RestoreEscapes`. The corrected one is `Escapes.RestoreEscapesInOnePass`; `PostProcessor.PreparedCode` and `Transpiler.Transpiler.FixUpAndPrepareTranspiledCode` use it.
