# LexicalAnalyzer in Dafny

A model of the scanner of a small language of boolean assignments
(`x := TRUE | y := (x AND NOT FALSE)`), the Java class
`compiler.lab_1.LexicalAnalyzer`. Its method `analyze` reads the input text
once, left to right, and fills two tables:

- the **tokens**: Identifier, Boolean, Operator, Assign, Pipe, LParen and RParen, each with its name, line, column and value;
- the **errors**: unclosed comment, identifier too long, invalid identifier, a lone `:`, and any other unexpected character.

Whitespace and `/* … */` comments are skipped. A word is a maximal run of
letters, digits and `_` that starts with a letter or digit. A word with more
than 16 characters is an error. A word that is not 1 to 16 ASCII letters is an
error too. Otherwise the word is upper-cased and checked against the keywords
TRUE and FALSE (Boolean, value 0) and OR, XOR, AND and NOT (Operator, value -1).
Any other word is an Identifier. It keeps its own casing and takes the value of
the first earlier Identifier with the same name; a new name takes a counter
that starts at 1. A `|` directly after a Pipe token is dropped.

The model has two layers:

- **Specification** (modules `Chars`, `Positions`, `Tokens`, `Scanner`).
  - `Scanner.Lex` is one pass of the main loop, as a pure function of the input, the offset, the counter and the tokens so far. It dispatches to `LexWord` for words and to `LexSymbol` for the punctuation switch.
  - `Scanner.Run` repeats `Lex` to the end of the input. `Scanner.Analysis(input)` is the result of a whole scan.
  - Line and column are functions of the text before an offset (`Positions.LineAt`, `Positions.ColumnAt`).
- **Implementation** (module `Analyzer`).
  - The class `LexicalAnalyzer` has the two tables as fields.
  - Its method `Analyze` runs the source's `while` loop with a running line, column, offset and counter. It is proved to leave exactly `Analysis(input)` in the tables.
  - The inner loops are methods with loops of their own: the comment skip (`SkipComment`) and the word read (`ReadWord`).

The guarantees of a scan are proved once, in `ScanProperties`, as an invariant
that every unit keeps. `Guarantees` states them over `Analysis(input)`.
`Scenarios` replays the input of every one of the repository's 19 unit tests
and states the exact tokens and errors of each. Each scan is a chain of one
lemma per unit; the lemma for each kind of unit (a blank, a comment, a keyword,
a new or a known identifier, a bad or a too-long word, each punctuation case)
is proved once, in `ScanSteps`. Three of the tests expect something the code
does not do; the lemmas state what the code does. `Findings` models the loop as
written, which crashes on a `|` met before any token.

Nothing here runs the Java program. Everything is stated and proved in Dafny.

## Model

| member | source | states |
|---|---|---|
| `Analyzer.LexicalAnalyzer.Analyze` | src/main/java/compiler/lab_1/LexicalAnalyzer.java:72-224 | after `analyze(input)` the token and error tables hold exactly the tokens and errors of `Analysis(input)`, whatever an earlier scan left in them |
| `Analyzer.LexicalAnalyzer.constructor` | src/main/java/compiler/lab_1/LexicalAnalyzer.java:62-63 | a new analyzer has empty token and error tables |
| `Analyzer.LexicalAnalyzer.ScanUnit` | src/main/java/compiler/lab_1/LexicalAnalyzer.java:84-222 | one pass of the loop body (whitespace, comment, word or punctuation) leaves the offset, counter and tables of one `Step` of the model, and the running line and column are those of the new offset |
| `Analyzer.LexicalAnalyzer.ScanComment` | src/main/java/compiler/lab_1/LexicalAnalyzer.java:100-128 | a `/*` unit: skipped up to and including the first `*/` that starts at or after the opening plus two, or, with no close, to the end of the input with one unclosed-comment error at the opening's line and column |
| `Analyzer.LexicalAnalyzer.ScanWord` | src/main/java/compiler/lab_1/LexicalAnalyzer.java:131-189 | a word unit: too-long error, invalid-identifier error, Boolean, Operator, or Identifier numbered by the first earlier Identifier of that name or by the counter, which then moves on; agrees with one `Step` |
| `Analyzer.LexicalAnalyzer.ScanSymbol` | src/main/java/compiler/lab_1/LexicalAnalyzer.java:192-222 | the punctuation switch: Pipe unless the last token is named `|`, `:=` or a colon error, `(`, `)`, any other character an unexpected-character error; agrees with one `Step` |
| `Analyzer.LexicalAnalyzer.GetTokens` | src/main/java/compiler/lab_1/LexicalAnalyzer.java:237-239 | returns the token table of the last scan, and every token in it is well shaped |
| `Analyzer.LexicalAnalyzer.GetErrors` | src/main/java/compiler/lab_1/LexicalAnalyzer.java:241-243 | returns the error table of the last scan, in strictly increasing source position |
| `Analyzer.SkipComment` | src/main/java/compiler/lab_1/LexicalAnalyzer.java:103-121 | the comment loop stops just after the first `*/` at or after the opening plus two, or at the end of the input when there is none; reports which case happened, and the line and column it tracks are those of the offset reached |
| `Analyzer.ReadWord` | src/main/java/compiler/lab_1/LexicalAnalyzer.java:132-140 | the word loop consumes the maximal run of letters, digits and `_` and returns exactly that text, on the same line with the column moved by its length |
| `Scanner.FindClose` | src/main/java/compiler/lab_1/LexicalAnalyzer.java:107-113 | the result is the first offset at or after `i` where `*/` starts, or None when there is no such offset |
| `Scanner.WordEnd` | src/main/java/compiler/lab_1/LexicalAnalyzer.java:135-138 | every character from `i` to the result is a letter, digit or `_`, and the character at the result is not (or the input ends there) |
| `Scanner.Classify` | src/main/java/compiler/lab_1/LexicalAnalyzer.java:163-183 | the token of a valid word stands at the given line and column and is an Identifier, Boolean or Operator |
| `Scanner.ClassifySound` | src/main/java/compiler/lab_1/LexicalAnalyzer.java:163-183 | Boolean exactly when the upper-cased word is TRUE or FALSE, Operator exactly when it is OR, XOR, AND or NOT, both recorded upper-case with the counter untouched; otherwise an Identifier with the word's own casing that reuses the value of the first earlier Identifier of that name, or takes the counter, which moves on by one |
| `Scanner.Lex` | src/main/java/compiler/lab_1/LexicalAnalyzer.java:84-222 | one unit consumes at least one character and never runs past the end of the input |
| `Scanner.LexWord` | src/main/java/compiler/lab_1/LexicalAnalyzer.java:131-189 | a word unit ends exactly where the run of letters, digits and `_` that starts at its offset ends (`WordEnd`), whichever of token or error it yields |
| `Scanner.LexSymbol` | src/main/java/compiler/lab_1/LexicalAnalyzer.java:192-222 | the punctuation switch consumes two characters exactly for `:=` and one for every other character, a lone `:` included, and leaves the counter alone |
| `Scanner.Step` | src/main/java/compiler/lab_1/LexicalAnalyzer.java:84-222 | one pass of the loop moves forward and adds at most one entry to the two tables |
| `Scanner.Run` | src/main/java/compiler/lab_1/LexicalAnalyzer.java:84 | the loop reaches the end of the input and only appends to the tables |
| `Chars.IsWhitespace` | src/main/java/compiler/lab_1/LexicalAnalyzer.java:88 | a definition with no contract: the characters `Character.isWhitespace` accepts, U+0009–U+000D, U+001C–U+0020, U+1680, U+2000–U+2006, U+2008–U+200A, U+2028, U+2029, U+205F and U+3000 (the no-break spaces U+00A0, U+2007 and U+202F are not whitespace) |
| `Chars.IsLetterOrDigit` | src/main/java/compiler/lab_1/LexicalAnalyzer.java:131 | a definition with no contract: the ASCII letters `a`–`z`, `A`–`Z` and the digits `0`–`9` (non-ASCII letters and digits are under Left out) |
| `Chars.IsWordChar` | src/main/java/compiler/lab_1/LexicalAnalyzer.java:135 | a definition with no contract: a letter or digit as above, or `_` |
| `Tokens.IsValidIdentifier` | src/main/java/compiler/lab_1/LexicalAnalyzer.java:66 | a definition with no contract: 1 to 16 ASCII letters, the pattern `^[a-zA-Z][a-zA-Z]{0,15}$` that line 155 matches words against |
| `Chars.ToUpper` | src/main/java/compiler/lab_1/LexicalAnalyzer.java:163 | upper-casing maps ASCII letters to capitals and leaves everything else alone |
| `Chars.Upper` | src/main/java/compiler/lab_1/LexicalAnalyzer.java:163 | `toUpperCase` keeps the length and upper-cases each character |
| `Positions.LineAt` | src/main/java/compiler/lab_1/LexicalAnalyzer.java:76-77 | the line of an offset is at least 1 and at most the offset plus 1 |
| `Positions.ColumnAt` | src/main/java/compiler/lab_1/LexicalAnalyzer.java:76-77 | the column of an offset is at least 1 and at most the offset plus 1 |
| `Positions.LineCountsNewlines` | src/main/java/compiler/lab_1/LexicalAnalyzer.java:88-95 | the line is one more than the number of newlines before the offset |
| `Positions.ColumnCountsFromLineStart` | src/main/java/compiler/lab_1/LexicalAnalyzer.java:88-95 | the column is one more than the number of characters since the last newline (or since the start of the input) |
| `Positions.StepRight` | src/main/java/compiler/lab_1/LexicalAnalyzer.java:92-94 | consuming a character that is not a newline keeps the line and adds one to the column |
| `Positions.PositionAdvances` | src/main/java/compiler/lab_1/LexicalAnalyzer.java:88-95 | a later offset has a strictly later (line, column), so no two offsets share a position |
| `Tokens.Lookup` | src/main/java/compiler/lab_1/LexicalAnalyzer.java:179-181 | `findFirst` over the Identifier tokens with the name: None exactly when there is none, otherwise the value of the first one |
| `Tokens.PipeNameIsPipeKind` | src/main/java/compiler/lab_1/LexicalAnalyzer.java:48-50 | for the tokens the scanner emits, `equals("|")` holds exactly for Pipe tokens |
| `Tokens.WordTokenIsLetters` | src/main/java/compiler/lab_1/LexicalAnalyzer.java:66 | keyword and identifier names match the identifier pattern: 1 to 16 ASCII letters |
| `Tokens.AppendKeepsTable` | src/main/java/compiler/lab_1/LexicalAnalyzer.java:178-182 | appending a token numbered as the lookup and counter demand keeps the identifier table: same name, same value; distinct names, distinct values; values exactly 1..k |
| `ScanProperties.LexSound` | src/main/java/compiler/lab_1/LexicalAnalyzer.java:84-222 | every unit yields nothing, one token backed by the text at its offset, or one error describing that text; the counter moves only for a new identifier name; a Pipe never follows a Pipe |
| `ScanProperties.LexWordSound` | src/main/java/compiler/lab_1/LexicalAnalyzer.java:131-189 | a word unit yields exactly one entry: a well-shaped, correctly numbered word token, or a too-long or invalid-identifier error; either way it resumes at the end of the word (`WordEnd`) |
| `ScanProperties.LexYields` | src/main/java/compiler/lab_1/LexicalAnalyzer.java:84-222 | the outcome and extent of each kind of unit: whitespace one character and nothing; a comment nothing exactly when it is closed, resuming just after its first `*/` (`FindClose(input, pos + 2)` plus two), else an unclosed-comment error and the end of the input; a word ends at `WordEnd`; a `\|` nothing exactly when the last token is named `\|`, else a Pipe; `:=` an Assign of two characters and a lone `:` a colon error of one; every other symbol one character; `(` an LParen, `)` an RParen; any other character that starts no word an unexpected-character error |
| `ScanProperties.StepKeepsInv` | src/main/java/compiler/lab_1/LexicalAnalyzer.java:84-222 | one pass of the loop keeps the scan invariant: the offset is never inside a word (`UnitBoundary`), identifier table, well-shaped tokens, no adjacent Pipes, every entry backed by the text, source order, an unclosed comment last |
| `ScanProperties.RunKeepsInv` | src/main/java/compiler/lab_1/LexicalAnalyzer.java:84 | the scan invariant holds at the end of the loop |
| `ScanProperties.AnalysisInv` | src/main/java/compiler/lab_1/LexicalAnalyzer.java:72-224 | the scan invariant holds of every complete scan |
| `Guarantees.PositionsArePositive` | src/main/java/compiler/lab_1/LexicalAnalyzer.java:76-77 | every token and error has line and column at least 1 |
| `Guarantees.TokensMatchSource` | src/main/java/compiler/lab_1/LexicalAnalyzer.java:131-216 | every token stands at the position of its text: an Identifier or keyword starts where a word starts, which is not inside a run of letters, digits and `_` that already holds a letter or digit (`WordStart`), and covers the run of letters, digits and `_` from there (`WordEnd`), spelled as is for an Identifier and upper-cased for a keyword; the others are `:=`, `|`, `(` or `)` |
| `Guarantees.ErrorsMatchSource` | src/main/java/compiler/lab_1/LexicalAnalyzer.java:123-221 | every error stands at the position of the unit it discards and describes it: an opening with no close after it, a word over 16 characters, both starting where a word starts (`WordStart`), or a word of at most 16 that fails the pattern, with the invalid word quoted from where it starts to its `WordEnd`; a `:` without `=`; any other character, where a `_` counts only when no word runs into it |
| `Guarantees.WordTailBacksNothing` | src/main/java/compiler/lab_1/LexicalAnalyzer.java:131-140 | a word is read from its first character to the end of its run, so for every input, an offset that holds a letter, digit or `_` and that a word runs into (a letter or digit earlier in the same run) backs no token and no error |
| `Guarantees.WordTailExamples` | src/main/java/compiler/lab_1/LexicalAnalyzer.java:131-140 | the tails `b` of `a_b` and `1c` of `ab_1c`, and the inner `_` of `a_b`, back no Identifier, no invalid identifier and no unexpected character |
| `Guarantees.ResultsInSourceOrder` | src/main/java/compiler/lab_1/LexicalAnalyzer.java:84-222 | tokens and errors are each in strictly increasing (line, column) order |
| `Guarantees.TokensAreWellShaped` | src/main/java/compiler/lab_1/LexicalAnalyzer.java:163-216 | kinds and names agree: Booleans TRUE/FALSE with value 0, Operators OR/XOR/AND/NOT with value -1, Identifiers no keyword in any casing with value at least 1, the punctuation tokens their literal text with value -1 |
| `Guarantees.PipesCollapse` | src/main/java/compiler/lab_1/LexicalAnalyzer.java:193-198 | no two consecutive tokens are both Pipes, and `equals("|")` picks out exactly the Pipes |
| `Guarantees.SameNameSameValue` | src/main/java/compiler/lab_1/LexicalAnalyzer.java:178-182 | Identifier tokens with the same, case-sensitive name carry the same value |
| `Guarantees.DistinctNamesDistinctValues` | src/main/java/compiler/lab_1/LexicalAnalyzer.java:178-182 | Identifier tokens with different names carry different values |
| `Guarantees.ValuesNumberFirstAppearances` | src/main/java/compiler/lab_1/LexicalAnalyzer.java:79 | the n-th new name gets value n, and the values used are exactly 1..k for k distinct names |
| `Guarantees.OutputBoundedByInput` | src/main/java/compiler/lab_1/LexicalAnalyzer.java:84-222 | there are no more tokens and errors together than input characters |
| `Guarantees.UnclosedCommentEndsScan` | src/main/java/compiler/lab_1/LexicalAnalyzer.java:107-127 | an unclosed comment is the last error and comes after every token |
| `Guarantees.TokenAndErrorDiffer` | src/main/java/compiler/lab_1/LexicalAnalyzer.java:131-221 | no text backs both a token and an error |
| `Guarantees.OneEntryPerPosition` | src/main/java/compiler/lab_1/LexicalAnalyzer.java:84-222 | no token shares its position with an error |
| `Guarantees.WordNeverEndsWithParen` | src/main/java/compiler/lab_1/LexicalAnalyzer.java:150-154 | a scanned word never ends with `)`, so the trailing-paren branch cannot fire |
| `Scenarios.ScanSimpleAssignment` | src/test/java/LexicalAnalyzerTest.java:10-20 | `x := TRUE` gives Identifier x (value 1) at column 1, Assign at 3, Boolean TRUE at 6, and no error |
| `Scenarios.ScanMultipleExpressions` | src/test/java/LexicalAnalyzerTest.java:22-32 | `a := TRUE \| b := FALSE \| c := a AND b` gives thirteen tokens, Pipes fourth and eighth, an Assign tenth, the later a and b keeping values 1 and 2, c taking 3, and no error |
| `Scenarios.ScanParentheses` | src/test/java/LexicalAnalyzerTest.java:34-44 | `x := (TRUE OR FALSE) AND (NOT TRUE)` gives twelve tokens, LParen third and RParen seventh, and no error |
| `Scenarios.ScanComments` | src/test/java/LexicalAnalyzerTest.java:46-54 | three closed comments yield nothing; the seven tokens of `x := TRUE \| y := FALSE` keep their columns in the text, and no error |
| `Scenarios.ScanInvalidIdentifier` | src/test/java/LexicalAnalyzerTest.java:57-63 | `123var := TRUE` gives the single error invalid identifier `123var` at 1:1, then Assign and Boolean TRUE; the test's expected unexpected-character error does not occur |
| `Scenarios.ScanLongIdentifier` | src/test/java/LexicalAnalyzerTest.java:65-72 | `very_long_identifier_name := TRUE` gives the single error identifier too long at 1:1, no token for the word, then Assign and Boolean TRUE |
| `Scenarios.ScanInvalidBoolean` | src/test/java/LexicalAnalyzerTest.java:75-81 | `x := TRUEE` gives Identifier x (1), Assign, Identifier TRUEE (2) and no error, where the test expects one |
| `Scenarios.ScanUnclosedComment` | src/test/java/LexicalAnalyzerTest.java:84-90 | `x := TRUE /* Unclosed comment` gives three tokens and the one error unclosed comment at 1:11 |
| `Scenarios.ScanMixedCaseOperators` | src/test/java/LexicalAnalyzerTest.java:93-102 | `x := true or false` gives Identifier, Assign, Boolean TRUE, Operator OR, Boolean FALSE and no error |
| `Scenarios.ScanComplexExpression` | src/test/java/LexicalAnalyzerTest.java:104-113 | `result := (a XOR b) OR (NOT (c AND d))` gives sixteen tokens, three of them LParen, with result, a, b, c, d numbered 1 to 5, and no error |
| `Scenarios.ScanEmptyInput` | src/test/java/LexicalAnalyzerTest.java:115-122 | the empty input gives no tokens and no errors |
| `Scenarios.ScanOnlyComments` | src/test/java/LexicalAnalyzerTest.java:124-131 | `/* Only comment */` gives no tokens and no errors |
| `Scenarios.ScanInvalidAssignment` | src/test/java/LexicalAnalyzerTest.java:133-140 | `x : TRUE` gives Identifier x, Boolean TRUE and the one error invalid colon at 1:3 |
| `Scenarios.ScanSpecialCharacters` | src/test/java/LexicalAnalyzerTest.java:142-149 | `x@ := TRUE` gives Identifier x, Assign, Boolean TRUE and the one error unexpected character `@` at 1:2 |
| `Scenarios.ScanNestedParentheses` | src/test/java/LexicalAnalyzerTest.java:151-160 | `x := ((TRUE AND FALSE) OR (NOT (TRUE XOR FALSE)))` gives eighteen tokens, four LParen and four RParen, and no error |
| `Scenarios.ScanMultiplePipes` | src/test/java/LexicalAnalyzerTest.java:162-171 | `a:=TRUE\|\|b:=FALSE` gives seven tokens with exactly one Pipe, at column 8, and no error |
| `Scenarios.ScanEdgeCaseIdentifiers` | src/test/java/LexicalAnalyzerTest.java:174-180 | `a := A \| b := B \| z := Z` gives eleven tokens, with a, A, b, B, z, Z numbered 1 to 6, and no error, where the test expects 8 tokens and 3 errors |
| `Scenarios.ScanMaxLengthIdentifier` | src/test/java/LexicalAnalyzerTest.java:182-188 | a 16-letter word is still an Identifier: three tokens and no error |
| `Scenarios.ScanJustAboveMaxLengthIdentifier` | src/test/java/LexicalAnalyzerTest.java:190-196 | a 17-letter word gives the single error identifier too long at 1:1 and no token; Assign and Boolean TRUE follow |
| `Findings.LexAsWritten` | src/main/java/compiler/lab_1/LexicalAnalyzer.java:84-222 | one pass of the loop as written throws exactly at a `\|` reached before any token has been emitted, and otherwise makes the model's unit |
| `Findings.RunAsWrittenAgrees` | src/main/java/compiler/lab_1/LexicalAnalyzer.java:84-222 | from any state the loop as written throws exactly when no token has been emitted yet and the model's next token is a Pipe, and otherwise ends in the model's state |
| `Findings.AsWrittenThrowsExactly` | src/main/java/compiler/lab_1/LexicalAnalyzer.java:72-224 | a whole scan as written throws exactly when the model's first token is a Pipe, and otherwise leaves the model's tokens and errors |
| `Findings.LonePipeThrows` | src/main/java/compiler/lab_1/LexicalAnalyzer.java:193-198 | on the input `\|` the loop as written throws, while the model scans one Pipe at 1:1 and no error |
| `Findings.LeadingPipeIsEmitted` | src/main/java/compiler/lab_1/LexicalAnalyzer.java:193-198 | an input that starts with `\|` scans to a first token Pipe at 1:1 |

## Left out

- Reading the program file, `main`, the sample programs and `printResults`: these are I/O around the scanner, not part of it.
- Error message strings: each error is a `ScanError` value holding the error kind, position and quoted text. The `String.format` text is not modelled.
- `Token.toString` and `Token.equals(Token)` are not used by the scan.
- `LexicalException`, `getValue` and `identifierExists` are never called by `analyze`.
- `TokenType.ERROR`: no token of that kind is ever created; the lines that would create one are commented out.
- `bracketsCounter` and `flagOfBracket` (the trailing-paren branch and the extra RParen): a word never contains `)`, so the branch is dead (`Guarantees.WordNeverEndsWithParen`). The counter then has no observable effect and is not modelled.
- `Character.isLetterOrDigit` and `String.toUpperCase` outside ASCII: the model treats only ASCII letters, digits and `_` as word characters. A non-ASCII letter or digit therefore ends a word and becomes an unexpected-character error here, where Java reads it as part of the word, which then fails the pattern. At the start of a word, `é := TRUE` gives an unexpected-character error here and an invalid-identifier error in Java. In the middle of one, `xé := TRUE` gives Identifier x and an unexpected-character error for `é` here, and the single invalid-identifier error `xé` in Java; `TRUEé` likewise gives Boolean TRUE and an error here. Such a character also counts toward the 16-character limit in Java and not here.
- `Analyzer.LexicalAnalyzer.GetTokens` and `GetErrors` return a copy (a `seq`) of the tables, not a live view. The source returns `Collections.unmodifiableList` views of the lists that the next `analyze` clears and refills in place, so a caller holding an earlier view sees the later scan's results. That aliasing is not modelled.
- UTF-16: a Dafny `char` is taken as one Java `char`. Surrogate pairs and supplementary code points are not modelled.
- 32-bit overflow of line, column, offset and counter: integers are unbounded here, and overflow would need inputs of more than 2^31 characters.
- The getLast exception for a `|` before any token: the model emits the Pipe. `Findings` models the loop as written, with the exception, beside it.
- `Analyzer.LexicalAnalyzer.Analyze`: the source's loop body is one block. Here it is split into the methods `ScanUnit`, `ScanComment`, `ScanWord` and `ScanSymbol`, and each of them is proved to make one `Step`.

## Findings

| source | as written | input that shows it | evidently intended | confidence | as-written member | corrected member |
|---|---|---|---|---|---|---|
| src/main/java/compiler/lab_1/LexicalAnalyzer.java:194 | `tokens.getLast()` is called with no check that a token exists, so it throws `NoSuchElementException` when none has been emitted | `\|` (or `@\|`, where only an error comes first) | emit the Pipe, as for any `\|` that does not follow a Pipe; proved in `Findings.LeadingPipeIsEmitted` | not executed | `Findings.AsWrittenThrowsExactly`, `Findings.LonePipeThrows` | `Scanner.LexSymbol` |
