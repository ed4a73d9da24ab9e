# The Lox scanner, modelled and verified in Dafny

This project models the scanner of a Java implementation of Lox: the class
`Lexer` and its method `lexTokens`. The scanner turns a source string into a
list of tokens and reports lexical errors through `Jlox.error(line, message)`.
The repository holds the scanner twice, in near-identical copies: once in the
single-file draft `Jlox.java` (lines 50-206) and once in the packaged
`jlox/Lexer.java` (lines 8-165). The statements are the same. Only some
helper names differ, and the packaged copy sits 42 lines higher up to
`Jlox.java` line 124 and 41 lines higher from line 125 on, because it spells
the whitespace case (`Jlox.java`:124) over two lines (`jlox/Lexer.java`:82-83):

| `Jlox.java` | `jlox/Lexer.java` | model |
|---|---|---|
| `next` (154-156) | `nextToken` (113-115) | `Jlox.Lexer.Next` |
| `isDone` (181-183) | `isAtEnd` (140-142) | `Jlox.Lexer.IsDone` |
| `isDigit` (193-195) | `isDigit` (152-154) | `Lexical.IsDigit` |
| `isAlpha` (197-201) | `isAlpha` (156-160) | `Lexical.IsAlpha` |
| `isAlphaOrNumeric` (203-205) | `isAlphaNumeric` (162-164) | `Lexical.IsAlphaNumeric` |
| `lexTokens` (82-152) | `lexTokens` (40-111) | `Jlox.Lexer.LexTokens`, `Jlox.Lexer.LexToken` |

One model covers both copies. The table below cites `Jlox.java`, and every row
applies to the matching lines of `jlox/Lexer.java`: 42 lines earlier for lines
up to 124, 41 lines earlier from line 125. The one exception is the
`Jlox.Tokenize` row, which cites `run` in `Jlox.java`; its counterpart is
`jlox/Jlox.java`:62-64, where `run` goes on to call the parser.

The model has two layers.

- **The scanner as written** (`lexer.dfy`, module `Jlox`). `Lexer` is a class
  with the Java fields `source`, `tokens`, `start`, `curr` and `line`, plus a
  ghost field `errors` that records each `Jlox.error(line, message)` call.
  `LexTokens` is the Java `while (!isDone())` loop. `LexToken` is one turn of
  it, with the Java `switch` case by case. Each compound case block is its own
  method (`LexSlash`, `LexOperator`, `LexString`, `LexOther`, with `LexNumber`
  and `LexIdentifier` inside `LexOther`), and so are the inner `while` loops
  `SkipComment`, `SkipStringBody` and `SkipDigits`; the word loop stays inline
  in `LexIdentifier`. `Next`, `Peek`, `PeekNext`, `Match` and `AddToken` are the
  Java helpers. They keep the `'\0'` sentinel that `peek` and `peekNext`
  return past the end.
- **A reference definition** (`scanning.dfy`, module `Scanning`).
  - `StepAt(src, pos, line)` says what one turn of the loop does at `pos`:
    where the cursor ends up, the line counter afterwards, and whether a token
    is emitted, an error reported, or nothing.
  - `ScanFrom` chains the turns and appends EOF; `Scan(src)` starts at
    offset 0 on line 1.
  - `LexTokens` is proved against `ScanFrom`: it leaves
    `tokens == old(tokens) + ScanFrom(source, old(curr), old(line)).tokens`,
    and the same for `errors`. `LexToken`, `LexSlash`, `LexOperator`,
    `LexString` and `LexOther` are proved against `StepAt`, each for the cases
    it handles.
  - The inner loops and the methods around them (`SkipComment`,
    `SkipStringBody`, `SkipDigits`, `LexNumber`, `LexIdentifier`) are proved
    against the run ends `RunEnd` and `NumberEnd` of `lexical.dfy` and
    `scanning.dfy`. `Next`, `Peek`, `PeekNext`, `Match` and `AddToken` have
    contracts of their own on the fields they read and write.
  - What the scanner promises is proved about `StepAt` and `ScanFrom`, in
    `step_properties.dfy` and `scan_properties.dfy`. `scan_examples.dfy` works
    out a few small scans.

Tokens carry the Java fields `type`, `lexeme`, `literal` and `line`. A NUMBER
literal is represented by its digits (`Num(lexeme)`), not by the `Double` that
`Double.parseDouble` would produce. A token's line is the line counter when
`addToken` runs. For a string that spans lines, that is the line of its
closing quote.

## Model

| member | source | states |
|---|---|---|
| Tokens.KeywordEntriesAreSpelled | Jlox.java:53-70 | every entry of the keyword table maps a reserved word to a keyword kind, and that kind is spelled as the word |
| Tokens.KeywordKindsAreInTable | Jlox.java:53-70 | each of the 16 keyword kinds has an entry in the table under its spelling, so the table and the keyword kinds are in one-to-one correspondence |
| Lexical.RunEnd | Jlox.java:128-138 | the end of the longest run of one character class from a position: every character before it is in the class, and the next one is not or the source has ended (the inner `while` loops) |
| Lexical.RunEndUnique | Jlox.java:128-138 | any position where such a run stops is RunEnd, so an inner loop that stops has consumed exactly the maximal run |
| Lexical.NewlinesSplit | Jlox.java:110-123 | counting line breaks is additive over adjacent stretches of the source, which is what lets the line counter accumulate turn by turn |
| Scanning.NumberEnd | Jlox.java:127-133 | a number lexeme is at least one character long and stays inside the source |
| Scanning.StepAt | Jlox.java:83-147 | each turn of the main loop consumes at least one character and stays inside the source (so scanning terminates), and never emits EOF |
| StepProperties.StepCountsNewlines | Jlox.java:109-124 | the line counter after a turn is the counter before plus the line breaks the turn consumed: the newline case counts one, a string counts those between its quotes, and nothing else consumes one |
| StepProperties.StringStepCountsNewlines | Jlox.java:109-121 | a string, terminated or not, advances the line counter by exactly the line breaks it consumed |
| StepProperties.StepOutsideStrings | Jlox.java:88-108 | a turn that starts at neither a line break nor a quote consumes no line break and leaves the line counter unchanged |
| StepProperties.SlashStepOnOneLine | Jlox.java:93-99 | a slash or a comment consumes no line break |
| StepProperties.OtherStepOnOneLine | Jlox.java:125-146 | numbers, words and unexpected characters consume no line break |
| StepProperties.SingleKindSpelled | Jlox.java:88-104 | each one-character case emits the kind whose fixed spelling is that character |
| StepProperties.OperatorKindsSpelled | Jlox.java:105-108 | `!`, `=`, `<`, `>` map to the kind spelled by the character and the kind spelled by the character followed by `=` |
| StepProperties.OperatorKindsExtensible | Jlox.java:105-108 | the one-character kind of an operator is one of BANG, EQUAL, LESS, GREATER |
| StepProperties.StepWellFormed | Jlox.java:87-146 | the token a turn emits is well formed: a fixed-spelling kind has its spelling as lexeme and a null literal, a STRING's literal is its lexeme without the quotes, a NUMBER lexeme is digits with an optional dot followed by digits, and an IDENTIFIER is a letter-led word that is not a reserved word |
| StepProperties.StringWellFormed | Jlox.java:109-118 | a terminated string's lexeme is quote, non-quotes, quote, and its literal is the text between the quotes |
| StepProperties.OtherWellFormed | Jlox.java:127-142 | a number's lexeme has a fraction only with digits on both sides of the dot; a word that is in the keyword table becomes that keyword, and one that is not becomes an IDENTIFIER |
| StepProperties.StepMaximal | Jlox.java:93-142 | maximal munch: the character after an emitted token could not have extended it (no `=` after BANG/EQUAL/LESS/GREATER, no `/` after SLASH, no letter, digit or `_` after an identifier or keyword, no digit after a number, and no dot-digit after a number without a fraction) |
| StepProperties.NumberMaximal | Jlox.java:127-133 | a number stops at a non-digit, and stops before a dot only when no digit follows the dot |
| StepProperties.StepSkips | Jlox.java:93-124 | a turn emits and reports nothing exactly when it starts at a space, `\r`, `\t`, a line break, or a `//` comment |
| StepProperties.CommentStopsAtLineBreak | Jlox.java:93-96 | a comment consumes up to, and not including, the next line break or the end of the source, and leaves the line counter alone |
| StepProperties.StepReportsUnexpected | Jlox.java:143-145 | a turn reports "Unexpected character c." exactly when its character begins no token, blank or comment |
| StepProperties.StepReportsUnterminated | Jlox.java:109-121 | a turn reports "Unterminated string." exactly when it starts at a quote that is not closed before the end of the source, and it then consumes the rest of the source |
| ScanProperties.ScanEndsWithEof | Jlox.java:150 | the token list ends with the EOF token (empty lexeme, null literal) on the starting line plus the line breaks in the rest of the source, and no other token is EOF |
| ScanProperties.ScanLinesOrdered | Jlox.java:162-165 | token lines, and error lines, never decrease and never fall below the starting line |
| ScanProperties.LexemesCons | Jlox.java:162-165 | a token whose lexeme is the text just before the later tokens' lexemes keeps the lexemes in order and non-overlapping |
| ScanProperties.ScanLexemesInOrder | Jlox.java:84-165 | every token but EOF has a start offset where its lexeme is the non-empty text of the source, and the lexemes follow one another in source order without overlapping |
| ScanProperties.LawfulCons | Jlox.java:162-165 | adding a well-formed, maximal token in front keeps every token well formed and maximal |
| ScanProperties.ScanTokensWellFormed | Jlox.java:87-150 | every token of a scan is well formed, and every token but EOF is maximal where it ends in the source |
| ScanProperties.UnterminatedStringEndsScan | Jlox.java:109-121 | an unterminated string ends the scan: no token follows it but EOF, its error is the last one, and both carry the line the source ends on |
| ScanProperties.ScanOfSource | Jlox.java:82-151 | a whole scan yields exactly one EOF token, last, on line 1 plus the number of line breaks in the source; well-formed tokens on lines that never decrease; and lexemes that are the source's own text, in order |
| ScanExamples.NumberKeepsTrailingDot | Jlox.java:127-133 | `1.` scans as NUMBER `1`, DOT, EOF |
| ScanExamples.TwoCharacterOperatorWins | Jlox.java:105 | `!=` scans as one BANG_EQUAL token |
| ScanExamples.CommentLeavesLineBreak | Jlox.java:93-96 | in `//`, a line break and `+`, the comment stops before the line break, which moves `+` to line 2 |
| ScanExamples.KeywordPrefixIsIdentifier | Jlox.java:137-142 | `orx` is one IDENTIFIER, not the keyword `or` followed by `x` |
| ScanExamples.StringLiteralDropsQuotes | Jlox.java:109-118 | `"hi"` scans as a STRING with lexeme `"hi"` and literal `hi` |
| ScanExamples.UnterminatedStringReported | Jlox.java:109-121 | a quote, `a` and a line break yield only EOF on line 2, and the error "Unterminated string." on line 2 |
| Jlox.Lexer.constructor | Jlox.java:72-80 | a new scanner is at offset 0 on line 1 with no tokens and no errors |
| Jlox.Lexer.LexTokens | Jlox.java:82-152 | runs the main loop to the end of the source and appends the EOF token: tokens and errors gain exactly those of ScanFrom from the cursor, the line counter gains the line breaks in the rest of the source, and the returned list is the token list |
| Jlox.Lexer.LexToken | Jlox.java:84-147 | one turn: marks the lexeme start, advances the cursor, and leaves the cursor, line counter, tokens and errors as StepAt says |
| Jlox.Lexer.LexSlash | Jlox.java:93-99 | a second slash makes a comment that is skipped; otherwise a SLASH token is appended |
| Jlox.Lexer.SkipComment | Jlox.java:95 | the comment loop stops at the next line break, not consuming it, or at the end |
| Jlox.Lexer.LexOperator | Jlox.java:105-108 | appends the two-character kind and consumes the `=` when one follows, the one-character kind otherwise |
| Jlox.Lexer.LexString | Jlox.java:109-122 | consumes through the closing quote and appends a STRING token with the text between the quotes, or reports "Unterminated string." on the final line and appends nothing |
| Jlox.Lexer.SkipStringBody | Jlox.java:110-113 | the string loop stops at the closing quote or the end, adding the line breaks it passes to the line counter |
| Jlox.Lexer.LexOther | Jlox.java:125-146 | the default case: a number, a keyword or identifier, or the error "Unexpected character c." with the cursor past the character |
| Jlox.Lexer.LexNumber | Jlox.java:127-136 | consumes the digits, then a dot and digits only when a digit follows the dot, and appends a NUMBER token whose literal is its lexeme |
| Jlox.Lexer.SkipDigits | Jlox.java:128 | the digit loop stops at the first non-digit or the end |
| Jlox.Lexer.LexIdentifier | Jlox.java:137-142 | consumes the maximal run of letters, digits and `_`, and appends the keyword kind if the word is in the table, IDENTIFIER otherwise |
| Jlox.Lexer.Next | Jlox.java:154-156 | returns the character under the cursor and advances the cursor by one |
| Jlox.Lexer.AddToken | Jlox.java:158-165 | appends one token whose lexeme is the source from `start` to the cursor, on the current line |
| Jlox.Lexer.Peek | Jlox.java:167-172 | the character under the cursor, or `'\0'` at the end |
| Jlox.Lexer.PeekNext | Jlox.java:174-179 | the character after the cursor, or `'\0'` when there is none |
| Jlox.Lexer.Match | Jlox.java:185-191 | consumes the next character and answers true exactly when it exists and is the expected one; otherwise the cursor does not move |
| Jlox.Tokenize | Jlox.java:245-247 | a fresh scanner over a source returns exactly the tokens of Scan |

## Left out

- Reading files and standard input, printing tokens, and `System.exit` (`main`, `runFile`, `runPrompt` and `run` in both `Jlox` classes) are I/O. `Jlox.Tokenize` keeps only the part of `run` that builds a scanner and calls `lexTokens`.
- `Jlox.error` and `report` print the line and the message to the error stream (`[line N] Error : message` in `Jlox.java`, `[line N] Error: message` in `jlox/Jlox.java`) and set `hadError`. The model appends `LexError(line, message)` to the ghost `errors` list instead. `hadError` is also set by parser errors, so only for a scan that starts with `hadError` false is it true afterwards exactly when that list is non-empty.
- `Double.parseDouble`: floating-point conversion. A NUMBER literal is its digit string.
- `Token.toString` depends on Java's rendering of `null` and `Double`.
- The parser and interpreter called from `jlox/Jlox.java` are not part of this model, and neither are `jlox/RuntimeError.java` or the C files under `clox/`.
- The line counter is a Java `int`. The model uses an unbounded integer, so a source with more than 2^31 - 2 line breaks, where Java would wrap around, is not modelled.
- Java strings are sequences of UTF-16 code units, but the model's `char` is a Unicode scalar value. A character outside the Basic Multilingual Plane is two `char`s to Java and one to the model. Java would report such a character outside a string as two "Unexpected character" errors, where the model reports one.
- `lexTokens` returns the scanner's own list, so the caller and the scanner alias it. The model returns the token sequence by value (`result == tokens`).
- Jlox.Lexer.LexToken: the Java `switch` runs inline in the loop. The model splits its compound cases and inner loops into methods of their own, each proved against the matching part of StepAt. StepAt groups the ten one-character cases that only add a token (all but `/`) into the table `SingleKind` and the four operator cases into `OperatorKinds`.
