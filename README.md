# A verified model of the my-interpreter-go scanner

The repository is an interpreter for a small Lox-style language. Its core is a
byte-level scanner. The scanner turns source text into one line of text per
token, such as `NUMBER 12 12.0` or `IDENTIFIER fortune null`, plus
`[line N] Error: ...` lines for lexical errors. The repository holds two
revisions of the scanner and a tiny string-based parser:

- `Tokenize` in `cmd/myinterpreter/tokenize.go` is the complete revision. Its
  single `for` loop does four things:
  - it skips whitespace and counts newlines;
  - it emits ten punctuators and the operators `=` `!` `<` `>` with an
    optional trailing `=`;
  - it skips `//` comments and emits a lone `/` as `SLASH`;
  - it scans strings (without escapes), identifiers and keywords, and number
    literals with a canonical `X.Y` literal.

  Any other byte is an "Unexpected character" error. When errors were
  recorded, the process prints them and exits with status 65. Otherwise the
  token lines end with `EOF  null`.
- The older revision is `tokenize` and its `handle*` helpers in
  `cmd/myinterpreter/main.go`. The helpers append through a `*[]string` and
  update the package-level `errors` and `line`.
- `Parse` in `cmd/myinterpreter/parse.go` decides on the length and the
  contents of a list of token strings.

## Project layout

| file | module | what it holds |
|---|---|---|
| `charclass.dfy` | `CharClass` | the byte type and the byte classes `isWhitespace`, `isLetterOrUnderscore` and `isDigit`, shared by both revisions |
| `text.dfy` | `Text` | the string helpers the Go code calls (`strings.Index`, `strings.TrimRight`, `%d`, `%c`) and the index scans the inner loops perform |
| `lexing.dfy` | `Lexing` | what both revisions share: the reserved-word and punctuator tables, the diagnostics and their printed text, the `Step` of one loop iteration, the steps both revisions take alike, and the line accounting |
| `scanner.dfy` | `Scanner` | tokenize.go: `StepAt` (one iteration), `ScanFrom` (the loop), `Tokenized` (the whole function), and the method `Tokenize` proved equal to `Tokenized` |
| `scanner_facts.dfy` | `ScannerFacts` | the properties of tokenize.go, proved about `StepAt`, `ScanFrom` and `Tokenized` |
| `legacy.dfy` | `LegacyScanner` | main.go: classes for the token slice and the globals, the handlers and `tokenize` as methods, and the step functions they are proved against |
| `legacy_facts.dfy` | `LegacyFacts` | the properties of main.go and how its output compares with tokenize.go's |
| `parse.dfy` | `Parser` | parse.go's `Parse` as a function returning the printed line |

Bytes are `CharClass.Byte`, the characters below 256, which is the Latin-1
view. Lexemes cut out of the input are therefore strings directly.
`unicode.IsLetter` and `unicode.IsDigit` on a byte are spelled out as the
Latin-1 letters (`A-Z`, `a-z`, `0xAA`, `0xB5`, `0xBA`, `0xC0-0xD6`,
`0xD8-0xF6`, `0xF8-0xFF`) and `0-9`. `%d` is modelled as decimal text.
`%c` is modelled as the UTF-8 encoding of the byte's code point, which is two
bytes for codes from `0x80` up.

Each loop iteration is a `Step`. A `Step` records the index the next
iteration starts at, the line counter after the iteration, and what the
iteration appended to `tokens` and `errors`. Errors are kept as `Diagnostic`
values and printed by `Messages`. A diagnostic also records the input offset
at which the line counter was read; this offset is not printed and serves the
line-number lemmas. The imperative code is proved against these functions:
`Scanner.Tokenize`, and the handlers and `tokenize` of `LegacyScanner`.

## Model

| member | source | states |
|---|---|---|
| CharClass.IsWhitespace | cmd/myinterpreter/main.go:10-12 | definition: space, `\r` and `\t`; `ClassesDisjoint` proves it excludes `\n` and the identifier bytes |
| CharClass.IsLetter | cmd/myinterpreter/main.go:14-16 | definition: `unicode.IsLetter` restricted to the code points below 256, spelled out as the Latin-1 letters |
| CharClass.IsLetterOrUnderscore | cmd/myinterpreter/main.go:14-16 | definition: a letter or `_`; `ClassesDisjoint` proves no digit is one |
| CharClass.IsDigit | cmd/myinterpreter/main.go:18-20 | definition: `unicode.IsDigit` below 256, which is `0-9` |
| CharClass.IsIdentChar | cmd/myinterpreter/tokenize.go:118 | definition: a letter, a digit or `_`, the condition of the identifier loops (main.go:75 tests the same class); `ScannerFacts.IdentifierMaximalMunch` proves the identifier case consumes exactly the maximal run of it |
| CharClass.IsOperatorByte | cmd/myinterpreter/tokenize.go:62-89 | definition: `=`, `!`, `<` and `>`, the four operator cases (main.go:152-159 sends the same four to `handleComparisonOperator`); `ScannerFacts.OperatorLongestMatch` and `LegacyFacts.OperatorRun` prove what each revision does on them |
| CharClass.ClassesDisjoint | cmd/myinterpreter/main.go:10-20 | a digit is not a letter or `_`; whitespace is neither an identifier byte nor a newline; an identifier byte is none of newline, `"`, `.` and `/`, so the dispatch cases are disjoint |
| Text.Find | cmd/myinterpreter/tokenize.go:92-94 | the comment loop stops at the first `\n` at or after the start, or at the end of input |
| Text.FindAt | cmd/myinterpreter/tokenize.go:92-94 | any index that is the end or a `\n`, with no `\n` before it, is where the comment loop stops |
| Text.RunEnd | cmd/myinterpreter/tokenize.go:118-120 | the identifier and digit loops stop at the end of the longest run of accepted bytes |
| Text.RunEndAt | cmd/myinterpreter/tokenize.go:132-134 | any index that ends a run of accepted bytes is where such a loop stops |
| Text.NewlinesSplit | cmd/myinterpreter/tokenize.go:38-39 | the newlines of a span are those of its two halves |
| Text.NoNewlines | cmd/myinterpreter/tokenize.go:38-39 | a span without `\n` adds nothing to the line counter |
| Text.NewlinesExtend | cmd/myinterpreter/tokenize.go:102-104 | one more byte adds one to the count exactly when it is `\n` |
| Text.IndexOf | cmd/myinterpreter/tokenize.go:149 | `strings.Index`: -1 exactly when the byte is absent, otherwise its first position |
| Text.TrimRight | cmd/myinterpreter/tokenize.go:151 | `strings.TrimRight` with one cutset byte: a prefix that does not end in that byte, where everything cut off is that byte |
| Text.Decimal | cmd/myinterpreter/tokenize.go:108 | `%d` of a natural number: nonempty decimal digits, with no leading zero |
| Text.DecimalRoundTrip | cmd/myinterpreter/tokenize.go:108 | reading the `%d` text back gives the number |
| Text.RuneText | cmd/myinterpreter/tokenize.go:165 | `%c` of a byte: the byte itself below `0x80`, otherwise a two-byte UTF-8 sequence |
| Text.RuneRoundTrip | cmd/myinterpreter/tokenize.go:165 | decoding the `%c` text gives back the code point of the byte |
| Text.IntText | cmd/myinterpreter/tokenize.go:108 | definition: `%d` of an integer, a `-` then `Decimal` of its magnitude (also tokenize.go:165 and main.go:62, 106); `Decimal` and `DecimalRoundTrip` prove the digits are canonical and read back to the number |
| Lexing.ReservedKeywords | cmd/myinterpreter/tokenize.go:16-33 | definition: the sixteen reserved words (main.go:112-129 holds the same table); `ReservedWordsShape` proves each maps to its upper-case spelling |
| Lexing.SingleCharTokens | cmd/myinterpreter/tokenize.go:42-61 | definition: the ten punctuators and their lines (the same map as main.go:27-38); `SingleCharTokensShape` proves each line ends in ` c null` |
| Lexing.IdentLine | cmd/myinterpreter/tokenize.go:123-127 | definition: the keyword or IDENTIFIER line; `ScannerFacts.IdentLineKinds` proves what each prints |
| Lexing.UnterminatedMessage | cmd/myinterpreter/tokenize.go:108 | definition: the unterminated-string text with the `%d` line; `ScannerFacts.UnterminatedOnLine1` gives an instance |
| Lexing.UnexpectedMessage | cmd/myinterpreter/tokenize.go:165 | definition: the unexpected-character text with the `%d` line and the `%c` byte; `ScannerFacts.AtOnLine1` gives an instance |
| Lexing.Message | cmd/myinterpreter/tokenize.go:171 | definition: the line one recorded error prints as, `UnterminatedMessage` or `UnexpectedMessage`; `ScannerFacts.MessageTexts` gives its text on the worked errors |
| Lexing.Messages | cmd/myinterpreter/tokenize.go:170-172 | definition: the `errors` list as printed, one `Message` per error in order; `MessagesConcat` proves it distributes over concatenation |
| Lexing.StringLine | cmd/myinterpreter/tokenize.go:113 | definition: `STRING`, the quoted lexeme and the body (main.go:68 prints the same); `ScannerFacts.ClosedStringScan` proves the string case emits it and `ScannerFacts.StringLineNotEof` that it is never the EOF line |
| Lexing.ReservedWordsShape | cmd/myinterpreter/tokenize.go:16-33 | every reserved word maps to its own spelling in upper case |
| Lexing.FirstKinds | cmd/myinterpreter/tokenize.go:17-24 | the first eight reserved words have their upper-case spelling as kind |
| Lexing.LastKinds | cmd/myinterpreter/tokenize.go:25-32 | the last eight reserved words have their upper-case spelling as kind |
| Lexing.SingleCharTokensShape | cmd/myinterpreter/tokenize.go:42-61 | every punctuator line ends with a space, the byte itself and ` null` |
| Lexing.MessagesConcat | cmd/myinterpreter/tokenize.go:170-172 | the error lines of two runs of diagnostics are the two lists of lines in order |
| Lexing.DiagnosticsConcat | cmd/myinterpreter/tokenize.go:35-39 | line accounting of diagnostics composes over consecutive spans |
| Lexing.ThenOk | cmd/myinterpreter/tokenize.go:35-39 | an iteration followed by the rest of the loop keeps the line accounting |
| Lexing.NumberEnd | cmd/myinterpreter/tokenize.go:132-142 | the number lexeme is at least one byte long, stays within the input and holds only digits and `.`; when it is a float, the `.` follows the integer digits |
| Lexing.StringStep | cmd/myinterpreter/tokenize.go:99-114 | a string iteration consumes at least the opening quote and never passes the end |
| Lexing.StringStepClosed | cmd/myinterpreter/tokenize.go:109-113 | once the first `"` after the opening one is at `k`, the iteration resumes after it with the body's newlines counted and the one STRING line |
| Lexing.StringStepOpen | cmd/myinterpreter/tokenize.go:106-108 | once no `"` follows, the iteration runs to the end and records one unterminated error on the line reached |
| Lexing.IdentifierStep | cmd/myinterpreter/tokenize.go:116-127 | an identifier iteration consumes at least one byte and never passes the end |
| Lexing.UnexpectedStep | cmd/myinterpreter/tokenize.go:164-166 | an unexpected byte consumes exactly one byte |
| Lexing.CommentStep | cmd/myinterpreter/tokenize.go:91-95 | a comment iteration consumes at least one byte and never passes the end |
| Lexing.StringStepOk | cmd/myinterpreter/tokenize.go:99-114 | a string iteration raises the line counter by exactly the newlines it consumed, and any error names the line at its end |
| Lexing.IdentifierStepOk | cmd/myinterpreter/tokenize.go:116-127 | an identifier leaves the line counter unchanged |
| Lexing.UnexpectedStepOk | cmd/myinterpreter/tokenize.go:164-166 | the unexpected-character error names the current line |
| Lexing.CommentStepOk | cmd/myinterpreter/tokenize.go:91-95 | a comment consumes no newline and leaves the counter unchanged |
| Lexing.DiagnosticLines | cmd/myinterpreter/tokenize.go:35-39 | over a whole input each error's line is 1 plus the newlines before it, and error lines never decrease |
| Scanner.NumberLiteral | cmd/myinterpreter/tokenize.go:146-161 | an integer lexeme followed by `.0`; for a lexeme with a `.`, everything up to the first `.` and then the canonical fraction: nonempty, no trailing `0` unless it is `0`, and the digits after the `.` with only trailing zeros dropped, or `0` when they were all zeros; the empty literal for a float lexeme without `.` |
| Scanner.FloatLiteral | cmd/myinterpreter/tokenize.go:150-157 | the integer part, `.` and the canonical fraction of the given digits |
| Scanner.NumberLine | cmd/myinterpreter/tokenize.go:163 | definition: `NUMBER`, the lexeme and `NumberLiteral`; `ScannerFacts.IntegerNumberScan` and `ScannerFacts.FloatNumberScan` prove the number case emits it and `ScannerFacts.NumberLineNotEof` that it is never the EOF line |
| Scanner.OperatorStep | cmd/myinterpreter/tokenize.go:62-89 | an operator iteration stays within the input |
| Scanner.SlashStep | cmd/myinterpreter/tokenize.go:90-98 | a slash iteration stays within the input |
| Scanner.NumberStep | cmd/myinterpreter/tokenize.go:128-163 | a number iteration stays within the input |
| Scanner.StepAt | cmd/myinterpreter/tokenize.go:35-167 | every iteration moves the index forward and never past the end, so the loop terminates |
| Scanner.LexemeStep | cmd/myinterpreter/tokenize.go:62-166 | the lexeme cases of the `switch` move forward and stay within the input |
| Scanner.DispatchString | cmd/myinterpreter/tokenize.go:99 | at a `"` the iteration is the string case |
| Scanner.DispatchIdentifier | cmd/myinterpreter/tokenize.go:116 | at a letter or `_` the iteration is the identifier case |
| Scanner.DispatchNumber | cmd/myinterpreter/tokenize.go:128 | at a digit the iteration is the number case |
| Scanner.StepAtOk | cmd/myinterpreter/tokenize.go:35-167 | every iteration moves forward, stays within the input, and raises the line counter by exactly the newlines it consumed |
| Scanner.LexemeStepOk | cmd/myinterpreter/tokenize.go:62-166 | the same for each lexeme case |
| Scanner.ScanFromOk | cmd/myinterpreter/tokenize.go:35-168 | the final line is the start line plus the input's newlines, and every error is recorded on the line of its offset |
| Scanner.ScanFrom | cmd/myinterpreter/tokenize.go:35-168 | definition: the loop from index `i` to the end, one `StepAt` at a time; `ScanFromOk`, `ScannerFacts.LineAccounting` and `ScannerFacts.ScanNotEof` prove its properties |
| Scanner.ScanUnfold | cmd/myinterpreter/tokenize.go:35 | the loop from a byte before the end is that byte's iteration followed by the loop from where it stops |
| Scanner.ScanEnd | cmd/myinterpreter/tokenize.go:35 | at the end of input the loop adds no token and no error and keeps the line |
| Scanner.EofLine | cmd/myinterpreter/tokenize.go:178 | definition: `EOF  null`, with two spaces; `ScannerFacts.EofOnce` proves a successful output ends in exactly one of it |
| Scanner.Outcome | cmd/myinterpreter/tokenize.go:170-179 | definition: the two ways `Tokenize` ends, the returned token lines or the error lines printed before `os.Exit(65)`; `Scanner.Tokenized` says which |
| Scanner.Tokenized | cmd/myinterpreter/tokenize.go:10-179 | definition: exit 65 with the error lines, or the token lines and `EOF  null`; `Scanner.Tokenize` is proved equal to it and `ScannerFacts.EofOnce` proves the EOF property |
| Scanner.ThenAppends | cmd/myinterpreter/tokenize.go:35-168 | appending one iteration's output and then the rest's equals appending the composed scan |
| Scanner.ScanAdvance | cmd/myinterpreter/tokenize.go:35-168 | the loop's accounting survives one iteration: what is already appended plus the rest of the scan, from the next index, is still the whole scan |
| Scanner.TokenizedOf | cmd/myinterpreter/tokenize.go:170-179 | once the scan's tokens and errors are known, `Tokenized` exits with status 65 and the error lines exactly when there is an error line, and otherwise returns the tokens followed by `EOF  null` |
| Scanner.ScanOperator | cmd/myinterpreter/tokenize.go:62-89 | the operator cases append the step's token and return the index of the last byte of the step |
| Scanner.ScanSlash | cmd/myinterpreter/tokenize.go:90-98 | the `/` case skips a comment up to the byte before the `\n`, or appends `SLASH / null` |
| Scanner.ScanString | cmd/myinterpreter/tokenize.go:99-114 | the string loop counts the body's newlines and appends the STRING line or the unterminated error |
| Scanner.OpenStringPerforms | cmd/myinterpreter/tokenize.go:106-108 | with no closing quote the string case stops on the last byte, adds no token and records one unterminated-string line on the line reached after the body |
| Scanner.ClosedStringPerforms | cmd/myinterpreter/tokenize.go:109-113 | with the closing quote at `k` the string case stops on it, adds the `STRING` line of the quoted lexeme and body, and records no error |
| Scanner.SkipStringBody | cmd/myinterpreter/tokenize.go:101-105 | the inner string loop stops on the byte before the first `"` after the opening one, or on the last byte, with the line counter raised by the newlines it passed |
| Scanner.ScanIdentifier | cmd/myinterpreter/tokenize.go:116-127 | the identifier loop appends the keyword or IDENTIFIER line of the maximal run |
| Scanner.ScanNumber | cmd/myinterpreter/tokenize.go:128-163 | the number loops append the NUMBER line with the canonical literal |
| Scanner.ScanLexeme | cmd/myinterpreter/tokenize.go:62-166 | the lexeme cases of the `switch` do what `LexemeStep` describes |
| Scanner.ScanCase | cmd/myinterpreter/tokenize.go:37-166 | one pass of the `switch` does what `StepAt` describes |
| Scanner.Tokenize | cmd/myinterpreter/tokenize.go:10-179 | the loop's result is `Tokenized`: exit 65 with the error lines if any were recorded, otherwise the token lines and `EOF  null` |
| ScannerFacts.OperatorLongestMatch | cmd/myinterpreter/tokenize.go:62-89 | `=` `!` `<` `>` followed by `=` give a single `_EQUAL` token and consume both bytes; otherwise they give the one-byte token; no error, line unchanged |
| ScannerFacts.SimpleOperator | cmd/myinterpreter/tokenize.go:66-88 | without a following `=` the token is the operator's own kind |
| ScannerFacts.CompoundOperator | cmd/myinterpreter/tokenize.go:63-86 | with a following `=` the token is the operator's `_EQUAL` kind |
| ScannerFacts.CommentSkipped | cmd/myinterpreter/tokenize.go:90-95 | `//` emits nothing and resumes at the next `\n`, which then raises the line counter |
| ScannerFacts.LoneSlash | cmd/myinterpreter/tokenize.go:96-97 | a `/` not followed by `/` emits `SLASH / null` and scanning continues at the next byte |
| ScannerFacts.ClosedStringScan | cmd/myinterpreter/tokenize.go:99-114 | a closed string emits one `STRING lex lit` line, where `lex` is the span from quote to quote and `lit` exactly the bytes between them; scanning resumes after the closing quote with the counter raised by the body's newlines |
| ScannerFacts.ClosedStringStep | cmd/myinterpreter/tokenize.go:99-114 | the iteration at a closed string ends after its closing quote |
| ScannerFacts.ScanOneToken | cmd/myinterpreter/tokenize.go:35-36 | an iteration with one token and no error is followed by the rest of the loop |
| ScannerFacts.ClosedString | cmd/myinterpreter/tokenize.go:99-114 | a closed string resumes after its closing quote with the body's newlines counted |
| ScannerFacts.OpenString | cmd/myinterpreter/tokenize.go:101-108 | an open string runs to the end of input and records one unterminated error on the line after the body's newlines |
| ScannerFacts.StringUnterminated | cmd/myinterpreter/tokenize.go:101-108 | with no closing quote: no token, exactly one `[line N] Error: Unterminated string.`, N after the body's newlines, and the scan ends |
| ScannerFacts.UnexpectedIff | cmd/myinterpreter/tokenize.go:164-166 | an iteration records the unexpected-character error for its byte exactly when no other case accepts the byte |
| ScannerFacts.UnexpectedContinues | cmd/myinterpreter/tokenize.go:164-166 | an unexpected byte records `[line N] Error: Unexpected character: c` with the current line, emits no token, and scanning continues at the next byte |
| ScannerFacts.IdentifierMaximalMunch | cmd/myinterpreter/tokenize.go:116-127 | an identifier is the maximal run of letters, digits and `_`, and its line is that run's classification |
| ScannerFacts.IdentLineKinds | cmd/myinterpreter/tokenize.go:123-127 | a reserved run prints `KIND lex null` with KIND its upper-case spelling; any other prints `IDENTIFIER lex null` |
| ScannerFacts.FortuneIsIdentifier | cmd/myinterpreter/tokenize.go:116-127 | `fortune`, which starts with the keyword `for`, is one IDENTIFIER |
| ScannerFacts.FortuneStep | cmd/myinterpreter/tokenize.go:116-127 | the single iteration over `fortune` |
| ScannerFacts.FortuneNotReserved | cmd/myinterpreter/tokenize.go:123-127 | `fortune` is not a reserved word |
| ScannerFacts.FloatLiteralCanonical | cmd/myinterpreter/tokenize.go:146-158 | a float literal is the integer part, `.`, and a nonempty digit string without trailing zeros (`0` when the fraction is all zeros) that is the fraction with only trailing zeros removed |
| ScannerFacts.DotPosition | cmd/myinterpreter/tokenize.go:149 | in a lexeme of digits, `.` and a fraction, `strings.Index` finds the `.` after the digits |
| ScannerFacts.IntegerNumberScan | cmd/myinterpreter/tokenize.go:128-163 | a digit run not followed by `.` is one NUMBER whose literal is the digits with `.0` |
| ScannerFacts.FloatNumberScan | cmd/myinterpreter/tokenize.go:128-163 | digits, `.`, and digits form one NUMBER with the canonical literal, even when no digit follows the `.` |
| ScannerFacts.FloatEnd | cmd/myinterpreter/tokenize.go:132-142 | the number loops end after the fractional digits |
| ScannerFacts.IntegerLiteralExample | cmd/myinterpreter/tokenize.go:160 | `123` gives `123.0` |
| ScannerFacts.TrailingZeroExample | cmd/myinterpreter/tokenize.go:150-156 | `123.450` gives `123.45` |
| ScannerFacts.FloatLiteralParts | cmd/myinterpreter/tokenize.go:149-157 | the literal of `d.f` is `d.` and the trimmed fraction, or `d.0` |
| ScannerFacts.TrimmedFraction | cmd/myinterpreter/tokenize.go:151 | `450` trimmed of `0` is `45` |
| ScannerFacts.ZeroFractionExample | cmd/myinterpreter/tokenize.go:153-154 | `123.0` gives `123.0` |
| ScannerFacts.BareDotExample | cmd/myinterpreter/tokenize.go:136-154 | `1.` gives `1.0` |
| ScannerFacts.LineAccounting | cmd/myinterpreter/tokenize.go:35-168 | the final line is 1 plus the input's newlines; each error's line is 1 plus the newlines before its offset; error lines never decrease |
| ScannerFacts.NotEofShape | cmd/myinterpreter/tokenize.go:178 | a line of a space-free kind, one space, and a text not starting with a space is not `EOF  null` |
| ScannerFacts.StringLineNotEof | cmd/myinterpreter/tokenize.go:113 | no STRING line is the EOF line |
| ScannerFacts.NumberLineNotEof | cmd/myinterpreter/tokenize.go:163 | no NUMBER line is the EOF line |
| ScannerFacts.IdentLineNotEof | cmd/myinterpreter/tokenize.go:126 | no IDENTIFIER line is the EOF line |
| ScannerFacts.KeywordLineNotEof | cmd/myinterpreter/tokenize.go:124 | no keyword line is the EOF line |
| ScannerFacts.PunctuatorsNotEof | cmd/myinterpreter/tokenize.go:42-61 | no punctuator line is the EOF line |
| ScannerFacts.StepNotEof | cmd/myinterpreter/tokenize.go:35-167 | no iteration emits the EOF line |
| ScannerFacts.LexemeNotEof | cmd/myinterpreter/tokenize.go:62-166 | no lexeme case emits the EOF line |
| ScannerFacts.ScanNotEof | cmd/myinterpreter/tokenize.go:35-168 | the scan loop never emits the EOF line |
| ScannerFacts.EofOnce | cmd/myinterpreter/tokenize.go:174-179 | on a normal return the lines are the scanned tokens in order, then exactly one `EOF  null` |
| ScannerFacts.UnknownSymbolExample | cmd/myinterpreter/tokenize.go:164-176 | ` @` exits with status 65 and `[line 1] Error: Unexpected character: @` |
| ScannerFacts.WhitespaceAroundAt | cmd/myinterpreter/tokenize.go:164-176 | on every input made of `@` with only spaces, `\r` and `\t` around it: exit 65 with exactly `[line 1] Error: Unexpected character: @` |
| ScannerFacts.WhitespaceSkipped | cmd/myinterpreter/tokenize.go:40 | the scan across a run of whitespace is the scan after it: no token, no error, the same line |
| ScannerFacts.WhitespaceStep | cmd/myinterpreter/tokenize.go:40 | one whitespace byte is skipped with nothing emitted |
| ScannerFacts.AtUnclassified | cmd/myinterpreter/tokenize.go:164-166 | no case of the `switch` accepts `@` |
| ScannerFacts.AtBetweenWhitespace | cmd/myinterpreter/tokenize.go:35-168 | an input that is whitespace except for one `@` scans to that single error on line 1 and no token |
| ScannerFacts.AtThenWhitespace | cmd/myinterpreter/tokenize.go:164-166 | an `@` followed only by whitespace gives that single error and no token |
| ScannerFacts.MessageTexts | cmd/myinterpreter/tokenize.go:165 | the printed text of the errors in the worked inputs: two unexpected-character errors and one unterminated string (line 108) |
| ScannerFacts.AtOnLine1 | cmd/myinterpreter/tokenize.go:165 | the `@` error on line 1 |
| ScannerFacts.AtOnLine3 | cmd/myinterpreter/tokenize.go:165 | the `@` error on line 3 |
| ScannerFacts.UnterminatedOnLine1 | cmd/myinterpreter/tokenize.go:108 | the unterminated-string error on line 1 |
| ScannerFacts.LineTrackingExample | cmd/myinterpreter/tokenize.go:38-39 | after two newlines the `@` error is on line 3 |
| ScannerFacts.LastByteStep | cmd/myinterpreter/tokenize.go:164-166 | the last iteration of that example |
| ScannerFacts.TwoLinesStep | cmd/myinterpreter/tokenize.go:38-39 | the first four iterations of that example add no error and reach line 3 |
| ScannerFacts.GreedyOperatorExample | cmd/myinterpreter/tokenize.go:69-72 | `!=` is the one token `BANG_EQUAL != null` |
| ScannerFacts.UnterminatedExample | cmd/myinterpreter/tokenize.go:101-108 | `"abc` exits with status 65 and `[line 1] Error: Unterminated string.` |
| ScannerFacts.UnterminatedScan | cmd/myinterpreter/tokenize.go:101-108 | the scan of `"abc` records the one unterminated error, on line 1 |
| LegacyScanner.TokenList.constructor | cmd/myinterpreter/main.go:140 | the token list starts empty |
| LegacyScanner.PackageState.constructor | cmd/myinterpreter/main.go:130-131 | the globals start at Go's zero values |
| LegacyScanner.ComparisonStep | cmd/myinterpreter/main.go:44-51 | the comparison handler consumes one or two bytes within the input |
| LegacyScanner.LegacyNumberLiteral | cmd/myinterpreter/main.go:96-103 | an integer lexeme is its own literal; a float lexeme keeps everything up to its first `.` and then the digits after it with only trailing zeros dropped, which may leave nothing after the `.` |
| LegacyScanner.LegacyFloatLiteral | cmd/myinterpreter/main.go:98-102 | the integer part, `.` and the digits with only trailing zeros dropped, possibly none |
| LegacyScanner.LegacyNumberLine | cmd/myinterpreter/main.go:104 | definition: `NUMBER`, the lexeme and `LegacyNumberLiteral`; `LegacyFacts.IntegerAsWritten` and `LegacyFacts.ZeroFractionAsWritten` give what it prints on `12` and `1.0` |
| LegacyScanner.LegacyNumberStep | cmd/myinterpreter/main.go:84-104 | a number iteration stays within the input |
| LegacyScanner.WordStep | cmd/myinterpreter/main.go:72-109 | the identifier-or-number handler's iteration stays within the input |
| LegacyScanner.LegacyStepAt | cmd/myinterpreter/main.go:143-174 | every iteration moves forward and never past the end, so the loop terminates |
| LegacyScanner.LegacyScanFrom | cmd/myinterpreter/main.go:143-174 | definition: the loop from index `i` to the end, one `LegacyStepAt` at a time; `LegacyFacts.SameDiagnostics` and `LegacyFacts.LegacyLineAccounting` prove its properties |
| LegacyScanner.LegacyScanUnfold | cmd/myinterpreter/main.go:143 | the loop from a byte before the end is that byte's iteration followed by the loop from where it stops |
| LegacyScanner.LegacyScanEnd | cmd/myinterpreter/main.go:143 | at the end of input the loop adds no token and no error and keeps the line |
| LegacyScanner.LegacyEofLine | cmd/myinterpreter/main.go:175 | definition: `EOF null`, with one space; `LegacyFacts.EofEvenWithErrors` shows it is appended even when errors were recorded |
| LegacyScanner.LegacyTokenized | cmd/myinterpreter/main.go:140-176 | definition: the token lines with `EOF null` appended in every case, and the error lines; `LegacyScanner.Tokenize` is proved equal to it |
| LegacyScanner.HandleSingleCharToken | cmd/myinterpreter/main.go:26-42 | appends exactly one line for the ten mapped bytes and nothing for any other byte |
| LegacyScanner.HandleComparisonOperator | cmd/myinterpreter/main.go:44-51 | appends the comparison step's token and returns `i+1` on a repeated byte, `i` otherwise |
| LegacyScanner.HandleStringLiteral | cmd/myinterpreter/main.go:53-70 | returns the closing quote's index after appending the STRING line, or `len(contents)-1` after appending the unterminated error; the global line gains the body's newlines |
| LegacyScanner.SkipStringBody | cmd/myinterpreter/main.go:55-60 | the inner loop stops on the byte before the first `"` after the opening one, or on the last byte, with the global line raised by the newlines it passed and `errors` unchanged |
| LegacyScanner.HandleIdentifierOrNumber | cmd/myinterpreter/main.go:72-109 | appends the identifier, keyword or number line, or the unexpected-character error at the current line, and returns the index of the lexeme's last byte |
| LegacyScanner.ScanWord | cmd/myinterpreter/main.go:75-77 | the identifier loop stops before the first byte that is neither a letter, `_` nor a digit |
| LegacyScanner.ScanNumeral | cmd/myinterpreter/main.go:85-95 | the number loops consume the same span as in tokenize.go and report whether a `.` was taken |
| LegacyScanner.SkipComment | cmd/myinterpreter/main.go:161-165 | the comment loop leaves the index just before the next `\n` or the end |
| LegacyScanner.Dispatch | cmd/myinterpreter/main.go:144-173 | each case of the `switch` does what `LegacyStepAt` describes |
| LegacyScanner.Tokenize | cmd/myinterpreter/main.go:140-176 | resets `errors` and `line` to empty and 1, returns the scan's token lines followed by `EOF null` in every case, and the error lines; the globals end as the scan leaves them |
| LegacyFacts.LegacyDispatchComparison | cmd/myinterpreter/main.go:152-159 | at `=` `!` `<` `>` the iteration is the comparison handler |
| LegacyFacts.DispatchOperator | cmd/myinterpreter/tokenize.go:62-89 | in tokenize.go the iteration at those bytes is the operator case |
| LegacyFacts.OperatorRun | cmd/myinterpreter/main.go:44-51 | both revisions cross a run of operator bytes without an error and without changing the line |
| LegacyFacts.StepsAgree | cmd/myinterpreter/main.go:143-174 | away from operator bytes the two revisions take the same iteration, up to the tokens of `/` and of numbers |
| LegacyFacts.SameDiagnostics | cmd/myinterpreter/main.go:143-174 | on every input the two revisions record the same errors on the same lines, and end with the same line counter |
| LegacyFacts.LegacyLineAccounting | cmd/myinterpreter/main.go:143-174 | in main.go the final line is 1 plus the input's newlines, each error's line is 1 plus the newlines before its offset, and error lines never decrease |
| LegacyFacts.ComparisonAlwaysEqual | cmd/myinterpreter/main.go:44-51 | for each of `=` `!` `<` `>`: `EQUAL_EQUAL == null` and two bytes on a repeated byte, otherwise `EQUAL = null` and one byte |
| LegacyFacts.LegacyLoneSlash | cmd/myinterpreter/main.go:166-167 | a lone `/` emits nothing and scanning continues at the next byte |
| LegacyFacts.LiteralRevisions | cmd/myinterpreter/main.go:96-103 | tokenize.go's literal is main.go's with `.0` after an integer and `0` after a fraction that was all zeros; otherwise they are equal |
| LegacyFacts.BangEqualAsWritten | cmd/myinterpreter/main.go:44-51 | `!=` gives `EQUAL = null` twice |
| LegacyFacts.RepeatedLessAsWritten | cmd/myinterpreter/main.go:45-47 | `<<` gives `EQUAL_EQUAL == null` |
| LegacyFacts.LoneSlashAsWritten | cmd/myinterpreter/main.go:166-167 | `/` gives only `EOF null` |
| LegacyFacts.ZeroFractionAsWritten | cmd/myinterpreter/main.go:98-102 | `1.0` has the literal `1.` |
| LegacyFacts.TrailingZeroAsWritten | cmd/myinterpreter/main.go:98-102 | `1.50` has the literal `1.5` |
| LegacyFacts.IntegerAsWritten | cmd/myinterpreter/main.go:96-104 | `12` gives `NUMBER 12 12` |
| LegacyFacts.EofEvenWithErrors | cmd/myinterpreter/main.go:175-176 | `@` gives the unexpected-character error and still `EOF null` |
| Parser.ParseError | cmd/myinterpreter/parse.go:16 | definition: the `Error: Unable to parse.` line; `FailureIff` proves it is printed exactly when neither token shape matches |
| Parser.SumLine | cmd/myinterpreter/parse.go:13 | definition: `(+ a b)`; `SumLineShape` proves it starts with `(` and is never the error line, and `SumExample` gives an instance |
| Parser.Parse | cmd/myinterpreter/parse.go:6-17 | total on every list: two tokens headed by `true`, `false` or `nil` print that token; four tokens with `PLUS` second print `(+ a b)` |
| Parser.SumLineShape | cmd/myinterpreter/parse.go:13 | a sum line starts with `(` and is not the error line |
| Parser.FailureIff | cmd/myinterpreter/parse.go:8-16 | `Error: Unable to parse.` is printed exactly when neither shape matches |
| Parser.IgnoredTokens | cmd/myinterpreter/parse.go:8-14 | the fourth of four tokens and the second of two are never read |
| Parser.SumExample | cmd/myinterpreter/parse.go:12-14 | `1.0 PLUS 2.0 EOF` prints `(+ 1.0 2.0)` |
| Parser.LiteralExample | cmd/myinterpreter/parse.go:8-10 | `nil EOF` prints `nil`, while `nil` alone is an error |

## Left out

- Reading the file (`os.ReadFile`), the `os.Args` command dispatch and all
  printing in `main` (main.go:135-139, 179-200) are I/O. The contents are a
  parameter instead.
- The stderr printing and `os.Exit(65)` in tokenize.go (170-176) become the
  `Exit(65, lines)` outcome of `Scanner.Tokenized`.
- The newline that `Println` adds after each line is not part of the
  modelled lines.
- `unicode.IsLetter` and `unicode.IsDigit` are library calls. They are
  replaced by the Latin-1 byte predicates of `CharClass`.
- `handleWhitespace` (main.go:22-24) does nothing and is not modelled as a
  method; the whitespace case of `Dispatch` does nothing in its place.
- Some inner loops are written as helper methods: the string loop of
  tokenize.go is `Scanner.SkipStringBody`, the loops of
  `handleStringLiteral` and `handleIdentifierOrNumber` are
  `LegacyScanner.SkipStringBody`, `LegacyScanner.ScanWord` and
  `LegacyScanner.ScanNumeral`, and the loop in main.go's `/` case is
  `LegacyScanner.SkipComment`. The comment, identifier and number loops of
  tokenize.go stay inline in `Scanner.ScanSlash`, `Scanner.ScanIdentifier`
  and `Scanner.ScanNumber`. Each loop is proved against the same index
  function as the code it stands for.
- tokenize.go's single `switch` (37-167) is not one Dafny method. It is
  split into `Scanner.ScanCase` (newline, whitespace and the punctuators),
  `Scanner.ScanLexeme` (the remaining cases), and one method per case
  group: `ScanOperator`, `ScanSlash`, `ScanString`, `ScanIdentifier` and
  `ScanNumber`. None of these is a Go function.
- The ten punctuator cases of tokenize.go (42-61) and the map in
  `handleSingleCharToken` are one shared table, `Lexing.SingleCharTokens`.
- LegacyScanner.HandleComparisonOperator, HandleStringLiteral and
  HandleIdentifierOrNumber require what `tokenize` always passes:
  `0 <= i < len(contents)` and `char == contents[i]`. HandleStringLiteral
  also requires `char == '"'`. HandleSingleCharToken has no precondition.
- The line counter is an unbounded integer. Go's `int` cannot overflow on a
  file that fits in memory.

Three points where the code departs from the usual Lox scanner rules.
The model follows the code:

- `1.` (a `.` with no digit after it) is consumed as one NUMBER `1.` with
  literal `1.0`, not as `1` and `DOT`.
- With errors, tokenize.go exits without appending `EOF  null`. main.go
  appends `EOF null`, with one space, in every case.
- String literals are taken verbatim, with no escape handling.

## Findings

| source | as written | input that shows it | evidently intended | confidence | as-written member | corrected member |
|---|---|---|---|---|---|---|
| cmd/myinterpreter/main.go:44-51 | every comparison operator emits `EQUAL`/`EQUAL_EQUAL`, and doubles on a repeated byte rather than a following `=` | `!=` gives `EQUAL = null`, `EQUAL = null`; `<<` gives `EQUAL_EQUAL == null` | each operator's own kind, with `_EQUAL` only before `=` (as tokenize.go:62-89 does) | high; not executed | LegacyFacts.BangEqualAsWritten | ScannerFacts.OperatorLongestMatch |
| cmd/myinterpreter/main.go:166-167 | a lone `/` is passed to `handleSingleCharToken`, whose map has no `/`, so it emits nothing | `/` gives only `EOF null` | `SLASH / null` (as tokenize.go:96-97 does) | high; not executed | LegacyFacts.LoneSlashAsWritten | ScannerFacts.LoneSlash |
| cmd/myinterpreter/main.go:98-102 | a fraction of only zeros is trimmed to nothing | `1.0` gets the literal `1.` | `1.0` (as tokenize.go:153-154 does) | high; not executed | LegacyFacts.ZeroFractionAsWritten | ScannerFacts.FloatLiteralCanonical |
| cmd/myinterpreter/main.go:96-97 | an integer lexeme is its own literal | `12` gives `NUMBER 12 12` | `NUMBER 12 12.0` (as tokenize.go:160 does) | medium; not executed | LegacyFacts.IntegerAsWritten | ScannerFacts.IntegerNumberScan |
