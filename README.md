# LoxNet scanner in Dafny

This project models the lexer of LoxNet, a C# interpreter for the Lox scripting
language. The lexer is the `Scanner` class and the `Slice` string extension it uses to
cut lexemes out of the source.

The scanner is a cursor over an immutable source string, with three mutable fields:
- `_start` marks where the current lexeme begins;
- `_current` is the next character to read;
- `_line` is the current line.

`ScanTokens` calls `ScanToken` until the end of input, then appends an EOF token.
`ScanToken` reads one lead character and dispatches on it. The cases are:
- ten single-character punctuators;
- the operators `!`, `=`, `<` and `>`, each with an optional `=`;
- `/`, which is either a comment up to the end of the line or SLASH;
- blanks, and newlines, which count lines;
- string literals, which may span lines;
- number literals;
- words, checked against a table of sixteen reserved words.

Characters that match no case are reported as unexpected.

The model has two layers.

**The specification layer** (`ScannerSpec`) describes the whole scanner as pure
functions over a `Cursor` value, which holds the scanner's fields:
- `Step` is one `ScanToken` call;
- `ScanFrom` is the loop of `ScanTokens`;
- `Scan` is a whole run from a freshly constructed scanner.

Each of `MatchString`, `MatchNumber` and `MatchIdentifier` has its own function.

**The imperative layer** (`Components.Scanner`) is a class with the source's fields and
methods. Every method is proved to have exactly the effect of its specification
function. The scanner loops are `while` loops with invariants, proved against the
specification functions.

Three things the C# code can do become explicit values:
- A thrown .NET exception is a `thrown` value of `IndexOutOfRange` or
  `ArgumentOutOfRange`.
- Each call to `Lox.ReportError` becomes a `Diagnostic` appended to an `errors` sequence.
- The scanner keeps a ghost `spans` sequence beside its tokens, holding one `Span`
  (the source offsets the token was cut from) per token, so lexeme fidelity can be
  stated.

The properties of the specification are proved in four modules:
- `Branches`: what each case of `ScanToken` does.
- `StepFacts`: what every step has in common.
- `ScanFacts`: what a whole scan guarantees. Every token is the exact text of a
  non-empty span, and the spans are in source order. Earlier tokens and diagnostics
  never change. A scan that does not throw ends with exactly one EOF token, whose line
  is 1 plus the number of newline characters in the source.
- `ScanExamples`: concrete scans of short inputs.

The scanner code does three things a reader would not expect. The model keeps all of
them as the code has them:
- **Lead `o`.** A word that begins with `o` takes a special case. If the next character
  is `r`, it emits `OR` with lexeme `"o"` and does not consume the `r`. So `or` scans as
  OR `o` followed by IDENTIFIER `r`. If the next character is anything else, the `o`
  is dropped silently, and the rest of the word is scanned as a word of its own.
- **Number literal.** The literal of a NUMBER token is the lexeme's window shifted one
  character to the left. A number at offset 0 makes `Slice` throw
  `ArgumentOutOfRange`.
- **Unterminated string.** A string with no closing quote reports "Unterminated
  string.". The final `Advance` then reads past the end and throws
  `IndexOutOfRange`.

A consequence of the number rule: scanning `1.` throws `ArgumentOutOfRange`, because the
number sits at offset 0. Only a number after at least one other character produces a
NUMBER token; in ` 1.` it is followed by a DOT token.

## Model

| member | source | states |
|---|---|---|
| Extensions.Slice | LoxNet/LoxNet.Interpreter/Extensions/StringExtensions.cs:5-10 | Succeeds exactly when `0 <= start <= end' <= |source|`, where `end'` is `end` normalised (a negative `end` counts from the end). Otherwise it fails with ArgumentOutOfRange. On success it returns the characters of `source` from `start` to `end'`. |
| Extensions.SubstringIsSlice | LoxNet/LoxNet.Interpreter/Extensions/StringExtensions.cs:9 | The character-by-character reference `Substring` agrees with the plain substring `s[i..j]`. |
| Extensions.SliceCharacters | LoxNet/LoxNet.Interpreter/Extensions/StringExtensions.cs:9 | Each character of a successful slice is the source character at the same offset from `start`. |
| Extensions.SliceIsSubstring | LoxNet/LoxNet.Interpreter/Extensions/StringExtensions.cs:8-9 | For `0 <= start <= end <= |s|`, Slice is the plain substring `s[start..end]`. |
| Extensions.SliceNormalisesEnd | LoxNet/LoxNet.Interpreter/Extensions/StringExtensions.cs:7 | A negative `end` acts as `|s| + end`. A negative `start` is never normalised and always fails. |
| Extensions.SliceErrors | LoxNet/LoxNet.Interpreter/Extensions/StringExtensions.cs:9 | Slice fails exactly when `start < 0`, the normalised end is before `start`, or the normalised end is past the string. |
| Extensions.SliceEdges | LoxNet/LoxNet.Interpreter/Extensions/StringExtensions.cs:8-9 | An empty range gives `""`, and `Slice(s, 0, |s|)` gives `s`. |
| Extensions.SliceAdjacent | LoxNet/LoxNet.Interpreter/Extensions/StringExtensions.cs:9 | Slices over adjacent ranges all succeed and concatenate to the slice over their union. |
| Tokens.KeywordsAreReserved | LoxNet/LoxNet.Interpreter/Components/Scanner.cs:170-188 | No entry of the reserved-word table maps to IDENTIFIER, STRING, NUMBER or EOF. |
| Tokens.WordKind | LoxNet/LoxNet.Interpreter/Components/Scanner.cs:164-167 | A word in the table gets its table kind. Any other word gets IDENTIFIER. The result is never a literal kind or EOF. |
| ScannerSpec.IsDigit | LoxNet/LoxNet.Interpreter/Components/Scanner.cs:72 | Models `char.IsDigit` as the ASCII digits `0`-`9`. |
| ScannerSpec.IsLetterOrDigit | LoxNet/LoxNet.Interpreter/Components/Scanner.cs:74 | Models `char.IsLetterOrDigit` as the ASCII letters `a`-`z`, `A`-`Z` and the digits. |
| ScannerSpec.Matches | LoxNet/LoxNet.Interpreter/Components/Scanner.cs:100-110 | The answer `Match` gives: false at the end of input, otherwise whether the next character is the expected one. |
| ScannerSpec.Newlines | LoxNet/LoxNet.Interpreter/Components/Scanner.cs:62-64 | Counts the newline characters of a stretch of the source, the amount `_line++` adds while the scanner passes over it (here and at line 130). The count is at most the length of the stretch. |
| ScannerSpec.Emit | LoxNet/LoxNet.Interpreter/Components/Scanner.cs:93-97 | The state after `AddToken`: one token appended, cut from `_start` to `_current`, with the current line; its span is recorded. |
| ScannerSpec.Report | LoxNet/LoxNet.Interpreter/Lox.cs:52-62 | The state after `Lox.ReportError`: one report appended, with the current line and the message. |
| ScannerSpec.ScanFrom | LoxNet/LoxNet.Interpreter/Components/Scanner.cs:20-29 | The `ScanTokens` loop from a given state. The line never decreases. Unless a step throws, the cursor ends at the end of input and the last token is EOF with an empty lexeme, no literal and the final line. |
| ScannerSpec.Scan | LoxNet/LoxNet.Interpreter/Components/Scanner.cs:9-29 | `ScanTokens` on a newly constructed scanner. Unless it throws, it reads the whole source and its last token is EOF on the final line, which is at least 1. |
| ScannerSpec.CharAt | LoxNet/LoxNet.Interpreter/Components/Scanner.cs:112-122 | Lookahead returns the character at the offset, or NUL past the end. NUL is neither a letter nor a digit. |
| ScannerSpec.RunEnd | LoxNet/LoxNet.Interpreter/Components/Scanner.cs:160-161 | Returns the end of the maximal run of a character class from an offset. Every character before it is in the class, and the character at it is not, or it is the end of input. |
| ScannerSpec.RunEndAt | LoxNet/LoxNet.Interpreter/Components/Scanner.cs:145 | A run that stops at the end of input or at a character outside its class ends exactly where `RunEnd` says. |
| ScannerSpec.NewlinesCountsNewlineCharacters | LoxNet/LoxNet.Interpreter/Components/Scanner.cs:127-131 | The recursive line count of a stretch equals the number of `'\n'` characters in it. |
| ScannerSpec.NumberEnd | LoxNet/LoxNet.Interpreter/Components/Scanner.cs:145-152 | A number lexeme only ever consumes digits and dots, and never goes past the end. |
| ScannerSpec.Step | LoxNet/LoxNet.Interpreter/Components/Scanner.cs:31-80 | A step that does not throw consumes at least one character and stays within the source. It keeps `start` and never lowers the line. |
| ScannerSpec.Operator | LoxNet/LoxNet.Interpreter/Components/Scanner.cs:46-49 | The operator case makes progress, keeps `start` and never lowers the line. |
| ScannerSpec.Single | LoxNet/LoxNet.Interpreter/Components/Scanner.cs:36-45 | A one-character token makes progress, keeps `start` and never lowers the line. |
| ScannerSpec.SlashOrComment | LoxNet/LoxNet.Interpreter/Components/Scanner.cs:50-56 | The slash case makes progress, keeps `start` and never lowers the line. |
| ScannerSpec.StringLiteral | LoxNet/LoxNet.Interpreter/Components/Scanner.cs:125-141 | When no exception is thrown, the string case makes progress, keeps `start` and never lowers the line. |
| ScannerSpec.NumberLiteral | LoxNet/LoxNet.Interpreter/Components/Scanner.cs:143-156 | When no exception is thrown, the number case makes progress, keeps `start` and never lowers the line. |
| ScannerSpec.Identifier | LoxNet/LoxNet.Interpreter/Components/Scanner.cs:158-168 | The word case makes progress, keeps `start` and never lowers the line. |
| Components.Scanner.constructor | LoxNet/LoxNet.Interpreter/Components/Scanner.cs:9-18 | A new scanner is at offset 0 on line 1, with no tokens and no reports. |
| Components.Scanner.IsAtEnd | LoxNet/LoxNet.Interpreter/Components/Scanner.cs:13 | True exactly when the cursor is at the length of the source. |
| Components.Scanner.Peek | LoxNet/LoxNet.Interpreter/Components/Scanner.cs:112-116 | Returns the character at the cursor, or NUL at the end of input. |
| Components.Scanner.PeekNext | LoxNet/LoxNet.Interpreter/Components/Scanner.cs:118-122 | Returns the character after the cursor, or NUL when there is none. |
| Components.Scanner.Advance | LoxNet/LoxNet.Interpreter/Components/Scanner.cs:82-86 | Always moves the cursor by one. Returns the character passed over, or throws IndexOutOfRange when the cursor was already at the end. |
| Components.Scanner.AddToken | LoxNet/LoxNet.Interpreter/Components/Scanner.cs:93-97 | Appends one token whose lexeme is the source from `_start` to `_current`, stamped with the current line. The `Slice` call cannot fail here. |
| Components.Scanner.Match | LoxNet/LoxNet.Interpreter/Components/Scanner.cs:100-110 | Returns true exactly when the next character is the expected one. It is false at the end of input. The cursor moves exactly when it returns true. |
| Components.Scanner.ReportError | LoxNet/LoxNet.Interpreter/Lox.cs:52-62 | Appends a report of the message at the current line and changes nothing else. |
| Components.Scanner.ScanTokens | LoxNet/LoxNet.Interpreter/Components/Scanner.cs:20-29 | The loop ends in the state `ScanFrom` gives. The result is the token list, or the exception a step threw. |
| Components.Scanner.ScanToken | LoxNet/LoxNet.Interpreter/Components/Scanner.cs:31-80 | The new fields and any exception are exactly those of `Step`. |
| Components.Scanner.AdvanceWhile | LoxNet/LoxNet.Interpreter/Components/Scanner.cs:53 | Leaves the cursor at the end of the maximal run of the class. |
| Components.Scanner.AdvanceToQuote | LoxNet/LoxNet.Interpreter/Components/Scanner.cs:127-132 | Stops at the next quote or at the end of input, and adds one to the line for every newline passed. |
| Components.Scanner.MatchString | LoxNet/LoxNet.Interpreter/Components/Scanner.cs:125-141 | The new fields and any exception are exactly those of `StringLiteral`. |
| Components.Scanner.AdvanceNumber | LoxNet/LoxNet.Interpreter/Components/Scanner.cs:145-152 | Leaves the cursor at `NumberEnd`. |
| Components.Scanner.MatchNumber | LoxNet/LoxNet.Interpreter/Components/Scanner.cs:143-156 | The new fields and any exception are exactly those of `NumberLiteral`. |
| Components.Scanner.MatchIdentifier | LoxNet/LoxNet.Interpreter/Components/Scanner.cs:158-168 | The new fields are exactly those of `Identifier`. |
| Branches.PunctuatorsOneToOne | LoxNet/LoxNet.Interpreter/Components/Scanner.cs:36-45 | Distinct punctuation characters give distinct token kinds. |
| Branches.PunctuatorDispatch | LoxNet/LoxNet.Interpreter/Components/Scanner.cs:36-45 | A punctuation lead makes a one-character token of its kind. |
| Branches.SingleToken | LoxNet/LoxNet.Interpreter/Components/Scanner.cs:36-45 | A one-character token has the lead character as its lexeme, no literal, and the current line. Nothing else moves. |
| Branches.OperatorDispatch | LoxNet/LoxNet.Interpreter/Components/Scanner.cs:46-49 | Each of `! = < >` goes to the operator case with its one- and two-character kinds. |
| Branches.OperatorToken | LoxNet/LoxNet.Interpreter/Components/Scanner.cs:46-49 | The two-character kind, with lexeme lead plus `=`, is emitted exactly when `=` follows, and only then is the `=` consumed. Otherwise the one-character kind is emitted. |
| Branches.SlashDispatch | LoxNet/LoxNet.Interpreter/Components/Scanner.cs:50-56 | A `/` lead goes to the slash case. |
| Branches.CommentSkipped | LoxNet/LoxNet.Interpreter/Components/Scanner.cs:52-53 | `//` consumes up to, but not including, the next newline, or to the end of input. It emits nothing and reports nothing. |
| Branches.LoneSlash | LoxNet/LoxNet.Interpreter/Components/Scanner.cs:54-55 | A `/` not followed by `/` emits SLASH with lexeme `/`. |
| Branches.BlankSkipped | LoxNet/LoxNet.Interpreter/Components/Scanner.cs:58-61 | A space, carriage return or tab is consumed, and nothing else changes. |
| Branches.NewlineCounted | LoxNet/LoxNet.Interpreter/Components/Scanner.cs:62-64 | A newline is consumed, adds exactly one to the line, and emits nothing. |
| Branches.StringDispatch | LoxNet/LoxNet.Interpreter/Components/Scanner.cs:66 | A `"` lead goes to the string case. |
| Branches.StringCloses | LoxNet/LoxNet.Interpreter/Components/Scanner.cs:125-141 | A string closed by a quote yields one STRING token. Its lexeme includes both quotes and its literal is the text strictly between them. Its line is the closing line, and every embedded newline is counted. Nothing is reported. |
| Branches.StringUnterminated | LoxNet/LoxNet.Interpreter/Components/Scanner.cs:134-137 | A string that reaches the end of input reports "Unterminated string." on the last line and adds no token. The cursor passes the end and IndexOutOfRange is thrown. |
| Branches.UnterminatedReports | LoxNet/LoxNet.Interpreter/Components/Scanner.cs:134-137 | Gives the report, the line, the cursor and the exception of an unterminated string. |
| Branches.UnterminatedAddsNoToken | LoxNet/LoxNet.Interpreter/Components/Scanner.cs:137-140 | An unterminated string leaves the token list unchanged, because the exception comes before `AddToken`. |
| Branches.NumberDispatch | LoxNet/LoxNet.Interpreter/Components/Scanner.cs:72-73 | A digit lead goes to the number case. |
| Branches.NumberEndMaximal | LoxNet/LoxNet.Interpreter/Components/Scanner.cs:145-152 | A number lexeme is a maximal digit run, optionally followed by `.` and a maximal digit run. A dot is taken only when a digit follows it. |
| Branches.NumberThrowsAtStart | LoxNet/LoxNet.Interpreter/Components/Scanner.cs:154 | The number case throws, with ArgumentOutOfRange and no token added, exactly when the number starts at offset 0. |
| Branches.NumberToken | LoxNet/LoxNet.Interpreter/Components/Scanner.cs:154-155 | Anywhere else, one NUMBER token is added. Its lexeme is the number, and its literal is the same-length window one character to the left. |
| Branches.IdentifierDispatch | LoxNet/LoxNet.Interpreter/Components/Scanner.cs:74-75 | A letter lead other than `o` goes to the word case. |
| Branches.IdentifierRun | LoxNet/LoxNet.Interpreter/Components/Scanner.cs:160-161 | A word is the maximal run of letters and digits from the lead. |
| Branches.IdentifierToken | LoxNet/LoxNet.Interpreter/Components/Scanner.cs:163-167 | The word's token has its reserved kind when the table has it, otherwise IDENTIFIER, and the word as its lexeme. |
| Branches.LeadO | LoxNet/LoxNet.Interpreter/Components/Scanner.cs:67-70 | A lead `o` consumes only itself. It adds OR with lexeme `o` exactly when `r` follows, and otherwise adds nothing and reports nothing. |
| Branches.UnexpectedReported | LoxNet/LoxNet.Interpreter/Components/Scanner.cs:76-77 | Any other lead is consumed and reported as "Unexpected character." on the current line. No token is added. |
| StepFacts.StepKeepsShape | LoxNet/LoxNet.Interpreter/Components/Scanner.cs:31-80 | A step that does not throw consumes at least one character and counts the newlines it consumed. Every step keeps earlier tokens and reports. It appends at most one report, and either no token or one token cut exactly from what it consumed, stamped with the line it ends on. |
| StepFacts.StringShape | LoxNet/LoxNet.Interpreter/Components/Scanner.cs:125-141 | The string case has this shape, whether or not the string closes. |
| StepFacts.ClosedStringLine | LoxNet/LoxNet.Interpreter/Components/Scanner.cs:127-132 | The line after a closed string counts every newline from the opening quote to the closing one. |
| StepFacts.NumberShape | LoxNet/LoxNet.Interpreter/Components/Scanner.cs:143-156 | The number case has this shape, and a number never crosses a newline. |
| StepFacts.IdentifierShape | LoxNet/LoxNet.Interpreter/Components/Scanner.cs:158-168 | The word case has this shape, and a word never crosses a newline. |
| StepFacts.OShape | LoxNet/LoxNet.Interpreter/Components/Scanner.cs:67-70 | The lead-`o` case has this shape. |
| StepFacts.QuietShape | LoxNet/LoxNet.Interpreter/Components/Scanner.cs:57-77 | Blanks, newlines and unexpected characters have this shape. |
| ScanFacts.FreshIsConsistent | LoxNet/LoxNet.Interpreter/Components/Scanner.cs:9-12 | A new scanner's state is consistent with its source. |
| ScanFacts.StepConsistent | LoxNet/LoxNet.Interpreter/Components/Scanner.cs:22-26 | One loop iteration keeps every earlier token and report. When it does not throw, it advances the cursor and keeps the state consistent. A consistent state has in-order, non-overlapping spans, each token is the exact text of its span, and the line counts the newlines before the cursor. |
| ScanFacts.ScanFromFinishes | LoxNet/LoxNet.Interpreter/Components/Scanner.cs:20-29 | From any consistent state, the loop keeps what was found. Unless a step throws, it ends at the end of input with consistent tokens followed by one EOF token. |
| ScanFacts.ScanTheorem | LoxNet/LoxNet.Interpreter/Components/Scanner.cs:27 | Consider a whole scan that does not throw. Its last token is EOF with an empty lexeme, no literal, and line 1 plus the number of `'\n'` in the source. No other token is EOF, and every other token is the exact source text of its span, in source order. |
| ScanExamples.OrSplits | LoxNet/LoxNet.Interpreter/Components/Scanner.cs:67-70 | Scanning `or` gives OR `o`, IDENTIFIER `r`, then EOF. |
| ScanExamples.NumberAtStartThrows | LoxNet/LoxNet.Interpreter/Components/Scanner.cs:154 | Scanning `7` throws ArgumentOutOfRange. |
| ScanExamples.NumberLiteralShifted | LoxNet/LoxNet.Interpreter/Components/Scanner.cs:154-155 | Scanning ` 42` gives NUMBER with lexeme `42` and literal ` 4`. |
| ScanExamples.DotAfterNumber | LoxNet/LoxNet.Interpreter/Components/Scanner.cs:147-152 | Scanning ` 1.` gives NUMBER `1` (literal ` `), then DOT, then EOF: a dot with no digit after it is left for the next step. |
| ScanExamples.UnterminatedThrows | LoxNet/LoxNet.Interpreter/Components/Scanner.cs:134-137 | Scanning `"a` newline `b` reports "Unterminated string." on line 2, adds no token and throws IndexOutOfRange. |

## Left out

- The source is a sequence of Unicode scalar values, while a C# `string` is a sequence
  of UTF-16 code units. A character outside the Basic Multilingual Plane has length 1
  here and 2 in C#. Such a character outside a string or comment is reported as
  "Unexpected character." once here, but once per surrogate (twice) by the C# code at
  line 77, and every later offset differs by one. A NUMBER right after such a
  character gets the whole character at the head of its shifted literal here, and a
  lone low surrogate in C#.
- `char.IsDigit` and `char.IsLetterOrDigit` use .NET's Unicode tables. They are modelled
  over ASCII only: `0-9`, and `a-z`, `A-Z` with `0-9`. Non-ASCII letters and digits are
  therefore treated as unexpected characters.
- `Lox.cs` is not part of this model: console and file input, the REPL loop, printing
  of tokens, and `Environment.Exit`. `Lox.ReportError` is modelled only as the report it
  records, in the scanner's `errors` sequence. The `_hadError` flag corresponds to that
  sequence being non-empty.
- `Expression.cs` is not part of this model, because it has no behaviour.
- The `Token` and `TokenType` source files are not part of this model. `TokenType` has
  exactly the kinds the scanner names. `Token.ToString` is not modelled.
- The literal of a token is an optional string, because the code only ever stores text
  there (`object` in C#). No number is ever parsed.
- A thrown exception ends the model's run with the state at the throw. What happens
  after it propagates out of `ScanTokens` is outside the scanner.
- Offsets and the line counter are unbounded integers. Overflow of a 32-bit `int` on
  inputs longer than 2^31 characters is not modelled.
- A `null` source string is not modelled. `string` here is always a value.
