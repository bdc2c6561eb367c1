/** The scanner as pure functions over a cursor value: `Step` is one
    `ScanToken` call, `Scan` is a whole `ScanTokens` run from a fresh scanner.
    The imperative class in module Components is proved against these. */
module ScannerSpec {
  import opened Wrappers
  import opened Extensions
  import opened Tokens

  // ---------------------------------------------------------------- characters
  // `char.IsDigit` and `char.IsLetterOrDigit` are modelled over ASCII.

  predicate IsDigit(c: char) { '0' <= c <= '9' }
  predicate IsLetter(c: char) { 'a' <= c <= 'z' || 'A' <= c <= 'Z' }
  predicate IsLetterOrDigit(c: char) { IsLetter(c) || IsDigit(c) }

  /** The character classes the scanner's loops consume runs of. */
  datatype Class = Digits | LettersOrDigits | NotNewline | NotQuote

  predicate InClass(c: char, cls: Class)
  {
    match cls
    case Digits => IsDigit(c)
    case LettersOrDigits => IsLetterOrDigit(c)
    case NotNewline => c != '\n'
    case NotQuote => c != '"'
  }

  /** `Peek` at offset `i`: the character there, or NUL once past the end. */
  function CharAt(s: string, i: int): (c: char)
    requires 0 <= i
    ensures i < |s| ==> c == s[i]
    ensures !(i < |s|) ==> c == '\0' && !IsLetterOrDigit(c)
  {
    if i < |s| then s[i] else '\0'
  }

  /** `Match` at offset `i`: false at the end of input. */
  predicate Matches(s: string, i: int, expected: char)
    requires 0 <= i
  {
    i < |s| && s[i] == expected
  }

  /** End of the maximal run of characters of class `cls` that starts at `i`. */
  function RunEnd(s: string, i: int, cls: Class): (j: int)
    requires 0 <= i <= |s|
    ensures i <= j <= |s|
    ensures forall k | i <= k < j :: InClass(s[k], cls)
    ensures j == |s| || !InClass(s[j], cls)
    decreases |s| - i
  {
    if i < |s| && InClass(s[i], cls) then RunEnd(s, i + 1, cls) else i
  }

  /** RunEnd is the only end of a run: a run of `cls` from `i` to `j` that stops at
      the end of input or at a character outside `cls` ends at `RunEnd(s, i, cls)`. */
  lemma {:induction false} RunEndAt(s: string, i: int, j: int, cls: Class)
    requires 0 <= i <= j <= |s|
    requires forall k | i <= k < j :: InClass(s[k], cls)
    requires j == |s| || !InClass(s[j], cls)
    ensures RunEnd(s, i, cls) == j
    decreases j - i
  {
    if i < j {
      RunEndAt(s, i + 1, j, cls);
    }
  }

  /** Number of newline characters in `s[i..j]`, counted from the right end. */
  function Newlines(s: string, i: int, j: int): (n: nat)
    requires 0 <= i <= j <= |s|
    ensures n <= j - i
    decreases j - i
  {
    if i == j then 0 else Newlines(s, i, j - 1) + (if s[j - 1] == '\n' then 1 else 0)
  }

  /** The count agrees with counting `'\n'` in the multiset of the characters. */
  lemma {:induction false} NewlinesCountsNewlineCharacters(s: string, i: int, j: int)
    requires 0 <= i <= j <= |s|
    ensures Newlines(s, i, j) == multiset(s[i..j])['\n']
    decreases j - i
  {
    if i < j {
      NewlinesCountsNewlineCharacters(s, i, j - 1);
      assert s[i..j] == s[i..j - 1] + [s[j - 1]];
    }
  }

  /** A stretch without newline characters adds no lines. */
  lemma {:induction false} NoNewlines(s: string, i: int, j: int)
    requires 0 <= i <= j <= |s|
    requires forall k | i <= k < j :: s[k] != '\n'
    ensures Newlines(s, i, j) == 0
    decreases j - i
  {
    if i < j {
      NoNewlines(s, i, j - 1);
    }
  }

  /** Counting is additive over adjacent stretches. */
  lemma {:induction false} NewlinesSplit(s: string, i: int, j: int, k: int)
    requires 0 <= i <= j <= k <= |s|
    ensures Newlines(s, i, k) == Newlines(s, i, j) + Newlines(s, j, k)
    decreases k - j
  {
    if j < k {
      NewlinesSplit(s, i, j, k - 1);
    }
  }

  // ---------------------------------------------------------------- state

  /** Source offsets `[from, to)` a token was cut from. */
  datatype Span = Span(from: int, to: int)

  /** The scanner's fields as one value; `spans` records where each token came from. */
  datatype Cursor = Cursor(start: int, current: int, line: int,
                           tokens: seq<Token>, errors: seq<Diagnostic>, spans: seq<Span>)

  /** The state reached and the exception thrown, if any. */
  datatype Run = Run(state: Cursor, thrown: Option<Exception>)

  const Fresh: Cursor := Cursor(0, 0, 1, [], [], [])

  function Continue(c: Cursor): (r: Run) { Run(c, None) }

  /** `AddToken`: a token cut from `[start, current)` at the current line. */
  function Emit(s: string, c: Cursor, kind: TokenType, literal: Option<string>): (d: Cursor)
    requires 0 <= c.start <= c.current <= |s|
  {
    c.(tokens := c.tokens + [Token(kind, Substring(s, c.start, c.current), literal, c.line)],
       spans := c.spans + [Span(c.start, c.current)])
  }

  /** `Lox.ReportError` at the current line. */
  function Report(c: Cursor, message: string): (d: Cursor)
  {
    c.(errors := c.errors + [Diagnostic(c.line, message)])
  }

  // ---------------------------------------------------------------- the shape of a step

  /** `d` extends `c` by one token whose lexeme is the text from `c.current` to `d.current`,
      stamped with the line `d` ends on. */
  ghost predicate Emitted(s: string, c: Cursor, d: Cursor)
    requires 0 <= c.current <= d.current <= |s|
  {
    && d.spans == c.spans + [Span(c.current, d.current)]
    && |d.tokens| == |c.tokens| + 1
    && d.tokens == c.tokens + [d.tokens[|c.tokens|]]
    && d.tokens[|c.tokens|].kind != EOF
    && d.tokens[|c.tokens|].lexeme == Substring(s, c.current, d.current)
    && d.tokens[|c.tokens|].line == d.line
  }

  /** What every scanning step from the lexeme start `c` guarantees: if it does not
      throw, it consumes at least one character, counts the newlines it consumed, and
      either leaves the tokens alone or appends exactly one token cut from what it
      consumed, and appends at most one diagnostic; earlier tokens and diagnostics
      are never changed. */
  ghost predicate StepShape(s: string, c: Cursor, r: Run)
    requires 0 <= c.current < |s|
  {
    && r.state.start == c.start
    && (|| r.state.errors == c.errors
        || (|r.state.errors| == |c.errors| + 1 && r.state.errors == c.errors + [r.state.errors[|c.errors|]]))
    && (r.thrown.None? ==>
          && c.current < r.state.current <= |s|
          && r.state.line == c.line + Newlines(s, c.current, r.state.current))
    && ((r.state.tokens == c.tokens && r.state.spans == c.spans)
        || (r.thrown.None? && Emitted(s, c, r.state)))
  }

  /** The cursor after a lead character was consumed from `c`. */
  ghost predicate AfterLead(s: string, a: Cursor)
  {
    0 <= a.start && a.start + 1 == a.current <= |s|
  }

  // ---------------------------------------------------------------- branches of ScanToken

  /** `! = < >`: the two-character form when `Match('=')` succeeds. */
  function Operator(s: string, a: Cursor, one: TokenType, two: TokenType): (r: Run)
    requires AfterLead(s, a)
    ensures r.thrown.None? ==> a.start < r.state.current <= |s|
    ensures r.state.start == a.start && r.state.line >= a.line
  {
    var eq := Matches(s, a.current, '=');
    var d := if eq then a.(current := a.current + 1) else a;
    Continue(Emit(s, d, if eq then two else one, None))
  }

  /** A token of the lead character alone. */
  function Single(s: string, a: Cursor, kind: TokenType): (r: Run)
    requires AfterLead(s, a)
    ensures r.thrown.None? ==> a.start < r.state.current <= |s|
    ensures r.state.start == a.start && r.state.line >= a.line
  {
    Continue(Emit(s, a, kind, None))
  }

  /** `/`: a `//` comment runs up to the next newline and emits nothing; else SLASH. */
  function SlashOrComment(s: string, a: Cursor): (r: Run)
    requires AfterLead(s, a) && s[a.start] == '/'
    ensures r.thrown.None? ==> a.start < r.state.current <= |s|
    ensures r.state.start == a.start && r.state.line >= a.line
  {
    if Matches(s, a.current, '/') then
      var d := a.(current := RunEnd(s, a.current + 1, NotNewline));
        Continue(d)
    else
      Single(s, a, SLASH)
  }

  /** The messages the scanner reports. */
  const UnterminatedString := "Unterminated string."
  const UnexpectedCharacter := "Unexpected character."

  /** `MatchString`: up to the closing quote, counting newlines. At the end of
      input it reports, then the final `Advance` throws. */
  function StringLiteral(s: string, a: Cursor): (r: Run)
    requires AfterLead(s, a) && s[a.start] == '"'
    ensures r.thrown.None? ==> a.start < r.state.current <= |s|
    ensures r.state.start == a.start && r.state.line >= a.line
  {
    var close := RunEnd(s, a.current, NotQuote);
    var line := a.line + Newlines(s, a.current, close);
    if close == |s| then
      Run(Cursor(a.start, close + 1, line, a.tokens, a.errors + [Diagnostic(line, UnterminatedString)], a.spans),
          Some(IndexOutOfRange))
    else
      Continue(Cursor(a.start, close + 1, line,
                      a.tokens + [Token(STRING, Substring(s, a.start, close + 1), Some(Substring(s, a.current, close)), line)],
                      a.errors, a.spans + [Span(a.start, close + 1)]))
  }

  /** End of a number lexeme that starts at `i`: a digit run, then `.` and a second
      digit run only when the character after the dot is a digit. */
  function NumberEnd(s: string, i: int): (j: int)
    requires 0 <= i <= |s|
    ensures i <= j <= |s|
    ensures forall k | i <= k < j :: IsDigit(s[k]) || s[k] == '.'
  {
    var whole := RunEnd(s, i, Digits);
    if CharAt(s, whole) == '.' && IsDigit(CharAt(s, whole + 1)) then RunEnd(s, whole + 1, Digits)
    else whole
  }

  /** `MatchNumber`: the literal is the source from `start - 1` to `current - 1`, one
      character to the left of the lexeme; slicing it throws ArgumentOutOfRange when the
      number begins at offset 0. */
  function NumberLiteral(s: string, a: Cursor): (r: Run)
    requires AfterLead(s, a) && IsDigit(s[a.start])
    ensures r.thrown.None? ==> a.start < r.state.current <= |s|
    ensures r.state.start == a.start && r.state.line >= a.line
  {
    var d := a.(current := NumberEnd(s, a.current));
    if d.start == 0 then Run(d, Some(ArgumentOutOfRange))
    else Continue(Emit(s, d, NUMBER, Some(Substring(s, d.start - 1, d.current - 1))))
  }

  /** `MatchIdentifier`: a letter/digit run, then the keyword table. */
  function Identifier(s: string, a: Cursor): (r: Run)
    requires AfterLead(s, a) && IsLetterOrDigit(s[a.start])
    ensures r.thrown.None? ==> a.start < r.state.current <= |s|
    ensures r.state.start == a.start && r.state.line >= a.line
  {
    var d := a.(current := RunEnd(s, a.current, LettersOrDigits));
    var text := Substring(s, d.start, d.current);
    Continue(Emit(s, d, WordKind(text), None))
  }

  /** One `ScanToken` call from a cursor at the start of a lexeme. */
  function Step(s: string, c: Cursor): (r: Run)
    requires 0 <= c.start == c.current < |s|
    ensures r.thrown.None? ==> c.current < r.state.current <= |s|
    ensures r.state.start == c.start && r.state.line >= c.line
  {
    var a := c.(current := c.current + 1);
    match s[c.current]
    case '(' => Single(s, a, LEFT_PAREN)
    case ')' => Single(s, a, RIGHT_PAREN)
    case '{' => Single(s, a, LEFT_BRACE)
    case '}' => Single(s, a, RIGHT_BRACE)
    case ',' => Single(s, a, COMMA)
    case '.' => Single(s, a, DOT)
    case '-' => Single(s, a, MINUS)
    case '+' => Single(s, a, PLUS)
    case ';' => Single(s, a, SEMICOLON)
    case '*' => Single(s, a, STAR)
    case '!' => Operator(s, a, BANG, BANG_EQUAL)
    case '=' => Operator(s, a, EQUAL, EQUAL_EQUAL)
    case '<' => Operator(s, a, LESS, LESS_EQUAL)
    case '>' => Operator(s, a, GREATER, GREATER_EQUAL)
    case '/' => SlashOrComment(s, a)
    case ' ' => Continue(a)
    case '\r' => Continue(a)
    case '\t' => Continue(a)
    case '\n' => Continue(a.(line := a.line + 1))
    case '"' => StringLiteral(s, a)
    case 'o' =>
      // only the `o` is consumed; any other following character drops it
      if CharAt(s, a.current) == 'r' then Single(s, a, OR)
      else Continue(a)
    case ch =>
      if IsDigit(ch) then NumberLiteral(s, a)
      else if IsLetterOrDigit(ch) then Identifier(s, a)
      else Continue(Report(a, UnexpectedCharacter))
  }

  /** `ScanTokens` from cursor `c`: step until the end of input or an exception,
      then append the EOF token, which carries the line the scan ended on. */
  function ScanFrom(s: string, c: Cursor): (r: Run)
    requires 0 <= c.current <= |s|
    ensures r.state.line >= c.line
    ensures r.thrown.None? ==>
      && r.state.current == |s| && |r.state.tokens| > 0
      && r.state.tokens[|r.state.tokens| - 1] == Token(EOF, "", None, r.state.line)
    decreases |s| - c.current
  {
    if c.current == |s| then
      Continue(c.(tokens := c.tokens + [Token(EOF, "", None, c.line)]))
    else
      var r := Step(s, c.(start := c.current));
      if r.thrown.Some? then r else ScanFrom(s, r.state)
  }

  /** A whole scan by a freshly constructed scanner: unless it throws, it reads the
      whole source and its last token is EOF on a line no lower than the first. */
  function Scan(s: string): (r: Run)
    ensures r.thrown.None? ==>
      && r.state.current == |s| && r.state.line >= 1 && |r.state.tokens| > 0
      && r.state.tokens[|r.state.tokens| - 1] == Token(EOF, "", None, r.state.line)
  {
    ScanFrom(s, Fresh)
  }
}
