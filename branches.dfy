/** What one `ScanToken` call does, case by case. The lemmas about a case the source
    gives its own method (`MatchString`, `MatchNumber`, `MatchIdentifier`) are stated
    about the ScannerSpec function for that method, from the cursor `a` just after the
    lead character; the others are stated about `Step`, from the cursor `c` at the lead
    character, and the `...Dispatch` lemmas say which function `Step` hands over to. */
module Branches {
  import opened Wrappers
  import opened Extensions
  import opened Tokens
  import opened ScannerSpec

  /** The cursor after the lead character at `c.current`. */
  function Lead(c: Cursor): (a: Cursor)
    ensures a.start == c.start && a.current == c.current + 1 && a.line == c.line
  {
    c.(current := c.current + 1)
  }

  // ---------------------------------------------------------------- punctuation

  /** The ten characters that always make a token by themselves. */
  const Punctuators: map<char, TokenType> := map[
    '(' := LEFT_PAREN, ')' := RIGHT_PAREN, '{' := LEFT_BRACE, '}' := RIGHT_BRACE,
    ',' := COMMA, '.' := DOT, '-' := MINUS, '+' := PLUS, ';' := SEMICOLON, '*' := STAR
  ]

  /** Distinct punctuators give distinct kinds. */
  lemma PunctuatorsOneToOne()
    ensures forall x, y | x in Punctuators && y in Punctuators && x != y :: Punctuators[x] != Punctuators[y]
  {
  }

  lemma PunctuatorDispatch(s: string, c: Cursor)
    requires 0 <= c.start == c.current < |s| && s[c.current] in Punctuators
    ensures Step(s, c) == Single(s, Lead(c), Punctuators[s[c.current]])
  {
  }

  /** A one-character token: its lexeme is the lead character, nothing else moves. */
  lemma SingleToken(s: string, a: Cursor, kind: TokenType)
    requires AfterLead(s, a)
    ensures var r := Single(s, a, kind);
      && r.thrown == None
      && r.state.current == a.current && r.state.line == a.line && r.state.errors == a.errors
      && r.state.tokens == a.tokens + [Token(kind, [s[a.start]], None, a.line)]
  {
    assert Substring(s, a.start, a.current) == [s[a.start]];
  }

  // ---------------------------------------------------------------- operators

  /** `! = < >`: the kind alone and the kind followed by `=`. */
  const Operators: map<char, (TokenType, TokenType)> := map[
    '!' := (BANG, BANG_EQUAL), '=' := (EQUAL, EQUAL_EQUAL),
    '<' := (LESS, LESS_EQUAL), '>' := (GREATER, GREATER_EQUAL)
  ]

  lemma OperatorDispatch(s: string, c: Cursor)
    requires 0 <= c.start == c.current < |s| && s[c.current] in Operators
    ensures Step(s, c) == Operator(s, Lead(c), Operators[s[c.current]].0, Operators[s[c.current]].1)
  {
  }

  /** The two-character kind, with a two-character lexeme, exactly when `=` follows;
      the `=` is consumed only then. */
  lemma OperatorToken(s: string, a: Cursor, one: TokenType, two: TokenType)
    requires AfterLead(s, a)
    ensures var r := Operator(s, a, one, two);
      var eq := a.current < |s| && s[a.current] == '=';
      && r.thrown == None
      && r.state.current == (if eq then a.current + 1 else a.current)
      && r.state.line == a.line && r.state.errors == a.errors
      && r.state.tokens == a.tokens + [if eq then Token(two, [s[a.start], '='], None, a.line)
                                       else Token(one, [s[a.start]], None, a.line)]
  {
    if a.current < |s| && s[a.current] == '=' {
      assert Substring(s, a.start, a.current + 1) == [s[a.start], '='];
    } else {
      assert Substring(s, a.start, a.current) == [s[a.start]];
    }
  }

  // ---------------------------------------------------------------- slash and comments

  lemma SlashDispatch(s: string, c: Cursor)
    requires 0 <= c.start == c.current < |s| && s[c.current] == '/'
    ensures Step(s, c) == SlashOrComment(s, Lead(c))
  {
  }

  /** `//`: the comment runs up to, not including, the next newline or to the end of
      input; nothing is emitted or reported and the line is unchanged. */
  lemma CommentSkipped(s: string, a: Cursor, e: int)
    requires AfterLead(s, a) && s[a.start] == '/' && a.current < |s| && s[a.current] == '/'
    requires a.current < e <= |s| && (e == |s| || s[e] == '\n')
    requires forall k | a.current < k < e :: s[k] != '\n'
    ensures SlashOrComment(s, a) == Continue(a.(current := e))
  {
    RunEndAt(s, a.current + 1, e, NotNewline);
  }

  /** A `/` not followed by `/` is SLASH. */
  lemma LoneSlash(s: string, a: Cursor)
    requires AfterLead(s, a) && s[a.start] == '/' && !(a.current < |s| && s[a.current] == '/')
    ensures var r := SlashOrComment(s, a);
      && r.thrown == None
      && r.state.current == a.current && r.state.line == a.line && r.state.errors == a.errors
      && r.state.tokens == a.tokens + [Token(SLASH, "/", None, a.line)]
  {
    assert Substring(s, a.start, a.current) == "/";
  }

  // ---------------------------------------------------------------- whitespace

  /** Blanks are consumed and nothing else happens. */
  lemma BlankSkipped(s: string, c: Cursor)
    requires 0 <= c.start == c.current < |s| && s[c.current] in {' ', '\r', '\t'}
    ensures Step(s, c) == Continue(c.(current := c.current + 1))
  {
  }

  /** A newline is consumed and counts one line. */
  lemma NewlineCounted(s: string, c: Cursor)
    requires 0 <= c.start == c.current < |s| && s[c.current] == '\n'
    ensures Step(s, c) == Continue(c.(current := c.current + 1, line := c.line + 1))
  {
  }

  // ---------------------------------------------------------------- strings

  lemma StringDispatch(s: string, c: Cursor)
    requires 0 <= c.start == c.current < |s| && s[c.current] == '"'
    ensures Step(s, c) == StringLiteral(s, Lead(c))
  {
  }

  /** A string closed by the quote at `close`: one STRING token whose lexeme keeps both
      quotes, whose literal is the text between them, and which carries the line of the
      closing quote; every newline inside the string has been counted. */
  lemma StringCloses(s: string, a: Cursor, close: int)
    requires AfterLead(s, a) && s[a.start] == '"'
    requires a.current <= close < |s| && s[close] == '"'
    requires forall k | a.current <= k < close :: s[k] != '"'
    ensures var r := StringLiteral(s, a);
      var line := a.line + Newlines(s, a.current, close);
      && r.thrown == None
      && r.state.start == a.start && r.state.current == close + 1 && r.state.line == line
      && r.state.errors == a.errors
      && r.state.tokens == a.tokens + [Token(STRING, Substring(s, a.start, close + 1),
                                             Some(Substring(s, a.current, close)), line)]
      && r.state.spans == a.spans + [Span(a.start, close + 1)]
  {
    RunEndAt(s, a.current, close, NotQuote);
  }

  /** A string that reaches the end of input: "Unterminated string." is reported at the
      line the input ends on, no token is added, and the closing `Advance` throws. */
  lemma StringUnterminated(s: string, a: Cursor)
    requires AfterLead(s, a) && s[a.start] == '"'
    requires forall k | a.current <= k < |s| :: s[k] != '"'
    ensures var r := StringLiteral(s, a);
      var line := a.line + Newlines(s, a.current, |s|);
      && r.thrown == Some(IndexOutOfRange)
      && r.state.current == |s| + 1 && r.state.line == line
      && r.state.errors == a.errors + [Diagnostic(line, UnterminatedString)]
      && r.state.tokens == a.tokens && r.state.spans == a.spans
  {
    RunEndAt(s, a.current, |s|, NotQuote);
    UnterminatedReports(s, a);
    UnterminatedAddsNoToken(s, a);
  }

  lemma UnterminatedReports(s: string, a: Cursor)
    requires AfterLead(s, a) && s[a.start] == '"' && RunEnd(s, a.current, NotQuote) == |s|
    ensures var r := StringLiteral(s, a);
      var line := a.line + Newlines(s, a.current, |s|);
      && r.thrown == Some(IndexOutOfRange)
      && r.state.current == |s| + 1 && r.state.line == line
      && r.state.errors == a.errors + [Diagnostic(line, UnterminatedString)]
  {
  }

  lemma UnterminatedAddsNoToken(s: string, a: Cursor)
    requires AfterLead(s, a) && s[a.start] == '"' && RunEnd(s, a.current, NotQuote) == |s|
    ensures var r := StringLiteral(s, a);
      r.state.tokens == a.tokens && r.state.spans == a.spans
  {
  }

  // ---------------------------------------------------------------- numbers

  lemma NumberDispatch(s: string, c: Cursor)
    requires 0 <= c.start == c.current < |s| && IsDigit(s[c.current])
    ensures Step(s, c) == NumberLiteral(s, Lead(c))
  {
  }

  /** `s[i..j]` is a number lexeme that cannot be extended: digits with at most one
      `.` between two digits; no digit follows it, and a lexeme without a `.` is not
      followed by a `.` and a digit. */
  ghost predicate MaximalNumber(s: string, i: int, j: int)
    requires 0 <= i < j <= |s|
  {
    && IsDigit(s[i]) && IsDigit(s[j - 1])
    && (forall k | i <= k < j :: IsDigit(s[k]) || s[k] == '.')
    && (forall k, m | i <= k < m < j && s[k] == '.' :: s[m] != '.')
    && (j == |s| || !IsDigit(s[j]))
    && ((forall k | i <= k < j :: s[k] != '.') ==> !(j + 1 < |s| && s[j] == '.' && IsDigit(s[j + 1])))
  }

  /** `NumberEnd` after a lead digit ends a maximal number lexeme. */
  lemma NumberEndMaximal(s: string, i: int)
    requires 0 <= i < |s| && IsDigit(s[i])
    ensures i < NumberEnd(s, i + 1) <= |s| && MaximalNumber(s, i, NumberEnd(s, i + 1))
  {
    var w := RunEnd(s, i + 1, Digits);
    if CharAt(s, w) == '.' && IsDigit(CharAt(s, w + 1)) {
      var j := RunEnd(s, w + 1, Digits);
      assert forall k | i <= k < j && k != w :: IsDigit(s[k]);
    }
  }

  /** A number at offset 0 throws ArgumentOutOfRange when its literal is sliced, and
      only there; the cursor has consumed the lexeme and nothing is added. */
  lemma NumberThrowsAtStart(s: string, a: Cursor)
    requires AfterLead(s, a) && IsDigit(s[a.start])
    ensures var r := NumberLiteral(s, a);
      && (r.thrown.Some? <==> a.start == 0)
      && r.state.current == NumberEnd(s, a.current) && r.state.line == a.line && r.state.errors == a.errors
      && (r.thrown.Some? ==> r.thrown == Some(ArgumentOutOfRange) && r.state.tokens == a.tokens)
  {
  }

  /** Elsewhere a NUMBER token is added whose literal is the window of the lexeme's
      length that starts one character to its left. */
  lemma NumberToken(s: string, a: Cursor)
    requires AfterLead(s, a) && IsDigit(s[a.start]) && a.start > 0
    ensures var r := NumberLiteral(s, a);
      var e := r.state.current;
      && a.start < e <= |s|
      && r.state.tokens == a.tokens + [Token(NUMBER, Substring(s, a.start, e), Some(Substring(s, a.start - 1, e - 1)), a.line)]
  {
  }

  // ---------------------------------------------------------------- identifiers

  lemma IdentifierDispatch(s: string, c: Cursor)
    requires 0 <= c.start == c.current < |s| && IsLetter(s[c.current]) && s[c.current] != 'o'
    ensures Step(s, c) == Identifier(s, Lead(c))
  {
  }

  /** A word is the maximal run of letters and digits from the lead. */
  lemma IdentifierRun(s: string, a: Cursor)
    requires AfterLead(s, a) && IsLetterOrDigit(s[a.start])
    ensures var r := Identifier(s, a);
      var e := r.state.current;
      && r.thrown == None && a.start < e <= |s|
      && (forall k | a.start <= k < e :: IsLetterOrDigit(s[k]))
      && (e == |s| || !IsLetterOrDigit(s[e]))
      && r.state.line == a.line && r.state.errors == a.errors
  {
  }

  /** The word's token is its reserved kind when the table has it, else IDENTIFIER. */
  lemma IdentifierToken(s: string, a: Cursor)
    requires AfterLead(s, a) && IsLetterOrDigit(s[a.start])
    ensures var r := Identifier(s, a);
      var text := Substring(s, a.start, r.state.current);
      r.state.tokens == a.tokens + [Token(if text in Keywords then Keywords[text] else IDENTIFIER, text, None, a.line)]
  {
  }

  // ---------------------------------------------------------------- lead `o`, anything else

  /** A lead `o` is always consumed alone: it becomes OR with lexeme "o" when an `r`
      follows, the `r` staying for the next step, and otherwise vanishes without a
      report. */
  lemma LeadO(s: string, c: Cursor)
    requires 0 <= c.start == c.current < |s| && s[c.current] == 'o'
    ensures var r := Step(s, c);
      && r.thrown == None
      && r.state.current == c.current + 1 && r.state.line == c.line && r.state.errors == c.errors
      && r.state.tokens == c.tokens + (if c.current + 1 < |s| && s[c.current + 1] == 'r'
                                       then [Token(OR, "o", None, c.line)] else [])
  {
    if c.current + 1 < |s| && s[c.current + 1] == 'r' {
      SingleToken(s, Lead(c), OR);
    }
  }

  /** The lead characters `ScanToken` has a case for. */
  predicate Handled(ch: char)
  {
    ch in Punctuators || ch in Operators || ch in {'/', ' ', '\r', '\t', '\n', '"', 'o'} || IsLetterOrDigit(ch)
  }

  /** Any other lead is reported as "Unexpected character." at the current line and
      consumed; no token is added. */
  lemma UnexpectedReported(s: string, c: Cursor)
    requires 0 <= c.start == c.current < |s| && !Handled(s[c.current])
    ensures Step(s, c) == Continue(c.(current := c.current + 1,
                                      errors := c.errors + [Diagnostic(c.line, UnexpectedCharacter)]))
  {
  }
}
