/** The shape every `ScanToken` call shares, whatever the lead character: progress,
    newline counting, and tokens and diagnostics that only grow at the end. */
module StepFacts {
  import opened Wrappers
  import opened Extensions
  import opened Tokens
  import opened ScannerSpec
  import opened Branches

  /** A token cut from the consumed text and appended after the old ones. */
  lemma EmittedByAppend(s: string, c: Cursor, d: Cursor, kind: TokenType, literal: Option<string>)
    requires 0 <= c.current <= d.current <= |s| && kind != EOF
    requires d.spans == c.spans + [Span(c.current, d.current)]
    requires d.tokens == c.tokens + [Token(kind, Substring(s, c.current, d.current), literal, d.line)]
    ensures Emitted(s, c, d)
  {
  }

  /** One character consumed, nothing emitted. */
  lemma SkipShape(s: string, c: Cursor, d: Cursor)
    requires 0 <= c.start == c.current < |s|
    requires d.start == c.start && d.current == c.current + 1 && d.tokens == c.tokens && d.spans == c.spans
    requires d.line == c.line + (if s[c.current] == '\n' then 1 else 0)
    requires d.errors == c.errors || (|d.errors| == |c.errors| + 1 && d.errors == c.errors + [d.errors[|c.errors|]])
    ensures StepShape(s, c, Continue(d))
  {
  }

  /** A one-character token. */
  lemma SingleShape(s: string, c: Cursor, kind: TokenType)
    requires 0 <= c.start == c.current < |s| && s[c.current] != '\n' && kind != EOF
    ensures StepShape(s, c, Single(s, Lead(c), kind))
  {
  }

  lemma OperatorShape(s: string, c: Cursor, one: TokenType, two: TokenType)
    requires 0 <= c.start == c.current < |s| && s[c.current] in Operators && one != EOF && two != EOF
    ensures StepShape(s, c, Operator(s, Lead(c), one, two))
  {
    var r := Operator(s, Lead(c), one, two);
    NoNewlines(s, c.current, r.state.current);
  }

  lemma SlashShape(s: string, c: Cursor)
    requires 0 <= c.start == c.current < |s| && s[c.current] == '/'
    ensures StepShape(s, c, SlashOrComment(s, Lead(c)))
  {
    var r := SlashOrComment(s, Lead(c));
    NoNewlines(s, c.current, r.state.current);
  }

  lemma StringShape(s: string, c: Cursor)
    requires 0 <= c.start == c.current < |s| && s[c.current] == '"'
    ensures StepShape(s, c, StringLiteral(s, Lead(c)))
  {
    if RunEnd(s, c.current + 1, NotQuote) < |s| {
      ClosedStringShape(s, c);
    } else {
      StringUnterminated(s, Lead(c));
    }
  }

  /** The state after a string literal that opened at `c.current` and closes at `close`. */
  ghost function ClosedString(s: string, c: Cursor, close: int): (d: Cursor)
    requires 0 <= c.current < close < |s|
  {
    var line := c.line + Newlines(s, c.current + 1, close);
    Cursor(c.start, close + 1, line,
           c.tokens + [Token(STRING, Substring(s, c.current, close + 1), Some(Substring(s, c.current + 1, close)), line)],
           c.errors, c.spans + [Span(c.current, close + 1)])
  }

  lemma ClosedStringShape(s: string, c: Cursor)
    requires 0 <= c.start == c.current < |s| && s[c.current] == '"'
    requires RunEnd(s, c.current + 1, NotQuote) < |s|
    ensures StepShape(s, c, StringLiteral(s, Lead(c)))
  {
    var close := RunEnd(s, c.current + 1, NotQuote);
    ClosedStringIs(s, c);
    ClosedStringKeepsShape(s, c, close);
  }

  lemma ClosedStringIs(s: string, c: Cursor)
    requires 0 <= c.start == c.current < |s| && s[c.current] == '"'
    requires RunEnd(s, c.current + 1, NotQuote) < |s|
    ensures StringLiteral(s, Lead(c)) == Continue(ClosedString(s, c, RunEnd(s, c.current + 1, NotQuote)))
  {
  }

  lemma ClosedStringKeepsShape(s: string, c: Cursor, close: int)
    requires 0 <= c.start == c.current < close < |s| && s[c.current] == '"' && s[close] == '"'
    ensures StepShape(s, c, Continue(ClosedString(s, c, close)))
  {
    ClosedStringLine(s, c, close);
    EmittedByAppend(s, c, ClosedString(s, c, close), STRING, Some(Substring(s, c.current + 1, close)));
  }

  /** The quotes hold no newline, so the line counts every newline of the literal. */
  lemma ClosedStringLine(s: string, c: Cursor, close: int)
    requires 0 <= c.current < close < |s| && s[c.current] == '"' && s[close] == '"'
    ensures ClosedString(s, c, close).line == c.line + Newlines(s, c.current, close + 1)
  {
    NewlinesSplit(s, c.current, c.current + 1, close);
    NewlinesSplit(s, c.current, close, close + 1);
  }

  lemma NumberShape(s: string, c: Cursor)
    requires 0 <= c.start == c.current < |s| && IsDigit(s[c.current])
    ensures StepShape(s, c, NumberLiteral(s, Lead(c)))
  {
    var r := NumberLiteral(s, Lead(c));
    NoNewlines(s, c.current, r.state.current);
  }

  lemma IdentifierShape(s: string, c: Cursor)
    requires 0 <= c.start == c.current < |s| && IsLetterOrDigit(s[c.current])
    ensures StepShape(s, c, Identifier(s, Lead(c)))
  {
    var j := RunEnd(s, c.current + 1, LettersOrDigits);
    NoNewlines(s, c.current, j);
  }

  lemma OShape(s: string, c: Cursor)
    requires 0 <= c.start == c.current < |s| && s[c.current] == 'o'
    ensures StepShape(s, c, Step(s, c))
  {
    if CharAt(s, c.current + 1) == 'r' {
      SingleShape(s, c, OR);
    } else {
      SkipShape(s, c, Lead(c));
    }
  }

  /** Blanks, newlines and unexpected characters. */
  lemma QuietShape(s: string, c: Cursor)
    requires 0 <= c.start == c.current < |s|
    requires !(s[c.current] in Punctuators || s[c.current] in Operators || s[c.current] in {'/', '"', 'o'})
    requires !IsLetterOrDigit(s[c.current])
    ensures StepShape(s, c, Step(s, c))
  {
    var ch := s[c.current];
    if ch in {' ', '\r', '\t'} {
      BlankSkipped(s, c);
      SkipShape(s, c, c.(current := c.current + 1));
    } else if ch == '\n' {
      NewlineCounted(s, c);
      SkipShape(s, c, c.(current := c.current + 1, line := c.line + 1));
    } else {
      UnexpectedReported(s, c);
      SkipShape(s, c, c.(current := c.current + 1, errors := c.errors + [Diagnostic(c.line, UnexpectedCharacter)]));
    }
  }

  /** Every step has the shape, whatever the lead character. */
  lemma StepKeepsShape(s: string, c: Cursor)
    requires 0 <= c.start == c.current < |s|
    ensures StepShape(s, c, Step(s, c))
  {
    var ch := s[c.current];
    if ch in Punctuators || ch in Operators || ch == '/' || ch == '"' {
      SymbolStepShape(s, c);
    } else if ch == 'o' {
      OShape(s, c);
    } else if IsLetterOrDigit(ch) {
      WordStepShape(s, c);
    } else {
      QuietShape(s, c);
    }
  }

  lemma SymbolStepShape(s: string, c: Cursor)
    requires 0 <= c.start == c.current < |s|
    requires s[c.current] in Punctuators || s[c.current] in Operators || s[c.current] in {'/', '"'}
    ensures StepShape(s, c, Step(s, c))
  {
    var ch := s[c.current];
    if ch in Punctuators {
      PunctuatorStepShape(s, c);
    } else if ch in Operators {
      OperatorStepShape(s, c);
    } else {
      SlashOrStringStepShape(s, c);
    }
  }

  lemma PunctuatorStepShape(s: string, c: Cursor)
    requires 0 <= c.start == c.current < |s| && s[c.current] in Punctuators
    ensures StepShape(s, c, Step(s, c))
  {
    PunctuatorDispatch(s, c);
    SingleShape(s, c, Punctuators[s[c.current]]);
  }

  lemma OperatorStepShape(s: string, c: Cursor)
    requires 0 <= c.start == c.current < |s| && s[c.current] in Operators
    ensures StepShape(s, c, Step(s, c))
  {
    var ch := s[c.current];
    OperatorDispatch(s, c);
    OperatorShape(s, c, Operators[ch].0, Operators[ch].1);
  }

  lemma SlashOrStringStepShape(s: string, c: Cursor)
    requires 0 <= c.start == c.current < |s| && s[c.current] in {'/', '"'}
    ensures StepShape(s, c, Step(s, c))
  {
    if s[c.current] == '/' {
      SlashDispatch(s, c);
      SlashShape(s, c);
    } else {
      StringDispatch(s, c);
      StringShape(s, c);
    }
  }

  lemma WordStepShape(s: string, c: Cursor)
    requires 0 <= c.start == c.current < |s| && IsLetterOrDigit(s[c.current]) && s[c.current] != 'o'
    ensures StepShape(s, c, Step(s, c))
  {
    if IsDigit(s[c.current]) {
      NumberDispatch(s, c);
      NumberShape(s, c);
    } else {
      IdentifierDispatch(s, c);
      IdentifierShape(s, c);
    }
  }
}
