/** The scanner as the source writes it: a cursor over an immutable string whose
    fields are updated step by step. Every method is proved to have exactly the
    effect of the matching function in ScannerSpec. */
module Components {
  import opened Wrappers
  import opened Extensions
  import opened Tokens
  import opened ScannerSpec

  class Scanner {
    const source: string
    var start: int
    var current: int
    var line: int
    var tokens: seq<Token>
    /** The reports sent to `Lox.ReportError`, in order. */
    var errors: seq<Diagnostic>
    /** Where each token of `tokens` was cut from. */
    ghost var spans: seq<Span>

    ghost predicate Valid()
      reads this
    {
      0 <= start <= current <= |source| && line >= 1
    }

    /** All fields as one ScannerSpec cursor. */
    ghost function State(): Cursor
      reads this
    {
      Cursor(start, current, line, tokens, errors, spans)
    }

    constructor (source: string)
      ensures this.source == source
      ensures Valid() && State() == Fresh
    {
      this.source := source;
      start, current, line := 0, 0, 1;
      tokens, errors, spans := [], [], [];
    }

    predicate IsAtEnd()
      reads this
    {
      current == |source|
    }

    /** The character at the cursor, or NUL at the end of input. */
    function Peek(): (c: char)
      reads this
      requires 0 <= current
      ensures current < |source| ==> c == source[current]
      ensures current >= |source| ==> c == '\0'
    {
      CharAt(source, current)
    }

    /** The character after the cursor, or NUL when there is none. */
    function PeekNext(): (c: char)
      reads this
      requires 0 <= current
      ensures current + 1 < |source| ==> c == source[current + 1]
      ensures current + 1 >= |source| ==> c == '\0'
    {
      CharAt(source, current + 1)
    }

    /** Moves past the character at the cursor and returns it; the index is
        checked after the increment, so at the end of input it throws. */
    method Advance() returns (r: Result<char>)
      requires 0 <= current
      modifies this`current
      ensures current == old(current) + 1
      ensures r.Ok? <==> old(current) < |source|
      ensures r.Ok? ==> r.value == source[old(current)]
      ensures r.Err? ==> r.error == IndexOutOfRange
    {
      current := current + 1;
      if current - 1 < |source| {
        r := Ok(source[current - 1]);
      } else {
        r := Err(IndexOutOfRange);
      }
    }

    /** Appends a token cut from `[start, current)` at the current line. */
    method AddToken(kind: TokenType, literal: Option<string>)
      requires Valid()
      modifies this`tokens, this`spans
      ensures State() == Emit(source, old(State()), kind, literal)
    {
      var text := Slice(source, start, current);
      tokens := tokens + [Token(kind, text.value, literal, line)];
      spans := spans + [Span(start, current)];
    }

    /** Consumes the next character only if it is `expected`. */
    method Match(expected: char) returns (matched: bool)
      requires Valid()
      modifies this`current
      ensures matched == Matches(source, old(current), expected)
      ensures current == if matched then old(current) + 1 else old(current)
    {
      if IsAtEnd() {
        return false;
      }
      if source[current] != expected {
        return false;
      }
      current := current + 1;
      return true;
    }

    method ReportError(message: string)
      modifies this`errors
      ensures State() == Report(old(State()), message)
    {
      errors := errors + [Diagnostic(line, message)];
    }

    method ScanTokens() returns (result: Result<seq<Token>>)
      requires Valid()
      modifies this
      ensures var r := ScanFrom(source, old(State()));
        && State() == r.state
        && result == if r.thrown.Some? then Err(r.thrown.value) else Ok(r.state.tokens)
    {
      ghost var goal := ScanFrom(source, State());
      while !IsAtEnd()
        invariant Valid()
        invariant ScanFrom(source, State()) == goal
        decreases |source| - current
      {
        start := current;
        var thrown := ScanToken();
        if thrown.Some? {
          return Err(thrown.value);
        }
      }
      tokens := tokens + [Token(EOF, "", None, line)];
      return Ok(tokens);
    }

    method ScanToken() returns (thrown: Option<Exception>)
      requires Valid() && start == current < |source|
      modifies this`current, this`line, this`tokens, this`errors, this`spans
      ensures Run(State(), thrown) == Step(source, old(State()))
    {
      var advanced := Advance();
      var character := advanced.value;
      thrown := None;
      match character {
        case '(' => AddToken(LEFT_PAREN, None);
        case ')' => AddToken(RIGHT_PAREN, None);
        case '{' => AddToken(LEFT_BRACE, None);
        case '}' => AddToken(RIGHT_BRACE, None);
        case ',' => AddToken(COMMA, None);
        case '.' => AddToken(DOT, None);
        case '-' => AddToken(MINUS, None);
        case '+' => AddToken(PLUS, None);
        case ';' => AddToken(SEMICOLON, None);
        case '*' => AddToken(STAR, None);
        case '!' => var eq := Match('='); AddToken(if eq then BANG_EQUAL else BANG, None);
        case '=' => var eq := Match('='); AddToken(if eq then EQUAL_EQUAL else EQUAL, None);
        case '<' => var eq := Match('='); AddToken(if eq then LESS_EQUAL else LESS, None);
        case '>' => var eq := Match('='); AddToken(if eq then GREATER_EQUAL else GREATER, None);
        case '/' =>
          var comment := Match('/');
          if comment {
            AdvanceWhile(NotNewline);
          } else {
            AddToken(SLASH, None);
          }
        case ' ' =>
        case '\r' =>
        case '\t' =>
        case '\n' => line := line + 1;
        case '"' => thrown := MatchString();
        case 'o' =>
          if Peek() == 'r' {
            AddToken(OR, None);
          }
        case _ =>
          if IsDigit(character) {
            thrown := MatchNumber();
          } else if IsLetterOrDigit(character) {
            MatchIdentifier();
          } else {
            ReportError(UnexpectedCharacter);
          }
      }
    }

    /** Consumes the maximal run of characters of class `cls` at the cursor; the comment,
        number and identifier cases each do this. At the end of input `Peek` gives NUL,
        which is neither a digit nor a letter, so only the comment loop needs the explicit
        end test. */
    method AdvanceWhile(cls: Class)
      requires Valid()
      modifies this`current
      ensures Valid() && current == RunEnd(source, old(current), cls)
    {
      while InClass(Peek(), cls) && !IsAtEnd()
        invariant Valid() && old(current) <= current
        invariant RunEnd(source, current, cls) == RunEnd(source, old(current), cls)
        decreases |source| - current
      {
        var _ := Advance();
      }
    }

    /** The body of a string literal: everything up to the closing quote or the end of
        the source, counting the newlines it crosses. */
    method AdvanceToQuote()
      requires Valid()
      modifies this`current, this`line
      ensures Valid() && current == RunEnd(source, old(current), NotQuote)
      ensures line == old(line) + Newlines(source, old(current), current)
    {
      while Peek() != '"' && !IsAtEnd()
        invariant Valid() && old(current) <= current
        invariant RunEnd(source, current, NotQuote) == RunEnd(source, old(current), NotQuote)
        invariant line == old(line) + Newlines(source, old(current), current)
        decreases |source| - current
      {
        if Peek() == '\n' {
          line := line + 1;
        }
        var _ := Advance();
      }
    }

    method MatchString() returns (thrown: Option<Exception>)
      requires Valid() && start + 1 == current && source[start] == '"'
      modifies this`current, this`line, this`errors, this`tokens, this`spans
      ensures Run(State(), thrown) == StringLiteral(source, old(State()))
    {
      AdvanceToQuote();

      if IsAtEnd() {
        ReportError(UnterminatedString);
      }

      var closing := Advance();
      if closing.Err? {
        return Some(closing.error);
      }

      var value := Slice(source, start + 1, current - 1);
      AddToken(STRING, Some(value.value));
      return None;
    }

    /** The digit run of a number, then a fraction only when a digit follows the '.'. */
    method AdvanceNumber()
      requires Valid()
      modifies this`current
      ensures Valid() && current == NumberEnd(source, old(current))
    {
      AdvanceWhile(Digits);
      if Peek() == '.' && IsDigit(PeekNext()) {
        var _ := Advance();
        AdvanceWhile(Digits);
      }
    }

    method MatchNumber() returns (thrown: Option<Exception>)
      requires Valid() && start + 1 == current && IsDigit(source[start])
      modifies this`current, this`tokens, this`spans
      ensures Run(State(), thrown) == NumberLiteral(source, old(State()))
    {
      AdvanceNumber();

      var value := Slice(source, start - 1, current - 1);
      if value.Err? {
        return Some(value.error);
      }
      AddToken(NUMBER, Some(value.value));
      return None;
    }

    method MatchIdentifier()
      requires Valid() && start + 1 == current && IsLetterOrDigit(source[start])
      modifies this`current, this`tokens, this`spans
      ensures Identifier(source, old(State())) == Continue(State())
    {
      AdvanceWhile(LettersOrDigits);

      var text := Slice(source, start, current).value;
      if text in Keywords {
        AddToken(Keywords[text], None);
      } else {
        AddToken(IDENTIFIER, None);
      }
    }
  }
}
