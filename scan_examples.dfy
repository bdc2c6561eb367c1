/** Whole scans of short inputs, showing how the scanner treats a lead `o`, a number at
    the start of the input, and a string that never closes. Each scan is taken one
    `ScanToken` step at a time. */
module ScanExamples {
  import opened Wrappers
  import opened Extensions
  import opened Tokens
  import opened ScannerSpec
  import opened Branches

  /** `ScanTokens` runs one step and carries on from where it left off. */
  lemma ScanOn(s: string, c: Cursor, d: Cursor)
    requires 0 <= c.current < |s| && Step(s, c.(start := c.current)) == Continue(d)
    ensures ScanFrom(s, c) == ScanFrom(s, d)
  {
  }

  /** At the end of input only the EOF token is added. */
  lemma ScanEnds(s: string, c: Cursor)
    requires c.current == |s|
    ensures ScanFrom(s, c) == Continue(c.(tokens := c.tokens + [Token(EOF, "", None, c.line)]))
  {
  }

  /** `or` is not the keyword: the `o` makes an OR token by itself, and the `r` is
      scanned again as an identifier. */
  lemma OrSplits()
    ensures Scan("or") == Continue(Cursor(1, 2, 1,
      [Token(OR, "o", None, 1), Token(IDENTIFIER, "r", None, 1), Token(EOF, "", None, 1)],
      [], [Span(0, 1), Span(1, 2)]))
  {
    var s := "or";
    var c1 := Cursor(0, 1, 1, [Token(OR, "o", None, 1)], [], [Span(0, 1)]);
    var c2 := Cursor(1, 2, 1, [Token(OR, "o", None, 1), Token(IDENTIFIER, "r", None, 1)], [], [Span(0, 1), Span(1, 2)]);
    OrFirst();
    ScanOn(s, Fresh, c1);
    OrSecond(c1);
    ScanOn(s, c1, c2);
    ScanEnds(s, c2);
  }

  lemma OrFirst()
    ensures Step("or", Fresh) == Continue(Cursor(0, 1, 1, [Token(OR, "o", None, 1)], [], [Span(0, 1)]))
  {
    assert Substring("or", 0, 1) == "o";
  }

  lemma OrSecond(c: Cursor)
    requires c == Cursor(0, 1, 1, [Token(OR, "o", None, 1)], [], [Span(0, 1)])
    ensures Step("or", c.(start := 1)) ==
      Continue(Cursor(1, 2, 1, [Token(OR, "o", None, 1), Token(IDENTIFIER, "r", None, 1)], [], [Span(0, 1), Span(1, 2)]))
  {
    var b := c.(start := 1);
    IdentifierDispatch("or", b);
    RunEndAt("or", 2, 2, LettersOrDigits);
    assert Substring("or", 1, 2) == "r";
  }

  /** A number at offset 0 throws while its literal is sliced. */
  lemma NumberAtStartThrows()
    ensures Scan("7") == Run(Cursor(0, 1, 1, [], [], []), Some(ArgumentOutOfRange))
  {
    NumberDispatch("7", Fresh);
    RunEndAt("7", 1, 1, Digits);
  }

  /** Elsewhere the literal is the window shifted one character to the left. */
  lemma NumberLiteralShifted()
    ensures Scan(" 42") == Continue(Cursor(1, 3, 1,
      [Token(NUMBER, "42", Some(" 4"), 1), Token(EOF, "", None, 1)], [], [Span(1, 3)]))
  {
    var s := " 42";
    var c1 := Cursor(0, 1, 1, [], [], []);
    var c2 := Cursor(1, 3, 1, [Token(NUMBER, "42", Some(" 4"), 1)], [], [Span(1, 3)]);
    BlankSkipped(s, Fresh);
    ScanOn(s, Fresh, c1);
    NumberSecond(c1);
    ScanOn(s, c1, c2);
    ScanEnds(s, c2);
  }

  lemma NumberSecond(c: Cursor)
    requires c == Cursor(0, 1, 1, [], [], [])
    ensures Step(" 42", c.(start := 1)) ==
      Continue(Cursor(1, 3, 1, [Token(NUMBER, "42", Some(" 4"), 1)], [], [Span(1, 3)]))
  {
    var s := " 42";
    NumberDispatch(s, c.(start := 1));
    RunEndAt(s, 2, 3, Digits);
    assert Substring(s, 1, 3) == "42" && Substring(s, 0, 2) == " 4";
  }

  /** A dot not followed by a digit is left for the next step, which makes it DOT. */
  lemma DotAfterNumber()
    ensures Scan(" 1.") == Continue(Cursor(2, 3, 1,
      [Token(NUMBER, "1", Some(" "), 1), Token(DOT, ".", None, 1), Token(EOF, "", None, 1)],
      [], [Span(1, 2), Span(2, 3)]))
  {
    var s := " 1.";
    var c1 := Cursor(0, 1, 1, [], [], []);
    var c2 := Cursor(1, 2, 1, [Token(NUMBER, "1", Some(" "), 1)], [], [Span(1, 2)]);
    var c3 := Cursor(2, 3, 1, [Token(NUMBER, "1", Some(" "), 1), Token(DOT, ".", None, 1)], [], [Span(1, 2), Span(2, 3)]);
    BlankSkipped(s, Fresh);
    ScanOn(s, Fresh, c1);
    DotNumber(c1);
    ScanOn(s, c1, c2);
    DotThird(c2);
    ScanOn(s, c2, c3);
    ScanEnds(s, c3);
  }

  lemma DotNumber(c: Cursor)
    requires c == Cursor(0, 1, 1, [], [], [])
    ensures Step(" 1.", c.(start := 1)) == Continue(Cursor(1, 2, 1, [Token(NUMBER, "1", Some(" "), 1)], [], [Span(1, 2)]))
  {
    var s := " 1.";
    NumberDispatch(s, c.(start := 1));
    RunEndAt(s, 2, 2, Digits);
    assert Substring(s, 1, 2) == "1" && Substring(s, 0, 1) == " ";
  }

  lemma DotThird(c: Cursor)
    requires c == Cursor(1, 2, 1, [Token(NUMBER, "1", Some(" "), 1)], [], [Span(1, 2)])
    ensures Step(" 1.", c.(start := 2)) ==
      Continue(Cursor(2, 3, 1, [Token(NUMBER, "1", Some(" "), 1), Token(DOT, ".", None, 1)], [], [Span(1, 2), Span(2, 3)]))
  {
    PunctuatorDispatch(" 1.", c.(start := 2));
    assert Substring(" 1.", 2, 3) == ".";
  }

  /** An unterminated string is reported on the line the input ends on, no token is
      added, and the scan throws. */
  lemma UnterminatedThrows()
    ensures Scan("\"a\nb").thrown == Some(IndexOutOfRange)
    ensures Scan("\"a\nb").state.errors == [Diagnostic(2, UnterminatedString)]
    ensures Scan("\"a\nb").state.tokens == []
  {
    var s := "\"a\nb";
    UnterminatedFirst();
    StringUnterminated(s, Lead(Fresh));
    assert Newlines(s, 1, 4) == 1;
  }

  lemma UnterminatedFirst()
    ensures Scan("\"a\nb") == StringLiteral("\"a\nb", Lead(Fresh))
  {
    StringDispatch("\"a\nb", Fresh);
    StringUnterminated("\"a\nb", Lead(Fresh));
  }
}
