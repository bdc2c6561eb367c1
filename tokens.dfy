/** Tokens produced by the scanner and the reserved-word table. */
module Tokens {
  import opened Wrappers

  /** Every kind the scanner can emit. */
  datatype TokenType =
    // single-character punctuation
    | LEFT_PAREN | RIGHT_PAREN | LEFT_BRACE | RIGHT_BRACE
    | COMMA | DOT | MINUS | PLUS | SEMICOLON | SLASH | STAR
    // one- or two-character operators
    | BANG | BANG_EQUAL | EQUAL | EQUAL_EQUAL
    | GREATER | GREATER_EQUAL | LESS | LESS_EQUAL
    // literals
    | IDENTIFIER | STRING | NUMBER
    // reserved words
    | AND | CLASS | ELSE | FALSE | FUN | FOR | IF | NIL | OR
    | PRINT | RETURN | SUPER | THIS | TRUE | VAR | WHILE
    // end of input
    | EOF

  /** A token: its kind, the exact source text, an optional literal and its line. */
  datatype Token = Token(kind: TokenType, lexeme: string, literal: Option<string>, line: int)

  /** A report handed to the diagnostic sink: the line and the message. */
  datatype Diagnostic = Diagnostic(line: int, message: string)

  /** The sixteen reserved words. */
  const Keywords: map<string, TokenType> := map[
    "and"    := AND,
    "class"  := CLASS,
    "else"   := ELSE,
    "false"  := FALSE,
    "for"    := FOR,
    "fun"    := FUN,
    "if"     := IF,
    "nil"    := NIL,
    "or"     := OR,
    "print"  := PRINT,
    "return" := RETURN,
    "super"  := SUPER,
    "this"   := THIS,
    "true"   := TRUE,
    "var"    := VAR,
    "while"  := WHILE
  ]

  /** No reserved word maps to IDENTIFIER, EOF or a literal kind. */
  lemma KeywordsAreReserved()
    ensures forall w | w in Keywords :: Keywords[w] !in {IDENTIFIER, STRING, NUMBER, EOF}
  {
  }

  /** The kind `MatchIdentifier` gives a word: its reserved kind, or IDENTIFIER. */
  function WordKind(text: string): (k: TokenType)
    ensures text in Keywords ==> k == Keywords[text]
    ensures text !in Keywords ==> k == IDENTIFIER
    ensures k !in {STRING, NUMBER, EOF}
  {
    KeywordsAreReserved();
    if text in Keywords then Keywords[text] else IDENTIFIER
  }
}
