/** What a whole `ScanTokens` run guarantees: every token is cut from the source in
    order and stamped with its line, tokens are only ever appended, and a run that does
    not throw ends with exactly one EOF token on the last line of the source. */
module ScanFacts {
  import opened Wrappers
  import opened Extensions
  import opened Tokens
  import opened ScannerSpec
  import opened StepFacts

  /** Token `t` is the source text of span `sp`, is not EOF, and carries the line the
      span ends on (1 plus the newlines before its end). */
  ghost predicate Fits(s: string, t: Token, sp: Span)
  {
    && 0 <= sp.from < sp.to <= |s|
    && t.kind != EOF
    && t.lexeme == Substring(s, sp.from, sp.to)
    && t.line == 1 + Newlines(s, 0, sp.to)
  }

  /** What a scanner that started fresh has done by the time it reaches `c.current`:
      its line counts the newlines before the cursor, and its tokens come from
      non-empty, non-overlapping spans of the text already consumed, in source order. */
  ghost predicate Consistent(s: string, c: Cursor)
  {
    && 0 <= c.current <= |s|
    && c.line == 1 + Newlines(s, 0, c.current)
    && |c.tokens| == |c.spans|
    && (forall i | 0 <= i < |c.spans| :: c.spans[i].to <= c.current && Fits(s, c.tokens[i], c.spans[i]))
    && (forall i, j | 0 <= i < j < |c.spans| :: c.spans[i].to <= c.spans[j].from)
  }

  /** The state after a run that did not throw: the cursor is at the end, and the
      tokens are consistent ones followed by a single EOF token with an empty lexeme,
      no literal, and the last line. */
  ghost predicate Finished(s: string, c: Cursor)
  {
    && c.current == |s|
    && |c.tokens| == |c.spans| + 1
    && c.tokens[|c.spans|] == Token(EOF, "", None, 1 + Newlines(s, 0, |s|))
    && Consistent(s, c.(tokens := c.tokens[..|c.spans|]))
  }

  lemma FreshIsConsistent(s: string)
    ensures Consistent(s, Fresh)
  {
  }

  /** A step that emits nothing keeps consistency. */
  lemma QuietStepConsistent(s: string, c: Cursor, d: Cursor)
    requires Consistent(s, c) && c.current < d.current <= |s|
    requires d.line == c.line + Newlines(s, c.current, d.current)
    requires d.tokens == c.tokens && d.spans == c.spans
    ensures Consistent(s, d)
  {
    NewlinesSplit(s, 0, c.current, d.current);
  }

  /** A step that emits one token cut from what it consumed keeps consistency. */
  lemma EmittingStepConsistent(s: string, c: Cursor, d: Cursor)
    requires Consistent(s, c) && c.current < d.current <= |s|
    requires d.line == c.line + Newlines(s, c.current, d.current)
    requires Emitted(s, c, d)
    ensures Consistent(s, d)
  {
    NewlinesSplit(s, 0, c.current, d.current);
    var n := |c.tokens|;
    assert Fits(s, d.tokens[n], d.spans[n]);
    forall i | 0 <= i < |d.spans|
      ensures d.spans[i].to <= d.current && Fits(s, d.tokens[i], d.spans[i])
    {
      if i < n {
        assert d.tokens[i] == c.tokens[i] && d.spans[i] == c.spans[i];
      }
    }
    forall i, j | 0 <= i < j < |d.spans|
      ensures d.spans[i].to <= d.spans[j].from
    {
      if j < n {
        assert d.spans[i] == c.spans[i] && d.spans[j] == c.spans[j];
      } else {
        assert d.spans[i] == c.spans[i];
      }
    }
  }

  /** One loop iteration of `ScanTokens` keeps consistency when it does not throw, and
      never changes the tokens and diagnostics already there. */
  lemma StepConsistent(s: string, c: Cursor)
    requires Consistent(s, c) && c.current < |s|
    ensures var r := Step(s, c.(start := c.current));
      && c.tokens <= r.state.tokens && c.errors <= r.state.errors
      && (r.thrown.None? ==> c.current < r.state.current && Consistent(s, r.state))
  {
    var b := c.(start := c.current);
    var r := Step(s, b);
    StepKeepsShape(s, b);
    if r.state.tokens == c.tokens && r.state.spans == c.spans {
      if r.thrown.None? {
        QuietStepConsistent(s, c, r.state);
      }
    } else {
      EmittingStepConsistent(s, b, r.state);
    }
  }

  /** `ScanTokens` from a consistent cursor: it keeps every token and diagnostic it
      found, and unless a step throws it ends `Finished`. */
  lemma {:induction false} ScanFromFinishes(s: string, c: Cursor)
    requires Consistent(s, c)
    ensures var r := ScanFrom(s, c);
      && c.tokens <= r.state.tokens && c.errors <= r.state.errors
      && (r.thrown.None? ==> Finished(s, r.state))
    decreases |s| - c.current
  {
    if c.current == |s| {
      var d := c.(tokens := c.tokens + [Token(EOF, "", None, c.line)]);
      assert d.(tokens := d.tokens[..|d.spans|]) == c;
    } else {
      var r := Step(s, c.(start := c.current));
      StepConsistent(s, c);
      if r.thrown.None? {
        ScanFromFinishes(s, r.state);
      }
    }
  }

  /** A whole scan that does not throw yields consistent tokens followed by exactly one
      EOF token, whose line is 1 plus the number of newline characters in the source. */
  lemma ScanTheorem(s: string)
    ensures var r := Scan(s);
      r.thrown.None? ==>
        && Finished(s, r.state)
        && r.state.tokens[|r.state.tokens| - 1] == Token(EOF, "", None, 1 + multiset(s)['\n'])
        && (forall i | 0 <= i < |r.state.tokens| - 1 :: r.state.tokens[i].kind != EOF)
  {
    ScanFromFinishes(s, Fresh);
    NewlinesCountsNewlineCharacters(s, 0, |s|);
    assert s[0..|s|] == s;
    var r := Scan(s);
    if r.thrown.None? {
      var d := r.state.(tokens := r.state.tokens[..|r.state.spans|]);
      forall i | 0 <= i < |r.state.tokens| - 1
        ensures r.state.tokens[i].kind != EOF
      {
        assert r.state.tokens[i] == d.tokens[i];
        assert Fits(s, d.tokens[i], d.spans[i]);
      }
    }
  }
}
