/** The `Slice` string extension: a substring between two offsets, where a
    negative end offset counts back from the end of the string. */
module Extensions {
  import opened Wrappers

  /** The end offset after normalisation: a negative `end` is taken relative to `|source|`. */
  function NormalisedEnd(source: string, end: int): (e: int)
  {
    if end < 0 then |source| + end else end
  }

  /** The characters `s[i], ..., s[j - 1]`, built one character at a time: the
      reference that Slice and every token lexeme are stated against. */
  function Substring(s: string, i: int, j: int): (t: string)
    requires 0 <= i <= j <= |s|
    ensures |t| == j - i
    decreases j - i
  {
    if i == j then [] else Substring(s, i, j - 1) + [s[j - 1]]
  }

  /** Substring agrees with Dafny's own slice. */
  lemma {:induction false} SubstringIsSlice(s: string, i: int, j: int)
    requires 0 <= i <= j <= |s|
    ensures Substring(s, i, j) == s[i..j]
    decreases j - i
  {
    if i < j {
      SubstringIsSlice(s, i, j - 1);
      assert s[i..j] == s[i..j - 1] + [s[j - 1]];
    }
  }

  /** `source.Slice(start, end)`. `Substring(start, end - start)` throws
      ArgumentOutOfRange unless `0 <= start <= end <= |source|` once `end` is normalised;
      `start` itself is never normalised. */
  function Slice(source: string, start: int, end: int): (r: Result<string>)
    ensures r.Ok? <==> 0 <= start <= NormalisedEnd(source, end) <= |source|
    ensures r.Err? ==> r.error == ArgumentOutOfRange
    ensures r.Ok? ==> r.value == Substring(source, start, NormalisedEnd(source, end))
  {
    var e := NormalisedEnd(source, end);
    if 0 <= start <= e <= |source| then
      SubstringIsSlice(source, start, e);
      Ok(source[start..e])
    else
      Err(ArgumentOutOfRange)
  }

  /** Character by character, a successful Slice copies `source` from `start` on. */
  lemma SliceCharacters(source: string, start: int, end: int)
    requires Slice(source, start, end).Ok?
    ensures forall i | 0 <= i < |Slice(source, start, end).value| ::
      Slice(source, start, end).value[i] == source[start + i]
  {
  }

  /** Within bounds, Slice is the plain substring. */
  lemma SliceIsSubstring(s: string, start: int, end: int)
    requires 0 <= start <= end <= |s|
    ensures Slice(s, start, end) == Ok(s[start..end])
  {
  }

  /** A negative end is replaced by `|s| + end`, and only the end is normalised. */
  lemma SliceNormalisesEnd(s: string, start: int, end: int)
    requires end < 0 <= |s| + end
    ensures Slice(s, start, end) == Slice(s, start, |s| + end)
    ensures start < 0 ==> Slice(s, start, end) == Err(ArgumentOutOfRange)
  {
  }

  /** Slice throws exactly when the start is negative, the normalised end
      precedes the start, or the normalised end is past the string. */
  lemma SliceErrors(s: string, start: int, end: int)
    ensures var e := if end < 0 then |s| + end else end;
      Slice(s, start, end).Err? <==> start < 0 || e < start || e > |s|
  {
  }

  /** Empty and whole slices. */
  lemma SliceEdges(s: string, i: int)
    requires 0 <= i <= |s|
    ensures Slice(s, i, i) == Ok("")
    ensures Slice(s, 0, |s|) == Ok(s)
  {
    assert s[0..|s|] == s;
  }

  /** Adjacent slices concatenate. */
  lemma SliceAdjacent(s: string, a: int, b: int, c: int)
    requires 0 <= a <= b <= c <= |s|
    ensures Slice(s, a, b).Ok? && Slice(s, b, c).Ok? && Slice(s, a, c).Ok?
    ensures Slice(s, a, b).value + Slice(s, b, c).value == Slice(s, a, c).value
  {
    assert s[a..b] + s[b..c] == s[a..c];
  }
}
