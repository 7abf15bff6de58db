/**
 * How a bar is named: `std::any::type_name::<T>()` is split on `"::"`
 * the way Rust's `str::split` does it (matches found left to right, never
 * overlapping), the last piece is kept and `"Bar"` is appended.
 */
module TypeNames {

  import opened Common

  /** A `"::"` separator starts at index `i` of `s`. */
  predicate SepAt(s: string, i: int)
  {
    0 <= i && i + 1 < |s| && s[i] == ':' && s[i + 1] == ':'
  }

  /** `s` contains no `"::"`. */
  predicate NoSep(s: string)
  {
    forall i :: 0 <= i < |s| ==> !SepAt(s, i)
  }

  /** The first separator at or after `from`, as `str::find` would report it. */
  function FindSep(s: string, from: nat): (r: Option<nat>)
    ensures r.Some? ==> from <= r.value && SepAt(s, r.value)
    ensures r.Some? ==> forall j :: from <= j < r.value ==> !SepAt(s, j)
    ensures r.None? ==> forall j :: from <= j ==> !SepAt(s, j)
    decreases |s| - from
  {
    if from + 1 >= |s| then None
    else if s[from] == ':' && s[from + 1] == ':' then Some(from)
    else FindSep(s, from + 1)
  }

  /** `s.split("::")` collected into a sequence of pieces. */
  function Split(s: string): (pieces: seq<string>)
    ensures |pieces| >= 1
    decreases |s|
  {
    match FindSep(s, 0)
    case None => [s]
    case Some(i) => [s[..i]] + Split(s[i + 2..])
  }

  /** `pieces.join("::")`. */
  function Join(pieces: seq<string>): string
    requires |pieces| >= 1
  {
    if |pieces| == 1 then pieces[0] else pieces[0] + "::" + Join(pieces[1..])
  }

  /** `s.split("::").last().unwrap_or("Unknown")`. */
  function LastSegment(s: string): string
  {
    var pieces := Split(s);
    if |pieces| == 0 then "Unknown" else pieces[|pieces| - 1]
  }

  /** The `Name` given to the bar spawned for a tracked type. */
  function BarName(typeName: string): string
  {
    LastSegment(typeName) + "Bar"
  }

  /** Splitting loses nothing: joining the pieces back gives the input. */
  lemma {:induction false} JoinSplit(s: string)
    ensures Join(Split(s)) == s
    decreases |s|
  {
    match FindSep(s, 0)
    case None =>
    case Some(i) =>
      JoinSplit(s[i + 2..]);
      assert s == s[..i] + "::" + s[i + 2..];
  }

  /** No piece of a split contains the separator. */
  lemma {:induction false} SplitPiecesHaveNoSep(s: string)
    ensures forall k :: 0 <= k < |Split(s)| ==> NoSep(Split(s)[k])
    decreases |s|
  {
    match FindSep(s, 0)
    case None =>
    case Some(i) =>
      SplitPiecesHaveNoSep(s[i + 2..]);
      forall j ensures !SepAt(s[..i], j) {
        if SepAt(s[..i], j) {
          assert SepAt(s, j);
        }
      }
  }

  /** The last piece is a suffix of `s` following the final separator. */
  lemma {:induction false} LastPieceIsSuffix(s: string)
    ensures var last := Split(s)[|Split(s)| - 1];
      && |last| <= |s| && s[|s| - |last|..] == last
      && (|last| < |s| ==> |last| + 2 <= |s| && SepAt(s, |s| - |last| - 2))
      && (|last| == |s| <==> NoSep(s))
    decreases |s|
  {
    match FindSep(s, 0)
    case None =>
    case Some(i) =>
      var rest := s[i + 2..];
      LastPieceIsSuffix(rest);
      var last := Split(rest)[|Split(rest)| - 1];
      assert Split(s)[|Split(s)| - 1] == last;
      if |last| < |rest| {
        assert SepAt(rest, |rest| - |last| - 2);
        assert SepAt(s, |s| - |last| - 2);
      }
      assert !NoSep(s) by { assert SepAt(s, i); }
  }

  /**
   * The bar's name is the last `"::"`-separated segment of the type name
   * followed by `"Bar"`: that segment holds no separator, ends the type
   * name, is preceded by `"::"` unless it is the whole name, and is the
   * whole name exactly when the name has no separator. The `"Unknown"`
   * fallback is never used, since a split always yields a piece.
   */
  lemma BarNameShape(typeName: string)
    ensures var segment := BarName(typeName)[..|BarName(typeName)| - 3];
      && BarName(typeName) == segment + "Bar"
      && NoSep(segment)
      && |segment| <= |typeName| && typeName[|typeName| - |segment|..] == segment
      && (|segment| < |typeName| ==> |segment| + 2 <= |typeName| && SepAt(typeName, |typeName| - |segment| - 2))
      && (|segment| == |typeName| <==> NoSep(typeName))
  {
    var pieces := Split(typeName);
    SplitPiecesHaveNoSep(typeName);
    LastPieceIsSuffix(typeName);
    assert LastSegment(typeName) == pieces[|pieces| - 1];
    assert BarName(typeName)[..|BarName(typeName)| - 3] == LastSegment(typeName);
  }
}
