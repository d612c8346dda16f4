/** How the stub shapes range-scan bounds before they reach the transport. */
module KeyRange {

  import opened Wrappers
  import opened Utf16

  /** `UNSPECIFIED_KEY`: the single code unit U+0001. */
  const UnspecifiedKey: String16 := [0x0001]

  /** U+10FFFF written as its surrogate pair, appended to a partial key to
      form the exclusive upper bound of its scan. */
  const MaxUnicodeRune: String16 := [0xDBFF, 0xDFFF]

  datatype Bounds = Bounds(start: String16, end: String16)

  /** A `null` or empty bound becomes `UNSPECIFIED_KEY`; any other bound is
      passed on untouched. */
  function NormalizeBound(k: Option<String16>): (r: String16)
    ensures r != []
    ensures k.None? || k == Some([]) ==> r == UnspecifiedKey
    ensures k.Some? && k.value != [] ==> r == k.value
  {
    if k.None? || k.value == [] then UnspecifiedKey else k.value
  }

  /** The bounds `getStateByRange` sends. */
  function RangeBounds(start: Option<String16>, end: Option<String16>): (b: Bounds)
    ensures b.start != [] && b.end != []
    ensures b.start == NormalizeBound(start) && b.end == NormalizeBound(end)
  {
    Bounds(NormalizeBound(start), NormalizeBound(end))
  }

  /** The range `getStateByPartialCompositeKey` asks for: from the prefix
      (or `UNSPECIFIED_KEY` when it is `null` or empty) up to the prefix
      followed by U+10FFFF. The start is a proper prefix of the end, so it
      sorts strictly first, and normalizing either bound changes nothing. */
  function PartialKeyBounds(prefix: Option<String16>): (b: Bounds)
    ensures b.start == NormalizeBound(prefix)
    ensures |b.start| < |b.end| && b.end[..|b.start|] == b.start
    ensures b.end[|b.start|..] == MaxUnicodeRune
    ensures LexLess(b.start, b.end)
    ensures RangeBounds(Some(b.start), Some(b.end)) == b
  {
    var p := NormalizeBound(prefix);
    ExtensionIsGreater(p, MaxUnicodeRune);
    Bounds(p, p + MaxUnicodeRune)
  }

  // ---------------------------------------------------------------------
  // Lemmas

  /** Normalizing a normalized bound changes nothing. */
  lemma NormalizeIdempotent(k: Option<String16>)
    ensures NormalizeBound(Some(NormalizeBound(k))) == NormalizeBound(k)
  {
  }

  /** `getStateByRange("", "")` and `getStateByRange(null, null)` both ask
      for the full key space. */
  lemma EmptyBoundsAreFullRange()
    ensures RangeBounds(Some([]), Some([])) == Bounds(UnspecifiedKey, UnspecifiedKey)
    ensures RangeBounds(None, None) == Bounds(UnspecifiedKey, UnspecifiedKey)
  {
  }
}
