/** Java strings as sequences of UTF-16 code units, with the two pieces of
    `java.lang.String` behaviour the stub relies on: `trim()` and the
    lexicographic order of `compareTo`. */
module Utf16 {

  import opened Wrappers

  newtype unit16 = u: int | 0 <= u < 0x1_0000

  type String16 = seq<unit16>

  /** `trim()` strips every code unit up to and including the space. */
  const Space: unit16 := 0x20

  const Slash: String16 := [0x2F]

  /** What string concatenation renders for a `null` reference. */
  const NullText: String16 := [0x6E, 0x75, 0x6C, 0x6C]

  /** Nothing but spaces and control units: what `trim()` empties. */
  predicate IsBlank(s: String16) {
    forall i :: 0 <= i < |s| ==> s[i] <= Space
  }

  /** `s` with its leading blank units removed. */
  function TrimStart(s: String16): (r: String16)
    ensures |r| <= |s| && r == s[|s| - |r|..]
    ensures IsBlank(s[..|s| - |r|])
    ensures r == [] || r[0] > Space
  {
    if |s| > 0 && s[0] <= Space then TrimStart(s[1..]) else s
  }

  /** `s` with its trailing blank units removed. */
  function TrimEnd(s: String16): (r: String16)
    ensures |r| <= |s| && r == s[..|r|]
    ensures IsBlank(s[|r|..])
    ensures r == [] || r[|r| - 1] > Space
  {
    if |s| > 0 && s[|s| - 1] <= Space then TrimEnd(s[..|s| - 1]) else s
  }

  /** `String.trim()`: `TrimStart` and then `TrimEnd`, each of which states
      what it drops. Of the result, the stub only asks whether it is empty,
      which happens exactly when the whole string is blank; otherwise it
      starts and ends with a non-blank unit. */
  function Trim(s: String16): (r: String16)
    ensures |r| <= |s|
    ensures r == [] || (r[0] > Space && r[|r| - 1] > Space)
    ensures r == [] <==> IsBlank(s)
  {
    TrimEmptyIffBlank(s);
    TrimEnd(TrimStart(s))
  }

  lemma TrimEmptyIffBlank(s: String16)
    ensures TrimEnd(TrimStart(s)) == [] <==> IsBlank(s)
    ensures TrimEnd(TrimStart(s)) == [] || TrimEnd(TrimStart(s))[0] > Space
  {
    var t := TrimStart(s);
    var r := TrimEnd(t);
    if t != [] {
      assert t[0] > Space;
      if r != [] {
        assert r[0] == t[0];
      }
      assert s[|s| - |t|] == t[0];
    } else {
      assert s[..|s| - |t|] == s;
    }
  }

  /** Java's `+` on strings, where a `null` operand prints as "null". */
  function Render(s: Option<String16>): (r: String16)
    ensures s.Some? ==> r == s.value
    ensures s.None? ==> r == NullText
  {
    match s
    case Some(v) => v
    case None => NullText
  }

  /** `a.compareTo(b) < 0`: the first differing code unit decides, and a
      proper prefix sorts first. */
  predicate LexLess(a: String16, b: String16)
    decreases |a|
  {
    if |a| == 0 then |b| > 0
    else if |b| == 0 then false
    else if a[0] != b[0] then a[0] < b[0]
    else LexLess(a[1..], b[1..])
  }

  /** A string sorts strictly before every proper extension of itself. */
  lemma {:induction false} ExtensionIsGreater(a: String16, ext: String16)
    requires |ext| > 0
    ensures LexLess(a, a + ext)
    decreases |a|
  {
    if |a| > 0 {
      assert (a + ext)[0] == a[0];
      assert (a + ext)[1..] == a[1..] + ext;
      ExtensionIsGreater(a[1..], ext);
    }
  }
}
