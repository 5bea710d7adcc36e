/**
 * The two JavaScript string operations the scan handlers use,
 * `String.prototype.slice` and `String.prototype.substring`, with their
 * clamping of out-of-range positions. A JavaScript string is modelled as a
 * sequence of Unicode scalar values, which matches its UTF-16 code units for
 * text inside the Basic Multilingual Plane.
 */
module JsString {

  function Min(a: int, b: int): (m: int) { if a <= b then a else b }
  function Max(a: int, b: int): (m: int) { if a <= b then b else a }

  /** A `slice` argument made absolute: negative counts from the end, then clamped to [0, len]. */
  function SliceIndex(rel: int, len: nat): (k: nat)
    ensures k <= len
    ensures 0 <= rel ==> k == Min(rel, len)
  {
    if rel < 0 then Max(len + rel, 0) else Min(rel, len)
  }

  /** `s.slice(start, end)`: empty when the clamped start is not before the clamped end. */
  function Slice(s: string, start: int, end: int): (r: string)
    ensures |r| <= |s|
    ensures 0 <= start && 0 <= end ==>
      r == s[Min(start, |s|)..Max(Min(start, |s|), Min(end, |s|))]
  {
    var from := SliceIndex(start, |s|);
    var to := SliceIndex(end, |s|);
    if from < to then s[from..to] else ""
  }

  /** `s.slice(start)`: the end defaults to the length. */
  function SliceFrom(s: string, start: int): (r: string)
    ensures 0 <= start ==> r == s[Min(start, |s|)..]
  {
    Slice(s, start, |s|)
  }

  /** `s.substring(start, end)`: both clamped to [0, len], then taken in increasing order. */
  function Substring(s: string, start: int, end: int): (r: string)
    ensures 0 <= start <= end ==> r == s[Min(start, |s|)..Min(end, |s|)]
  {
    var a := Min(Max(start, 0), |s|);
    var b := Min(Max(end, 0), |s|);
    s[Min(a, b)..Max(a, b)]
  }

  /** `s.substring(start)`: the end defaults to the length. */
  function SubstringFrom(s: string, start: int): (r: string)
    ensures 0 <= start ==> r == s[Min(start, |s|)..]
  {
    Substring(s, start, |s|)
  }
}
