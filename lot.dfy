/**
 * `formatLot` (src/App.tsx): punctuates a raw lot number into groups of
 * 7, 8 and the rest characters separated by '.', and leaves the empty lot
 * empty. Its inverse removes the two separators again by position.
 */
module Lot {
  import opened JsString

  const Separator: char := '.'

  function FormatLot(codigo: string): (r: string)
    ensures codigo == "" ==> r == ""
    ensures codigo != "" ==> |r| == |codigo| + 2
    ensures codigo != "" ==> r[Min(7, |codigo|)] == Separator && r[Min(15, |codigo|) + 1] == Separator
  {
    if |codigo| == 0 then ""
    else
      var part1 := Slice(codigo, 0, 7);
      var part2 := Slice(codigo, 7, 15);
      var part3 := SliceFrom(codigo, 15);
      part1 + [Separator] + part2 + [Separator] + part3
  }

  /** Where the two separators of a formatted lot of total length `n + 2` stand. */
  function FirstDot(n: nat): (k: nat) { Min(7, n) }
  function SecondDot(n: nat): (k: nat) { Min(15, n) + 1 }

  /** Removes the characters at the two separator positions; the partner of FormatLot. */
  function UnformatLot(f: string): (s: string)
    ensures |f| >= 2 ==> |s| == |f| - 2
  {
    if |f| < 2 then ""
    else
      var n := |f| - 2;
      f[..FirstDot(n)] + f[FirstDot(n) + 1..SecondDot(n)] + f[SecondDot(n) + 1..]
  }

  /** The strings FormatLot can produce: empty, or carrying '.' at both separator positions. */
  predicate IsFormattedLot(f: string)
  {
    f == "" || (|f| >= 3 && f[FirstDot(|f| - 2)] == Separator && f[SecondDot(|f| - 2)] == Separator)
  }

  /** A non-empty lot is the three groups of 7, 8 and the remaining characters, joined by '.'. */
  lemma FormatLotGroups(s: string)
    requires s != ""
    ensures FormatLot(s) == s[..Min(7, |s|)] + "." + s[Min(7, |s|)..Min(15, |s|)] + "." + s[Min(15, |s|)..]
  {
  }

  /** A lot made of a 7- and an 8-character group and a rest formats to those groups joined by '.'. */
  lemma {:induction false} FormatOfGroups(g1: string, g2: string, g3: string)
    requires |g1| == 7 && |g2| == 8
    ensures FormatLot(g1 + g2 + g3) == g1 + "." + g2 + "." + g3
  {
    var s := g1 + g2 + g3;
    FormatLotGroups(s);
    assert s[..7] == g1;
    assert s[7..15] == g2;
    assert s[15..] == g3;
  }

  /** Removing the two inserted separators gives back the raw lot. */
  lemma {:induction false} UnformatFormat(s: string)
    ensures UnformatLot(FormatLot(s)) == s
  {
    if s != "" {
      var n := |s|;
      var f := FormatLot(s);
      FormatLotGroups(s);
      assert f[..FirstDot(n)] == s[..Min(7, n)];
      assert f[FirstDot(n) + 1..SecondDot(n)] == s[Min(7, n)..Min(15, n)];
      assert f[SecondDot(n) + 1..] == s[Min(15, n)..];
      SplitThree(s, Min(7, n), Min(15, n));
    }
  }

  /** Every formatted lot is the formatting of exactly the lot obtained by removing its separators. */
  lemma {:induction false} FormatUnformat(f: string)
    requires IsFormattedLot(f)
    ensures FormatLot(UnformatLot(f)) == f
  {
    if f != "" {
      var n := |f| - 2;
      var s := UnformatLot(f);
      assert |s| == n && s != "";
      FormatLotGroups(s);
      assert s[..Min(7, n)] == f[..FirstDot(n)];
      assert s[Min(7, n)..Min(15, n)] == f[FirstDot(n) + 1..SecondDot(n)];
      assert s[Min(15, n)..] == f[SecondDot(n) + 1..];
      assert f == f[..FirstDot(n)] + [f[FirstDot(n)]] + f[FirstDot(n) + 1..SecondDot(n)]
                 + [f[SecondDot(n)]] + f[SecondDot(n) + 1..];
    }
  }

  /** FormatLot only produces formatted lots. */
  lemma FormatLotIsFormatted(s: string)
    ensures IsFormattedLot(FormatLot(s))
  {
  }

  /** Different lots format differently. */
  lemma FormatLotInjective(s: string, t: string)
    requires FormatLot(s) == FormatLot(t)
    ensures s == t
  {
    UnformatFormat(s);
    UnformatFormat(t);
  }

  /** Number of occurrences of `c` in `s`. */
  function Count(s: string, c: char): (k: nat)
    ensures k <= |s|
  {
    if s == [] then 0 else (if s[0] == c then 1 else 0) + Count(s[1..], c)
  }

  lemma {:induction false} CountConcat(a: string, b: string, c: char)
    ensures Count(a + b, c) == Count(a, c) + Count(b, c)
  {
    if a != [] {
      assert (a + b)[1..] == a[1..] + b;
      CountConcat(a[1..], b, c);
    } else {
      assert a + b == b;
    }
  }

  /** A string is its slices at `p` and `q` joined. */
  lemma SplitThree(s: string, p: nat, q: nat)
    requires p <= q <= |s|
    ensures s == s[..p] + s[p..q] + s[q..]
  {
    assert s[..q] == s[..p] + s[p..q];
    assert s == s[..q] + s[q..];
  }

  /** Formatting adds exactly two separators to the ones already in a non-empty lot. */
  lemma {:induction false} FormatLotAddsTwoSeparators(s: string)
    requires s != ""
    ensures Count(FormatLot(s), Separator) == Count(s, Separator) + 2
  {
    var n := |s|;
    var p, q := Min(7, n), Min(15, n);
    var g1, g2, g3 := s[..p], s[p..q], s[q..];
    var dot := [Separator];
    FormatLotGroups(s);
    assert FormatLot(s) == g1 + dot + g2 + dot + g3;
    CountConcat(g1 + dot + g2 + dot, g3, Separator);
    CountConcat(g1 + dot + g2, dot, Separator);
    CountConcat(g1 + dot, g2, Separator);
    CountConcat(g1, dot, Separator);
    assert Count(dot, Separator) == 1;
    SplitThree(s, p, q);
    CountConcat(g1 + g2, g3, Separator);
    CountConcat(g1, g2, Separator);
  }

  /**
   * A full 18-character lot is split into groups of exactly 7, 8 and 3
   * characters; when the lot holds no '.' itself, those are the only two
   * separators of the result.
   */
  lemma EighteenCharacterLot(s: string)
    requires |s| == 18
    ensures var r := FormatLot(s);
      |r| == 20 && r[7] == Separator && r[16] == Separator &&
      r[..7] == s[..7] && r[8..16] == s[7..15] && r[17..] == s[15..] &&
      (Separator !in s ==> forall i :: 0 <= i < |r| && r[i] == Separator ==> i == 7 || i == 16)
  {
    var r := FormatLot(s);
    FormatLotGroups(s);
    assert r == s[..7] + "." + s[7..15] + "." + s[15..];
  }
}
