/**
 * What the row of stars shows for a given rating: the reference definition
 * of the picture `updateRating` paints, and what that picture is worth.
 */
module RatingRender {

  /** The image a star view shows: the unlit, half-lit or fully lit star. */
  datatype Image = Off | Half | On

  /** Swift's `Int(_:)` applied to a floating-point value: truncation toward zero. */
  function Trunc(x: real): (t: int)
    ensures 0.0 <= x ==> t as real <= x < t as real + 1.0
    ensures x < 0.0 ==> t as real - 1.0 < x <= t as real
  {
    if x >= 0.0 then x.Floor else -((-x).Floor)
  }

  /** A rating the widget can reach by touch: a whole number of half stars. */
  predicate IsHalfStep(r: real) {
    (2.0 * r).Floor as real == 2.0 * r
  }

  /** A whole number of stars. */
  predicate IsWhole(r: real) {
    r.Floor as real == r
  }

  /**
   * The image of the star at 0-based index k for the given rating: the first
   * floor(rating) stars are lit, the next one is half-lit when the fractional
   * part is at least one half, and every other star is unlit.
   */
  function StarImage(rating: real, k: int): (img: Image) {
    if k < rating.Floor then On
    else if k == rating.Floor && rating - rating.Floor as real >= 0.5 then Half
    else Off
  }

  /** The images of all n stars for the given rating. */
  function Render(rating: real, n: nat): (row: seq<Image>) {
    seq(n, k => StarImage(rating, k))
  }

  /** Number of stars in s showing img. */
  function Count(s: seq<Image>, img: Image): (c: nat) {
    if s == [] then 0
    else Count(s[..|s| - 1], img) + (if s[|s| - 1] == img then 1 else 0)
  }

  /** The rating a row of star images depicts: one per lit star, one half per half-lit star. */
  function Value(s: seq<Image>): (v: real) {
    Count(s, On) as real + 0.5 * Count(s, Half) as real
  }

  lemma CountSnoc(s: seq<Image>, x: Image, img: Image)
    ensures Count(s + [x], img) == Count(s, img) + (if x == img then 1 else 0)
  {
  }

  lemma RenderSnoc(rating: real, n: nat)
    requires n > 0
    ensures Render(rating, n) == Render(rating, n - 1) + [StarImage(rating, n - 1)]
  {
  }

  /**
   * The rendered row has exactly floor(rating) lit stars (clipped to 0..n),
   * one half-lit star when the fractional part is at least one half and a
   * star is left for it, and every other star unlit.
   */
  lemma {:induction false} RenderCounts(rating: real, n: nat)
    ensures Count(Render(rating, n), On) ==
      if rating.Floor <= 0 then 0 else if rating.Floor >= n then n else rating.Floor
    ensures Count(Render(rating, n), Half) ==
      if 0 <= rating.Floor < n && rating - rating.Floor as real >= 0.5 then 1 else 0
    ensures Count(Render(rating, n), Off) ==
      n - Count(Render(rating, n), On) - Count(Render(rating, n), Half)
  {
    if n > 0 {
      RenderCounts(rating, n - 1);
      RenderSnoc(rating, n);
      CountSnoc(Render(rating, n - 1), StarImage(rating, n - 1), On);
      CountSnoc(Render(rating, n - 1), StarImage(rating, n - 1), Half);
      CountSnoc(Render(rating, n - 1), StarImage(rating, n - 1), Off);
    }
  }

  /**
   * For a rating in 0..n the row depicts the rating rounded down to a half
   * star; a rating that already is a whole number of half stars is depicted
   * exactly.
   */
  lemma RenderValue(rating: real, n: nat)
    requires 0.0 <= rating <= n as real
    ensures Value(Render(rating, n)) == (2.0 * rating).Floor as real / 2.0
    ensures IsHalfStep(rating) ==> Value(Render(rating, n)) == rating
  {
    RenderCounts(rating, n);
    var f := rating.Floor;
    if rating - f as real >= 0.5 {
      assert (2.0 * rating).Floor == 2 * f + 1;
    } else {
      assert (2.0 * rating).Floor == 2 * f;
    }
  }

  /** A rating equal to the star count lights every star and shows no half star. */
  lemma RenderFull(n: nat)
    ensures var s := Render(n as real, n); forall k :: 0 <= k < |s| ==> s[k] == On
    ensures Count(Render(n as real, n), On) == n && Count(Render(n as real, n), Half) == 0
  {
    RenderCounts(n as real, n);
  }

  /** A rating below one half, negative ones included, leaves every star unlit. */
  lemma RenderBelowHalf(rating: real, n: nat)
    requires rating < 0.5
    ensures forall k :: 0 <= k < n ==> Render(rating, n)[k] == Off
    ensures Value(Render(rating, n)) == 0.0
  {
    RenderCounts(rating, n);
  }
}
