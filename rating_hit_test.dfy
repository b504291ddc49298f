/**
 * How `handleTouches` turns the x coordinate of a touch into a rating: the
 * stars are scanned from the last to the first and the first star the touch
 * reaches decides.
 */
module RatingHitTest {
  import opened RatingRender
  import opened RatingLayout

  /** A touch at x reaches the star with frame f: at or past its center, or past its left edge when halves count. */
  predicate Reaches(x: real, f: Frame, halfStarsAllowed: bool) {
    x >= f.centerX || (halfStarsAllowed && x >= f.MinX())
  }

  /** No star from index `from` on is reached by a touch at x. */
  predicate NoneReachedFrom(x: real, frames: seq<Frame>, halfStarsAllowed: bool, from: nat) {
    forall j :: from <= j < |frames| ==> !Reaches(x, frames[j], halfStarsAllowed)
  }

  /**
   * The rating a touch at x resolves to: i + 1 for the last star i whose
   * center x reaches, i + 0.5 when x only passes its left edge and half stars
   * are allowed, 0 when no star is reached.
   */
  function Resolve(x: real, frames: seq<Frame>, halfStarsAllowed: bool): (r: real)
    ensures 0.0 <= r <= |frames| as real
    ensures IsHalfStep(r)
    ensures !halfStarsAllowed ==> IsWhole(r)
    decreases |frames|
  {
    if frames == [] then 0.0
    else
      var i := |frames| - 1;
      if x >= frames[i].centerX then
        assert (2.0 * (i as real + 1.0)).Floor == 2 * i + 2 && (i as real + 1.0).Floor == i + 1;
        i as real + 1.0
      else if x >= frames[i].MinX() && halfStarsAllowed then
        assert (2.0 * (i as real + 0.5)).Floor == 2 * i + 1;
        i as real + 0.5
      else Resolve(x, frames[..i], halfStarsAllowed)
  }

  /**
   * Resolve is determined by the last star the touch reaches: if star k is
   * reached and no later one is, the rating is k + 1 when x is at or past
   * its center and k + 0.5 otherwise; if no star is reached it is 0.
   */
  lemma {:induction false} ResolveLastReached(x: real, frames: seq<Frame>, halfStarsAllowed: bool, k: nat)
    requires k < |frames|
    requires Reaches(x, frames[k], halfStarsAllowed)
    requires NoneReachedFrom(x, frames, halfStarsAllowed, k + 1)
    ensures Resolve(x, frames, halfStarsAllowed) ==
      if x >= frames[k].centerX then k as real + 1.0 else k as real + 0.5
    decreases |frames|
  {
    var i := |frames| - 1;
    if k < i {
      assert !Reaches(x, frames[i], halfStarsAllowed);
      var prefix := frames[..i];
      assert NoneReachedFrom(x, prefix, halfStarsAllowed, k + 1) by {
        forall j | k + 1 <= j < |prefix|
          ensures !Reaches(x, prefix[j], halfStarsAllowed)
        {
          assert prefix[j] == frames[j];
        }
      }
      ResolveLastReached(x, prefix, halfStarsAllowed, k);
    }
  }

  /** A touch that reaches no star resolves to 0. */
  lemma {:induction false} ResolveNoneReached(x: real, frames: seq<Frame>, halfStarsAllowed: bool)
    requires NoneReachedFrom(x, frames, halfStarsAllowed, 0)
    ensures Resolve(x, frames, halfStarsAllowed) == 0.0
    decreases |frames|
  {
    if frames != [] {
      var i := |frames| - 1;
      assert !Reaches(x, frames[i], halfStarsAllowed);
      var prefix := frames[..i];
      assert NoneReachedFrom(x, prefix, halfStarsAllowed, 0) by {
        forall j | 0 <= j < |prefix|
          ensures !Reaches(x, prefix[j], halfStarsAllowed)
        {
          assert prefix[j] == frames[j];
        }
      }
      ResolveNoneReached(x, prefix, halfStarsAllowed);
    }
  }

  /**
   * Conversely, a rating of 0 means no star was reached, and a positive
   * rating names the last star reached.
   */
  lemma {:induction false} ResolveReachedStar(x: real, frames: seq<Frame>, halfStarsAllowed: bool)
    ensures var r := Resolve(x, frames, halfStarsAllowed);
      (r == 0.0 <==> NoneReachedFrom(x, frames, halfStarsAllowed, 0))
      && (r > 0.0 ==> exists k :: 0 <= k < |frames| && r == k as real + (if x >= frames[k].centerX then 1.0 else 0.5)
                                 && Reaches(x, frames[k], halfStarsAllowed)
                                 && NoneReachedFrom(x, frames, halfStarsAllowed, k + 1))
    decreases |frames|
  {
    if frames != [] {
      var i := |frames| - 1;
      var prefix := frames[..i];
      if Reaches(x, frames[i], halfStarsAllowed) {
        ResolveLastReached(x, frames, halfStarsAllowed, i);
      } else {
        ResolveReachedStar(x, prefix, halfStarsAllowed);
        assert forall j :: 0 <= j < |prefix| ==> prefix[j] == frames[j];
      }
    }
  }

  /** Resolving the touch and rendering the result shows exactly the resolved rating. */
  lemma ResolveRendersExactly(x: real, frames: seq<Frame>, halfStarsAllowed: bool)
    ensures var r := Resolve(x, frames, halfStarsAllowed);
      Value(Render(r, |frames|)) == r
  {
    RenderValue(Resolve(x, frames, halfStarsAllowed), |frames|);
  }

  /**
   * On the layout the widget draws (icons that fit the view), a touch at the
   * center of star k gives k + 1 stars.
   */
  lemma TouchAtCenter(n: nat, boundsWidth: real, frameHeight: real, icon: Size, halfStarsAllowed: bool, k: nat)
    requires 0.0 < icon.width && icon.width * n as real <= boundsWidth
    requires k < n
    ensures var fs := LaidOut(n, boundsWidth, frameHeight, icon);
      Resolve(fs[k].centerX, fs, halfStarsAllowed) == k as real + 1.0
  {
    var fs := LaidOut(n, boundsWidth, frameHeight, icon);
    var x := fs[k].centerX;
    forall j | k + 1 <= j < n
      ensures !Reaches(x, fs[j], halfStarsAllowed)
    {
      LayoutOrdered(n, boundsWidth, frameHeight, icon, k, j);
    }
    ResolveLastReached(x, fs, halfStarsAllowed, k);
  }

  /**
   * On the same layout, a touch between the left edge and the center of star
   * k gives k + 0.5 when half stars are allowed and falls through to k
   * otherwise.
   */
  lemma TouchLeftOfCenter(n: nat, boundsWidth: real, frameHeight: real, icon: Size, halfStarsAllowed: bool,
                          k: nat, x: real)
    requires 0.0 < icon.width && icon.width * n as real <= boundsWidth
    requires k < n
    requires var fs := LaidOut(n, boundsWidth, frameHeight, icon); fs[k].MinX() <= x < fs[k].centerX
    ensures Resolve(x, LaidOut(n, boundsWidth, frameHeight, icon), halfStarsAllowed) ==
      if halfStarsAllowed then k as real + 0.5 else k as real
  {
    var fs := LaidOut(n, boundsWidth, frameHeight, icon);
    forall j | k + 1 <= j < n
      ensures !Reaches(x, fs[j], true)
    {
      LayoutOrdered(n, boundsWidth, frameHeight, icon, k, j);
    }
    if halfStarsAllowed {
      ResolveLastReached(x, fs, true, k);
    } else if k == 0 {
      ResolveNoneReached(x, fs, false);
    } else {
      LayoutOrdered(n, boundsWidth, frameHeight, icon, k - 1, k);
      ResolveLastReached(x, fs, false, k - 1);
    }
  }

  /**
   * Laying the stars out again can change what the same touch resolves to,
   * because the layout takes its icon size from the image the first star
   * shows. With two stars on a view 100 wide, a touch at the first center of
   * a layout with 10-wide off images gives 1; once the first star is lit and
   * the on image is 2 wide, the relayout moves that star's left edge past the
   * touch, which then gives 0.
   */
  lemma RelayoutCanChangeResolve(halfStarsAllowed: bool)
    ensures var x := LaidOut(2, 100.0, 20.0, Size(10.0, 10.0))[0].centerX;
      && Resolve(x, LaidOut(2, 100.0, 20.0, Size(10.0, 10.0)), halfStarsAllowed) == 1.0
      && Resolve(x, LaidOut(2, 100.0, 20.0, Size(2.0, 10.0)), halfStarsAllowed) == 0.0
  {
  }
}
