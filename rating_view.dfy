/**
 * The star-rating widget: a row of star views whose images follow the
 * rating, laid out across the view, and the touch handling that lets the
 * user set the rating.
 */
module RatingViews {
  import opened RatingRender
  import opened RatingLayout
  import opened RatingHitTest

  datatype Option<T> = None | Some(value: T)

  class RatingView {
    /** Total number of stars. */
    var starCount: nat
    /** Current rating; assigning it goes through SetRating. */
    var rating: real
    /** When false only whole stars are lit by touch. */
    var halfStarsAllowed: bool
    /** When false touches are ignored. */
    var editable: bool
    /** Whether a delegate is registered to hear about finished touches. */
    var hasDelegate: bool

    /** Sizes of the off, on and half star images. */
    const offSize: Size
    const onSize: Size
    const halfSize: Size

    /** The image each star view shows, and each star view's frame. */
    const images: array<Image>
    const frames: array<Frame>

    /** One image and one frame per star, and a rating no larger than the star count. */
    ghost predicate Valid()
      reads this
    {
      images.Length == starCount && frames.Length == starCount && rating <= starCount as real
    }

    function SizeOf(img: Image): Size
      reads this
    {
      match img
      case Off => offSize
      case On => onSize
      case Half => halfSize
    }

    /**
     * A widget of the given size with n stars, rating 0, half stars allowed,
     * editable and without a delegate: every star starts with the off image
     * and is laid out across the view.
     */
    constructor (n: nat, width: real, height: real, offSize: Size, onSize: Size, halfSize: Size)
      ensures Valid() && fresh(images) && fresh(frames)
      ensures starCount == n && rating == 0.0
      ensures halfStarsAllowed && editable && !hasDelegate
      ensures this.offSize == offSize && this.onSize == onSize && this.halfSize == halfSize
      ensures images[..] == Render(0.0, n)
      ensures frames[..] == LaidOut(n, width, height, offSize)
    {
      starCount := n;
      rating := 0.0;
      halfStarsAllowed := true;
      editable := true;
      hasDelegate := false;
      this.offSize := offSize;
      this.onSize := onSize;
      this.halfSize := halfSize;
      var initial := Frame(offSize.width / 2.0, offSize.height / 2.0, offSize.width, offSize.height);
      images := new Image[n];
      frames := new Frame[n](_ => initial);
      new;
      var i := 1;
      while i <= n
        modifies images
        invariant 1 <= i <= n + 1
        invariant forall k :: 0 <= k < i - 1 ==> images[k] == Off
      {
        images[i - 1] := Off;
        i := i + 1;
      }
      LayoutStars(width, height);
      UpdateRating();
    }

    /**
     * Lays the stars out across a view of the given width and height, each
     * with the size of the image the first star shows. Without stars there
     * is nothing to lay out.
     */
    method LayoutStars(boundsWidth: real, frameHeight: real)
      requires Valid()
      modifies frames
      ensures images.Length > 0 ==> frames[..] == LaidOut(starCount, boundsWidth, frameHeight, SizeOf(images[0]))
    {
      if images.Length == 0 {
        return;
      }
      var icon := SizeOf(images[0]);
      var halfWidth := icon.width / 2.0;
      var distance := (boundsWidth - icon.width * starCount as real) / (starCount as real + 1.0) + halfWidth;
      var index := 0;
      while index < frames.Length
        invariant 0 <= index <= frames.Length
        invariant forall k :: 0 <= k < index ==>
          frames[k] == LaidOut(starCount, boundsWidth, frameHeight, icon)[k]
      {
        frames[index] := Frame((index as real + 1.0) * distance + halfWidth * index as real,
                               frameHeight / 2.0, icon.width, icon.height);
        index := index + 1;
      }
    }

    /**
     * Repaints every star for the current rating: lit up to the whole part,
     * then a half star when the fractional part is at least one half, then
     * unlit. The result does not depend on what the stars showed before.
     */
    method UpdateRating()
      requires Valid()
      modifies images
      ensures images[..] == Render(rating, starCount)
    {
      if images.Length == 0 {
        return;
      }
      var i := 1;
      while i <= Trunc(rating)
        invariant 1 <= i <= (if Trunc(rating) >= 1 then Trunc(rating) + 1 else 1)
        invariant forall k :: 0 <= k < i - 1 ==> images[k] == StarImage(rating, k)
      {
        images[i - 1] := On;
        i := i + 1;
      }
      if i > starCount {
        assert images[..] == Render(rating, starCount);
        return;
      }
      if rating - i as real + 1.0 >= 0.5 {
        images[i - 1] := Half;
        i := i + 1;
      }
      while i <= starCount
        invariant 1 <= i <= starCount + 1
        invariant forall k :: 0 <= k < i - 1 ==> images[k] == StarImage(rating, k)
        invariant forall k :: i - 1 <= k < starCount ==> StarImage(rating, k) == Off
      {
        images[i - 1] := Off;
        i := i + 1;
      }
      assert images[..] == Render(rating, starCount);
    }

    /** Assigns the rating, clamped from above (only) to the star count, and repaints. */
    method SetRating(v: real)
      requires Valid()
      modifies this`rating, images
      ensures Valid()
      ensures rating == if v <= starCount as real then v else starCount as real
      ensures images[..] == Render(rating, starCount)
    {
      rating := if starCount as real <= v then starCount as real else v;
      UpdateRating();
    }

    /**
     * Resolves a touch at x to a rating by scanning the stars from the last
     * to the first, assigns it and repaints; the stars then show exactly the
     * resolved rating.
     */
    method HandleTouches(x: real)
      requires Valid()
      modifies this`rating, images
      ensures Valid()
      ensures rating == Resolve(x, frames[..], halfStarsAllowed)
      ensures images[..] == Render(rating, starCount) && Value(images[..]) == rating
    {
      ResolveRendersExactly(x, frames[..], halfStarsAllowed);
      var i := starCount - 1;
      assert frames[..i + 1] == frames[..];
      while i >= 0
        invariant -1 <= i < starCount
        invariant Resolve(x, frames[..], halfStarsAllowed) == Resolve(x, frames[..i + 1], halfStarsAllowed)
      {
        var star := frames[i];
        if x >= star.centerX {
          SetRating(i as real + 1.0);
          return;
        } else if x >= star.MinX() && halfStarsAllowed {
          SetRating(i as real + 0.5);
          return;
        }
        assert frames[..i + 1][..i] == frames[..i];
        i := i - 1;
      }
      SetRating(0.0);
    }

    /** Touch began: ignored unless editable, otherwise the rating follows the touch. */
    method TouchesBegan(x: real)
      requires Valid()
      modifies this`rating, images
      ensures Valid()
      ensures !editable ==> rating == old(rating) && images[..] == old(images[..])
      ensures editable ==> rating == Resolve(x, frames[..], halfStarsAllowed)
                           && images[..] == Render(rating, starCount)
    {
      if !editable {
        return;
      }
      HandleTouches(x);
    }

    /** Touch moved: ignored unless editable, otherwise the rating follows the touch. */
    method TouchesMoved(x: real)
      requires Valid()
      modifies this`rating, images
      ensures Valid()
      ensures !editable ==> rating == old(rating) && images[..] == old(images[..])
      ensures editable ==> rating == Resolve(x, frames[..], halfStarsAllowed)
                           && images[..] == Render(rating, starCount)
    {
      if !editable {
        return;
      }
      HandleTouches(x);
    }

    /**
     * Touch ended: ignored unless editable; otherwise the rating is resolved
     * from the end location and then, when a delegate is set, the new rating
     * is the notification returned.
     */
    method TouchesEnded(x: real) returns (notification: Option<real>)
      requires Valid()
      modifies this`rating, images
      ensures Valid()
      ensures !editable ==> rating == old(rating) && images[..] == old(images[..]) && notification == None
      ensures editable ==> rating == Resolve(x, frames[..], halfStarsAllowed)
                           && images[..] == Render(rating, starCount)
      ensures notification == if editable && hasDelegate then Some(rating) else None
    {
      if !editable {
        return None;
      }
      HandleTouches(x);
      if !hasDelegate {
        return None;
      }
      return Some(rating);
    }
  }

  /**
   * Resolving the same touch twice with no layout in between gives the same
   * rating both times: the rating a touch resolves to depends on the frames
   * only, and resolving it does not move them.
   */
  method RepeatTouch(view: RatingView, x: real) returns (first: real, second: real)
    requires view.Valid()
    modifies view`rating, view.images
    ensures view.Valid()
    ensures first == second == view.rating == Resolve(x, view.frames[..], view.halfStarsAllowed)
  {
    view.HandleTouches(x);
    first := view.rating;
    view.HandleTouches(x);
    second := view.rating;
  }
}
