/**
 * Where `layoutStars` puts the star views: n equal frames spread across the
 * view's width with one closed-form spacing.
 */
module RatingLayout {

  /** Width and height of a star image. */
  datatype Size = Size(width: real, height: real)

  /** A star view's frame, given by its center and its size. */
  datatype Frame = Frame(centerX: real, centerY: real, width: real, height: real) {
    function MinX(): real { centerX - width / 2.0 }
    function MaxX(): real { centerX + width / 2.0 }
  }

  /** Distance from one star center to the next, less half an icon: `distance` in the layout. */
  function Distance(boundsWidth: real, iconWidth: real, n: nat): (d: real) {
    (boundsWidth - iconWidth * n as real) / (n as real + 1.0) + iconWidth / 2.0
  }

  /**
   * Center x of the star at 0-based index k: its left edge lies k icons and
   * k + 1 gaps from the view's left edge.
   */
  function StarCenterX(k: nat, n: nat, boundsWidth: real, iconWidth: real): (x: real)
    ensures x - iconWidth / 2.0 == (k as real + 1.0) * Gap(boundsWidth, iconWidth, n) + iconWidth * k as real
  {
    (k as real + 1.0) * Distance(boundsWidth, iconWidth, n) + iconWidth / 2.0 * k as real
  }

  /** The frames of all n stars laid out across a view of the given width and height. */
  function LaidOut(n: nat, boundsWidth: real, frameHeight: real, icon: Size): (fs: seq<Frame>) {
    seq(n, k requires 0 <= k => Frame(StarCenterX(k, n, boundsWidth, icon.width), frameHeight / 2.0,
                                      icon.width, icon.height))
  }

  /** The free width shared out equally among the n + 1 gaps around the stars. */
  function Gap(boundsWidth: real, iconWidth: real, n: nat): (g: real) {
    (boundsWidth - iconWidth * n as real) / (n as real + 1.0)
  }

  /**
   * Every star gets the icon's size and sits at half the view's height; the
   * margin before the first star, every gap between neighbours and the margin
   * after the last star all equal (width - n * iconWidth) / (n + 1).
   */
  lemma LayoutSpacing(n: nat, boundsWidth: real, frameHeight: real, icon: Size)
    requires n > 0
    ensures var fs := LaidOut(n, boundsWidth, frameHeight, icon);
      var g := Gap(boundsWidth, icon.width, n);
      && (forall k :: 0 <= k < n ==> fs[k].width == icon.width && fs[k].height == icon.height
                                     && fs[k].centerY == frameHeight / 2.0)
      && fs[0].MinX() == g
      && (forall k :: 0 <= k < n - 1 ==> fs[k + 1].MinX() - fs[k].MaxX() == g)
      && boundsWidth - fs[n - 1].MaxX() == g
  {
  }

  /** The row is symmetric about the view's horizontal midpoint. */
  lemma LayoutSymmetric(n: nat, boundsWidth: real, iconWidth: real, k: nat)
    requires k < n
    ensures StarCenterX(k, n, boundsWidth, iconWidth) + StarCenterX(n - 1 - k, n, boundsWidth, iconWidth)
      == boundsWidth
  {
  }

  /** Star centers advance by one gap plus one icon width from each star to the next. */
  lemma CenterDifference(j: nat, k: nat, n: nat, boundsWidth: real, iconWidth: real)
    ensures StarCenterX(j, n, boundsWidth, iconWidth) - StarCenterX(k, n, boundsWidth, iconWidth)
      == (j as real - k as real) * (Gap(boundsWidth, iconWidth, n) + iconWidth)
  {
  }

  /**
   * When the icons fit the view (n * iconWidth <= width) the frames do not
   * overlap, and with a positive icon width the centers strictly increase.
   */
  lemma LayoutOrdered(n: nat, boundsWidth: real, frameHeight: real, icon: Size, j: nat, k: nat)
    requires 0.0 <= icon.width && icon.width * n as real <= boundsWidth
    requires 0 <= j < k < n
    ensures var fs := LaidOut(n, boundsWidth, frameHeight, icon);
      fs[j].MaxX() <= fs[k].MinX() && (0.0 < icon.width ==> fs[j].centerX < fs[k].centerX)
  {
    var g := Gap(boundsWidth, icon.width, n);
    assert 0.0 <= g;
    CenterDifference(k, j, n, boundsWidth, icon.width);
    var d := k as real - j as real;
    assert 1.0 <= d;
    assert d * (g + icon.width) >= g + icon.width;
  }
}
