# StarryStars rating view in Dafny

A model of `RatingView`, the star-rating control of StarryStars. It shows a
row of `starCount` star views. Each view shows an off, half or on image that
follows the current `rating`. The views are laid out across the control with
equal gaps. A touch is turned into a rating of 0, k or k + 0.5 by scanning
the stars from right to left. When a touch ends, the delegate hears the new
rating.

The model has four modules:

- `RatingRender` (`rating_render.dfy`): the star images as an enum, the
  reference picture `Render(rating, n)` that `updateRating` must paint,
  and `Value`, the rating a row of images depicts, with lemmas about both.
- `RatingLayout` (`rating_layout.dfy`): star frames as real-valued
  rectangles, the closed-form center formula of `layoutStars` and its
  spacing, symmetry and ordering lemmas.
- `RatingHitTest` (`rating_hit_test.dfy`): `Resolve`, the rating a touch
  at x gives. Lemmas characterise it by the last star the touch reaches
  and apply it to the layout the control draws.
- `RatingViews` (`rating_view.dfy`): the class `RatingView`. Its fields are
  `starCount`, `rating`, `halfStarsAllowed`, `editable` and `hasDelegate`,
  with one `array<Image>` of star images and one `array<Frame>` of star
  frames. The rating setter, `updateRating`, `handleTouches`, `layoutStars`,
  the construction and the three touch handlers are methods, each proved
  against the functions above. The constructor, `LayoutStars`,
  `UpdateRating` and `HandleTouches` carry the source's loops.

`Float` and `CGFloat` are Dafny `real`s, so every formula holds exactly.
Swift's `Int(rating)` truncates toward zero; the model writes that out as
`Trunc`. The view's width and height, the touch's x coordinate and the
presence of a delegate are inputs. The delegate call is the optional value
`TouchesEnded` returns.

Where the code and the design description differ, the model follows the code:

- The setter clamps the rating from above only. A negative rating stays
  negative and renders as all stars off.
- The renderer does not look at `halfStarsAllowed`. A rating such as 2.7
  set from code shows a half star even when half stars are not allowed.
  Only touch resolution honours the flag.
- The margin before the first star and the margin after the last star each
  equal the gap between neighbouring frames, (W − n·iw)/(n + 1).
- The icon size used by the layout is the size of the image the first star
  shows at that moment. That is the off image only while the first star is
  off.
- Resolving the same touch twice gives the same rating as long as the stars
  are not laid out again in between (`RepeatTouch`). A relayout after the
  first star was lit takes the on image's size. When that differs from the
  off image's size, the same touch can resolve differently
  (`RelayoutCanChangeResolve`).

## Model

| member | source | states |
|---|---|---|
| RatingRender.Trunc | StarryStars/RatingView.swift:193 | `Int(rating)` truncates toward zero: the result is within one of x, on x's side of zero |
| RatingRender.RenderCounts | StarryStars/RatingView.swift:191-214 | the painted row has exactly floor(rating) lit stars (clipped to 0..n), one half star iff the fractional part is at least 0.5 and a star is left for it, every other star off |
| RatingRender.RenderValue | StarryStars/RatingView.swift:191-214 | for 0 ≤ rating ≤ n the row depicts the rating rounded down to a half star, and exactly the rating when it is a whole number of half stars |
| RatingRender.RenderFull | StarryStars/RatingView.swift:193-201 | rating == starCount lights every star and shows no half star (the early return) |
| RatingRender.RenderBelowHalf | StarryStars/RatingView.swift:192-214 | any rating below 0.5, negative ones included, leaves every star off |
| RatingLayout.StarCenterX | StarryStars/RatingView.swift:142-149 | the center formula of the layout: the left edge of star k lies k + 1 gaps and k icon widths from the view's left edge |
| RatingLayout.CenterDifference | StarryStars/RatingView.swift:143-149 | star centers are evenly spaced: centers j and k differ by (j − k)·(gap + icon width) |
| RatingLayout.LayoutSpacing | StarryStars/RatingView.swift:137-152 | every frame has the icon's size and y = height/2; the left margin, every gap between neighbours and the right margin all equal (W − n·iw)/(n + 1) |
| RatingLayout.LayoutSymmetric | StarryStars/RatingView.swift:143-149 | centers k and n−1−k add up to the view width: the row is symmetric about the midpoint |
| RatingLayout.LayoutOrdered | StarryStars/RatingView.swift:143-149 | when the icons fit the width, frames do not overlap, and with a positive icon width the centers strictly increase |
| RatingHitTest.Resolve | StarryStars/RatingView.swift:162-179 | the resolved rating lies in [0, starCount] and is a whole number of half stars, and a whole number when half stars are not allowed |
| RatingHitTest.ResolveLastReached | StarryStars/RatingView.swift:162-179 | if star k is reached and no later star is, the rating is k + 1 when x ≥ center (equality counts as full) and k + 0.5 otherwise |
| RatingHitTest.ResolveNoneReached | StarryStars/RatingView.swift:162-179 | a touch that reaches no star resolves to 0 |
| RatingHitTest.ResolveReachedStar | StarryStars/RatingView.swift:162-179 | conversely, rating 0 iff no star is reached, and a positive rating names the last star reached |
| RatingHitTest.ResolveRendersExactly | StarryStars/RatingView.swift:158-214 | a resolved rating, once painted, is depicted exactly by the stars |
| RatingHitTest.TouchAtCenter | StarryStars/RatingView.swift:143-171 | on the drawn layout a touch at the center of star k gives k + 1 |
| RatingHitTest.RelayoutCanChangeResolve | StarryStars/RatingView.swift:137-179 | with off and on images of different widths, a touch at the first star's center gives 1, and 0 after a relayout by the on image |
| RatingHitTest.TouchLeftOfCenter | StarryStars/RatingView.swift:143-175 | on the drawn layout a touch between star k's left edge and its center gives k + 0.5 with half stars and falls through to k without |
| RatingViews.RatingView.constructor | StarryStars/RatingView.swift:92-123 | builds starCount star views, all off, lays them out with the off image's size and paints rating 0 |
| RatingViews.RatingView.LayoutStars | StarryStars/RatingView.swift:137-153 | every frame becomes the closed-form layout for the size of the image the first star shows |
| RatingViews.RatingView.UpdateRating | StarryStars/RatingView.swift:185-215 | with two counting loops and the half-star step between them, every star is repainted to the reference picture for the current rating, whatever it showed before |
| RatingViews.RatingView.SetRating | StarryStars/RatingView.swift:39-46 | the rating becomes min(v, starCount), with no lower clamp, and the stars are repainted for it |
| RatingViews.RatingView.HandleTouches | StarryStars/RatingView.swift:158-180 | the right-to-left scan assigns exactly Resolve(x) and the stars then depict that rating exactly |
| RatingViews.RepeatTouch | StarryStars/RatingView.swift:158-180 | handling the same touch twice with no relayout in between yields the same rating, which is Resolve(x) |
| RatingViews.RatingView.TouchesBegan | StarryStars/RatingView.swift:221-224 | not editable: rating and stars unchanged; editable: the rating follows the touch |
| RatingViews.RatingView.TouchesMoved | StarryStars/RatingView.swift:226-229 | not editable: rating and stars unchanged; editable: the rating follows the touch |
| RatingViews.RatingView.TouchesEnded | StarryStars/RatingView.swift:231-236 | not editable: nothing changes and nothing is notified; editable: the rating is re-resolved from the end location, then notified iff a delegate is set |

## Left out

- UIKit plumbing: creating `UIImageView`s and `addSubview`, image lookup by name in the bundle and the `offImage` assert (RatingView.swift:93-109). Images are enum tags and frames are real numbers. Missing image assets are not modelled: every star always has an image.
- Interface Builder hooks `init(coder:)`, `awakeFromNib` and `prepareForInterfaceBuilder` (RatingView.swift:76-90). A second `customInit` run would append a second set of stars; the model builds the stars once, in the constructor.
- `layoutSubviews` (RatingView.swift:125-129): it only calls `layoutStars`, which `LayoutStars` models with the view size as parameters.
- Right-to-left mirroring through `semanticContentAttribute` and a negative x scale transform (RatingView.swift:59-68, 131-135). It is a display transform, and touch locations are already in unmirrored local coordinates.
- The unused `FillDirection` enum (RatingView.swift:239-245).
- IEEE `Float`/`CGFloat` rounding, NaN, and the trap `Int(rating)` raises for values out of `Int` range: arithmetic is on exact reals.
- `touches.first!` and `UITouch.location(in:)`: the touch is its x coordinate.
- The weak `delegate` reference: it is a flag, and the call becomes the value `TouchesEnded` returns.
- Changing `starCount` after construction: `Valid()` requires one star view per star, and the source would index past its star array otherwise. `starCount` is a `nat`. A negative count, which builds no stars, is not modelled.
- Cancelled touches: the source has no `touchesCancelled` handler, so there is nothing to model.
- StarryStarsExample/ViewController.swift: a demo host application.
