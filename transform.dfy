/** The arithmetic of the full-screen viewer's transform: the fit-to-screen
    scale computed when an image is opened, the zoom applied by scroll
    events, quarter-turn rotation, index navigation, panning and the
    placement of the information overlay. Scale factors and offsets are
    exact reals; the floating-point rounding of the original is not
    modelled. */
module Transform {
  import opened Basics

  /** The zoom floor and ceiling. */
  const MinScale: real := 0.1
  const MaxScale: real := 10.0
  /** One notch of the scroll wheel multiplies or divides the scale by this. */
  const ZoomStep: real := 1.1
  /** A smooth-scroll delta of `dy` is meant to multiply the scale by
      `1 + dy * SmoothZoomRate`. */
  const SmoothZoomRate: real := 0.1
  /** The margin kept around the image on open, as a fraction of the smaller
      screen side. */
  const FitPaddingRatio: real := 0.05

  function MinReal(a: real, b: real): real {
    if a <= b then a else b
  }

  // ---------------------------------------------------------------------
  // Zoom clamp
  // ---------------------------------------------------------------------

  /** The clamp applied after every scroll event: the result is always in
      [MinScale, MaxScale], a scale already in range is kept, and one
      outside it is pulled to the nearer bound. */
  function ClampScale(s: real): (r: real)
    ensures MinScale <= r <= MaxScale
    ensures MinScale <= s <= MaxScale ==> r == s
    ensures s < MinScale ==> r == MinScale
    ensures s > MaxScale ==> r == MaxScale
  {
    if s < MinScale then MinScale else if s > MaxScale then MaxScale else s
  }

  // ---------------------------------------------------------------------
  // Fit to screen on open
  // ---------------------------------------------------------------------

  /** The padding on each side: 5% of the smaller screen side. */
  function Padding(screen: Size): real {
    (if screen.width <= screen.height then screen.width else screen.height) as real * FitPaddingRatio
  }

  function SafeWidth(screen: Size): real {
    screen.width as real - 2.0 * Padding(screen)
  }

  function SafeHeight(screen: Size): real {
    screen.height as real - 2.0 * Padding(screen)
  }

  /** The scale that fits one image extent into the safe extent; an extent
      that is not positive contributes 1.0. */
  function AxisScale(safe: real, extent: int): real {
    if extent > 0 then safe / extent as real else 1.0
  }

  /** A scale at which the image, on each axis that has a positive extent,
      fits inside the padded screen area. */
  predicate Fits(s: real, image: Size, screen: Size) {
    (image.width > 0 ==> s * image.width as real <= SafeWidth(screen)) &&
    (image.height > 0 ==> s * image.height as real <= SafeHeight(screen))
  }

  /** The scale an image is shown at right after it is opened: never above
      natural size, never below the zoom floor. */
  function FitScale(image: Size, screen: Size): (r: real)
    ensures MinScale <= r <= 1.0
  {
    var s := MinReal(MinReal(AxisScale(SafeWidth(screen), image.width),
                             AxisScale(SafeHeight(screen), image.height)), 1.0);
    if s < MinScale then MinScale else s
  }

  lemma AxisScaleFits(safe: real, extent: int, s: real)
    requires extent > 0
    ensures s <= AxisScale(safe, extent) <==> s * extent as real <= safe
  {
    var e := extent as real;
    assert AxisScale(safe, extent) * e == safe;
    if s <= AxisScale(safe, extent) {
      assert s * e <= AxisScale(safe, extent) * e;
    } else {
      assert s * e > AxisScale(safe, extent) * e;
    }
  }

  /** Unless the floor was applied, the opened image fits inside the padded
      screen area. */
  lemma FitScaleFits(image: Size, screen: Size)
    requires FitScale(image, screen) > MinScale
    ensures Fits(FitScale(image, screen), image, screen)
  {
    var r := FitScale(image, screen);
    if image.width > 0 {
      AxisScaleFits(SafeWidth(screen), image.width, r);
    }
    if image.height > 0 {
      AxisScaleFits(SafeHeight(screen), image.height, r);
    }
  }

  /** The fit scale is the largest scale, up to natural size, at which the
      image fits: any such scale is at most the fit scale. */
  lemma FitScaleIsLargest(image: Size, screen: Size, s: real)
    requires s <= 1.0 && Fits(s, image, screen)
    ensures s <= FitScale(image, screen)
  {
    if image.width > 0 {
      AxisScaleFits(SafeWidth(screen), image.width, s);
    }
    if image.height > 0 {
      AxisScaleFits(SafeHeight(screen), image.height, s);
    }
  }

  /** An image that already fits at natural size is shown at natural size. */
  lemma FitScaleOfSmallImage(image: Size, screen: Size)
    requires Fits(1.0, image, screen)
    ensures FitScale(image, screen) == 1.0
  {
    FitScaleIsLargest(image, screen, 1.0);
  }

  // ---------------------------------------------------------------------
  // Scroll zoom
  // ---------------------------------------------------------------------

  /** A scroll event: wheel notches up and down, horizontal notches, and a
      smooth scroll carrying its deltas. */
  datatype ScrollDirection =
    | ScrollUp
    | ScrollDown
    | ScrollLeft
    | ScrollRight
    | ScrollSmooth(dx: real, dy: real)

  /** The scale a wheel notch asks for, before the clamp: up multiplies by
      ZoomStep, down divides by it, and a horizontal notch keeps the scale. */
  function WheelZoom(s: real, d: ScrollDirection): (r: real)
    requires !d.ScrollSmooth?
    ensures s > 0.0 ==> r > 0.0
    ensures s > 0.0 && d.ScrollUp? ==> r > s
    ensures s > 0.0 && d.ScrollDown? ==> r < s
    ensures d.ScrollLeft? || d.ScrollRight? ==> r == s
  {
    match d
    case ScrollUp => s * ZoomStep
    case ScrollDown => s / ZoomStep
    case _ => s
  }

  /** The scale after a scroll event, as the handler is written. A wheel
      notch zooms and the result is clamped to [MinScale, MaxScale]. A
      smooth scroll raises when its deltas are unpacked: the toolkit binding
      returns a success flag together with the two deltas, and the handler
      unpacks the three values into two names. The handler then stops before
      the zoom and before the clamp, so the scale stays as it was. */
  function Scrolled(s: real, d: ScrollDirection): (r: real)
    ensures d.ScrollSmooth? ==> r == s
    ensures !d.ScrollSmooth? ==> MinScale <= r <= MaxScale
    ensures MinScale <= s <= MaxScale ==> MinScale <= r <= MaxScale
  {
    if d.ScrollSmooth? then s else ClampScale(WheelZoom(s, d))
  }

  /** The scale before the clamp as the handler evidently means it: a wheel
      notch as in WheelZoom, and a smooth scroll with a non-zero vertical
      delta multiplying by `1 + dy * SmoothZoomRate` (a factor that may be
      zero or negative). */
  function IntendedZoom(s: real, d: ScrollDirection): (r: real)
    ensures !d.ScrollSmooth? ==> r == WheelZoom(s, d)
    ensures d.ScrollSmooth? && d.dy == 0.0 ==> r == s
    ensures d.ScrollSmooth? && s > 0.0 && d.dy > 0.0 ==> r > s
    ensures d.ScrollSmooth? && s > 0.0 && d.dy < 0.0 ==> r < s
  {
    match d
    case ScrollSmooth(_, dy) => if dy != 0.0 then s * (1.0 + dy * SmoothZoomRate) else s
    case _ => WheelZoom(s, d)
  }

  /** The scale after a scroll event as the handler evidently means it: the
      intended zoom, clamped. Whatever the scale and the event, the result is
      within the zoom range. */
  function IntendedScrolled(s: real, d: ScrollDirection): (r: real)
    ensures MinScale <= r <= MaxScale
  {
    ClampScale(IntendedZoom(s, d))
  }

  /** The handler as written and as intended agree on every wheel notch and
      on every scale in range that a smooth scroll without a vertical delta
      meets; they differ only on smooth scrolls. */
  lemma ScrolledAgreesWithIntended(s: real, d: ScrollDirection)
    requires !d.ScrollSmooth? || (d.dy == 0.0 && MinScale <= s <= MaxScale)
    ensures Scrolled(s, d) == IntendedScrolled(s, d)
  {
  }

  /** The discrepancy: at natural size, a smooth scroll with `dy = -20` leaves
      the scale at 1.0 as written, while the intended zoom multiplies by
      `1 - 2 = -1` and clamps to the floor. */
  lemma SmoothScrollIsIgnored()
    ensures Scrolled(1.0, ScrollSmooth(0.0, -20.0)) == 1.0
    ensures IntendedScrolled(1.0, ScrollSmooth(0.0, -20.0)) == MinScale
  {
  }

  /** A notch up followed by a notch down restores a scale that the notch up
      did not push against the ceiling. */
  lemma ScrollUpThenDown(s: real)
    requires MinScale <= s && s * ZoomStep <= MaxScale
    ensures Scrolled(Scrolled(s, ScrollUp), ScrollDown) == s
  {
    assert Scrolled(s, ScrollUp) == s * ZoomStep;
  }

  /** A notch down followed by a notch up restores a scale that the notch
      down did not push against the floor. */
  lemma ScrollDownThenUp(s: real)
    requires s <= MaxScale && MinScale <= s / ZoomStep
    ensures Scrolled(Scrolled(s, ScrollDown), ScrollUp) == s
  {
    assert Scrolled(s, ScrollDown) == s / ZoomStep;
    assert s / ZoomStep * ZoomStep == s;
  }

  /** From any scale in range, a notch up never zooms out and a notch down
      never zooms in. */
  lemma ScrollIsMonotone(s: real)
    requires MinScale <= s <= MaxScale
    ensures s <= Scrolled(s, ScrollUp)
    ensures Scrolled(s, ScrollDown) <= s
  {
    assert s <= s * ZoomStep;
    assert s / ZoomStep <= s;
  }

  /** Horizontal notches keep a scale that is in range, and a smooth scroll,
      as written, keeps every scale. */
  lemma SidewaysAndSmoothScrollKeepScale(s: real, d: ScrollDirection)
    requires ((d.ScrollLeft? || d.ScrollRight?) && MinScale <= s <= MaxScale) || d.ScrollSmooth?
    ensures Scrolled(s, d) == s
  {
  }

  /** As intended, a smooth scroll whose factor is zero or negative lands on
      the floor. */
  lemma SmoothScrollWithNegativeFactor(s: real, dx: real, dy: real)
    requires s > 0.0 && 1.0 + dy * SmoothZoomRate <= 0.0
    ensures IntendedScrolled(s, ScrollSmooth(dx, dy)) == MinScale
  {
    var factor := 1.0 + dy * SmoothZoomRate;
    assert factor != 1.0;
    assert s * factor <= 0.0 by {
      assert s * -factor >= 0.0;
    }
    assert IntendedZoom(s, ScrollSmooth(dx, dy)) == s * factor;
  }

  // ---------------------------------------------------------------------
  // Rotation
  // ---------------------------------------------------------------------

  /** The angles the viewer shows an image at. */
  predicate IsRightAngle(a: int) {
    a == 0 || a == 90 || a == 180 || a == 270
  }

  // The program reduces angles with Python's `%`, which floors; with the
  // positive divisor 360 that agrees with Dafny's Euclidean `%`, so the
  // result is never negative.

  /** The Up key: a quarter turn clockwise. */
  function RotatedUp(a: int): (r: int)
    ensures 0 <= r < 360
    ensures IsRightAngle(a) ==> IsRightAngle(r)
  {
    (a + 90) % 360
  }

  /** The Down key: a quarter turn counter-clockwise. */
  function RotatedDown(a: int): (r: int)
    ensures 0 <= r < 360
    ensures IsRightAngle(a) ==> IsRightAngle(r)
  {
    (a - 90) % 360
  }

  /** Up followed by Down restores any reduced angle. */
  lemma RotateUpThenDown(a: int)
    requires 0 <= a < 360
    ensures RotatedDown(RotatedUp(a)) == a
  {
  }

  /** Down followed by Up restores any reduced angle. */
  lemma RotateDownThenUp(a: int)
    requires 0 <= a < 360
    ensures RotatedUp(RotatedDown(a)) == a
  {
  }

  /** Four quarter turns are the identity on reduced angles. */
  lemma FourUpsAreIdentity(a: int)
    requires 0 <= a < 360
    ensures RotatedUp(RotatedUp(RotatedUp(RotatedUp(a)))) == a
  {
  }

  // ---------------------------------------------------------------------
  // Navigation
  // ---------------------------------------------------------------------

  /** The Left key: one photo back, stopping at the first. */
  function NavigatedLeft(i: int): (r: int)
    ensures r >= 0
    ensures r <= i || i < 0
    ensures i > 0 ==> r == i - 1
    ensures i <= 0 ==> r == 0
  {
    if i - 1 >= 0 then i - 1 else 0
  }

  /** The Right key in a list of `n` photos: one photo on, stopping at the
      last. In an empty list the result is -1. */
  function NavigatedRight(i: int, n: nat): (r: int)
    ensures r <= n - 1
    ensures r >= i || i > n - 1
    ensures i < n - 1 ==> r == i + 1
    ensures i >= n - 1 ==> r == n - 1
  {
    if n - 1 <= i + 1 then n - 1 else i + 1
  }

  /** In a non-empty list both keys keep an in-range index in range, and
      neither wraps around: Left at the first photo and Right at the last
      stay put. */
  lemma NavigationStaysInBounds(i: int, n: nat)
    requires 0 <= i < n
    ensures 0 <= NavigatedLeft(i) < n
    ensures 0 <= NavigatedRight(i, n) < n
    ensures i == 0 ==> NavigatedLeft(i) == 0
    ensures i == n - 1 ==> NavigatedRight(i, n) == n - 1
  {
  }

  // ---------------------------------------------------------------------
  // Panning
  // ---------------------------------------------------------------------

  /** The offset after the pointer moves from `from` to `to` during a drag. */
  function Panned(offset: Point, from: Point, to: Point): (r: Point)
    ensures r.x - offset.x == to.x - from.x
    ensures r.y - offset.y == to.y - from.y
  {
    Point(offset.x + (to.x - from.x), offset.y + (to.y - from.y))
  }

  /** Two consecutive drag steps pan as far as one step straight from the
      first point to the last: a drag's total pan is its total pointer
      displacement. */
  lemma PannedComposes(offset: Point, a: Point, b: Point, c: Point)
    ensures Panned(Panned(offset, a, b), b, c) == Panned(offset, a, c)
  {
  }

  // ---------------------------------------------------------------------
  // Information overlay placement
  // ---------------------------------------------------------------------

  const OverlayFontSize: real := 10.0
  const OverlayPadding: real := 4.0
  const OverlayMargin: real := 2.0

  function OverlayWidth(textWidth: real): real {
    textWidth + 2.0 * OverlayPadding
  }

  const OverlayHeight: real := OverlayFontSize + 2.0 * OverlayPadding

  /** The top-left corner of the overlay box: at the margin when the box fits
      there, otherwise pulled back so that it ends a margin before the far
      edge. Either way the box never extends past the right or bottom edge. */
  function OverlayOrigin(textWidth: real, screenWidth: real, screenHeight: real): (p: Point)
    ensures p.x + OverlayWidth(textWidth) <= screenWidth
    ensures p.y + OverlayHeight <= screenHeight
    ensures OverlayMargin + OverlayWidth(textWidth) <= screenWidth ==> p.x == OverlayMargin
    ensures OverlayMargin + OverlayHeight <= screenHeight ==> p.y == OverlayMargin
    ensures OverlayMargin + OverlayWidth(textWidth) > screenWidth ==>
      p.x == screenWidth - OverlayWidth(textWidth) - OverlayMargin
    ensures OverlayMargin + OverlayHeight > screenHeight ==>
      p.y == screenHeight - OverlayHeight - OverlayMargin
    ensures p.x <= OverlayMargin && p.y <= OverlayMargin
  {
    var w := OverlayWidth(textWidth);
    var x := if OverlayMargin + w > screenWidth then screenWidth - w - OverlayMargin else OverlayMargin;
    var y := if OverlayMargin + OverlayHeight > screenHeight then screenHeight - OverlayHeight - OverlayMargin else OverlayMargin;
    Point(x, y)
  }
}
