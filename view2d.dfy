/**
 * The arithmetic of the 2D preview's view: how far the texture may be
 * panned (ClampPos), where the mouse is relative to the preview rectangle,
 * the fit-to-rectangle zoom level, the zoom step of the scroll wheel, the
 * scale button, and the clamp of the picked pixel. Both generations of the
 * 2D preview share these formulas; they differ in the zoom step only.
 */
module View2D {
  import opened Gui

  /** How much of the rectangle must stay covered; enters ClampPos in a term that cancels. */
  const SmallestOnScreenNormalisedRect: real := 0.5

  /** The largest zoom multiplier of the current preview, relative to the fit-to-rectangle level. */
  const MaxZoomNormalized: real := 10.0

  /** The largest zoom multiplier of the older preview. */
  const LegacyMaxZoomNormalized: real := 3.0

  /** Half the panning range along one axis: half the zoomed texture size, plus a term that is always zero. */
  function HalfExtent(texSize: real, zoomLevel: real, zoomMultiplier: real, rectSize: real): (h: real)
    ensures h == texSize * zoomLevel * zoomMultiplier / 2.0
  {
    texSize * zoomLevel * zoomMultiplier / 2.0 + (rectSize / 2.0 - SmallestOnScreenNormalisedRect * rectSize)
  }

  /** `p` lies in the box [-w2, w2] x [-h2, h2]. */
  predicate InPan(p: Vec2, w2: real, h2: real)
  {
    -w2 <= p.x <= w2 && -h2 <= p.y <= h2
  }

  /** Clamps a scroll position into the panning range of the zoomed texture. */
  function ClampPos(p: Vec2, r: Rect, texW: real, texH: real, zoomLevel: real, zoomMultiplier: real): (q: Vec2)
    ensures var w2 := HalfExtent(texW, zoomLevel, zoomMultiplier, r.width);
            var h2 := HalfExtent(texH, zoomLevel, zoomMultiplier, r.height);
            (w2 >= 0.0 && h2 >= 0.0 ==> InPan(q, w2, h2)) && (InPan(p, w2, h2) ==> q == p)
  {
    var w2 := HalfExtent(texW, zoomLevel, zoomMultiplier, r.width);
    var h2 := HalfExtent(texH, zoomLevel, zoomMultiplier, r.height);
    Vec2(Clamp(p.x, -w2, w2), Clamp(p.y, -h2, h2))
  }

  /** Clamping a position twice is clamping it once, for a texture of non-negative on-screen size. */
  lemma ClampPosIdempotent(p: Vec2, r: Rect, texW: real, texH: real, zoomLevel: real, zoomMultiplier: real)
    requires texW >= 0.0 && texH >= 0.0 && zoomLevel >= 0.0 && zoomMultiplier >= 0.0
    ensures var q := ClampPos(p, r, texW, texH, zoomLevel, zoomMultiplier);
            ClampPos(q, r, texW, texH, zoomLevel, zoomMultiplier) == q
  {
    var q := ClampPos(p, r, texW, texH, zoomLevel, zoomMultiplier);
    NonNegativeProduct(texW, zoomLevel, zoomMultiplier);
    NonNegativeProduct(texH, zoomLevel, zoomMultiplier);
    assert InPan(q, HalfExtent(texW, zoomLevel, zoomMultiplier, r.width), HalfExtent(texH, zoomLevel, zoomMultiplier, r.height));
  }

  lemma NonNegativeProduct(a: real, b: real, c: real)
    requires a >= 0.0 && b >= 0.0 && c >= 0.0
    ensures a * b * c >= 0.0
  {
    assert a * b >= 0.0;
  }

  /** A mouse position relative to the centre of the preview rectangle. */
  function ConvertPositionToLocalTextureRect(r: Rect, position: Vec2): (local: Vec2)
    ensures Add(local, Vec2(r.x + r.width / 2.0, r.y + r.height / 2.0)) == position
  {
    var rectCenter := Vec2(r.width / 2.0, r.height / 2.0);
    var localPos := Vec2(position.x - r.x, position.y - r.y);
    Sub(localPos, rectCenter)
  }

  /** The size of a texture as the preview uses it: at least one texel. */
  function TexSize(reported: int): (n: int)
    ensures n >= 1
    ensures reported >= 1 ==> n == reported
    ensures reported < 1 ==> n == 1
  {
    if reported >= 1 then reported else 1
  }

  /** The zoom that fits the whole texture in the rectangle, never above 100%. */
  function ZoomLevel(r: Rect, texW: int, texH: int): (z: real)
    requires texW >= 1 && texH >= 1
    ensures z <= 1.0 && z <= r.width / texW as real && z <= r.height / texH as real
    ensures z == 1.0 || z == r.width / texW as real || z == r.height / texH as real
    ensures r.width >= 0.0 && r.height >= 0.0 ==> z >= 0.0
    ensures r.width > 0.0 && r.height > 0.0 ==> z > 0.0
  {
    Min(Min(r.width / texW as real, r.height / texH as real), 1.0)
  }

  /** The picked texel index along one axis: the rounded position clamped to the texture. */
  function PixelIndex(rounded: int, reportedSize: int): (i: int)
    ensures 0 <= i <= TexSize(reportedSize) - 1
    ensures 0 <= rounded < TexSize(reportedSize) ==> i == rounded
    ensures rounded < 0 ==> i == 0
    ensures rounded >= TexSize(reportedSize) ==> i == TexSize(reportedSize) - 1
  {
    ClampInt(rounded, 0, TexSize(reportedSize) - 1)
  }

  /**
   * The texel-space position under the mouse, before rounding: relative to
   * the rectangle's centre, shifted by the scroll position and half the
   * zoomed texture, normalised by the drawn rectangle, with y flipped.
   */
  function CursorTexelPosition(mouse: Vec2, r: Rect, wanted: Rect, scroll: Vec2,
                               texW: int, texH: int, zoomLevel: real, zoomMultiplier: real): Vec2
    requires wanted.width != 0.0 && wanted.height != 0.0
  {
    var pos := Sub(Sub(mouse, Vec2(r.x, r.y)), Vec2(r.width / 2.0, r.height / 2.0));
    var pos := Add(pos, scroll);
    var pos := Add(pos, Vec2(texW as real * zoomLevel * zoomMultiplier / 2.0, texH as real * zoomLevel * zoomMultiplier / 2.0));
    var pos := Vec2(pos.x / wanted.width, 1.0 - pos.y / wanted.height);
    Vec2(pos.x * texW as real, pos.y * texH as real)
  }

  /** A texel index. */
  datatype Texel = Texel(x: int, y: int)

  /** `n` is a rounding of `v` to a whole number (Mathf.RoundToInt rounds to the nearest, ties to even). */
  predicate RoundsTo(v: real, n: int)
  {
    v - 0.5 <= n as real <= v + 0.5
  }

  /**
   * GetPixelPositionUnderCursor: the texel under the mouse, from the rounded
   * texel-space position (`roundedX`, `roundedY` are the roundings of that
   * position minus one half), clamped to the texture. When the cursor is over
   * the texture, the texel returned is one whose square holds the cursor.
   */
  function PixelPositionUnderCursor(mouse: Vec2, r: Rect, wanted: Rect, scroll: Vec2,
                                    texW: int, texH: int, zoomLevel: real, zoomMultiplier: real,
                                    roundedX: int, roundedY: int): (t: Texel)
    requires texW >= 1 && texH >= 1
    requires wanted.width != 0.0 && wanted.height != 0.0
    requires var pos := CursorTexelPosition(mouse, r, wanted, scroll, texW, texH, zoomLevel, zoomMultiplier);
             RoundsTo(pos.x - 0.5, roundedX) && RoundsTo(pos.y - 0.5, roundedY)
    ensures 0 <= t.x <= texW - 1 && 0 <= t.y <= texH - 1
    ensures var pos := CursorTexelPosition(mouse, r, wanted, scroll, texW, texH, zoomLevel, zoomMultiplier);
            (0.0 <= pos.x <= texW as real ==> t.x as real <= pos.x <= t.x as real + 1.0) &&
            (0.0 <= pos.y <= texH as real ==> t.y as real <= pos.y <= t.y as real + 1.0)
  {
    Texel(PixelIndex(roundedX, texW), PixelIndex(roundedY, texH))
  }

  /** The rectangle the zoomed texture is drawn into. */
  function WantedRect(r: Rect, texW: int, texH: int, zoomLevel: real, zoomMultiplier: real): Rect
  {
    Rect(r.x, r.y, texW as real * zoomLevel * zoomMultiplier, texH as real * zoomLevel * zoomMultiplier)
  }

  /** With no scroll, the middle of the preview rectangle is the middle of the texture. */
  lemma CentreIsMiddleTexel(r: Rect, texW: int, texH: int, zoomLevel: real, zoomMultiplier: real)
    requires texW >= 1 && texH >= 1 && zoomLevel > 0.0 && zoomMultiplier > 0.0
    ensures var wanted := WantedRect(r, texW, texH, zoomLevel, zoomMultiplier);
            wanted.width != 0.0 && wanted.height != 0.0 &&
            CursorTexelPosition(Vec2(r.x + r.width / 2.0, r.y + r.height / 2.0), r, wanted, Zero,
                                texW, texH, zoomLevel, zoomMultiplier) == Vec2(texW as real / 2.0, texH as real / 2.0)
  {
    var w := texW as real * zoomLevel * zoomMultiplier;
    var h := texH as real * zoomLevel * zoomMultiplier;
    PositiveProduct(texW as real, zoomLevel, zoomMultiplier);
    PositiveProduct(texH as real, zoomLevel, zoomMultiplier);
    assert (w / 2.0) / w == 0.5;
    assert (h / 2.0) / h == 0.5;
  }

  lemma PositiveProduct(a: real, b: real, c: real)
    requires a > 0.0 && b > 0.0 && c > 0.0
    ensures a * b * c > 0.0
  {
    assert a * b > 0.0;
  }

  /** The texel column grows one for one with the mouse, scaled by texels per screen unit. */
  lemma CursorFollowsMouse(mouse: Vec2, dx: real, r: Rect, scroll: Vec2,
                           texW: int, texH: int, zoomLevel: real, zoomMultiplier: real)
    requires texW >= 1 && texH >= 1 && zoomLevel > 0.0 && zoomMultiplier > 0.0
    ensures var wanted := WantedRect(r, texW, texH, zoomLevel, zoomMultiplier);
            wanted.width != 0.0 && wanted.height != 0.0 &&
            CursorTexelPosition(Vec2(mouse.x + dx, mouse.y), r, wanted, scroll, texW, texH, zoomLevel, zoomMultiplier).x ==
            CursorTexelPosition(mouse, r, wanted, scroll, texW, texH, zoomLevel, zoomMultiplier).x + dx / (zoomLevel * zoomMultiplier)
  {
    var w := texW as real * zoomLevel * zoomMultiplier;
    PositiveProduct(texW as real, zoomLevel, zoomMultiplier);
    PositiveProduct(texH as real, zoomLevel, zoomMultiplier);
    var a := mouse.x - r.x - r.width / 2.0 + scroll.x + w / 2.0;
    assert (a + dx) / w * texW as real == a / w * texW as real + dx * texW as real / w;
    assert dx * texW as real / w == dx / (zoomLevel * zoomMultiplier);
  }

  /** The rectangle sizes the preview ignores: there it returns before touching any state. */
  predicate Degenerate(r: Rect)
  {
    (r.width == 32.0 && r.height == 32.0) || (r.width == 1.0 && r.height == 1.0)
  }

  /**
   * Keeps the point under the centre fixed when the zoom multiplier changes:
   * the scroll position normalised by the old drawn size, scaled by the new one.
   */
  function Rescale(scroll: Vec2, texW: int, texH: int, zoomLevel: real, oldMultiplier: real, newMultiplier: real): Vec2
    requires texW as real * zoomLevel * oldMultiplier != 0.0 && texH as real * zoomLevel * oldMultiplier != 0.0
  {
    var posNormalized := Vec2(scroll.x / (texW as real * zoomLevel * oldMultiplier), scroll.y / (texH as real * zoomLevel * oldMultiplier));
    Vec2(posNormalized.x * (texW as real * zoomLevel * newMultiplier), posNormalized.y * (texH as real * zoomLevel * newMultiplier))
  }

  /** Rescaling multiplies the scroll position by the zoom ratio, and so keeps its normalised position. */
  lemma RescaleKeepsNormalisedPosition(scroll: Vec2, texW: int, texH: int, zoomLevel: real, oldMultiplier: real, newMultiplier: real)
    requires texW >= 1 && texH >= 1 && zoomLevel > 0.0 && oldMultiplier > 0.0 && newMultiplier > 0.0
    ensures texW as real * zoomLevel * oldMultiplier != 0.0 && texH as real * zoomLevel * oldMultiplier != 0.0
    ensures var s := Rescale(scroll, texW, texH, zoomLevel, oldMultiplier, newMultiplier);
            s == Scale(newMultiplier / oldMultiplier, scroll) &&
            s.x / (texW as real * zoomLevel * newMultiplier) == scroll.x / (texW as real * zoomLevel * oldMultiplier) &&
            s.y / (texH as real * zoomLevel * newMultiplier) == scroll.y / (texH as real * zoomLevel * oldMultiplier)
  {
    PositiveProduct(texW as real, zoomLevel, oldMultiplier);
    PositiveProduct(texH as real, zoomLevel, oldMultiplier);
    PositiveProduct(texW as real, zoomLevel, newMultiplier);
    PositiveProduct(texH as real, zoomLevel, newMultiplier);
    RatioCancels(scroll.x, texW as real * zoomLevel, oldMultiplier, newMultiplier);
    RatioCancels(scroll.y, texH as real * zoomLevel, oldMultiplier, newMultiplier);
  }

  lemma RatioCancels(v: real, k: real, a: real, b: real)
    requires k > 0.0 && a > 0.0 && b > 0.0
    ensures v / (k * a) * (k * b) == (b / a) * v
    ensures (v / (k * a) * (k * b)) / (k * b) == v / (k * a)
  {
    var n := v / (k * a);
    assert n * (k * a) == v;
    assert (b / a) * v == (b / a) * n * (k * a);
    assert (b / a) * a == b;
  }

  /** A position inside the panning range stays inside it when the zoom is rescaled. */
  lemma RescaleStaysInPan(scroll: Vec2, r: Rect, texW: int, texH: int, zoomLevel: real, oldMultiplier: real, newMultiplier: real)
    requires texW >= 1 && texH >= 1 && zoomLevel > 0.0 && oldMultiplier > 0.0 && newMultiplier > 0.0
    requires InPan(scroll, HalfExtent(texW as real, zoomLevel, oldMultiplier, r.width), HalfExtent(texH as real, zoomLevel, oldMultiplier, r.height))
    ensures texW as real * zoomLevel * oldMultiplier != 0.0 && texH as real * zoomLevel * oldMultiplier != 0.0
    ensures InPan(Rescale(scroll, texW, texH, zoomLevel, oldMultiplier, newMultiplier),
                  HalfExtent(texW as real, zoomLevel, newMultiplier, r.width), HalfExtent(texH as real, zoomLevel, newMultiplier, r.height))
  {
    RescaleKeepsNormalisedPosition(scroll, texW, texH, zoomLevel, oldMultiplier, newMultiplier);
    var kx, ky := texW as real * zoomLevel, texH as real * zoomLevel;
    assert kx > 0.0 && ky > 0.0;
    assert HalfExtent(texW as real, zoomLevel, oldMultiplier, r.width) == kx * oldMultiplier / 2.0;
    assert HalfExtent(texH as real, zoomLevel, oldMultiplier, r.height) == ky * oldMultiplier / 2.0;
    assert HalfExtent(texW as real, zoomLevel, newMultiplier, r.width) == kx * newMultiplier / 2.0;
    assert HalfExtent(texH as real, zoomLevel, newMultiplier, r.height) == ky * newMultiplier / 2.0;
    ScaledBound(scroll.x, kx, oldMultiplier, newMultiplier);
    ScaledBound(scroll.y, ky, oldMultiplier, newMultiplier);
  }

  lemma ScaledBound(v: real, k: real, a: real, b: real)
    requires k > 0.0 && a > 0.0 && b > 0.0
    requires -(k * a / 2.0) <= v <= k * a / 2.0
    ensures -(k * b / 2.0) <= (b / a) * v <= k * b / 2.0
  {
    var t := b / a;
    assert t > 0.0;
    assert t * (k * a / 2.0) == k * b / 2.0 by {
      assert t * a == b;
    }
  }

  /** The zoom multiplier after one scroll-wheel step of the current preview: proportional, at least 1, at most 10 / zoomLevel. */
  function ZoomStep(zoomMultiplier: real, scrollDelta: real, zoomLevel: real): real
    requires zoomLevel != 0.0
  {
    var z := Max(1.0, zoomMultiplier - scrollDelta * zoomMultiplier * 0.1);
    Clamp(z, 1.0, MaxZoomNormalized / zoomLevel)
  }

  /** The zoom multiplier after one scroll-wheel step of the older preview: a fixed step, at most 3 / zoomLevel. */
  function LegacyZoomStep(zoomMultiplier: real, scrollDelta: real, zoomLevel: real): real
    requires zoomLevel != 0.0
  {
    var z := Max(1.0, zoomMultiplier - scrollDelta * 0.1);
    Clamp(z, 1.0, LegacyMaxZoomNormalized / zoomLevel)
  }

  /** A scroll step keeps the zoom multiplier within [1, 10 / zoomLevel] when the texture is fitted at zoomLevel <= 1. */
  lemma ZoomStepBounds(zoomMultiplier: real, scrollDelta: real, zoomLevel: real)
    requires 0.0 < zoomLevel <= 1.0
    ensures 1.0 <= ZoomStep(zoomMultiplier, scrollDelta, zoomLevel) <= MaxZoomNormalized / zoomLevel
  {
    AtLeastNumerator(MaxZoomNormalized, zoomLevel);
  }

  /** The older step keeps the multiplier within [1, 3 / zoomLevel]. */
  lemma LegacyZoomStepBounds(zoomMultiplier: real, scrollDelta: real, zoomLevel: real)
    requires 0.0 < zoomLevel <= 1.0
    ensures 1.0 <= LegacyZoomStep(zoomMultiplier, scrollDelta, zoomLevel) <= LegacyMaxZoomNormalized / zoomLevel
  {
    AtLeastNumerator(LegacyMaxZoomNormalized, zoomLevel);
  }

  lemma AtLeastNumerator(n: real, d: real)
    requires n >= 1.0 && 0.0 < d <= 1.0
    ensures n / d >= n
  {
    assert n / d * d == n;
  }

  /** Scrolling down never zooms in and scrolling up never zooms out, from a multiplier within range. */
  lemma ZoomStepDirection(zoomMultiplier: real, scrollDelta: real, zoomLevel: real)
    requires 0.0 < zoomLevel <= 1.0 && 1.0 <= zoomMultiplier <= MaxZoomNormalized / zoomLevel
    ensures scrollDelta >= 0.0 ==> ZoomStep(zoomMultiplier, scrollDelta, zoomLevel) <= zoomMultiplier
    ensures scrollDelta <= 0.0 ==> ZoomStep(zoomMultiplier, scrollDelta, zoomLevel) >= zoomMultiplier
  {
    if scrollDelta >= 0.0 {
      assert scrollDelta * zoomMultiplier * 0.1 >= 0.0;
    } else {
      assert scrollDelta * zoomMultiplier * 0.1 <= 0.0;
    }
  }

  /** The zoom multiplier and scroll position that the scale button switches between. */
  datatype Framing = Framing(zoomMultiplier: real, scroll: Vec2)

  /**
   * The scale button: from any zoom other than 100% it goes to 100% (1 / zoomLevel),
   * keeping the point under the centre; at 100% it goes back to the fitted view.
   */
  function ScaleButton(f: Framing, zoomLevel: real, texW: int, texH: int): (g: Framing)
    requires zoomLevel > 0.0 && f.zoomMultiplier > 0.0 && texW >= 1 && texH >= 1
    ensures f.zoomMultiplier != 1.0 / zoomLevel ==>
              g.zoomMultiplier == 1.0 / zoomLevel && g.scroll == Scale((1.0 / zoomLevel) / f.zoomMultiplier, f.scroll)
    ensures f.zoomMultiplier == 1.0 / zoomLevel ==> g == Framing(1.0, Zero)
  {
    var p100 := 1.0 / zoomLevel;
    if f.zoomMultiplier != p100 then
      RescaleKeepsNormalisedPosition(f.scroll, texW, texH, zoomLevel, f.zoomMultiplier, p100);
      Framing(p100, Rescale(f.scroll, texW, texH, zoomLevel, f.zoomMultiplier, p100))
    else
      Framing(1.0, Zero)
  }

  /** Two presses from anywhere other than 100% end in the fitted view with the scroll reset. */
  lemma ScaleButtonTwiceResets(f: Framing, zoomLevel: real, texW: int, texH: int)
    requires zoomLevel > 0.0 && f.zoomMultiplier > 0.0 && texW >= 1 && texH >= 1
    requires f.zoomMultiplier != 1.0 / zoomLevel
    ensures ScaleButton(f, zoomLevel, texW, texH).zoomMultiplier > 0.0
    ensures ScaleButton(ScaleButton(f, zoomLevel, texW, texH), zoomLevel, texW, texH) == Framing(1.0, Zero)
  {
    assert 1.0 / zoomLevel > 0.0;
  }

  /** Below 100% fit, the button alternates between the fitted view and 100%, and the fitted view has no scroll. */
  lemma ScaleButtonAlternates(zoomLevel: real, texW: int, texH: int)
    requires 0.0 < zoomLevel < 1.0 && texW >= 1 && texH >= 1
    ensures ScaleButton(Framing(1.0, Zero), zoomLevel, texW, texH) == Framing(1.0 / zoomLevel, Zero)
    ensures ScaleButton(Framing(1.0 / zoomLevel, Zero), zoomLevel, texW, texH) == Framing(1.0, Zero)
  {
    assert 1.0 / zoomLevel > 1.0 by {
      assert 1.0 / zoomLevel * zoomLevel == 1.0;
    }
  }
}
