/**
 * The older 2D texture preview. Compared with the current one it has no
 * right-button modes, refuses to pan while the view is fitted (zoom
 * multiplier 1), steps the zoom by a fixed amount up to three texels per
 * pixel, never resets the position when zooming out, and draws three plain
 * R/G/B toggles of its own that simply flip.
 */
module LegacyTexture2DPreview {
  import opened Options
  import opened Gui
  import opened View2D
  import opened Channels
  import opened PreviewSettings

  /** The fields the older preview pane updates; `pos` is its scroll position m_Pos. */
  datatype LegacyView = LegacyView(zoomLevel: real, zoomMultiplier: real, pos: Vec2, hasDragged: bool, recenterTarget: Option<Vec2>)

  const InitialLegacyView := LegacyView(0.0, 1.0, Zero, false, None)

  predicate ValidLegacyView(v: LegacyView)
  {
    v.zoomMultiplier >= 1.0 && 0.0 <= v.zoomLevel <= 1.0
  }

  datatype LegacyStep = LegacyStep(view: LegacyView, event: Event)

  /**
   * A drag pans within the panning range, except that a fitted view
   * (multiplier 1) only consumes the event: the handler returns there, and
   * the later handlers would ignore the consumed event anyway.
   */
  function Drag(v: LegacyView, r: Rect, texW: int, texH: int, e: Event): (s: LegacyStep)
    ensures s.view == v.(hasDragged := s.view.hasDragged, pos := s.view.pos)
    ensures s.event == e || s.event == Use(e)
  {
    if e.kind != MouseDrag then LegacyStep(v, e)
    else if v.zoomMultiplier == 1.0 then LegacyStep(v, Use(e))
    else
      var pos := ClampPos(Sub(v.pos, e.delta), r, texW as real, texH as real, v.zoomLevel, v.zoomMultiplier);
      LegacyStep(v.(hasDragged := true, pos := pos), Use(e))
  }

  /** A middle click without a drag asks the view to glide to the point clicked, kept within the panning range. */
  function MiddleClick(v: LegacyView, r: Rect, texW: int, texH: int, e: Event): (s: LegacyStep)
    ensures s.view == v.(recenterTarget := s.view.recenterTarget)
    ensures s.event == e || s.event == Use(e)
  {
    if !v.hasDragged && e.kind == MouseUp && e.button == 2 then
      var target := ClampPos(Add(v.pos, ConvertPositionToLocalTextureRect(r, e.mouse)), r, texW as real, texH as real, v.zoomLevel, v.zoomMultiplier);
      LegacyStep(v.(recenterTarget := Some(target)), Use(e))
    else LegacyStep(v, e)
  }

  /** The scroll wheel zooms by a fixed step within [1, 3 / zoomLevel] and keeps the point under the centre. */
  function Wheel(v: LegacyView, r: Rect, texW: int, texH: int, e: Event): LegacyView
    requires texW >= 1 && texH >= 1
    requires e.kind == ScrollWheel ==> v.zoomLevel > 0.0 && v.zoomMultiplier > 0.0
  {
    if e.kind != ScrollWheel then v
    else
      PositiveProduct(texW as real, v.zoomLevel, v.zoomMultiplier);
      PositiveProduct(texH as real, v.zoomLevel, v.zoomMultiplier);
      var zoom := LegacyZoomStep(v.zoomMultiplier, e.delta.y, v.zoomLevel);
      var pos := if v.zoomMultiplier != zoom
                 then ClampPos(Rescale(v.pos, texW, texH, v.zoomLevel, v.zoomMultiplier, zoom), r, texW as real, texH as real, v.zoomLevel, zoom)
                 else v.pos;
      v.(zoomMultiplier := zoom, pos := pos)
  }

  /** The three handlers in order, each seeing the event as the previous one left it. */
  function Handlers(v: LegacyView, r: Rect, texW: int, texH: int, e: Event): LegacyView
    requires texW >= 1 && texH >= 1
    requires e.kind == ScrollWheel ==> v.zoomLevel > 0.0 && v.zoomMultiplier > 0.0
  {
    var s1 := Drag(v, r, texW, texH, e);
    var s2 := MiddleClick(s1.view, r, texW, texH, s1.event);
    Wheel(s2.view, r, texW, texH, s2.event)
  }

  /** What one call of OnPreviewGUI does to the view once a 2D texture is drawn. */
  function PreviewEvent(v: LegacyView, r: Rect, reportedW: int, reportedH: int, e: Event): LegacyView
    requires ValidLegacyView(v) && r.width >= 0.0 && r.height >= 0.0
    requires e.kind == ScrollWheel ==> r.width > 0.0 && r.height > 0.0
  {
    if Degenerate(r) then v
    else
      var texW, texH := TexSize(reportedW), TexSize(reportedH);
      var v0 := v.(zoomLevel := ZoomLevel(r, texW, texH), hasDragged := if e.kind == MouseDown then false else v.hasDragged);
      Handlers(v0, r, texW, texH, e)
  }

  /** The wheel keeps the bounds, and a zoom step stays within [1, 3 / zoomLevel]. */
  lemma WheelKeepsValid(v: LegacyView, r: Rect, texW: int, texH: int, e: Event)
    requires texW >= 1 && texH >= 1 && ValidLegacyView(v)
    requires e.kind == ScrollWheel ==> v.zoomLevel > 0.0
    ensures var w := Wheel(v, r, texW, texH, e);
            ValidLegacyView(w) && w.zoomLevel == v.zoomLevel &&
            (e.kind == ScrollWheel ==> w.zoomMultiplier <= LegacyMaxZoomNormalized / v.zoomLevel)
  {
    if e.kind == ScrollWheel {
      LegacyZoomStepBounds(v.zoomMultiplier, e.delta.y, v.zoomLevel);
    }
  }

  /** Every event keeps the zoom multiplier at least 1 and the zoom level within [0, 1]. */
  lemma PreviewKeepsValid(v: LegacyView, r: Rect, reportedW: int, reportedH: int, e: Event)
    requires ValidLegacyView(v) && r.width >= 0.0 && r.height >= 0.0
    requires e.kind == ScrollWheel ==> r.width > 0.0 && r.height > 0.0
    ensures ValidLegacyView(PreviewEvent(v, r, reportedW, reportedH, e))
  {
    if !Degenerate(r) {
      var texW, texH := TexSize(reportedW), TexSize(reportedH);
      var v0 := v.(zoomLevel := ZoomLevel(r, texW, texH), hasDragged := if e.kind == MouseDown then false else v.hasDragged);
      var s1 := Drag(v0, r, texW, texH, e);
      var s2 := MiddleClick(s1.view, r, texW, texH, s1.event);
      WheelKeepsValid(s2.view, r, texW, texH, s2.event);
    }
  }

  /** A scroll step leaves the zoom multiplier within [1, 3 / zoomLevel]. */
  lemma ScrollKeepsZoomInRange(v: LegacyView, r: Rect, reportedW: int, reportedH: int, e: Event)
    requires ValidLegacyView(v) && !Degenerate(r)
    requires e.kind == ScrollWheel && r.width > 0.0 && r.height > 0.0
    ensures var w := PreviewEvent(v, r, reportedW, reportedH, e);
            1.0 <= w.zoomMultiplier <= LegacyMaxZoomNormalized / w.zoomLevel
  {
    var texW, texH := TexSize(reportedW), TexSize(reportedH);
    var v0 := v.(zoomLevel := ZoomLevel(r, texW, texH), hasDragged := if e.kind == MouseDown then false else v.hasDragged);
    var s1 := Drag(v0, r, texW, texH, e);
    var s2 := MiddleClick(s1.view, r, texW, texH, s1.event);
    WheelKeepsValid(s2.view, r, texW, texH, s2.event);
  }

  /** A drag on a fitted view changes neither the position nor the drag flag. */
  lemma FittedDragDoesNotPan(v: LegacyView, r: Rect, reportedW: int, reportedH: int, e: Event)
    requires ValidLegacyView(v) && r.width >= 0.0 && r.height >= 0.0
    requires e.kind == MouseDrag && v.zoomMultiplier == 1.0
    ensures var w := PreviewEvent(v, r, reportedW, reportedH, e);
            w.pos == v.pos && w.hasDragged == v.hasDragged && w.zoomMultiplier == 1.0
  {
  }

  /** A drag on a zoomed view pans, and the position ends within the panning range. */
  lemma ZoomedDragStaysInPan(v: LegacyView, r: Rect, reportedW: int, reportedH: int, e: Event)
    requires ValidLegacyView(v) && !Degenerate(r) && r.width >= 0.0 && r.height >= 0.0
    requires e.kind == MouseDrag && v.zoomMultiplier != 1.0
    ensures var w := PreviewEvent(v, r, reportedW, reportedH, e);
            var texW, texH := TexSize(reportedW) as real, TexSize(reportedH) as real;
            w.hasDragged &&
            InPan(w.pos, HalfExtent(texW, w.zoomLevel, w.zoomMultiplier, r.width), HalfExtent(texH, w.zoomLevel, w.zoomMultiplier, r.height))
  {
    var texW, texH := TexSize(reportedW), TexSize(reportedH);
    var zl := ZoomLevel(r, texW, texH);
    NonNegativeProduct(texW as real, zl, v.zoomMultiplier);
    NonNegativeProduct(texH as real, zl, v.zoomMultiplier);
  }

  /** The widget results and host queries one OnPreviewSettings call reads. */
  datatype LegacySettingsInput = LegacySettingsInput(
    isCubemap: bool, texturePresent: bool, primaryIsTexture2D: bool, targets: seq<Target>,
    reportedW: int, reportedH: int, isNormalMap: bool,
    scalePressed: bool, clicked: ToggleInput, alphaClicked: bool, mipDrag: Option<int>)

  /** The state the settings bar changes. */
  datatype LegacySettings = LegacySettings(framing: Framing, channels: Rgb, showAlpha: bool, mipLevel: int)

  /** The three plain toggles: a click on a toggle flips its flag, nothing else does. */
  function FlipClicked(s: Rgb, input: ToggleInput): (t: Rgb)
    ensures forall c :: Get(t, c) == (Get(s, c) != Clicked(input, c))
  {
    Rgb(s.r != input.clickedR, s.g != input.clickedG, s.b != input.clickedB)
  }

  /** Clicking the same toggles twice restores the flags. */
  lemma FlipTwiceRestores(s: Rgb, input: ToggleInput)
    ensures FlipClicked(FlipClicked(s, input), input) == s
  {
  }

  /** Unlike the base-class toggles, these can switch every channel off. */
  lemma FlipCanHideAll()
    ensures FlipClicked(Solo(R), ClickOn(R, false)) == Rgb(false, false, false)
  {
  }

  /** What the settings bar does once a texture is present and not a cubemap. */
  function PreviewSettingsBar(v: LegacyView, channels: Rgb, showAlpha: bool, mipLevel: int, i: LegacySettingsInput): LegacySettings
    requires ValidLegacyView(v) && (i.scalePressed ==> v.zoomLevel > 0.0)
  {
    if i.isCubemap || !i.texturePresent then LegacySettings(Framing(v.zoomMultiplier, v.pos), channels, showAlpha, mipLevel)
    else
      var scan := ScanAll(i.primaryIsTexture2D, None, i.targets);
      var a := AlphaMode(scan.alphaOnly, scan.hasAlpha, i.isNormalMap, showAlpha, i.alphaClicked);
      LegacySettings(ScaleBar(v, i), FlipClicked(channels, i.clicked), a.showAlpha, MipSlider(mipLevel, scan.mipCount, i.mipDrag))
  }

  /** The framing after the scale button, pressed or not. */
  function ScaleBar(v: LegacyView, i: LegacySettingsInput): Framing
    requires ValidLegacyView(v) && (i.scalePressed ==> v.zoomLevel > 0.0)
  {
    var f := Framing(v.zoomMultiplier, v.pos);
    if i.scalePressed then ScaleButton(f, v.zoomLevel, TexSize(i.reportedW), TexSize(i.reportedH)) else f
  }

  /** The settings bar keeps the zoom multiplier at least 1. */
  lemma SettingsKeepZoom(v: LegacyView, channels: Rgb, showAlpha: bool, mipLevel: int, i: LegacySettingsInput)
    requires ValidLegacyView(v) && (i.scalePressed ==> v.zoomLevel > 0.0)
    ensures PreviewSettingsBar(v, channels, showAlpha, mipLevel, i).framing.zoomMultiplier >= 1.0
  {
    if !i.isCubemap && i.texturePresent && i.scalePressed {
      AtLeastNumerator(1.0, v.zoomLevel);
    }
  }

  /** The older 2D preview editor. */
  class LegacyTexture2DPreviewEditor {
    var zoomLevel: real
    var zoomMultiplier: real
    var pos: Vec2
    var hasDragged: bool
    var recenterTarget: Option<Vec2>
    var showAlpha: bool
    var mipLevel: int
    var r: bool
    var g: bool
    var b: bool

    function ViewOf(): LegacyView
      reads this
    {
      LegacyView(zoomLevel, zoomMultiplier, pos, hasDragged, recenterTarget)
    }

    function Channels(): Rgb
      reads this
    {
      Rgb(r, g, b)
    }

    predicate Valid()
      reads this
    {
      ValidLegacyView(ViewOf())
    }

    constructor ()
      ensures ViewOf() == InitialLegacyView && !showAlpha && mipLevel == 0 && Channels() == AllOn
      ensures Valid()
    {
      zoomLevel, zoomMultiplier, pos, hasDragged, recenterTarget := 0.0, 1.0, Zero, false, None;
      showAlpha, mipLevel := false, 0;
      r, g, b := true, true, true;
    }

    /**
     * One event in the preview pane. `delegated` stands for the branches that
     * return first: no texture, an unsupported render-texture format, and a
     * cubemap (drawn by the built-in editor).
     */
    method OnPreviewGUI(rect: Rect, reportedW: int, reportedH: int, delegated: bool, e: Event)
      requires Valid() && rect.width >= 0.0 && rect.height >= 0.0
      requires e.kind == ScrollWheel ==> rect.width > 0.0 && rect.height > 0.0
      modifies this
      ensures ViewOf() == if delegated then old(ViewOf()) else PreviewEvent(old(ViewOf()), rect, reportedW, reportedH, e)
      ensures showAlpha == old(showAlpha) && mipLevel == old(mipLevel) && Channels() == old(Channels())
      ensures Valid()
    {
      ghost var v := ViewOf();
      if delegated || Degenerate(rect) {
        return;
      }
      var texWidth := TexSize(reportedW);
      var texHeight := TexSize(reportedH);
      zoomLevel := ZoomLevel(rect, texWidth, texHeight);
      if e.kind == MouseDown {
        hasDragged := false;
      }
      HandleEvent(rect, texWidth, texHeight, e);
      PreviewKeepsValid(v, rect, reportedW, reportedH, e);
    }

    /** The drag, middle-click and wheel handlers in order. */
    method HandleEvent(rect: Rect, texWidth: int, texHeight: int, e: Event)
      requires texWidth >= 1 && texHeight >= 1
      requires e.kind == ScrollWheel ==> zoomLevel > 0.0 && zoomMultiplier > 0.0
      modifies this
      ensures ViewOf() == Handlers(old(ViewOf()), rect, texWidth, texHeight, e)
      ensures showAlpha == old(showAlpha) && mipLevel == old(mipLevel) && Channels() == old(Channels())
    {
      var ev := DragBlock(rect, texWidth, texHeight, e);
      ghost var s1 := LegacyStep(ViewOf(), ev);
      ev := MiddleClickBlock(rect, texWidth, texHeight, ev);
      ghost var s2 := LegacyStep(ViewOf(), ev);
      WheelBlock(rect, texWidth, texHeight, ev);
    }

    /** The drag handler; on a fitted view it consumes the event and returns. */
    method DragBlock(rect: Rect, texWidth: int, texHeight: int, e: Event) returns (ev: Event)
      modifies this
      ensures LegacyStep(ViewOf(), ev) == Drag(old(ViewOf()), rect, texWidth, texHeight, e)
      ensures showAlpha == old(showAlpha) && mipLevel == old(mipLevel) && Channels() == old(Channels())
    {
      ev := e;
      if ev.kind == MouseDrag {
        if zoomMultiplier == 1.0 {
          ev := Use(ev);
          return;
        }
        hasDragged := true;
        pos := Sub(pos, ev.delta);
        pos := ClampPos(pos, rect, texWidth as real, texHeight as real, zoomLevel, zoomMultiplier);
        ev := Use(ev);
      }
    }

    /** The middle-click handler: recentre on the point clicked unless the press became a drag. */
    method MiddleClickBlock(rect: Rect, texWidth: int, texHeight: int, e: Event) returns (ev: Event)
      modifies this
      ensures LegacyStep(ViewOf(), ev) == MiddleClick(old(ViewOf()), rect, texWidth, texHeight, e)
      ensures showAlpha == old(showAlpha) && mipLevel == old(mipLevel) && Channels() == old(Channels())
    {
      ev := e;
      if !hasDragged && ev.kind == MouseUp && ev.button == 2 {
        var target := ClampPos(Add(pos, ConvertPositionToLocalTextureRect(rect, ev.mouse)), rect, texWidth as real, texHeight as real, zoomLevel, zoomMultiplier);
        recenterTarget := Some(target);
        ev := Use(ev);
      }
    }

    /** The scroll-wheel handler: zoom about the centre. */
    method WheelBlock(rect: Rect, texWidth: int, texHeight: int, ev: Event)
      requires texWidth >= 1 && texHeight >= 1
      requires ev.kind == ScrollWheel ==> zoomLevel > 0.0 && zoomMultiplier > 0.0
      modifies this
      ensures ViewOf() == Wheel(old(ViewOf()), rect, texWidth, texHeight, ev)
      ensures showAlpha == old(showAlpha) && mipLevel == old(mipLevel) && Channels() == old(Channels())
    {
      if ev.kind == ScrollWheel {
        var zoomMultiplierLast := zoomMultiplier;
        zoomMultiplier := Max(1.0, zoomMultiplier - ev.delta.y * 0.1);
        zoomMultiplier := Clamp(zoomMultiplier, 1.0, LegacyMaxZoomNormalized / zoomLevel);
        if zoomMultiplierLast != zoomMultiplier {
          PositiveProduct(texWidth as real, zoomLevel, zoomMultiplierLast);
          PositiveProduct(texHeight as real, zoomLevel, zoomMultiplierLast);
          pos := Rescale(pos, texWidth, texHeight, zoomLevel, zoomMultiplierLast, zoomMultiplier);
          pos := ClampPos(pos, rect, texWidth as real, texHeight as real, zoomLevel, zoomMultiplier);
        }
      }
    }

    /** One call of OnPreviewSettings: the scan of the targets, the scale button, the R/G/B toggles, the alpha mode and the mip slider. */
    method OnPreviewSettings(i: LegacySettingsInput)
      requires Valid() && (i.scalePressed ==> zoomLevel > 0.0)
      modifies this
      ensures var s := PreviewSettingsBar(old(ViewOf()), old(Channels()), old(showAlpha), old(mipLevel), i);
              Framing(zoomMultiplier, pos) == s.framing && Channels() == s.channels &&
              showAlpha == s.showAlpha && mipLevel == s.mipLevel
      ensures zoomLevel == old(zoomLevel) && hasDragged == old(hasDragged) && recenterTarget == old(recenterTarget)
      ensures Valid()
    {
      ghost var v, c0 := ViewOf(), Channels();
      if i.isCubemap || !i.texturePresent {
        return;
      }
      var alphaOnly, hasAlpha, mipCount, _, _, _ := ScanTargets(i.primaryIsTexture2D, None, i.targets);
      ScaleBlock(i);
      r, g, b := r != i.clicked.clickedR, g != i.clicked.clickedG, b != i.clicked.clickedB;
      AlphaAndMipBlock(alphaOnly, hasAlpha, mipCount, i);
      SettingsKeepZoom(v, c0, old(showAlpha), old(mipLevel), i);
    }

    /** The alpha-mode toggle and the mip slider. */
    method AlphaAndMipBlock(alphaOnly: bool, hasAlpha: bool, mipCount: int, i: LegacySettingsInput)
      modifies this
      ensures showAlpha == AlphaMode(alphaOnly, hasAlpha, i.isNormalMap, old(showAlpha), i.alphaClicked).showAlpha
      ensures mipLevel == MipSlider(old(mipLevel), mipCount, i.mipDrag)
      ensures ViewOf() == old(ViewOf()) && Channels() == old(Channels())
    {
      var a := AlphaMode(alphaOnly, hasAlpha, i.isNormalMap, showAlpha, i.alphaClicked);
      showAlpha := a.showAlpha;
      mipLevel := MipSlider(mipLevel, mipCount, i.mipDrag);
    }

    /** The scale button: switches between the fitted view and one texel per pixel. */
    method ScaleBlock(i: LegacySettingsInput)
      requires Valid() && (i.scalePressed ==> zoomLevel > 0.0)
      modifies this
      ensures Framing(zoomMultiplier, pos) == ScaleBar(old(ViewOf()), i)
      ensures zoomLevel == old(zoomLevel) && hasDragged == old(hasDragged) && recenterTarget == old(recenterTarget)
      ensures showAlpha == old(showAlpha) && mipLevel == old(mipLevel) && Channels() == old(Channels())
    {
      if i.scalePressed {
        var f := ScaleButton(Framing(zoomMultiplier, pos), zoomLevel, TexSize(i.reportedW), TexSize(i.reportedH));
        zoomMultiplier, pos := f.zoomMultiplier, f.scroll;
      }
    }
  }
}
