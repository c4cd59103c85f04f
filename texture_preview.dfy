/**
 * The current 2D texture preview: the view state its preview pane updates
 * event by event (zoom, pan, drag, middle-click recentering, the light of
 * the normal-map preview, colour sampling) and the settings bar (scale
 * button, channel toggles, alpha mode, mip slider).
 */
module TexturePreview {
  import opened Options
  import opened Gui
  import opened View2D
  import opened Channels
  import opened ChannelToggles
  import opened Formats
  import opened PreviewSettings

  /**
   * The fields that the preview pane updates. `lightMode` is the
   * continuous-repaint override of the normal-map preview, entered with the
   * right button; `recenterTarget` is where the last middle click asked the
   * view to glide to.
   */
  datatype View = View(zoomLevel: real, zoomMultiplier: real, scroll: Vec2, hasDragged: bool,
                       lightMode: bool, lightZ: real, sampling: bool, recenterTarget: Option<Vec2>)

  const InitialView := View(0.0, 1.0, Zero, false, false, 0.1, false, None)

  /** The bounds every reachable view keeps. */
  predicate ValidView(v: View)
  {
    v.zoomMultiplier >= 1.0 && 0.0 <= v.zoomLevel <= 1.0 && 0.01 <= v.lightZ <= 1.0
  }

  /** The view and the event after one block of PreviewTexture (a block may consume the event). */
  datatype Step = Step(view: View, event: Event)

  /**
   * The right button: on a normal map it holds the light mode while pressed,
   * otherwise it holds colour sampling; either way it consumes the event,
   * except repaint and layout and, when sampling, a click with a modifier.
   */
  function RightButton(v: View, isNormalMap: bool, e: Event): (s: Step)
    ensures s.view == v || s.view == v.(lightMode := s.view.lightMode) || s.view == v.(sampling := s.view.sampling)
    ensures s.event == e || s.event == Use(e)
  {
    if e.button != 1 then Step(v, e)
    else if isNormalMap then
      var w := if e.kind == MouseDown then v.(lightMode := true)
               else if e.kind == MouseUp then v.(lightMode := false) else v;
      Step(w, if e.kind != Repaint && e.kind != Layout then Use(e) else e)
    else
      var w := if e.kind == MouseDown then v.(sampling := true)
               else if e.kind == MouseUp then v.(sampling := false) else v;
      Step(w, if e.kind != Repaint && e.kind != Layout && !(e.control || e.command || e.alt) then Use(e) else e)
  }

  /** A drag pans the view by the mouse delta, kept within the panning range. */
  function Drag(v: View, r: Rect, texW: int, texH: int, e: Event): (s: Step)
    ensures s.view == v.(hasDragged := s.view.hasDragged, scroll := s.view.scroll)
    ensures s.event == e || s.event == Use(e)
  {
    if e.kind == MouseDrag then
      var scroll := ClampPos(Sub(v.scroll, e.delta), r, texW as real, texH as real, v.zoomLevel, v.zoomMultiplier);
      Step(v.(hasDragged := true, scroll := scroll), Use(e))
    else Step(v, e)
  }

  /** A middle click without a drag asks the view to glide to the point clicked, kept within the panning range. */
  function MiddleClick(v: View, r: Rect, texW: int, texH: int, e: Event): (s: Step)
    ensures s.view == v.(recenterTarget := s.view.recenterTarget)
    ensures s.event == e || s.event == Use(e)
  {
    if !v.hasDragged && e.kind == MouseUp && e.button == 2 then
      var target := ClampPos(Add(v.scroll, ConvertPositionToLocalTextureRect(r, e.mouse)), r, texW as real, texH as real, v.zoomLevel, v.zoomMultiplier);
      Step(v.(recenterTarget := Some(target)), Use(e))
    else Step(v, e)
  }

  /**
   * The scroll wheel: in light mode it moves the light in depth within
   * [0.01, 1]; otherwise it zooms, keeps the point under the centre (clamped
   * to the new panning range) and resets the scroll when it zoomed out fully.
   */
  function Wheel(v: View, r: Rect, texW: int, texH: int, e: Event): View
    requires texW >= 1 && texH >= 1
    requires e.kind == ScrollWheel && !v.lightMode ==> v.zoomLevel > 0.0 && v.zoomMultiplier > 0.0
  {
    if e.kind != ScrollWheel then v
    else if v.lightMode then v.(lightZ := Clamp(v.lightZ + e.delta.y * 0.01, 0.01, 1.0))
    else
      PositiveProduct(texW as real, v.zoomLevel, v.zoomMultiplier);
      PositiveProduct(texH as real, v.zoomLevel, v.zoomMultiplier);
      var zoom := ZoomStep(v.zoomMultiplier, e.delta.y, v.zoomLevel);
      var scroll := if v.zoomMultiplier != zoom
                    then ClampPos(Rescale(v.scroll, texW, texH, v.zoomLevel, v.zoomMultiplier, zoom), r, texW as real, texH as real, v.zoomLevel, zoom)
                    else v.scroll;
      v.(zoomMultiplier := zoom, scroll := if zoom == 1.0 && e.delta.y != 0.0 then Zero else scroll)
  }

  /** What one call of PreviewTexture in the 2D branch does to the view. */
  function PreviewEvent(v: View, r: Rect, reportedW: int, reportedH: int, isNormalMap: bool, e: Event): View
    requires ValidView(v) && r.width >= 0.0 && r.height >= 0.0
    requires e.kind == ScrollWheel ==> r.width > 0.0 && r.height > 0.0
  {
    if Degenerate(r) then v
    else
      var texW, texH := TexSize(reportedW), TexSize(reportedH);
      var v0 := v.(zoomLevel := ZoomLevel(r, texW, texH), hasDragged := if e.kind == MouseDown then false else v.hasDragged);
      Handlers(v0, r, texW, texH, isNormalMap, e)
  }

  /** The four event handlers of PreviewTexture in order, each seeing the event as the previous one left it. */
  function Handlers(v: View, r: Rect, texW: int, texH: int, isNormalMap: bool, e: Event): View
    requires texW >= 1 && texH >= 1
    requires e.kind == ScrollWheel ==> v.zoomLevel > 0.0 && v.zoomMultiplier > 0.0
  {
    var s1 := RightButton(v, isNormalMap, e);
    var s2 := Drag(s1.view, r, texW, texH, s1.event);
    var s3 := MiddleClick(s2.view, r, texW, texH, s2.event);
    Wheel(s3.view, r, texW, texH, s3.event)
  }

  /** The wheel keeps the view's bounds, and a zoom step stays within [1, 10 / zoomLevel]. */
  lemma WheelKeepsValid(v: View, r: Rect, texW: int, texH: int, e: Event)
    requires texW >= 1 && texH >= 1 && ValidView(v)
    requires e.kind == ScrollWheel && !v.lightMode ==> v.zoomLevel > 0.0
    ensures var w := Wheel(v, r, texW, texH, e);
            ValidView(w) && w.zoomLevel == v.zoomLevel &&
            (w.zoomMultiplier == v.zoomMultiplier || w.zoomMultiplier <= MaxZoomNormalized / v.zoomLevel)
  {
    if e.kind == ScrollWheel && !v.lightMode {
      ZoomStepBounds(v.zoomMultiplier, e.delta.y, v.zoomLevel);
    }
  }

  /** Every event keeps the zoom multiplier at least 1, the zoom level within [0, 1] and the light depth within [0.01, 1]. */
  lemma PreviewKeepsValid(v: View, r: Rect, reportedW: int, reportedH: int, isNormalMap: bool, e: Event)
    requires ValidView(v) && r.width >= 0.0 && r.height >= 0.0
    requires e.kind == ScrollWheel ==> r.width > 0.0 && r.height > 0.0
    ensures ValidView(PreviewEvent(v, r, reportedW, reportedH, isNormalMap, e))
  {
    if !Degenerate(r) {
      var texW, texH := TexSize(reportedW), TexSize(reportedH);
      var v0 := v.(zoomLevel := ZoomLevel(r, texW, texH), hasDragged := if e.kind == MouseDown then false else v.hasDragged);
      var s1 := RightButton(v0, isNormalMap, e);
      var s2 := Drag(s1.view, r, texW, texH, s1.event);
      var s3 := MiddleClick(s2.view, r, texW, texH, s2.event);
      WheelKeepsValid(s3.view, r, texW, texH, s3.event);
    }
  }

  /** A scroll step leaves the zoom multiplier as it was or within [1, 10 / zoomLevel]. */
  lemma ScrollKeepsZoomInRange(v: View, r: Rect, reportedW: int, reportedH: int, isNormalMap: bool, e: Event)
    requires ValidView(v) && !Degenerate(r)
    requires e.kind == ScrollWheel && r.width > 0.0 && r.height > 0.0
    ensures var w := PreviewEvent(v, r, reportedW, reportedH, isNormalMap, e);
            w.zoomMultiplier == v.zoomMultiplier || 1.0 <= w.zoomMultiplier <= MaxZoomNormalized / w.zoomLevel
  {
    var texW, texH := TexSize(reportedW), TexSize(reportedH);
    var v0 := v.(zoomLevel := ZoomLevel(r, texW, texH), hasDragged := if e.kind == MouseDown then false else v.hasDragged);
    var s1 := RightButton(v0, isNormalMap, e);
    var s2 := Drag(s1.view, r, texW, texH, s1.event);
    var s3 := MiddleClick(s2.view, r, texW, texH, s2.event);
    WheelKeepsValid(s3.view, r, texW, texH, s3.event);
  }

  /** Zooming out to the fitted view with the wheel recentres it: the scroll position becomes zero. */
  lemma ZoomOutResetsScroll(v: View, r: Rect, reportedW: int, reportedH: int, isNormalMap: bool, e: Event)
    requires ValidView(v) && !Degenerate(r) && !v.lightMode && e.button != 1
    requires e.kind == ScrollWheel && e.delta.y != 0.0 && r.width > 0.0 && r.height > 0.0
    ensures var w := PreviewEvent(v, r, reportedW, reportedH, isNormalMap, e);
            w.zoomMultiplier == 1.0 ==> w.scroll == Zero
  {
  }

  /** After a drag that reaches the pan handler the scroll position lies within the panning range. */
  lemma DragStaysInPan(v: View, r: Rect, reportedW: int, reportedH: int, isNormalMap: bool, e: Event)
    requires ValidView(v) && !Degenerate(r) && r.width >= 0.0 && r.height >= 0.0
    requires e.kind == MouseDrag && e.button != 1
    ensures var w := PreviewEvent(v, r, reportedW, reportedH, isNormalMap, e);
            var texW, texH := TexSize(reportedW) as real, TexSize(reportedH) as real;
            w.hasDragged &&
            InPan(w.scroll, HalfExtent(texW, w.zoomLevel, w.zoomMultiplier, r.width), HalfExtent(texH, w.zoomLevel, w.zoomMultiplier, r.height))
  {
    var texW, texH := TexSize(reportedW), TexSize(reportedH);
    var zl := ZoomLevel(r, texW, texH);
    NonNegativeProduct(texW as real, zl, v.zoomMultiplier);
    NonNegativeProduct(texH as real, zl, v.zoomMultiplier);
  }

  /** A right-button drag is consumed before the pan handler, so it never pans (unless sampling with a modifier). */
  lemma RightDragDoesNotPan(v: View, r: Rect, reportedW: int, reportedH: int, isNormalMap: bool, e: Event)
    requires ValidView(v) && r.width >= 0.0 && r.height >= 0.0
    requires e.kind == MouseDrag && e.button == 1 && (isNormalMap || !(e.control || e.command || e.alt))
    ensures var w := PreviewEvent(v, r, reportedW, reportedH, isNormalMap, e);
            w.scroll == v.scroll && w.hasDragged == v.hasDragged
  {
  }

  /** A middle click recentres exactly when no drag happened since the last press, and the target is within the panning range. */
  lemma MiddleClickRecentres(v: View, r: Rect, reportedW: int, reportedH: int, isNormalMap: bool, e: Event)
    requires ValidView(v) && !Degenerate(r) && r.width >= 0.0 && r.height >= 0.0
    requires e.kind == MouseUp && e.button == 2
    ensures var w := PreviewEvent(v, r, reportedW, reportedH, isNormalMap, e);
            var texW, texH := TexSize(reportedW) as real, TexSize(reportedH) as real;
            (v.hasDragged ==> w.recenterTarget == v.recenterTarget) &&
            (!v.hasDragged ==>
               w.recenterTarget.Some? && InPan(w.recenterTarget.value, HalfExtent(texW, w.zoomLevel, w.zoomMultiplier, r.width), HalfExtent(texH, w.zoomLevel, w.zoomMultiplier, r.height)))
  {
    var texW, texH := TexSize(reportedW), TexSize(reportedH);
    var zl := ZoomLevel(r, texW, texH);
    NonNegativeProduct(texW as real, zl, v.zoomMultiplier);
    NonNegativeProduct(texH as real, zl, v.zoomMultiplier);
  }

  /** On a normal map the right button holds the light mode: on while pressed, off when released. */
  lemma RightButtonHoldsLight(v: View, r: Rect, reportedW: int, reportedH: int, e: Event)
    requires ValidView(v) && !Degenerate(r) && r.width >= 0.0 && r.height >= 0.0
    requires e.button == 1 && (e.kind == MouseDown || e.kind == MouseUp)
    ensures PreviewEvent(v, r, reportedW, reportedH, true, e).lightMode == (e.kind == MouseDown)
    ensures PreviewEvent(v, r, reportedW, reportedH, false, e).sampling == (e.kind == MouseDown)
  {
  }

  /** The widget results and host queries one OnPreviewSettings call reads. */
  datatype SettingsInput = SettingsInput(
    isCubemap: bool, volumeRenderTexture: bool, texturePresent: bool,
    primaryIsTexture2D: bool, primaryRenderFormat: Option<RenderTextureFormat>, targets: seq<Target>,
    reportedW: int, reportedH: int, isNormalMap: bool,
    scalePressed: bool, toggles: ToggleInput, alphaClicked: bool, mipDrag: Option<int>)

  /** The state the settings bar changes, with the callback invocations of the channel toggles. */
  datatype Settings = Settings(framing: Framing, toggles: Outcome, showAlpha: bool, mipLevel: int)

  /** Whether the settings bar draws anything of its own (cubemaps and volumes are drawn by other editors). */
  predicate DrawsSettings(i: SettingsInput)
  {
    !i.isCubemap && !i.volumeRenderTexture && i.texturePresent
  }

  /** What one OnPreviewSettings call does. */
  function PreviewSettingsBar(v: View, toggles: Rgb, showAlpha: bool, mipLevel: int, i: SettingsInput): Settings
    requires ValidView(v) && (DrawsSettings(i) && i.scalePressed ==> v.zoomLevel > 0.0)
  {
    if !DrawsSettings(i) then Settings(Framing(v.zoomMultiplier, v.scroll), Outcome(toggles, []), showAlpha, mipLevel)
    else
      var scan := ScanAll(i.primaryIsTexture2D, i.primaryRenderFormat, i.targets);
      var a := AlphaMode(scan.alphaOnly, scan.hasAlpha, i.isNormalMap, showAlpha, i.alphaClicked);
      Settings(ScaleBar(v, i), ToggleBar(toggles, scan, i), a.showAlpha, MipSlider(mipLevel, scan.mipCount, i.mipDrag))
  }

  /** The framing after the scale button, pressed or not. */
  function ScaleBar(v: View, i: SettingsInput): Framing
    requires ValidView(v) && (i.scalePressed ==> v.zoomLevel > 0.0)
  {
    var f := Framing(v.zoomMultiplier, v.scroll);
    if i.scalePressed then ScaleButton(f, v.zoomLevel, TexSize(i.reportedW), TexSize(i.reportedH)) else f
  }

  /** The channel toggles, drawn only for a selection that is neither alpha-only nor a normal map. */
  function ToggleBar(toggles: Rgb, scan: Scan, i: SettingsInput): Outcome
  {
    if !scan.alphaOnly && !i.isNormalMap then DrawRGB(toggles, scan.channels, i.toggles) else Outcome(toggles, [])
  }

  /** The settings bar keeps the zoom multiplier at least 1. */
  lemma SettingsKeepZoom(v: View, toggles: Rgb, showAlpha: bool, mipLevel: int, i: SettingsInput)
    requires ValidView(v) && (DrawsSettings(i) && i.scalePressed ==> v.zoomLevel > 0.0)
    ensures PreviewSettingsBar(v, toggles, showAlpha, mipLevel, i).framing.zoomMultiplier >= 1.0
  {
    if DrawsSettings(i) && i.scalePressed {
      AtLeastNumerator(1.0, v.zoomLevel);
    }
  }

  /** The channel toggles are drawn (and can change) only for a selection that is neither alpha-only nor a normal map. */
  lemma TogglesOnlyForColour(v: View, toggles: Rgb, showAlpha: bool, mipLevel: int, i: SettingsInput)
    requires ValidView(v) && (DrawsSettings(i) && i.scalePressed ==> v.zoomLevel > 0.0)
    ensures var s := PreviewSettingsBar(v, toggles, showAlpha, mipLevel, i);
            var scan := ScanAll(i.primaryIsTexture2D, i.primaryRenderFormat, i.targets);
            if DrawsSettings(i) && !scan.alphaOnly && !i.isNormalMap
            then s.toggles == DrawRGB(toggles, scan.channels, i.toggles) && SomeVisible(s.toggles.state, scan.channels)
            else s.toggles == Outcome(toggles, [])
  {
    var scan := ScanAll(i.primaryIsTexture2D, i.primaryRenderFormat, i.targets);
    DrawKeepsAChannelVisible(toggles, scan.channels, i.toggles);
  }

  /** The 2D preview editor: its view fields, display mode, mip level and channel toggles. */
  class TexturePreview2D {
    var zoomLevel: real
    var zoomMultiplier: real
    var scrollPosition: Vec2
    var hasDragged: bool
    var continuousRepaintOverride: bool
    var lightZ: real
    var samplingColour: bool
    var recenterTarget: Option<Vec2>
    var showAlpha: bool
    var mipLevel: int
    const toggles: RgbToggles

    function ViewOf(): View
      reads this
    {
      View(zoomLevel, zoomMultiplier, scrollPosition, hasDragged, continuousRepaintOverride, lightZ, samplingColour, recenterTarget)
    }

    predicate Valid()
      reads this
    {
      ValidView(ViewOf())
    }

    constructor ()
      ensures ViewOf() == InitialView && !showAlpha && mipLevel == 0
      ensures fresh(toggles) && toggles.State() == AllOn
      ensures Valid()
    {
      zoomLevel, zoomMultiplier, scrollPosition := 0.0, 1.0, Zero;
      hasDragged, continuousRepaintOverride, lightZ := false, false, 0.1;
      samplingColour, recenterTarget := false, None;
      showAlpha, mipLevel := false, 0;
      toggles := new RgbToggles();
    }

    /**
     * The preview pane's handling of one event for a plain 2D texture.
     * `delegated` stands for the branches that return first: an unsupported
     * render-texture format, a cubemap, and a volume (drawn by the 3D editor).
     */
    method PreviewTexture(r: Rect, reportedW: int, reportedH: int, isNormalMap: bool, delegated: bool, e: Event)
      requires Valid() && r.width >= 0.0 && r.height >= 0.0
      requires e.kind == ScrollWheel ==> r.width > 0.0 && r.height > 0.0
      modifies this
      ensures ViewOf() == if delegated then old(ViewOf()) else PreviewEvent(old(ViewOf()), r, reportedW, reportedH, isNormalMap, e)
      ensures showAlpha == old(showAlpha) && mipLevel == old(mipLevel)
      ensures Valid()
    {
      ghost var v := ViewOf();
      if delegated || Degenerate(r) {
        return;
      }
      var texWidth := TexSize(reportedW);
      var texHeight := TexSize(reportedH);
      zoomLevel := ZoomLevel(r, texWidth, texHeight);
      if e.kind == MouseDown {
        hasDragged := false;
      }
      HandleEvent(r, texWidth, texHeight, isNormalMap, e);
      PreviewKeepsValid(v, r, reportedW, reportedH, isNormalMap, e);
    }

    /** The four handlers, in order, passing the event on as each leaves it. */
    method HandleEvent(r: Rect, texWidth: int, texHeight: int, isNormalMap: bool, e: Event)
      requires texWidth >= 1 && texHeight >= 1
      requires e.kind == ScrollWheel ==> zoomLevel > 0.0 && zoomMultiplier > 0.0
      modifies this
      ensures ViewOf() == Handlers(old(ViewOf()), r, texWidth, texHeight, isNormalMap, e)
      ensures showAlpha == old(showAlpha) && mipLevel == old(mipLevel)
    {
      var ev := RightButtonBlock(isNormalMap, e);
      ghost var s1 := Step(ViewOf(), ev);
      ev := DragBlock(r, texWidth, texHeight, ev);
      ghost var s2 := Step(ViewOf(), ev);
      ev := MiddleClickBlock(r, texWidth, texHeight, ev);
      ghost var s3 := Step(ViewOf(), ev);
      WheelBlock(r, texWidth, texHeight, ev);
    }

    /** The right-button block: the light mode on a normal map, colour sampling otherwise. */
    method RightButtonBlock(isNormalMap: bool, e: Event) returns (ev: Event)
      modifies this
      ensures Step(ViewOf(), ev) == RightButton(old(ViewOf()), isNormalMap, e)
      ensures showAlpha == old(showAlpha) && mipLevel == old(mipLevel)
    {
      ev := e;
      if isNormalMap {
        if ev.button == 1 {
          if ev.kind == MouseDown {
            continuousRepaintOverride := true;
          } else if ev.kind == MouseUp {
            continuousRepaintOverride := false;
          }
          if ev.kind != Repaint && ev.kind != Layout {
            ev := Use(ev);
          }
        }
      } else {
        if ev.button == 1 {
          if ev.kind == MouseDown {
            samplingColour := true;
          } else if ev.kind == MouseUp {
            samplingColour := false;
          }
          if ev.kind != Repaint && ev.kind != Layout && !(ev.control || ev.command || ev.alt) {
            ev := Use(ev);
          }
        }
      }
    }

    /** The drag block: pan by the mouse delta within the panning range. */
    method DragBlock(r: Rect, texWidth: int, texHeight: int, e: Event) returns (ev: Event)
      modifies this
      ensures Step(ViewOf(), ev) == Drag(old(ViewOf()), r, texWidth, texHeight, e)
      ensures showAlpha == old(showAlpha) && mipLevel == old(mipLevel)
    {
      ev := e;
      if ev.kind == MouseDrag {
        hasDragged := true;
        scrollPosition := Sub(scrollPosition, ev.delta);
        scrollPosition := ClampPos(scrollPosition, r, texWidth as real, texHeight as real, zoomLevel, zoomMultiplier);
        ev := Use(ev);
      }
    }

    /** The middle-click block: recentre on the point clicked unless the press became a drag. */
    method MiddleClickBlock(r: Rect, texWidth: int, texHeight: int, e: Event) returns (ev: Event)
      modifies this
      ensures Step(ViewOf(), ev) == MiddleClick(old(ViewOf()), r, texWidth, texHeight, e)
      ensures showAlpha == old(showAlpha) && mipLevel == old(mipLevel)
    {
      ev := e;
      if !hasDragged && ev.kind == MouseUp && ev.button == 2 {
        var target := ClampPos(Add(scrollPosition, ConvertPositionToLocalTextureRect(r, ev.mouse)), r, texWidth as real, texHeight as real, zoomLevel, zoomMultiplier);
        recenterTarget := Some(target);
        ev := Use(ev);
      }
    }

    /** The scroll-wheel block: light depth in light mode, otherwise zoom about the centre. */
    method WheelBlock(r: Rect, texWidth: int, texHeight: int, ev: Event)
      requires texWidth >= 1 && texHeight >= 1
      requires ev.kind == ScrollWheel && !continuousRepaintOverride ==> zoomLevel > 0.0 && zoomMultiplier > 0.0
      modifies this
      ensures ViewOf() == Wheel(old(ViewOf()), r, texWidth, texHeight, ev)
      ensures showAlpha == old(showAlpha) && mipLevel == old(mipLevel)
    {
      if ev.kind == ScrollWheel {
        if continuousRepaintOverride {
          lightZ := Clamp(lightZ + ev.delta.y * 0.01, 0.01, 1.0);
        } else {
          var zoomMultiplierLast := zoomMultiplier;
          zoomMultiplier := Max(1.0, zoomMultiplier - ev.delta.y * zoomMultiplier * 0.1);
          zoomMultiplier := Clamp(zoomMultiplier, 1.0, MaxZoomNormalized / zoomLevel);
          assert zoomMultiplier == ZoomStep(zoomMultiplierLast, ev.delta.y, zoomLevel);
          if zoomMultiplierLast != zoomMultiplier {
            PositiveProduct(texWidth as real, zoomLevel, zoomMultiplierLast);
            PositiveProduct(texHeight as real, zoomLevel, zoomMultiplierLast);
            scrollPosition := Rescale(scrollPosition, texWidth, texHeight, zoomLevel, zoomMultiplierLast, zoomMultiplier);
            scrollPosition := ClampPos(scrollPosition, r, texWidth as real, texHeight as real, zoomLevel, zoomMultiplier);
          }
          if zoomMultiplier == 1.0 && ev.delta.y != 0.0 {
            scrollPosition := Zero;
          }
        }
      }
    }

    /**
     * One call of OnPreviewSettings: the scale button, the channel toggles of
     * the channels present, the alpha mode and the mip slider.
     */
    method OnPreviewSettings(i: SettingsInput) returns (notices: seq<Notice>)
      requires Valid() && (DrawsSettings(i) && i.scalePressed ==> zoomLevel > 0.0)
      modifies this, toggles
      ensures var s := PreviewSettingsBar(old(ViewOf()), old(toggles.State()), old(showAlpha), old(mipLevel), i);
              zoomMultiplier == s.framing.zoomMultiplier && scrollPosition == s.framing.scroll &&
              toggles.State() == s.toggles.state && notices == s.toggles.notices &&
              showAlpha == s.showAlpha && mipLevel == s.mipLevel
      ensures zoomLevel == old(zoomLevel) && hasDragged == old(hasDragged) && continuousRepaintOverride == old(continuousRepaintOverride)
      ensures lightZ == old(lightZ) && samplingColour == old(samplingColour) && recenterTarget == old(recenterTarget)
      ensures Valid()
    {
      ghost var v, t0 := ViewOf(), toggles.State();
      notices := [];
      if !DrawsSettings(i) {
        return;
      }
      var alphaOnly, hasAlpha, mipCount, hasR, hasG, hasB := ScanTargets(i.primaryIsTexture2D, i.primaryRenderFormat, i.targets);
      var scan := Scan(alphaOnly, hasAlpha, mipCount, Rgb(hasR, hasG, hasB));
      ScaleBlock(i);
      notices := ToggleBlockFor(scan, i);
      AlphaAndMipBlock(scan, i);
      SettingsKeepZoom(v, t0, old(showAlpha), old(mipLevel), i);
    }

    /** The scale button: switches between the fitted view and one texel per pixel. */
    method ScaleBlock(i: SettingsInput)
      requires Valid() && (i.scalePressed ==> zoomLevel > 0.0)
      modifies this
      ensures Framing(zoomMultiplier, scrollPosition) == ScaleBar(old(ViewOf()), i)
      ensures zoomLevel == old(zoomLevel) && hasDragged == old(hasDragged) && continuousRepaintOverride == old(continuousRepaintOverride)
      ensures lightZ == old(lightZ) && samplingColour == old(samplingColour) && recenterTarget == old(recenterTarget)
      ensures showAlpha == old(showAlpha) && mipLevel == old(mipLevel)
    {
      if i.scalePressed {
        var texWidth := TexSize(i.reportedW);
        var texHeight := TexSize(i.reportedH);
        var f := ScaleButton(Framing(zoomMultiplier, scrollPosition), zoomLevel, texWidth, texHeight);
        zoomMultiplier, scrollPosition := f.zoomMultiplier, f.scroll;
      }
    }

    /** The alpha-mode toggle and the mip slider. */
    method AlphaAndMipBlock(scan: Scan, i: SettingsInput)
      modifies this
      ensures showAlpha == AlphaMode(scan.alphaOnly, scan.hasAlpha, i.isNormalMap, old(showAlpha), i.alphaClicked).showAlpha
      ensures mipLevel == MipSlider(old(mipLevel), scan.mipCount, i.mipDrag)
      ensures ViewOf() == old(ViewOf())
    {
      var a := AlphaMode(scan.alphaOnly, scan.hasAlpha, i.isNormalMap, showAlpha, i.alphaClicked);
      showAlpha := a.showAlpha;
      mipLevel := MipSlider(mipLevel, scan.mipCount, i.mipDrag);
    }

    /** The channel toggles of the channels the scan found, unless the selection is alpha-only or a normal map. */
    method ToggleBlockFor(scan: Scan, i: SettingsInput) returns (notices: seq<Notice>)
      modifies toggles
      ensures Outcome(toggles.State(), notices) == ToggleBar(old(toggles.State()), scan, i)
    {
      notices := [];
      if !scan.alphaOnly && !i.isNormalMap {
        notices := toggles.DrawRGBToggles(scan.channels.r, scan.channels.g, scan.channels.b, i.toggles);
      }
    }
  }
}
