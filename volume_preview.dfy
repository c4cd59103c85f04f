/**
 * The current 3D texture preview: slice fractions chosen with a rounded
 * float slider on one axis at a time, an orbiting camera with a zoom, a
 * material override chosen when the editor is enabled, and the channel
 * toggles of the current base class.
 */
module VolumePreview {
  import opened Options
  import opened Gui
  import opened View2D
  import opened Channels
  import opened ChannelToggles
  import opened Formats
  import opened Volume

  /**
   * The widget results and host queries one OnPreviewSettings call reads:
   * the formats of the selected volumes, whether the editor implements the
   * axis sliders, whether the primary target is a Texture3D, its size, the
   * axis popup, the float slider and Mathf.RoundToInt of its value minus 1.
   */
  datatype VolumeSettingsInput = VolumeSettingsInput(
    formats: seq<Option<TextureFormat>>, implementAxisSliders: bool, primaryIsTexture3D: bool,
    width: int, height: int, depth: int, axisPick: Axis, slider: real, rounded: int,
    scalePressed: bool, toggles: ToggleInput)

  /** Whether this call draws the axis popup and slider. */
  predicate DrawsSlider(i: VolumeSettingsInput, materialOverride: Option<Override>)
  {
    SlidersShown(i.implementAxisSliders, materialOverride) && i.primaryIsTexture3D
  }

  /**
   * What a drawn slider promises: its value lies within [1, size] of the axis
   * picked, and `rounded` is that value minus 1 rounded to an integer.
   */
  predicate SliderResult(i: VolumeSettingsInput)
  {
    var size := SizeOf(i.width, i.height, i.depth, i.axisPick);
    size >= 1 && 1.0 <= i.slider <= size as real && RoundsTo(i.slider - 1.0, i.rounded)
  }

  /** A rounded slider value stays within the slices of its axis. */
  lemma RoundedSliderInRange(i: VolumeSettingsInput)
    requires SliderResult(i)
    ensures 1 <= i.rounded + 1 <= SizeOf(i.width, i.height, i.depth, i.axisPick)
  {
  }

  /** The slice fractions and the axis after the slider. */
  datatype SliceState = SliceState(slices: Slices, axis: Axis)

  function SliderStep(s: SliceState, materialOverride: Option<Override>, i: VolumeSettingsInput): (t: SliceState)
    requires DrawsSlider(i, materialOverride) ==> SliderResult(i)
    ensures !DrawsSlider(i, materialOverride) ==> t == s
    ensures DrawsSlider(i, materialOverride) ==>
              t.axis == i.axisPick && forall b :: b != i.axisPick ==> SliceOf(t.slices, b) == SliceOf(s.slices, b)
  {
    if DrawsSlider(i, materialOverride) then
      RoundedSliderInRange(i);
      var size := SizeOf(i.width, i.height, i.depth, i.axisPick);
      SliceState(SetSlice(s.slices, i.axisPick, SliceFraction(i.rounded + 1, size)), i.axisPick)
    else s
  }

  /** A drawn slider leaves the picked axis a fraction in [0, 1] when it has at least two slices, and 0 / 0 otherwise. */
  lemma SliderSetsFraction(s: SliceState, materialOverride: Option<Override>, i: VolumeSettingsInput)
    requires DrawsSlider(i, materialOverride) && SliderResult(i)
    ensures var f := SliceOf(SliderStep(s, materialOverride, i).slices, i.axisPick);
            var size := SizeOf(i.width, i.height, i.depth, i.axisPick);
            (size >= 2 ==> f.Value? && 0.0 <= f.v <= 1.0 && SliceIndex(f.v, size) == (i.rounded + 1) as real) &&
            (size == 1 ==> f == NotANumber)
  {
    RoundedSliderInRange(i);
    var size := SizeOf(i.width, i.height, i.depth, i.axisPick);
    if size >= 2 {
      SliceRoundTrip(i.rounded + 1, size);
    }
  }

  /**
   * The slider is handed the current slice, f * (size - 1) + 1 truncated to
   * an integer; when it hands that back untouched the fraction does not move,
   * in exact arithmetic (single-precision rounding can lower the slice by one).
   */
  lemma UntouchedSliderKeepsFraction(s: SliceState, materialOverride: Option<Override>, i: VolumeSettingsInput, k: int)
    requires DrawsSlider(i, materialOverride) && SliderResult(i)
    requires var size := SizeOf(i.width, i.height, i.depth, i.axisPick);
             size >= 2 && 1 <= k <= size && SliceOf(s.slices, i.axisPick) == SliceFraction(k, size)
    requires i.slider == SliceIndex(SliceFraction(k, SizeOf(i.width, i.height, i.depth, i.axisPick)).v,
                                    SizeOf(i.width, i.height, i.depth, i.axisPick)).Floor as real
    ensures SliderStep(s, materialOverride, i).slices == s.slices
  {
    var size := SizeOf(i.width, i.height, i.depth, i.axisPick);
    SliceRoundTrip(k, size);
    assert i.slider == k as real;
    assert i.rounded == k - 1;
    var t := SliderStep(s, materialOverride, i).slices;
    assert SliceOf(t, i.axisPick) == SliceFraction(k, size);
    forall b: Axis
      ensures SliceOf(t, b) == SliceOf(s.slices, b)
    {
    }
    assert t.x == SliceOf(t, X) && t.y == SliceOf(t, Y) && t.z == SliceOf(t, Z);
  }

  /** The state one OnPreviewSettings call changes. */
  datatype VolumeSettings = VolumeSettings(slices: SliceState, zoom: real, toggles: Outcome)

  function PreviewSettingsBar(s: SliceState, zoom: real, toggles: Rgb, materialOverride: Option<Override>, i: VolumeSettingsInput): VolumeSettings
    requires DrawsSlider(i, materialOverride) ==> SliderResult(i)
  {
    VolumeSettings(SliderStep(s, materialOverride, i),
                   if i.scalePressed then DefaultZoom else zoom,
                   DrawRGB(toggles, ShownSwapped(ChannelsOf3D(i.formats)), i.toggles))
  }

  /** The scale button sets the zoom to 3; otherwise the settings bar keeps it. */
  lemma ScaleButtonResetsZoom(s: SliceState, zoom: real, toggles: Rgb, materialOverride: Option<Override>, i: VolumeSettingsInput)
    requires DrawsSlider(i, materialOverride) ==> SliderResult(i)
    ensures PreviewSettingsBar(s, zoom, toggles, materialOverride, i).zoom == if i.scalePressed then 3.0 else zoom
  {
  }

  /** The toggles keep a channel visible, counting the swapped flags they are drawn with. */
  lemma SettingsKeepAChannelVisible(s: SliceState, zoom: real, toggles: Rgb, materialOverride: Option<Override>, i: VolumeSettingsInput)
    requires DrawsSlider(i, materialOverride) ==> SliderResult(i)
    ensures var c := ChannelsOf3D(i.formats);
            SomeVisible(PreviewSettingsBar(s, zoom, toggles, materialOverride, i).toggles.state, Rgb(c.r, c.b, c.g))
  {
    DrawKeepsAChannelVisible(toggles, ShownSwapped(ChannelsOf3D(i.formats)), i.toggles);
  }

  /** The camera state one OnPreviewGUI call changes, with the orbit control's hold on the mouse. */
  datatype Camera = Camera(dir: Vec2, zoom: real, hot: bool)

  /** A camera after one event, with the event as the host sees it afterwards. */
  datatype CameraStep = CameraStep(camera: Camera, event: Event)

  function PreviewGUI(c: Camera, r: Rect, e: Event): (d: CameraStep)
    requires e.kind == MouseDrag && c.hot ==> Min(r.width, r.height) > 0.0
    ensures e.kind == ScrollWheel ==> 0.05 <= d.camera.zoom <= 5.0 && d.event == Use(e) && d.camera.dir == c.dir
    ensures e.kind != ScrollWheel ==> d.camera.zoom == c.zoom
  {
    var o := Drag2D(c.dir, r, e, c.hot);
    if o.event.kind == ScrollWheel then
      CameraStep(Camera(o.dir, ZoomScroll(c.zoom, o.event.delta.y), o.hot), Use(o.event))
    else CameraStep(Camera(o.dir, c.zoom, o.hot), o.event)
  }

  /** After any event the pitch lies in [-90, 90] if it did before, and a drag while held always leaves it there. */
  lemma PitchStaysClamped(c: Camera, r: Rect, e: Event)
    requires e.kind == MouseDrag && c.hot ==> Min(r.width, r.height) > 0.0
    ensures -90.0 <= c.dir.y <= 90.0 ==> -90.0 <= PreviewGUI(c, r, e).camera.dir.y <= 90.0
    ensures e.kind == MouseDrag && c.hot ==> -90.0 <= PreviewGUI(c, r, e).camera.dir.y <= 90.0
  {
  }

  /** The 3D preview editor. `material` is the m_Material handle, None for null. */
  class VolumePreviewEditor {
    var x: Ratio
    var y: Ratio
    var z: Ratio
    var axis: Axis
    var zoom: real
    var previewDir: Vec2
    var material: Option<int>
    var materialOverride: Option<Override>
    const toggles: RgbToggles

    function SliceStateOf(): SliceState
      reads this
    {
      SliceState(Slices(x, y, z), axis)
    }

    constructor ()
      ensures SliceStateOf() == SliceState(FullVolume, X) && zoom == DefaultZoom && previewDir == Vec2(30.0, -25.0)
      ensures material.None? && materialOverride.None?
      ensures fresh(toggles) && toggles.State() == AllOn
    {
      x, y, z, axis := Value(1.0), Value(1.0), Value(1.0), X;
      zoom, previewDir := 3.0, Vec2(30.0, -25.0);
      material, materialOverride := None, None;
      toggles := new RgbToggles();
    }

    /**
     * OnEnable: keeps the first override that offers a material (each one
     * tried overwrites the material handle) and shows the full volume.
     */
    method OnEnable(overrides: seq<Override>)
      modifies this
      ensures match FirstOverride(overrides)
              case Some(k) => material == overrides[k].material && materialOverride == Some(overrides[k])
              case None => material == (if |overrides| == 0 then old(material) else None) && materialOverride == old(materialOverride)
      ensures Slices(x, y, z) == FullVolume
      ensures axis == old(axis) && zoom == old(zoom) && previewDir == old(previewDir)
    {
      var i := 0;
      while i < |overrides|
        invariant 0 <= i <= |overrides|
        invariant forall j :: 0 <= j < i ==> overrides[j].material.None?
        invariant materialOverride == old(materialOverride) && axis == old(axis) && zoom == old(zoom) && previewDir == old(previewDir)
        invariant material == if i == 0 then old(material) else None
      {
        material := overrides[i].material;
        if material.Some? {
          materialOverride := Some(overrides[i]);
          break;
        }
        i := i + 1;
      }
      x, y, z := Value(1.0), Value(1.0), Value(1.0);
    }

    /** OnDisable: the base class switches all three channels back on. */
    method OnDisable() returns (notices: seq<Notice>)
      modifies toggles
      ensures toggles.State() == AllOn && notices == Report(AllOn)
    {
      notices := toggles.OnDisable();
    }

    /** One call of OnPreviewSettings: the channel scan, the axis slider, the scale button and the (swapped) channel toggles. */
    method OnPreviewSettings(i: VolumeSettingsInput) returns (notices: seq<Notice>)
      requires DrawsSlider(i, materialOverride) ==> SliderResult(i)
      modifies this, toggles
      ensures var s := PreviewSettingsBar(old(SliceStateOf()), old(zoom), old(toggles.State()), old(materialOverride), i);
              SliceStateOf() == s.slices && zoom == s.zoom && toggles.State() == s.toggles.state && notices == s.toggles.notices
      ensures previewDir == old(previewDir) && material == old(material) && materialOverride == old(materialOverride)
    {
      var hasR, hasG, hasB := ScanChannels3D(i.formats);
      SliderBlock(i);
      if i.scalePressed {
        zoom := 3.0;
      }
      notices := toggles.DrawRGBToggles(hasR, hasB, hasG, i.toggles);
    }

    /** The axis popup and the slider of the axis picked. */
    method SliderBlock(i: VolumeSettingsInput)
      requires DrawsSlider(i, materialOverride) ==> SliderResult(i)
      modifies this
      ensures SliceStateOf() == SliderStep(old(SliceStateOf()), old(materialOverride), i)
      ensures zoom == old(zoom) && previewDir == old(previewDir) && material == old(material) && materialOverride == old(materialOverride)
    {
      if SlidersShown(i.implementAxisSliders, materialOverride) {
        if i.primaryIsTexture3D {
          RoundedSliderInRange(i);
          axis := i.axisPick;
          match axis {
            case X => x := SliceFraction(i.rounded + 1, i.width);
            case Y => y := SliceFraction(i.rounded + 1, i.height);
            case Z => z := SliceFraction(i.rounded + 1, i.depth);
          }
        }
      }
    }

    /** One event in the preview pane; `supported` is whether the hardware can draw 3D textures. */
    method OnPreviewGUI(r: Rect, supported: bool, e: Event, hot: bool) returns (hotAfter: bool, ev: Event)
      requires e.kind == MouseDrag && hot ==> Min(r.width, r.height) > 0.0
      modifies this
      ensures var d := if supported then PreviewGUI(Camera(old(previewDir), old(zoom), hot), r, e)
                       else CameraStep(Camera(old(previewDir), old(zoom), hot), e);
              previewDir == d.camera.dir && zoom == d.camera.zoom && hotAfter == d.camera.hot && ev == d.event
      ensures SliceStateOf() == old(SliceStateOf()) && material == old(material) && materialOverride == old(materialOverride)
    {
      hotAfter, ev := hot, e;
      if !supported {
        return;
      }
      var o := Drag2D(previewDir, r, e, hot);
      previewDir, hotAfter, ev := o.dir, o.hot, o.event;
      if ev.kind == ScrollWheel {
        zoom := Clamp(zoom + ev.delta.y * 0.1, 0.05, 5.0);
        ev := Use(ev);
      }
    }
  }
}
