/**
 * The legacy 3D texture preview: the same orbit camera, zoom and material
 * override as the current one, but an integer slider for the slice and the
 * channel toggles of the legacy base class.
 */
module LegacyVolumePreview {
  import opened Options
  import opened Gui
  import opened Channels
  import opened LegacyChannelToggles
  import opened Formats
  import opened Volume
  import VolumePreview

  /**
   * The widget results and host queries one OnPreviewSettings call reads; the
   * slider is EditorGUILayout.IntSlider, so `picked` is already an integer.
   */
  datatype LegacyVolumeSettingsInput = LegacyVolumeSettingsInput(
    formats: seq<Option<TextureFormat>>, implementAxisSliders: bool, primaryIsTexture3D: bool,
    width: int, height: int, depth: int, axisPick: Axis, picked: int,
    scalePressed: bool, toggles: ToggleInput)

  predicate DrawsSlider(i: LegacyVolumeSettingsInput, materialOverride: Option<Override>)
  {
    SlidersShown(i.implementAxisSliders, materialOverride) && i.primaryIsTexture3D
  }

  /** An integer slider over [1, size] of the axis picked gives a value in that range. */
  predicate SliderResult(i: LegacyVolumeSettingsInput)
  {
    1 <= i.picked <= SizeOf(i.width, i.height, i.depth, i.axisPick)
  }

  function SliderStep(s: VolumePreview.SliceState, materialOverride: Option<Override>, i: LegacyVolumeSettingsInput): (t: VolumePreview.SliceState)
    requires DrawsSlider(i, materialOverride) ==> SliderResult(i)
    ensures !DrawsSlider(i, materialOverride) ==> t == s
    ensures DrawsSlider(i, materialOverride) ==>
              t.axis == i.axisPick && forall b :: b != i.axisPick ==> SliceOf(t.slices, b) == SliceOf(s.slices, b)
  {
    if DrawsSlider(i, materialOverride) then
      var size := SizeOf(i.width, i.height, i.depth, i.axisPick);
      VolumePreview.SliceState(SetSlice(s.slices, i.axisPick, SliceFraction(i.picked, size)), i.axisPick)
    else s
  }

  /** The fraction set for the picked slice converts back to that slice when the axis has at least two. */
  lemma SliderSetsFraction(s: VolumePreview.SliceState, materialOverride: Option<Override>, i: LegacyVolumeSettingsInput)
    requires DrawsSlider(i, materialOverride) && SliderResult(i)
    ensures var f := SliceOf(SliderStep(s, materialOverride, i).slices, i.axisPick);
            var size := SizeOf(i.width, i.height, i.depth, i.axisPick);
            (size >= 2 ==> f.Value? && 0.0 <= f.v <= 1.0 && SliceIndex(f.v, size) == i.picked as real) &&
            (size == 1 ==> f == NotANumber)
  {
    var size := SizeOf(i.width, i.height, i.depth, i.axisPick);
    if size >= 2 {
      SliceRoundTrip(i.picked, size);
    }
  }

  /** In exact arithmetic, an integer slider handed the current slice and left alone keeps the fraction. */
  lemma UntouchedSliderKeepsFraction(s: VolumePreview.SliceState, materialOverride: Option<Override>, i: LegacyVolumeSettingsInput, k: int)
    requires DrawsSlider(i, materialOverride)
    requires var size := SizeOf(i.width, i.height, i.depth, i.axisPick);
             size >= 2 && 1 <= k <= size && SliceOf(s.slices, i.axisPick) == SliceFraction(k, size)
    requires i.picked == SliceIndex(SliceFraction(k, SizeOf(i.width, i.height, i.depth, i.axisPick)).v,
                                    SizeOf(i.width, i.height, i.depth, i.axisPick)).Floor
    ensures SliderResult(i)
    ensures SliderStep(s, materialOverride, i).slices == s.slices
  {
    var size := SizeOf(i.width, i.height, i.depth, i.axisPick);
    SliceRoundTrip(k, size);
    assert i.picked == k;
    var t := SliderStep(s, materialOverride, i).slices;
    assert SliceOf(t, i.axisPick) == SliceFraction(k, size);
    forall b: Axis
      ensures SliceOf(t, b) == SliceOf(s.slices, b)
    {
    }
    assert t.x == SliceOf(t, X) && t.y == SliceOf(t, Y) && t.z == SliceOf(t, Z);
  }

  function PreviewSettingsBar(s: VolumePreview.SliceState, zoom: real, toggles: Rgb, materialOverride: Option<Override>, i: LegacyVolumeSettingsInput): VolumePreview.VolumeSettings
    requires DrawsSlider(i, materialOverride) ==> SliderResult(i)
  {
    VolumePreview.VolumeSettings(SliderStep(s, materialOverride, i),
                   if i.scalePressed then DefaultZoom else zoom,
                   DrawRGB(toggles, ShownSwapped(ChannelsOf3D(i.formats)), i.toggles))
  }

  /** The legacy toggles keep a channel visible, counting the swapped flags, and the scale button resets the zoom. */
  lemma SettingsKeepAChannelVisible(s: VolumePreview.SliceState, zoom: real, toggles: Rgb, materialOverride: Option<Override>, i: LegacyVolumeSettingsInput)
    requires DrawsSlider(i, materialOverride) ==> SliderResult(i)
    ensures var c := ChannelsOf3D(i.formats);
            SomeVisible(PreviewSettingsBar(s, zoom, toggles, materialOverride, i).toggles.state, Rgb(c.r, c.b, c.g))
    ensures PreviewSettingsBar(s, zoom, toggles, materialOverride, i).zoom == if i.scalePressed then 3.0 else zoom
  {
    DrawKeepsAChannelVisible(toggles, ShownSwapped(ChannelsOf3D(i.formats)), i.toggles);
  }

  /** The legacy 3D preview editor. */
  class LegacyVolumePreviewEditor {
    var x: Ratio
    var y: Ratio
    var z: Ratio
    var axis: Axis
    var zoom: real
    var previewDir: Vec2
    var material: Option<int>
    var materialOverride: Option<Override>
    const toggles: LegacyRgbToggles

    function SliceStateOf(): VolumePreview.SliceState
      reads this
    {
      VolumePreview.SliceState(Slices(x, y, z), axis)
    }

    constructor ()
      ensures SliceStateOf() == VolumePreview.SliceState(FullVolume, X) && zoom == DefaultZoom && previewDir == Vec2(30.0, -25.0)
      ensures material.None? && materialOverride.None?
      ensures fresh(toggles) && toggles.State() == AllOn
    {
      x, y, z, axis := Value(1.0), Value(1.0), Value(1.0), X;
      zoom, previewDir := 3.0, Vec2(30.0, -25.0);
      material, materialOverride := None, None;
      toggles := new LegacyRgbToggles();
    }

    /** OnEnable: keeps the first override that offers a material and shows the full volume. */
    method OnEnable(overrides: seq<Override>)
      modifies this
      ensures match FirstOverride(overrides)
              case Some(k) => material == overrides[k].material && materialOverride == Some(overrides[k])
              case None => material == (if |overrides| == 0 then old(material) else None) && materialOverride == old(materialOverride)
      ensures Slices(x, y, z) == FullVolume
      ensures axis == old(axis) && zoom == old(zoom) && previewDir == old(previewDir)
    {
      var i := 0;
      while i < |overrides|
        invariant 0 <= i <= |overrides|
        invariant forall j :: 0 <= j < i ==> overrides[j].material.None?
        invariant materialOverride == old(materialOverride) && axis == old(axis) && zoom == old(zoom) && previewDir == old(previewDir)
        invariant material == if i == 0 then old(material) else None
      {
        material := overrides[i].material;
        if material.Some? {
          materialOverride := Some(overrides[i]);
          break;
        }
        i := i + 1;
      }
      x, y, z := Value(1.0), Value(1.0), Value(1.0);
    }

    /** One call of OnPreviewSettings: the channel scan, the integer axis slider, the scale button and the (swapped) toggles. */
    method OnPreviewSettings(i: LegacyVolumeSettingsInput) returns (notices: seq<Notice>)
      requires DrawsSlider(i, materialOverride) ==> SliderResult(i)
      modifies this, toggles
      ensures var s := PreviewSettingsBar(old(SliceStateOf()), old(zoom), old(toggles.State()), old(materialOverride), i);
              SliceStateOf() == s.slices && zoom == s.zoom && toggles.State() == s.toggles.state && notices == s.toggles.notices
      ensures previewDir == old(previewDir) && material == old(material) && materialOverride == old(materialOverride)
    {
      var hasR, hasG, hasB := ScanChannels3D(i.formats);
      SliderBlock(i);
      if i.scalePressed {
        zoom := 3.0;
      }
      notices := toggles.DrawRGBToggles(hasR, hasB, hasG, i.toggles);
    }

    method SliderBlock(i: LegacyVolumeSettingsInput)
      requires DrawsSlider(i, materialOverride) ==> SliderResult(i)
      modifies this
      ensures SliceStateOf() == SliderStep(old(SliceStateOf()), old(materialOverride), i)
      ensures zoom == old(zoom) && previewDir == old(previewDir) && material == old(material) && materialOverride == old(materialOverride)
    {
      if SlidersShown(i.implementAxisSliders, materialOverride) {
        if i.primaryIsTexture3D {
          axis := i.axisPick;
          match axis {
            case X => x := SliceFraction(i.picked, i.width);
            case Y => y := SliceFraction(i.picked, i.height);
            case Z => z := SliceFraction(i.picked, i.depth);
          }
        }
      }
    }

    /** One event in the preview pane, handled as in the current preview. */
    method OnPreviewGUI(r: Rect, supported: bool, e: Event, hot: bool) returns (hotAfter: bool, ev: Event)
      requires e.kind == MouseDrag && hot ==> Min(r.width, r.height) > 0.0
      modifies this
      ensures var d := if supported then VolumePreview.PreviewGUI(VolumePreview.Camera(old(previewDir), old(zoom), hot), r, e)
                       else VolumePreview.CameraStep(VolumePreview.Camera(old(previewDir), old(zoom), hot), e);
              previewDir == d.camera.dir && zoom == d.camera.zoom && hotAfter == d.camera.hot && ev == d.event
      ensures SliceStateOf() == old(SliceStateOf()) && material == old(material) && materialOverride == old(materialOverride)
    {
      hotAfter, ev := hot, e;
      if !supported {
        return;
      }
      var o := Drag2D(previewDir, r, e, hot);
      previewDir, hotAfter, ev := o.dir, o.hot, o.event;
      if ev.kind == ScrollWheel {
        zoom := Clamp(zoom + ev.delta.y * 0.1, 0.05, 5.0);
        ev := Use(ev);
      }
    }
  }
}
