# NTexturePreview: a verified model of the preview logic

NTexturePreview replaces the host editor's texture inspector preview. This
project models the decision and state-update logic underneath its GUI calls:

- the R/G/B channel toggles of both generations of the preview base class;
- which channels a texture or render-texture format carries, and how the
  previews merge them over the selected targets;
- the view state of the current and of the older 2D preview: zoom
  multiplier, panning and its clamp, middle-click recentring, the scale
  button, the light and colour-sampling modes of the right button, the
  clamped colour-picker texel, the alpha mode and the mip level;
- the slice fractions, orbit camera, zoom and material-override choice of
  both generations of the 3D preview;
- the Texture3D Creator window, which fills a size x size x size colour
  buffer with a gradient.

Every widget's return value is an input: a click on a toggle, the value of a
slider, the index picked in a popup, `Mathf.RoundToInt` of a value, whether
the mouse is held by the orbit control. The host's texture queries are inputs
too: formats, alpha-only and has-alpha formats, usage mode, mip counts and
texture sizes. Each state-changing entity is a Dafny `class` with the
source's fields. Each method is proved to leave the state that a pure
function of the old state and the inputs describes. The properties the
previews promise are then proved about those functions as lemmas.

Files, one module each:

| file | module | models |
|---|---|---|
| options.dfy | Options | `Option` |
| gui.dfy | Gui | vectors, rectangles, events, `Event.Use`, `Mathf.Clamp`, a float division that may be 0 / 0 |
| channels.dfy | Channels | channel flags and the callback invocations |
| formats.dfy | Formats | both `CheckRGBFormats` overloads |
| channel_toggles.dfy | ChannelToggles | the current base class's toggles |
| legacy_channel_toggles.dfy | LegacyChannelToggles | the older base class's toggles |
| view2d.dfy | View2D | `ClampPos`, cursor position, fitted zoom, zoom steps, scale button |
| preview_settings.dfy | PreviewSettings | the target scan loop, alpha mode, mip slider, `GetMipLevelForRendering` |
| texture_preview.dfy | TexturePreview | the current 2D preview (`PreviewTexture`, `OnPreviewSettings`) |
| legacy_texture2d_preview.dfy | LegacyTexture2DPreview | the older 2D preview |
| volume.dfy | Volume | slices, `Drag2D`, 3D zoom, override choice, 3D channel scan |
| volume_preview.dfy | VolumePreview | the current 3D preview |
| legacy_volume_preview.dfy | LegacyVolumePreview | the older 3D preview |
| texture3d_creator.dfy | Texture3DCreator | the Texture3D Creator window |

## Model

| member | source | states |
|---|---|---|
| Channels.Report | Editor/NTexturePreviewBase.cs:100-105 | The callbacks are invoked once each, in R, G, B order, and each is passed the value its flag holds. |
| Formats.CheckRGBFormats | Editor/NTexturePreview.cs:1003-1035 | Alpha8 has no channel. The red-green formats have no blue. The single-channel formats have red only. Every other format has all three. Blue implies green implies red. |
| Formats.CheckRGBRenderFormats | Editor/NTexturePreview.cs:1037-1065 | The same classification for render-texture formats: Depth has no channel, the RG formats lack blue, the R formats are red only, all others have all three. |
| ChannelToggles.SetRGB | Editor/NTexturePreviewBase.cs:91-106 | Requesting the current triple yields all on. Any other request yields exactly that triple. The triple is reported R, G, B. |
| ChannelToggles.ResetIsIdempotent | Editor/NTexturePreviewBase.cs:93-100 | Requesting all on always yields all on, and doing it twice is the same as once. |
| ChannelToggles.DrawKeepsAChannelVisible | Editor/NTexturePreviewBase.cs:118-196 | After the toggles, some displayed channel is on, or all three are. |
| ChannelToggles.PlainClickSolos | Editor/NTexturePreviewBase.cs:121-143 | A plain click on a displayed channel solos it. If that channel was already solo, all three come back on. |
| ChannelToggles.SoloTwiceRestores | Editor/NTexturePreviewBase.cs:121-189 | Two plain clicks on the same displayed channel end with all three on. |
| ChannelToggles.ControlClickFlipsOne | Editor/NTexturePreviewBase.cs:130-134 | A control-click flips only that channel, unless the reset to all on follows. When the flipped triple keeps a displayed channel on, it is exactly the result. |
| ChannelToggles.NoClickKeepsState | Editor/NTexturePreviewBase.cs:118-196 | Without a click the flags are unchanged when a displayed channel is on, and reset to all on otherwise. |
| ChannelToggles.RgbToggles.constructor | Editor/NTexturePreviewBase.cs:89 | All three flags start on. |
| ChannelToggles.RgbToggles.SetRGBTo | Editor/NTexturePreviewBase.cs:91-106 | The new flags are the SetRGB outcome of the old ones. Each callback receives the value its field holds afterwards. |
| ChannelToggles.RgbToggles.ToggleChannel | Editor/NTexturePreviewBase.cs:121-189 | One channel's toggle block: its new flags, callbacks and whether that channel ends up displayed and on. |
| ChannelToggles.RgbToggles.DrawRGBToggles | Editor/NTexturePreviewBase.cs:118-196 | The flags and callback invocations are those of DrawRGB on the old flags and the clicks. |
| ChannelToggles.RgbToggles.OnDisable | Editor/NTexturePreviewBase.cs:10-12 | Disabling leaves all three flags on and reports R, G, B on. |
| LegacyChannelToggles.SetRGB | Assets/NTexturePreview/Editor/NTexturePreviewBase.cs:32-44 | The older SetRGBTo yields exactly the requested triple, with no reset rule, and reports it. |
| LegacyChannelToggles.DrawKeepsAChannelVisible | Assets/NTexturePreview/Editor/NTexturePreviewBase.cs:56-125 | After the older toggles, some displayed channel is on, or all three are. |
| LegacyChannelToggles.PlainClickFlips | Assets/NTexturePreview/Editor/NTexturePreviewBase.cs:59-78 | A plain click flips that channel, unless the reset follows. Its callback is invoked first, with the new value. |
| LegacyChannelToggles.ControlClickSolos | Assets/NTexturePreview/Editor/NTexturePreviewBase.cs:59-118 | A control-click on a displayed channel solos it, whatever the flags were. |
| LegacyChannelToggles.HiddenChannelKeeps | Assets/NTexturePreview/Editor/NTexturePreviewBase.cs:56-125 | Under plain clicks, a channel whose toggle is hidden keeps its flag unless everything is reset to on. |
| LegacyChannelToggles.LegacyRgbToggles.constructor | Assets/NTexturePreview/Editor/NTexturePreviewBase.cs:30 | All three flags start on. |
| LegacyChannelToggles.LegacyRgbToggles.SetRGBTo | Assets/NTexturePreview/Editor/NTexturePreviewBase.cs:32-44 | The flags become exactly the requested triple, and each callback receives its new value. |
| LegacyChannelToggles.LegacyRgbToggles.ToggleChannel | Assets/NTexturePreview/Editor/NTexturePreviewBase.cs:59-118 | One channel's older toggle block, as Block describes it. |
| LegacyChannelToggles.LegacyRgbToggles.DrawRGBToggles | Assets/NTexturePreview/Editor/NTexturePreviewBase.cs:56-125 | The flags and callbacks are those of the older DrawRGB. |
| View2D.HalfExtent | Editor/NTexturePreview.cs:803-813 | Half the panning range is half the zoomed texture size; the on-screen term cancels. |
| View2D.ClampPos | Editor/NTexturePreview.cs:803-813 | The result lies within [-w2, w2] x [-h2, h2] whenever that box is non-empty. A point already inside is returned unchanged. |
| View2D.ClampPosIdempotent | Assets/NTexturePreview/Editor/NTexture2DPreview.cs:232-242 | Clamping twice is clamping once. |
| View2D.ConvertPositionToLocalTextureRect | Editor/NTexturePreview.cs:793-799 | The local position plus the rectangle's centre is the position given. |
| View2D.TexSize | Editor/NTexturePreview.cs:307-308 | A texture size is at least 1, and equal to the reported size when that is. |
| View2D.ZoomLevel | Editor/NTexturePreview.cs:328 | The fitted zoom is the least of 1, width / texWidth and height / texHeight. It is positive for a rectangle of positive size. |
| View2D.PixelIndex | Editor/NTexturePreview.cs:726-727 | The picked index lies in [0, size - 1] and equals the rounded position when that is in range. |
| View2D.PixelPositionUnderCursor | Editor/NTexturePreview.cs:715-728 | The texel lies within the texture. When the cursor is over the texture, the texel's square holds the cursor. |
| View2D.CentreIsMiddleTexel | Editor/NTexturePreview.cs:715-728 | Unscrolled, the centre of the preview rectangle maps to the middle of the texture. |
| View2D.CursorFollowsMouse | Editor/NTexturePreview.cs:715-728 | Moving the mouse by dx moves the texel position by dx over the on-screen scale. |
| View2D.RescaleKeepsNormalisedPosition | Editor/NTexturePreview.cs:421-428 | Re-zooming scales the scroll position by the zoom ratio and so keeps its normalised position. |
| View2D.RescaleStaysInPan | Editor/NTexturePreview.cs:421-429 | A scroll position inside the old panning range stays inside the new one after re-zooming. |
| View2D.ZoomStepBounds | Editor/NTexturePreview.cs:417-420 | With 0 < zoomLevel <= 1, a scroll step leaves the multiplier in [1, 10 / zoomLevel]. |
| View2D.LegacyZoomStepBounds | Assets/NTexturePreview/Editor/NTexture2DPreview.cs:136-138 | The older step leaves the multiplier in [1, 3 / zoomLevel]. |
| View2D.ZoomStepDirection | Editor/NTexturePreview.cs:417-420 | Scrolling down never zooms in; scrolling up never zooms out. |
| View2D.ScaleButton | Editor/NTexturePreview.cs:937-955 | From any multiplier other than 1 / zoomLevel it goes to 1 / zoomLevel, keeping the point under the centre. At 1 / zoomLevel it goes to 1 with the scroll zeroed. |
| View2D.ScaleButtonTwiceResets | Editor/NTexturePreview.cs:937-955 | Two presses from anywhere other than 100% end at the fitted view with no scroll. |
| View2D.ScaleButtonAlternates | Assets/NTexturePreview/Editor/NTexture2DPreview.cs:352-371 | Below a fit of 100%, the button alternates between the fitted view and 100%. |
| PreviewSettings.ChannelsOf | Editor/NTexturePreview.cs:890-912 | A Texture2D contributes its format's channels. Any other target contributes the primary render texture's format channels, or all three when the primary is not a render texture. |
| PreviewSettings.ScanTargets | Editor/NTexturePreview.cs:857-921 | The loop over the targets yields exactly ScanAll. |
| PreviewSettings.ScanAlphaOnly | Editor/NTexturePreview.cs:857-921 | The selection is alpha-only exactly when the primary is a Texture2D and every Texture2D target has an alpha-only format. |
| PreviewSettings.ScanHasAlpha | Editor/NTexturePreview.cs:857-921 | Alpha is displayable exactly when the primary is not a Texture2D, or some Texture2D target has an alpha format in Default usage. |
| PreviewSettings.ScanMipCount | Assets/NTexturePreview/Editor/NTexture2DPreview.cs:304-340 | The mip count is at least 1, at least every present target's, and equal to one of them unless it is 1. |
| PreviewSettings.ScanChannels | Editor/NTexturePreview.cs:868-921 | The merged flags are the OR over the targets: a channel is present iff some target contributes it. |
| PreviewSettings.ScanChannelsPrefix | Editor/NTexturePreview.cs:868-921 | The merged flags keep blue implying green implying red. |
| PreviewSettings.AlphaMode | Assets/NTexturePreview/Editor/NTexture2DPreview.cs:403-415 | Alpha-only forces alpha on, and no alpha forces it off; the toggle is hidden in both cases. Otherwise the toggle is drawn, except for a normal map, and a click flips the mode. |
| PreviewSettings.MipSlider | Editor/NTexturePreview.cs:979-995 | A drag with more than one mip gives a level in [0, mipCount - 1], the picked one when in range. Without a drag, or with at most one mip, the stored level is kept exactly, even out of range. |
| PreviewSettings.MipLevelForRendering | Assets/NTexturePreview/Editor/NTexture2DPreview.cs:244-258 | No target gives 0, and a cubemap is not implemented. Otherwise the result is min(level, mipCount - 1). |
| PreviewSettings.SliderLevelRenders | Editor/NTexturePreview.cs:312-326 | A dragged level, or an untouched one already in range, renders as itself on a target with that many mips. |
| PreviewSettings.UntouchedLevelRendersCapped | Editor/NTexturePreview.cs:312-326 | An untouched slider keeps a stored level past the target's last mip, and rendering caps it at that last mip. |
| TexturePreview.RightButton | Editor/NTexturePreview.cs:336-387 | The right button changes only the light mode or the sampling flag, and may consume the event. |
| TexturePreview.Drag | Editor/NTexturePreview.cs:390-397 | A drag changes only the drag flag and the scroll position. |
| TexturePreview.MiddleClick | Editor/NTexturePreview.cs:399-406 | A middle click changes only the recentring target. |
| TexturePreview.WheelKeepsValid | Editor/NTexturePreview.cs:408-440 | The wheel keeps multiplier >= 1, zoom level in [0, 1] and light depth in [0.01, 1]. A zoom step ends at most at 10 / zoomLevel. |
| TexturePreview.PreviewKeepsValid | Editor/NTexturePreview.cs:260-440 | Every event keeps the view's bounds. |
| TexturePreview.ScrollKeepsZoomInRange | Editor/NTexturePreview.cs:417-420 | A scroll event leaves the multiplier as it was or in [1, 10 / zoomLevel]. |
| TexturePreview.ZoomOutResetsScroll | Editor/NTexturePreview.cs:434-435 | A non-zero scroll that ends at multiplier 1 zeroes the scroll position. |
| TexturePreview.DragStaysInPan | Editor/NTexturePreview.cs:390-397 | After a drag the view is marked dragged and the scroll position lies in the panning range. |
| TexturePreview.RightDragDoesNotPan | Editor/NTexturePreview.cs:336-397 | A right-button drag is consumed first and so never pans. |
| TexturePreview.MiddleClickRecentres | Editor/NTexturePreview.cs:399-406 | A middle click recentres iff no drag happened since the press, and the target lies in the panning range. |
| TexturePreview.RightButtonHoldsLight | Editor/NTexturePreview.cs:336-387 | On a normal map the right button holds the light mode while pressed; otherwise it holds colour sampling. |
| TexturePreview.SettingsKeepZoom | Editor/NTexturePreview.cs:934-958 | The settings bar keeps the multiplier at least 1. |
| TexturePreview.TogglesOnlyForColour | Editor/NTexturePreview.cs:960-963 | The toggles are drawn only when the selection is neither alpha-only nor a normal map, and then keep a channel visible. Otherwise the flags are untouched. |
| TexturePreview.TexturePreview2D.constructor | Editor/NTexturePreview.cs:196-239 | The initial view: multiplier 1, no scroll, light depth 0.1, no modes, all channels on. |
| TexturePreview.TexturePreview2D.PreviewTexture | Editor/NTexturePreview.cs:260-440 | The new view is PreviewEvent of the old one, or unchanged when another editor draws. The view bounds are kept. |
| TexturePreview.TexturePreview2D.HandleEvent | Editor/NTexturePreview.cs:336-440 | The four handlers in order, each seeing the event the previous one left. |
| TexturePreview.TexturePreview2D.RightButtonBlock | Editor/NTexturePreview.cs:336-387 | The right-button branch, as RightButton. |
| TexturePreview.TexturePreview2D.DragBlock | Editor/NTexturePreview.cs:390-397 | The drag branch, as Drag. |
| TexturePreview.TexturePreview2D.MiddleClickBlock | Editor/NTexturePreview.cs:399-406 | The middle-click branch, as MiddleClick. |
| TexturePreview.TexturePreview2D.WheelBlock | Editor/NTexturePreview.cs:408-440 | The scroll-wheel branch, as Wheel. |
| TexturePreview.TexturePreview2D.OnPreviewSettings | Editor/NTexturePreview.cs:831-995 | The new framing, flags, callbacks, alpha mode and mip level are PreviewSettingsBar of the old state. Everything else is unchanged. |
| TexturePreview.TexturePreview2D.ScaleBlock | Editor/NTexturePreview.cs:934-958 | The scale-button branch, as ScaleBar. |
| TexturePreview.TexturePreview2D.AlphaAndMipBlock | Editor/NTexturePreview.cs:965-995 | The alpha mode and mip level, as AlphaMode and MipSlider. |
| TexturePreview.TexturePreview2D.ToggleBlockFor | Editor/NTexturePreview.cs:960-963 | The channel toggles, as ToggleBar. |
| LegacyTexture2DPreview.Drag | Assets/NTexturePreview/Editor/NTexture2DPreview.cs:109-123 | A drag changes only the drag flag and the position. |
| LegacyTexture2DPreview.MiddleClick | Assets/NTexturePreview/Editor/NTexture2DPreview.cs:125-131 | A middle click changes only the recentring target. |
| LegacyTexture2DPreview.WheelKeepsValid | Assets/NTexturePreview/Editor/NTexture2DPreview.cs:133-151 | The wheel keeps the bounds, and a step ends at most at 3 / zoomLevel. |
| LegacyTexture2DPreview.PreviewKeepsValid | Assets/NTexturePreview/Editor/NTexture2DPreview.cs:61-151 | Every event keeps multiplier >= 1 and zoom level in [0, 1]. |
| LegacyTexture2DPreview.ScrollKeepsZoomInRange | Assets/NTexturePreview/Editor/NTexture2DPreview.cs:136-138 | A scroll leaves the multiplier in [1, 3 / zoomLevel]. |
| LegacyTexture2DPreview.FittedDragDoesNotPan | Assets/NTexturePreview/Editor/NTexture2DPreview.cs:111-116 | A drag at multiplier 1 changes neither the position nor the drag flag. |
| LegacyTexture2DPreview.ZoomedDragStaysInPan | Assets/NTexturePreview/Editor/NTexture2DPreview.cs:117-121 | A drag on a zoomed view pans, and the position ends in the panning range. |
| LegacyTexture2DPreview.FlipClicked | Assets/NTexturePreview/Editor/NTexture2DPreview.cs:375-401 | Each flag is flipped exactly when its toggle is clicked. |
| LegacyTexture2DPreview.FlipTwiceRestores | Assets/NTexturePreview/Editor/NTexture2DPreview.cs:375-401 | The same clicks twice restore the flags. |
| LegacyTexture2DPreview.FlipCanHideAll | Assets/NTexturePreview/Editor/NTexture2DPreview.cs:375-401 | These toggles have no reset: they can switch every channel off. |
| LegacyTexture2DPreview.SettingsKeepZoom | Assets/NTexturePreview/Editor/NTexture2DPreview.cs:349-373 | The settings bar keeps the multiplier at least 1. |
| LegacyTexture2DPreview.LegacyTexture2DPreviewEditor.constructor | Assets/NTexturePreview/Editor/NTexture2DPreview.cs:54-57 | The initial view: multiplier 1, position zero, all flags on. |
| LegacyTexture2DPreview.LegacyTexture2DPreviewEditor.OnPreviewGUI | Assets/NTexturePreview/Editor/NTexture2DPreview.cs:61-151 | The new view is PreviewEvent of the old one, or unchanged when it returns early. The bounds are kept. |
| LegacyTexture2DPreview.LegacyTexture2DPreviewEditor.HandleEvent | Assets/NTexturePreview/Editor/NTexture2DPreview.cs:109-151 | The three handlers in order. |
| LegacyTexture2DPreview.LegacyTexture2DPreviewEditor.DragBlock | Assets/NTexturePreview/Editor/NTexture2DPreview.cs:109-123 | The drag handler, as Drag; a fitted view only consumes the event. |
| LegacyTexture2DPreview.LegacyTexture2DPreviewEditor.MiddleClickBlock | Assets/NTexturePreview/Editor/NTexture2DPreview.cs:125-131 | The middle-click handler, as MiddleClick. |
| LegacyTexture2DPreview.LegacyTexture2DPreviewEditor.WheelBlock | Assets/NTexturePreview/Editor/NTexture2DPreview.cs:133-151 | The wheel handler, as Wheel. |
| LegacyTexture2DPreview.LegacyTexture2DPreviewEditor.OnPreviewSettings | Assets/NTexturePreview/Editor/NTexture2DPreview.cs:280-424 | The new framing, flags, alpha mode and mip level are PreviewSettingsBar of the old state. |
| LegacyTexture2DPreview.LegacyTexture2DPreviewEditor.AlphaAndMipBlock | Assets/NTexturePreview/Editor/NTexture2DPreview.cs:403-423 | The alpha mode and the mip level, as AlphaMode and MipSlider. |
| LegacyTexture2DPreview.LegacyTexture2DPreviewEditor.ScaleBlock | Assets/NTexturePreview/Editor/NTexture2DPreview.cs:349-373 | The scale button, as ScaleBar. |
| Volume.SetSlice | Editor/N3DTexturePreview.cs:130-144 | Only the chosen axis's fraction changes. |
| Volume.SliceFraction | Editor/N3DTexturePreview.cs:133 | For size >= 2 the fraction (k - 1) / (size - 1) lies in [0, 1], and the last slice gives 1. For size 1 it is 0 / 0. |
| Volume.SliceRoundTrip | Editor/N3DTexturePreview.cs:128-141 | For size >= 2, in exact arithmetic, f * (size - 1) + 1 maps the fraction of slice k back to k. |
| Volume.SliceIndexInRange | Editor/N3DTexturePreview.cs:128 | A fraction in [0, 1] maps to a slice index in [1, size]. |
| Volume.Drag2D | Editor/N3DTexturePreview.cs:245-277 | A held drag leaves the pitch in [-90, 90] and consumes the event; nothing else turns the view. A press inside a rectangle wider than 50 takes the mouse, and a release frees it. |
| Volume.DragTurnsByDelta | Editor/N3DTexturePreview.cs:268-269 | A held drag turns the yaw by the scaled delta, and the pitch too unless it hits a bound. |
| Volume.ZoomScroll | Editor/N3DTexturePreview.cs:187-193 | The zoom after a scroll lies in [0.05, 5], and is the plain step when that is in range. |
| Volume.FirstOverride | Editor/N3DTexturePreview.cs:53-62 | The index chosen is that of the first override offering a material; None means no override offers one. |
| Volume.ChannelsOf3DPresent | Editor/N3DTexturePreview.cs:110-118 | A channel is present iff some remaining volume's format carries it. |
| Volume.ChannelsOf3DPrefix | Editor/N3DTexturePreview.cs:110-118 | The merged channels keep blue implying green implying red. |
| Volume.ScanChannels3D | Editor/N3DTexturePreview.cs:110-118 | The loop's flags are ChannelsOf3D of the formats. |
| Volume.ShownSwapped | Editor/N3DTexturePreview.cs:158 | The toggles receive red, then blue in green's place, then green in blue's. |
| Volume.RedGreenShowsBlueToggle | Assets/NTexturePreview/Editor/N3DTexturePreview.cs:146 | For a red-green volume the swap shows the missing blue toggle and hides green. |
| VolumePreview.RoundedSliderInRange | Editor/N3DTexturePreview.cs:133-141 | The rounded slider value plus 1 is a slice in [1, size]. |
| VolumePreview.SliderStep | Editor/N3DTexturePreview.cs:120-144 | Without the slider nothing changes. With it, the axis becomes the picked one and the other two fractions are kept. |
| VolumePreview.SliderSetsFraction | Editor/N3DTexturePreview.cs:128-144 | For size >= 2 the picked axis gets a fraction in [0, 1] that converts back to the slider's slice. For size 1 it gets 0 / 0. |
| VolumePreview.UntouchedSliderKeepsFraction | Editor/N3DTexturePreview.cs:128-137 | In exact arithmetic, a slider handed the current (truncated) slice and left alone keeps every fraction. |
| VolumePreview.ScaleButtonResetsZoom | Editor/N3DTexturePreview.cs:152-156 | The scale button sets the zoom to 3; otherwise it is kept. |
| VolumePreview.SettingsKeepAChannelVisible | Editor/N3DTexturePreview.cs:158 | Measured against the swapped flags they are drawn with, the toggles keep a channel visible. |
| VolumePreview.PreviewGUI | Editor/N3DTexturePreview.cs:174-193 | A scroll leaves the zoom in [0.05, 5], consumes the event and keeps the direction. Other events keep the zoom. |
| VolumePreview.PitchStaysClamped | Editor/N3DTexturePreview.cs:183-193 | The pitch stays in [-90, 90] once there, and any held drag puts it there. |
| VolumePreview.VolumePreviewEditor.constructor | Editor/N3DTexturePreview.cs:92-103 | Full volume on axis X, zoom 3, direction (30, -25), no override, all channels on. |
| VolumePreview.VolumePreviewEditor.OnEnable | Editor/N3DTexturePreview.cs:53-69 | The first override offering a material is kept with its material, and every fraction is set to 1. |
| VolumePreview.VolumePreviewEditor.OnDisable | Editor/N3DTexturePreview.cs:73-75 | The base-class reset: all channels on, reported R, G, B. |
| VolumePreview.VolumePreviewEditor.OnPreviewSettings | Editor/N3DTexturePreview.cs:105-159 | The new slices, zoom, flags and callbacks are PreviewSettingsBar of the old state. |
| VolumePreview.VolumePreviewEditor.SliderBlock | Editor/N3DTexturePreview.cs:120-144 | The axis popup and slider, as SliderStep. |
| VolumePreview.VolumePreviewEditor.OnPreviewGUI | Editor/N3DTexturePreview.cs:174-193 | An unsupported preview changes nothing. Otherwise the camera becomes PreviewGUI of the old one. |
| LegacyVolumePreview.SliderStep | Assets/NTexturePreview/Editor/N3DTexturePreview.cs:111-132 | Without the slider nothing changes. With it, the axis becomes the picked one and the other two fractions are kept. |
| LegacyVolumePreview.SliderSetsFraction | Assets/NTexturePreview/Editor/N3DTexturePreview.cs:119-130 | The integer slider's slice converts to a fraction in [0, 1] and back, for size >= 2. |
| LegacyVolumePreview.UntouchedSliderKeepsFraction | Assets/NTexturePreview/Editor/N3DTexturePreview.cs:119-130 | In exact arithmetic, an integer slider handed the current slice and left alone keeps every fraction. |
| LegacyVolumePreview.SettingsKeepAChannelVisible | Assets/NTexturePreview/Editor/N3DTexturePreview.cs:140-146 | The older toggles keep a swapped channel visible, and the scale button sets the zoom to 3. |
| LegacyVolumePreview.LegacyVolumePreviewEditor.constructor | Assets/NTexturePreview/Editor/N3DTexturePreview.cs:85-93 | Full volume on axis X, zoom 3, direction (30, -25), all channels on. |
| LegacyVolumePreview.LegacyVolumePreviewEditor.OnEnable | Assets/NTexturePreview/Editor/N3DTexturePreview.cs:44-60 | The first override offering a material is kept, and every fraction is set to 1. |
| LegacyVolumePreview.LegacyVolumePreviewEditor.OnPreviewSettings | Assets/NTexturePreview/Editor/N3DTexturePreview.cs:95-147 | The new slices, zoom, flags and callbacks are the older PreviewSettingsBar of the old state. |
| LegacyVolumePreview.LegacyVolumePreviewEditor.SliderBlock | Assets/NTexturePreview/Editor/N3DTexturePreview.cs:111-138 | The axis popup and integer slider, as SliderStep. |
| LegacyVolumePreview.LegacyVolumePreviewEditor.OnPreviewGUI | Assets/NTexturePreview/Editor/N3DTexturePreview.cs:165-184 | The camera becomes PreviewGUI of the old one, or is unchanged when the preview is unsupported. |
| Texture3DCreator.Voxel | Assets/Editor/Texture3DCreator.cs:23-31 | Alpha is 1. For size >= 2 each component is its coordinate over size - 1. For size 1 every component is 0 / 0. |
| Texture3DCreator.DecodeIndex | Assets/Editor/Texture3DCreator.cs:24-34 | The slot x + y * size + z * size^2 lies in [0, size^3) and splits back into (x, y, z). |
| Texture3DCreator.SlotHoldsVoxel | Assets/Editor/Texture3DCreator.cs:29-31 | The colour written for a voxel is the one its slot decodes to. |
| Texture3DCreator.IndexInjective | Assets/Editor/Texture3DCreator.cs:24-34 | Two voxels share a slot iff they are the same voxel, so each slot is written once. |
| Texture3DCreator.Gradient | Assets/Editor/Texture3DCreator.cs:22-34 | The gradient has size^3 entries, each the colour its slot decodes to. |
| Texture3DCreator.GradientIsFilled | Assets/Editor/Texture3DCreator.cs:22-34 | Every voxel's colour is at its slot in the gradient. |
| Texture3DCreator.FillGradient | Assets/Editor/Texture3DCreator.cs:22-34 | The buffer has size^3 entries and the loops end with idx == size^3. The buffer is the gradient. |
| Texture3DCreator.FillRow | Assets/Editor/Texture3DCreator.cs:29-32 | The innermost loop advances idx by size and extends the filled prefix by one row. |
| Texture3DCreator.Texture3DCreatorWindow.constructor | Assets/Editor/Texture3DCreator.cs:14 | The size field starts at 64. |
| Texture3DCreator.Texture3DCreatorWindow.OnGUI | Assets/Editor/Texture3DCreator.cs:16-39 | The size field is stored. A fresh, filled buffer is made iff the button is pressed and size^3 fits in a 32-bit int. |

## Left out

- Drawing and rendering are left out, being GPU-side: the GL grids, sprite-rect overlays, DrawPreviewTexture and DrawTextureAlpha, the 3D cube render, fog, the camera near plane and the shader properties set on materials (`SetFloat`).
- PreviewGUIUtility, the scroll view and its `EndScrollView` clipping are left out: they are reflection into host internals. The model keeps the scroll position the preview code sets, not the one the scroll view hands back.
- Pixel readback, the sample-texture cache, `Delinearize` and the colour copied to the clipboard are left out (GPU state and gamma maths). Sampling is modelled as a flag only.
- Notification timing and fading depend on a wall clock and on text measurement, so they are left out.
- `AnimVector3` animation: a middle click records where the view is asked to glide (`recenterTarget`); the glide itself, over time, is not modelled.
- Reflection into host internals is left out. The `TextureUtil` results (formats, alpha-only, has-alpha, usage mode, mip counts, sizes) are inputs, and so is the choice of the built-in editor that draws cubemaps and volume render textures (`delegated`, `supported`).
- `ContinuousRepaint` and its `EditorPrefs` persistence, the shader button, `Styles`, and the render-texture and example inspector wrappers are left out: they are editor glue.
- The 3D preview's `SetXYZFloats` material update is left out; the material handle is kept as an opaque `Option<int>`.
- The hot-control bookkeeping of `Drag2D` is an input and output (`hot`), and `GetTypeForControl` filtering is not modelled separately. `SetWantsMouseJumping` and `GUI.changed` are left out.
- Floats are reals: no rounding, infinities or NaN, except the explicit 0 / 0 of a one-slice axis and of a size-1 Texture3D gradient. Approximate comparisons (`> 0.001f`) are plain (in)equalities.
- `Mathf.RoundToInt` is an input, constrained only to lie within a half of the value it rounds. The ties-to-even rule is not modelled.
- TexturePreview.TexturePreview2D.PreviewTexture: requires a rectangle of non-negative size, and of positive size for a scroll event. The source would divide by a zero zoom level there and get an infinity, which reals cannot express.
- TexturePreview.TexturePreview2D.OnPreviewSettings: requires a positive zoom level when the scale button is pressed, for the same reason.
- LegacyTexture2DPreview.LegacyTexture2DPreviewEditor.OnPreviewGUI: carries the same rectangle requirements as the current preview's PreviewTexture.
- LegacyTexture2DPreview.LegacyTexture2DPreviewEditor.OnPreviewSettings: requires a positive zoom level when the scale button is pressed.
- VolumePreview.VolumePreviewEditor.OnPreviewGUI: requires a rectangle with a positive shorter side for a drag while the mouse is held, since `Drag2D` divides by it.
- LegacyVolumePreview.LegacyVolumePreviewEditor.OnPreviewGUI: requires a rectangle with a positive shorter side for a drag while the mouse is held, since `Drag2D` divides by it.
- Volume.Drag2D: requires a rectangle with a positive shorter side for a drag while the mouse is held, because it divides by that side; with a zero side the source would get an infinity, which reals cannot express.
- VolumePreview.VolumePreviewEditor.OnPreviewSettings: requires the slider's value to lie within its [1, size] range, as the widget guarantees.
- LegacyVolumePreview.LegacyVolumePreviewEditor.OnPreviewSettings: requires the integer slider's value to lie within its [1, size] range, as the widget guarantees.
- The older 2D preview reads render-texture formats nowhere, so its channel flags are not merged (its scan passes no render format). Its `m_R`, `m_G`, `m_B` flags are used there without being declared (the older `NTexturePreview` it derives from, Assets/NTexturePreview/Editor/NTexturePreview.cs:7, declares none), so their initial value, on, is taken from the private declaration at Assets/NTexturePreview/Editor/NTexturePreviewBase.cs:30.
- Aggregation of channels: a target that is not a Texture2D contributes the channels of the PRIMARY target's render-texture format, as the code does, not its own format.
- The 3D previews pass the merged channels to the toggles with green and blue swapped. This is modelled as written (Volume.ShownSwapped, Volume.RedGreenShowsBlueToggle).
- Texture3DCreator.Texture3DCreatorWindow.OnGUI: the `Texture3D` object, `SetPixels`, `Apply` and the asset save are not modelled; the result is the colour buffer. A negative size, or a size whose cube overflows a 32-bit int, yields no buffer, standing for the exception the source throws there.
- VolumePreview.UntouchedSliderKeepsFraction: the stability holds in exact arithmetic only. The source stores the fraction (k - 1) / (size - 1) as a float and truncates f * (size - 1) + 1 on the next frame, so rounding can lower the slice by one: for a depth of 23, slice 14 gives a fraction whose product truncates to 13 in single precision (a hand computation, not executed in C#).
- LegacyVolumePreview.UntouchedSliderKeepsFraction: the same holds for the integer slider; in floats the truncation of the current slice can lower it by one, as for depth 23, slice 14.
- Volume.SliceRoundTrip: the fraction-to-slice round trip is exact in reals only; single-precision rounding of (k - 1) / (size - 1) can make the truncated slice one lower.
- Channels.Report: the source null-checks each of `rCallback`, `gCallback` and `bCallback` before invoking it; the model always reports all three. Every preview subclass sets all three callbacks in OnEnable (Editor/N3DTexturePreview.cs:64-66, Editor/NTexturePreview.cs:33-45), so the behaviour is the same for the editors modelled here.
- The mip level of the current preview is a float rounded by `Mathf.Round`; the model keeps it an integer, the drag being a whole level.
- The cubemap branch of `GetMipLevelForRendering` throws; it is modelled as the result CubemapNotImplemented.
