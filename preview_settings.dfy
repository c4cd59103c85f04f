/**
 * The decisions the 2D previews take in their settings bar before drawing
 * it: the scan over the selected targets (alpha-only, displayable alpha,
 * mip count and, in the current preview, the channels present), whether
 * the alpha/RGB mode toggle is shown, the mip-level slider, and the mip
 * level used for rendering.
 */
module PreviewSettings {
  import opened Options
  import opened Channels
  import opened Formats

  /**
   * One selected target as the scan sees it. For a Texture2D the format
   * queries of the host (alpha-only format, format with alpha, usage mode
   * Default) are given as flags; every target reports its mip count.
   */
  datatype Target =
    | Missing
    | Tex2D(format: TextureFormat, alphaOnlyFormat: bool, hasAlphaFormat: bool, defaultUsage: bool, mipCount: int)
    | NonTexture2D(mipCount: int)

  /** What the scan over the targets yields. */
  datatype Scan = Scan(alphaOnly: bool, hasAlpha: bool, mipCount: int, channels: Rgb)

  const NoChannels := Rgb(false, false, false)

  function MaxInt(a: int, b: int): (m: int)
    ensures m >= a && m >= b && (m == a || m == b)
  {
    if a >= b then a else b
  }

  /** Before the loop: a Texture2D primary target starts alpha-only and without alpha, any other the other way round. */
  function InitialScan(primaryIsTexture2D: bool): Scan
  {
    Scan(primaryIsTexture2D, !primaryIsTexture2D, 1, NoChannels)
  }

  /**
   * The channels one target contributes. A target that is not a Texture2D
   * contributes the channels of the PRIMARY target's render-texture format
   * when the primary target is a render texture, and all three otherwise.
   */
  function ChannelsOf(t: Target, primaryRenderFormat: Option<RenderTextureFormat>): (c: Rgb)
    ensures t.Missing? ==> c == NoChannels
    ensures t.Tex2D? ==> c == CheckRGBFormats(t.format)
    ensures t.NonTexture2D? && primaryRenderFormat.None? ==> c == AllOn
    ensures t.NonTexture2D? && primaryRenderFormat.Some? ==> c == CheckRGBRenderFormats(primaryRenderFormat.value)
    ensures Prefix(c)
  {
    match t
    case Missing => NoChannels
    case Tex2D(format, _, _, _, _) => CheckRGBFormats(format)
    case NonTexture2D(_) =>
      if primaryRenderFormat.Some? then CheckRGBRenderFormats(primaryRenderFormat.value) else AllOn
  }

  /** One iteration of the loop over the targets; a missing target is skipped. */
  function ScanStep(acc: Scan, t: Target, primaryRenderFormat: Option<RenderTextureFormat>): Scan
  {
    if t.Missing? then acc
    else
      Scan(acc.alphaOnly && !(t.Tex2D? && !t.alphaOnlyFormat),
           acc.hasAlpha || (t.Tex2D? && t.hasAlphaFormat && t.defaultUsage),
           MaxInt(acc.mipCount, t.mipCount),
           Or(acc.channels, ChannelsOf(t, primaryRenderFormat)))
  }

  /** The scan over all targets, in order. */
  function ScanAll(primaryIsTexture2D: bool, primaryRenderFormat: Option<RenderTextureFormat>, targets: seq<Target>): Scan
    decreases |targets|
  {
    if |targets| == 0 then InitialScan(primaryIsTexture2D)
    else ScanStep(ScanAll(primaryIsTexture2D, primaryRenderFormat, targets[..|targets| - 1]), targets[|targets| - 1], primaryRenderFormat)
  }

  /** The loop over the selected targets. */
  method ScanTargets(primaryIsTexture2D: bool, primaryRenderFormat: Option<RenderTextureFormat>, targets: seq<Target>)
    returns (alphaOnly: bool, hasAlpha: bool, mipCount: int, hasR: bool, hasG: bool, hasB: bool)
    ensures Scan(alphaOnly, hasAlpha, mipCount, Rgb(hasR, hasG, hasB)) == ScanAll(primaryIsTexture2D, primaryRenderFormat, targets)
  {
    alphaOnly, hasAlpha, mipCount := false, true, 1;
    if primaryIsTexture2D {
      alphaOnly := true;
      hasAlpha := false;
    }
    hasR, hasG, hasB := false, false, false;
    var i := 0;
    while i < |targets|
      invariant 0 <= i <= |targets|
      invariant Scan(alphaOnly, hasAlpha, mipCount, Rgb(hasR, hasG, hasB)) == ScanAll(primaryIsTexture2D, primaryRenderFormat, targets[..i])
    {
      var t := targets[i];
      assert targets[..i + 1][..i] == targets[..i];
      ghost var before := Scan(alphaOnly, hasAlpha, mipCount, Rgb(hasR, hasG, hasB));
      if !t.Missing? {
        var checkFormat := false;
        var format := OtherTextureFormat(0);
        if t.Tex2D? {
          format := t.format;
          checkFormat := true;
        }
        if checkFormat {
          if !t.alphaOnlyFormat {
            alphaOnly := false;
          }
          if t.hasAlphaFormat {
            if t.defaultUsage {
              hasAlpha := true;
            }
          }
          var c := CheckRGBFormats(format);
          hasR, hasG, hasB := hasR || c.r, hasG || c.g, hasB || c.b;
        }
        mipCount := MaxInt(mipCount, t.mipCount);
        if !checkFormat {
          if primaryRenderFormat.Some? {
            var c := CheckRGBRenderFormats(primaryRenderFormat.value);
            hasR, hasG, hasB := hasR || c.r, hasG || c.g, hasB || c.b;
          } else {
            hasR, hasG, hasB := true, true, true;
          }
        }
      }
      assert Scan(alphaOnly, hasAlpha, mipCount, Rgb(hasR, hasG, hasB)) == ScanStep(before, t, primaryRenderFormat);
      i := i + 1;
    }
    assert targets[..|targets|] == targets;
  }

  /** The selection is alpha-only exactly when the primary target is a Texture2D and every Texture2D target has an alpha-only format. */
  lemma {:induction false} ScanAlphaOnly(primaryIsTexture2D: bool, primaryRenderFormat: Option<RenderTextureFormat>, targets: seq<Target>)
    ensures ScanAll(primaryIsTexture2D, primaryRenderFormat, targets).alphaOnly <==>
            primaryIsTexture2D && forall i :: 0 <= i < |targets| && targets[i].Tex2D? ==> targets[i].alphaOnlyFormat
    decreases |targets|
  {
    if |targets| > 0 {
      var n := |targets| - 1;
      ScanAlphaOnly(primaryIsTexture2D, primaryRenderFormat, targets[..n]);
      assert forall i :: 0 <= i < n ==> targets[..n][i] == targets[i];
    }
  }

  /** Alpha is displayable exactly when the primary target is not a Texture2D or some Texture2D target has an alpha format in Default usage. */
  lemma {:induction false} ScanHasAlpha(primaryIsTexture2D: bool, primaryRenderFormat: Option<RenderTextureFormat>, targets: seq<Target>)
    ensures ScanAll(primaryIsTexture2D, primaryRenderFormat, targets).hasAlpha <==>
            !primaryIsTexture2D ||
            exists i :: 0 <= i < |targets| && targets[i].Tex2D? && targets[i].hasAlphaFormat && targets[i].defaultUsage
    decreases |targets|
  {
    if |targets| > 0 {
      var n := |targets| - 1;
      ScanHasAlpha(primaryIsTexture2D, primaryRenderFormat, targets[..n]);
      assert forall i :: 0 <= i < n ==> targets[..n][i] == targets[i];
    }
  }

  /** The mip count is the largest over the present targets, and at least 1. */
  lemma {:induction false} ScanMipCount(primaryIsTexture2D: bool, primaryRenderFormat: Option<RenderTextureFormat>, targets: seq<Target>)
    ensures var m := ScanAll(primaryIsTexture2D, primaryRenderFormat, targets).mipCount;
            m >= 1 &&
            (forall i :: 0 <= i < |targets| && !targets[i].Missing? ==> m >= targets[i].mipCount) &&
            (m == 1 || exists i :: 0 <= i < |targets| && !targets[i].Missing? && m == targets[i].mipCount)
    decreases |targets|
  {
    if |targets| > 0 {
      var n := |targets| - 1;
      ScanMipCount(primaryIsTexture2D, primaryRenderFormat, targets[..n]);
      assert forall i :: 0 <= i < n ==> targets[..n][i] == targets[i];
    }
  }

  /** A channel is present exactly when some target contributes it: the flags are the OR over the targets. */
  lemma {:induction false} ScanChannels(primaryIsTexture2D: bool, primaryRenderFormat: Option<RenderTextureFormat>, targets: seq<Target>, c: Channel)
    ensures Get(ScanAll(primaryIsTexture2D, primaryRenderFormat, targets).channels, c) <==>
            exists i :: 0 <= i < |targets| && Get(ChannelsOf(targets[i], primaryRenderFormat), c)
    decreases |targets|
  {
    if |targets| > 0 {
      var n := |targets| - 1;
      ScanChannels(primaryIsTexture2D, primaryRenderFormat, targets[..n], c);
      assert forall i :: 0 <= i < n ==> targets[..n][i] == targets[i];
    }
  }

  /** The merged channels never show blue without green or green without red. */
  lemma {:induction false} ScanChannelsPrefix(primaryIsTexture2D: bool, primaryRenderFormat: Option<RenderTextureFormat>, targets: seq<Target>)
    ensures Prefix(ScanAll(primaryIsTexture2D, primaryRenderFormat, targets).channels)
    decreases |targets|
  {
    if |targets| > 0 {
      var n := |targets| - 1;
      ScanChannelsPrefix(primaryIsTexture2D, primaryRenderFormat, targets[..n]);
    }
  }

  /** Whether alpha is shown after the mode decision, and whether the alpha/RGB mode toggle is drawn. */
  datatype AlphaChoice = AlphaChoice(showAlpha: bool, toggleShown: bool)

  /**
   * The alpha-mode decision: an alpha-only selection always shows alpha, a
   * selection without displayable alpha never does, and only otherwise, and
   * not for a normal map, is the toggle drawn (a click on it flips the mode).
   */
  function AlphaMode(alphaOnly: bool, hasAlpha: bool, isNormalMap: bool, showAlpha: bool, toggleClicked: bool): (a: AlphaChoice)
    ensures alphaOnly ==> a == AlphaChoice(true, false)
    ensures !alphaOnly && !hasAlpha ==> a == AlphaChoice(false, false)
    ensures !alphaOnly && hasAlpha ==> a.toggleShown == !isNormalMap
    ensures !alphaOnly && hasAlpha ==> a.showAlpha == (if a.toggleShown && toggleClicked then !showAlpha else showAlpha)
  {
    var (show, showMode) := if alphaOnly then (true, false) else if !hasAlpha then (false, false) else (showAlpha, true);
    var toggleShown := showMode && !isNormalMap;
    AlphaChoice(if toggleShown && toggleClicked then !show else show, toggleShown)
  }

  /**
   * The mip slider, drawn when some target has more than one mip. A drag
   * picks a position within [0, mipCount - 1], modelled as a whole level
   * (rounding a whole level is the identity); a slider that is not dragged
   * hands back the stored level unchanged, even one outside that range, so
   * only the rendering step caps it.
   */
  function MipSlider(mipLevel: int, mipCount: int, drag: Option<int>): (m: int)
    ensures mipCount <= 1 || drag.None? ==> m == mipLevel
    ensures mipCount > 1 && drag.Some? ==> 0 <= m <= mipCount - 1
    ensures mipCount > 1 && drag.Some? && 0 <= drag.value <= mipCount - 1 ==> m == drag.value
  {
    if mipCount > 1 && drag.Some? then
      var picked := drag.value;
      if picked < 0 then 0 else if picked > mipCount - 1 then mipCount - 1 else picked
    else mipLevel
  }

  /** The mip level to render, or the cubemap case that is not implemented (it throws). */
  datatype MipLevel = Level(level: int) | CubemapNotImplemented

  /** GetMipLevelForRendering: 0 without a target, otherwise the selected level capped at the target's last mip. */
  function MipLevelForRendering(targetPresent: bool, isCubemap: bool, mipLevel: int, targetMipCount: int): (r: MipLevel)
    ensures !targetPresent ==> r == Level(0)
    ensures targetPresent && isCubemap ==> r == CubemapNotImplemented
    ensures targetPresent && !isCubemap ==>
              r.Level? && r.level <= mipLevel && r.level <= targetMipCount - 1 &&
              (r.level == mipLevel || r.level == targetMipCount - 1)
  {
    if !targetPresent then Level(0)
    else if isCubemap then CubemapNotImplemented
    else Level(if mipLevel <= targetMipCount - 1 then mipLevel else targetMipCount - 1)
  }

  /** A level chosen on the slider, or an untouched one already in range, renders as itself on a target that has that many mips. */
  lemma SliderLevelRenders(mipLevel: int, mipCount: int, drag: Option<int>, targetMipCount: int)
    requires mipCount > 1 && mipCount <= targetMipCount
    requires drag.Some? || 0 <= mipLevel <= mipCount - 1
    ensures MipLevelForRendering(true, false, MipSlider(mipLevel, mipCount, drag), targetMipCount) ==
            Level(MipSlider(mipLevel, mipCount, drag))
  {
  }

  /** An untouched slider keeps a stored level past the target's last mip; rendering caps it at that last mip. */
  lemma UntouchedLevelRendersCapped(mipLevel: int, mipCount: int, targetMipCount: int)
    requires mipCount > 1 && mipLevel > targetMipCount - 1
    ensures MipSlider(mipLevel, mipCount, None) == mipLevel
    ensures MipLevelForRendering(true, false, MipSlider(mipLevel, mipCount, None), targetMipCount) == Level(targetMipCount - 1)
  {
  }
}
