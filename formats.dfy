/**
 * Which colour channels a texture format carries, as the previews decide it
 * before drawing the R/G/B toggles. Each enumeration lists the formats the
 * decision names and a few representative full-colour ones; every format the
 * decision does not name falls into the catch-all constructor.
 */
module Formats {
  import opened Channels

  datatype TextureFormat =
    | Alpha8
    | RGHalf | RGFloat | BC5 | EAC_RG | EAC_RG_SIGNED | RG16
    | R16 | RHalf | RFloat | BC4 | EAC_R | EAC_R_SIGNED | R8
    | RGB24 | RGBA32 | ARGB32 | RGBAHalf | RGBAFloat | DXT1 | DXT5 | BC7
    | OtherTextureFormat(code: int)

  /** Two-channel (red and green) texture formats. */
  const RedGreenFormats: set<TextureFormat> :=
    {TextureFormat.RGHalf, TextureFormat.RGFloat, BC5, EAC_RG, EAC_RG_SIGNED, TextureFormat.RG16}

  /** Single-channel (red) texture formats. */
  const RedOnlyFormats: set<TextureFormat> :=
    {R16, TextureFormat.RHalf, TextureFormat.RFloat, BC4, EAC_R, EAC_R_SIGNED, TextureFormat.R8}

  /** The channels of a texture format (the TextureFormat overload). */
  function CheckRGBFormats(f: TextureFormat): (c: Rgb)
    ensures (c.b ==> c.g) && (c.g ==> c.r)
    ensures !c.r <==> f == Alpha8
    ensures c.r && !c.g <==> f in RedOnlyFormats
    ensures c.g && !c.b <==> f in RedGreenFormats
    ensures c == AllOn <==> f != Alpha8 && f !in RedOnlyFormats && f !in RedGreenFormats
  {
    match f
    case Alpha8 => Rgb(false, false, false)
    case RGHalf | RGFloat | BC5 | EAC_RG | EAC_RG_SIGNED | RG16 => Rgb(true, true, false)
    case R16 | RHalf | RFloat | BC4 | EAC_R | EAC_R_SIGNED | R8 => Rgb(true, false, false)
    case _ => AllOn
  }

  datatype RenderTextureFormat =
    | Depth
    | RG16 | RG32 | RGInt | RGHalf | RGFloat
    | RInt | R8 | RHalf | RFloat
    | ARGB32 | ARGBHalf | ARGBFloat | Default | DefaultHDR
    | OtherRenderTextureFormat(code: int)

  /** Two-channel render texture formats. */
  const RedGreenRenderFormats: set<RenderTextureFormat> :=
    {RenderTextureFormat.RG16, RG32, RGInt, RenderTextureFormat.RGHalf, RenderTextureFormat.RGFloat}

  /** Single-channel render texture formats. */
  const RedOnlyRenderFormats: set<RenderTextureFormat> :=
    {RInt, RenderTextureFormat.R8, RenderTextureFormat.RHalf, RenderTextureFormat.RFloat}

  /** The channels of a render texture format (the RenderTextureFormat overload). */
  function CheckRGBRenderFormats(f: RenderTextureFormat): (c: Rgb)
    ensures (c.b ==> c.g) && (c.g ==> c.r)
    ensures !c.r <==> f == Depth
    ensures c.r && !c.g <==> f in RedOnlyRenderFormats
    ensures c.g && !c.b <==> f in RedGreenRenderFormats
    ensures c == AllOn <==> f != Depth && f !in RedOnlyRenderFormats && f !in RedGreenRenderFormats
  {
    match f
    case Depth => Rgb(false, false, false)
    case RG16 | RG32 | RGInt | RGHalf | RGFloat => Rgb(true, true, false)
    case RInt | R8 | RHalf | RFloat => Rgb(true, false, false)
    case _ => AllOn
  }

  /** A channel set that is "a prefix of r, g, b": blue implies green implies red. */
  predicate Prefix(c: Rgb)
  {
    (c.b ==> c.g) && (c.g ==> c.r)
  }
}
