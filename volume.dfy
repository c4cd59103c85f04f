/**
 * The logic both generations of the 3D texture preview share: the slice
 * fractions of the three axes and their conversion to and from slice
 * indices, the orbit drag, the zoom step, the choice of a material override
 * and the channel scan over the selected volumes.
 */
module Volume {
  import opened Options
  import opened Gui
  import opened Channels
  import opened Formats

  datatype Axis = X | Y | Z

  /** The visible fraction of each axis: 1 is the full volume; an axis of size 1 has the fraction 0 / 0. */
  datatype Slices = Slices(x: Ratio, y: Ratio, z: Ratio)

  const FullVolume := Slices(Value(1.0), Value(1.0), Value(1.0))

  function SliceOf(s: Slices, a: Axis): Ratio
  {
    match a
    case X => s.x
    case Y => s.y
    case Z => s.z
  }

  /** `s` with the fraction of axis `a` replaced: the other two are untouched. */
  function SetSlice(s: Slices, a: Axis, f: Ratio): (t: Slices)
    ensures SliceOf(t, a) == f
    ensures forall b :: b != a ==> SliceOf(t, b) == SliceOf(s, b)
  {
    match a
    case X => s.(x := f)
    case Y => s.(y := f)
    case Z => s.(z := f)
  }

  /** The size of a texture along an axis. */
  function SizeOf(width: int, height: int, depth: int, a: Axis): int
  {
    match a
    case X => width
    case Y => height
    case Z => depth
  }

  /** The fraction a slider showing the 1-based slice `k` of `size` slices sets: (k - 1) / (size - 1). */
  function SliceFraction(k: int, size: int): (f: Ratio)
    requires 1 <= k <= size
    ensures size == 1 ==> f == NotANumber
    ensures size >= 2 ==> f.Value? && 0.0 <= f.v <= 1.0
    ensures size >= 2 && k == size ==> f == Value(1.0)
  {
    Quotient((k - 1) as real, (size - 1) as real)
  }

  /** The slice a fraction stands for: f * (size - 1) + 1. */
  function SliceIndex(f: real, size: int): real
  {
    f * (size - 1) as real + 1.0
  }

  /** For at least two slices, the slice index and the fraction convert into each other without loss, in exact arithmetic. */
  lemma SliceRoundTrip(k: int, size: int)
    requires size >= 2 && 1 <= k <= size
    ensures SliceFraction(k, size).Value?
    ensures SliceIndex(SliceFraction(k, size).v, size) == k as real
  {
    var d := (size - 1) as real;
    assert (k - 1) as real / d * d == (k - 1) as real;
  }

  /** Every fraction in [0, 1] that a slice index produces lies between the first and the last slice. */
  lemma SliceIndexInRange(f: real, size: int)
    requires size >= 1 && 0.0 <= f <= 1.0
    ensures 1.0 <= SliceIndex(f, size) <= size as real
  {
    assert f * (size - 1) as real <= (size - 1) as real;
  }

  /**
   * The orbit drag of the 3D preview: a press inside a rectangle wider than
   * 50 takes the mouse (`hot`), a release lets it go, and a drag while it is
   * held turns the view by the delta scaled by 140 (three times that with
   * shift) over the shorter side, with the pitch clamped to [-90, 90].
   */
  datatype Orbit = Orbit(dir: Vec2, event: Event, hot: bool)

  function Drag2D(dir: Vec2, r: Rect, e: Event, hot: bool): (o: Orbit)
    requires e.kind == MouseDrag && hot ==> Min(r.width, r.height) > 0.0
    ensures e.kind == MouseDrag && hot ==> -90.0 <= o.dir.y <= 90.0 && o.event == Use(e) && o.hot
    ensures !(e.kind == MouseDrag && hot) ==> o.dir == dir
    ensures e.kind == MouseDown ==> o.hot == (hot || (Contains(r, e.mouse) && r.width > 50.0))
    ensures e.kind == MouseUp ==> !o.hot
    ensures e.kind != MouseDown && e.kind != MouseUp ==> o.hot == hot
  {
    match e.kind
    case MouseDown =>
      if Contains(r, e.mouse) && r.width > 50.0 then Orbit(dir, Use(e), true) else Orbit(dir, e, hot)
    case MouseUp => Orbit(dir, e, false)
    case MouseDrag =>
      if hot then
        var k := 140.0 * (if e.shift then 3.0 else 1.0) / Min(r.width, r.height);
        Orbit(Vec2(dir.x - k * e.delta.x, Clamp(dir.y - k * e.delta.y, -90.0, 90.0)), Use(e), hot)
      else Orbit(dir, e, hot)
    case _ => Orbit(dir, e, hot)
  }

  /** A drag while held turns the yaw by exactly the scaled delta, and the pitch too unless it hits a bound. */
  lemma DragTurnsByDelta(dir: Vec2, r: Rect, e: Event)
    requires e.kind == MouseDrag && Min(r.width, r.height) > 0.0
    ensures var k := 140.0 * (if e.shift then 3.0 else 1.0) / Min(r.width, r.height);
            var o := Drag2D(dir, r, e, true);
            o.dir.x == dir.x - k * e.delta.x &&
            (-90.0 <= dir.y - k * e.delta.y <= 90.0 ==> o.dir.y == dir.y - k * e.delta.y)
  {
  }

  /** The camera distance of the 3D preview and the step the scroll wheel makes to it. */
  const DefaultZoom := 3.0

  function ZoomScroll(zoom: real, scrollDelta: real): (z: real)
    ensures 0.05 <= z <= 5.0
    ensures 0.05 <= zoom + scrollDelta * 0.1 <= 5.0 ==> z == zoom + scrollDelta * 0.1
  {
    Clamp(zoom + scrollDelta * 0.1, 0.05, 5.0)
  }

  /** One material override: the material it offers for the target (None for null), and whether it keeps the axis sliders. */
  datatype Override = Override(material: Option<int>, implementAxisSliders: bool)

  /** The index of the first override that offers a material. */
  function FirstOverride(overrides: seq<Override>): (k: Option<nat>)
    ensures k.Some? ==> k.value < |overrides| && overrides[k.value].material.Some? &&
                        forall j :: 0 <= j < k.value ==> overrides[j].material.None?
    ensures k.None? ==> forall j :: 0 <= j < |overrides| ==> overrides[j].material.None?
  {
    if |overrides| == 0 then None
    else if overrides[0].material.Some? then Some(0)
    else
      match FirstOverride(overrides[1..])
      case None => None
      case Some(j) => Some(j + 1)
  }

  /** Whether the axis slider is drawn: the editor implements it and no override turns it off. */
  predicate SlidersShown(implementAxisSliders: bool, materialOverride: Option<Override>)
  {
    implementAxisSliders && (materialOverride.None? || materialOverride.value.implementAxisSliders)
  }

  /** The channels of the selected volumes; None stands for a target that has disappeared. */
  function ChannelsOf3D(formats: seq<Option<TextureFormat>>): Rgb
    decreases |formats|
  {
    if |formats| == 0 then Rgb(false, false, false)
    else
      var last := formats[|formats| - 1];
      var c := ChannelsOf3D(formats[..|formats| - 1]);
      if last.None? then c else Or(c, CheckRGBFormats(last.value))
  }

  /** A channel is present exactly when some remaining volume's format carries it. */
  lemma {:induction false} ChannelsOf3DPresent(formats: seq<Option<TextureFormat>>, c: Channel)
    ensures Get(ChannelsOf3D(formats), c) <==>
            exists j :: 0 <= j < |formats| && formats[j].Some? && Get(CheckRGBFormats(formats[j].value), c)
    decreases |formats|
  {
    if |formats| > 0 {
      var init := formats[..|formats| - 1];
      ChannelsOf3DPresent(init, c);
      if Get(ChannelsOf3D(formats), c) {
        if !Get(ChannelsOf3D(init), c) {
          assert formats[|formats| - 1].Some? && Get(CheckRGBFormats(formats[|formats| - 1].value), c);
        } else {
          var j :| 0 <= j < |init| && init[j].Some? && Get(CheckRGBFormats(init[j].value), c);
          assert formats[j] == init[j];
        }
      } else {
        forall j | 0 <= j < |formats| && formats[j].Some?
          ensures !Get(CheckRGBFormats(formats[j].value), c)
        {
          if j < |init| {
            assert formats[j] == init[j];
          }
        }
      }
    }
  }

  /** The merged channels keep blue implying green implying red. */
  lemma {:induction false} ChannelsOf3DPrefix(formats: seq<Option<TextureFormat>>)
    ensures Prefix(ChannelsOf3D(formats))
    decreases |formats|
  {
    if |formats| > 0 {
      ChannelsOf3DPrefix(formats[..|formats| - 1]);
    }
  }

  /** The loop over the selected volumes that ORs their channels together. */
  method ScanChannels3D(formats: seq<Option<TextureFormat>>) returns (hasR: bool, hasG: bool, hasB: bool)
    ensures Rgb(hasR, hasG, hasB) == ChannelsOf3D(formats)
  {
    hasR, hasG, hasB := false, false, false;
    var i := 0;
    while i < |formats|
      invariant 0 <= i <= |formats|
      invariant Rgb(hasR, hasG, hasB) == ChannelsOf3D(formats[..i])
    {
      assert formats[..i + 1][..i] == formats[..i];
      if formats[i].Some? {
        var c := CheckRGBFormats(formats[i].value);
        hasR := hasR || c.r;
        hasB := hasB || c.b;
        hasG := hasG || c.g;
      }
      i := i + 1;
    }
    assert formats[..|formats|] == formats;
  }

  /** The channel flags handed to DrawRGBToggles: the call passes blue in green's place and green in blue's. */
  function ShownSwapped(c: Rgb): (shown: Rgb)
    ensures shown.r == c.r && shown.g == c.b && shown.b == c.g
  {
    Rgb(c.r, c.b, c.g)
  }

  /** For a red-green volume the toggles show blue, which it lacks, and hide green, which it has. */
  lemma RedGreenShowsBlueToggle(f: TextureFormat)
    requires f in RedGreenFormats
    ensures ShownSwapped(ChannelsOf3D([Some(f)])) == Rgb(true, false, true)
  {
    assert [Some(f)][..0] == [];
  }
}
