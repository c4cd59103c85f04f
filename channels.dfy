/**
 * The three colour channels of a texture preview, the (r, g, b) triple of
 * channel flags that both generations of the preview base class keep, and
 * the record of the per-channel callbacks a toggle operation invokes.
 */
module Channels {

  datatype Channel = R | G | B

  /** One flag per channel: displayed, or present in a format. */
  datatype Rgb = Rgb(r: bool, g: bool, b: bool)

  const AllOn := Rgb(true, true, true)

  function Get(s: Rgb, c: Channel): bool
  {
    match c
    case R => s.r
    case G => s.g
    case B => s.b
  }

  /** `s` with the flag of channel `c` replaced by `v`. */
  function Set(s: Rgb, c: Channel, v: bool): (t: Rgb)
    ensures Get(t, c) == v
    ensures forall d :: d != c ==> Get(t, d) == Get(s, d)
  {
    match c
    case R => s.(r := v)
    case G => s.(g := v)
    case B => s.(b := v)
  }

  /** Only channel `c` on. */
  function Solo(c: Channel): (t: Rgb)
    ensures forall d :: Get(t, d) == (d == c)
  {
    Rgb(c == R, c == G, c == B)
  }

  /** Channel-wise disjunction, used to merge the channels of several targets. */
  function Or(s: Rgb, t: Rgb): (u: Rgb)
    ensures forall c :: Get(u, c) == (Get(s, c) || Get(t, c))
  {
    Rgb(s.r || t.r, s.g || t.g, s.b || t.b)
  }

  /** One invocation of rCallback, gCallback or bCallback with the value passed. */
  datatype Notice = Notice(channel: Channel, on: bool)

  /** The flags after an operation, with the callback invocations it made, in order. */
  datatype Outcome = Outcome(state: Rgb, notices: seq<Notice>)

  /** The three invocations, R then G then B, that report the triple `s`. */
  function Report(s: Rgb): (n: seq<Notice>)
    ensures |n| == 3
    ensures n[0].channel == R && n[1].channel == G && n[2].channel == B
    ensures forall i :: 0 <= i < 3 ==> n[i].on == Get(s, n[i].channel)
  {
    [Notice(R, s.r), Notice(G, s.g), Notice(B, s.b)]
  }

  /**
   * The widget results of one DrawRGBToggles call: whether each channel's
   * toggle was clicked in this event (the toggle widget then returns the
   * flipped value and reports a change) and the event's control modifier.
   */
  datatype ToggleInput = ToggleInput(clickedR: bool, clickedG: bool, clickedB: bool, control: bool)

  function Clicked(input: ToggleInput, c: Channel): bool
  {
    match c
    case R => input.clickedR
    case G => input.clickedG
    case B => input.clickedB
  }

  /** Some displayed channel is on, or all three are. */
  predicate SomeVisible(t: Rgb, shown: Rgb)
  {
    (shown.r && t.r) || (shown.g && t.g) || (shown.b && t.b) || t == AllOn
  }

  /** Input with exactly channel `c` clicked. */
  function ClickOn(c: Channel, control: bool): ToggleInput
  {
    ToggleInput(c == R, c == G, c == B, control)
  }
}
