/**
 * The immediate-mode GUI values the previews read: 2D vectors, rectangles,
 * the current event, and the clamping helpers of the maths library. Floats
 * are modelled as reals, so there is no rounding, no infinity and no NaN.
 */
module Gui {

  datatype Vec2 = Vec2(x: real, y: real)

  const Zero := Vec2(0.0, 0.0)

  function Add(a: Vec2, b: Vec2): Vec2
  {
    Vec2(a.x + b.x, a.y + b.y)
  }

  function Sub(a: Vec2, b: Vec2): Vec2
  {
    Vec2(a.x - b.x, a.y - b.y)
  }

  function Scale(k: real, a: Vec2): Vec2
  {
    Vec2(k * a.x, k * a.y)
  }

  /** A rectangle given by its corner and its size. */
  datatype Rect = Rect(x: real, y: real, width: real, height: real)

  /** Rect.Contains: the corner is inside, the far edges are not. */
  predicate Contains(r: Rect, p: Vec2)
  {
    r.x <= p.x < r.x + r.width && r.y <= p.y < r.y + r.height
  }

  /** The kinds of event the previews react to; `Used` is what a consumed event reports. */
  datatype EventType = MouseDown | MouseUp | MouseDrag | ScrollWheel | Repaint | Layout | Used | OtherEvent

  /** The current event: its kind, mouse button, delta, mouse position and modifier keys. */
  datatype Event = Event(kind: EventType, button: int, delta: Vec2, mouse: Vec2,
                         control: bool, command: bool, alt: bool, shift: bool)

  /** Event.Use: later handlers see the event as consumed. */
  function Use(e: Event): (u: Event)
    ensures u.kind == Used
    ensures u == e.(kind := Used)
  {
    e.(kind := Used)
  }

  function Max(a: real, b: real): (m: real)
    ensures m >= a && m >= b && (m == a || m == b)
  {
    if a >= b then a else b
  }

  function Min(a: real, b: real): (m: real)
    ensures m <= a && m <= b && (m == a || m == b)
  {
    if a <= b then a else b
  }

  /** Mathf.Clamp on floats: below the minimum gives the minimum, otherwise above the maximum gives the maximum. */
  function Clamp(v: real, lo: real, hi: real): (c: real)
    ensures lo <= hi ==> lo <= c <= hi
    ensures lo <= v <= hi ==> c == v
    ensures lo <= hi && v < lo ==> c == lo
    ensures lo <= hi && v > hi ==> c == hi
  {
    if v < lo then lo else if v > hi then hi else v
  }

  /** Mathf.Clamp on ints. */
  function ClampInt(v: int, lo: int, hi: int): (c: int)
    ensures lo <= hi ==> lo <= c <= hi
    ensures lo <= v <= hi ==> c == v
    ensures lo <= hi && v < lo ==> c == lo
    ensures lo <= hi && v > hi ==> c == hi
  {
    if v < lo then lo else if v > hi then hi else v
  }

  /** The result of a float division whose operands may both be zero. */
  datatype Ratio = Value(v: real) | NotANumber

  /** n / d on floats, where the model only meets 0 / 0 among the divisions by zero. */
  function Quotient(n: real, d: real): (q: Ratio)
    requires d != 0.0 || n == 0.0
    ensures d != 0.0 ==> q == Value(n / d)
    ensures d == 0.0 ==> q == NotANumber
  {
    if d == 0.0 then NotANumber else Value(n / d)
  }
}
