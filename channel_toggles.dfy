/**
 * The R/G/B channel toggles of the current preview base class. A plain click
 * on a channel solos it, and soloing the channel that is already solo brings
 * all three back; a control-click flips that one channel. Whenever every
 * displayed channel ends up off, all three are switched back on.
 *
 * The toggle widget is an input: `clicked` says the user pressed that
 * channel's button in this event (the widget then returns the flipped value
 * and reports a change), `control` is the event's control modifier.
 */
module ChannelToggles {
  import opened Channels

  /** What SetRGBTo makes of a requested triple: the request, unless it is the current triple already. */
  function SetRGB(current: Rgb, requested: Rgb): (o: Outcome)
    ensures o.state == (if requested == current then AllOn else requested)
    ensures o.notices == Report(o.state)
  {
    var s := if requested == current then AllOn else requested;
    Outcome(s, Report(s))
  }

  /** One channel's toggle block, run only when that channel is displayed. */
  function ToggleBlock(s: Rgb, c: Channel, clicked: bool, control: bool): Outcome
  {
    if !clicked then Outcome(s, [])
    else if !control then SetRGB(s, Solo(c))
    else Outcome(Set(s, c, !Get(s, c)), [Notice(c, !Get(s, c))])
  }

  function Block(s: Rgb, shown: Rgb, c: Channel, input: ToggleInput): Outcome
  {
    if Get(shown, c) then ToggleBlock(s, c, Clicked(input, c), input.control) else Outcome(s, [])
  }

  /** The flags and callback invocations after DrawRGBToggles(shown.r, shown.g, shown.b). */
  function DrawRGB(s: Rgb, shown: Rgb, input: ToggleInput): Outcome
  {
    var o1 := Block(s, shown, R, input);
    var o2 := Block(o1.state, shown, G, input);
    var o3 := Block(o2.state, shown, B, input);
    var allOff := !(shown.r && o1.state.r) && !(shown.g && o2.state.g) && !(shown.b && o3.state.b);
    var fin := if allOff then SetRGB(o3.state, AllOn) else Outcome(o3.state, []);
    Outcome(fin.state, o1.notices + o2.notices + o3.notices + fin.notices)
  }

  /** Requesting all three on always yields all three on, so the reset is idempotent. */
  lemma ResetIsIdempotent(s: Rgb)
    ensures SetRGB(s, AllOn).state == AllOn
    ensures SetRGB(SetRGB(s, AllOn).state, AllOn).state == AllOn
  {
  }

  /** Whatever was clicked, the toggles never end with every displayed channel off. */
  lemma DrawKeepsAChannelVisible(s: Rgb, shown: Rgb, input: ToggleInput)
    ensures SomeVisible(DrawRGB(s, shown, input).state, shown)
  {
  }

  /** A plain click on a displayed channel solos it; on the channel that is already solo it restores all three. */
  lemma PlainClickSolos(s: Rgb, shown: Rgb, c: Channel)
    requires Get(shown, c)
    ensures DrawRGB(s, shown, ClickOn(c, false)).state == (if s == Solo(c) then AllOn else Solo(c))
  {
  }

  /** Two plain clicks on the same displayed channel always end with all three on. */
  lemma SoloTwiceRestores(s: Rgb, shown: Rgb, c: Channel)
    requires Get(shown, c)
    ensures var t := DrawRGB(s, shown, ClickOn(c, false)).state;
            t == AllOn || DrawRGB(t, shown, ClickOn(c, false)).state == AllOn
  {
    PlainClickSolos(s, shown, c);
    PlainClickSolos(DrawRGB(s, shown, ClickOn(c, false)).state, shown, c);
  }

  /** A control-click flips only the clicked channel, unless that leaves every displayed channel off. */
  lemma ControlClickFlipsOne(s: Rgb, shown: Rgb, c: Channel)
    requires Get(shown, c)
    ensures var t := DrawRGB(s, shown, ClickOn(c, true)).state;
            t == AllOn || t == Set(s, c, !Get(s, c))
    ensures SomeVisible(Set(s, c, !Get(s, c)), shown) ==>
            DrawRGB(s, shown, ClickOn(c, true)).state == Set(s, c, !Get(s, c))
  {
  }

  /** Without a click the flags stay as they are, unless every displayed channel is off. */
  lemma NoClickKeepsState(s: Rgb, shown: Rgb, control: bool)
    ensures SomeVisible(s, shown) ==> DrawRGB(s, shown, ToggleInput(false, false, false, control)).state == s
    ensures !SomeVisible(s, shown) ==> DrawRGB(s, shown, ToggleInput(false, false, false, control)).state == AllOn
  {
  }

  /** The three flags toggleR, toggleG, toggleB and the operations on them. */
  class RgbToggles {
    var toggleR: bool
    var toggleG: bool
    var toggleB: bool

    function State(): Rgb
      reads this
    {
      Rgb(toggleR, toggleG, toggleB)
    }

    constructor ()
      ensures State() == AllOn
    {
      toggleR, toggleG, toggleB := true, true, true;
    }

    /** Sets the flags to (r, g, b), or to all on when they are (r, g, b) already, invoking each callback as its field is set. */
    method SetRGBTo(r: bool, g: bool, b: bool) returns (notices: seq<Notice>)
      modifies this
      ensures State() == SetRGB(old(State()), Rgb(r, g, b)).state
      ensures notices == Report(State())
    {
      var r, g, b := r, g, b;
      if r == toggleR && g == toggleG && b == toggleB {
        r := true;
        g := true;
        b := true;
      }
      toggleR := r;
      notices := [Notice(R, toggleR)];
      toggleG := g;
      notices := notices + [Notice(G, toggleG)];
      toggleB := b;
      notices := notices + [Notice(B, toggleB)];
    }

    /** One channel's toggle block, drawn only when the channel is displayed: a plain click solos the channel, a control-click flips it. */
    method ToggleChannel(c: Channel, shown: Rgb, input: ToggleInput) returns (notices: seq<Notice>, on: bool)
      modifies this
      ensures State() == Block(old(State()), shown, c, input).state
      ensures notices == Block(old(State()), shown, c, input).notices
      ensures on == (Get(shown, c) && Get(State(), c))
    {
      notices, on := [], false;
      if Get(shown, c) {
        var clicked := Clicked(input, c);
        var current := Get(State(), c);
        var newValue := if clicked then !current else current;
        if clicked {
          if !input.control {
            notices := SetRGBTo(c == R, c == G, c == B);
          } else {
            notices := [Notice(c, newValue)];
            match c {
              case R => toggleR := newValue;
              case G => toggleG := newValue;
              case B => toggleB := newValue;
            }
          }
        }
        on := Get(State(), c);
      }
    }

    /** Draws the toggles of the displayed channels and applies the clicks in `input`. */
    method DrawRGBToggles(hasR: bool, hasG: bool, hasB: bool, input: ToggleInput) returns (notices: seq<Notice>)
      modifies this
      ensures State() == DrawRGB(old(State()), Rgb(hasR, hasG, hasB), input).state
      ensures notices == DrawRGB(old(State()), Rgb(hasR, hasG, hasB), input).notices
    {
      var shown := Rgb(hasR, hasG, hasB);
      var allOff := true;
      var nR, onR := ToggleChannel(R, shown, input);
      var nG, onG := ToggleChannel(G, shown, input);
      var nB, onB := ToggleChannel(B, shown, input);
      notices := nR + nG + nB;
      if onR || onG || onB {
        allOff := false;
      }
      if allOff {
        var n := SetRGBTo(true, true, true);
        notices := notices + n;
      }
    }

    /** Leaving the inspector switches all three channels back on. */
    method OnDisable() returns (notices: seq<Notice>)
      modifies this
      ensures State() == AllOn
      ensures notices == Report(AllOn)
    {
      notices := SetRGBTo(true, true, true);
    }
  }
}
