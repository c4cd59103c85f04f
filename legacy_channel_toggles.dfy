/**
 * The R/G/B channel toggles of the older preview base class. The roles of
 * the two clicks are the other way round from the current class: a plain
 * click flips the channel and reports it, a control-click solos it. Setting
 * a triple sets exactly that triple. Whenever every displayed channel ends
 * up off, all three are switched back on.
 */
module LegacyChannelToggles {
  import opened Channels

  /** What the older SetRGBTo does: the requested triple, reported channel by channel. */
  function SetRGB(requested: Rgb): (o: Outcome)
    ensures o.state == requested
    ensures o.notices == Report(requested)
  {
    Outcome(requested, Report(requested))
  }

  /** One channel's toggle block: nothing unless the channel is displayed and its toggle clicked. */
  function Block(s: Rgb, shown: Rgb, c: Channel, input: ToggleInput): Outcome
  {
    if !Get(shown, c) || !Clicked(input, c) then Outcome(s, [])
    else if !input.control then Outcome(Set(s, c, !Get(s, c)), [Notice(c, !Get(s, c))])
    else SetRGB(Solo(c))
  }

  /** The flags and callback invocations after the older DrawRGBToggles(shown.r, shown.g, shown.b). */
  function DrawRGB(s: Rgb, shown: Rgb, input: ToggleInput): Outcome
  {
    var o1 := Block(s, shown, R, input);
    var o2 := Block(o1.state, shown, G, input);
    var o3 := Block(o2.state, shown, B, input);
    var allOff := !(shown.r && o1.state.r) && !(shown.g && o2.state.g) && !(shown.b && o3.state.b);
    var fin := if allOff then SetRGB(AllOn) else Outcome(o3.state, []);
    Outcome(fin.state, o1.notices + o2.notices + o3.notices + fin.notices)
  }

  /** Whatever was clicked, the toggles never end with every displayed channel off. */
  lemma DrawKeepsAChannelVisible(s: Rgb, shown: Rgb, input: ToggleInput)
    ensures SomeVisible(DrawRGB(s, shown, input).state, shown)
  {
  }

  /** A plain click on a displayed channel flips that flag alone and reports its new value first. */
  lemma PlainClickFlips(s: Rgb, shown: Rgb, c: Channel)
    requires Get(shown, c)
    ensures var o := DrawRGB(s, shown, ClickOn(c, false));
            o.state == AllOn || o.state == Set(s, c, !Get(s, c))
    ensures var o := DrawRGB(s, shown, ClickOn(c, false));
            |o.notices| >= 1 && o.notices[0] == Notice(c, !Get(s, c))
    ensures SomeVisible(Set(s, c, !Get(s, c)), shown) ==>
            DrawRGB(s, shown, ClickOn(c, false)).state == Set(s, c, !Get(s, c))
  {
  }

  /** A control-click on a displayed channel solos it, whatever the flags were. */
  lemma ControlClickSolos(s: Rgb, shown: Rgb, c: Channel)
    requires Get(shown, c)
    ensures DrawRGB(s, shown, ClickOn(c, true)).state == Solo(c)
  {
  }

  /** A flag whose toggle is hidden keeps its value under plain clicks, unless the final reset switches everything on. */
  lemma HiddenChannelKeeps(s: Rgb, shown: Rgb, input: ToggleInput, d: Channel)
    requires !Get(shown, d) && !input.control
    ensures var t := DrawRGB(s, shown, input).state;
            t == AllOn || Get(t, d) == Get(s, d)
  {
  }

  /** The three flags m_R, m_G, m_B of the older base class. */
  class LegacyRgbToggles {
    var r: bool
    var g: bool
    var b: bool

    function State(): Rgb
      reads this
    {
      Rgb(r, g, b)
    }

    constructor ()
      ensures State() == AllOn
    {
      r, g, b := true, true, true;
    }

    /** Sets the flags to exactly (r, g, b), invoking each callback as its field is set. */
    method SetRGBTo(r: bool, g: bool, b: bool) returns (notices: seq<Notice>)
      modifies this
      ensures State() == SetRGB(Rgb(r, g, b)).state
      ensures notices == SetRGB(Rgb(r, g, b)).notices
    {
      this.r := r;
      notices := [Notice(R, this.r)];
      this.g := g;
      notices := notices + [Notice(G, this.g)];
      this.b := b;
      notices := notices + [Notice(B, this.b)];
    }

    /** One channel's toggle block: a plain click flips and reports the channel, a control-click solos it. */
    method ToggleChannel(c: Channel, shown: Rgb, input: ToggleInput) returns (notices: seq<Notice>, on: bool)
      modifies this
      ensures State() == Block(old(State()), shown, c, input).state
      ensures notices == Block(old(State()), shown, c, input).notices
      ensures on == (Get(shown, c) && Get(State(), c))
    {
      notices, on := [], false;
      if Get(shown, c) {
        if Clicked(input, c) {
          var flipped := !Get(State(), c);
          match c {
            case R => r := flipped;
            case G => g := flipped;
            case B => b := flipped;
          }
          if !input.control {
            notices := [Notice(c, flipped)];
          } else {
            notices := SetRGBTo(c == R, c == G, c == B);
          }
        }
        on := Get(State(), c);
      }
    }

    /** Draws the toggles of the displayed channels and applies the clicks in `input`. */
    method DrawRGBToggles(hasR: bool, hasG: bool, hasB: bool, input: ToggleInput) returns (notices: seq<Notice>)
      modifies this
      ensures State() == DrawRGB(old(State()), Rgb(hasR, hasG, hasB), input).state
      ensures notices == DrawRGB(old(State()), Rgb(hasR, hasG, hasB), input).notices
    {
      var shown := Rgb(hasR, hasG, hasB);
      var allOff := true;
      var nR, onR := ToggleChannel(R, shown, input);
      var nG, onG := ToggleChannel(G, shown, input);
      var nB, onB := ToggleChannel(B, shown, input);
      notices := nR + nG + nB;
      if onR || onG || onB {
        allOff := false;
      }
      if allOff {
        var n := SetRGBTo(true, true, true);
        notices := notices + n;
      }
    }
  }
}
