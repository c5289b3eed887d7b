/**
 * The RGB indicator LED (src/LED.cpp): three PWM channels whose duty
 * values are written by On and Off and read back by Toggle.
 */
module LED {

  /** PWM resolution in bits, and the largest duty it can express. */
  const Resolution: nat := 8
  const MaxDuty: nat := Pow2(Resolution) - 1

  /** Number of PWM channels: red, green and blue, in that order. */
  const ChannelCount: nat := 3

  /** An RGB colour as three duty values (TLED). */
  datatype Colour = Colour(red: nat, green: nat, blue: nat)

  const Blue: Colour := Colour(0, 0, 255)
  const Red: Colour := Colour(255, 0, 0)
  const Green: Colour := Colour(0, 255, 0)
  const Yellow: Colour := Colour(255, 255, 51)

  /** The channel duties that display `c`. */
  function Duties(c: Colour): (d: seq<nat>)
    ensures |d| == ChannelCount
  {
    [c.red, c.green, c.blue]
  }

  const Dark: seq<nat> := [0, 0, 0]

  /** Every channel is at duty 0. */
  predicate AllOff(duties: seq<nat>)
  {
    forall i | 0 <= i < |duties| :: duties[i] == 0
  }

  /** Every component of `c` fits the PWM resolution. */
  predicate Fits(c: Colour)
  {
    c.red <= MaxDuty && c.green <= MaxDuty && c.blue <= MaxDuty
  }

  /** What Toggle leaves on the channels: dark if anything was lit, else the colour. */
  function Toggled(duties: seq<nat>, c: Colour): seq<nat>
  {
    if AllOff(duties) then Duties(c) else Dark
  }

  class RgbLed {
    /** The duty value last written to each PWM channel. */
    const channel: array<nat>

    ghost predicate Valid()
      reads this
    {
      channel.Length == ChannelCount
    }

    /** The LED after channel setup: the PWM library leaves every channel at duty 0. */
    constructor ()
      ensures Valid() && fresh(channel)
      ensures channel[..] == Dark
    {
      channel := new nat[ChannelCount](_ => 0);
    }

    /** LED_On: show `c`. */
    method On(c: Colour) returns (ok: bool)
      requires Valid()
      modifies channel
      ensures channel[..] == Duties(c)
      ensures ok
    {
      channel[0] := c.red;
      channel[1] := c.green;
      channel[2] := c.blue;
      ok := true;
    }

    /** LED_Off: write duty 0 to every channel. */
    method Off() returns (ok: bool)
      requires Valid()
      modifies channel
      ensures channel[..] == Dark && AllOff(channel[..])
      ensures ok
    {
      for i := 0 to ChannelCount
        invariant forall j | 0 <= j < i :: channel[j] == 0
      {
        channel[i] := 0;
      }
      ok := true;
    }

    /** LED_Toggle: switch off if any channel is lit, otherwise show `c`. */
    method Toggle(c: Colour) returns (ok: bool)
      requires Valid()
      modifies channel
      ensures channel[..] == Toggled(old(channel[..]), c)
      ensures ok
    {
      for i := 0 to ChannelCount
        invariant channel[..] == old(channel[..])
        invariant forall j | 0 <= j < i :: channel[j] == 0
      {
        if channel[i] != 0 {
          var _ := Off();
          return true;
        }
      }
      ok := On(c);
    }
  }

  /** Toggling a lit LED switches every channel off. */
  lemma ToggleLitIsOff(duties: seq<nat>, c: Colour)
    requires |duties| == ChannelCount
    requires exists i | 0 <= i < |duties| :: duties[i] != 0
    ensures AllOff(Toggled(duties, c))
  {
  }

  /** Toggling a dark LED shows exactly the requested colour. */
  lemma ToggleDarkIsColour(duties: seq<nat>, c: Colour)
    requires |duties| == ChannelCount && AllOff(duties)
    ensures Toggled(duties, c) == [c.red, c.green, c.blue]
  {
  }

  /** From dark, two toggles with a visible colour return to dark. */
  lemma ToggleTwiceFromDark(c: Colour)
    requires c.red != 0 || c.green != 0 || c.blue != 0
    ensures Toggled(Toggled(Dark, c), c) == Dark
  {
    assert !AllOff(Duties(c)) by {
      if c.red != 0 { assert Duties(c)[0] != 0; }
      else if c.green != 0 { assert Duties(c)[1] != 0; }
      else { assert Duties(c)[2] != 0; }
    }
  }

  /** Every predefined colour fits the 8-bit PWM resolution. */
  lemma PredefinedColoursFit()
    ensures Fits(Blue) && Fits(Red) && Fits(Green) && Fits(Yellow)
    ensures MaxDuty == 255
  {
  }

  /** 2 to the power `n`: the number of duty levels at resolution `n`. */
  function Pow2(n: nat): (p: nat)
    ensures p >= 1
  {
    if n == 0 then 1 else 2 * Pow2(n - 1)
  }
}
