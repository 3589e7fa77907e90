/**
 * The light accessory: the four characteristic values the firmware keeps in
 * globals, their format-checked setters and their getters, the re-render of the
 * strip after every accepted write, and the identify blink.
 */
module Light {
  import opened Color
  import opened HomeKit
  import opened Strip

  /** The four characteristics of the lightbulb service. */
  datatype Characteristic = On | Brightness | Hue | Saturation

  /** The globals led_on, led_hue, led_saturation and led_brightness. */
  datatype LightState = LightState(on: bool, hue: real, saturation: real, brightness: real)

  /** Their values at boot: off, hue 0, saturation 59, brightness 100. */
  const Initial := LightState(false, 0.0, 59.0, 100.0)

  /** The format each setter insists on. */
  function FormatOf(c: Characteristic): Format
  {
    match c
    case On => BoolFormat
    case Brightness => IntFormat
    case Hue => FloatFormat
    case Saturation => FloatFormat
  }

  /** What the getter of c returns in state s; brightness is stored as a float and read back as an int. */
  function Read(s: LightState, c: Characteristic): (v: Value)
    ensures v.format == FormatOf(c)
  {
    match c
    case On => BoolValue(s.on)
    case Brightness => IntValue(Trunc(s.brightness))
    case Hue => FloatValue(s.hue)
    case Saturation => FloatValue(s.saturation)
  }

  /**
   * The state after the setter of c is handed v: a value of the wrong format is
   * dropped; otherwise exactly c's field changes, and reading c back gives v.
   * Brightness is stored as the float of the int written, not only read back.
   */
  function Update(s: LightState, c: Characteristic, v: Value): (t: LightState)
    ensures v.format != FormatOf(c) ==> t == s
    ensures c != On ==> t.on == s.on
    ensures c != Hue ==> t.hue == s.hue
    ensures c != Saturation ==> t.saturation == s.saturation
    ensures c != Brightness ==> t.brightness == s.brightness
    ensures v.format == FormatOf(c) ==> SameReading(Read(t, c), v)
    ensures c == Brightness && v.format == IntFormat ==> t.brightness == v.intValue as real
  {
    if v.format != FormatOf(c) then s
    else
      match c
      case On => s.(on := v.boolValue)
      case Brightness => s.(brightness := v.intValue as real)
      case Hue => s.(hue := v.floatValue)
      case Saturation => s.(saturation := v.floatValue)
  }

  /** The colour led_string_set puts on every pixel: black when off, whatever the other fields. */
  function Render(s: LightState, ratio: real -> real): (p: Pixel)
    ensures !s.on ==> p == Black
    ensures s.on ==> p == Hsi2Rgbw(s.hue, s.saturation, s.brightness, ratio)
  {
    if s.on then Hsi2Rgbw(s.hue, s.saturation, s.brightness, ratio) else Black
  }

  /** The accessory starts dark, and switching it on first shows (150, 0, 0, 104). */
  lemma InitialRender(ratio: real -> real)
    requires 1.999 <= ratio(0.0) <= 2.001
    ensures Render(Initial, ratio) == Black
    ensures Render(Initial.(on := true), ratio) == Pixel(150, 0, 0, 104)
  {
    InitialColour(ratio);
  }

  /** How many groups the identify blink has, and how many on/off pulses per group. */
  const IdentifyGroups: nat := 3
  const PulsesPerGroup: nat := 2

  /** The levels of n on/off pulses. */
  function Pulses(n: nat): seq<bool>
  {
    if n == 0 then [] else Pulses(n - 1) + [true, false]
  }

  lemma PulseAppended(prefix: seq<bool>, j: nat)
    ensures prefix + Pulses(j) + [true] + [false] == prefix + Pulses(j + 1)
  {
    assert Pulses(j + 1) == Pulses(j) + [true, false];
  }

  /** The levels of `groups` groups of pulses. */
  function Blink(groups: nat): seq<bool>
  {
    if groups == 0 then [] else Blink(groups - 1) + Pulses(PulsesPerGroup)
  }

  /**
   * The arguments of the led_write calls led_identify_task makes, in order:
   * on, off, on, off, ... twelve times, then the stored on/off level.
   */
  function IdentifyWrites(on: bool): (ws: seq<bool>)
    ensures |ws| == 13
    ensures forall k :: 0 <= k < 12 ==> ws[k] == (k % 2 == 0)
    ensures ws[12] == on
  {
    BlinkAlternates(IdentifyGroups);
    Blink(IdentifyGroups) + [on]
  }

  lemma {:induction false} PulsesAlternate(n: nat)
    ensures |Pulses(n)| == 2 * n
    ensures forall k :: 0 <= k < 2 * n ==> Pulses(n)[k] == (k % 2 == 0)
  {
    if n > 0 {
      PulsesAlternate(n - 1);
    }
  }

  /** Adding an even number keeps the parity. */
  lemma EvenShift(j: nat, m: nat)
    ensures (j + 2 * m) % 2 == j % 2
  {
  }

  lemma {:induction false} BlinkAlternates(groups: nat)
    ensures |Blink(groups)| == 2 * PulsesPerGroup * groups
    ensures forall k :: 0 <= k < |Blink(groups)| ==> Blink(groups)[k] == (k % 2 == 0)
  {
    if groups > 0 {
      BlinkAlternates(groups - 1);
      PulsesAlternate(PulsesPerGroup);
      var prev := Blink(groups - 1);
      forall k | |prev| <= k < |Blink(groups)|
        ensures Blink(groups)[k] == (k % 2 == 0)
      {
        var j := k - |prev|;
        assert Blink(groups)[k] == Pulses(PulsesPerGroup)[j];
        EvenShift(j, PulsesPerGroup * (groups - 1));
      }
    }
  }

  /**
   * The firmware's globals, its single strand's pixel buffer, and the frames
   * handed so far to the strip driver. The driver call is modelled only by the
   * snapshot it receives; `cosRatio` stands for h => cos(h) / cos(1.047196667 - h).
   */
  class LightAccessory {
    var on: bool
    var hue: real
    var saturation: real
    var brightness: real
    const pixels: array<Pixel>
    const cosRatio: real -> real
    var frames: seq<seq<Pixel>>

    ghost predicate Valid()
      reads this
    {
      pixels.Length <= MaxPixels
    }

    function State(): LightState
      reads this
    {
      LightState(on, hue, saturation, brightness)
    }

    /** After a re-render, every pixel shows the rendered state and that buffer was transmitted. */
    ghost predicate Rerendered(before: seq<seq<Pixel>>)
      reads this, pixels
    {
      pixels[..] == Uniform(pixels.Length, Render(State(), cosRatio)) &&
      frames == before + [pixels[..]]
    }

    constructor (numPixels: nat, cosRatio: real -> real)
      requires numPixels <= MaxPixels
      ensures Valid() && State() == Initial
      ensures fresh(pixels) && pixels.Length == numPixels
      ensures this.cosRatio == cosRatio && frames == []
    {
      on, hue, saturation, brightness := false, 0.0, 59.0, 100.0;
      pixels := new Pixel[numPixels];
      this.cosRatio := cosRatio;
      frames := [];
    }

    /** digitalLeds_updatePixels: hand the current buffer to the driver. */
    method Transmit()
      modifies this`frames
      ensures frames == old(frames) + [pixels[..]]
    {
      frames := frames + [pixels[..]];
    }

    /** led_string_set */
    method StringSet()
      requires Valid()
      ensures Valid()
      modifies this`frames, pixels
      ensures Rerendered(old(frames))
    {
      var color;
      if on {
        color := Hsi2Rgbw(hue, saturation, brightness, cosRatio);
      } else {
        color := Black;
      }
      Fill(pixels, color);
      Transmit();
    }

    /** led_write */
    method Write(level: bool)
      requires Valid()
      ensures Valid()
      modifies this`frames, pixels
      ensures pixels[..] == Uniform(pixels.Length, LevelColor(level))
      ensures frames == old(frames) + [Uniform(pixels.Length, LevelColor(level))]
    {
      Fill(pixels, LevelColor(level));
      Transmit();
    }

    /** led_on_set */
    method SetOn(v: Value)
      requires Valid()
      ensures Valid()
      modifies this, pixels
      ensures State() == Update(old(State()), On, v)
      ensures v.format == BoolFormat ==> Rerendered(old(frames)) && SameReading(GetOn(), v)
      ensures v.format != BoolFormat ==> unchanged(pixels) && frames == old(frames)
    {
      if v.format != BoolFormat {
        return;
      }
      on := v.boolValue;
      StringSet();
    }

    /** led_brightness_set */
    method SetBrightness(v: Value)
      requires Valid()
      ensures Valid()
      modifies this, pixels
      ensures State() == Update(old(State()), Brightness, v)
      ensures v.format == IntFormat ==> Rerendered(old(frames)) && SameReading(GetBrightness(), v)
      ensures v.format != IntFormat ==> unchanged(pixels) && frames == old(frames)
    {
      if v.format != IntFormat {
        return;
      }
      brightness := v.intValue as real;
      StringSet();
    }

    /** led_hue_set */
    method SetHue(v: Value)
      requires Valid()
      ensures Valid()
      modifies this, pixels
      ensures State() == Update(old(State()), Hue, v)
      ensures v.format == FloatFormat ==> Rerendered(old(frames)) && SameReading(GetHue(), v)
      ensures v.format != FloatFormat ==> unchanged(pixels) && frames == old(frames)
    {
      if v.format != FloatFormat {
        return;
      }
      hue := v.floatValue;
      StringSet();
    }

    /** led_saturation_set */
    method SetSaturation(v: Value)
      requires Valid()
      ensures Valid()
      modifies this, pixels
      ensures State() == Update(old(State()), Saturation, v)
      ensures v.format == FloatFormat ==> Rerendered(old(frames)) && SameReading(GetSaturation(), v)
      ensures v.format != FloatFormat ==> unchanged(pixels) && frames == old(frames)
    {
      if v.format != FloatFormat {
        return;
      }
      saturation := v.floatValue;
      StringSet();
    }

    /** led_on_get */
    function GetOn(): (v: Value)
      reads this
      ensures v == Read(State(), On)
    {
      BoolValue(on)
    }

    /** led_brightness_get */
    function GetBrightness(): (v: Value)
      reads this
      ensures v == Read(State(), Brightness)
    {
      IntValue(Trunc(brightness))
    }

    /** led_hue_get */
    function GetHue(): (v: Value)
      reads this
      ensures v == Read(State(), Hue)
    {
      FloatValue(hue)
    }

    /** led_saturation_get */
    function GetSaturation(): (v: Value)
      reads this
      ensures v == Read(State(), Saturation)
    {
      FloatValue(saturation)
    }

    /** Write(level), keeping the log of levels written since `before` in step with the frames. */
    method LoggedWrite(level: bool, ghost before: seq<seq<Pixel>>, ghost writes: seq<bool>)
      returns (ghost writes': seq<bool>)
      requires Valid()
      ensures Valid()
      requires frames == before + WriteFrames(writes, pixels.Length)
      modifies this`frames, pixels
      ensures writes' == writes + [level]
      ensures frames == before + WriteFrames(writes', pixels.Length)
      ensures pixels[..] == Uniform(pixels.Length, LevelColor(level))
    {
      Write(level);
      WriteFramesSnoc(writes, level, pixels.Length);
      writes' := writes + [level];
      assert frames == before + (WriteFrames(writes, pixels.Length) + [Uniform(pixels.Length, LevelColor(level))]);
    }

    /**
     * led_identify_task without its delays: three groups of two on/off pulses,
     * then a write of the stored on/off level, which shows full white or black
     * rather than the stored colour.
     */
    method Identify()
      requires Valid()
      ensures Valid()
      modifies this`frames, pixels
      ensures frames == old(frames) + WriteFrames(IdentifyWrites(on), pixels.Length)
      ensures pixels[..] == Uniform(pixels.Length, LevelColor(on))
    {
      ghost var before := frames;
      ghost var writes: seq<bool> := [];
      for i := 0 to IdentifyGroups
        invariant writes == Blink(i)
        invariant frames == before + WriteFrames(writes, pixels.Length)
      {
        for j := 0 to PulsesPerGroup
          invariant writes == Blink(i) + Pulses(j)
          invariant frames == before + WriteFrames(writes, pixels.Length)
        {
          writes := LoggedWrite(true, before, writes);
          writes := LoggedWrite(false, before, writes);
          PulseAppended(Blink(i), j);
        }
      }
      writes := LoggedWrite(on, before, writes);
      assert writes == IdentifyWrites(on);
    }
  }
}
