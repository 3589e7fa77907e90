/**
 * The HSI to RGBW colour conversion of the strip firmware, stated over real
 * numbers. The trigonometric ratio cos(h) / cos(1.047196667 - h) that the
 * firmware computes inside each 120-degree sector is a parameter `ratio`, so
 * every fact below holds whatever that ratio evaluates to.
 */
module Color {

  /** One pixel of the strip: red, green, blue and white levels. */
  datatype Pixel = Pixel(r: int, g: int, b: int, w: int)

  /** The four channels as computed, before the conversion to integers. */
  datatype RawPixel = RawPixel(r: real, g: real, b: real, w: real)

  const Black := Pixel(0, 0, 0, 0)
  const White := Pixel(255, 255, 255, 255)

  /** Where the second and third sectors start, in radians, as the firmware writes them. */
  const GreenBlueStart: real := 2.09439
  const BlueRedStart: real := 4.188787

  /** The firmware's approximation of pi in its degree-to-radian conversion. */
  const Pi: real := 3.14159

  /** The three sectors of the hue circle, named by their two active colours. */
  datatype Sector = RedGreen | GreenBlue | BlueRed

  /** C's conversion from floating point to int: truncation toward zero. */
  function Trunc(x: real): (n: int)
    ensures 0.0 <= x ==> n == x.Floor
    ensures 0.0 <= x ==> 0 <= n && n as real <= x < n as real + 1.0
    ensures x <= 0.0 ==> n <= 0 && x <= n as real < x + 1.0
  {
    if x >= 0.0 then x.Floor else -((-x).Floor)
  }

  /** Clamping to the unit interval, as `S>0?(S<1?S:1):0`. */
  function Clamp01(x: real): (c: real)
    ensures 0.0 <= c <= 1.0
    ensures 0.0 <= x <= 1.0 ==> c == x
    ensures x <= 0.0 ==> c == 0.0
    ensures 1.0 <= x ==> c == 1.0
  {
    if x > 0.0 then (if x < 1.0 then x else 1.0) else 0.0
  }

  /** C's fmod(h, 360): the remainder keeps the sign of h. */
  function FMod360(h: real): (m: real)
    ensures 0.0 <= h ==> 0.0 <= m < 360.0
    ensures h <= 0.0 ==> -360.0 < m <= 0.0
    ensures 0.0 <= h < 360.0 ==> m == h
    ensures ((h - m) / 360.0).Floor as real == (h - m) / 360.0
  {
    h - 360.0 * (Trunc(h / 360.0) as real)
  }

  /** The hue after wrapping and conversion to radians. */
  function HueRadians(h: real): (rad: real)
    ensures 0.0 <= h ==> 0.0 <= rad < 6.28318
    ensures h <= 0.0 ==> rad <= 0.0
  {
    Pi * FMod360(h) / 180.0
  }

  function SectorOf(rad: real): Sector
  {
    if rad < GreenBlueStart then RedGreen
    else if rad < BlueRedStart then GreenBlue
    else BlueRed
  }

  /** The angle measured from the start of the sector `rad` falls in. */
  function SectorAngle(rad: real): (a: real)
    ensures 0.0 <= rad < 6.28318 ==> 0.0 <= a < 2.094397
  {
    match SectorOf(rad)
    case RedGreen => rad
    case GreenBlue => rad - GreenBlueStart
    case BlueRed => rad - BlueRedStart
  }

  /** S*255*I/3: one third of the colour part of the intensity, the factor both lit channels share. */
  function ThirdShare(s: real, i: real): real
  {
    s * 255.0 * i / 3.0
  }

  /**
   * The channels for clamped saturation s and intensity i in the given sector,
   * where q is the sector's trigonometric ratio. The "leading" colour gets
   * 1 + q thirds of s*255*i, the "trailing" one 1 + (1 - q) thirds, the third
   * colour is off, and white carries the unsaturated part.
   */
  function RawMix(sector: Sector, s: real, i: real, q: real): (p: RawPixel)
    ensures match sector
      case RedGreen => p.b == 0.0
      case GreenBlue => p.r == 0.0
      case BlueRed => p.g == 0.0
    ensures p.w == 255.0 * (1.0 - s) * i
  {
    var lead := ThirdShare(s, i) * (1.0 + q);
    var trail := ThirdShare(s, i) * (1.0 + (1.0 - q));
    var white := 255.0 * (1.0 - s) * i;
    match sector
    case RedGreen => RawPixel(lead, trail, 0.0, white)
    case GreenBlue => RawPixel(0.0, lead, trail, white)
    case BlueRed => RawPixel(trail, 0.0, lead, white)
  }

  function Truncate(p: RawPixel): Pixel
  {
    Pixel(Trunc(p.r), Trunc(p.g), Trunc(p.b), Trunc(p.w))
  }

  /** hsi2rgbw before the assignment of each channel to an int. */
  function RawHsi(h: real, s: real, i: real, ratio: real -> real): RawPixel
  {
    var rad := HueRadians(h);
    RawMix(SectorOf(rad), Clamp01(s / 100.0), Clamp01(i / 100.0), ratio(SectorAngle(rad)))
  }

  /**
   * hsi2rgbw: hue in degrees, saturation and intensity in percent, `ratio`
   * standing for h => cos(h) / cos(1.047196667 - h).
   */
  function Hsi2Rgbw(h: real, s: real, i: real, ratio: real -> real): (p: Pixel)
    ensures match SectorOf(HueRadians(h))
      case RedGreen => p.b == 0
      case GreenBlue => p.r == 0
      case BlueRed => p.g == 0
    ensures p.w == Trunc(255.0 * (1.0 - Clamp01(s / 100.0)) * Clamp01(i / 100.0))
  {
    var raw := RawHsi(h, s, i, ratio);
    assert raw == RawMix(SectorOf(HueRadians(h)), Clamp01(s / 100.0), Clamp01(i / 100.0), ratio(SectorAngle(HueRadians(h))));
    Truncate(raw)
  }

  /** Sum of the three colour channels. */
  function ColourSum(p: RawPixel): real
  {
    p.r + p.g + p.b
  }

  // ---------------------------------------------------------------------------
  // Properties of the conversion

  /** Constant brightness: the colour channels carry s*255*i and white tops the total up to 255*i. */
  lemma RawMixBrightness(sector: Sector, s: real, i: real, q: real)
    ensures ColourSum(RawMix(sector, s, i, q)) == s * 255.0 * i
    ensures ColourSum(RawMix(sector, s, i, q)) + RawMix(sector, s, i, q).w == 255.0 * i
  {
    var t := ThirdShare(s, i);
    TwoThirdsSum(t, q);
  }

  /** The lit channels' two factors add up to 3, so the channels add up to three shares. */
  lemma TwoThirdsSum(t: real, q: real)
    ensures t * (1.0 + q) + t * (1.0 + (1.0 - q)) == 3.0 * t
  {
  }

  /** The same facts for the whole conversion, with the clamped inputs. */
  lemma ConstantBrightness(h: real, s: real, i: real, ratio: real -> real)
    ensures ColourSum(RawHsi(h, s, i, ratio)) == Clamp01(s / 100.0) * 255.0 * Clamp01(i / 100.0)
    ensures ColourSum(RawHsi(h, s, i, ratio)) + RawHsi(h, s, i, ratio).w == 255.0 * Clamp01(i / 100.0)
  {
    var rad := HueRadians(h);
    RawMixBrightness(SectorOf(rad), Clamp01(s / 100.0), Clamp01(i / 100.0), ratio(SectorAngle(rad)));
  }

  /** Zero (or negative) intensity gives black, whatever the hue, saturation and ratio. */
  lemma ZeroIntensityIsBlack(h: real, s: real, i: real, ratio: real -> real)
    requires i <= 0.0
    ensures Hsi2Rgbw(h, s, i, ratio) == Black
  {
    assert Clamp01(i / 100.0) == 0.0;
  }

  /** Zero (or negative) saturation lights only the white channel, at floor(255 * I). */
  lemma ZeroSaturationIsWhiteOnly(h: real, s: real, i: real, ratio: real -> real)
    requires s <= 0.0
    ensures var p := Hsi2Rgbw(h, s, i, ratio);
      p.r == 0 && p.g == 0 && p.b == 0 && p.w == (255.0 * Clamp01(i / 100.0)).Floor
  {
    assert Clamp01(s / 100.0) == 0.0;
  }

  /** The white channel depends on neither the hue nor the ratio. */
  lemma WhiteIgnoresHue(h1: real, h2: real, s: real, i: real, ratio1: real -> real, ratio2: real -> real)
    ensures Hsi2Rgbw(h1, s, i, ratio1).w == Hsi2Rgbw(h2, s, i, ratio2).w
    ensures Hsi2Rgbw(h1, s, i, ratio1).w == Trunc(255.0 * (1.0 - Clamp01(s / 100.0)) * Clamp01(i / 100.0))
  {
  }

  /** For a non-negative hue the angle within the sector lies in [0, 2.094397). */
  lemma SectorAngleRange(h: real)
    requires 0.0 <= h
    ensures 0.0 <= SectorAngle(HueRadians(h)) < 2.094397
  {
  }

  /**
   * A negative hue is not wrapped into [0, 360): C's fmod keeps the sign, so the
   * hue lands in the first sector with a negative angle, outside the range where
   * the ratio takes its sector values.
   */
  lemma NegativeHueStaysNegative(h: real)
    requires -360.0 < h < 0.0
    ensures SectorOf(HueRadians(h)) == RedGreen
    ensures SectorAngle(HueRadians(h)) == HueRadians(h) < 0.0
  {
    assert FMod360(h) == h by {
      assert Trunc(h / 360.0) == 0;
    }
  }

  // Bounds on products. Each states its fact on the very products its callers
  // meet, so that the solver never has to regroup a product.

  /** 0 <= a * b <= a * bmax for non-negative a and b <= bmax. */
  lemma MulBounded(a: real, b: real, bmax: real)
    requires 0.0 <= a && 0.0 <= b <= bmax
    ensures 0.0 <= a * b <= a * bmax
  {
  }

  /** a * b <= amax * b for a <= amax and non-negative b. */
  lemma MulBoundedLeft(a: real, b: real, amax: real)
    requires 0.0 <= a <= amax && 0.0 <= b
    ensures a * b <= amax * b
  {
  }

  /** a * bmin <= a * b <= 0 for non-negative a and bmin <= b <= 0. */
  lemma MulBoundedBelow(a: real, b: real, bmin: real)
    requires 0.0 <= a && bmin <= b <= 0.0
    ensures a * bmin <= a * b <= 0.0
  {
  }

  /** amax * b <= a * b for a <= amax and non-positive b. */
  lemma MulBoundedLeftBelow(a: real, b: real, amax: real)
    requires 0.0 <= a <= amax && b <= 0.0
    ensures amax * b <= a * b
  {
  }

  /** A product of factors in [0, amax] and [0, bmax] lies in [0, amax * bmax]. */
  lemma ProductUpper(a: real, b: real, amax: real, bmax: real)
    requires 0.0 <= a <= amax && 0.0 <= b <= bmax
    ensures 0.0 <= a * b <= amax * bmax
  {
    MulBounded(a, b, bmax);
    MulBoundedLeft(a, bmax, amax);
  }

  /** A product of factors in [0, amax] and [bmin, 0] lies in [amax * bmin, 0]. */
  lemma ProductLower(a: real, b: real, amax: real, bmin: real)
    requires 0.0 <= a <= amax && bmin <= b <= 0.0
    ensures amax * bmin <= a * b <= 0.0
  {
    MulBoundedBelow(a, b, bmin);
    MulBoundedLeftBelow(a, bmin, amax);
  }

  /** For s, i in [0, 1] the share S*255*I/3 lies in [0, 85]. */
  lemma ThirdShareInRange(s: real, i: real)
    requires 0.0 <= s <= 1.0 && 0.0 <= i <= 1.0
    ensures 0.0 <= ThirdShare(s, i) <= 85.0
  {
    ProductUpper(s, i, 1.0, 1.0);
  }

  /** For s, i in [0, 1] the white channel 255*(1-S)*I lies in [0, 255]. */
  lemma WhiteInRange(s: real, i: real)
    requires 0.0 <= s <= 1.0 && 0.0 <= i <= 1.0
    ensures 0.0 <= 255.0 * (1.0 - s) * i <= 255.0
  {
    var u := 1.0 - s;
    MulBounded(u, i, 1.0);
  }

  /** A share in [0, 85] times a factor in [0, 3] lies in [0, 255]. */
  lemma ShareProductInRange(t: real, f: real)
    requires 0.0 <= t <= 85.0 && 0.0 <= f <= 3.0
    ensures 0.0 <= t * f <= 255.0
  {
    ProductUpper(t, f, 85.0, 3.0);
  }

  /** With s, i in [0, 1] and q in [-1, 2], every raw channel lies in [0, 255]. */
  lemma RawMixInRange(sector: Sector, s: real, i: real, q: real)
    requires 0.0 <= s <= 1.0 && 0.0 <= i <= 1.0 && -1.0 <= q <= 2.0
    ensures var p := RawMix(sector, s, i, q);
      0.0 <= p.r <= 255.0 && 0.0 <= p.g <= 255.0 && 0.0 <= p.b <= 255.0 && 0.0 <= p.w <= 255.0
  {
    ThirdShareInRange(s, i);
    ShareProductInRange(ThirdShare(s, i), 1.0 + q);
    ShareProductInRange(ThirdShare(s, i), 1.0 + (1.0 - q));
    WhiteInRange(s, i);
  }

  /**
   * Bounds on the ratio wide enough for every hue in [0, 360): on the sector
   * angles [0, 2.094397) the true ratio runs from about 2 down to about -1.0000083.
   */
  const RatioMin: real := -1.01
  const RatioMax: real := 2.01

  /** A share in [0, 85] times a factor in [-0.01, 3.01] stays within [-0.85, 255.85]. */
  lemma NearProduct(t: real, f: real)
    requires 0.0 <= t <= 85.0 && -0.01 <= f <= 3.01
    ensures -0.85 <= t * f <= 255.85
  {
    if f >= 0.0 {
      ProductUpper(t, f, 85.0, 3.01);
    } else {
      ProductLower(t, f, 85.0, -0.01);
    }
  }

  /** With the ratio between RatioMin and RatioMax, the colour channels stay within (-1, 256). */
  lemma RawMixNearRange(sector: Sector, s: real, i: real, q: real)
    requires 0.0 <= s <= 1.0 && 0.0 <= i <= 1.0 && RatioMin <= q <= RatioMax
    ensures var p := RawMix(sector, s, i, q);
      -1.0 < p.r < 256.0 && -1.0 < p.g < 256.0 && -1.0 < p.b < 256.0 && 0.0 <= p.w <= 255.0
  {
    ThirdShareInRange(s, i);
    NearProduct(ThirdShare(s, i), 1.0 + q);
    NearProduct(ThirdShare(s, i), 1.0 + (1.0 - q));
    WhiteInRange(s, i);
  }

  /** On (-1, 256) the conversion to int lands in [0, 255], within one unit below x or at 0. */
  lemma TruncNearByte(x: real)
    requires -1.0 < x < 256.0
    ensures 0 <= Trunc(x) <= 255
    ensures x - 1.0 < Trunc(x) as real
    ensures Trunc(x) as real <= if x < 0.0 then 0.0 else x
  {
    var n := Trunc(x);
    if x < 0.0 {
      assert -1.0 < n as real <= 0.0;
      assert n == 0;
    } else {
      assert n as real <= x < 256.0;
    }
  }

  /** With the ratio between RatioMin and RatioMax, every output channel is in [0, 255]. */
  lemma ChannelsInRange(h: real, s: real, i: real, ratio: real -> real)
    requires RatioMin <= ratio(SectorAngle(HueRadians(h))) <= RatioMax
    ensures var p := Hsi2Rgbw(h, s, i, ratio);
      0 <= p.r <= 255 && 0 <= p.g <= 255 && 0 <= p.b <= 255 && 0 <= p.w <= 255
  {
    var rad := HueRadians(h);
    var raw := RawHsi(h, s, i, ratio);
    RawMixNearRange(SectorOf(rad), Clamp01(s / 100.0), Clamp01(i / 100.0), ratio(SectorAngle(rad)));
    TruncNearByte(raw.r);
    TruncNearByte(raw.g);
    TruncNearByte(raw.b);
    TruncNearByte(raw.w);
  }

  /**
   * The four integer channels add up to 255 * I less the truncation loss, which
   * is under one unit for each of the three lit channels. A colour channel whose
   * raw value is slightly negative becomes 0, which can put the total up to one
   * unit above 255 * I; with the ratio in [-1, 2] that cannot happen.
   */
  lemma TotalNearIntensity(h: real, s: real, i: real, ratio: real -> real)
    requires RatioMin <= ratio(SectorAngle(HueRadians(h))) <= RatioMax
    ensures var p := Hsi2Rgbw(h, s, i, ratio);
      var total := (p.r + p.g + p.b + p.w) as real;
      255.0 * Clamp01(i / 100.0) - 3.0 < total < 255.0 * Clamp01(i / 100.0) + 1.0
    ensures var p := Hsi2Rgbw(h, s, i, ratio);
      -1.0 <= ratio(SectorAngle(HueRadians(h))) <= 2.0 ==>
        (p.r + p.g + p.b + p.w) as real <= 255.0 * Clamp01(i / 100.0)
  {
    var rad := HueRadians(h);
    var sector := SectorOf(rad);
    var sc, ic, q := Clamp01(s / 100.0), Clamp01(i / 100.0), ratio(SectorAngle(rad));
    RawMixNearRange(sector, sc, ic, q);
    RawMixBrightness(sector, sc, ic, q);
    var raw := RawMix(sector, sc, ic, q);
    assert raw == RawHsi(h, s, i, ratio);
    TruncNearByte(raw.r);
    TruncNearByte(raw.g);
    TruncNearByte(raw.b);
    TruncNearByte(raw.w);
    // One colour channel is exactly 0, so only three channels lose to truncation.
    assert raw.r == 0.0 || raw.g == 0.0 || raw.b == 0.0;
    // The two lit colour channels sum to a non-negative amount, so at most one is negative.
    ThirdShareInRange(sc, ic);
    if -1.0 <= q <= 2.0 {
      RawMixInRange(sector, sc, ic, q);
    }
  }

  /** For non-negative hues the conversion has period 360 degrees; across 0 it does not (NegativeHueStaysNegative). */
  lemma HuePeriodic(h: real, k: nat, s: real, i: real, ratio: real -> real)
    requires 0.0 <= h
    ensures Hsi2Rgbw(h + 360.0 * (k as real), s, i, ratio) == Hsi2Rgbw(h, s, i, ratio)
  {
    var h' := h + 360.0 * (k as real);
    assert h' / 360.0 == h / 360.0 + k as real;
    assert Trunc(h' / 360.0) == Trunc(h / 360.0) + k;
    assert FMod360(h') == FMod360(h);
  }

  /** For non-positive hues the conversion also has period 360 degrees: fmod keeps the sign on both. */
  lemma NegativeHuePeriodic(h: real, k: nat, s: real, i: real, ratio: real -> real)
    requires h <= 0.0
    ensures Hsi2Rgbw(h - 360.0 * (k as real), s, i, ratio) == Hsi2Rgbw(h, s, i, ratio)
  {
    var h' := h - 360.0 * (k as real);
    assert h' / 360.0 == h / 360.0 - k as real;
    assert Trunc(h' / 360.0) == Trunc(h / 360.0) - k;
    assert FMod360(h') == FMod360(h);
  }

  /**
   * The colour at the first switch-on: hue 0, saturation 59, brightness 100.
   * With the ratio cos(0) / cos(1.047196667) within 0.001 of 2 this is
   * (150, 0, 0, 104): the near-zero raw green (|g| < 0.06) truncates to 0.
   */
  lemma InitialColour(ratio: real -> real)
    requires 1.999 <= ratio(0.0) <= 2.001
    ensures Hsi2Rgbw(0.0, 59.0, 100.0, ratio) == Pixel(150, 0, 0, 104)
  {
    assert FMod360(0.0) == 0.0;
    assert HueRadians(0.0) == 0.0;
    var raw := RawHsi(0.0, 59.0, 100.0, ratio);
    assert raw.r == 50.15 * (1.0 + ratio(0.0));
    assert raw.g == 50.15 * (1.0 + (1.0 - ratio(0.0)));
    assert 150.0 <= raw.r < 151.0;
    assert -1.0 < raw.g < 1.0;
    assert raw.w == 104.55;
  }
}
