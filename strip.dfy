/**
 * The pixel buffer of the strip and the uniform fill that both render paths
 * perform on it.
 */
module Strip {
  import opened Color

  /** The fill loops count with a 16-bit unsigned index. */
  const MaxPixels: nat := 65535

  /** A strip of n pixels all showing c. */
  function Uniform(n: nat, c: Pixel): (f: seq<Pixel>)
    ensures |f| == n
    ensures forall k :: 0 <= k < n ==> f[k] == c
  {
    seq(n, _ => c)
  }

  /** The colour led_write writes: all channels full or all off. */
  function LevelColor(on: bool): (p: Pixel)
    ensures var level := if on then 255 else 0;
      p.r == level && p.g == level && p.b == level && p.w == level
  {
    if on then White else Black
  }

  /** The loop shared by led_string_set and led_write: every slot gets the same colour. */
  method Fill(pixels: array<Pixel>, color: Pixel)
    requires pixels.Length <= MaxPixels
    modifies pixels
    ensures pixels[..] == Uniform(pixels.Length, color)
  {
    var i := 0;
    while i < pixels.Length
      invariant 0 <= i <= pixels.Length
      invariant forall k :: 0 <= k < i ==> pixels[k] == color
    {
      pixels[i] := color;
      i := i + 1;
    }
  }

  /** The buffers handed to the driver by a sequence of led_write calls on an n-pixel strip. */
  function WriteFrames(levels: seq<bool>, n: nat): (fs: seq<seq<Pixel>>)
    ensures |fs| == |levels|
    ensures forall k :: 0 <= k < |levels| ==> fs[k] == Uniform(n, LevelColor(levels[k]))
  {
    if levels == [] then []
    else WriteFrames(levels[..|levels| - 1], n) + [Uniform(n, LevelColor(levels[|levels| - 1]))]
  }

  lemma WriteFramesSnoc(levels: seq<bool>, level: bool, n: nat)
    ensures WriteFrames(levels + [level], n) == WriteFrames(levels, n) + [Uniform(n, LevelColor(level))]
  {
    assert (levels + [level])[..|levels|] == levels;
  }
}
