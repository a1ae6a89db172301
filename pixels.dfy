/** The pixel buffer every analyzer reads: the interleaved RGBA bytes of a
    canvas ImageData, four samples per pixel, row-major. Alpha is never read. */
module Pixels {

  /** One channel sample; an ImageData buffer holds clamped bytes. */
  type Byte = x: int | 0 <= x < 256

  /** A buffer of whole pixels (R, G, B, A per pixel). */
  predicate IsPixelBuffer(pixels: seq<Byte>) {
    |pixels| % 4 == 0
  }

  /** The R, G and B samples of every pixel, in buffer order. */
  function ColourSamples(pixels: seq<Byte>): (s: seq<Byte>)
    requires IsPixelBuffer(pixels)
    ensures |s| == 3 * (|pixels| / 4)
  {
    if |pixels| == 0 then []
    else
      var n := |pixels| - 4;
      ColourSamples(pixels[..n]) + [pixels[n], pixels[n + 1], pixels[n + 2]]
  }

  /** The samples of one channel (0 red, 1 green, 2 blue), one per pixel. */
  function Channel(pixels: seq<Byte>, c: nat): (s: seq<Byte>)
    requires IsPixelBuffer(pixels) && c < 3
    ensures |s| == |pixels| / 4
  {
    if |pixels| == 0 then []
    else
      var n := |pixels| - 4;
      Channel(pixels[..n], c) + [pixels[n + c]]
  }

  /** In a buffer of whole pixels, a pixel offset below the length leaves
      room for the whole pixel, and the next offset is a pixel offset. */
  lemma NextPixelFits(length: nat, i: nat)
    requires length % 4 == 0 && i % 4 == 0 && i < length
    ensures i + 4 <= length && (i + 4) % 4 == 0
  {
  }

  /** Reading one more pixel appends its three colour samples. */
  lemma ColourSamplesStep(pixels: seq<Byte>, i: nat)
    requires IsPixelBuffer(pixels) && i % 4 == 0 && i + 4 <= |pixels|
    ensures ColourSamples(pixels[..i + 4])
         == ColourSamples(pixels[..i]) + [pixels[i], pixels[i + 1], pixels[i + 2]]
  {
    assert pixels[..i + 4][..i] == pixels[..i];
  }

  /** Reading one more pixel appends its sample to every channel. */
  lemma ChannelStep(pixels: seq<Byte>, i: nat)
    requires IsPixelBuffer(pixels) && i % 4 == 0 && i + 4 <= |pixels|
    ensures forall c | 0 <= c < 3 :: Channel(pixels[..i + 4], c) == Channel(pixels[..i], c) + [pixels[i + c]]
  {
    assert pixels[..i + 4][..i] == pixels[..i];
  }

  /** Appending three samples one at a time appends all three. */
  lemma AppendThree(s: seq<Byte>, a: Byte, b: Byte, c: Byte)
    ensures s + [a] + [b] + [c] == s + [a, b, c]
  {
  }
}
