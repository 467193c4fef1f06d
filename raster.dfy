/**
 * Images as the PDF generator sees them: a file, decoded to a pixel grid of
 * known size, possibly turned on a scratch canvas. Pixel content is kept
 * abstract; what is modelled is which file and which turns it stands for,
 * and its width and height.
 */
module Raster {

  /** A user-supplied image file (a browser File object). */
  type FileRef = nat

  /** Width and height, in pixels, as the browser reports them after decoding. */
  datatype PixelSize = PixelSize(width: nat, height: nat)

  /** What the pixels show: the decoded file, or a canvas rendering of other content turned clockwise. */
  datatype Content = Decoded(file: FileRef) | Turned(base: Content, degrees: int)

  datatype Image = Image(width: nat, height: nat, content: Content)

  /** Whether a turn by `rotation` degrees exchanges width and height. */
  predicate SwapsSides(rotation: int)
  {
    rotation % 180 != 0
  }

  /**
   * The image getRotatedImage resolves to: the source itself for a rotation
   * of 0, otherwise a new rendering whose canvas has width and height swapped
   * when the turn is not a multiple of 180 degrees.
   */
  function RotatedImage(src: Image, rotation: int): (r: Image)
  {
    if rotation == 0 then src
    else if SwapsSides(rotation) then Image(src.height, src.width, Turned(src.content, rotation))
    else Image(src.width, src.height, Turned(src.content, rotation))
  }

  /** The size of an image after a turn: sides exchanged iff rotation % 180 != 0. */
  lemma RotatedSize(src: Image, rotation: int)
    ensures SwapsSides(rotation) ==>
              RotatedImage(src, rotation).width == src.height && RotatedImage(src, rotation).height == src.width
    ensures !SwapsSides(rotation) ==>
              RotatedImage(src, rotation).width == src.width && RotatedImage(src, rotation).height == src.height
    ensures rotation == 0 <==> RotatedImage(src, rotation) == src
  {
    if rotation != 0 {
      // a turned rendering is never the content it was made from
      assert src.content < RotatedImage(src, rotation).content;
    }
  }

  /** The image after `n` successive turns by 90 degrees. */
  function QuarterTurns(src: Image, n: nat): Image
  {
    if n == 0 then src else RotatedImage(QuarterTurns(src, n - 1), 90)
  }

  /** After n quarter turns the sides are exchanged iff n is odd. */
  lemma {:induction false} QuarterTurnsSize(src: Image, n: nat)
    ensures n % 2 == 0 ==> QuarterTurns(src, n).width == src.width && QuarterTurns(src, n).height == src.height
    ensures n % 2 == 1 ==> QuarterTurns(src, n).width == src.height && QuarterTurns(src, n).height == src.width
  {
    if n > 0 {
      QuarterTurnsSize(src, n - 1);
    }
  }

  /** Four successive 90-degree turns restore the original width and height. */
  lemma FourQuarterTurnsRestoreSize(src: Image)
    ensures QuarterTurns(src, 4).width == src.width && QuarterTurns(src, 4).height == src.height
  {
    QuarterTurnsSize(src, 4);
  }

  /**
   * The interface's rotations 0, 90, 180 and 270 give the same size as that
   * many quarter turns applied one after another.
   */
  lemma RotationMatchesQuarterTurns(src: Image, n: nat)
    requires n < 4
    ensures RotatedImage(src, 90 * n).width == QuarterTurns(src, n).width
    ensures RotatedImage(src, 90 * n).height == QuarterTurns(src, n).height
  {
    QuarterTurnsSize(src, n);
  }

  /** An HTML canvas element; only its size is modelled. */
  class Canvas {
    var width: nat
    var height: nat

    /** A fresh canvas has the HTML default size of 300 x 150. */
    constructor ()
      ensures width == 300 && height == 150
    {
      width, height := 300, 150;
    }
  }

  /**
   * getRotatedImage: for a rotation of 0 the source comes back unchanged;
   * otherwise a scratch canvas is sized to the turned image (sides swapped
   * for 90 and 270) and the turned rendering of the source is taken from it.
   */
  method GetRotatedImage(src: Image, rotation: int) returns (r: Image)
    ensures r == RotatedImage(src, rotation)
    ensures rotation == 0 ==> r == src
    ensures rotation != 0 ==> r.content == Turned(src.content, rotation)
    ensures SwapsSides(rotation) ==> r.width == src.height && r.height == src.width
    ensures !SwapsSides(rotation) ==> r.width == src.width && r.height == src.height
  {
    if rotation == 0 {
      return src;
    }
    var canvas := new Canvas();
    if rotation % 180 != 0 {
      canvas.width := src.height;
      canvas.height := src.width;
    } else {
      canvas.width := src.width;
      canvas.height := src.height;
    }
    r := Image(canvas.width, canvas.height, Turned(src.content, rotation));
  }
}
