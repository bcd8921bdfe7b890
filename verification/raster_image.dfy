/** The raw image a source renders into and a codec reads or writes: width,
    height, row stride in bytes, a byte buffer of four bytes per pixel, the
    elevation flag and, for elevation tiles, the normalised extent. */
module Raster {
  import opened Common

  class RawImage {
    var w: int
    var h: int
    var stride: int
    /** `data`: NULL until a renderer or decoder allocates it. */
    var data: array?<Byte>
    /** `is_elevation == MC_ELEVATION_YES`. */
    var isElevation: bool
    var x0: real
    var y0: real
    var x1: real
    var y1: real

    /** `mapcache_image_create`: an empty image with no pixel buffer. */
    constructor ()
      ensures w == 0 && h == 0 && stride == 0 && data == null && !isElevation
      ensures x0 == 0.0 && y0 == 0.0 && x1 == 0.0 && y1 == 0.0
    {
      w, h, stride, data := 0, 0, 0, null;
      isElevation := false;
      x0, y0, x1, y1 := 0.0, 0.0, 0.0, 0.0;
    }
  }

  /** `mapcache_buffer`: an allocated byte array, the number of bytes in use
      and the number allocated. */
  class Buffer {
    var buf: array<Byte>
    var size: int
    var avail: int

    constructor (buf: array<Byte>, size: int, avail: int)
      ensures this.buf == buf && this.size == size && this.avail == avail
    {
      this.buf := buf;
      this.size := size;
      this.avail := avail;
    }
  }

  /** The four bytes of one pixel, in buffer order. */
  datatype Colour = Colour(b0: Byte, b1: Byte, b2: Byte, b3: Byte)

  /** Pixel p of a four-byte-per-pixel buffer; pixel (x, y) of a w-wide image
      is p = w * y + x. */
  function PixelAt(s: seq<Byte>, p: int): Colour
    requires 0 <= p && 4 * p + 3 < |s|
  {
    Colour(s[4 * p], s[4 * p + 1], s[4 * p + 2], s[4 * p + 3])
  }

  /** The buffer with the four bytes of pixel p replaced. */
  function SetPixel(s: seq<Byte>, p: int, c: Colour): (t: seq<Byte>)
    requires 0 <= p && 4 * p + 3 < |s|
    ensures |t| == |s|
  {
    s[4 * p := c.b0][4 * p + 1 := c.b1][4 * p + 2 := c.b2][4 * p + 3 := c.b3]
  }

  /** Writing a pixel sets that pixel and leaves every other pixel as it was. */
  lemma SetPixelAt(s: seq<Byte>, p: int, c: Colour, q: int)
    requires 0 <= p && 4 * p + 3 < |s| && 0 <= q && 4 * q + 3 < |s|
    ensures PixelAt(SetPixel(s, p, c), q) == if q == p then c else PixelAt(s, q)
  {
  }

  /** The four bytes of pixel (x, y) lie inside a w by h image and start where
      the bytes of the pixels before it in row-major order end. */
  lemma PixelSlot(w: int, h: int, x: int, y: int)
    requires 0 <= x < w && 0 <= y < h
    ensures 0 <= 4 * w * y + 4 * x && 4 * w * y + 4 * x + 3 < w * h * 4
    ensures 4 * w * y + 4 * x == 4 * (w * y + x)
    ensures 4 * (w * y + x) + 4 == 4 * (w * y + (x + 1))
  {
    MulAtLeast(h, y + 1, w);
    assert h * w == w * h;
    assert (y + 1) * w == w * y + w;
  }

  /** Row y + 1 starts w pixels after row y. */
  lemma NextRow(w: int, y: int)
    ensures w * y + w == w * (y + 1)
  {
  }

  lemma MulAtLeast(a: int, b: int, d: int)
    requires a >= b && d >= 0
    ensures a * d >= b * d
  {
  }

  /** Euclidean division is determined by quotient and remainder. */
  lemma DivModUnique(a: int, d: int, q: int, r: int)
    requires 0 < d && 0 <= r < d && a == q * d + r
    ensures a / d == q && a % d == r
  {
    var q' := a / d;
    var r' := a % d;
    assert a == q' * d + r';
    if q' > q {
      MulAtLeast(q', q + 1, d);
      assert false;
    } else if q' < q {
      MulAtLeast(q, q' + 1, d);
      assert false;
    }
  }
}
