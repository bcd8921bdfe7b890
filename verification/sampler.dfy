/** The image-buffer tools of the GDAL source: the fractional part and clamp
    helpers, the bounds-checked point sampler over a 3-byte-per-pixel buffer,
    and the bilinear sampler built from four point samples. */
module Sampler {
  import opened Common

  /** The four channels a sampler writes through its out-parameters. */
  datatype Rgba = Rgba(r: Byte, g: Byte, b: Byte, a: Byte)

  const Transparent := Rgba(0, 0, 0, 0)

  /** `Fract`: x minus floor(x). */
  function Fract(x: real): (f: real)
    ensures 0.0 <= f < 1.0
    ensures (x - f).Floor as real == x - f
  {
    x - Floor(x) as real
  }

  /** `Clamp`: minval below the range, maxval above it, x otherwise. */
  function Clamp(x: real, minval: real, maxval: real): (r: real)
    ensures minval <= maxval ==> minval <= r <= maxval
    ensures minval <= x <= maxval ==> r == x
  {
    if x < minval then minval else if x > maxval then maxval else x
  }

  /** The pixel (x, y) lies in a w by h buffer. */
  predicate InBounds(w: int, h: int, x: int, y: int)
  {
    0 <= x < w && 0 <= y < h
  }

  /** A w by h buffer holds three bytes for each pixel. */
  predicate IsBuffer(buf: seq<Byte>, w: int, h: int)
  {
    0 <= w && 0 <= h && |buf| >= 3 * w * h
  }

  lemma PixelOffsetInRange(w: int, h: int, x: int, y: int)
    requires InBounds(w, h, x, y)
    ensures w * 3 * y + 3 * x == 3 * (w * y + x)
    ensures 0 <= 3 * (w * y + x) && 3 * (w * y + x) + 2 < 3 * w * h
  {
    assert w * (y + 1) <= w * h;
  }

  /** `_ReadImageDataMemBGR`: the pixel at (x, y) of a row-major buffer whose
      pixels are stored as three bytes, red at the lowest offset; alpha is
      opaque. Outside the buffer every channel, alpha included, is 0. */
  function ReadBGR(buf: seq<Byte>, w: int, h: int, x: int, y: int): (p: Rgba)
    requires IsBuffer(buf, w, h)
    ensures !InBounds(w, h, x, y) <==> p == Transparent
    ensures InBounds(w, h, x, y) ==>
              p.a == 255 && 3 * (w * y + x) + 2 < |buf| &&
              p.r == buf[3 * (w * y + x)] && p.g == buf[3 * (w * y + x) + 1] && p.b == buf[3 * (w * y + x) + 2]
  {
    if x < 0 || y < 0 || x > w - 1 || y > h - 1 then Transparent
    else
      PixelOffsetInRange(w, h, x, y);
      var i := 3 * (w * y + x);
      Rgba(buf[i], buf[i + 1], buf[i + 2], 255)
  }

  // ---------------------------------------------------------------------------
  // Bilinear sampling

  /** The integer coordinates of the four samples: (u00, v00) is the cell's
      top-left corner, u10 one column right, v01 one row down. */
  datatype Cell = Cell(u00: int, v00: int, u10: int, v10: int, u01: int, v01: int, u11: int, v11: int)

  /** Each corner coordinate is pulled back to limit - 1 only when it is beyond
      the limit; a coordinate equal to the limit is kept. */
  function ClampCoord(c: int, limit: int): int
  {
    if c > limit then limit - 1 else c
  }

  /** The cell exactly as `_ReadImageValueBilinearBGR` computes it, including the
      statement that clamps the row of the first corner into its column: it is
      the axis-aligned cell unless the row is beyond the height, where the
      first corner keeps the unclamped row and takes h - 1 as its column. */
  function CellAsWritten(nx: int, ny: int, w: int, h: int): (c: Cell)
    ensures ny <= h ==> c == CellOf(nx, ny, w, h)
    ensures ny > h ==> c.u00 == h - 1 && c.v00 == ny &&
                       c.(u00 := CellOf(nx, ny, w, h).u00, v00 := CellOf(nx, ny, w, h).v00) == CellOf(nx, ny, w, h)
  {
    var u00 := ClampCoord(nx, w);
    var v00 := ny;
    var u00' := if v00 > h then h - 1 else u00;
    Cell(u00', v00, ClampCoord(nx + 1, w), ClampCoord(ny, h),
         ClampCoord(nx, w), ClampCoord(ny + 1, h), ClampCoord(nx + 1, w), ClampCoord(ny + 1, h))
  }

  /** The cell with each coordinate clamped on its own axis. */
  function CellOf(nx: int, ny: int, w: int, h: int): (c: Cell)
    ensures c.u00 == c.u01 && c.u10 == c.u11 && c.v00 == c.v10 && c.v01 == c.v11
  {
    Cell(ClampCoord(nx, w), ClampCoord(ny, h), ClampCoord(nx + 1, w), ClampCoord(ny, h),
         ClampCoord(nx, w), ClampCoord(ny + 1, h), ClampCoord(nx + 1, w), ClampCoord(ny + 1, h))
  }

  /** The bilinear weighting of four corner values, before rounding. */
  function Weighted(c00: real, c10: real, c01: real, c11: real, uf: real, vf: real): real
  {
    c00 * (1.0 - uf) * (1.0 - vf) + c10 * uf * (1.0 - vf) + c01 * (1.0 - uf) * vf + c11 * uf * vf
  }

  /** One channel: the weighted value plus 0.5, clamped to [0, 255] and cast
      to unsigned char, which truncates. */
  function Blend(c00: Byte, c10: Byte, c01: Byte, c11: Byte, uf: real, vf: real): (r: Byte)
    ensures var s := Weighted(c00 as real, c10 as real, c01 as real, c11 as real, uf, vf) + 0.5;
            (0.0 <= s < 255.0 ==> r == Floor(s)) && (s >= 255.0 ==> r == 255) && (s < 0.0 ==> r == 0)
  {
    var s := Weighted(c00 as real, c10 as real, c01 as real, c11 as real, uf, vf) + 0.5;
    Trunc(Clamp(s, 0.0, 255.0))
  }

  /** The four point samples of a cell mixed channel by channel. */
  function Mix(p00: Rgba, p10: Rgba, p01: Rgba, p11: Rgba, uf: real, vf: real): Rgba
  {
    Rgba(Blend(p00.r, p10.r, p01.r, p11.r, uf, vf), Blend(p00.g, p10.g, p01.g, p11.g, uf, vf),
         Blend(p00.b, p10.b, p01.b, p11.b, uf, vf), Blend(p00.a, p10.a, p01.a, p11.a, uf, vf))
  }

  function SampleCell(buf: seq<Byte>, w: int, h: int, c: Cell, uf: real, vf: real): Rgba
    requires IsBuffer(buf, w, h)
  {
    Mix(ReadBGR(buf, w, h, c.u00, c.v00), ReadBGR(buf, w, h, c.u10, c.v10),
        ReadBGR(buf, w, h, c.u01, c.v01), ReadBGR(buf, w, h, c.u11, c.v11), uf, vf)
  }

  /** `_ReadImageValueBilinearBGR` as written: the weights come from floor
      (Fract) while the cell comes from truncation toward zero. It agrees with
      the corrected sampler wherever the truncated row is within the height. */
  function BilinearAsWritten(buf: seq<Byte>, w: int, h: int, x: real, y: real): (r: Rgba)
    requires IsBuffer(buf, w, h)
    ensures Trunc(y) <= h ==> r == Bilinear(buf, w, h, x, y)
  {
    SampleCell(buf, w, h, CellAsWritten(Trunc(x), Trunc(y), w, h), Fract(x), Fract(y))
  }

  /** The bilinear sampler with the row clamp of the first corner applied to
      its row. */
  function Bilinear(buf: seq<Byte>, w: int, h: int, x: real, y: real): Rgba
    requires IsBuffer(buf, w, h)
  {
    SampleCell(buf, w, h, CellOf(Trunc(x), Trunc(y), w, h), Fract(x), Fract(y))
  }

  /** With zero fractions the blend is the rounded top-left corner, which for a
      byte is the byte itself. */
  lemma BlendAtCorner(c00: Byte, c10: Byte, c01: Byte, c11: Byte)
    ensures Blend(c00, c10, c01, c11, 0.0, 0.0) == c00
  {
    assert Weighted(c00 as real, c10 as real, c01 as real, c11 as real, 0.0, 0.0) == c00 as real;
  }

  /** Where all four corners agree, the blend reproduces their value for any
      fractions: the four weights sum to one. */
  lemma BlendConstant(c: Byte, uf: real, vf: real)
    ensures Blend(c, c, c, c, uf, vf) == c
  {
    var k := c as real;
    assert Weighted(k, k, k, k, uf, vf) == k * ((1.0 - uf) * (1.0 - vf) + uf * (1.0 - vf) + (1.0 - uf) * vf + uf * vf);
    assert (1.0 - uf) * (1.0 - vf) + uf * (1.0 - vf) + (1.0 - uf) * vf + uf * vf == 1.0;
  }

  /** At an in-range integer position the bilinear sample is the point sample
      there (both the written and the corrected cell). */
  lemma BilinearAtPixel(buf: seq<Byte>, w: int, h: int, i: int, j: int)
    requires IsBuffer(buf, w, h) && InBounds(w, h, i, j)
    ensures Bilinear(buf, w, h, i as real, j as real) == ReadBGR(buf, w, h, i, j)
    ensures BilinearAsWritten(buf, w, h, i as real, j as real) == ReadBGR(buf, w, h, i, j)
  {
    assert Trunc(i as real) == i && Trunc(j as real) == j;
    assert Fract(i as real) == 0.0 && Fract(j as real) == 0.0;
    var c := CellOf(i, j, w, h);
    var p := ReadBGR(buf, w, h, i, j);
    assert c.u00 == i && c.v00 == j;
    assert CellAsWritten(i, j, w, h).u00 == i;
    var q10 := ReadBGR(buf, w, h, c.u10, c.v10);
    var q01 := ReadBGR(buf, w, h, c.u01, c.v01);
    var q11 := ReadBGR(buf, w, h, c.u11, c.v11);
    BlendAtCorner(p.r, q10.r, q01.r, q11.r);
    BlendAtCorner(p.g, q10.g, q01.g, q11.g);
    BlendAtCorner(p.b, q10.b, q01.b, q11.b);
    BlendAtCorner(p.a, q10.a, q01.a, q11.a);
  }

  /** Over a region of one colour the bilinear sample is that colour. */
  lemma BilinearUniform(buf: seq<Byte>, w: int, h: int, x: real, y: real, p: Rgba)
    requires IsBuffer(buf, w, h)
    requires var c := CellOf(Trunc(x), Trunc(y), w, h);
             ReadBGR(buf, w, h, c.u00, c.v00) == p && ReadBGR(buf, w, h, c.u10, c.v10) == p &&
             ReadBGR(buf, w, h, c.u01, c.v01) == p && ReadBGR(buf, w, h, c.u11, c.v11) == p
    ensures Bilinear(buf, w, h, x, y) == p
  {
    BlendConstant(p.r, Fract(x), Fract(y));
    BlendConstant(p.g, Fract(x), Fract(y));
    BlendConstant(p.b, Fract(x), Fract(y));
    BlendConstant(p.a, Fract(x), Fract(y));
  }

  /** As written, the cell is not axis-aligned: below a one-row buffer the first
      corner's column is replaced by the clamped row. */
  lemma CellAsWrittenSkewed()
    ensures CellAsWritten(3, 2, 4, 1).u00 == 0 && CellAsWritten(3, 2, 4, 1).u01 == 3
    ensures CellOf(3, 2, 4, 1).u00 == 3
  {
  }

  /** The skew is visible in the output: at (3.0, 2.0) in a 4 by 1 buffer the
      written sampler reads outside the buffer and returns a transparent
      pixel, where the corrected one returns the opaque pixel (3, 0). */
  lemma BilinearAsWrittenDiffers(buf: seq<Byte>)
    requires IsBuffer(buf, 4, 1)
    ensures BilinearAsWritten(buf, 4, 1, 3.0, 2.0).a == 0
    ensures Bilinear(buf, 4, 1, 3.0, 2.0).a == 255
  {
    assert Trunc(3.0) == 3 && Trunc(2.0) == 2;
    assert Fract(3.0) == 0.0 && Fract(2.0) == 0.0;
    var c := CellAsWritten(3, 2, 4, 1);
    assert c.u00 == 0 && c.v00 == 2;
    var p := ReadBGR(buf, 4, 1, 0, 2);
    assert p == Transparent;
    BlendAtCorner(p.a, ReadBGR(buf, 4, 1, c.u10, c.v10).a, ReadBGR(buf, 4, 1, c.u01, c.v01).a,
                  ReadBGR(buf, 4, 1, c.u11, c.v11).a);
    var d := CellOf(3, 2, 4, 1);
    assert d.u00 == 3 && d.v00 == 0;
    var q := ReadBGR(buf, 4, 1, 3, 0);
    assert q.a == 255;
    BlendAtCorner(q.a, ReadBGR(buf, 4, 1, d.u10, d.v10).a, ReadBGR(buf, 4, 1, d.u01, d.v01).a,
                  ReadBGR(buf, 4, 1, d.u11, d.v11).a);
  }
}
