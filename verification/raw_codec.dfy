/** The RAW0 elevation tile container: the ASCII bytes "RAW0", the grid size
    N as a 32-bit unsigned integer in little-endian order, then the 4 * N * N
    bytes of the square image's pixel buffer, row by row. */
module RawCodec {
  import opened Common
  import opened Raster

  /** The header bytes 'R', 'A', 'W', '0'. */
  const Magic: seq<Byte> := [82, 65, 87, 48]

  /** The codec's one failure, reported with code 500. */
  datatype RawError = NotElevation

  /** The four bytes of `(uint32_t)n` on a little-endian host. */
  function LE32(n: int): (b: seq<Byte>)
    ensures |b| == 4
  {
    var u := n % Two32;
    [u % 256, (u / 256) % 256, (u / 65536) % 256, u / 16777216]
  }

  /** The unsigned 32-bit value of four little-endian bytes. */
  function LE32Value(b: seq<Byte>): (v: int)
    requires |b| == 4
    ensures 0 <= v < Two32
  {
    b[0] as int + 256 * b[1] as int + 65536 * b[2] as int + 16777216 * b[3] as int
  }

  /** Writing a number and reading it back gives it modulo 2^32. */
  lemma LE32RoundTrip(n: int)
    ensures LE32Value(LE32(n)) == n % Two32
  {
    var u := n % Two32;
    var b := LE32(n);
    var q1 := u / 256;
    var q2 := q1 / 256;
    assert u == 256 * q1 + b[0];
    assert q1 == 256 * q2 + b[1];
    DivDiv(u, 256, 256);
    assert q2 == u / 65536;
    assert q2 == 256 * (u / 16777216) + b[2] by {
      DivDiv(u, 65536, 256);
    }
  }

  lemma DivDiv(a: int, b: int, c: int)
    requires a >= 0 && b > 0 && c > 0
    ensures (a / b) / c == a / (b * c)
  {
    var q := a / b;
    var r := a % b;
    var q2 := q / c;
    var r2 := q % c;
    assert a == b * q + r;
    assert q == c * q2 + r2;
    calc {
      b * q;
      b * (c * q2 + r2);
      b * (c * q2) + b * r2;
      (b * c) * q2 + b * r2;
    }
    MulAtLeast(c - 1, r2, b);
    assert b * r2 <= (c - 1) * b;
    assert (c - 1) * b == b * c - b;
    DivModUnique(a, b * c, q2, b * r2 + r);
  }

  /** Reading four bytes and writing the value back gives the same bytes. */
  lemma LE32ValueRoundTrip(b: seq<Byte>)
    requires |b| == 4
    ensures LE32(LE32Value(b)) == b
  {
    var v := LE32Value(b);
    assert v % Two32 == v;
    var t1 := b[1] as int + 256 * b[2] as int + 65536 * b[3] as int;
    var t2 := b[2] as int + 256 * b[3] as int;
    DivModUnique(v, 256, t1, b[0]);
    DivModUnique(t1, 256, t2, b[1]);
    DivModUnique(t2, 256, b[3], b[2]);
    DivDiv(v, 256, 256);
    DivDiv(v, 65536, 256);
    DivModUnique(v, 16777216, b[3], b[0] as int + 256 * b[1] as int + 65536 * b[2] as int);
  }

  /** The container for grid size n and a pixel buffer. */
  function RawBytes(n: int, pixels: seq<Byte>): seq<Byte>
  {
    Magic + LE32(n) + pixels
  }

  /** The grid size a decoder reads from bytes 4 to 7. */
  function GridSize(b: seq<Byte>): int
    requires |b| >= 8
  {
    LE32Value(b[4..8])
  }

  /** The 4 * N * N payload bytes after the header. */
  function Payload(b: seq<Byte>): seq<Byte>
    requires |b| >= 8 && |b| >= 8 + 4 * GridSize(b) * GridSize(b)
  {
    b[8..8 + 4 * GridSize(b) * GridSize(b)]
  }

  /** decode(encode(img)) restores a square grid's size and pixel bytes, and
      the container starts with the magic and is 4 * N * N + 8 bytes long. */
  lemma RawRoundTrip(n: int, pixels: seq<Byte>)
    requires 0 <= n < Two32 && |pixels| == 4 * n * n
    ensures |RawBytes(n, pixels)| == 4 * n * n + 8 && RawBytes(n, pixels)[..4] == Magic
    ensures GridSize(RawBytes(n, pixels)) == n && Payload(RawBytes(n, pixels)) == pixels
  {
    var b := RawBytes(n, pixels);
    assert b[4..8] == LE32(n);
    LE32RoundTrip(n);
  }

  /** `_mapcache_imageio_raw_encode`: refuses an image that is not elevation
      data; otherwise a fresh buffer holding the header for N = w and the
      first 4 * N * N bytes of the image, with size and avail set to its
      length. */
  method Encode(img: RawImage) returns (r: Result<Buffer, RawError>)
    requires img.isElevation ==> img.data != null && img.w >= 0 && 4 * img.w * img.w <= img.data.Length
    ensures r.Err? <==> !img.isElevation
    ensures r.Err? ==> r.error == Error(500, NotElevation)
    ensures r.Ok? ==> fresh(r.value) && fresh(r.value.buf) &&
                      r.value.buf[..] == RawBytes(img.w, img.data[..4 * img.w * img.w]) &&
                      r.value.size == r.value.buf.Length && r.value.avail == r.value.buf.Length
  {
    if !img.isElevation {
      return Err(Error(500, NotElevation));
    }
    var n := img.w;
    var data := img.data;
    var count := 4 * n * n;
    var out := new Byte[count + 8];
    var g := n % Two32;
    out[0], out[1], out[2], out[3] := 82, 65, 87, 48;
    out[4], out[5], out[6], out[7] := g % 256, (g / 256) % 256, (g / 65536) % 256, g / 16777216;
    assert out[..8] == Magic + LE32(n);
    var i := 0;
    while i < count
      invariant 0 <= i <= count
      invariant out[..8] == Magic + LE32(n)
      invariant out[8..8 + i] == data[..i]
    {
      out[8 + i] := data[i];
      i := i + 1;
      assert out[8..8 + i] == out[8..8 + i - 1] + [out[8 + i - 1]];
    }
    assert out[..] == out[..8] + out[8..8 + count];
    var b := new Buffer(out, count + 8, count + 8);
    return Ok(b);
  }

  /** `_mapcache_imageio_raw_decode_to_image`: marks the image as elevation
      data and, only when it has no pixel buffer yet, reads N from bytes 4
      to 7, makes the image N by N with stride 4 * N and copies the payload
      into a fresh buffer. Neither the magic nor the length is checked, so
      a caller must hand over at least 8 + 4 * N * N bytes. */
  method DecodeToImage(buffer: Buffer, img: RawImage)
    requires img.data == null ==>
               buffer.buf.Length >= 8 && buffer.buf.Length >= 8 + 4 * GridSize(buffer.buf[..]) * GridSize(buffer.buf[..])
    modifies img
    ensures img.isElevation
    ensures img.x0 == old(img.x0) && img.y0 == old(img.y0) && img.x1 == old(img.x1) && img.y1 == old(img.y1)
    ensures old(img.data) != null ==>
              img.data == old(img.data) && img.w == old(img.w) && img.h == old(img.h) && img.stride == old(img.stride)
    ensures old(img.data) == null ==>
              var n := GridSize(buffer.buf[..]);
              img.w == n && img.h == n && img.stride == 4 * n &&
              img.data != null && fresh(img.data) && img.data[..] == Payload(buffer.buf[..])
  {
    img.isElevation := true;
    if img.data == null {
      var src := buffer.buf;
      var n: int := src[4] as int + 256 * src[5] as int + 65536 * src[6] as int + 16777216 * src[7] as int;
      assert n == GridSize(src[..]);
      var data := CopyPayload(src, 4 * n * n);
      img.w := n;
      img.h := n;
      img.stride := 4 * n;
      img.data := data;
    }
  }

  /** The decoder's copy loop: bytes 8 .. 8 + count - 1 into a fresh array. */
  method CopyPayload(src: array<Byte>, count: int) returns (data: array<Byte>)
    requires 0 <= count && 8 + count <= src.Length
    ensures fresh(data) && data[..] == src[8..8 + count]
  {
    data := new Byte[count];
    var i := 0;
    while i < count
      invariant 0 <= i <= count
      invariant data[..i] == src[8..8 + i]
    {
      data[i] := src[8 + i];
      i := i + 1;
      assert data[..i] == data[..i - 1] + [data[i - 1]];
    }
    assert data[..] == data[..count];
  }

  /** `_mapcache_imageio_raw_decode`: a fresh image decoded from the buffer,
      always elevation data. */
  method Decode(buffer: Buffer) returns (img: RawImage)
    requires buffer.buf.Length >= 8 && buffer.buf.Length >= 8 + 4 * GridSize(buffer.buf[..]) * GridSize(buffer.buf[..])
    ensures fresh(img) && img.isElevation && img.data != null && fresh(img.data)
    ensures img.w == GridSize(buffer.buf[..]) && img.h == img.w && img.stride == 4 * img.w
    ensures img.data[..] == Payload(buffer.buf[..])
  {
    img := new RawImage();
    DecodeToImage(buffer, img);
  }

  /** The pixel a 32-bit colour is stored as on a little-endian host. */
  function ColourOf(color: int): Colour
  {
    var b := LE32(color);
    Colour(b[0], b[1], b[2], b[3])
  }

  /** The empty image of `_mapcache_imageio_raw_create_empty`: width by
      height, stride 4 * width, not elevation data, every 32-bit pixel equal
      to `color`. */
  method FillImage(width: nat, height: nat, color: int) returns (img: RawImage)
    ensures fresh(img) && img.data != null && fresh(img.data)
    ensures img.w == width && img.h == height && img.stride == 4 * width && !img.isElevation
    ensures img.data.Length == width * height * 4
    ensures forall p | 0 <= p < width * height :: PixelAt(img.data[..], p) == ColourOf(color)
  {
    img := new RawImage();
    var data := new Byte[width * height * 4];
    var c := ColourOf(color);
    var i := 0;
    while i < width * height
      invariant 0 <= i <= width * height && !img.isElevation
      invariant forall p | 0 <= p < i :: PixelAt(data[..], p) == c
    {
      ghost var before: seq<Byte> := data[..];
      data[4 * i] := c.b0;
      data[4 * i + 1] := c.b1;
      data[4 * i + 2] := c.b2;
      data[4 * i + 3] := c.b3;
      assert data[..] == SetPixel(before, i, c);
      forall p | 0 <= p <= i
        ensures PixelAt(data[..], p) == c
      {
        SetPixelAt(before, i, c, p);
      }
      i := i + 1;
    }
    img.data := data;
    img.w := width;
    img.h := height;
    img.stride := width * 4;
  }

  /** `_mapcache_imageio_raw_create_empty`: fills an image and hands it to the
      format's writer, the RAW0 encoder, which refuses it because a fresh
      image is never elevation data. */
  method CreateEmpty(width: nat, height: nat, color: int) returns (r: Result<Buffer, RawError>)
    ensures r == Err(Error(500, NotElevation))
  {
    var img := FillImage(width, height, color);
    r := Encode(img);
  }
}
