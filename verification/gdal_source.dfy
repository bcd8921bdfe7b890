/** The GDAL source's tile renderer: the border scan that bounds the tile in
    the source projection, the integer source window, the working resolution,
    the two solid fallback tiles and the per-pixel resampling loop.
    GDAL and OGR themselves are inputs: the back transformation is a partial
    function, the dataset's geo-transform and size are values, and the raster
    read is a function from the requested window to the bytes it delivers. */
module GdalSource {
  import opened Common
  import opened GeoMatrix
  import opened Sampler
  import opened Raster

  /** `OCTTransform` with the destination-to-source transformation: a point in
      the tile's projection to a point in the dataset's, or a failure. */
  type Transform = ((real, real)) -> Option<(real, real)>

  /** The accumulators `dest_ulx`, `dest_lry`, `dest_lrx`, `dest_uly`. */
  datatype Box = Box(ulx: real, lry: real, lrx: real, uly: real)

  const Huge: real := 100000000000000000000.0

  /** The initial values: empty, with min above max on both axes. */
  const Sentinel := Box(Huge, Huge, -Huge, -Huge)

  function AsRect(b: Box): Rect { Rect(b.ulx, b.uly, b.lrx, b.lry) }

  /** Widening the box by a transformed point (`GM_MIN`/`GM_MAX`). */
  function Include(b: Box, q: (real, real)): Box
  {
    Box(Min(q.0, b.ulx), Min(q.1, b.lry), Max(q.0, b.lrx), Max(q.1, b.uly))
  }

  /** Pixel (x, y) of the tile as a point in the tile's projection. */
  function PixelPoint(dst: GeoTransform, p: (int, int)): (real, real)
  {
    Apply(dst, p.0 as real, p.1 as real)
  }

  /** The box after visiting the pixels `ps` in order: points whose transform
      fails are skipped. */
  function Scan(ct: Transform, dst: GeoTransform, ps: seq<(int, int)>): Box
  {
    if ps == [] then Sentinel else Step(ct, dst, Scan(ct, dst, ps[..|ps| - 1]), ps[|ps| - 1])
  }

  /** One border point: the box widened by its transform, or unchanged when
      the transform fails. */
  function Step(ct: Transform, dst: GeoTransform, b: Box, p: (int, int)): Box
  {
    match ct(PixelPoint(dst, p))
    case Some(q) => Include(b, q)
    case None => b
  }

  /** Pixels (p, 0) and (p, h) for p = 0 .. n - 1, in the order of the first loop. */
  function TopBottom(w: int, h: int, n: nat): (s: seq<(int, int)>)
    ensures |s| == 2 * n
  {
    if n == 0 then [] else TopBottom(w, h, n - 1) + [(n - 1, 0), (n - 1, h)]
  }

  /** Pixels (0, p) and (w, p) for p = 0 .. n - 1, in the order of the second loop. */
  function LeftRight(w: int, h: int, n: nat): (s: seq<(int, int)>)
    ensures |s| == 2 * n
  {
    if n == 0 then [] else LeftRight(w, h, n - 1) + [(0, n - 1), (w, n - 1)]
  }

  /** The 2(w+1) + 2(h+1) border pixels the two scan loops visit. */
  function BorderPixels(w: nat, h: nat): seq<(int, int)>
  {
    TopBottom(w, h, w + 1) + LeftRight(w, h, h + 1)
  }

  /** A pixel on the closed border of a w by h tile. */
  predicate OnBorder(w: int, h: int, p: (int, int))
  {
    (0 <= p.0 <= w && (p.1 == 0 || p.1 == h)) || (0 <= p.1 <= h && (p.0 == 0 || p.0 == w))
  }

  lemma {:induction false} TopBottomElems(w: int, h: int, n: nat, p: (int, int))
    ensures p in TopBottom(w, h, n) <==> 0 <= p.0 < n && (p.1 == 0 || p.1 == h)
  {
    if n > 0 {
      TopBottomElems(w, h, n - 1, p);
    }
  }

  lemma {:induction false} LeftRightElems(w: int, h: int, n: nat, p: (int, int))
    ensures p in LeftRight(w, h, n) <==> 0 <= p.1 < n && (p.0 == 0 || p.0 == w)
  {
    if n > 0 {
      LeftRightElems(w, h, n - 1, p);
    }
  }

  /** The scan visits exactly the border pixels of the tile, corners included
      (corners twice), 2(w+1) + 2(h+1) visits in all. */
  lemma BorderPixelsExact(w: nat, h: nat, p: (int, int))
    ensures |BorderPixels(w, h)| == 2 * (w + 1) + 2 * (h + 1)
    ensures p in BorderPixels(w, h) <==> OnBorder(w, h, p)
  {
    TopBottomElems(w, h, w + 1, p);
    LeftRightElems(w, h, h + 1, p);
  }

  lemma ScanSnoc(ct: Transform, dst: GeoTransform, ps: seq<(int, int)>, p: (int, int))
    ensures Scan(ct, dst, ps + [p]) == Step(ct, dst, Scan(ct, dst, ps), p)
  {
    assert (ps + [p])[..|ps|] == ps;
  }

  /** The box contains every point whose transform succeeded. */
  lemma {:induction false} ScanContains(ct: Transform, dst: GeoTransform, ps: seq<(int, int)>, k: int)
    requires 0 <= k < |ps| && ct(PixelPoint(dst, ps[k])).Some?
    ensures var b := Scan(ct, dst, ps);
            var q := ct(PixelPoint(dst, ps[k])).value;
            b.ulx <= q.0 <= b.lrx && b.lry <= q.1 <= b.uly
  {
    var n := |ps| - 1;
    if k < n {
      assert ps[..n][k] == ps[k];
      ScanContains(ct, dst, ps[..n], k);
    }
  }

  /** A transformed point of the scan: the image of ps[k], which succeeded. */
  predicate Hit(ct: Transform, dst: GeoTransform, ps: seq<(int, int)>, k: int)
  {
    0 <= k < |ps| && ct(PixelPoint(dst, ps[k])).Some?
  }

  /** Each side of the box is its sentinel or is attained by a transformed
      point: the box is the min/max over the successes and the sentinels. */
  lemma {:induction false} ScanAttained(ct: Transform, dst: GeoTransform, ps: seq<(int, int)>)
    ensures var b := Scan(ct, dst, ps);
            (b.ulx == Huge || exists k | 0 <= k < |ps| :: Hit(ct, dst, ps, k) && ct(PixelPoint(dst, ps[k])).value.0 == b.ulx) &&
            (b.lrx == -Huge || exists k | 0 <= k < |ps| :: Hit(ct, dst, ps, k) && ct(PixelPoint(dst, ps[k])).value.0 == b.lrx) &&
            (b.lry == Huge || exists k | 0 <= k < |ps| :: Hit(ct, dst, ps, k) && ct(PixelPoint(dst, ps[k])).value.1 == b.lry) &&
            (b.uly == -Huge || exists k | 0 <= k < |ps| :: Hit(ct, dst, ps, k) && ct(PixelPoint(dst, ps[k])).value.1 == b.uly)
  {
    if ps != [] {
      var n := |ps| - 1;
      var init := ps[..n];
      ScanAttained(ct, dst, init);
      forall k | 0 <= k < n
        ensures Hit(ct, dst, init, k) ==> Hit(ct, dst, ps, k) && init[k] == ps[k]
      {
      }
    }
  }

  /** When no border point transforms, the sentinels remain. */
  lemma {:induction false} ScanAllFail(ct: Transform, dst: GeoTransform, ps: seq<(int, int)>)
    requires forall k | 0 <= k < |ps| :: ct(PixelPoint(dst, ps[k])).None?
    ensures Scan(ct, dst, ps) == Sentinel
  {
    if ps != [] {
      var n := |ps| - 1;
      assert forall k | 0 <= k < n :: ps[..n][k] == ps[k];
      ScanAllFail(ct, dst, ps[..n]);
    }
  }

  /** The sentinel box intersects a dataset only if the dataset reaches past
      1e20 on all four sides; so when nothing transforms, any dataset with one
      side inside that range gets the no-overlap tile. */
  lemma SentinelIntersects(src: Rect)
    ensures Intersects(AsRect(Sentinel), src) <==>
            src.lrx > Huge && src.ulx < -Huge && src.lry < -Huge && src.uly > Huge
  {
  }

  /** The two border loops: the accumulators start at the sentinels and are
      widened by every border point whose back transformation succeeds. */
  method BorderScan(ct: Transform, dst: GeoTransform, w: nat, h: nat) returns (box: Box)
    ensures box == Scan(ct, dst, BorderPixels(w, h))
  {
    box := ScanTopBottom(ct, dst, w, h);
    box := ScanLeftRight(ct, dst, w, h, box);
  }

  /** One more column of the first loop: its top pixel, then its bottom one. */
  lemma ScanTopBottomStep(ct: Transform, dst: GeoTransform, w: int, h: int, p: nat)
    ensures Scan(ct, dst, TopBottom(w, h, p + 1)) ==
            Step(ct, dst, Step(ct, dst, Scan(ct, dst, TopBottom(w, h, p)), (p, 0)), (p, h))
  {
    var before := TopBottom(w, h, p);
    assert TopBottom(w, h, p + 1) == before + [(p, 0)] + [(p, h)];
    ScanSnoc(ct, dst, before, (p, 0));
    ScanSnoc(ct, dst, before + [(p, 0)], (p, h));
  }

  /** One more row of the second loop, after what the first loop visited. */
  lemma ScanLeftRightStep(ct: Transform, dst: GeoTransform, top: seq<(int, int)>, w: int, h: int, p: nat)
    ensures Scan(ct, dst, top + LeftRight(w, h, p + 1)) ==
            Step(ct, dst, Step(ct, dst, Scan(ct, dst, top + LeftRight(w, h, p)), (0, p)), (w, p))
  {
    var before := top + LeftRight(w, h, p);
    assert LeftRight(w, h, p + 1) == LeftRight(w, h, p) + [(0, p), (w, p)];
    assert top + LeftRight(w, h, p + 1) == before + [(0, p)] + [(w, p)];
    ScanSnoc(ct, dst, before, (0, p));
    ScanSnoc(ct, dst, before + [(0, p)], (w, p));
  }

  /** The first loop: the top and bottom rows, column by column. */
  method ScanTopBottom(ct: Transform, dst: GeoTransform, w: nat, h: nat) returns (box: Box)
    ensures box == Scan(ct, dst, TopBottom(w, h, w + 1))
  {
    box := Sentinel;
    var p := 0;
    while p <= w
      invariant 0 <= p <= w + 1
      invariant box == Scan(ct, dst, TopBottom(w, h, p))
    {
      ScanTopBottomStep(ct, dst, w, h, p);
      box := Visit(ct, dst, box, (p, 0));
      box := Visit(ct, dst, box, (p, h));
      p := p + 1;
    }
  }

  /** The second loop: the left and right columns, row by row, continuing
      from the box the first loop left. */
  method ScanLeftRight(ct: Transform, dst: GeoTransform, w: nat, h: nat, start: Box) returns (box: Box)
    requires start == Scan(ct, dst, TopBottom(w, h, w + 1))
    ensures box == Scan(ct, dst, BorderPixels(w, h))
  {
    ghost var top := TopBottom(w, h, w + 1);
    assert top + LeftRight(w, h, 0) == top;
    box := start;
    var p := 0;
    while p <= h
      invariant 0 <= p <= h + 1
      invariant box == Scan(ct, dst, top + LeftRight(w, h, p))
    {
      ScanLeftRightStep(ct, dst, top, w, h, p);
      box := Visit(ct, dst, box, (0, p));
      box := Visit(ct, dst, box, (w, p));
      p := p + 1;
    }
  }

  /** One border point: `OCTTransform` and, when it succeeds, the four
      `GM_MIN`/`GM_MAX` updates. */
  method Visit(ct: Transform, dst: GeoTransform, b: Box, p: (int, int)) returns (box: Box)
    ensures box == Step(ct, dst, b, p)
  {
    box := b;
    var q := ct(PixelPoint(dst, p));
    if q.Some? {
      box := Include(box, q.value);
    }
  }

  // ---------------------------------------------------------------------------
  // Source window and working resolution

  /** `nXOff, nYOff, nXSize, nYSize`: the pixel window read from the dataset. */
  datatype Window = Window(xOff: int, yOff: int, xSize: int, ySize: int)

  /** The offset clamps in source order: first up to 0, then down to size - 1. */
  function ClampOffset(t: int, size: int): int
  {
    var a := if t < 0 then 0 else t;
    if a > size - 1 then size - 1 else a
  }

  /** The window size: the truncated far corner minus the offset plus one,
      cut back so that offset + size does not pass size - 1. */
  function WindowSize(t1: int, off: int, size: int): int
  {
    var n := t1 - off + 1;
    if off + n > size - 1 then size - 1 - off else n
  }

  /** The window `_mapcache_source_gdal_render_map` computes from the box:
      the corners (ulx, uly) and (lrx, lry) mapped to source pixels by the
      inverse geo-transform, truncated toward zero and clamped. */
  function WindowOf(inv: GeoTransform, box: Box, sizeX: int, sizeY: int): Window
  {
    var c0 := Apply(inv, box.ulx, box.uly);
    var c1 := Apply(inv, box.lrx, box.lry);
    var xOff := ClampOffset(Trunc(c0.0), sizeX);
    var yOff := ClampOffset(Trunc(c0.1), sizeY);
    Window(xOff, yOff, WindowSize(Trunc(c1.0), xOff, sizeX), WindowSize(Trunc(c1.1), yOff, sizeY))
  }

  /** The window computation, step by step: its offsets lie in the dataset and
      offset plus size stays below size - 1 on both axes. */
  method SourceWindow(inv: GeoTransform, box: Box, sizeX: int, sizeY: int) returns (win: Window)
    ensures win == WindowOf(inv, box, sizeX, sizeY)
    ensures sizeX >= 1 ==> 0 <= win.xOff <= sizeX - 1
    ensures sizeY >= 1 ==> 0 <= win.yOff <= sizeY - 1
    ensures win.xOff + win.xSize <= sizeX - 1 && win.yOff + win.ySize <= sizeY - 1
  {
    var x0, y0 := Apply(inv, box.ulx, box.uly).0, Apply(inv, box.ulx, box.uly).1;
    var x1, y1 := Apply(inv, box.lrx, box.lry).0, Apply(inv, box.lrx, box.lry).1;
    var xOff := Trunc(x0);
    var yOff := Trunc(y0);
    if xOff < 0 { xOff := 0; }
    if yOff < 0 { yOff := 0; }
    if yOff > sizeY - 1 { yOff := sizeY - 1; }
    if xOff > sizeX - 1 { xOff := sizeX - 1; }
    var xSize := Trunc(x1) - xOff + 1;
    var ySize := Trunc(y1) - yOff + 1;
    if xOff + xSize > sizeX - 1 {
      xSize := sizeX - 1 - xOff;
    }
    if yOff + ySize > sizeY - 1 {
      ySize := sizeY - 1 - yOff;
    }
    win := Window(xOff, yOff, xSize, ySize);
  }

  /** The window is degenerate when either size is not positive. */
  predicate Degenerate(win: Window) { win.xSize <= 0 || win.ySize <= 0 }

  /** When the truncated far corner stays inside the dataset the window spans
      exactly from the offset to it; a non-degenerate window never reaches the
      last column or row of the dataset. */
  lemma WindowSpan(t1: int, off: int, size: int)
    requires 0 <= off <= size - 1
    ensures t1 <= size - 2 ==> off + WindowSize(t1, off, size) - 1 == t1
    ensures WindowSize(t1, off, size) > 0 ==> off + WindowSize(t1, off, size) - 1 <= size - 2
    ensures t1 < off ==> WindowSize(t1, off, size) <= 0
  {
  }

  /** `sourcetilewidth`, `sourcetileheight`, `scalex`, `scaley`: the size of the
      buffer the window is read into, quality 2.0 times the tile's larger side
      wide and as tall as keeps the window's aspect ratio, truncated. */
  datatype Working = Working(width: int, height: int, scalex: real, scaley: real)

  const Quality: real := 2.0

  function MaxInt(a: int, b: int): int { if a > b then a else b }

  function WorkingResolution(w: nat, h: nat, win: Window): (r: Working)
    requires !Degenerate(win)
    ensures r.width == 2 * MaxInt(w, h) && r.height >= 0
  {
    DoubleTrunc(MaxInt(w, h));
    var stw := Trunc(Quality * MaxInt(w, h) as real);
    var sth := SourceTileHeight(stw, win.xSize, win.ySize);
    Working(stw, sth, ScaleOf(stw, win.xSize), ScaleOf(sth, win.ySize))
  }

  /** The working height keeps the window's aspect ratio, rounded down, and
      the scales stretch the window exactly onto the working size. */
  lemma WorkingResolutionSpec(w: nat, h: nat, win: Window)
    requires !Degenerate(win)
    ensures var r := WorkingResolution(w, h, win);
            r.height * win.xSize <= r.width * win.ySize < (r.height + 1) * win.xSize &&
            r.scalex * win.xSize as real == r.width as real && r.scaley * win.ySize as real == r.height as real
  {
  }

  /** `(int)((double)sourcetilewidth / aspect)` with aspect = xSize / ySize:
      the window's aspect ratio kept, rounded down. */
  function SourceTileHeight(stw: int, xs: int, ys: int): (sth: int)
    requires stw >= 0 && xs > 0 && ys > 0
    ensures sth >= 0 && sth * xs <= stw * ys < (sth + 1) * xs
  {
    var aspect := xs as real / ys as real;
    WorkingHeight(stw, xs, ys);
    Trunc(stw as real / aspect)
  }

  /** `scalex`, `scaley`: the buffer size over the window size. */
  function ScaleOf(n: int, size: int): (s: real)
    requires size > 0
    ensures s * size as real == n as real
  {
    DivMul(n as real, size as real);
    n as real / size as real
  }

  lemma DoubleTrunc(m: nat)
    ensures Trunc(Quality * m as real) == 2 * m
  {
    assert Quality * m as real == (2 * m) as real;
  }

  /** `(int)((double)sourcetilewidth / aspect)` with aspect = xSize / ySize. */
  lemma WorkingHeight(stw: int, xs: int, ys: int)
    requires stw >= 0 && xs > 0 && ys > 0
    ensures var sth := Trunc(stw as real / (xs as real / ys as real));
            sth >= 0 && sth * xs <= stw * ys < (sth + 1) * xs
  {
    var x := xs as real;
    var y := ys as real;
    assert (x / y) * y == x;
    assert stw as real / (x / y) == stw as real * y / x;
    assert stw as real * y == (stw * ys) as real;
    FloorQuotient(stw * ys, xs, Trunc(stw as real / (x / y)));
  }

  lemma FloorQuotient(a: int, d: int, q: int)
    requires 0 <= a && 0 < d && q == Floor(a as real / d as real)
    ensures q * d <= a < (q + 1) * d
  {
    var t := a as real / d as real;
    var r := q + 1;
    assert q as real <= t < r as real;
    DivMul(a as real, d as real);
    MulRealLe(q as real, t, d as real);
    MulRealLt(t, r as real, d as real);
    IntProductAsReal(q, d);
    IntProductAsReal(r, d);
    assert (q * d) as real <= a as real;
    assert a as real == t * d as real;
    assert t * d as real < r as real * d as real;
    assert a as real < (r * d) as real;
  }

  lemma IntProductAsReal(q: int, d: int)
    ensures (q * d) as real == q as real * d as real
  {
  }

  /** The number of bytes allocated for the read: three per working pixel. */
  function ReadBufferSize(r: Working): int { 3 * r.width * r.height }

  /** The read buffer holds 3 * m * floor(m * ySize / xSize) bytes, m being
      twice the tile's larger side. */
  lemma ReadBufferBytes(w: nat, h: nat, win: Window)
    requires !Degenerate(win)
    ensures var m := 2 * MaxInt(w, h);
            ReadBufferSize(WorkingResolution(w, h, win)) == 3 * m * ((m * win.ySize) / win.xSize)
  {
    var r := WorkingResolution(w, h, win);
    WorkingResolutionSpec(w, h, win);
    var a := r.width * win.ySize;
    DivModUnique(a, win.xSize, r.height, a - r.height * win.xSize);
  }

  /** A positive scale k with k * n == total maps [0, n) into [0, total). */
  lemma ScaleCovers(k: real, n: real, total: real, u: real)
    requires n > 0.0 && k * n == total && total > 0.0 && 0.0 <= u < n
    ensures 0.0 <= u * k < total
  {
    PositiveFactor(k, n);
    MulRealLe(0.0, u, k);
    MulRealLt(u, n, k);
  }

  lemma PositiveFactor(k: real, n: real)
    requires n > 0.0 && k * n > 0.0
    ensures k > 0.0
  {
    if k <= 0.0 {
      MulRealLe(k, 0.0, n);
      assert false;
    }
  }

  // ---------------------------------------------------------------------------
  // Output tiles

  /** The tile returned when the tile does not overlap the dataset. */
  const NoOverlap := Colour(0, 0, 255, 255)

  /** The tile returned for a degenerate window: commented "transparent", but
      its alpha byte is 255. */
  const DegenerateFill := Colour(0, 255, 0, 255)

  /** The fallback tiles: a fresh width by height image with stride 4 * width,
      every pixel set to the same four bytes. */
  method SolidTile(width: nat, height: nat, c: Colour) returns (img: RawImage)
    ensures fresh(img) && img.data != null && fresh(img.data)
    ensures img.w == width && img.h == height && img.stride == 4 * width && !img.isElevation
    ensures img.data.Length == width * height * 4
    ensures forall p | 0 <= p < width * height :: PixelAt(img.data[..], p) == c
  {
    img := new RawImage();
    img.w := width;
    img.h := height;
    img.stride := 4 * width;
    var data := new Byte[width * height * 4];
    img.data := data;
    var y := 0;
    ghost var n := 0;
    while y < height
      invariant 0 <= y <= height && n == width * y && 4 * n <= data.Length
      invariant img.data == data && img.w == width && img.h == height && img.stride == 4 * width && !img.isElevation
      invariant forall p | 0 <= p < n :: PixelAt(data[..], p) == c
    {
      var x := 0;
      while x < width
        invariant 0 <= x <= width && n == width * y + x && 4 * n <= data.Length
        invariant img.data == data && img.w == width && img.h == height && img.stride == 4 * width && !img.isElevation
        invariant forall p | 0 <= p < n :: PixelAt(data[..], p) == c
      {
        PixelSlot(width, height, x, y);
        ghost var before: seq<Byte> := data[..];
        data[4 * width * y + 4 * x + 0] := c.b0;
        data[4 * width * y + 4 * x + 1] := c.b1;
        data[4 * width * y + 4 * x + 2] := c.b2;
        data[4 * width * y + 4 * x + 3] := c.b3;
        assert data[..] == SetPixel(before, n, c);
        forall p | 0 <= p <= n
          ensures PixelAt(data[..], p) == c
        {
          SetPixelAt(before, n, c, p);
        }
        n := n + 1;
        x := x + 1;
      }
      NextRow(width, y);
      y := y + 1;
    }
  }

  /** What the render loop needs besides the tile's pixel: the tile's upper
      left corner and pixel size, the back transformation, the dataset's
      inverse geo-transform, the window offsets, the scales and the buffer
      that was read. */
  datatype Sampling = Sampling(ulx: real, uly: real, pw: real, ph: real, ct: Transform,
                               inv: GeoTransform, xOff: int, yOff: int, scalex: real, scaley: real,
                               buf: seq<Byte>, bw: int, bh: int)

  /** The point of the dataset, in its pixel coordinates, that tile pixel
      (x, y) shows: the pixel's world point moved into the dataset's
      projection and through the inverse geo-transform. The transformation's
      result is not checked: on failure the untransformed point is used. */
  function SourcePoint(s: Sampling, x: int, y: int): (real, real)
  {
    var xc := s.ulx + x as real * s.pw;
    var yc := s.uly - y as real * s.ph;
    var q := match s.ct((xc, yc)) case Some(t) => t case None => (xc, yc);
    Apply(s.inv, q.0, q.1)
  }

  /** One coordinate of the buffer pixel: the source coordinate shifted by the
      window offset, scaled and truncated. */
  function ScaledIndex(c: real, off: int, k: real): int
  {
    Trunc((c - off as real) * k)
  }

  /** The buffer pixel sampled for tile pixel (x, y). */
  function SourcePixel(s: Sampling, x: int, y: int): (int, int)
  {
    var src := SourcePoint(s, x, y);
    (ScaledIndex(src.0, s.xOff, s.scalex), ScaledIndex(src.1, s.yOff, s.scaley))
  }

  function PixelValue(s: Sampling, x: int, y: int): Rgba
    requires IsBuffer(s.buf, s.bw, s.bh)
  {
    var p := SourcePixel(s, x, y);
    ReadBGR(s.buf, s.bw, s.bh, p.0, p.1)
  }

  /** The four bytes written for a sample, in buffer order b, g, r, a. */
  function Written(p: Rgba): Colour { Colour(p.b, p.g, p.r, p.a) }

  /** Tile pixel (x, y) holds its sample with red and blue swapped: its first
      byte is the third byte of the sampled buffer pixel and its last 255, or
      all four bytes are 0 when the sample falls outside the buffer. */
  lemma WrittenLayout(s: Sampling, x: int, y: int)
    requires IsBuffer(s.buf, s.bw, s.bh)
    ensures var p := SourcePixel(s, x, y);
            var o := 3 * (s.bw * p.1 + p.0);
            (InBounds(s.bw, s.bh, p.0, p.1) ==>
               0 <= o && o + 2 < |s.buf| &&
               Written(PixelValue(s, x, y)) == Colour(s.buf[o + 2], s.buf[o + 1], s.buf[o], 255)) &&
            (!InBounds(s.bw, s.bh, p.0, p.1) ==> Written(PixelValue(s, x, y)) == Colour(0, 0, 0, 0))
  {
    var p := SourcePixel(s, x, y);
    if InBounds(s.bw, s.bh, p.0, p.1) {
      PixelOffsetInRange(s.bw, s.bh, p.0, p.1);
    }
  }

  /** The render loop: a fresh width by height image in which pixel
      p = width * y + x, written at byte 4 * width * y + 4 * x, holds the point
      sample of tile pixel (x, y). */
  method RenderPixels(s: Sampling, width: nat, height: nat) returns (img: RawImage)
    requires IsBuffer(s.buf, s.bw, s.bh) && width > 0
    ensures fresh(img) && img.data != null && fresh(img.data)
    ensures img.w == width && img.h == height && img.stride == 4 * width && !img.isElevation
    ensures img.data.Length == width * height * 4
    ensures forall p | 0 <= p < width * height ::
              PixelAt(img.data[..], p) == Written(PixelValue(s, p % width, p / width))
  {
    img := new RawImage();
    img.w := width;
    img.h := height;
    img.stride := 4 * width;
    var data := new Byte[width * height * 4];
    img.data := data;
    var y := 0;
    ghost var n := 0;
    while y < height
      invariant 0 <= y <= height && n == width * y && 4 * n <= data.Length
      invariant img.data == data && img.w == width && img.h == height && img.stride == 4 * width && !img.isElevation
      invariant forall p | 0 <= p < n :: PixelAt(data[..], p) == Written(PixelValue(s, p % width, p / width))
    {
      var x := 0;
      while x < width
        invariant 0 <= x <= width && n == width * y + x && 4 * n <= data.Length
        invariant img.data == data && img.w == width && img.h == height && img.stride == 4 * width && !img.isElevation
        invariant forall p | 0 <= p < n :: PixelAt(data[..], p) == Written(PixelValue(s, p % width, p / width))
      {
        var sp := SourcePixel(s, x, y);
        var v := ReadBGR(s.buf, s.bw, s.bh, sp.0, sp.1);
        DivModUnique(n, width, y, x);
        PixelSlot(width, height, x, y);
        ghost var before: seq<Byte> := data[..];
        data[4 * width * y + 4 * x + 0] := v.b;
        data[4 * width * y + 4 * x + 1] := v.g;
        data[4 * width * y + 4 * x + 2] := v.r;
        data[4 * width * y + 4 * x + 3] := v.a;
        assert data[..] == SetPixel(before, n, Written(v));
        forall p | 0 <= p <= n
          ensures PixelAt(data[..], p) == Written(PixelValue(s, p % width, p / width))
        {
          SetPixelAt(before, n, Written(v), p);
        }
        n := n + 1;
        x := x + 1;
      }
      NextRow(width, y);
      y := y + 1;
    }
  }

  // ---------------------------------------------------------------------------
  // The whole renderer

  /** The map to render: its extent in the grid's projection and its size in pixels. */
  datatype TileRequest = TileRequest(minx: real, miny: real, maxx: real, maxy: real, width: int, height: int)

  /** The opened dataset as `GDALGetGeoTransform` and `GDALGetRasterXSize` /
      `GDALGetRasterYSize` report it. */
  datatype Dataset = Dataset(geo: GeoTransform, sizeX: int, sizeY: int)

  /** Whether each GDAL/OGR setup call succeeded: parsing the grid's SRS,
      opening the dataset, building the source SRS, and creating the forward
      and the backward coordinate transformation. */
  datatype Setup = Setup(dstSrs: bool, datasetOpened: bool, srcSrs: bool, forward: bool, backward: bool)

  /** The renderer's failures, each reported with code 500. */
  datatype GdalError = DstSrsInvalid | OpenFailed | SrcSrsInvalid | SrcNotInvertible
                     | DstNotInvertible | NoForwardTransform | NoBackTransform | ReadFailed

  /** `GDALDatasetRasterIO`: the window read into a working-size buffer of
      three bytes per pixel, or a failure. */
  type RasterRead = (Window, Working) -> Option<seq<Byte>>

  /** A successful read fills the whole buffer it was given. */
  ghost predicate ReadFills(read: RasterRead)
  {
    forall win, wk :: read(win, wk).Some? ==> |read(win, wk).value| == ReadBufferSize(wk)
  }

  /** The tile's geo-transform: origin at (minx, maxy), north up, pixel size
      |maxx - minx| / width by |maxy - miny| / height. */
  function TileGeo(t: TileRequest): GeoTransform
    requires t.width > 0 && t.height > 0
  {
    GeoTransform(t.minx, Abs(t.maxx - t.minx) / t.width as real, 0.0,
                 t.maxy, 0.0, -(Abs(t.maxy - t.miny) / t.height as real))
  }

  /** The dataset's extent: the geo-transform's origin and that origin moved by
      the pixel size times the raster size on each axis. */
  function DatasetRect(ds: Dataset): Rect
  {
    Rect(ds.geo.c0, ds.geo.c3, ds.geo.c0 + ds.geo.c1 * ds.sizeX as real, ds.geo.c3 + ds.geo.c5 * ds.sizeY as real)
  }

  /** What the renderer produces: an error, a solid tile, or the resampled
      tile for the window read. */
  datatype Outcome = Failed(e: Error<GdalError>) | Solid(c: Colour) | Rendered(win: Window, s: Sampling)

  /** The sampling's offsets are the window's and its scales stretch the
      window exactly onto a buffer with at least one column. */
  predicate Stretches(s: Sampling, win: Window)
  {
    s.xOff == win.xOff && s.yOff == win.yOff && s.bw > 0 &&
    s.scalex * win.xSize as real == s.bw as real && s.scaley * win.ySize as real == s.bh as real
  }

  /** The last stage: the working resolution for the window, the read, and the
      sampling that maps tile pixels into the buffer read. The scales stretch
      the window exactly onto the buffer. */
  function Resample(t: TileRequest, ct: Transform, inv: GeoTransform, win: Window, read: RasterRead): (o: Outcome)
    requires t.width > 0 && t.height > 0 && ReadFills(read) && !Degenerate(win)
    ensures o.Failed? ==> o.e == Error(500, ReadFailed)
    ensures !o.Solid?
    ensures o.Rendered? ==> o.win == win && IsBuffer(o.s.buf, o.s.bw, o.s.bh)
    ensures o.Rendered? ==> Stretches(o.s, win)
  {
    var wk := WorkingResolution(t.width, t.height, win);
    match read(win, wk)
    case None => Failed(Error(500, ReadFailed))
    case Some(buf) =>
      assert |buf| == ReadBufferSize(wk);
      var dst := TileGeo(t);
      var s := Sampling(t.minx, t.maxy, dst.c1, -dst.c5, ct, inv, win.xOff, win.yOff,
                        wk.scalex, wk.scaley, buf, wk.width, wk.height);
      WorkingFits(t.width, t.height, win, s);
      Rendered(win, s)
  }

  /** A sampling over a buffer of the size read for the working resolution,
      with its size and scales: the buffer has its columns and rows, and the
      scales stretch the window onto it. */
  lemma WorkingFits(w: nat, h: nat, win: Window, s: Sampling)
    requires !Degenerate(win) && w + h > 0
    requires var wk := WorkingResolution(w, h, win);
             |s.buf| == ReadBufferSize(wk) && s.bw == wk.width && s.bh == wk.height &&
             s.scalex == wk.scalex && s.scaley == wk.scaley && s.xOff == win.xOff && s.yOff == win.yOff
    ensures IsBuffer(s.buf, s.bw, s.bh) && Stretches(s, win)
  {
    WorkingResolutionSpec(w, h, win);
  }

  /** The renderer's decision, in source order: the setup failures, the two
      inversions, no overlap, a degenerate window, and otherwise the last
      stage. */
  function RenderOutcome(t: TileRequest, ds: Dataset, setup: Setup, ct: Transform, read: RasterRead): (o: Outcome)
    requires t.width > 0 && t.height > 0 && ReadFills(read)
    ensures o.Failed? ==> o.e.code == 500
    ensures o.Rendered? ==> IsBuffer(o.s.buf, o.s.bw, o.s.bh) && !Degenerate(o.win)
    ensures o.Rendered? ==> Stretches(o.s, o.win)
  {
    if !setup.dstSrs then Failed(Error(500, DstSrsInvalid))
    else if !setup.datasetOpened then Failed(Error(500, OpenFailed))
    else if !setup.srcSrs then Failed(Error(500, SrcSrsInvalid))
    else if Invert(ds.geo).None? then Failed(Error(500, SrcNotInvertible))
    else if Invert(TileGeo(t)).None? then Failed(Error(500, DstNotInvertible))
    else if !setup.forward then Failed(Error(500, NoForwardTransform))
    else if !setup.backward then Failed(Error(500, NoBackTransform))
    else
      var box := Scan(ct, TileGeo(t), BorderPixels(t.width, t.height));
      if !Intersects(AsRect(box), DatasetRect(ds)) then Solid(NoOverlap)
      else
        var inv := Invert(ds.geo).value;
        var win := WindowOf(inv, box, ds.sizeX, ds.sizeY);
        if Degenerate(win) then Solid(DegenerateFill)
        else Resample(t, ct, inv, win, read)
  }

  /** `_mapcache_source_gdal_render_map`: the setup checks, the border scan,
      the overlap test, the window, the working resolution, the read and the
      render loop. An error leaves no image; otherwise the image is fresh,
      width by height with stride 4 * width, and holds the solid colour or
      the resampled pixels that RenderOutcome decides. */
  method RenderMap(t: TileRequest, ds: Dataset, setup: Setup, ct: Transform, read: RasterRead)
    returns (r: Result<RawImage, GdalError>)
    requires t.width > 0 && t.height > 0 && ReadFills(read)
    ensures RenderOutcome(t, ds, setup, ct, read).Failed? ==> r == Err(RenderOutcome(t, ds, setup, ct, read).e)
    ensures !RenderOutcome(t, ds, setup, ct, read).Failed? ==> r.Ok?
    ensures r.Ok? ==> fresh(r.value) && r.value.data != null && fresh(r.value.data) &&
                      r.value.w == t.width && r.value.h == t.height && r.value.stride == 4 * t.width &&
                      !r.value.isElevation && r.value.data.Length == t.width * t.height * 4
    ensures r.Ok? && RenderOutcome(t, ds, setup, ct, read).Solid? ==>
              forall p | 0 <= p < t.width * t.height ::
                PixelAt(r.value.data[..], p) == RenderOutcome(t, ds, setup, ct, read).c
    ensures r.Ok? && RenderOutcome(t, ds, setup, ct, read).Rendered? ==>
              forall p | 0 <= p < t.width * t.height ::
                PixelAt(r.value.data[..], p) ==
                  Written(PixelValue(RenderOutcome(t, ds, setup, ct, read).s, p % t.width, p / t.width))
  {
    if !setup.dstSrs { return Err(Error(500, DstSrsInvalid)); }
    if !setup.datasetOpened { return Err(Error(500, OpenFailed)); }
    if !setup.srcSrs { return Err(Error(500, SrcSrsInvalid)); }
    var srcInv := Invert(ds.geo);
    if srcInv.None? { return Err(Error(500, SrcNotInvertible)); }
    var dst := TileGeo(t);
    if Invert(dst).None? { return Err(Error(500, DstNotInvertible)); }
    if !setup.forward { return Err(Error(500, NoForwardTransform)); }
    if !setup.backward { return Err(Error(500, NoBackTransform)); }
    var box := BorderScan(ct, dst, t.width, t.height);
    if !Intersects(AsRect(box), DatasetRect(ds)) {
      var img := SolidTile(t.width, t.height, NoOverlap);
      return Ok(img);
    }
    var win := SourceWindow(srcInv.value, box, ds.sizeX, ds.sizeY);
    if Degenerate(win) {
      var img := SolidTile(t.width, t.height, DegenerateFill);
      return Ok(img);
    }
    r := ReadAndRender(t, ct, srcInv.value, win, read);
  }

  /** The last stage of `_mapcache_source_gdal_render_map`: the working
      resolution, the read (a failed read is error 500) and the render loop
      over the buffer read, as Resample decides. */
  method ReadAndRender(t: TileRequest, ct: Transform, inv: GeoTransform, win: Window, read: RasterRead)
    returns (r: Result<RawImage, GdalError>)
    requires t.width > 0 && t.height > 0 && ReadFills(read) && !Degenerate(win)
    ensures Resample(t, ct, inv, win, read).Failed? ==> r == Err(Resample(t, ct, inv, win, read).e)
    ensures Resample(t, ct, inv, win, read).Rendered? ==> r.Ok?
    ensures r.Ok? ==> fresh(r.value) && r.value.data != null && fresh(r.value.data) &&
                      r.value.w == t.width && r.value.h == t.height && r.value.stride == 4 * t.width &&
                      !r.value.isElevation && r.value.data.Length == t.width * t.height * 4
    ensures r.Ok? ==> Resample(t, ct, inv, win, read).Rendered?
    ensures r.Ok? ==>
              forall p | 0 <= p < t.width * t.height ::
                PixelAt(r.value.data[..], p) ==
                  Written(PixelValue(Resample(t, ct, inv, win, read).s, p % t.width, p / t.width))
  {
    var wk := WorkingResolution(t.width, t.height, win);
    var buf := read(win, wk);
    if buf.None? { return Err(Error(500, ReadFailed)); }
    var dst := TileGeo(t);
    assert Resample(t, ct, inv, win, read).Rendered?;
    var s := Sampling(t.minx, t.maxy, dst.c1, -dst.c5, ct, inv, win.xOff, win.yOff,
                      wk.scalex, wk.scaley, buf.value, wk.width, wk.height);
    var img := RenderPixels(s, t.width, t.height);
    return Ok(img);
  }

  /** When no point of the tile's border can be moved into the dataset's
      projection, the box keeps its sentinels and the tile is the no-overlap
      tile, unless the dataset reaches past 1e20 on all four sides. */
  lemma NothingTransformsGivesNoOverlap(t: TileRequest, ds: Dataset, setup: Setup, ct: Transform, read: RasterRead)
    requires t.width > 0 && t.height > 0 && ReadFills(read)
    requires setup == Setup(true, true, true, true, true)
    requires Invert(ds.geo).Some? && Invert(TileGeo(t)).Some?
    requires forall p | OnBorder(t.width, t.height, p) :: ct(PixelPoint(TileGeo(t), p)).None?
    requires var src := DatasetRect(ds);
             src.lrx <= Huge || src.ulx >= -Huge || src.lry >= -Huge || src.uly <= Huge
    ensures RenderOutcome(t, ds, setup, ct, read) == Solid(NoOverlap)
  {
    var ps := BorderPixels(t.width, t.height);
    forall k | 0 <= k < |ps|
      ensures ct(PixelPoint(TileGeo(t), ps[k])).None?
    {
      BorderPixelsExact(t.width, t.height, ps[k]);
    }
    ScanAllFail(ct, TileGeo(t), ps);
    SentinelIntersects(DatasetRect(ds));
  }

  /** A sample whose source point lies inside the window, with scales that
      stretch the window onto a buffer with columns and rows, reads the buffer. */
  lemma SampleInsideWindow(s: Sampling, win: Window, x: int, y: int)
    requires IsBuffer(s.buf, s.bw, s.bh) && !Degenerate(win) && Stretches(s, win) && s.bh > 0
    requires var src := SourcePoint(s, x, y);
             win.xOff as real <= src.0 < (win.xOff + win.xSize) as real &&
             win.yOff as real <= src.1 < (win.yOff + win.ySize) as real
    ensures PixelValue(s, x, y).a == 255
  {
    var src := SourcePoint(s, x, y);
    ScaledIndexInRange(src.0, win.xOff, win.xSize, s.scalex, s.bw);
    ScaledIndexInRange(src.1, win.yOff, win.ySize, s.scaley, s.bh);
  }

  /** A coordinate in [off, off + size) lands in [0, n) when the scale
      stretches size onto n > 0. */
  lemma ScaledIndexInRange(c: real, off: int, size: int, k: real, n: int)
    requires size > 0 && n > 0 && k * size as real == n as real
    requires off as real <= c < (off + size) as real
    ensures 0 <= ScaledIndex(c, off, k) < n
  {
    var u := c - off as real;
    ScaleCovers(k, size as real, n as real, u);
    assert 0.0 <= u * k < n as real;
  }

  /** A tile pixel whose source point lies inside the window read is drawn
      from the buffer and is opaque, provided the working buffer has rows. */
  lemma InsideWindowIsOpaque(t: TileRequest, ds: Dataset, setup: Setup, ct: Transform, read: RasterRead, x: int, y: int)
    requires t.width > 0 && t.height > 0 && ReadFills(read)
    requires RenderOutcome(t, ds, setup, ct, read).Rendered?
    requires var o := RenderOutcome(t, ds, setup, ct, read);
             var src := SourcePoint(o.s, x, y);
             o.s.bh > 0 &&
             o.win.xOff as real <= src.0 < (o.win.xOff + o.win.xSize) as real &&
             o.win.yOff as real <= src.1 < (o.win.yOff + o.win.ySize) as real
    ensures PixelValue(RenderOutcome(t, ds, setup, ct, read).s, x, y).a == 255
  {
    var o := RenderOutcome(t, ds, setup, ct, read);
    SampleInsideWindow(o.s, o.win, x, y);
  }
}
