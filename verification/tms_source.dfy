/** The TMS source: picks the zoom level and tile of an upstream TMS server
    for a requested map, builds the tile's URL, and for elevation tilesets
    marks the decoded heightmap and gives it its extent normalised to the
    grid. The HTTP request, the format check and the image decoder are
    inputs. */
module TmsSource {
  import opened Common
  import opened Text
  import opened Raster

  datatype Extent = Extent(minx: real, miny: real, maxx: real, maxy: real)

  /** The parts of the grid the source reads: its extent, the resolution of
      each level and the side of an elevation block. */
  datatype TmsGrid = TmsGrid(extent: Extent, resolutions: seq<real>, elevationblock: int)

  /** Resolutions are positive. */
  predicate ValidGrid(g: TmsGrid)
  {
    forall i :: 0 <= i < |g.resolutions| ==> g.resolutions[i] > 0.0
  }

  /** `mapcache_source_tms`: server URL, layer, format and whether rows are
      counted from the top. */
  datatype TmsConfig = TmsConfig(url: string, layer: string, format: string, flipy: bool)

  datatype TmsError = HttpFailed | UnsupportedFormat | BadHeightmapSize

  // ---------------------------------------------------------------------------
  // Zoom level and tile

  /** The map's resolution rounded up: the larger of the two axes. */
  function ResUp(e: Extent, width: int, height: int): (r: real)
    requires width > 0 && height > 0
    ensures (e.maxx - e.minx) / width as real <= r && (e.maxy - e.miny) / height as real <= r
  {
    Max(Ceil((e.maxx - e.minx) / width as real) as real, Ceil((e.maxy - e.miny) / height as real) as real)
  }

  /** The first level at or after i whose resolution is below the bound. */
  function FirstBelowFrom(res: seq<real>, bound: real, i: nat): (k: Option<nat>)
    requires i <= |res|
    ensures k.Some? ==> i <= k.value < |res| && res[k.value] < bound &&
                        forall j :: i <= j < k.value ==> res[j] >= bound
    ensures k.None? ==> forall j :: i <= j < |res| ==> res[j] >= bound
    decreases |res| - i
  {
    if i == |res| then None
    else if res[i] < bound then Some(i)
    else FirstBelowFrom(res, bound, i + 1)
  }

  /** The index of the tile of the given span that holds offset d. */
  function TileIndex(d: real, span: real): (k: int)
    requires span > 0.0
    ensures k as real * span <= d < (k + 1) as real * span
  {
    FloorScaled(d, span);
    Floor(d / span)
  }

  /** `floor(d / span)` tiles of the given span reach up to d, one more
      reaches past it. */
  lemma FloorScaled(d: real, span: real)
    requires span > 0.0
    ensures Floor(d / span) as real * span <= d < (Floor(d / span) + 1) as real * span
  {
    var q := d / span;
    var n := Floor(q);
    var hi := n as real + 1.0;
    MulRealLe(n as real, q, span);
    MulRealLt(q, hi, span);
    DivMul(d, span);
    assert q * span < hi * span;
    assert d < hi * span;
  }

  lemma PositiveProduct(a: real, b: real)
    requires a > 0.0 && b > 0.0
    ensures a * b > 0.0
  {
  }

  datatype TileCoord = TileCoord(zoom: int, x: int, y: int)

  /** `_GetTileCoords`: the first level whose resolution is finer than the
      map's rounded-up resolution, and the tile of that level holding the
      map's lower-left corner, its row counted from the top with `flipy`;
      level and tile 0 when no level is fine enough. */
  function TileSpec(e: Extent, width: int, height: int, g: TmsGrid, flipy: bool): (c: TileCoord)
    requires width > 0 && height > 0 && ValidGrid(g)
    ensures (forall k :: 0 <= k < |g.resolutions| ==> g.resolutions[k] >= ResUp(e, width, height)) ==>
              c == TileCoord(0, 0, 0)
    ensures (exists k :: 0 <= k < |g.resolutions| && g.resolutions[k] < ResUp(e, width, height)) ==>
              0 <= c.zoom < |g.resolutions| && g.resolutions[c.zoom] < ResUp(e, width, height) &&
              (forall k :: 0 <= k < c.zoom ==> g.resolutions[k] >= ResUp(e, width, height)) &&
              c == TileAt(e, width, height, g, flipy, c.zoom)
  {
    match FirstBelowFrom(g.resolutions, ResUp(e, width, height), 0) {
      case None => TileCoord(0, 0, 0)
      case Some(z) => TileAt(e, width, height, g, flipy, z)
    }
  }

  /** The tile of level z holding the map's lower-left corner: its column
      and row, the row counted back from the top with `flipy`, cover the
      corner's offset from the grid's origin. */
  function TileAt(e: Extent, width: int, height: int, g: TmsGrid, flipy: bool, z: nat): (c: TileCoord)
    requires width > 0 && height > 0 && ValidGrid(g) && z < |g.resolutions|
    ensures var sx := g.resolutions[z] * width as real;
            var sy := g.resolutions[z] * height as real;
            var row := if flipy then Pow2(z) - 1 - c.y else c.y;
            c.zoom == z &&
            c.x as real * sx <= e.minx - g.extent.minx < (c.x + 1) as real * sx &&
            row as real * sy <= e.miny - g.extent.miny < (row + 1) as real * sy
  {
    var res := g.resolutions[z];
    PositiveProduct(res, width as real);
    PositiveProduct(res, height as real);
    var x := TileIndex(e.minx - g.extent.minx, res * width as real);
    var y := TileIndex(e.miny - g.extent.miny, res * height as real);
    TileCoord(z, x, if flipy then Pow2(z) - 1 - y else y)
  }

  /** `_GetTileCoords`: the loop over the levels with its early return. */
  method GetTileCoords(e: Extent, width: int, height: int, g: TmsGrid, flipy: bool)
    returns (zoom: int, x: int, y: int)
    requires width > 0 && height > 0 && ValidGrid(g)
    ensures TileCoord(zoom, x, y) == TileSpec(e, width, height, g, flipy)
  {
    var resUp := ResUp(e, width, height);
    var i := 0;
    while i < |g.resolutions|
      invariant 0 <= i <= |g.resolutions|
      invariant FirstBelowFrom(g.resolutions, resUp, 0) == FirstBelowFrom(g.resolutions, resUp, i)
    {
      var res := g.resolutions[i];
      if res < resUp {
        var c := TileAt(e, width, height, g, flipy, i);
        zoom, x, y := c.zoom, c.x, c.y;
        return;
      }
      i := i + 1;
    }
    zoom, x, y := 0, 0, 0;
  }

  // ---------------------------------------------------------------------------
  // Upstream URL

  /** The part of the URL after the server's: `/1.0.0/layer/z/x/y.format`. */
  function UpstreamPath(layer: string, c: TileCoord, format: string): string
  {
    "/" + "1.0.0" + ("/" + layer + ("/" + IntToDec(c.zoom) + ("/" + IntToDec(c.x) + ("/" + (IntToDec(c.y) + "." + format)))))
  }

  /** The URL both render paths request: the server's URL followed by a
      path whose pieces are the version, the layer and the tile numbers. */
  function Url(cfg: TmsConfig, c: TileCoord): (u: string)
    ensures |cfg.url| <= |u| && u[..|cfg.url|] == cfg.url
    ensures |cfg.layer| > 0 && '/' !in cfg.layer && '/' !in cfg.format ==>
              Tokens(u[|cfg.url|..], '/') ==
                ["1.0.0", cfg.layer, IntToDec(c.zoom), IntToDec(c.x), IntToDec(c.y) + "." + cfg.format]
  {
    UpstreamTokens(cfg.layer, c, cfg.format);
    assert (cfg.url + UpstreamPath(cfg.layer, c, cfg.format))[|cfg.url|..] == UpstreamPath(cfg.layer, c, cfg.format);
    cfg.url + UpstreamPath(cfg.layer, c, cfg.format)
  }

  /** The server finds the version, the layer and the three numbers as the
      pieces of the path, and reads zoom, x and y back from them. */
  lemma UrlReadBack(layer: string, c: TileCoord, format: string)
    requires |layer| > 0 && '/' !in layer && '/' !in format
    ensures var toks := Tokens(UpstreamPath(layer, c, format), '/');
            toks == ["1.0.0", layer, IntToDec(c.zoom), IntToDec(c.x), IntToDec(c.y) + "." + format] &&
            FullInt(toks[2]) && StrToL(toks[2]).0 == c.zoom &&
            FullInt(toks[3]) && StrToL(toks[3]).0 == c.x &&
            DotAfterInt(toks[4]) && StrToL(toks[4]).0 == c.y
  {
    NoSlashInDec(c.zoom);
    NoSlashInDec(c.x);
    NoSlashInLast(c.y, format);
    assert '/' !in "1.0.0";
    FivePieces("1.0.0", layer, IntToDec(c.zoom), IntToDec(c.x), IntToDec(c.y) + "." + format);
    DecToken(c.zoom);
    DecToken(c.x);
    DecDotToken(c.y, format);
  }

  lemma UpstreamTokens(layer: string, c: TileCoord, format: string)
    ensures |layer| > 0 && '/' !in layer && '/' !in format ==>
              Tokens(UpstreamPath(layer, c, format), '/') ==
                ["1.0.0", layer, IntToDec(c.zoom), IntToDec(c.x), IntToDec(c.y) + "." + format]
  {
    if |layer| > 0 && '/' !in layer && '/' !in format {
      UrlReadBack(layer, c, format);
    }
  }

  // ---------------------------------------------------------------------------
  // Normalised extent of an elevation tile

  function Fabs(v: real): real { if v < 0.0 then -v else v }

  datatype NormExtent = NormExtent(x0: real, y0: real, x1: real, y1: real)

  /** The normalised extent as written: both axes are divided by the width
      of the grid, so each side spans twice its share of the grid's width. */
  function ElevationExtentAsWritten(e: Extent, g: TmsGrid): (n: NormExtent)
    requires g.extent.maxx != g.extent.minx
    ensures n.x1 - n.x0 == 2.0 * (e.maxx - e.minx) / Fabs(g.extent.maxx - g.extent.minx)
    ensures n.y1 - n.y0 == 2.0 * (e.maxy - e.miny) / Fabs(g.extent.maxx - g.extent.minx)
  {
    ScaledDifference(e.maxx, e.minx, Fabs(g.extent.maxx - g.extent.minx));
    ScaledDifference(e.maxy, e.miny, Fabs(g.extent.maxx - g.extent.minx));
    var dx := Fabs(g.extent.maxx - g.extent.minx);
    var dy := Fabs(g.extent.maxx - g.extent.minx);
    NormExtent(e.minx / dx * 2.0, e.miny / dy * 2.0, e.maxx / dx * 2.0, e.maxy / dy * 2.0)
  }

  /** The normalised extent with each axis divided by the grid's own span on
      that axis, so each side spans twice its share of the grid on that axis. */
  function ElevationExtent(e: Extent, g: TmsGrid): (n: NormExtent)
    requires g.extent.maxx != g.extent.minx && g.extent.maxy != g.extent.miny
    ensures n.x1 - n.x0 == 2.0 * (e.maxx - e.minx) / Fabs(g.extent.maxx - g.extent.minx)
    ensures n.y1 - n.y0 == 2.0 * (e.maxy - e.miny) / Fabs(g.extent.maxy - g.extent.miny)
  {
    ScaledDifference(e.maxx, e.minx, Fabs(g.extent.maxx - g.extent.minx));
    ScaledDifference(e.maxy, e.miny, Fabs(g.extent.maxy - g.extent.miny));
    var dx := Fabs(g.extent.maxx - g.extent.minx);
    var dy := Fabs(g.extent.maxy - g.extent.miny);
    NormExtent(e.minx / dx * 2.0, e.miny / dy * 2.0, e.maxx / dx * 2.0, e.maxy / dy * 2.0)
  }

  /** A map covering the whole grid spans 2 on both axes, and a map spans a
      part of that in proportion to its share of the grid. */
  lemma ElevationExtentSpan(e: Extent, g: TmsGrid)
    requires g.extent.maxx > g.extent.minx && g.extent.maxy > g.extent.miny
    ensures var n := ElevationExtent(e, g);
            n.x1 - n.x0 == 2.0 * (e.maxx - e.minx) / (g.extent.maxx - g.extent.minx) &&
            n.y1 - n.y0 == 2.0 * (e.maxy - e.miny) / (g.extent.maxy - g.extent.miny)
    ensures e == g.extent ==> ElevationExtent(e, g).x1 - ElevationExtent(e, g).x0 == 2.0 &&
                              ElevationExtent(e, g).y1 - ElevationExtent(e, g).y0 == 2.0
  {
    var dx := g.extent.maxx - g.extent.minx;
    var dy := g.extent.maxy - g.extent.miny;
    assert Fabs(dx) == dx && Fabs(dy) == dy;
    var n := ElevationExtent(e, g);
    assert n.x1 - n.x0 == 2.0 * (e.maxx - e.minx) / dx;
    assert n.y1 - n.y0 == 2.0 * (e.maxy - e.miny) / dy;
    TwiceOwnShare(dx);
    TwiceOwnShare(dy);
  }

  lemma TwiceOwnShare(d: real)
    requires d != 0.0
    ensures 2.0 * d / d == 2.0
  {
  }

  lemma ScaledDifference(a: real, b: real, d: real)
    requires d != 0.0
    ensures a / d * 2.0 - b / d * 2.0 == 2.0 * (a - b) / d
  {
  }

  /** On the geographic grid (-180, -90, 180, 90) the whole grid is mapped to
      rows -0.5 .. 0.5 as written, instead of -1 .. 1. */
  lemma ElevationExtentSquashed()
    ensures var g := TmsGrid(Extent(-180.0, -90.0, 180.0, 90.0), [], 0);
            ElevationExtentAsWritten(g.extent, g) == NormExtent(-1.0, -0.5, 1.0, 0.5) &&
            ElevationExtent(g.extent, g) == NormExtent(-1.0, -1.0, 1.0, 1.0)
  {
  }

  /** The extent as written is the per-axis one exactly on grids as wide as
      they are high. */
  lemma ElevationExtentAsWrittenSquare(e: Extent, g: TmsGrid)
    requires g.extent.maxx != g.extent.minx && g.extent.maxy != g.extent.miny
    requires e.miny != 0.0
    ensures ElevationExtentAsWritten(e, g) == ElevationExtent(e, g) <==>
            Fabs(g.extent.maxx - g.extent.minx) == Fabs(g.extent.maxy - g.extent.miny)
  {
    var dx := Fabs(g.extent.maxx - g.extent.minx);
    var dy := Fabs(g.extent.maxy - g.extent.miny);
    if ElevationExtentAsWritten(e, g) == ElevationExtent(e, g) {
      assert e.miny / dx * 2.0 == e.miny / dy * 2.0;
      QuotientDeterminesDivisor(e.miny, dx, dy);
    }
  }

  lemma QuotientDeterminesDivisor(a: real, d1: real, d2: real)
    requires a != 0.0 && d1 != 0.0 && d2 != 0.0 && a / d1 * 2.0 == a / d2 * 2.0
    ensures d1 == d2
  {
    assert a / d1 == a / d2;
    DivMul(a, d1);
    DivMul(a, d2);
    assert (a / d1) * d1 == (a / d1) * d2;
  }

  // ---------------------------------------------------------------------------
  // Rendering

  /** `mapcache_map` as the source fills it: the requested extent and size,
      the encoded tile fetched and the decoded image. */
  class TileMap {
    var extent: Extent
    var width: int
    var height: int
    var encodedData: Option<seq<Byte>>
    var rawImage: RawImage?

    constructor (extent: Extent, width: int, height: int)
      ensures this.extent == extent && this.width == width && this.height == height
      ensures encodedData.None? && rawImage == null
    {
      this.extent := extent;
      this.width := width;
      this.height := height;
      encodedData := None;
      rawImage := null;
    }
  }

  /** `_mapcache_source_tms_render_map_elevation`: requests the tile's URL
      into a fresh buffer, which becomes the map's encoded data whatever the
      request returns; an HTTP error is passed on, an unsupported format is
      502; otherwise the decoded image becomes the map's image, marked as
      elevation and given the normalised extent as written, and a size other
      than the grid's elevation block is 500 (the image stays in place).
      `received` is what the request wrote into the buffer and `failure` the
      error it raised, if any. */
  method RenderElevation(cfg: TmsConfig, g: TmsGrid, m: TileMap, received: seq<Byte>,
                         failure: Option<Error<TmsError>>, validFormat: bool, decoded: RawImage)
    returns (err: Option<Error<TmsError>>, url: string)
    requires m.width > 0 && m.height > 0 && ValidGrid(g)
    requires g.extent.maxx != g.extent.minx
    modifies m, decoded
    ensures m.extent == old(m.extent) && m.width == old(m.width) && m.height == old(m.height)
    ensures url == Url(cfg, TileSpec(m.extent, m.width, m.height, g, cfg.flipy))
    ensures m.encodedData == Some(received)
    ensures decoded.w == old(decoded.w) && decoded.h == old(decoded.h) && decoded.data == old(decoded.data)
    ensures decoded.stride == old(decoded.stride)
    ensures failure.Some? ==> err == failure && m.rawImage == old(m.rawImage) && unchanged(decoded)
    ensures failure.None? && !validFormat ==>
              err == Some(Error(502, UnsupportedFormat)) && m.rawImage == old(m.rawImage) && unchanged(decoded)
    ensures failure.None? && validFormat ==>
              m.rawImage == decoded && decoded.isElevation &&
              NormExtent(decoded.x0, decoded.y0, decoded.x1, decoded.y1) == ElevationExtentAsWritten(m.extent, g) &&
              (err.None? <==> decoded.w == g.elevationblock && decoded.h == g.elevationblock) &&
              (err.Some? ==> err == Some(Error(500, BadHeightmapSize)))
  {
    var zoom, x, y := GetTileCoords(m.extent, m.width, m.height, g, cfg.flipy);
    url := Url(cfg, TileCoord(zoom, x, y));
    m.encodedData := Some(received);
    if failure.Some? {
      return failure, url;
    }
    if !validFormat {
      return Some(Error(502, UnsupportedFormat)), url;
    }
    m.rawImage := decoded;
    decoded.isElevation := true;
    var n := ElevationExtentAsWritten(m.extent, g);
    decoded.x0, decoded.y0, decoded.x1, decoded.y1 := n.x0, n.y0, n.x1, n.y1;
    if decoded.w != g.elevationblock || decoded.h != g.elevationblock {
      return Some(Error(500, BadHeightmapSize)), url;
    }
    err := None;
  }

  /** `_mapcache_source_tms_render_map_image`: requests the same URL into a
      fresh buffer, which becomes the map's encoded data; an HTTP error is
      passed on and an unsupported format is 502. */
  method RenderImage(cfg: TmsConfig, g: TmsGrid, m: TileMap, received: seq<Byte>,
                     failure: Option<Error<TmsError>>, validFormat: bool)
    returns (err: Option<Error<TmsError>>, url: string)
    requires m.width > 0 && m.height > 0 && ValidGrid(g)
    modifies m
    ensures m.extent == old(m.extent) && m.width == old(m.width) && m.height == old(m.height)
    ensures url == Url(cfg, TileSpec(m.extent, m.width, m.height, g, cfg.flipy))
    ensures m.rawImage == old(m.rawImage)
    ensures m.encodedData == Some(received)
    ensures failure.Some? ==> err == failure
    ensures failure.None? ==> (err.None? <==> validFormat) &&
                              (err.Some? ==> err == Some(Error(502, UnsupportedFormat)))
  {
    var zoom, x, y := GetTileCoords(m.extent, m.width, m.height, g, cfg.flipy);
    url := Url(cfg, TileCoord(zoom, x, y));
    m.encodedData := Some(received);
    if failure.Some? {
      return failure, url;
    }
    if !validFormat {
      return Some(Error(502, UnsupportedFormat)), url;
    }
    err := None;
  }

  /** `_mapcache_source_tms_render_map`: elevation tilesets take the
      elevation path, all others the image path; both request the same URL.
      Only the elevation path divides by the width of the grid. */
  method RenderMap(cfg: TmsConfig, g: TmsGrid, elevation: bool, m: TileMap, received: seq<Byte>,
                   failure: Option<Error<TmsError>>, validFormat: bool, decoded: RawImage)
    returns (err: Option<Error<TmsError>>, url: string)
    requires m.width > 0 && m.height > 0 && ValidGrid(g)
    requires elevation ==> g.extent.maxx != g.extent.minx
    modifies m, decoded
    ensures m.extent == old(m.extent) && m.width == old(m.width) && m.height == old(m.height)
    ensures url == Url(cfg, TileSpec(m.extent, m.width, m.height, g, cfg.flipy))
    ensures m.encodedData == Some(received)
    ensures !elevation ==> m.rawImage == old(m.rawImage) && unchanged(decoded)
    ensures decoded.w == old(decoded.w) && decoded.h == old(decoded.h) && decoded.data == old(decoded.data)
    ensures decoded.stride == old(decoded.stride)
    ensures failure.Some? || !validFormat ==> m.rawImage == old(m.rawImage) && unchanged(decoded)
    ensures failure.Some? ==> err == failure
    ensures failure.None? && !validFormat ==> err == Some(Error(502, UnsupportedFormat))
    ensures !elevation && failure.None? ==> (err.None? <==> validFormat)
    ensures elevation && failure.None? && validFormat ==>
              m.rawImage == decoded && decoded.isElevation &&
              NormExtent(decoded.x0, decoded.y0, decoded.x1, decoded.y1) == ElevationExtentAsWritten(m.extent, g) &&
              (err.None? <==> decoded.w == g.elevationblock && decoded.h == g.elevationblock) &&
              (err.Some? ==> err == Some(Error(500, BadHeightmapSize)))
  {
    if elevation {
      err, url := RenderElevation(cfg, g, m, received, failure, validFormat, decoded);
    } else {
      err, url := RenderImage(cfg, g, m, received, failure, validFormat);
    }
  }
}
