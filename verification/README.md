# mapcache (OpenWebGlobe fork): tile sources, RAW0 codec, S3 cache and OWG service

This project models, in Dafny, the request-level logic of five parts of the
OpenWebGlobe fork of mapcache, a tile-caching server:

- **GDAL source** (`lib/source_gdal.c`). Renders a map tile from a raster
  dataset. It inverts the dataset's and the tile's affine geo-transforms. It
  scans the tile's border through the coordinate transformation to find the
  source area it needs, and turns that area into a clamped pixel window. From
  the window it picks a working resolution, and then fills the tile pixel by
  pixel from the read buffer with a 3-byte point sampler. A second, bilinear
  sampler sits beside it. When the tile does not overlap the dataset, or the
  window is degenerate, it returns a solid tile instead.
- **RAW0 codec** (`lib/imageio_raw.c`). An elevation tile is stored as the
  bytes "RAW0", the 32-bit grid size N in little-endian order, then 4·N·N
  pixel bytes. The codec has encode, decode and create-empty operations.
- **S3 cache** (`lib/cache_s3.c`). The object keys under the three layouts:
  "tilecache", template and ArcGIS. Also the dimension sanitising, the
  max-zoom gate, the libs3 callbacks that move a position through a transfer
  buffer, the status mapping, and configuration parsing with its checks.
- **OWG service** (`lib/service_owg.c`). Parses `/layer/tiles/z/x/y.ext`. It
  resolves `;`-separated `name@grid` entries against the configuration and
  converts OWG tile numbers to the grid's own origin. It also handles the
  `layer/layersettings.json` capabilities request and its JSON document.
- **TMS source** (`lib/source_tms.c`). Chooses the zoom level and tile of an
  upstream TMS server, builds the URL, and for elevation tilesets gives the
  decoded heightmap its extent normalised to the grid.

Doubles are modelled as `real`. The C casts and libm rounding are written out
in `Common`: `Floor`, `Ceil`, and `Trunc` (toward zero). Where the source
prints or stores 32-bit values, the model reduces them modulo 2^32 explicitly.

Some outside calls become values or parameters:

- the coordinate transformation is a total function `(x, y) -> Option<(x, y)>`;
- the raster read, the libs3 responses and the HTTP reply are inputs;
- the image decoder's result and the format check are inputs;
- the XML configuration arrives already parsed.

Operations that work step by step are methods with loop invariants, each
proved equal to a specification function:

- the border scan;
- the window clamping;
- the fill and copy loops;
- the key builders;
- the OWG tokenising loop;
- the TMS level loop.

The objects the source updates in place are classes with `modifies` clauses:
the raw image, the libs3 callback data, the S3 cache and the TMS map.

Files:

- `common.dfy`: options, results and rounding.
- `text.dfy`: decimal and hex formatting, `strtol`, `strtok`-style tokens, replace-all and sanitising.
- `s3_template.dfy`: the S3 filename template read as literal pieces and `{name}` tokens.
- `geo_matrix.dfy`: the affine transform and rectangles.
- `sampler.dfy`: the two samplers.
- `raster_image.dfy`: the image and buffer.
- `gdal_source.dfy`, `raw_codec.dfy`, `s3_keys.dfy`, `s3_cache.dfy`, `owg_service.dfy`, `tms_source.dfy`: the five parts listed above.

The C library's formatting and parsing that the core relies on are modelled in
`Text` and cited at the lines that call them: `strtol`, `apr_strtok`,
`apr_psprintf` with `%u`, `%02d` and `%08x`, and `mapcache_util_str_replace`.

## Model

| member | source | states |
|---|---|---|
| GeoMatrix.Invert | lib/source_gdal.c:175-195 | Fails (None) exactly when the determinant's magnitude is below GM_EPSILON. |
| GeoMatrix.InvertIsInverse | lib/source_gdal.c:175-195 | Whatever `InvertGeoMatrix` returns is the inverse of its argument: each coefficient times the determinant is the matching cofactor. |
| GeoMatrix.InverseUndoesForward | lib/source_gdal.c:175-195 | Over exact reals, applying the inverse after the forward transform gives back every point. |
| GeoMatrix.ForwardUndoesInverse | lib/source_gdal.c:175-195 | Applying the forward transform after the inverse gives back every point, so the inverse is two-sided. |
| GeoMatrix.InvertRoundTrips | lib/source_gdal.c:175-195 | A successful inversion round-trips every point, in both orders. |
| GeoMatrix.IntersectsSymmetric | lib/source_gdal.c:147-157 | `TestRectRectIntersect` gives the same answer with its rectangles swapped. |
| GeoMatrix.IntersectsIffCommonPoint | lib/source_gdal.c:147-157 | Two well-formed rectangles intersect iff some point lies strictly inside both, so rectangles that only touch do not intersect. |
| Sampler.Fract | lib/source_gdal.c:64-67 | The fractional part lies in [0, 1), and x minus it is an integer. |
| Sampler.Clamp | lib/source_gdal.c:69-72 | The result lies in [minval, maxval], and equals x when x is already inside. |
| Sampler.ReadBGR | lib/source_gdal.c:74-89 | Outside the buffer the sample is (0,0,0,0). Inside it, r, g, b are bytes 3(w·y+x), +1, +2, and a is 255. |
| Sampler.PixelOffsetInRange | lib/source_gdal.c:74-89 | The three bytes read for an in-range pixel lie inside the 3·w·h buffer. |
| Sampler.Blend | lib/source_gdal.c:91-145 | Each channel is the bilinear weighting plus 0.5, clamped to [0, 255] and truncated. |
| Sampler.BlendAtCorner | lib/source_gdal.c:91-145 | With zero fractions, a channel is its top-left corner value. |
| Sampler.BlendConstant | lib/source_gdal.c:91-145 | Four equal corners blend to their common value, for any fractions. |
| Sampler.CellOf | lib/source_gdal.c:91-145 | The corrected cell is axis-aligned: the two corners of a column share u, and the two corners of a row share v. |
| Sampler.BilinearAtPixel | lib/source_gdal.c:91-145 | At an in-range integer position, both the corrected and the as-written bilinear sample equal the point sample. |
| Sampler.BilinearUniform | lib/source_gdal.c:91-145 | Where the four corner pixels agree, the corrected bilinear sample is that pixel. |
| Sampler.CellAsWritten | lib/source_gdal.c:98-109 | The cell as written equals the axis-aligned cell whenever the truncated row is at most the height. Beyond it, the first corner keeps the unclamped row and takes h−1 as its column, and the other six coordinates are unchanged. |
| Sampler.BilinearAsWritten | lib/source_gdal.c:91-145 | The sampler as written agrees with the corrected bilinear sampler wherever the truncated row is at most the height. |
| Sampler.CellAsWrittenSkewed | lib/source_gdal.c:100-103 | As written, in a 4 by 1 buffer at (3, 2), u00 is pulled to 0 while u01 stays 3. The corrected cell keeps u00 at 3. |
| Sampler.BilinearAsWrittenDiffers | lib/source_gdal.c:91-145 | As written, that sample at (3.0, 2.0) is transparent (a = 0). The corrected one is opaque (a = 255). |
| GdalSource.TopBottom | lib/source_gdal.c:357-382 | The first border loop visits 2n points. |
| GdalSource.LeftRight | lib/source_gdal.c:383-408 | The second border loop visits 2n points. |
| GdalSource.TopBottomElems | lib/source_gdal.c:357-382 | The first loop's points are exactly (p, 0) and (p, h) for 0 <= p < n. |
| GdalSource.LeftRightElems | lib/source_gdal.c:383-408 | The second loop's points are exactly (0, p) and (w, p) for 0 <= p < n. |
| GdalSource.BorderPixelsExact | lib/source_gdal.c:350-408 | The scan visits 2(w+1)+2(h+1) points, and a point is visited iff it lies on the closed border of the tile. |
| GdalSource.ScanContains | lib/source_gdal.c:350-408 | The box contains every border point whose transform succeeded. |
| GdalSource.ScanAttained | lib/source_gdal.c:350-408 | Each side of the box is either its ±1e20 sentinel or the coordinate of a point that transformed, so the box is the exact min/max. |
| GdalSource.ScanAllFail | lib/source_gdal.c:350-408 | When no border point transforms, the sentinels remain. |
| GdalSource.SentinelIntersects | lib/source_gdal.c:350-411 | The sentinel box intersects a dataset only if the dataset reaches beyond ±1e20. |
| GdalSource.BorderScan | lib/source_gdal.c:350-408 | The two border loops compute the fold of `Step` over the border points, starting at the sentinels. |
| GdalSource.ScanTopBottom | lib/source_gdal.c:350-382 | The first loop leaves the fold over the top and bottom rows, starting at the sentinels. |
| GdalSource.ScanLeftRight | lib/source_gdal.c:383-408 | The second loop continues the fold over the left and right columns. |
| GdalSource.ScanTopBottomStep | lib/source_gdal.c:350-382 | One more column of the first loop folds its top pixel, then its bottom pixel, into the box. |
| GdalSource.ScanLeftRightStep | lib/source_gdal.c:383-408 | One more row of the second loop folds its left pixel, then its right pixel, into the box. |
| GdalSource.SourceWindow | lib/source_gdal.c:452-473 | The window is truncated and clamped in source order. Its offsets lie in [0, size−1], and its far edge stays at or before size−1. |
| GdalSource.WindowSpan | lib/source_gdal.c:461-473 | A far corner inside the dataset is the window's last pixel. A corner before the offset gives a non-positive size. |
| GdalSource.WorkingResolution | lib/source_gdal.c:504-512 | The working width is 2·max(w, h), and the height is not negative. |
| GdalSource.WorkingResolutionSpec | lib/source_gdal.c:504-512 | The working height is ⌊width·ySize/xSize⌋, the window's aspect ratio rounded down. The scales stretch the window exactly onto the working size. |
| GdalSource.SourceTileHeight | lib/source_gdal.c:509 | `(int)(sourcetilewidth / aspect)` is the largest height h with h·xSize ≤ width·ySize. |
| GdalSource.ScaleOf | lib/source_gdal.c:511-512 | A scale times the window size is the working size. |
| GdalSource.WorkingFits | lib/source_gdal.c:504-548 | A buffer of the size allocated for the working resolution has its columns and rows, and the scales stretch the window onto it. |
| GdalSource.DoubleTrunc | lib/source_gdal.c:508 | `quality * max` with quality 2.0 truncates to exactly 2·max. |
| GdalSource.WorkingHeight | lib/source_gdal.c:507-509 | `(int)(width / aspect)` equals the floor of width·ySize/xSize. |
| GdalSource.ReadBufferBytes | lib/source_gdal.c:524 | The read buffer holds 3·m·⌊m·ySize/xSize⌋ bytes, with m = 2·max(w, h). |
| GdalSource.SolidTile | lib/source_gdal.c:413-492 | A fallback tile is a fresh w by h image with stride 4w, and every pixel holds the given colour. |
| GdalSource.WrittenLayout | lib/source_gdal.c:579-586 | Tile pixel (x, y) holds the sample with red and blue swapped, so output byte 0 is source byte 2. |
| GdalSource.RenderPixels | lib/source_gdal.c:552-586 | The render loop writes every pixel p exactly once, at offset 4p, as the b, g, r, a bytes of the sample at p % w, p / w. |
| GdalSource.Resample | lib/source_gdal.c:504-548 | A failed read is error 500. Otherwise the samples use the window's offsets and scales that stretch the window onto the read buffer. |
| GdalSource.RenderOutcome | lib/source_gdal.c:201-598 | Every failure is code 500. A rendered outcome has a non-degenerate window and a well-sized buffer. |
| GdalSource.RenderMap | lib/source_gdal.c:201-598 | The renderer returns the decided error or a fresh tile. The tile is solid in the fallback colour, or holds the rendered samples. |
| GdalSource.ReadAndRender | lib/source_gdal.c:504-598 | A failed read is the error `Resample` decides. Otherwise the tile is fresh, stride 4·width, and every pixel holds the rendered sample. |
| GdalSource.NothingTransformsGivesNoOverlap | lib/source_gdal.c:350-428 | When no border point transforms, the no-overlap tile (0,0,255,255) is produced. |
| GdalSource.SampleInsideWindow | lib/source_gdal.c:562-582 | A sample whose source point lies inside the window is opaque. |
| GdalSource.ScaledIndexInRange | lib/source_gdal.c:569-582 | A coordinate inside the window scales to an index inside the working buffer. |
| GdalSource.InsideWindowIsOpaque | lib/source_gdal.c:552-586 | In a rendered tile, every pixel whose back-transformed point lies inside the window read is opaque. |
| RawCodec.LE32 | lib/imageio_raw.c:101-105 | The size field is four bytes. |
| RawCodec.LE32Value | lib/imageio_raw.c:134-135 | Four bytes read back as an unsigned 32-bit value. |
| RawCodec.LE32RoundTrip | lib/imageio_raw.c:101-135 | Writing N and reading it back gives N modulo 2^32. |
| RawCodec.LE32ValueRoundTrip | lib/imageio_raw.c:101-135 | Reading four bytes and writing the value back gives the same bytes. |
| RawCodec.RawRoundTrip | lib/imageio_raw.c:80-149 | The container for N < 2^32 has 4·N·N + 8 bytes and starts with "RAW0". Decoding it restores N and every pixel byte. |
| RawCodec.Encode | lib/imageio_raw.c:80-113 | Fails with 500 iff the image is not elevation. Otherwise the buffer is "RAW0", then LE32(w), then the first 4·w·w data bytes. |
| RawCodec.DecodeToImage | lib/imageio_raw.c:126-158 | Always marks the image elevation. An image that already has data keeps its size, stride and data. Otherwise it gets N, N, 4N and the payload. |
| RawCodec.CopyPayload | lib/imageio_raw.c:144-149 | The copy loop yields bytes 8 .. 8+count−1 of the buffer. |
| RawCodec.Decode | lib/imageio_raw.c:115-124 | A fresh elevation image with w = h = N from bytes 4..7, stride 4N, and the payload as data. |
| RawCodec.FillImage | lib/imageio_raw.c:51-74 | A fresh width by height image in which every 32-bit pixel is the given colour. |
| RawCodec.CreateEmpty | lib/imageio_raw.c:51-78 | The filled image is not elevation, so handing it to the RAW0 writer always fails with 500. |
| S3Keys.Clean | lib/cache_s3.c:276 | Sanitising keeps the length and leaves no '/' or '.'. |
| S3Keys.BaseKey | lib/cache_s3.c:264-280 | The key is base/tileset/grid, then "/" + sanitised value for each dimension, the last table entry first. |
| S3Keys.DimSegmentsShape | lib/cache_s3.c:271-279 | Each dimension adds exactly one '/' level and no '.'. |
| S3Keys.TilecacheTailInjective | lib/cache_s3.c:298-303 | Tilecache keys with the same start and extension are equal only for the same z, y, x modulo 2^32. |
| S3Keys.DigitFieldsUnique | lib/cache_s3.c:298-303 | Digit fields between '/', '/' and '.' determine the key's fields. |
| S3Keys.SanitizeInPlace | lib/cache_s3.c:396-403 | The in-place loop leaves the sanitised value. |
| S3Keys.BuildDimString | lib/cache_s3.c:389-405 | The loop builds "#key#value" per dimension, the last entry first, with the values sanitised. |
| S3Keys.TemplateTileKey | lib/cache_s3.c:358-412 | The path reassigned step by step equals `TemplateKey`, which `S3Template.TemplateKeyFill` shows is every token replaced by its value. `{x}` is used if present, otherwise `{inv_x}` = maxx−x−1, and likewise for y and z. |
| S3Keys.NoBraceNoToken | lib/cache_s3.c:368-388 | A `{...}` token cannot occur in a string without '{'. |
| S3Keys.ReplaceIndexAbsent | lib/cache_s3.c:368-388 | A path with neither the index token nor its inverse is unchanged. |
| S3Keys.SubstIndex | lib/cache_s3.c:368-388 | The `strstr` test: the plain token replaced when present, else the inverted one, as `ReplaceIndex` states. |
| S3Keys.TemplateWithoutTokens | lib/cache_s3.c:358-412 | A template without '{' is the key itself, whatever the tile. |
| S3Keys.DimStringClean | lib/cache_s3.c:389-407 | With clean keys, the `{dim}` string brings neither '/' nor '.' into the key. |
| S3Keys.ArcgisTailInjective | lib/cache_s3.c:422-427 | ArcGIS keys with the same start and extension are equal only for the same level (two digits), and for the same row and column modulo 2^32. |
| S3Keys.FixedFieldsUnique | lib/cache_s3.c:422-427 | Fields of widths 2, 8 and 8 between the same literals are determined by the key. |
| S3Keys.ArcgisKey | lib/cache_s3.c:416-433 | Without a base it is error 500. With one, it is base key + "/L%02d/R%08x/C%08x." + ext. |
| S3Keys.TilecacheKey | lib/cache_s3.c:291-354 | With a base it is base key + "/z/y/x.ext". Without one it is the template substitution. |
| S3Keys.TileKey | lib/cache_s3.c:264-433 | The configured layout picks the builder, and only ArcGIS without a base fails. |
| S3Keys.KeyOf | lib/cache_s3.c:264-433 | A tile has no key exactly under the ArcGIS layout without a base directory. |
| S3Template.Subst | lib/cache_s3.c:363-406 | Substituting a token keeps the number of pieces and changes exactly the pieces that are that token. |
| S3Template.ReplaceAllRender | lib/cache_s3.c:363-406 | On a well-formed template, `mapcache_util_str_replace` of a token in the text is the substitution of that token among the pieces. |
| S3Template.ContainsRender | lib/cache_s3.c:368-386 | The `strstr` test for a token succeeds iff the template has that token. |
| S3Template.SubstKeeps | lib/cache_s3.c:363-386 | Substituting one token keeps every other token present or absent as it was. |
| S3Template.TemplateKeySubstituted | lib/cache_s3.c:358-412 | The key is the template with the tokens substituted in source order, each index axis by its plain or its inverse token. |
| S3Template.TemplateKeyFill | lib/cache_s3.c:358-412 | For every tile and every well-formed template whose tileset, grid and extension bring no '{', the key is the template with each token replaced by its value: `{x}` by x when the template has `{x}`, `{inv_x}` by maxx−x−1 only when it has no `{x}`, likewise y and z, and `{dim}` by the dimension string. |
| S3Template.TemplateKeyExample | lib/cache_s3.c:358-412 | The template "{tileset}/{grid}/{z}/{x}/{inv_y}.{ext}" gives tileset/grid/z/x/(maxy−y−1).ext for every tile. |
| S3Cache.StatusCode | lib/cache_s3.c:85-105 | OK maps to 0, NoSuchKey to 1, and everything else to 2. |
| S3Cache.LayoutOf | lib/cache_s3.c:651-662 | An absent, empty or "tilecache" attribute selects tilecache; "arcgis" and "template" select their own layouts, each iff the attribute is that word; any other value is unknown. |
| S3Cache.GatedAbove | lib/cache_s3.c:446-450 | An unset maxzoom gates no level, and a gated level gates every level above it. |
| S3Cache.GetCode | lib/cache_s3.c:546-569 | SUCCESS iff the transfer was not aborted, the status is OK and a buffer exists. CACHE_MISS iff not aborted and the key is missing. An aborted transfer is FAILURE. |
| S3Cache.ObjectUserData.constructor | lib/cache_s3.c:191-207 | A fresh structure has no buffer and position 0. |
| S3Cache.ObjectUserData.Properties | lib/cache_s3.c:63-81 | Resets the position and records the length. A buffer is allocated iff the length is positive and a buffer was asked for. |
| S3Cache.ObjectUserData.Complete | lib/cache_s3.c:85-105 | Records the mapped status and changes nothing else. |
| S3Cache.ObjectUserData.GetData | lib/cache_s3.c:118-137 | Aborts iff there is no buffer or the chunk would pass the length. Otherwise it copies the chunk at the position and advances, so the position never passes the length. |
| S3Cache.ObjectUserData.CopyAt | lib/cache_s3.c:131-133 | The `memcpy`: the chunk overwrites the array from the position on, and every other byte is kept. |
| S3Cache.ObjectUserData.PutData | lib/cache_s3.c:140-159 | Returns 0 once the position reaches the length. Otherwise it hands out the next bufferSize bytes and advances by them. |
| S3Cache.ConcatPrefix | lib/cache_s3.c:118-137 | The chunks received so far are never longer than all the chunks. |
| S3Cache.GetObject | lib/cache_s3.c:191-207 | The status is that of the response, or "aborted" when a chunk is refused. Without an abort, the buffer begins with all chunks in order. |
| S3Cache.PutObject | lib/cache_s3.c:210-255 | The bytes handed out, chunk by chunk, are exactly the data. |
| S3Cache.S3Cache.constructor | lib/cache_s3.c:739-762 | A new cache has nothing set and maxzoom 0. Its layout starts at tilecache only as a placeholder: the source leaves `tile_key` NULL, and nothing reads the layout before `ParseXml` sets it or rejects the configuration. |
| S3Cache.S3Cache.ParseXml | lib/cache_s3.c:644-709 | An unknown layout, or "template" without a template, is 400. Otherwise the layout and settings are stored and maxzoom is read by `atoi`. |
| S3Cache.S3Cache.ReadSettings | lib/cache_s3.c:685-709 | Each access setting, and maxzoom by `atoi`, is stored only when its element is present. Layout, template and base are untouched. |
| S3Cache.S3Cache.PostConfig | lib/cache_s3.c:716-734 | Passes iff a non-empty base or template is set and all four S3 settings are present. Otherwise it is 400. |
| S3Cache.S3Cache.Key | lib/cache_s3.c:437-473 | The key is `KeyOf` for the configured layout: base key + /z/y/x.ext for tilecache with a base, the template substitution for the template layout (and tilecache without a base), base key + /L%02d/R%08x/C%08x.ext for ArcGIS. With keys defined every tile has one; ArcGIS without a base has none. |
| S3Cache.S3Cache.HasTile | lib/cache_s3.c:437-473 | False above maxzoom. Otherwise true iff the HEAD request succeeded. |
| S3Cache.S3Cache.GetTile | lib/cache_s3.c:510-570 | CACHE_MISS above maxzoom. Otherwise SUCCESS only for status 0 with a buffer, CACHE_MISS for 1, and FAILURE otherwise. The data is the bytes received. |
| S3Cache.S3Cache.SetTile | lib/cache_s3.c:583-637 | Nothing is uploaded above maxzoom. An upload goes under exactly the tile's `KeyOf` key, and a tile without a key fails with that key's error. A failed encoding fails with the encoder's own error. Otherwise the encoded tile is uploaded when it is not empty. |
| S3Cache.Configure | lib/cache_s3.c:644-734 | Parse and post-config succeed together iff the layout is known, its template or base is set, and all four settings are present. Every tile then has a key. |
| OwgService.PathSpec | lib/service_owg.c:199-360 | Ok iff there are exactly 5 tokens, the second is "tiles", z and x parse fully, and y is followed by '.'. Every error is 404. |
| OwgService.ParsePath | lib/service_owg.c:199-360 | The tokenising loop with its running index decides as `PathSpec`. |
| OwgService.TilePathTokens | lib/service_owg.c:203-205 | The tokens of `/layer/tiles/z/x/y.ext` are the layer, "tiles" and the three numbers. |
| OwgService.PathSpecOfTokens | lib/service_owg.c:203-246 | A path whose tokens are a layer, "tiles" and three well-formed numbers parses to those values. |
| OwgService.PathRoundTrip | lib/service_owg.c:199-246 | Parsing the path built for (layer, z, x, y) gives them back. |
| OwgService.FindLink | lib/service_owg.c:293-301 | A link found has the grid name. When none is found, no link has it. |
| OwgService.SplitAt | lib/service_owg.c:270-282 | An entry is cut at its first '@'. Without an '@', the grid name is empty. |
| OwgService.Resolve | lib/service_owg.c:267-312 | A configured name uses its first link. Otherwise `name@grid` must name a tileset and one of its grids. The link is the tileset's own. Every failure is 404. |
| OwgService.ResolveAsWritten | lib/service_owg.c:267-312 | The resolution as written is `Resolve` whenever that succeeds or no earlier entry left a link. Otherwise it differs only for an unknown grid, where it keeps the tileset with the previous entry's link. Every failure is 404. |
| OwgService.StaleGridLinkAccepted | lib/service_owg.c:293-306 | As written, "A;B@x" with B not on grid x reuses A's link for B. The corrected resolution gives 404. |
| OwgService.ExampleTiles | lib/service_owg.c:265-352 | The tile loop turns "A", "B@x" into two tiles both on A's link, and the capabilities loop keeps B with A's link. |
| OwgService.StaleGridLinkRequest | lib/service_owg.c:80-361 | The whole tile request for layer "A;B@x" is accepted with two tiles on A's link. |
| OwgService.ExampleLayerTokens | lib/service_owg.c:265-266 | `apr_strtok` splits the layer "A" + ";" + "B@x" into "A" and "B@x". |
| OwgService.TileCoords | lib/service_owg.c:327-347 | x is flipped for a right origin. y is maxy−y−1 for a bottom origin. Both stay in range. |
| OwgService.TileCoordsInvolution | lib/service_owg.c:327-347 | Each flip undoes itself. |
| OwgService.EntryTileSpec | lib/service_owg.c:267-351 | An accepted entry is the tile of its as-written resolution at (z, x, y) on the previous link's grid. It is 400 iff it resolves to another grid than the previous entry's, and a 404 comes from the resolution or a missing level. |
| OwgService.TilesFrom | lib/service_owg.c:265-352 | An accepted list has one tile per entry. Every error is 400 or 404. |
| OwgService.TilesFromShape | lib/service_owg.c:265-352 | An accepted request has one tile per entry, each made from its entry at (z, x, y) with the link of the tile before it, all on one grid. An entry that resolves on its own gets its own link; one whose grid is unknown shares the previous tile's link. |
| OwgService.CapsFrom | lib/service_owg.c:121-184 | No entries leave the last resolution as it was. Every error is 400 or 404. |
| OwgService.CapsFromShape | lib/service_owg.c:121-184 | A capabilities request keeps a configured tileset for its last entry, and that entry's own resolution when it has one. The first entry must resolve on its own, every later one either resolves or names an unknown grid (then keeping the previous link), and all share one grid name. |
| OwgService.PrependStep | lib/service_owg.c:329-350 | An entry that fails ends the result with its error. An accepted entry moves its tile from the pending result to the filled prefix, and the next entry sees its link. |
| OwgService.FirstEntryText | lib/service_owg.c:121-192 | The copied layer is cut after its first ';' entry. |
| OwgService.SkipSeparatorsTokens | lib/service_owg.c:121 | Leading separators do not change the tokens. |
| OwgService.CountSeparators | lib/service_owg.c:253-258 | The counting loop gives the number of ';'. |
| OwgService.ResolveLast | lib/service_owg.c:106-184 | The capabilities loop, with `grid_link` carried from entry to entry, computes `CapsFrom`. |
| OwgService.BuildTiles | lib/service_owg.c:253-352 | The tile branch computes `TilesFrom` over the tokens of the layer: one tile per entry, and ntiles ≤ count(';') + 1, the size of the allocated array. |
| OwgService.StoreTiles | lib/service_owg.c:265-351 | The tile loop, with `grid_link` carried from entry to entry, computes `TilesFrom`; on success the array's first ntiles slots hold the tiles, in order. |
| OwgService.RequestSpec | lib/service_owg.c:80-361 | A capabilities request comes exactly from a "layersettings.json" second token. A tile request comes from a valid tile path and has one tile per entry. Every error is 400 or 404. |
| OwgService.ParseRequest | lib/service_owg.c:80-361 | The parser returns the capabilities request or the tile request, as `RequestSpec` decides. |
| OwgService.Settings | lib/service_owg.c:37-73 | minlod = minz+1 and maxlod = maxz−1. The extent is the limits at maxlod. The type is "elevation" iff the tileset is elevation, else "image". |
| OwgService.ReadBackAfter | lib/service_owg.c:55-70 | A decimal number followed by a non-digit reads back with `strtol`. |
| OwgService.Json | lib/service_owg.c:55-70 | The document starts with the name, type and format lines. `strtol` right after the "minlod" label reads minlod back, and right after the "maxlod" label reads maxlod back. |
| TmsSource.ResUp | lib/source_tms.c:49-51 | res_up is at least the map's resolution on both axes. |
| TmsSource.FirstBelowFrom | lib/source_tms.c:55-60 | The level found is the first whose resolution is below the bound. None means no level is. |
| TmsSource.TileIndex | lib/source_tms.c:61-68 | The tile index k covers the offset: k·span <= d < (k+1)·span. |
| TmsSource.FloorScaled | lib/source_tms.c:61-68 | ⌊d/span⌋ tiles reach up to d, and one more reaches past it. |
| TmsSource.TileAt | lib/source_tms.c:60-70 | The chosen tile holds the map's lower-left corner. Its column and row, with the row flipped back when flipy is set, cover the corner's offset from the grid origin in tiles of res × width by res × height. |
| TmsSource.TileSpec | lib/source_tms.c:47-77 | With no level finer than res_up the result is 0,0,0. Otherwise the zoom is a level finer than res_up, every earlier level is not, and the tile is the one `TileAt` gives at that zoom. |
| TmsSource.GetTileCoords | lib/source_tms.c:47-77 | The level loop with its early return computes `TileSpec`. |
| TmsSource.Url | lib/source_tms.c:93 | The URL starts with the server's URL. For a layer and format without '/', the rest splits into "1.0.0", the layer, z, x and y.format. |
| TmsSource.UrlReadBack | lib/source_tms.c:93 | The URL path's pieces are "1.0.0", the layer, z, x and y.format, and z, x, y read back from them. |
| TmsSource.ElevationExtentAsWritten | lib/source_tms.c:112-117 | As written, both axes span twice the map's extent divided by the grid's width. |
| TmsSource.ElevationExtent | lib/source_tms.c:112-117 | Corrected: each axis spans twice the map's extent divided by the grid's span on that axis. |
| TmsSource.ElevationExtentSpan | lib/source_tms.c:112-117 | Corrected: a map spans 2·(its width)/(the grid's width) on x and 2·(its height)/(the grid's height) on y, so the whole grid spans 2 on both axes. |
| TmsSource.ElevationExtentSquashed | lib/source_tms.c:112-117 | As written, on (−180, −90, 180, 90) rows map to −0.5..0.5. The corrected extent gives −1..1. |
| TmsSource.ElevationExtentAsWrittenSquare | lib/source_tms.c:112-117 | For a map whose miny is not 0, the extent as written equals the corrected one iff the grid is as wide as it is high. |
| TmsSource.TileMap.constructor | lib/source_tms.c:80-124 | A map starts with no encoded data and no image. |
| TmsSource.RenderElevation | lib/source_tms.c:80-124 | Requests the URL, and the received bytes become the map's encoded data whatever happens. An HTTP error is passed on and a bad format is 502. Otherwise the decoded image becomes the map's image, marked elevation with the extent as written (both axes divided by the grid's width), and it is 500 iff its size is not elevationblock. Only the grid's width must be non-zero. |
| TmsSource.RenderImage | lib/source_tms.c:126-148 | Requests the same URL, and the received bytes become the map's encoded data whatever happens. An HTTP error is passed on. Otherwise it is 502 iff the format is invalid. |
| TmsSource.RenderMap | lib/source_tms.c:154-178 | Elevation tilesets take the elevation path and others the image path. Both request the same URL and store the received bytes. An HTTP error is passed on and a bad format is 502. On the image path a good reply succeeds. On the elevation path it becomes the map's image with the normalised extent as written, and it fails with 500 exactly when its size is not the elevation block. Only the elevation path needs a grid of non-zero width. |
| Text.StrToL | lib/service_owg.c:218-240 | `strtol` never reads past the string, and reading no digit gives 0 with `end` at the start. |
| Text.StrToLStops | lib/service_owg.c:218-240 | `strtol` stops right after the last digit of its run, and a negative value had a minus sign. |
| Text.StrToLOfDec | lib/service_owg.c:218-240 | A number written in decimal and followed by a non-digit reads back with `end` after its digits. |
| Text.Tokens | lib/service_owg.c:203-266 | `apr_strtok` returns only non-empty tokens without the separator. |
| Text.TwoTokens | lib/service_owg.c:265-266 | Two non-empty pieces joined by the separator split back into those two pieces. |
| Text.TokensBound | lib/service_owg.c:253-258 | There are at most count(';') + 1 tokens, so the tile array is large enough. |
| Text.ReplaceAll | lib/cache_s3.c:363-406 | Replacing a pattern by itself, or in a string shorter than the pattern, changes nothing. |
| Text.ReplaceAllAbsent | lib/cache_s3.c:363-406 | A string that does not contain the pattern is unchanged. |
| Text.Sanitize | lib/cache_s3.c:396-403 | The length is kept, and each character is replaced by '#' iff it is one of the dangerous characters. |
| Text.UnsignedDec | lib/cache_s3.c:298-303 | `%u` prints only digits, whose value is the C int modulo 2^32. |
| Text.Dec02 | lib/cache_s3.c:422-427 | `%02d` of a level below 100 is two digits whose value is the level. |
| Text.Hex08 | lib/cache_s3.c:422-427 | `%08x` prints eight lower-case hex digits whose value is the C int modulo 2^32. |

## Left out

- GDAL/OGR calls (opening the dataset, SRS parsing, creating transformations, `GDALDatasetRasterIO`): foreign code. Their results are inputs, and the coordinate transformation is a function.
- IEEE double rounding: all arithmetic is over exact reals, with floor, ceil and truncation written out.
- The GDAL source's `parse_extent`, its XML parsing, configuration check and `query`: the render path never uses them.
- The allocation failure of the read buffer (`pData == NULL`) and every APR pool or `malloc` failure: memory exhaustion is not modelled.
- GdalSource.RenderMap: requires a tile of positive width and height. The source would divide by zero for an empty tile.
- GdalSource.RenderPixels: requires width > 0, for the same reason.
- In the render loop the transform's result is ignored. On failure the model keeps the untransformed point, while GDAL's actual output on failure is not modelled.
- Integer overflow of C `int`: `strtol` casts, `1 << zoom`, and buffer sizes at or above 2^31 are unbounded integers here. Only the `%u`/`%x` key fields and the RAW0 size field are reduced modulo 2^32.
- RawCodec.Decode: requires the buffer to hold the header and 4·N·N payload bytes. The source checks neither the "RAW0" magic nor the length, and reads past the buffer.
- RawCodec.DecodeToImage: requires the same of its buffer when the image has no data.
- RawCodec.Encode: requires an elevation image to hold at least 4·w·w data bytes. The source assumes a square image with a full buffer.
- The RAW0 size field is written in host byte order. The model fixes a little-endian host.
- S3 network operations (HEAD, GET, PUT, DELETE, bucket setup): network I/O. Their responses are inputs, and the delete operation is modelled only through its key.
- S3Cache.ObjectUserData.PutData: requires bufferSize to fit in the remaining bytes. libs3 never asks for more than remains, and the source would copy past the buffer if it did.
- S3Keys.TemplateKey: requires the tile's level to exist, because `levels[z]` is read for `{inv_x}`/`{inv_y}`.
- S3Template.TemplateKeyFill: covers templates whose literal text has no '{' and tiles whose tileset, grid and extension have none. When a substituted value brings a '{', a later replacement can match inside it; the key is then still `TemplateKey`, but the token-by-token description is not proved.
- An ArcGIS cache without a base directory leaves the key uninitialised in the source. The model returns error 500, and `Configure` makes that layout unreachable.
- The S3 GET leaves `gu.buffer` uninitialised when no properties arrive. The model starts with no buffer, so a zero-length object gives FAILURE.
- XML parsing (ezxml) and APR tables: the parsed element is a value and dimensions are a sequence of pairs.
- `mapcache_tileset_tile_validate` (called at lib/service_owg.c:349) is not part of this model. The source rejects a tile outside its grid link's zoom range or the limits of its level; the model's tile request accepts such tiles.
- The OWG parser reads `levels[z]` before any validation. The model returns 404 InvalidLevel for a level outside the grid.
- A capabilities layer made only of ';' leaves the source's tileset NULL. The model carries no resolution (None).
- The TMS HTTP request, format sniffing and image decoding: I/O and foreign code. Their results are inputs.
- TmsSource.RenderElevation: requires a grid extent of non-zero width, which lines 114-117 divide by. The source would divide by zero.
- TmsSource.RenderMap: requires the same, on the elevation path only.
- TmsSource.GetTileCoords: requires positive resolutions (`ValidGrid`) and a map of positive size.
- The TMS source's XML parsing, configuration check and `query` (always 500): configuration plumbing.
- lib/imageio_json.c and util/mapcache_calcextent.c are not part of this model.

## Findings

| source | as written | input that shows it | evidently intended | confidence | as-written member | corrected member |
|---|---|---|---|---|---|---|
| lib/source_gdal.c:103 | the row clamp of the first corner assigns `u00` instead of `v00`, so when the truncated row exceeds h the first corner's column becomes h−1 and its row stays unclamped | 4 by 1 buffer, sample at (3.0, 2.0): the first corner is read at column 0 and the result is transparent | clamp `v00` to h−1, keeping the cell axis-aligned | not executed | Sampler.BilinearAsWrittenDiffers | Sampler.BilinearUniform |
| lib/service_owg.c:152-306 | `grid_link` is not reset between ';' entries, in the capabilities loop (lines 152-165) and in the tile loop (lines 293-306), so a `name@grid` entry whose grid the tileset lacks keeps the previous entry's link; the parser members follow this as written | "/A;B@x/tiles/0/0/0.png" with A on grid g and B not on grid x: two tiles, B on A's link on grid g | answer 404 "invalid grid" for the entry | not executed | OwgService.StaleGridLinkRequest | OwgService.Resolve |
| lib/source_tms.c:113 | `dy` is computed from the x extent, so both axes are divided by the grid's width; `RenderElevation` follows this as written | grid (−180, −90, 180, 90): the y range becomes −0.5..0.5 instead of −1..1 | divide y by the grid's height | not executed | TmsSource.ElevationExtentSquashed | TmsSource.ElevationExtentSpan |
