/** The object keys under which the S3 cache stores a tile: the "tilecache"
    layout (base/tileset/grid[/dimensions]/z/y/x.ext), the filename template
    with its `{...}` tokens, and the ArcGIS layout (L<z>/R<y>/C<x> in fixed
    width decimal and hexadecimal). */
module S3Keys {
  import opened Common
  import opened Text

  /** A grid level's tile-index limits `maxx`, `maxy`. */
  datatype Level = Level(maxx: int, maxy: int)

  /** What a key builder reads from a tile: its indices, the names of its
      tileset and grid, the tileset's format extension (if it has a format),
      the grid's levels and the dimension table (None for a NULL table),
      entries in table order as (key, value). */
  datatype TileRef = TileRef(x: int, y: int, z: int, tileset: string, grid: string,
                             format: Option<string>, levels: seq<Level>,
                             dims: Option<seq<(string, string)>>)

  /** The three key layouts a cache is configured with. */
  datatype Layout = Tilecache | Arcgis | Template

  /** The key builders' one failure, "failed to allocate tile key", code 500. */
  datatype KeyError = NoKey

  /** The extension, "png" when the tileset has no format. */
  function Ext(t: TileRef): string
  {
    if t.format.Some? then t.format.value else "png"
  }

  /** The characters a dimension value may not bring into a key. */
  const Unsafe: set<char> := {'/', '.'}

  /** `mapcache_util_str_sanitize(value, "/.", '#')`. */
  function Clean(value: string): (r: string)
    ensures '/' !in r && '.' !in r && |r| == |value|
  {
    SanitizeRemoves(value, Unsafe, '#', '/');
    SanitizeRemoves(value, Unsafe, '#', '.');
    Sanitize(value, Unsafe, '#')
  }

  // ---------------------------------------------------------------------------
  // Base key

  /** "/value" for every dimension, the last table entry first. */
  function DimSegments(d: seq<(string, string)>): string
  {
    if d == [] then "" else DimSegments(d[1..]) + "/" + Clean(d[0].1)
  }

  /** base/tileset/grid followed by the dimension segments, if the tile has a
      dimension table. */
  function BaseKeyOf(base: string, t: TileRef): string
  {
    base + "/" + t.tileset + "/" + t.grid + (if t.dims.Some? then DimSegments(t.dims.value) else "")
  }

  /** `_mapcache_cache_s3_base_tile_key`: the loop walks the dimension table
      backwards and appends "/" and the sanitised value of each entry. */
  method BaseKey(base: string, t: TileRef) returns (path: string)
    ensures path == BaseKeyOf(base, t)
  {
    path := base + "/" + t.tileset + "/" + t.grid;
    if t.dims.Some? {
      var d := t.dims.value;
      var i := |d|;
      while i > 0
        invariant 0 <= i <= |d|
        invariant path == base + "/" + t.tileset + "/" + t.grid + DimSegments(d[i..])
      {
        i := i - 1;
        var dimval := Clean(d[i].1);
        assert d[i..][1..] == d[i + 1..];
        path := path + "/" + dimval;
      }
      assert d[0..] == d;
    }
  }

  /** Each dimension adds exactly one path level and no '.', whatever its
      value: sanitising keeps a value from changing the key's shape. */
  lemma {:induction false} DimSegmentsShape(d: seq<(string, string)>)
    ensures Count(DimSegments(d), '/') == |d| && '.' !in DimSegments(d)
  {
    if d != [] {
      DimSegmentsShape(d[1..]);
      var v := Clean(d[0].1);
      CountSplit(DimSegments(d[1..]), "/" + v, '/');
      CountSplit("/", v, '/');
      CountAbsent(v, '/');
      assert DimSegments(d) == DimSegments(d[1..]) + ("/" + v);
    }
  }

  // ---------------------------------------------------------------------------
  // Tilecache layout

  /** "/z/y/x.ext" with each index printed by `%u`. */
  function TilecacheTail(z: int, y: int, x: int, ext: string): string
  {
    "/" + IndexFields(UnsignedDec(z), UnsignedDec(y), UnsignedDec(x), ext)
  }

  function IndexFields(a: string, b: string, c: string, ext: string): string
  {
    a + "/" + b + "/" + c + "." + ext
  }

  /** Keys of the same base and extension are equal only for the same
      indices (as 32-bit unsigned values): z, y and x read back from the key. */
  lemma TilecacheTailInjective(start: string, ext: string, z: int, y: int, x: int, z': int, y': int, x': int)
    requires start + TilecacheTail(z, y, x, ext) == start + TilecacheTail(z', y', x', ext)
    ensures z % Two32 == z' % Two32 && y % Two32 == y' % Two32 && x % Two32 == x' % Two32
  {
    var dz, dy, dx := UnsignedDec(z), UnsignedDec(y), UnsignedDec(x);
    var dz', dy', dx' := UnsignedDec(z'), UnsignedDec(y'), UnsignedDec(x');
    PrefixCancel(start, TilecacheTail(z, y, x, ext), TilecacheTail(z', y', x', ext));
    PrefixCancel("/", IndexFields(dz, dy, dx, ext), IndexFields(dz', dy', dx', ext));
    DigitFieldsUnique(dz, dy, dx, dz', dy', dx', ext);
  }

  lemma PrefixCancel(p: string, a: string, b: string)
    requires p + a == p + b
    ensures a == b
  {
    assert a == (p + a)[|p|..];
    assert b == (p + b)[|p|..];
  }

  lemma NoSeparatorInDigits(s: string, c: char)
    requires AllDigits(s) && !IsDigit(c)
    ensures c !in s
  {
    forall i | 0 <= i < |s|
      ensures s[i] != c
    {
      assert IsDigit(s[i]);
    }
  }

  /** Three digit fields separated by '/', '/' and '.' and followed by the
      same extension are determined by the string. */
  lemma DigitFieldsUnique(a: string, b: string, c: string, a': string, b': string, c': string, ext: string)
    requires AllDigits(a) && AllDigits(b) && AllDigits(c) && AllDigits(a') && AllDigits(b') && AllDigits(c')
    requires IndexFields(a, b, c, ext) == IndexFields(a', b', c', ext)
    ensures a == a' && b == b' && c == c'
  {
    NoSeparatorInDigits(a, '/');
    NoSeparatorInDigits(a', '/');
    NoSeparatorInDigits(b, '/');
    NoSeparatorInDigits(b', '/');
    NoSeparatorInDigits(c, '.');
    NoSeparatorInDigits(c', '.');
    assert IndexFields(a, b, c, ext) == a + ['/'] + (b + ['/'] + (c + ['.'] + ext));
    assert IndexFields(a', b', c', ext) == a' + ['/'] + (b' + ['/'] + (c' + ['.'] + ext));
    SplitUnique(a, b + ['/'] + (c + ['.'] + ext), a', b' + ['/'] + (c' + ['.'] + ext), '/');
    SplitUnique(b, c + ['.'] + ext, b', c' + ['.'] + ext, '/');
    SplitUnique(c, ext, c', ext, '.');
  }

  // ---------------------------------------------------------------------------
  // Template layout

  /** `max - v - 1`: an index counted from the other end. */
  function InvIndex(max: int, v: int): int { max - v - 1 }

  /** The `{dim}` replacement: "#key#value" per dimension with the value
      sanitised, the last table entry first. */
  function DimString(d: seq<(string, string)>): string
  {
    if d == [] then "" else DimString(d[1..]) + "#" + d[0].0 + "#" + Clean(d[0].1)
  }

  /** `{x}` replaced if the path contains it, else `{inv_x}` with the index
      counted from the level's far end; the same for y. */
  function ReplaceIndex(p: string, token: string, invToken: string, v: int, max: int): string
    requires |token| > 0 && |invToken| > 0
  {
    if Contains(p, token) then ReplaceAll(p, token, IntToDec(v))
    else ReplaceAll(p, invToken, IntToDec(InvIndex(max, v)))
  }

  /** The substitutions of `_mapcache_cache_s3_template_tile_key`, in order:
      `{tileset}`, `{grid}`, `{ext}`, then `{x}` or `{inv_x}`, `{y}` or
      `{inv_y}`, `{z}` or `{inv_z}` (counted from the number of levels), and
      `{dim}` only when the tile has a dimension table. Each step sees the
      result of the previous one. */
  function TemplateKey(template: string, t: TileRef): string
    requires 0 <= t.z < |t.levels|
  {
    var p1 := ReplaceAll(template, "{tileset}", t.tileset);
    var p2 := ReplaceAll(p1, "{grid}", t.grid);
    var p3 := ReplaceAll(p2, "{ext}", Ext(t));
    var p4 := ReplaceIndex(p3, "{x}", "{inv_x}", t.x, t.levels[t.z].maxx);
    var p5 := ReplaceIndex(p4, "{y}", "{inv_y}", t.y, t.levels[t.z].maxy);
    var p6 := ReplaceIndex(p5, "{z}", "{inv_z}", t.z, |t.levels|);
    if t.dims.Some? then ReplaceAll(p6, "{dim}", DimString(t.dims.value)) else p6
  }

  /** The in-place loop over a copy of a dimension value: every '.' or '/'
      becomes '#' and every other character stays. */
  method SanitizeInPlace(a: array<char>)
    modifies a
    ensures a[..] == Clean(old(a[..]))
  {
    var i := 0;
    while i < a.Length
      invariant 0 <= i <= a.Length
      invariant forall k | 0 <= k < i :: a[k] == (if old(a[k]) in Unsafe then '#' else old(a[k]))
      invariant forall k | i <= k < a.Length :: a[k] == old(a[k])
    {
      if a[i] == '.' || a[i] == '/' {
        a[i] := '#';
      }
      i := i + 1;
    }
  }

  /** The `{dim}` loop: walks the table backwards, copies each value,
      sanitises the copy in place and appends "#key#value". */
  method BuildDimString(d: seq<(string, string)>) returns (dimstring: string)
    ensures dimstring == DimString(d)
  {
    dimstring := "";
    var i := |d|;
    while i > 0
      invariant 0 <= i <= |d|
      invariant dimstring == DimString(d[i..])
    {
      i := i - 1;
      var dimval := new char[|d[i].1|](k requires 0 <= k < |d[i].1| => d[i].1[k]);
      assert dimval[..] == d[i].1;
      SanitizeInPlace(dimval);
      assert d[i..][1..] == d[i + 1..];
      dimstring := dimstring + "#" + d[i].0 + "#" + dimval[..];
    }
    assert d[0..] == d;
  }

  /** `_mapcache_cache_s3_template_tile_key`: the path reassigned by each
      substitution in turn. The tile's level must exist, as the `{inv_x}` and
      `{inv_y}` substitutions read it. */
  method TemplateTileKey(template: string, t: TileRef) returns (path: string)
    requires 0 <= t.z < |t.levels|
    ensures path == TemplateKey(template, t)
  {
    path := template;
    path := ReplaceAll(path, "{tileset}", t.tileset);
    path := ReplaceAll(path, "{grid}", t.grid);
    path := ReplaceAll(path, "{ext}", Ext(t));
    path := SubstIndex(path, "{x}", "{inv_x}", t.x, t.levels[t.z].maxx);
    path := SubstIndex(path, "{y}", "{inv_y}", t.y, t.levels[t.z].maxy);
    path := SubstIndex(path, "{z}", "{inv_z}", t.z, |t.levels|);
    if t.dims.Some? {
      var dimstring := BuildDimString(t.dims.value);
      path := ReplaceAll(path, "{dim}", dimstring);
    }
  }

  /** One of the three `strstr` tests of the key builder: the plain token
      replaced when present, else the inverted one. */
  method SubstIndex(path: string, token: string, invToken: string, v: int, max: int) returns (p: string)
    requires |token| > 0 && |invToken| > 0
    ensures p == ReplaceIndex(path, token, invToken, v, max)
  {
    if Contains(path, token) {
      p := ReplaceAll(path, token, IntToDec(v));
    } else {
      p := ReplaceAll(path, invToken, IntToDec(InvIndex(max, v)));
    }
  }

  /** A pattern starting with '{' cannot occur in a string without '{'. */
  lemma NoBraceNoToken(s: string, pat: string)
    requires |pat| > 0 && pat[0] == '{' && '{' !in s
    ensures !Contains(s, pat)
  {
    forall i | 0 <= i <= |s| - |pat|
      ensures !OccursAt(s, pat, i)
    {
      assert s[i] != '{';
      assert s[i..i + |pat|][0] == s[i];
    }
  }

  lemma ReplaceIndexAbsent(p: string, token: string, invToken: string, v: int, max: int)
    requires |token| > 0 && |invToken| > 0 && !Contains(p, token) && !Contains(p, invToken)
    ensures ReplaceIndex(p, token, invToken, v, max) == p
  {
    ReplaceAllAbsent(p, invToken, IntToDec(InvIndex(max, v)));
  }

  /** A template without any '{' is the key itself, whatever the tile. */
  lemma TemplateWithoutTokens(template: string, t: TileRef)
    requires 0 <= t.z < |t.levels| && '{' !in template
    ensures TemplateKey(template, t) == template
  {
    NoBraceNoToken(template, "{tileset}");
    NoBraceNoToken(template, "{grid}");
    NoBraceNoToken(template, "{ext}");
    NoBraceNoToken(template, "{x}");
    NoBraceNoToken(template, "{inv_x}");
    NoBraceNoToken(template, "{y}");
    NoBraceNoToken(template, "{inv_y}");
    NoBraceNoToken(template, "{z}");
    NoBraceNoToken(template, "{inv_z}");
    NoBraceNoToken(template, "{dim}");
    ReplaceAllAbsent(template, "{tileset}", t.tileset);
    ReplaceAllAbsent(template, "{grid}", t.grid);
    ReplaceAllAbsent(template, "{ext}", Ext(t));
    ReplaceIndexAbsent(template, "{x}", "{inv_x}", t.x, t.levels[t.z].maxx);
    ReplaceIndexAbsent(template, "{y}", "{inv_y}", t.y, t.levels[t.z].maxy);
    ReplaceIndexAbsent(template, "{z}", "{inv_z}", t.z, |t.levels|);
    if t.dims.Some? {
      ReplaceAllAbsent(template, "{dim}", DimString(t.dims.value));
    }
  }

  /** With clean keys, the `{dim}` string brings neither '/' nor '.' into the
      key: sanitising the values is enough to keep the key's path levels. */
  lemma {:induction false} DimStringClean(d: seq<(string, string)>)
    requires forall i | 0 <= i < |d| :: '/' !in d[i].0 && '.' !in d[i].0
    ensures '/' !in DimString(d) && '.' !in DimString(d)
  {
    if d != [] {
      assert forall i | 0 <= i < |d| - 1 :: d[1..][i] == d[i + 1];
      DimStringClean(d[1..]);
    }
  }

  // ---------------------------------------------------------------------------
  // ArcGIS layout

  /** "/Lzz/Ryyyyyyyy/Cxxxxxxxx.ext": z by `%02d`, y and x by `%08x`. */
  function ArcgisTail(z: int, y: int, x: int, ext: string): string
  {
    "/L" + Dec02(z) + "/R" + Hex08(y) + "/C" + Hex08(x) + "." + ext
  }

  /** Keys of the same base and extension are equal only for the same level
      (below 100) and the same row and column as 32-bit unsigned values. */
  lemma ArcgisTailInjective(start: string, ext: string, z: int, y: int, x: int, z': int, y': int, x': int)
    requires 0 <= z < 100 && 0 <= z' < 100
    requires start + ArcgisTail(z, y, x, ext) == start + ArcgisTail(z', y', x', ext)
    ensures z == z' && y % Two32 == y' % Two32 && x % Two32 == x' % Two32
  {
    FixedFieldsUnique(start, Dec02(z), Hex08(y), Hex08(x), Dec02(z'), Hex08(y'), Hex08(x'), ext);
  }

  /** Fields of fixed widths 2, 8 and 8 between the same literals are
      determined by the string. */
  lemma FixedFieldsUnique(p: string, a: string, b: string, c: string, a': string, b': string, c': string, e: string)
    requires |a| == 2 && |a'| == 2 && |b| == 8 && |b'| == 8 && |c| == 8 && |c'| == 8
    requires p + ("/L" + a + "/R" + b + "/C" + c + "." + e) == p + ("/L" + a' + "/R" + b' + "/C" + c' + "." + e)
    ensures a == a' && b == b' && c == c'
  {
    var t := "/L" + a + "/R" + b + "/C" + c + "." + e;
    var t' := "/L" + a' + "/R" + b' + "/C" + c' + "." + e;
    PrefixCancel(p, t, t');
    assert t[2..4] == a && t'[2..4] == a';
    assert t[6..14] == b && t'[6..14] == b';
    assert t[16..24] == c && t'[16..24] == c';
  }

  /** `_mapcache_cache_s3_arcgis_tile_key`: only defined with a base
      directory. */
  method ArcgisKey(base: Option<string>, t: TileRef) returns (r: Result<string, KeyError>)
    ensures base.None? ==> r == Err(Error(500, NoKey))
    ensures base.Some? ==> r == Ok(BaseKeyOf(base.value, t) + ArcgisTail(t.z, t.y, t.x, Ext(t)))
  {
    if base.None? {
      return Err(Error(500, NoKey));
    }
    var start := BaseKey(base.value, t);
    r := Ok(start + ArcgisTail(t.z, t.y, t.x, Ext(t)));
  }

  /** `_mapcache_cache_s3_tilecache_tile_key`: base/tileset/grid[/dims]/z/y/x.ext
      with a base directory, otherwise the filename template. */
  method TilecacheKey(base: Option<string>, template: string, t: TileRef) returns (path: string)
    requires base.None? ==> 0 <= t.z < |t.levels|
    ensures base.Some? ==> path == BaseKeyOf(base.value, t) + TilecacheTail(t.z, t.y, t.x, Ext(t))
    ensures base.None? ==> path == TemplateKey(template, t)
  {
    if base.Some? {
      var start := BaseKey(base.value, t);
      path := start + "/" + UnsignedDec(t.z) + "/" + UnsignedDec(t.y) + "/" + UnsignedDec(t.x) + "." + Ext(t);
      assert path == start + TilecacheTail(t.z, t.y, t.x, Ext(t));
    } else {
      path := TemplateTileKey(template, t);
    }
  }

  /** The key of a tile under each layout: the tilecache and arcgis paths
      below a base directory, the filename template otherwise, and no key
      for the arcgis layout without a base directory. */
  function KeyOf(layout: Layout, base: Option<string>, template: string, t: TileRef): (r: Result<string, KeyError>)
    requires layout != Arcgis && (layout == Template || base.None?) ==> 0 <= t.z < |t.levels|
    ensures layout == Arcgis && base.None? <==> r.Err?
  {
    match layout
    case Tilecache =>
      if base.Some? then Ok(BaseKeyOf(base.value, t) + TilecacheTail(t.z, t.y, t.x, Ext(t)))
      else Ok(TemplateKey(template, t))
    case Template => Ok(TemplateKey(template, t))
    case Arcgis =>
      if base.None? then Err(Error(500, NoKey))
      else Ok(BaseKeyOf(base.value, t) + ArcgisTail(t.z, t.y, t.x, Ext(t)))
  }

  /** The key of a tile under the configured layout. */
  method TileKey(layout: Layout, base: Option<string>, template: string, t: TileRef) returns (r: Result<string, KeyError>)
    requires layout != Arcgis && (layout == Template || base.None?) ==> 0 <= t.z < |t.levels|
    ensures r == KeyOf(layout, base, template, t)
    ensures layout == Arcgis && base.None? <==> r.Err?
    ensures layout == Tilecache && base.Some? ==>
              r == Ok(BaseKeyOf(base.value, t) + TilecacheTail(t.z, t.y, t.x, Ext(t)))
    ensures layout == Template || (layout == Tilecache && base.None?) ==> r == Ok(TemplateKey(template, t))
    ensures layout == Arcgis && base.Some? ==>
              r == Ok(BaseKeyOf(base.value, t) + ArcgisTail(t.z, t.y, t.x, Ext(t)))
  {
    match layout
    case Tilecache =>
      var path := TilecacheKey(base, template, t);
      r := Ok(path);
    case Template =>
      var path := TemplateTileKey(template, t);
      r := Ok(path);
    case Arcgis =>
      r := ArcgisKey(base, t);
  }
}
