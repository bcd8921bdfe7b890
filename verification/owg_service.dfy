/** The OWG service's request parser: a path `/layer/tiles/z/x/y.ext` becomes
    one tile per `;`-separated entry of the layer, with OWG's top-left tile
    numbering turned into the grid's own; a path `/layer/layersettings.json`
    becomes a capabilities request, answered with a small JSON document. */
module OwgService {
  import opened Common
  import opened Text

  // ---------------------------------------------------------------------------
  // Configuration as the parser sees it

  datatype Origin = BottomLeft | TopLeft | BottomRight | TopRight

  /** One zoom level of a grid: its number of tile columns and rows. */
  datatype GridLevel = GridLevel(maxx: int, maxy: int)

  datatype Grid = Grid(name: string, origin: Origin, levels: seq<GridLevel>)

  /** The tile range of one level, as stored in a grid link. */
  datatype Extent = Extent(minx: int, miny: int, maxx: int, maxy: int)

  /** A tileset's use of a grid: the zoom range [minz, maxz) and the limits. */
  datatype GridLink = GridLink(grid: Grid, minz: int, maxz: int, limits: seq<Extent>)

  datatype Tileset = Tileset(name: string, gridLinks: seq<GridLink>, elevation: bool, ext: string)

  /** `mapcache_configuration_get_tileset`: the tilesets by name. */
  type Config = map<string, Tileset>

  /** Every configured tileset has at least one grid link. */
  predicate WellFormed(config: Config)
  {
    forall name :: name in config ==> |config[name].gridLinks| > 0
  }

  datatype OwgError =
    | InvalidTilePath | ParseZ | ParseX | ParseY | InvalidParameter | WrongArgumentCount
    | InvalidLayer | InvalidGrid | ConflictingGrids | InvalidLevel

  // ---------------------------------------------------------------------------
  // The tile path

  /** The fields a tile path carries. */
  datatype PathParts = PathParts(layer: string, z: int, x: int, y: int)

  /** What the tokenising loop decides for a path: the first offending token
      in order decides the error; only exactly five tokens, the second one
      "tiles", z and x whole integers and y an integer followed by '.', are
      accepted. */
  function PathSpec(path: string): (r: Result<PathParts, OwgError>)
    ensures r.Ok? <==> var toks := Tokens(path, '/');
                      |toks| == 5 && toks[1] == "tiles" && FullInt(toks[2]) && FullInt(toks[3]) && DotAfterInt(toks[4])
    ensures r.Err? ==> r.error.code == 404
    ensures r.Ok? ==> r.value.layer == Tokens(path, '/')[0] && r.value.z == StrToL(Tokens(path, '/')[2]).0 &&
                      r.value.x == StrToL(Tokens(path, '/')[3]).0 && r.value.y == StrToL(Tokens(path, '/')[4]).0
  {
    var toks := Tokens(path, '/');
    if |toks| >= 2 && toks[1] != "tiles" then Err(Error(404, InvalidTilePath))
    else if |toks| >= 3 && !FullInt(toks[2]) then Err(Error(404, ParseZ))
    else if |toks| >= 4 && !FullInt(toks[3]) then Err(Error(404, ParseX))
    else if |toks| >= 5 && !DotAfterInt(toks[4]) then Err(Error(404, ParseY))
    else if |toks| > 5 then Err(Error(404, InvalidParameter))
    else if |toks| < 5 then Err(Error(404, WrongArgumentCount))
    else Ok(PathParts(toks[0], StrToL(toks[2]).0, StrToL(toks[3]).0, StrToL(toks[4]).0))
  }

  /** The tokenising loop of `_mapcache_service_owg_parse_request`: a running
      index picks the meaning of each non-empty token. */
  method ParsePath(path: string) returns (r: Result<PathParts, OwgError>)
    ensures r == PathSpec(path)
  {
    var toks := Tokens(path, '/');
    var index := 0;
    var layer := "";
    var z, x, y := -1, -1, -1;
    while index < |toks|
      invariant 0 <= index <= |toks| && index <= 5
      invariant index >= 1 ==> layer == toks[0]
      invariant index >= 2 ==> toks[1] == "tiles"
      invariant index >= 3 ==> FullInt(toks[2]) && z == StrToL(toks[2]).0
      invariant index >= 4 ==> FullInt(toks[3]) && x == StrToL(toks[3]).0
      invariant index >= 5 ==> DotAfterInt(toks[4]) && y == StrToL(toks[4]).0
    {
      var key := toks[index];
      index := index + 1;
      if index == 1 {
        layer := key;
      } else if index == 2 {
        if key != "tiles" {
          return Err(Error(404, InvalidTilePath));
        }
      } else if index == 3 {
        var (v, end) := StrToL(key);
        z := v;
        if end != |key| {
          return Err(Error(404, ParseZ));
        }
      } else if index == 4 {
        var (v, end) := StrToL(key);
        x := v;
        if end != |key| {
          return Err(Error(404, ParseX));
        }
      } else if index == 5 {
        var (v, end) := StrToL(key);
        y := v;
        if !(end < |key| && key[end] == '.') {
          return Err(Error(404, ParseY));
        }
      } else {
        return Err(Error(404, InvalidParameter));
      }
    }
    if index == 5 {
      r := Ok(PathParts(layer, z, x, y));
    } else {
      r := Err(Error(404, WrongArgumentCount));
    }
  }

  /** The path a client builds for tile (z, x, y) of a layer. */
  function TilePath(layer: string, z: int, x: int, y: int, ext: string): string
  {
    "/" + layer + ("/" + "tiles" + ("/" + IntToDec(z) + ("/" + IntToDec(x) + ("/" + (IntToDec(y) + "." + ext)))))
  }

  /** The tokens of a tile path are the layer, "tiles" and the three numbers. */
  lemma TilePathTokens(layer: string, z: int, x: int, y: int, ext: string)
    requires |layer| > 0 && '/' !in layer && '/' !in ext
    ensures Tokens(TilePath(layer, z, x, y, ext), '/') ==
            [layer, "tiles", IntToDec(z), IntToDec(x), IntToDec(y) + "." + ext]
  {
    NoSlashInDec(z);
    NoSlashInDec(x);
    NoSlashInLast(y, ext);
    FivePieces(layer, "tiles", IntToDec(z), IntToDec(x), IntToDec(y) + "." + ext);
  }

  /** Parsing the path a client builds gives back its layer and numbers. */
  lemma PathRoundTrip(layer: string, z: int, x: int, y: int, ext: string)
    requires |layer| > 0 && '/' !in layer && '/' !in ext
    ensures PathSpec(TilePath(layer, z, x, y, ext)) == Ok(PathParts(layer, z, x, y))
  {
    TilePathTokens(layer, z, x, y, ext);
    DecToken(z);
    DecToken(x);
    DecDotToken(y, ext);
    PathSpecOfTokens(TilePath(layer, z, x, y, ext), layer, "tiles", IntToDec(z), IntToDec(x), IntToDec(y) + "." + ext);
  }

  /** A path of five tokens, "tiles" second and three numbers, is accepted
      with the layer and the numbers' values. */
  lemma PathSpecOfTokens(path: string, layer: string, w: string, a: string, b: string, c: string)
    requires Tokens(path, '/') == [layer, w, a, b, c] && w == "tiles"
    requires FullInt(a) && FullInt(b) && DotAfterInt(c)
    ensures PathSpec(path) == Ok(PathParts(layer, StrToL(a).0, StrToL(b).0, StrToL(c).0))
  {
    var toks := Tokens(path, '/');
    assert toks[1] == w && toks[2] == a && toks[3] == b && toks[4] == c;
  }

  // ---------------------------------------------------------------------------
  // Entries of the layer list

  /** A tileset together with the grid link the request uses. */
  datatype Resolved = Resolved(tileset: Tileset, link: GridLink)

  /** The first link of a tileset whose grid has the given name. */
  function FindLink(links: seq<GridLink>, name: string): (l: Option<GridLink>)
    ensures l.Some? ==> l.value in links && l.value.grid.name == name
    ensures l.None? ==> forall k :: 0 <= k < |links| ==> links[k].grid.name != name
  {
    if links == [] then None
    else if links[0].grid.name == name then Some(links[0])
    else FindLink(links[1..], name)
  }

  /** An entry `name@grid` cut at its first '@'; without '@' the grid name is
      empty. */
  function SplitAt(key: string): (parts: (string, string))
    ensures '@' !in parts.0
    ensures '@' in key ==> key == parts.0 + "@" + parts.1
    ensures '@' !in key ==> parts == (key, "")
  {
    var k := IndexOf(key, '@');
    if k < |key| then (key[..k], key[k + 1..]) else (key, "")
  }

  /** An entry as the parser should resolve it: a tileset name with its first
      grid link, or `name@grid` with the named tileset's link to that grid;
      404 when either is unknown. The link is always one of the tileset's. */
  function Resolve(config: Config, key: string): (r: Result<Resolved, OwgError>)
    requires WellFormed(config)
    ensures key in config ==> r == Ok(Resolved(config[key], config[key].gridLinks[0]))
    ensures r.Ok? ==> r.value.link in r.value.tileset.gridLinks && r.value.tileset in config.Values
    ensures key !in config && SplitAt(key).0 !in config ==> r == Err(Error(404, InvalidLayer))
    ensures r.Err? ==> r.error.code == 404
  {
    if key in config then Ok(Resolved(config[key], config[key].gridLinks[0]))
    else
      var (tname, gname) := SplitAt(key);
      if tname !in config then Err(Error(404, InvalidLayer))
      else match FindLink(config[tname].gridLinks, gname) {
        case None => Err(Error(404, InvalidGrid))
        case Some(l) => Ok(Resolved(config[tname], l))
      }
  }

  /** The entry resolution as written: `grid_link` is not reset between
      entries, so when the named grid is not found the link left by the
      previous entry is kept, and only the first entry gets the 404. It
      differs from `Resolve` only there. */
  function ResolveAsWritten(config: Config, key: string, prev: Option<GridLink>): (r: Result<Resolved, OwgError>)
    requires WellFormed(config)
    ensures Resolve(config, key).Ok? || prev.None? ==> r == Resolve(config, key)
    ensures r != Resolve(config, key) ==>
              prev.Some? && Resolve(config, key) == Err(Error(404, InvalidGrid)) &&
              r == Ok(Resolved(config[SplitAt(key).0], prev.value))
    ensures r.Ok? ==> r.value.tileset in config.Values
    ensures r.Err? ==> r.error.code == 404
  {
    if key in config then Ok(Resolved(config[key], config[key].gridLinks[0]))
    else
      var (tname, gname) := SplitAt(key);
      if tname !in config then Err(Error(404, InvalidLayer))
      else match FindLink(config[tname].gridLinks, gname) {
        case None => if prev.Some? then Ok(Resolved(config[tname], prev.value)) else Err(Error(404, InvalidGrid))
        case Some(l) => Ok(Resolved(config[tname], l))
      }
  }

  /** For "A;B@x", with tileset B not on grid x, the second entry is accepted
      with tileset A's grid link, which is not one of B's. */
  lemma StaleGridLinkAccepted()
    ensures var gA := Grid("g", BottomLeft, [GridLevel(1, 1)]);
            var gB := Grid("h", BottomLeft, [GridLevel(1, 1)]);
            var linkA := GridLink(gA, 0, 1, [Extent(0, 0, 0, 0)]);
            var linkB := GridLink(gB, 0, 1, [Extent(0, 0, 0, 0)]);
            var a := Tileset("A", [linkA], false, "png");
            var b := Tileset("B", [linkB], false, "png");
            var config := map["A" := a, "B" := b];
            WellFormed(config) &&
            ResolveAsWritten(config, "A", None) == Ok(Resolved(a, linkA)) &&
            ResolveAsWritten(config, "B@x", Some(linkA)) == Ok(Resolved(b, linkA)) &&
            linkA !in b.gridLinks &&
            Resolve(config, "B@x") == Err(Error(404, InvalidGrid))
  {
    var gA := Grid("g", BottomLeft, [GridLevel(1, 1)]);
    var gB := Grid("h", BottomLeft, [GridLevel(1, 1)]);
    var linkA := GridLink(gA, 0, 1, [Extent(0, 0, 0, 0)]);
    var linkB := GridLink(gB, 0, 1, [Extent(0, 0, 0, 0)]);
    var b := Tileset("B", [linkB], false, "png");
    var key := "B@x";
    assert key[0] == 'B' && key[1] == '@';
    assert IndexOf(key, '@') == 1 by {
      assert key[1..] == "@x";
    }
    assert key[..1] == "B" && key[2..] == "x";
    assert SplitAt(key) == ("B", "x");
    assert key != "A" && key != "B" by {
      assert |key| == 3;
    }
    assert linkA != linkB by {
      assert linkA.grid.name != linkB.grid.name;
    }
    assert FindLink(b.gridLinks, "x") == None;
  }

  // ---------------------------------------------------------------------------
  // Tiles

  /** A requested tile: its tileset, the grid link and the grid's own tile
      coordinates. */
  datatype Tile = Tile(tileset: Tileset, link: GridLink, x: int, y: int, z: int)

  /** OWG numbers rows from the top and columns from the left. The grid's own
      column counts from its origin's side (`maxx - x - 1` on a right origin)
      and its row counts from the bottom on a bottom origin
      (`maxy - y - 1`). */
  function TileCoords(origin: Origin, level: GridLevel, x: int, y: int): (c: (int, int))
    ensures c.0 == if origin == BottomLeft || origin == TopLeft then x else level.maxx - x - 1
    ensures c.1 == if origin == BottomLeft || origin == BottomRight then level.maxy - y - 1 else y
    ensures 0 <= x < level.maxx && 0 <= y < level.maxy ==> 0 <= c.0 < level.maxx && 0 <= c.1 < level.maxy
  {
    var owgY := level.maxy - y - 1;
    match origin {
      case BottomLeft => (x, owgY)
      case TopLeft => (x, level.maxy - owgY - 1)
      case BottomRight => (level.maxx - x - 1, owgY)
      case TopRight => (level.maxx - x - 1, level.maxy - owgY - 1)
    }
  }

  /** Each flip undoes itself: the coordinate change is its own inverse. */
  lemma TileCoordsInvolution(origin: Origin, level: GridLevel, x: int, y: int)
    ensures var c := TileCoords(origin, level, x, y);
            TileCoords(origin, level, c.0, c.1) == (x, y)
  {
  }

  /** The grid link a resolved entry leaves in `grid_link`, if any. */
  function LinkOf(last: Option<Resolved>): (l: Option<GridLink>)
    ensures l.Some? <==> last.Some?
    ensures l.Some? ==> l.value == last.value.link
  {
    if last.Some? then Some(last.value.link) else None
  }

  /** One entry of a tile request: resolved as written with the link the
      previous entry left, checked against that link's grid name (400), then
      turned into a tile at level z. A level the grid does not have is a 404
      here. */
  function EntryTile(config: Config, key: string, prev: Option<GridLink>, z: int, x: int, y: int)
    : (r: Result<Tile, OwgError>)
    requires WellFormed(config)
  {
    match ResolveAsWritten(config, key, prev) {
      case Err(e) => Err(e)
      case Ok(rv) =>
        if prev.Some? && prev.value.grid.name != rv.link.grid.name then Err(Error(400, ConflictingGrids))
        else if !(0 <= z < |rv.link.grid.levels|) then Err(Error(404, InvalidLevel))
        else
          var c := TileCoords(rv.link.grid.origin, rv.link.grid.levels[z], x, y);
          Ok(Tile(rv.tileset, rv.link, c.0, c.1, z))
    }
  }

  /** An accepted entry gives the tile of its resolved link at level z, on
      the previous link's grid; the 400 comes exactly from a grid name that
      differs from the previous one, and a 404 from an unresolved entry or
      a level the grid does not have. */
  lemma EntryTileSpec(config: Config, key: string, prev: Option<GridLink>, z: int, x: int, y: int)
    requires WellFormed(config)
    ensures var r := EntryTile(config, key, prev, z, x, y);
            var rv := ResolveAsWritten(config, key, prev);
            (r.Ok? ==> TileOf(config, key, prev, r.value, z, x, y) &&
                       (prev.Some? ==> r.value.link.grid.name == prev.value.grid.name)) &&
            (r == Err(Error(400, ConflictingGrids)) <==>
               rv.Ok? && prev.Some? && prev.value.grid.name != rv.value.link.grid.name) &&
            (r.Err? && r.error.code == 404 ==> rv.Err? || !(0 <= z < |rv.value.link.grid.levels|))
  {
  }

  /** The tiles of the remaining entries, in order, stopping at the first
      error; each entry sees the link of the tile before it. */
  function TilesFrom(config: Config, entries: seq<string>, prev: Option<GridLink>, z: int, x: int, y: int)
    : (r: Result<seq<Tile>, OwgError>)
    requires WellFormed(config)
    ensures entries == [] ==> r == Ok([])
    ensures r.Ok? ==> |r.value| == |entries|
    ensures r.Err? ==> r.error.code == 400 || r.error.code == 404
    decreases |entries|
  {
    if entries == [] then Ok([])
    else match EntryTile(config, entries[0], prev, z, x, y) {
      case Err(e) => Err(e)
      case Ok(t) =>
        var rest := TilesFrom(config, entries[1..], Some(t.link), z, x, y);
        if rest.Err? then rest else Ok([t] + rest.value)
    }
  }

  /** Tile t was made from entry key, given the link the previous entry left,
      at level z and the requested column and row, converted for the grid's
      origin. */
  predicate TileOf(config: Config, key: string, prev: Option<GridLink>, t: Tile, z: int, x: int, y: int)
    requires WellFormed(config)
  {
    ResolveAsWritten(config, key, prev) == Ok(Resolved(t.tileset, t.link)) &&
    t.z == z && 0 <= z < |t.link.grid.levels| &&
    (t.x, t.y) == TileCoords(t.link.grid.origin, t.link.grid.levels[z], x, y)
  }

  /** An accepted request has one tile per entry, each made from its entry
      with the link of the tile before it, all on the grid of the first (or
      of the given link). An entry that resolves on its own gets its own
      link; one whose grid is unknown shares the previous tile's link. */
  lemma {:induction false} TilesFromShape(config: Config, entries: seq<string>, prev: Option<GridLink>,
                                          z: int, x: int, y: int)
    requires WellFormed(config)
    ensures var r := TilesFrom(config, entries, prev, z, x, y);
            r.Ok? ==> |r.value| == |entries| &&
                      (forall i :: 0 <= i < |entries| ==>
                         TileOf(config, entries[i], if i == 0 then prev else Some(r.value[i - 1].link), r.value[i], z, x, y)) &&
                      (forall i :: 0 <= i < |entries| ==> r.value[i].link.grid.name == r.value[0].link.grid.name) &&
                      (entries != [] && prev.Some? ==> r.value[0].link.grid.name == prev.value.grid.name) &&
                      (forall i :: 0 <= i < |entries| && Resolve(config, entries[i]).Ok? ==>
                         Resolve(config, entries[i]) == Ok(Resolved(r.value[i].tileset, r.value[i].link))) &&
                      (forall i :: 0 < i < |entries| && Resolve(config, entries[i]).Err? ==>
                         r.value[i].link == r.value[i - 1].link)
    decreases |entries|
  {
    if entries != [] {
      var e := EntryTile(config, entries[0], prev, z, x, y);
      EntryTileSpec(config, entries[0], prev, z, x, y);
      if e.Ok? {
        var t := e.value;
        var tail := entries[1..];
        TilesFromShape(config, tail, Some(t.link), z, x, y);
        var rest := TilesFrom(config, tail, Some(t.link), z, x, y);
        if rest.Ok? {
          var ts := [t] + rest.value;
          assert TilesFrom(config, entries, prev, z, x, y) == Ok(ts);
          forall i | 0 <= i < |entries|
            ensures TileOf(config, entries[i], if i == 0 then prev else Some(ts[i - 1].link), ts[i], z, x, y)
            ensures ts[i].link.grid.name == t.link.grid.name
            ensures Resolve(config, entries[i]).Ok? ==> Resolve(config, entries[i]) == Ok(Resolved(ts[i].tileset, ts[i].link))
            ensures 0 < i && Resolve(config, entries[i]).Err? ==> ts[i].link == ts[i - 1].link
          {
            if i > 0 {
              assert ts[i] == rest.value[i - 1] && entries[i] == tail[i - 1];
              if i > 1 {
                assert ts[i - 1] == rest.value[i - 2];
              }
            }
          }
        }
      }
    }
  }

  /** The last resolved entry of a capabilities request, or the given one if
      there are none left; every entry is resolved as written with the link
      the previous one left, and all must share its grid name. */
  function CapsFrom(config: Config, entries: seq<string>, last: Option<Resolved>)
    : (r: Result<Option<Resolved>, OwgError>)
    requires WellFormed(config)
    ensures entries == [] ==> r == Ok(last)
    ensures r.Err? ==> r.error.code == 400 || r.error.code == 404
    decreases |entries|
  {
    if entries == [] then Ok(last)
    else match ResolveAsWritten(config, entries[0], LinkOf(last)) {
      case Err(e) => Err(e)
      case Ok(rv) =>
        if last.Some? && last.value.link.grid.name != rv.link.grid.name then Err(Error(400, ConflictingGrids))
        else CapsFrom(config, entries[1..], Some(rv))
    }
  }

  /** An accepted capabilities request keeps a configured tileset for its
      last entry, and that entry's own resolution when it has one; the first
      entry (with nothing before it) resolves on its own, every entry either
      resolves or names a grid its tileset lacks, and the kept entry is on
      the grid of the one before the list. */
  lemma {:induction false} CapsFromShape(config: Config, entries: seq<string>, last: Option<Resolved>)
    requires WellFormed(config)
    ensures var r := CapsFrom(config, entries, last);
            (r.Ok? && entries != [] ==>
               r.value.Some? && r.value.value.tileset in config.Values &&
               (Resolve(config, entries[|entries| - 1]).Ok? ==>
                  r.value == Some(Resolve(config, entries[|entries| - 1]).value))) &&
            (r.Ok? && entries != [] && last.None? ==> Resolve(config, entries[0]).Ok?) &&
            (r.Ok? ==> forall i :: 0 <= i < |entries| ==>
                         Resolve(config, entries[i]).Ok? || Resolve(config, entries[i]) == Err(Error(404, InvalidGrid))) &&
            (r.Ok? && last.Some? && r.value.Some? ==> r.value.value.link.grid.name == last.value.link.grid.name)
    decreases |entries|
  {
    if entries != [] {
      var rv := ResolveAsWritten(config, entries[0], LinkOf(last));
      if rv.Ok? && !(last.Some? && last.value.link.grid.name != rv.value.link.grid.name) {
        var rest := entries[1..];
        assert CapsFrom(config, entries, last) == CapsFrom(config, rest, Some(rv.value));
        CapsFromShape(config, rest, Some(rv.value));
        assert forall i :: 1 <= i < |entries| ==> entries[i] == rest[i - 1];
        if rest != [] {
          assert entries[|entries| - 1] == rest[|rest| - 1];
        }
      }
    }
  }

  /** One resolved entry either ends the request on a grid conflict or
      becomes the last entry for the rest. */
  lemma CapsStep(config: Config, entries: seq<string>, last: Option<Resolved>)
    requires WellFormed(config) && entries != []
    ensures var rv := ResolveAsWritten(config, entries[0], LinkOf(last));
            (rv.Err? ==> CapsFrom(config, entries, last) == Err(rv.error)) &&
            (rv.Ok? && last.Some? && last.value.link.grid.name != rv.value.link.grid.name ==>
               CapsFrom(config, entries, last) == Err(Error(400, ConflictingGrids))) &&
            (rv.Ok? && !(last.Some? && last.value.link.grid.name != rv.value.link.grid.name) ==>
               CapsFrom(config, entries, last) == CapsFrom(config, entries[1..], Some(rv.value)))
  {
  }

  /** Prefixes tiles to a result that may be an error. */
  function Prepend(ts: seq<Tile>, r: Result<seq<Tile>, OwgError>): Result<seq<Tile>, OwgError>
  {
    if r.Err? then r else Ok(ts + r.value)
  }

  /** One more accepted entry moves its tile from the pending result to the
      tiles already stored, and its link becomes the one the next entry sees. */
  lemma PrependStep(config: Config, entries: seq<string>, prev: Option<GridLink>, z: int, x: int, y: int,
                    ts: seq<Tile>)
    requires WellFormed(config) && entries != []
    ensures var e := EntryTile(config, entries[0], prev, z, x, y);
            (e.Err? ==> Prepend(ts, TilesFrom(config, entries, prev, z, x, y)) == Err(e.error)) &&
            (e.Ok? ==> Prepend(ts, TilesFrom(config, entries, prev, z, x, y)) ==
                       Prepend(ts + [e.value], TilesFrom(config, entries[1..], Some(e.value.link), z, x, y)))
  {
    var e := EntryTile(config, entries[0], prev, z, x, y);
    if e.Ok? {
      var t := e.value;
      var rest := TilesFrom(config, entries[1..], Some(t.link), z, x, y);
      if rest.Ok? {
        assert ts + ([t] + rest.value) == ts + [t] + rest.value;
      }
    }
  }

  // ---------------------------------------------------------------------------
  // The request

  datatype Request =
    | GetTile(tiles: seq<Tile>)
    | Capabilities(layer: string, last: Option<Resolved>)

  /** The layer text the capabilities request keeps: the tokenising has cut
      the string after its first entry. */
  function FirstEntryText(s: string): (t: string)
    ensures Tokens(s, ';') != [] ==> t == s[..SkipSeparators(s, ';', 0)] + Tokens(s, ';')[0]
  {
    var i := SkipSeparators(s, ';', 0);
    SkipSeparatorsTokens(s, ';', 0);
    if i == |s| then s
    else
      var k := IndexOf(s[i..], ';');
      s[..i + k]
  }

  function SkipSeparators(s: string, sep: char, i: nat): (j: nat)
    requires i <= |s|
    ensures i <= j <= |s| && (j < |s| ==> s[j] != sep)
    decreases |s| - i
  {
    if i < |s| && s[i] == sep then SkipSeparators(s, sep, i + 1) else i
  }

  /** Leading separators are skipped before the first token. */
  lemma {:induction false} SkipSeparatorsTokens(s: string, sep: char, i: nat)
    requires i <= |s|
    ensures Tokens(s[i..], sep) == Tokens(s[SkipSeparators(s, sep, i)..], sep)
    decreases |s| - i
  {
    if i < |s| && s[i] == sep {
      assert s[i..][1..] == s[i + 1..];
      SkipSeparatorsTokens(s, sep, i + 1);
    }
  }

  /** What `_mapcache_service_owg_parse_request` returns for a path: with
      "layersettings.json" as second token a capabilities request for the
      last entry, otherwise the tiles of every entry of a valid tile path. */
  function RequestSpec(config: Config, path: string): (r: Result<Request, OwgError>)
    requires WellFormed(config)
    ensures var toks := Tokens(path, '/');
            r.Ok? && r.value.Capabilities? <==> |toks| >= 2 && toks[1] == "layersettings.json" && r.Ok?
    ensures r.Ok? && r.value.GetTile? ==>
              PathSpec(path).Ok? && |r.value.tiles| == |Tokens(PathSpec(path).value.layer, ';')|
    ensures r.Ok? && r.value.Capabilities? && Tokens(Tokens(path, '/')[0], ';') != [] ==> r.value.last.Some?
    ensures r.Err? ==> r.error.code == 400 || r.error.code == 404
  {
    var toks := Tokens(path, '/');
    if |toks| >= 2 && toks[1] == "layersettings.json" then
      CapsFromShape(config, Tokens(toks[0], ';'), None);
      match CapsFrom(config, Tokens(toks[0], ';'), None) {
        case Err(e) => Err(e)
        case Ok(last) => Ok(Capabilities(FirstEntryText(toks[0]), last))
      }
    else match PathSpec(path) {
      case Err(e) => Err(e)
      case Ok(p) => match TilesFrom(config, Tokens(p.layer, ';'), None, p.z, p.x, p.y) {
        case Err(e) => Err(e)
        case Ok(ts) => Ok(GetTile(ts))
      }
    }
  }

  /** The layers of the stale-link example, as the request lists them. */
  lemma ExampleLayerTokens()
    ensures Tokens("A" + ";" + "B@x", ';') == ["A", "B@x"]
  {
    assert ';' !in "B@x";
    TwoTokens("A", "B@x", ';');
  }


  /** The stale-link example's entries, resolved as the tile loop does. */
  lemma ExampleTiles(config: Config, a: Tileset, b: Tileset, linkA: GridLink)
    requires linkA == GridLink(Grid("g", BottomLeft, [GridLevel(1, 1)]), 0, 1, [Extent(0, 0, 0, 0)])
    requires a == Tileset("A", [linkA], false, "png")
    requires b == Tileset("B", [GridLink(Grid("h", BottomLeft, [GridLevel(1, 1)]), 0, 1, [Extent(0, 0, 0, 0)])], false, "png")
    requires config == map["A" := a, "B" := b]
    ensures WellFormed(config)
    ensures TilesFrom(config, ["A", "B@x"], None, 0, 0, 0) == Ok([Tile(a, linkA, 0, 0, 0), Tile(b, linkA, 0, 0, 0)])
    ensures CapsFrom(config, ["A", "B@x"], None) == Ok(Some(Resolved(b, linkA)))
  {
    StaleGridLinkAccepted();
    var t1 := Tile(a, linkA, 0, 0, 0);
    var t2 := Tile(b, linkA, 0, 0, 0);
    assert EntryTile(config, "A", None, 0, 0, 0) == Ok(t1);
    assert EntryTile(config, "B@x", Some(linkA), 0, 0, 0) == Ok(t2);
    assert ["A", "B@x"][1..] == ["B@x"] && ["B@x"][1..] == [];
    assert TilesFrom(config, [], Some(linkA), 0, 0, 0) == Ok([]);
    assert [t2] + [] == [t2] && [t1] + [t2] == [t1, t2];
    assert TilesFrom(config, ["B@x"], Some(linkA), 0, 0, 0) == Ok([t2]);
    assert CapsFrom(config, ["B@x"], Some(Resolved(a, linkA))) == Ok(Some(Resolved(b, linkA)));
  }

  /** A tile request whose layer lists "A" and then "B@x", with tileset B
      not on grid x (the layer "A;B@x" of ExampleLayerTokens), is accepted
      as written: two tiles, both on tileset A's grid link. */
  lemma StaleGridLinkRequest(config: Config, a: Tileset, b: Tileset, linkA: GridLink, layer: string)
    requires linkA == GridLink(Grid("g", BottomLeft, [GridLevel(1, 1)]), 0, 1, [Extent(0, 0, 0, 0)])
    requires a == Tileset("A", [linkA], false, "png")
    requires b == Tileset("B", [GridLink(Grid("h", BottomLeft, [GridLevel(1, 1)]), 0, 1, [Extent(0, 0, 0, 0)])], false, "png")
    requires config == map["A" := a, "B" := b]
    requires |layer| > 0 && '/' !in layer && Tokens(layer, ';') == ["A", "B@x"]
    ensures WellFormed(config)
    ensures RequestSpec(config, TilePath(layer, 0, 0, 0, "png")) ==
              Ok(GetTile([Tile(a, linkA, 0, 0, 0), Tile(b, linkA, 0, 0, 0)]))
    ensures linkA !in b.gridLinks
  {
    ExampleTiles(config, a, b, linkA);
    var path := TilePath(layer, 0, 0, 0, "png");
    PathRoundTrip(layer, 0, 0, 0, "png");
    TilePathTokens(layer, 0, 0, 0, "png");
    var toks := Tokens(path, '/');
    assert toks[1] == "tiles" != "layersettings.json";
    assert PathSpec(path) == Ok(PathParts(layer, 0, 0, 0));
    assert linkA.grid.name != b.gridLinks[0].grid.name;
  }

  /** The separator count the parser uses to size the tile array. */
  method CountSeparators(s: string, sep: char) returns (n: nat)
    ensures n == Count(s, sep)
  {
    n := 0;
    var i := 0;
    while i < |s|
      invariant 0 <= i <= |s| && n == Count(s[..i], sep)
    {
      assert s[..i + 1] == s[..i] + [s[i]];
      CountSplit(s[..i], [s[i]], sep);
      if s[i] == sep {
        n := n + 1;
      }
      i := i + 1;
    }
    assert s[..i] == s;
  }

  /** The capabilities branch: every entry resolved in order with the link
      the previous one left and checked against its grid name; the request
      keeps the last one. */
  method ResolveLast(config: Config, entries: seq<string>) returns (r: Result<Option<Resolved>, OwgError>)
    requires WellFormed(config)
    ensures r == CapsFrom(config, entries, None)
  {
    var gridLink: Option<GridLink> := None;
    var last: Option<Resolved> := None;
    var k := 0;
    ghost var all := CapsFrom(config, entries, None);
    assert entries[0..] == entries;
    while k < |entries|
      invariant 0 <= k <= |entries| && gridLink == LinkOf(last)
      invariant all == CapsFrom(config, entries[k..], last)
    {
      assert entries[k..][1..] == entries[k + 1..];
      CapsStep(config, entries[k..], last);
      var rv := ResolveAsWritten(config, entries[k], gridLink);
      if rv.Err? {
        return Err(rv.error);
      }
      if gridLink.Some? && gridLink.value.grid.name != rv.value.link.grid.name {
        return Err(Error(400, ConflictingGrids));
      }
      gridLink := Some(rv.value.link);
      last := Some(rv.value);
      k := k + 1;
    }
    assert entries[k..] == [];
    r := Ok(last);
  }

  /** The tile branch: one tile per entry, stored at a running index in an
      array of count(';') + 1 slots, which the entries never overflow. */
  method BuildTiles(config: Config, parts: PathParts) returns (r: Result<seq<Tile>, OwgError>)
    requires WellFormed(config)
    ensures r == TilesFrom(config, Tokens(parts.layer, ';'), None, parts.z, parts.x, parts.y)
    ensures r.Ok? ==> |r.value| == |Tokens(parts.layer, ';')| <= Count(parts.layer, ';') + 1
  {
    var count := CountSeparators(parts.layer, ';');
    var tiles := new Tile[count + 1];
    var entries := Tokens(parts.layer, ';');
    TokensBound(parts.layer, ';');
    r := StoreTiles(config, entries, tiles, parts.z, parts.x, parts.y);
  }

  /** The loop of the tile branch: the tile of each entry goes to the next
      slot of the array; the link of each stored tile stays in `grid_link`
      for the next entry; the first failing entry ends the request. */
  method StoreTiles(config: Config, entries: seq<string>, tiles: array<Tile>, z: int, x: int, y: int)
    returns (r: Result<seq<Tile>, OwgError>)
    requires WellFormed(config) && |entries| <= tiles.Length
    modifies tiles
    ensures r == TilesFrom(config, entries, None, z, x, y)
    ensures r.Ok? ==> r.value == tiles[..|entries|]
  {
    var ntiles := 0;
    var gridLink: Option<GridLink> := None;
    ghost var all := TilesFrom(config, entries, None, z, x, y);
    assert all.Ok? ==> [] + all.value == all.value;
    assert tiles[..0] == [] && entries[0..] == entries;
    while ntiles < |entries|
      invariant 0 <= ntiles <= |entries|
      invariant all == Prepend(tiles[..ntiles], TilesFrom(config, entries[ntiles..], gridLink, z, x, y))
    {
      assert entries[ntiles..][1..] == entries[ntiles + 1..];
      ghost var before := tiles[..ntiles];
      PrependStep(config, entries[ntiles..], gridLink, z, x, y, before);
      var t := EntryTile(config, entries[ntiles], gridLink, z, x, y);
      if t.Err? {
        return Err(t.error);
      }
      tiles[ntiles] := t.value;
      assert tiles[..ntiles + 1] == before + [t.value];
      gridLink := Some(t.value.link);
      ntiles := ntiles + 1;
    }
    assert entries[ntiles..] == [];
    assert tiles[..ntiles] + [] == tiles[..ntiles];
    r := Ok(tiles[..ntiles]);
  }

  /** `_mapcache_service_owg_parse_request`: the capabilities branch when
      the second token is "layersettings.json", otherwise the tokenising
      loop followed by the tiles of every entry. */
  method ParseRequest(config: Config, path: string) returns (r: Result<Request, OwgError>)
    requires WellFormed(config)
    ensures r == RequestSpec(config, path)
  {
    var toks := Tokens(path, '/');
    if |toks| >= 2 && toks[1] == "layersettings.json" {
      var last := ResolveLast(config, Tokens(toks[0], ';'));
      if last.Err? {
        return Err(last.error);
      }
      return Ok(Capabilities(FirstEntryText(toks[0]), last.value));
    }
    var p := ParsePath(path);
    if p.Err? {
      return Err(p.error);
    }
    var tiles := BuildTiles(config, p.value);
    if tiles.Err? {
      return Err(tiles.error);
    }
    r := Ok(GetTile(tiles.value));
  }

  // ---------------------------------------------------------------------------
  // Capabilities

  /** The fields of the layer settings document. */
  datatype LayerSettings = LayerSettings(name: string, kind: string, format: string,
                                         minlod: int, maxlod: int, extent: Extent)

  const JsonMime := "application/json"

  /** `_create_capabilities_owg`'s values: the levels are shifted in by one
      at each end, the extent is the tile range of level maxlod, and the type
      is "elevation" exactly for elevation tilesets. */
  function Settings(layer: string, rv: Resolved): (s: LayerSettings)
    requires 0 <= rv.link.maxz - 1 < |rv.link.limits|
    ensures s.kind == "elevation" <==> rv.tileset.elevation
    ensures s.kind == "elevation" || s.kind == "image"
    ensures s.minlod == rv.link.minz + 1 && s.maxlod == rv.link.maxz - 1
    ensures s.extent == rv.link.limits[s.maxlod]
    ensures s.name == layer && s.format == rv.tileset.ext
  {
    var maxlod := rv.link.maxz - 1;
    LayerSettings(layer, if rv.tileset.elevation then "elevation" else "image", rv.tileset.ext,
                  rv.link.minz + 1, maxlod, rv.link.limits[maxlod])
  }

  /** The document up to the minlod value. */
  function JsonHead(s: LayerSettings): string
  {
    "{" + "   \"name\" : \"" + s.name + "\",\n " + "   \"type\" : \"" + s.kind + "\",\n " +
    "   \"format\" : \"" + s.format + "\",\n " + "   \"minlod\" : "
  }

  const MaxlodLabel := ",\n " + "   \"maxlod\" : "

  /** The document after the maxlod value. */
  function JsonTail(s: LayerSettings): string
  {
    ",\n " + "   \"extent\" : [" + IntToDec(s.extent.minx) + ", " + IntToDec(s.extent.miny) + ", " +
    IntToDec(s.extent.maxx) + ", " + IntToDec(s.extent.maxy) + "]\n " + "}\n"
  }

  /** A number written in decimal after a head and before a non-digit is
      read back by `strtol` from the end of the head. */
  lemma ReadBackAfter(head: string, n: int, rest: string)
    requires rest == [] || !IsDigit(rest[0])
    ensures |head| <= |head + IntToDec(n) + rest|
    ensures StrToL((head + IntToDec(n) + rest)[|head|..]) == (n, |IntToDec(n)|)
  {
    assert (head + IntToDec(n) + rest)[|head|..] == IntToDec(n) + rest;
    StrToLOfDec(n, rest);
  }

  /** Two numbers, each followed by a label or a tail that starts with ',',
      read back from where they begin. */
  lemma TwoReadBacks(head: string, m: int, lbl: string, n: int, tail: string)
    requires |lbl| > 0 && lbl[0] == ',' && |tail| > 0 && tail[0] == ','
    ensures var r := head + IntToDec(m) + lbl + IntToDec(n) + tail;
            var k := |head + IntToDec(m) + lbl|;
            |head| <= k <= |r| && r[..|head|] == head && r[..k] == head + IntToDec(m) + lbl &&
            StrToL(r[|head|..]) == (m, |IntToDec(m)|) && StrToL(r[k..]) == (n, |IntToDec(n)|)
  {
    var dm, dn := IntToDec(m), IntToDec(n);
    var x := head + dm;
    var pre := x + lbl;
    var mid := lbl + dn + tail;
    Associate(pre, dn, tail);
    Associate(x, lbl, dn);
    Associate(x, lbl + dn, tail);
    Associate(head, dm, mid);
    PrefixOf(head, dm + mid);
    PrefixOf(pre, dn + tail);
    ReadBackAfter(head, m, mid);
    ReadBackAfter(pre, n, tail);
  }

  lemma PrefixOf(a: string, b: string)
    ensures (a + b)[..|a|] == a
  {
  }

  /** The JSON text of the layer settings: the name, type and format labels
      in order, and `strtol` right after the "minlod" and "maxlod" labels
      reads the two levels back. */
  function Json(s: LayerSettings): (r: string)
    ensures |JsonHead(s)| <= |r| && r[..|JsonHead(s)|] == JsonHead(s)
    ensures StrToL(r[|JsonHead(s)|..]) == (s.minlod, |IntToDec(s.minlod)|)
    ensures var n := |JsonHead(s) + IntToDec(s.minlod) + MaxlodLabel|;
            n <= |r| && r[..n] == JsonHead(s) + IntToDec(s.minlod) + MaxlodLabel &&
            StrToL(r[n..]) == (s.maxlod, |IntToDec(s.maxlod)|)
  {
    TwoReadBacks(JsonHead(s), s.minlod, MaxlodLabel, s.maxlod, JsonTail(s));
    JsonHead(s) + IntToDec(s.minlod) + MaxlodLabel + IntToDec(s.maxlod) + JsonTail(s)
  }
}
