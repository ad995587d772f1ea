/**
 * Tile coordinates, the tile store as the compositor sees it, and the
 * row-major enumeration of the tiles that cover the visible panes
 * (`forEachTileInView` in TilesSection.ts), with the two walks over it:
 * `haveAllTilesInView`, which stops at the first missing tile, and the
 * de-duplicating walk of `onDraw`.
 */
module Tiles {
  import opened Wrappers
  import opened Geometry

  /** `L.TileCoordData`: a tile's top-left in core pixels, its zoom and its part. Its key is the value itself. */
  datatype Coords = Coords(x: int, y: int, zoom: int, part: int)

  function Pos(c: Coords): Point { Point(c.x, c.y) }

  /**
   * The painter's per-frame context (`tsManager._paintContext()`): tile size,
   * the visible panes, the combined view, whether split panes are active and
   * the split position.
   */
  datatype PaintContext = PaintContext(
    tileSize: Point,
    paneBoundsList: seq<Bounds>,
    viewBounds: Bounds,
    paneBoundsActive: bool,
    splitPos: Point)

  /** A tile object of the store: its coordinates and whether its bitmap has arrived. */
  datatype Tile = Tile(coords: Coords, loaded: bool)

  /**
   * How tiles are laid out: a flat canvas, or the page strip of
   * `app.file.fileBasedView`, where the store supplies the coordinate list
   * and the part height in pixels (already rounded) together with the
   * section's `documentTopLeft[1]`.
   */
  datatype Layout =
    | Flat
    | PageStrip(partHeightPixels: int, documentTop: int, tileSize: int, viewCoords: seq<Coords>)

  /**
   * The document layer (`docLayer`): the tile map `_tiles`, the keys whose
   * bitmap `_tileCache` holds, and the collaborators `_pxBoundsToTileRange`
   * and `_isValidTile`, given as functions.
   */
  datatype DocLayer = DocLayer(
    tiles: map<Coords, Tile>,
    tileCache: set<Coords>,
    toTileRange: Bounds -> Bounds,
    isValidTile: Coords -> bool,
    selectedPart: int,
    splitPos: Option<Point>,
    layout: Layout)

  /** The negation of `!tile || !tile.loaded`. */
  predicate IsLoaded(tiles: map<Coords, Tile>, c: Coords) {
    c in tiles && tiles[c].loaded
  }

  /** What `onDraw` demands before it paints a tile. */
  predicate Drawable(doc: DocLayer, c: Coords) {
    IsLoaded(doc.tiles, c) && doc.isValidTile(c)
  }

  /** The coordinates of tile (i, j) of the grid: `new L.TileCoordData(i * ts.x, j * ts.y, zoom, part)`. */
  function TileAt(i: int, j: int, ts: Point, zoom: int, part: int): Coords {
    Coords(i * ts.x, j * ts.y, zoom, part)
  }

  /** Tiles (minX, j), ..., (iEnd - 1, j) of one row, left to right. */
  function Row(j: int, minX: int, iEnd: int, ts: Point, zoom: int, part: int): seq<Coords>
    decreases iEnd - minX
  {
    if iEnd <= minX then [] else Row(j, minX, iEnd - 1, ts, zoom, part) + [TileAt(iEnd - 1, j, ts, zoom, part)]
  }

  /** Rows range.min.y, ..., jEnd - 1 of a tile range, top to bottom. */
  function Rows(range: Bounds, jEnd: int, ts: Point, zoom: int, part: int): seq<Coords>
    decreases jEnd - range.min.y
  {
    if jEnd <= range.min.y then []
    else Rows(range, jEnd - 1, ts, zoom, part) + Row(jEnd - 1, range.min.x, range.max.x + 1, ts, zoom, part)
  }

  /** The row-major walk (`j` outer, `i` inner) over one inclusive tile range. */
  function RangeCoords(range: Bounds, ts: Point, zoom: int, part: int): seq<Coords> {
    Rows(range, range.max.y + 1, ts, zoom, part)
  }

  /** The walks over the ranges, one after the other. */
  function RangesCoords(ranges: seq<Bounds>, ts: Point, zoom: int, part: int): seq<Coords> {
    if ranges == [] then []
    else RangesCoords(ranges[..|ranges| - 1], ts, zoom, part) + RangeCoords(ranges[|ranges| - 1], ts, zoom, part)
  }

  /** `ctx.paneBoundsList.map(docLayer._pxBoundsToTileRange)`. */
  function TileRanges(panes: seq<Bounds>, toTileRange: Bounds -> Bounds): (r: seq<Bounds>)
    ensures |r| == |panes|
    ensures forall k :: 0 <= k < |panes| ==> r[k] == toTileRange(panes[k])
  {
    seq(|panes|, k requires 0 <= k < |panes| => toTileRange(panes[k]))
  }

  /** Every coordinate `forEachTileInView` offers its callback, in order, when the callback never stops it. */
  function ViewCoords(doc: DocLayer, ctx: PaintContext, zoom: int, part: int): seq<Coords> {
    match doc.layout
    case PageStrip(_, _, _, coords) => coords
    case Flat => RangesCoords(TileRanges(ctx.paneBoundsList, doc.toTileRange), ctx.tileSize, zoom, part)
  }

  /** Tile (i, j) is in the walk over a range exactly when (i, j) lies in the range. */
  lemma {:induction false} RowMembers(j: int, minX: int, iEnd: int, ts: Point, zoom: int, part: int, c: Coords)
    ensures c in Row(j, minX, iEnd, ts, zoom, part) <==>
      exists i {:trigger TileAt(i, j, ts, zoom, part)} :: minX <= i < iEnd && c == TileAt(i, j, ts, zoom, part)
    decreases iEnd - minX
  {
    if iEnd > minX {
      RowMembers(j, minX, iEnd - 1, ts, zoom, part, c);
      if c == TileAt(iEnd - 1, j, ts, zoom, part) {
        assert minX <= iEnd - 1 < iEnd;
      }
    }
  }

  lemma {:induction false} RowsMembers(range: Bounds, jEnd: int, ts: Point, zoom: int, part: int, c: Coords)
    ensures c in Rows(range, jEnd, ts, zoom, part) <==>
      exists i, j {:trigger TileAt(i, j, ts, zoom, part)} ::
        range.min.x <= i <= range.max.x && range.min.y <= j < jEnd && c == TileAt(i, j, ts, zoom, part)
    decreases jEnd - range.min.y
  {
    if jEnd > range.min.y {
      RowsMembers(range, jEnd - 1, ts, zoom, part, c);
      RowMembers(jEnd - 1, range.min.x, range.max.x + 1, ts, zoom, part, c);
    }
  }

  /** The walk over a range visits exactly the tiles of the range. */
  lemma RangeMembers(range: Bounds, ts: Point, zoom: int, part: int, c: Coords)
    ensures c in RangeCoords(range, ts, zoom, part) <==>
      exists i, j {:trigger TileAt(i, j, ts, zoom, part)} ::
        range.min.x <= i <= range.max.x && range.min.y <= j <= range.max.y && c == TileAt(i, j, ts, zoom, part)
  {
    RowsMembers(range, range.max.y + 1, ts, zoom, part, c);
  }

  /**
   * The number of coordinates `haveAllTilesInView` finds loaded before the
   * first one that is missing or not loaded (or |cs| when there is none).
   */
  function FirstMissing(tiles: map<Coords, Tile>, cs: seq<Coords>): (r: nat)
    ensures r <= |cs|
    ensures forall k :: 0 <= k < r ==> IsLoaded(tiles, cs[k])
    ensures r < |cs| ==> !IsLoaded(tiles, cs[r])
  {
    if cs == [] || !IsLoaded(tiles, cs[0]) then 0 else 1 + FirstMissing(tiles, cs[1..])
  }

  /**
   * The tiles `onDraw` paints, in order, for a walk `cs`: a coordinate is
   * painted at its first occurrence (the `doneTiles` set skips later ones),
   * and only when it is drawable.
   */
  function DrawList(doc: DocLayer, cs: seq<Coords>): seq<Coords>
  {
    if cs == [] then []
    else
      var prev, c := cs[..|cs| - 1], cs[|cs| - 1];
      assert cs == prev + [c];
      DrawList(doc, prev) + (if c !in prev && Drawable(doc, c) then [c] else [])
  }

  /**
   * `onDraw` paints exactly the drawable coordinates of its walk, and none
   * of them twice.
   */
  lemma {:induction false} DrawListSpec(doc: DocLayer, cs: seq<Coords>)
    ensures forall c :: c in DrawList(doc, cs) <==> c in cs && Drawable(doc, c)
    ensures forall a, b :: 0 <= a < b < |DrawList(doc, cs)| ==> DrawList(doc, cs)[a] != DrawList(doc, cs)[b]
  {
    if cs != [] {
      var prev, c := cs[..|cs| - 1], cs[|cs| - 1];
      assert cs == prev + [c];
      DrawListSpec(doc, prev);
    }
  }

  /** The elements of a sequence, as the `doneTiles` set holds them. */
  function Elements(s: seq<Coords>): (r: set<Coords>)
    ensures forall c :: c in r <==> c in s
  {
    set c | c in s
  }

  /** `x <= y` stays true when the same sequence is put before both. */
  lemma PrefixAfter(a: seq<Coords>, x: seq<Coords>, y: seq<Coords>)
    requires x <= y
    ensures a + x <= a + y
  {
    assert (a + y)[..|a + x|] == a + x;
  }

  lemma {:induction false} RowPrefix(j: int, minX: int, i: int, iEnd: int, ts: Point, zoom: int, part: int)
    requires i <= iEnd
    ensures Row(j, minX, i, ts, zoom, part) <= Row(j, minX, iEnd, ts, zoom, part)
    decreases iEnd - i
  {
    if i < iEnd && iEnd > minX {
      RowPrefix(j, minX, i, iEnd - 1, ts, zoom, part);
    }
  }

  lemma {:induction false} RowsPrefix(range: Bounds, j: int, jEnd: int, ts: Point, zoom: int, part: int)
    requires j <= jEnd
    ensures Rows(range, j, ts, zoom, part) <= Rows(range, jEnd, ts, zoom, part)
    decreases jEnd - j
  {
    if j < jEnd && jEnd > range.min.y {
      RowsPrefix(range, j, jEnd - 1, ts, zoom, part);
    }
  }

  lemma {:induction false} RangesPrefix(ranges: seq<Bounds>, k: nat, ts: Point, zoom: int, part: int)
    requires k <= |ranges|
    ensures RangesCoords(ranges[..k], ts, zoom, part) <= RangesCoords(ranges, ts, zoom, part)
    decreases |ranges| - k
  {
    if k < |ranges| {
      var init := ranges[..|ranges| - 1];
      assert init[..k] == ranges[..k];
      RangesPrefix(init, k, ts, zoom, part);
    } else {
      assert ranges[..k] == ranges;
    }
  }

  /**
   * Where the nested walk stands: ranges 0..rangeIdx-1 done, rows of range
   * `rangeIdx` before `j` done, and tiles of row `j` before `i` done.
   */
  function Walked(ranges: seq<Bounds>, rangeIdx: nat, j: int, i: int, ts: Point, zoom: int, part: int): seq<Coords>
    requires rangeIdx < |ranges|
  {
    RangesCoords(ranges[..rangeIdx], ts, zoom, part)
      + Rows(ranges[rangeIdx], j, ts, zoom, part)
      + Row(j, ranges[rangeIdx].min.x, i, ts, zoom, part)
  }

  lemma PrefixTrans(x: seq<Coords>, y: seq<Coords>, z: seq<Coords>)
    requires x <= y && y <= z
    ensures x <= z
  {
    assert z[..|x|] == z[..|y|][..|x|];
  }

  /** The next tile of the nested walk extends the walked prefix. */
  lemma WalkedNext(ranges: seq<Bounds>, rangeIdx: nat, j: int, i: int, ts: Point, zoom: int, part: int)
    requires rangeIdx < |ranges|
    requires ranges[rangeIdx].min.x <= i
    ensures Walked(ranges, rangeIdx, j, i, ts, zoom, part) + [TileAt(i, j, ts, zoom, part)]
         == Walked(ranges, rangeIdx, j, i + 1, ts, zoom, part)
  {
    var r := ranges[rangeIdx];
    assert Row(j, r.min.x, i + 1, ts, zoom, part) == Row(j, r.min.x, i, ts, zoom, part) + [TileAt(i, j, ts, zoom, part)];
  }

  /** Inside a range, the walked part is a prefix of the whole walk. */
  lemma WalkedIsPrefix(ranges: seq<Bounds>, rangeIdx: nat, j: int, i: int, ts: Point, zoom: int, part: int)
    requires rangeIdx < |ranges|
    requires ranges[rangeIdx].min.y <= j <= ranges[rangeIdx].max.y
    requires i <= ranges[rangeIdx].max.x + 1
    ensures Walked(ranges, rangeIdx, j, i, ts, zoom, part) <= RangesCoords(ranges, ts, zoom, part)
  {
    var r := ranges[rangeIdx];
    var a := RangesCoords(ranges[..rangeIdx], ts, zoom, part);
    var b := Rows(r, j, ts, zoom, part);
    var row := Row(j, r.min.x, i, ts, zoom, part);
    var full := Row(j, r.min.x, r.max.x + 1, ts, zoom, part);
    var rows := Rows(r, j + 1, ts, zoom, part);
    var whole := RangeCoords(r, ts, zoom, part);
    RowPrefix(j, r.min.x, i, r.max.x + 1, ts, zoom, part);
    PrefixAfter(a + b, row, full);
    assert rows == b + full;
    assert a + b + full == a + rows;
    RowsPrefix(r, j + 1, r.max.y + 1, ts, zoom, part);
    PrefixAfter(a, rows, whole);
    PrefixTrans(a + b + row, a + rows, a + whole);
    assert ranges[..rangeIdx + 1][..rangeIdx] == ranges[..rangeIdx];
    assert a + whole == RangesCoords(ranges[..rangeIdx + 1], ts, zoom, part);
    RangesPrefix(ranges, rangeIdx + 1, ts, zoom, part);
    PrefixTrans(a + b + row, a + whole, RangesCoords(ranges, ts, zoom, part));
  }

  /** Finishing row `j` moves the walk to the start of row `j + 1`. */
  lemma WalkedRowDone(ranges: seq<Bounds>, rangeIdx: nat, j: int, i: int, ts: Point, zoom: int, part: int)
    requires rangeIdx < |ranges|
    requires ranges[rangeIdx].min.y <= j
    requires i == ranges[rangeIdx].max.x + 1 || (i == ranges[rangeIdx].min.x && i > ranges[rangeIdx].max.x)
    ensures Walked(ranges, rangeIdx, j, i, ts, zoom, part) == Walked(ranges, rangeIdx, j + 1, ranges[rangeIdx].min.x, ts, zoom, part)
  {
    var r := ranges[rangeIdx];
    assert Row(j, r.min.x, i, ts, zoom, part) == Row(j, r.min.x, r.max.x + 1, ts, zoom, part);
  }

  /** Finishing range `rangeIdx` adds its walk to the walked ranges. */
  lemma WalkedRangeDone(ranges: seq<Bounds>, rangeIdx: nat, j: int, ts: Point, zoom: int, part: int)
    requires rangeIdx < |ranges|
    requires j == ranges[rangeIdx].max.y + 1 || (j == ranges[rangeIdx].min.y && j > ranges[rangeIdx].max.y)
    ensures Walked(ranges, rangeIdx, j, ranges[rangeIdx].min.x, ts, zoom, part) == RangesCoords(ranges[..rangeIdx + 1], ts, zoom, part)
  {
    var r := ranges[rangeIdx];
    assert Rows(r, j, ts, zoom, part) == RangeCoords(r, ts, zoom, part);
    assert ranges[..rangeIdx + 1][..rangeIdx] == ranges[..rangeIdx];
  }

  /** A walk whose loaded prefix `w` is followed by an unloaded tile stops right after `w`. */
  lemma FirstMissingAt(tiles: map<Coords, Tile>, cs: seq<Coords>, w: seq<Coords>, c: Coords)
    requires w + [c] <= cs
    requires forall x :: x in w ==> IsLoaded(tiles, x)
    requires !IsLoaded(tiles, c)
    ensures FirstMissing(tiles, cs) == |w|
  {
    assert cs[|w|] == c;
    assert forall m :: 0 <= m < |w| ==> cs[m] == w[m];
  }

  /**
   * `haveAllTilesInView`: walks the tiles covering the panes (`j` outer, `i`
   * inner, per pane range; or the page-strip list) and stops at the first
   * tile that is missing or not loaded. `lookups` counts the tiles the walk
   * looked up before it stopped.
   */
  method HaveAllTilesInView(zoom: Option<int>, part: Option<int>, ctx: Option<PaintContext>,
                            currentZoom: int, provided: PaintContext, doc: DocLayer)
    returns (allTilesLoaded: bool, ghost lookups: nat)
    ensures var cs := ViewCoords(doc, OrProvided(ctx, provided), OrCurrent(zoom, currentZoom), OrCurrent(part, doc.selectedPart));
      allTilesLoaded <==> forall k :: 0 <= k < |cs| ==> IsLoaded(doc.tiles, cs[k])
    ensures var cs := ViewCoords(doc, OrProvided(ctx, provided), OrCurrent(zoom, currentZoom), OrCurrent(part, doc.selectedPart));
      lookups == (if allTilesLoaded then |cs| else FirstMissing(doc.tiles, cs) + 1)
  {
    var z := OrCurrent(zoom, currentZoom);
    var p := OrCurrent(part, doc.selectedPart);
    var c := OrProvided(ctx, provided);
    allTilesLoaded := true;
    lookups := 0;
    if doc.layout.PageStrip? {
      var coordList := doc.layout.viewCoords;
      assert ViewCoords(doc, c, z, p) == coordList;
      for k := 0 to |coordList|
        invariant lookups == k
        invariant forall m :: 0 <= m < k ==> IsLoaded(doc.tiles, coordList[m])
      {
        lookups := lookups + 1;
        if !IsLoaded(doc.tiles, coordList[k]) {
          allTilesLoaded := false;
          return;
        }
      }
    } else {
      var tileRanges := TileRanges(c.paneBoundsList, doc.toTileRange);
      allTilesLoaded, lookups := AllLoadedInRanges(tileRanges, c.tileSize, z, p, doc.tiles);
    }
  }

  /** The flat-layout walk of `forEachTileInView` with the callback of `haveAllTilesInView`. */
  method AllLoadedInRanges(tileRanges: seq<Bounds>, ts: Point, zoom: int, part: int, tiles: map<Coords, Tile>)
    returns (allTilesLoaded: bool, ghost lookups: nat)
    ensures var cs := RangesCoords(tileRanges, ts, zoom, part);
      allTilesLoaded <==> forall k :: 0 <= k < |cs| ==> IsLoaded(tiles, cs[k])
    ensures var cs := RangesCoords(tileRanges, ts, zoom, part);
      lookups == (if allTilesLoaded then |cs| else FirstMissing(tiles, cs) + 1)
  {
    ghost var cs := RangesCoords(tileRanges, ts, zoom, part);
    allTilesLoaded := true;
    lookups := 0;
    var rangeIdx := 0;
    while rangeIdx < |tileRanges|
      invariant 0 <= rangeIdx <= |tileRanges|
      invariant lookups == |RangesCoords(tileRanges[..rangeIdx], ts, zoom, part)|
      invariant forall c :: c in RangesCoords(tileRanges[..rangeIdx], ts, zoom, part) ==> IsLoaded(tiles, c)
    {
      var tileRange := tileRanges[rangeIdx];
      var j := tileRange.min.y;
      while j <= tileRange.max.y
        invariant tileRange.min.y <= j && (j <= tileRange.max.y + 1 || j == tileRange.min.y)
        invariant lookups == |Walked(tileRanges, rangeIdx, j, tileRange.min.x, ts, zoom, part)|
        invariant forall c :: c in Walked(tileRanges, rangeIdx, j, tileRange.min.x, ts, zoom, part) ==> IsLoaded(tiles, c)
      {
        var i := tileRange.min.x;
        while i <= tileRange.max.x
          invariant tileRange.min.x <= i && (i <= tileRange.max.x + 1 || i == tileRange.min.x)
          invariant lookups == |Walked(tileRanges, rangeIdx, j, i, ts, zoom, part)|
          invariant forall c :: c in Walked(tileRanges, rangeIdx, j, i, ts, zoom, part) ==> IsLoaded(tiles, c)
        {
          var coords := TileAt(i, j, ts, zoom, part);
          WalkedNext(tileRanges, rangeIdx, j, i, ts, zoom, part);
          lookups := lookups + 1;
          if !IsLoaded(tiles, coords) {
            allTilesLoaded := false;
            WalkedIsPrefix(tileRanges, rangeIdx, j, i + 1, ts, zoom, part);
            FirstMissingAt(tiles, cs, Walked(tileRanges, rangeIdx, j, i, ts, zoom, part), coords);
            return;
          }
          i := i + 1;
        }
        WalkedRowDone(tileRanges, rangeIdx, j, i, ts, zoom, part);
        j := j + 1;
      }
      WalkedRangeDone(tileRanges, rangeIdx, j, ts, zoom, part);
      rangeIdx := rangeIdx + 1;
    }
    assert tileRanges[..rangeIdx] == tileRanges;
  }

  /** `zoom || current`, `part || selectedPart`: an absent or zero argument falls back to the current value. */
  function OrCurrent(given: Option<int>, current: int): (r: int)
    ensures given.Some? && given.value != 0 ==> r == given.value
    ensures given.None? || given.value == 0 ==> r == current
  {
    if given.None? || given.value == 0 then current else given.value
  }

  /** `ctx || tsManager._paintContext()`. */
  function OrProvided(given: Option<PaintContext>, provided: PaintContext): (r: PaintContext)
    ensures given.Some? ==> r == given.value
    ensures given.None? ==> r == provided
  {
    if given.Some? then given.value else provided
  }
  /** The walk over the 2 by 2 tile range at the origin, for 256-pixel tiles at zoom 10, part 0. */
  lemma TwoByTwoWalk(ranges: seq<Bounds>)
    requires ranges == [Bounds(Point(0, 0), Point(1, 1))]
    ensures RangesCoords(ranges, Point(256, 256), 10, 0)
      == [Coords(0, 0, 10, 0), Coords(256, 0, 10, 0), Coords(0, 256, 10, 0), Coords(256, 256, 10, 0)]
  {
    var ts, range := Point(256, 256), ranges[0];
    var a, b, c, d := Coords(0, 0, 10, 0), Coords(256, 0, 10, 0), Coords(0, 256, 10, 0), Coords(256, 256, 10, 0);
    assert Row(0, 0, 2, ts, 10, 0) == [a, b] by {
      assert Row(0, 0, 1, ts, 10, 0) == [a];
    }
    assert Row(1, 0, 2, ts, 10, 0) == [c, d] by {
      assert Row(1, 0, 1, ts, 10, 0) == [c];
    }
    assert Rows(range, 2, ts, 10, 0) == [a, b, c, d] by {
      assert Rows(range, 1, ts, 10, 0) == [a, b];
    }
    assert ranges[..0] == [];
  }

  /**
   * A 512 by 512 single-pane view over 256-pixel tiles needs the four tiles
   * of a 2 by 2 range, in row-major order. With the bottom-right one not
   * loaded, not all tiles are in, and `onDraw` paints the other three.
   */
  lemma FourTileView(doc: DocLayer, ctx: PaintContext)
    requires doc.layout == Flat && ctx.tileSize == Point(256, 256) && |ctx.paneBoundsList| == 1
    requires doc.toTileRange(ctx.paneBoundsList[0]) == Bounds(Point(0, 0), Point(1, 1))
    requires IsLoaded(doc.tiles, Coords(0, 0, 10, 0)) && IsLoaded(doc.tiles, Coords(256, 0, 10, 0))
    requires IsLoaded(doc.tiles, Coords(0, 256, 10, 0)) && !IsLoaded(doc.tiles, Coords(256, 256, 10, 0))
    requires forall c :: doc.isValidTile(c)
    ensures ViewCoords(doc, ctx, 10, 0)
      == [Coords(0, 0, 10, 0), Coords(256, 0, 10, 0), Coords(0, 256, 10, 0), Coords(256, 256, 10, 0)]
    ensures FirstMissing(doc.tiles, ViewCoords(doc, ctx, 10, 0)) == 3
    ensures DrawList(doc, ViewCoords(doc, ctx, 10, 0)) == [Coords(0, 0, 10, 0), Coords(256, 0, 10, 0), Coords(0, 256, 10, 0)]
  {
    var a, b, c, d := Coords(0, 0, 10, 0), Coords(256, 0, 10, 0), Coords(0, 256, 10, 0), Coords(256, 256, 10, 0);
    var ranges := TileRanges(ctx.paneBoundsList, doc.toTileRange);
    assert ranges == [Bounds(Point(0, 0), Point(1, 1))];
    TwoByTwoWalk(ranges);
    var cs := [a, b, c, d];
    assert cs[0] == a && cs[1] == b && cs[2] == c && cs[3] == d;
    assert FirstMissing(doc.tiles, cs) == 3;
    ThreeOfFourDrawn(doc, a, b, c, d);
  }

  /** Four distinct keys of which only the last is not drawable: the draw list is the first three. */
  lemma ThreeOfFourDrawn(doc: DocLayer, a: Coords, b: Coords, c: Coords, d: Coords)
    requires a != b && a != c && b != c
    requires Drawable(doc, a) && Drawable(doc, b) && Drawable(doc, c) && !Drawable(doc, d)
    ensures DrawList(doc, [a, b, c, d]) == [a, b, c]
  {
    assert DrawList(doc, [a]) == [a] by { assert [a][..0] == []; }
    assert DrawList(doc, [a, b]) == [a, b] by { assert [a, b][..1] == [a]; }
    assert DrawList(doc, [a, b, c]) == [a, b, c] by { assert [a, b, c][..2] == [a, b]; }
    assert DrawList(doc, [a, b, c, d]) == [a, b, c] by { assert [a, b, c, d][..3] == [a, b, c]; }
  }
}
