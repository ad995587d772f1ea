/**
 * The zoom-frame tile source: `getTileIntersectionAreaFraction`, the
 * per-level missing-area score that `zoomLevelWithMaxContentInArea`
 * accumulates through `forEachTileInArea`, and the selection of the level
 * with the lowest score.
 */
module ZoomSelection {
  import opened Wrappers
  import opened Geometry
  import opened Tiles

  /** A point in core pixels at a zoom level that need not be the current one (`L.Point` with fractions). */
  datatype RPoint = RPoint(x: real, y: real)

  /** An `L.Bounds` over real coordinates. */
  datatype RBounds = RBounds(min: RPoint, max: RPoint)

  function RMax(a: real, b: real): real { if a >= b then a else b }

  function RMin(a: real, b: real): real { if a <= b then a else b }

  /** `getSize()`. */
  function RWidth(b: RBounds): real { b.max.x - b.min.x }

  function RHeight(b: RBounds): real { b.max.y - b.min.y }

  /**
   * `getTileIntersectionAreaFraction` as evidently intended: the part of the
   * tile's area that the view covers, with the overlap's extents clamped at
   * 0; 0 for a tile of no area. The rest of the model uses this definition.
   */
  function IntersectionAreaFraction(tile: RBounds, view: RBounds): real {
    var w, h := RWidth(tile), RHeight(tile);
    if w <= 0.0 || h <= 0.0 then 0.0
    else
      var iw := RMin(tile.max.x, view.max.x) - RMax(tile.min.x, view.min.x);
      var ih := RMin(tile.max.y, view.max.y) - RMax(tile.min.y, view.min.y);
      Ratio(RMax(0.0, iw), RMax(0.0, ih), w, h)
  }

  /** The area `iw * ih` as a part of the area `w * h`. */
  function Ratio(iw: real, ih: real, w: real, h: real): real
    requires w * h != 0.0
  {
    iw * ih / (w * h)
  }

  /** The view covers all of the tile. */
  predicate RInside(tile: RBounds, view: RBounds) {
    view.min.x <= tile.min.x && tile.max.x <= view.max.x && view.min.y <= tile.min.y && tile.max.y <= view.max.y
  }

  /** The tile and the view share no area. */
  predicate RDisjoint(tile: RBounds, view: RBounds) {
    tile.max.x <= view.min.x || view.max.x <= tile.min.x || tile.max.y <= view.min.y || view.max.y <= tile.min.y
  }

  lemma MulMono(a: real, b: real, c: real, d: real)
    requires 0.0 <= a <= c && 0.0 <= b <= d
    ensures a * b <= c * d
  {
    assert a * b <= c * b;
    assert c * b <= c * d;
  }

  /** A covered part of at most the whole, as a fraction of the whole. */
  lemma ProductFraction(iw: real, ih: real, w: real, h: real)
    requires 0.0 <= iw <= w && 0.0 <= ih <= h && w > 0.0 && h > 0.0
    ensures w * h != 0.0
    ensures 0.0 <= Ratio(iw, ih, w, h) <= 1.0
    ensures iw == w && ih == h ==> Ratio(iw, ih, w, h) == 1.0
    ensures iw == 0.0 || ih == 0.0 ==> Ratio(iw, ih, w, h) == 0.0
  {
    MulMono(iw, ih, w, h);
    MulMono(0.0, 0.0, iw, ih);
    var p, q := iw * ih, w * h;
    assert q > 0.0 by {
      assert w * h >= w * 0.0 && w * h != 0.0;
    }
    assert p / q * q == p;
  }

  /** The clipped extents of `getTileIntersectionAreaFraction` lie between 0 and the tile's. */
  lemma ClippedExtents(tile: RBounds, view: RBounds)
    requires RWidth(tile) > 0.0 && RHeight(tile) > 0.0
    ensures var iw := RMax(0.0, RMin(tile.max.x, view.max.x) - RMax(tile.min.x, view.min.x));
      var ih := RMax(0.0, RMin(tile.max.y, view.max.y) - RMax(tile.min.y, view.min.y));
      && 0.0 <= iw <= RWidth(tile) && 0.0 <= ih <= RHeight(tile)
      && (RInside(tile, view) ==> iw == RWidth(tile) && ih == RHeight(tile))
      && (RDisjoint(tile, view) ==> iw == 0.0 || ih == 0.0)
  {
  }

  /**
   * The fraction is 0 for a tile without area, lies in [0, 1] for every
   * view, is 1 when the view covers the tile and 0 when they are disjoint.
   */
  lemma FractionSpec(tile: RBounds, view: RBounds)
    ensures RWidth(tile) <= 0.0 || RHeight(tile) <= 0.0 ==> IntersectionAreaFraction(tile, view) == 0.0
    ensures 0.0 <= IntersectionAreaFraction(tile, view) <= 1.0
    ensures RWidth(tile) > 0.0 && RHeight(tile) > 0.0 && RInside(tile, view) ==> IntersectionAreaFraction(tile, view) == 1.0
    ensures RDisjoint(tile, view) ==> IntersectionAreaFraction(tile, view) == 0.0
  {
    var w, h := RWidth(tile), RHeight(tile);
    if w > 0.0 && h > 0.0 {
      var iw := RMax(0.0, RMin(tile.max.x, view.max.x) - RMax(tile.min.x, view.min.x));
      var ih := RMax(0.0, RMin(tile.max.y, view.max.y) - RMax(tile.min.y, view.min.y));
      ClippedExtents(tile, view);
      ProductFraction(iw, ih, w, h);
      assert IntersectionAreaFraction(tile, view) == Ratio(iw, ih, w, h);
    }
  }

  /** `new L.Bounds(p1, p2)`: Leaflet extends empty bounds by both points, so the corners come out sorted per axis. */
  function BoundsOf(p1: RPoint, p2: RPoint): (b: RBounds)
    ensures b.min.x <= b.max.x && b.min.y <= b.max.y
    ensures (b.min.x == p1.x && b.max.x == p2.x) || (b.min.x == p2.x && b.max.x == p1.x)
    ensures (b.min.y == p1.y && b.max.y == p2.y) || (b.min.y == p2.y && b.max.y == p1.y)
  {
    RBounds(RPoint(RMin(p1.x, p2.x), RMin(p1.y, p2.y)), RPoint(RMax(p1.x, p2.x), RMax(p1.y, p2.y)))
  }

  /**
   * `getTileIntersectionAreaFraction` as written: the intersection is built
   * with `new L.Bounds`, which sorts its corners, so its size is never
   * negative and the `Math.max(0, ...)` clamp never applies.
   */
  function SortedCornersFraction(tile: RBounds, view: RBounds): real {
    var w, h := RWidth(tile), RHeight(tile);
    if w <= 0.0 || h <= 0.0 then 0.0
    else
      var inter := BoundsOf(RPoint(RMax(tile.min.x, view.min.x), RMax(tile.min.y, view.min.y)),
                            RPoint(RMin(tile.max.x, view.max.x), RMin(tile.max.y, view.max.y)));
      Ratio(RMax(0.0, RWidth(inter)), RMax(0.0, RHeight(inter)), w, h)
  }

  /** Where the tile and the view meet or touch on both axes, the code as written computes the intended fraction. */
  lemma SortedCornersAgree(tile: RBounds, view: RBounds)
    requires RMax(tile.min.x, view.min.x) <= RMin(tile.max.x, view.max.x)
    requires RMax(tile.min.y, view.min.y) <= RMin(tile.max.y, view.max.y)
    ensures SortedCornersFraction(tile, view) == IntersectionAreaFraction(tile, view)
  {
  }

  /**
   * A 10 by 10 tile at the origin and a view at (100, 100)..(200, 200) share
   * nothing, yet the code as written scores the tile 81, the gap area over
   * the tile's; the intended fraction is 0.
   */
  lemma SortedCornersDisjointGap()
    ensures var tile := RBounds(RPoint(0.0, 0.0), RPoint(10.0, 10.0));
      var view := RBounds(RPoint(100.0, 100.0), RPoint(200.0, 200.0));
      && RDisjoint(tile, view)
      && SortedCornersFraction(tile, view) == 81.0
      && IntersectionAreaFraction(tile, view) == 0.0
  {
    var tile := RBounds(RPoint(0.0, 0.0), RPoint(10.0, 10.0));
    var view := RBounds(RPoint(100.0, 100.0), RPoint(200.0, 200.0));
    var inter := BoundsOf(RPoint(100.0, 100.0), RPoint(10.0, 10.0));
    assert inter == RBounds(RPoint(10.0, 10.0), RPoint(100.0, 100.0));
    assert SortedCornersFraction(tile, view) == Ratio(90.0, 90.0, 10.0, 10.0);
    assert Ratio(90.0, 90.0, 10.0, 10.0) == 8100.0 / 100.0;
  }

  /**
   * Whether `forEachTileInArea` hands its callback a loaded tile: the map's
   * tile when there is one, otherwise a bitmap of the tile cache, which
   * counts as loaded.
   */
  predicate Available(doc: DocLayer, c: Coords) {
    if c in doc.tiles then doc.tiles[c].loaded else c in doc.tileCache
  }

  /**
   * The collaborators of `zoomLevelWithMaxContentInArea` that rest on
   * floating-point zoom math or on the document layer's own code, each for
   * a level `zoom`: `scaleBoundsForZoom(area, zoom, areaZoom)`,
   * `_pxBoundsToTileRange`, `_updateFileBasedView(true, area, zoom)`, the
   * rounded page height `partHeightPixels` at that level, and
   * `Math.round(score * dimensionCorrection * dimensionCorrection / 100)`.
   */
  datatype ZoomEnv = ZoomEnv(
    scaleTo: (RBounds, int) -> RBounds,
    pxBoundsToTileRange: RBounds -> Bounds,
    stripCoords: (RBounds, int) -> seq<Coords>,
    stripPartHeight: int -> int,
    rescale: (int, real) -> int)

  /** The coordinates `forEachTileInArea` visits for `area` at `zoom`; its callback's answer never stops it. */
  function AreaWalk(doc: DocLayer, env: ZoomEnv, area: RBounds, ts: Point, zoom: int, part: int): seq<Coords> {
    if doc.layout.PageStrip? then env.stripCoords(area, zoom)
    else RangeCoords(env.pxBoundsToTileRange(area), ts, zoom, part)
  }

  /** The page height the score callback stacks parts by, on the page strip only. */
  function StripHeight(doc: DocLayer, env: ZoomEnv, zoom: int): Option<int> {
    if doc.layout.PageStrip? then Some(env.stripPartHeight(zoom)) else None
  }

  /** The bounds the score callback gives a missing tile: its position, moved down by its page on the page strip. */
  function TileRBounds(c: Coords, ts: Point, strip: Option<int>): RBounds {
    var y := if strip.Some? then c.part * strip.value + c.y else c.y;
    RBounds(RPoint(c.x as real, y as real), RPoint((c.x + ts.x) as real, (y + ts.y) as real))
  }

  /** What the score callback adds for `c`: the covered fraction of a missing tile at a non-negative position. */
  function MissedPart(doc: DocLayer, c: Coords, ts: Point, strip: Option<int>, area: RBounds): real {
    if !Available(doc, c) && c.x >= 0 && c.y >= 0 then IntersectionAreaFraction(TileRBounds(c, ts, strip), area) else 0.0
  }

  /** The raw missing-area score of a walk. */
  function MissingSum(doc: DocLayer, cs: seq<Coords>, ts: Point, strip: Option<int>, area: RBounds): real {
    if cs == [] then 0.0
    else MissingSum(doc, cs[..|cs| - 1], ts, strip, area) + MissedPart(doc, cs[|cs| - 1], ts, strip, area)
  }

  /** `hasTiles` after a walk. */
  function HasAvailable(doc: DocLayer, cs: seq<Coords>): bool {
    if cs == [] then false else HasAvailable(doc, cs[..|cs| - 1]) || Available(doc, cs[|cs| - 1])
  }

  /** `hasTiles` ends true exactly when the walk met a loaded tile. */
  lemma {:induction false} HasAvailableSpec(doc: DocLayer, cs: seq<Coords>)
    ensures HasAvailable(doc, cs) <==> exists k :: 0 <= k < |cs| && Available(doc, cs[k])
  {
    if cs != [] {
      var prev := cs[..|cs| - 1];
      HasAvailableSpec(doc, prev);
      if exists k :: 0 <= k < |cs| && Available(doc, cs[k]) {
        var k :| 0 <= k < |cs| && Available(doc, cs[k]);
        if k < |prev| {
          assert prev[k] == cs[k];
        }
      }
    }
  }

  /** Each tile adds at most one whole tile to the raw score: it lies between 0 and the walk's length. */
  lemma {:induction false} MissingSumBounds(doc: DocLayer, cs: seq<Coords>, ts: Point, strip: Option<int>, area: RBounds)
    ensures 0.0 <= MissingSum(doc, cs, ts, strip, area) <= |cs| as real
  {
    if cs != [] {
      var c := cs[|cs| - 1];
      MissingSumBounds(doc, cs[..|cs| - 1], ts, strip, area);
      FractionSpec(TileRBounds(c, ts, strip), area);
    }
  }

  /** A walk of loaded tiles only scores 0. */
  lemma {:induction false} MissingSumAllAvailable(doc: DocLayer, cs: seq<Coords>, ts: Point, strip: Option<int>, area: RBounds)
    requires forall k :: 0 <= k < |cs| ==> Available(doc, cs[k])
    ensures MissingSum(doc, cs, ts, strip, area) == 0.0
  {
    if cs != [] {
      MissingSumAllAvailable(doc, cs[..|cs| - 1], ts, strip, area);
    }
  }

  /** The lower-is-better score of a level: the rescaled missing area, or `Infinity` when no loaded tile was met. */
  datatype Score = Finite(value: int) | Infinite

  /** `a < b` on scores, with `Infinity < Infinity` false. */
  predicate Less(a: Score, b: Score) {
    a.Finite? && (b.Infinite? || a.value < b.value)
  }

  /** The score of level `zoom` for the area already scaled to it. */
  function ScoreOf(doc: DocLayer, env: ZoomEnv, areaAtZoom: RBounds, ts: Point, zoom: int, part: int): Score {
    var walk := AreaWalk(doc, env, areaAtZoom, ts, zoom, part);
    if HasAvailable(doc, walk)
    then Finite(env.rescale(zoom, MissingSum(doc, walk, ts, StripHeight(doc, env, zoom), areaAtZoom)))
    else Infinite
  }

  /** A level scores `Infinity` exactly when none of the tiles it visits is loaded. */
  lemma ScoreInfinite(doc: DocLayer, env: ZoomEnv, areaAtZoom: RBounds, ts: Point, zoom: int, part: int)
    ensures var walk := AreaWalk(doc, env, areaAtZoom, ts, zoom, part);
      ScoreOf(doc, env, areaAtZoom, ts, zoom, part).Infinite? <==> forall k :: 0 <= k < |walk| ==> !Available(doc, walk[k])
  {
    HasAvailableSpec(doc, AreaWalk(doc, env, areaAtZoom, ts, zoom, part));
  }

  /**
   * The callback of the score walk for one coordinate: a missing tile at a
   * non-negative position adds its covered fraction, a loaded one sets
   * `hasTiles`.
   */
  method ScoreVisited(doc: DocLayer, c: Coords, ts: Point, strip: Option<int>, area: RBounds,
                      missing: real, hasTiles: bool, ghost seen: seq<Coords>)
    returns (missing': real, hasTiles': bool)
    requires missing == MissingSum(doc, seen, ts, strip, area) && hasTiles == HasAvailable(doc, seen)
    ensures missing' == MissingSum(doc, seen + [c], ts, strip, area) && hasTiles' == HasAvailable(doc, seen + [c])
  {
    assert (seen + [c])[..|seen|] == seen;
    missing', hasTiles' := missing, hasTiles;
    if !Available(doc, c) {
      if c.x < 0 || c.y < 0 {
        return;
      }
      missing' := missing + IntersectionAreaFraction(TileRBounds(c, ts, strip), area);
    } else if !hasTiles {
      hasTiles' := true;
    }
  }

  /**
   * One level of `zoomLevelWithMaxContentInArea`: the `forEachTileInArea`
   * walk over the area at `zoom` with the score callback, then the
   * rescaled score, or `Infinity` when no loaded tile was met.
   */
  method LevelScore(doc: DocLayer, env: ZoomEnv, areaAtZoom: RBounds, ts: Point, zoom: int, part: int)
    returns (s: Score)
    ensures s == ScoreOf(doc, env, areaAtZoom, ts, zoom, part)
  {
    var missing, hasTiles;
    var strip := StripHeight(doc, env, zoom);
    if doc.layout.PageStrip? {
      missing, hasTiles := ScanList(doc, env.stripCoords(areaAtZoom, zoom), ts, strip, areaAtZoom);
    } else {
      missing, hasTiles := ScanRange(doc, env.pxBoundsToTileRange(areaAtZoom), ts, zoom, part, strip, areaAtZoom);
    }
    s := if hasTiles then Finite(env.rescale(zoom, missing)) else Infinite;
  }

  /** The page-strip walk of `forEachTileInArea`: the score callback over the given coordinate list, in order. */
  method ScanList(doc: DocLayer, coordList: seq<Coords>, ts: Point, strip: Option<int>, area: RBounds)
    returns (missing: real, hasTiles: bool)
    ensures missing == MissingSum(doc, coordList, ts, strip, area) && hasTiles == HasAvailable(doc, coordList)
  {
    missing, hasTiles := 0.0, false;
    for k := 0 to |coordList|
      invariant missing == MissingSum(doc, coordList[..k], ts, strip, area)
      invariant hasTiles == HasAvailable(doc, coordList[..k])
    {
      assert coordList[..k + 1] == coordList[..k] + [coordList[k]];
      missing, hasTiles := ScoreVisited(doc, coordList[k], ts, strip, area, missing, hasTiles, coordList[..k]);
    }
    assert coordList[..|coordList|] == coordList;
  }

  /** The flat walk of `forEachTileInArea`: the score callback over the tile range, row by row. */
  method ScanRange(doc: DocLayer, tileRange: Bounds, ts: Point, zoom: int, part: int, strip: Option<int>, area: RBounds)
    returns (missing: real, hasTiles: bool)
    ensures var walk := RangeCoords(tileRange, ts, zoom, part);
      missing == MissingSum(doc, walk, ts, strip, area) && hasTiles == HasAvailable(doc, walk)
  {
    missing, hasTiles := 0.0, false;
    ghost var ranges := [tileRange];
    var j := tileRange.min.y;
    assert Walked(ranges, 0, j, tileRange.min.x, ts, zoom, part) == [];
    while j <= tileRange.max.y
      invariant tileRange.min.y <= j && (j <= tileRange.max.y + 1 || j == tileRange.min.y)
      invariant missing == MissingSum(doc, Walked(ranges, 0, j, tileRange.min.x, ts, zoom, part), ts, strip, area)
      invariant hasTiles == HasAvailable(doc, Walked(ranges, 0, j, tileRange.min.x, ts, zoom, part))
    {
      missing, hasTiles := ScanRow(doc, tileRange, j, ts, zoom, part, strip, area, missing, hasTiles);
      j := j + 1;
    }
    WalkedRangeDone(ranges, 0, j, ts, zoom, part);
    assert ranges[..1] == ranges;
    assert RangesCoords(ranges, ts, zoom, part) == RangeCoords(tileRange, ts, zoom, part);
  }

  /** Row `j` of the flat walk of `forEachTileInArea`, continuing the score of the rows above it. */
  method ScanRow(doc: DocLayer, tileRange: Bounds, j: int, ts: Point, zoom: int, part: int, strip: Option<int>,
                 area: RBounds, missing0: real, hasTiles0: bool)
    returns (missing: real, hasTiles: bool)
    requires tileRange.min.y <= j <= tileRange.max.y
    requires var seen := Walked([tileRange], 0, j, tileRange.min.x, ts, zoom, part);
      missing0 == MissingSum(doc, seen, ts, strip, area) && hasTiles0 == HasAvailable(doc, seen)
    ensures var seen := Walked([tileRange], 0, j + 1, tileRange.min.x, ts, zoom, part);
      missing == MissingSum(doc, seen, ts, strip, area) && hasTiles == HasAvailable(doc, seen)
  {
    ghost var ranges := [tileRange];
    missing, hasTiles := missing0, hasTiles0;
    var i := tileRange.min.x;
    while i <= tileRange.max.x
      invariant tileRange.min.x <= i && (i <= tileRange.max.x + 1 || i == tileRange.min.x)
      invariant missing == MissingSum(doc, Walked(ranges, 0, j, i, ts, zoom, part), ts, strip, area)
      invariant hasTiles == HasAvailable(doc, Walked(ranges, 0, j, i, ts, zoom, part))
    {
      var coords := TileAt(i, j, ts, zoom, part);
      WalkedNext(ranges, 0, j, i, ts, zoom, part);
      missing, hasTiles := ScoreVisited(doc, coords, ts, strip, area, missing, hasTiles, Walked(ranges, 0, j, i, ts, zoom, part));
      i := i + 1;
    }
    WalkedRowDone(ranges, 0, j, i, ts, zoom, part);
  }

  /** The area with its top-left clamped to the document origin, as `zoomLevelWithMaxContentInArea` first does. */
  function ClampArea(area: RBounds): (r: RBounds)
    ensures r.min.x >= 0.0 && r.min.y >= 0.0 && r.max == area.max
    ensures area.min.x >= 0.0 ==> r.min.x == area.min.x
    ensures area.min.y >= 0.0 ==> r.min.y == area.min.y
    ensures r.min.x == 0.0 || r.min.x == area.min.x
    ensures r.min.y == 0.0 || r.min.y == area.min.y
  {
    RBounds(RPoint(RMax(area.min.x, 0.0), RMax(area.min.y, 0.0)), area.max)
  }

  /** `Math.abs(targetZoom - z)`. */
  function Dist(target: real, z: real): real {
    if target >= z then target - z else z - target
  }

  /** The score of level `z` for the clamped `area`. */
  function LevelAt(doc: DocLayer, env: ZoomEnv, area: RBounds, ts: Point, part: int, z: int): Score {
    ScoreOf(doc, env, env.scaleTo(area, z), ts, z, part)
  }

  /**
   * `level` wins among `lo..hi`: no level scores lower, every level with the
   * same score is at least as far from `target`, and one that comes before
   * it is strictly farther.
   */
  ghost predicate Wins(doc: DocLayer, env: ZoomEnv, area: RBounds, ts: Point, part: int,
                       lo: int, hi: int, target: real, level: int)
  {
    var best := LevelAt(doc, env, area, ts, part, level);
    && lo <= level <= hi
    && best.Finite?
    && forall z :: lo <= z <= hi ==>
         var s := LevelAt(doc, env, area, ts, part, z);
         && !Less(s, best)
         && (s == best ==> Dist(target, level as real) <= Dist(target, z as real))
         && (s == best && z < level ==> Dist(target, level as real) < Dist(target, z as real))
  }

  /** At most one level wins: the choice is fully determined by the scores and the target. */
  lemma WinsUnique(doc: DocLayer, env: ZoomEnv, area: RBounds, ts: Point, part: int,
                   lo: int, hi: int, target: real, l1: int, l2: int)
    requires Wins(doc, env, area, ts, part, lo, hi, target, l1)
    requires Wins(doc, env, area, ts, part, lo, hi, target, l2)
    ensures l1 == l2
  {
    var s1, s2 := LevelAt(doc, env, area, ts, part, l1), LevelAt(doc, env, area, ts, part, l2);
    assert !Less(s1, s2) && !Less(s2, s1);
    assert s1 == s2;
  }

  /**
   * What the loop of `zoomLevelWithMaxContentInArea` knows after scoring the
   * levels `lo..zoom-1`: while the best score is `Infinity` the answer is
   * still `target` and every level so far scored `Infinity`; otherwise the
   * answer is `level`, which wins among the levels so far.
   */
  ghost predicate Scanned(doc: DocLayer, env: ZoomEnv, area: RBounds, ts: Point, part: int,
                          lo: int, zoom: int, target: real, best: Score, bestZoom: real, level: int)
  {
    && (best.Infinite? ==>
          bestZoom == target && forall z :: lo <= z < zoom ==> LevelAt(doc, env, area, ts, part, z).Infinite?)
    && (best.Finite? ==>
          bestZoom == level as real && best == LevelAt(doc, env, area, ts, part, level)
          && Wins(doc, env, area, ts, part, lo, zoom - 1, target, level))
  }

  /** Scoring level `zoom` and keeping it exactly when it beats the best so far extends the scan by one level. */
  lemma ScannedStep(doc: DocLayer, env: ZoomEnv, area: RBounds, ts: Point, part: int,
                    lo: int, zoom: int, target: real, best: Score, bestZoom: real, level: int)
    requires lo <= zoom
    requires Scanned(doc, env, area, ts, part, lo, zoom, target, best, bestZoom, level)
    ensures var score := LevelAt(doc, env, area, ts, part, zoom);
      var take := Less(score, best) || (score == best && Dist(target, bestZoom) > Dist(target, zoom as real));
      Scanned(doc, env, area, ts, part, lo, zoom + 1, target,
              if take then score else best, if take then zoom as real else bestZoom, if take then zoom else level)
  {
  }

  /**
   * `zoomLevelWithMaxContentInArea`: every level from `minZoom` to `maxZoom`
   * is scored, and a level replaces the best so far only when it scores
   * strictly lower, or the same and strictly closer to `targetZoom`. When
   * every level scores `Infinity` the answer is `targetZoom` itself;
   * otherwise it is the one winning level.
   */
  method ZoomLevelWithMaxContentInArea(doc: DocLayer, env: ZoomEnv, area: RBounds, ts: Point, part: int,
                                       minZoom: int, maxZoom: int, targetZoom: real)
    returns (bestZoomLevel: real, ghost level: int)
    ensures (forall z :: minZoom <= z <= maxZoom ==> LevelAt(doc, env, ClampArea(area), ts, part, z).Infinite?) ==>
      bestZoomLevel == targetZoom
    ensures (exists z :: minZoom <= z <= maxZoom && LevelAt(doc, env, ClampArea(area), ts, part, z).Finite?) ==>
      bestZoomLevel == level as real && Wins(doc, env, ClampArea(area), ts, part, minZoom, maxZoom, targetZoom, level)
  {
    var clamped := area;
    if clamped.min.x < 0.0 {
      clamped := clamped.(min := clamped.min.(x := 0.0));
    }
    if clamped.min.y < 0.0 {
      clamped := clamped.(min := clamped.min.(y := 0.0));
    }
    assert clamped == ClampArea(area);
    bestZoomLevel := targetZoom;
    var bestScore := Infinite;
    level := minZoom;
    var zoom := minZoom;
    while zoom <= maxZoom
      invariant minZoom <= zoom && (zoom <= maxZoom + 1 || zoom == minZoom)
      invariant Scanned(doc, env, clamped, ts, part, minZoom, zoom, targetZoom, bestScore, bestZoomLevel, level)
    {
      var areaAtZoom := env.scaleTo(clamped, zoom);
      var score := LevelScore(doc, env, areaAtZoom, ts, zoom, part);
      ScannedStep(doc, env, clamped, ts, part, minZoom, zoom, targetZoom, bestScore, bestZoomLevel, level);
      if Less(score, bestScore) || (score == bestScore && Dist(targetZoom, bestZoomLevel) > Dist(targetZoom, zoom as real)) {
        bestScore := score;
        bestZoomLevel := zoom as real;
        level := zoom;
      }
      zoom := zoom + 1;
    }
  }

  /** A lone level with a loaded tile is chosen, whatever the target. */
  lemma LoneFiniteWins(doc: DocLayer, env: ZoomEnv, area: RBounds, ts: Point, part: int,
                       lo: int, hi: int, target: real, level: int)
    requires lo <= level <= hi
    requires LevelAt(doc, env, area, ts, part, level).Finite?
    requires forall z :: lo <= z <= hi && z != level ==> LevelAt(doc, env, area, ts, part, z).Infinite?
    ensures Wins(doc, env, area, ts, part, lo, hi, target, level)
  {
  }
}
