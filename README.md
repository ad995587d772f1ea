# TilesSection compositor model

A Dafny model of `TilesSection`, the tile compositor of the LibreOffice Online
browser client (`loleaflet/src/layer/tile/TilesSection.ts`). The compositor
takes bitmap tiles from the document layer's tile store. It draws them on the
shared main canvas and on four offscreen canvases, one for each split pane.
While a zoom animation runs, it also chooses the zoom level whose tiles best
cover an area.

The model has six modules:

- `Geometry`: integer points and bounds, and the crop (componentwise intersection) of two bounds.
- `Tiles`: tile coordinates, and the tile store and its collaborators (`DocLayer`).
  - The row-major walk of `forEachTileInView` over the panes' tile ranges, and the page-strip coordinate list.
  - `haveAllTilesInView`, with its nested loops and its early stop at the first missing tile.
  - `DrawList`: the de-duplicated list of tiles that `onDraw` paints.
- `Drawing`: each canvas is an append-only log of drawing commands.
  - `Fill` is a `fillRect` with the clear colour.
  - `Grid` is a call of the grid section's `onDrawArea`.
  - `Blit` and `Draw` are `drawImage` calls.
  - Pure functions give the commands each drawing routine leaves on each canvas:
    - `drawTileInPane` (`TileInPane`);
    - a pane of `paintWithPanes`;
    - `paintSimple`;
    - `paint`;
    - `extendedPaneBounds`.
- `Compositor`: the `TilesSection` class.
  - Its fields are the main canvas log, the offscreen canvases, the section size and `osCanvasExtraSize`.
  - Its methods are:
    - `onInitialize`, `onResize`;
    - `drawTileInPane`, `paintWithPanes`, `paintSimple`, `paint`;
    - `onDraw`, with its `forEachTileInView` walk and its `doneTiles` set;
    - the guard prefix of `drawZoomFrame`.
  - Each method is proved against the functions of `Drawing` and `Tiles`.
- `ZoomSelection`:
  - `getTileIntersectionAreaFraction` over reals.
  - The missing-area score of one zoom level, accumulated through the `forEachTileInArea` walk.
  - `zoomLevelWithMaxContentInArea`, the selection loop that keeps the best level seen so far.
- `Wrappers`: `Option`.

External answers are fixed values or given functions:

- `Host` holds the section container's and painter's answers:
  - `isInZoomAnimation`, `isZoomChanged`, `waitForTiles`;
  - the clear colour and the rounded map zoom;
  - `_paintContext()`;
  - `L.Bounds.intersects`.
- `DocLayer` holds:
  - `_tiles` and the keys `_tileCache` holds;
  - `_pxBoundsToTileRange` and `_isValidTile`;
  - `_selectedPart`;
  - the split-panes context;
  - the page-strip layout (`app.file.fileBasedView`).
- `ZoomEnv` holds the floating-point zoom helpers of the zoom-level selection.

Coordinates are integers. Rounding (`Bounds.round()`, `Math.round`) is outside
the model. The split position is taken as already scaled by `dpiScale`.

In three places the code does something other than what one might expect of it, and the model follows the code:

- One might expect `paint` to hold back only until all tiles are present. It returns whenever `waitForTiles()` holds (line 206). So `onDraw` with `waitForTiles()` and every tile in view only clears the offscreen canvases (`Compositor.WaitingPaintsNothing`).
- One might expect `onDraw` to clear all four offscreen canvases. It clears one per pane of the paint context (lines 290-293).
- One might expect a pane to draw every tile that meets it. It draws a tile only when the crop also has non-zero width and height (line 137). `Drawing.PaneMainSpec` and `Drawing.PaneOffscreenSpec` state the exact condition.

## Model

| member | source | states |
|---|---|---|
| Geometry.Crop | loleaflet/src/layer/tile/TilesSection.ts:128-135 | the crop holds exactly the points in both bounds; it is no wider or taller than either; its top-left is at or after both; a tile inside the pane is its own crop |
| Drawing.ExtendedPaneBounds | loleaflet/src/layer/tile/TilesSection.ts:68-91 | without a split every edge moves out by the half margin; with a split an axis whose pane min is 0 is unchanged, and a movable axis has min at least the split position (the split or min minus the half margin) and max plus the half margin; the extended bounds contain the pane when the margin is not negative and movable panes start past the split |
| Drawing.TileInPane | loleaflet/src/layer/tile/TilesSection.ts:126-155 | nothing is drawn iff the crop has zero width or height; otherwise the last command blits the crop, taken at its position relative to the tile's top-left, to its position relative to the pane offset, at the crop's size; a clear of the same rectangle and a grid redraw come first exactly when clearBackground, zoom-changed or an offscreen target holds |
| Drawing.MainPaneOffset | loleaflet/src/layer/tile/TilesSection.ts:110-114 | the main-canvas pane offset is, per axis, the lesser of the pane's and the view's top-left |
| Drawing.PaneMainSpec | loleaflet/src/layer/tile/TilesSection.ts:97-117 | pane i draws on the main canvas iff the tile meets the pane with a crop that is not flat, and then blits the crop to its position relative to the pane offset |
| Drawing.PaneOffscreenSpec | loleaflet/src/layer/tile/TilesSection.ts:119-122 | pane i draws on offscreen canvas i iff the tile meets the extended pane with a crop that is not flat (independently of the main canvas), always as clear, grid, blit placed relative to the extended top-left |
| Drawing.PanesMainSpec | loleaflet/src/layer/tile/TilesSection.ts:93-124 | paintWithPanes draws on the main canvas iff some pane draws the tile |
| Drawing.SimpleMain | loleaflet/src/layer/tile/TilesSection.ts:172-203 | paintSimple ends with the whole tile drawn at its view offset (page strip: below its page, at the strip tile size); a clear of the tile area comes first iff the call is async or the zoom changed on a flat layout |
| Drawing.SimpleOffscreen | loleaflet/src/layer/tile/TilesSection.ts:175-201 | offscreen canvas 0 gets the main-canvas drawing moved by the half margin on both axes |
| Drawing.PaintMain | loleaflet/src/layer/tile/TilesSection.ts:205-218 | paint leaves nothing on the main canvas during a zoom animation or while waiting for tiles; otherwise it draws what paintWithPanes draws there iff paneBoundsActive, and what paintSimple draws in every other case |
| Drawing.PaintOffscreen | loleaflet/src/layer/tile/TilesSection.ts:205-218 | paint leaves nothing on any offscreen canvas when suppressed, on canvases past the pane count with panes, and on any canvas but 0 without panes; otherwise canvas i gets pane i's offscreen drawing with panes, and canvas 0 the paintSimple drawing without |
| Tiles.RowsMembers | loleaflet/src/layer/tile/TilesSection.ts:238-251 | the walk over rows of a tile range visits exactly the tiles (i, j) of those rows |
| Tiles.RangeMembers | loleaflet/src/layer/tile/TilesSection.ts:236-253 | the walk over a tile range visits exactly the tiles inside the range |
| Tiles.FirstMissing | loleaflet/src/layer/tile/TilesSection.ts:263-270 | the walk's tiles before the returned index are all loaded and the one at it is missing or not loaded |
| Tiles.HaveAllTilesInView | loleaflet/src/layer/tile/TilesSection.ts:257-273 | the answer is true iff every tile of the view walk is present and loaded; the walk looks up exactly the tiles up to and including the first missing one; absent or zero zoom and part, and an absent context, fall back to the current ones |
| Tiles.AllLoadedInRanges | loleaflet/src/layer/tile/TilesSection.ts:236-253 | the nested range, row and column loops with the early stop answer whether every tile of the ranges is loaded, after exactly the lookups up to the first missing tile |
| Tiles.DrawListSpec | loleaflet/src/layer/tile/TilesSection.ts:297-308 | onDraw paints exactly the walked coordinates that are present, loaded and valid, and none twice |
| Tiles.FourTileView | loleaflet/src/layer/tile/TilesSection.ts:220-309 | a 2 by 2 view of 256-pixel tiles is walked in row-major order; with the last tile missing, three tiles are found loaded first, and onDraw paints those three |
| Compositor.WaitingPaintsNothing | loleaflet/src/layer/tile/TilesSection.ts:205-207 | while the painter waits for tiles, the paint calls of onDraw add nothing to any canvas |
| Compositor.DrawnPaint | loleaflet/src/layer/tile/TilesSection.ts:302-306 | painting a drawable key met for the first time appends its paint to every canvas and keeps the record of what onDraw has drawn |
| Compositor.DrawnSkip | loleaflet/src/layer/tile/TilesSection.ts:298-306 | a key already done, or not drawable, leaves every canvas as it is |
| Compositor.TilesSection.constructor | loleaflet/src/layer/tile/TilesSection.ts:33-48 | a new section has no drawing, no offscreen canvases and size 0 by 0 |
| Compositor.TilesSection.OnResize | loleaflet/src/layer/tile/TilesSection.ts:58-66 | the margin becomes 2 * 3 * tileSize (half of it three tiles); the first four canvases take the section size plus the margin and are blank; nothing else changes |
| Compositor.TilesSection.OnInitialize | loleaflet/src/layer/tile/TilesSection.ts:50-56 | four blank canvases are added and then sized by onResize |
| Compositor.TilesSection.DrawTileInPane | loleaflet/src/layer/tile/TilesSection.ts:126-162 | exactly the target canvas receives the commands of TileInPane |
| Compositor.TilesSection.PaintPane | loleaflet/src/layer/tile/TilesSection.ts:97-123 | one pane adds its main-canvas commands to the main log and its offscreen commands to canvas i only |
| Compositor.TilesSection.PaintWithPanes | loleaflet/src/layer/tile/TilesSection.ts:93-124 | the main log gains the panes' commands in pane order, and each pane's offscreen canvas gains that pane's commands |
| Compositor.TilesSection.PaintSimple | loleaflet/src/layer/tile/TilesSection.ts:172-203 | the main log gains SimpleMain and offscreen canvas 0 gains SimpleOffscreen |
| Compositor.TilesSection.Paint | loleaflet/src/layer/tile/TilesSection.ts:205-218 | the canvases gain PaintMain and PaintOffscreen for the given or provided context: nothing when suppressed, paintWithPanes iff paneBoundsActive, otherwise paintSimple |
| Compositor.TilesSection.ClearPaneCanvases | loleaflet/src/layer/tile/TilesSection.ts:290-293 | the offscreen canvas of each pane gains one clear of its whole area with the clear colour; the others and the main canvas are unchanged |
| Compositor.TilesSection.DrawVisited | loleaflet/src/layer/tile/TilesSection.ts:297-308 | one callback of onDraw extends the record of what has been drawn by one walked key |
| Compositor.TilesSection.DrawView | loleaflet/src/layer/tile/TilesSection.ts:220-255 | the walk of the whole view (page-strip list or pane ranges) paints DrawList of the view walk |
| Compositor.TilesSection.DrawRanges | loleaflet/src/layer/tile/TilesSection.ts:236-253 | the nested loops over the pane ranges paint DrawList of the ranges' walk |
| Compositor.TilesSection.OnDraw | loleaflet/src/layer/tile/TilesSection.ts:275-309 | nothing changes during a zoom animation or when waiting with tiles missing; otherwise each pane's offscreen canvas is cleared, then every canvas gains the paint of each drawable tile of the view once, in walk order; the new state is a function of the old state, the document and the painter's answers, so two runs from the same state append the same commands |
| Compositor.TilesSection.DrawZoomFrame | loleaflet/src/layer/tile/TilesSection.ts:454-473 | nothing happens unless a zoom animation with a non-zero scale and a new centre is under way; then the main canvas is cleared over the whole view |
| ZoomSelection.FractionSpec | loleaflet/src/layer/tile/TilesSection.ts:312-329 | the intended fraction (overlap clamped at 0) is 0 for a tile without area, always in [0, 1], 1 when the view covers the tile and 0 when they are disjoint |
| ZoomSelection.SortedCornersAgree | loleaflet/src/layer/tile/TilesSection.ts:312-329 | when the tile and the view meet or touch on both axes, the fraction as written (intersection built by `new L.Bounds`) equals the intended one |
| ZoomSelection.SortedCornersDisjointGap | loleaflet/src/layer/tile/TilesSection.ts:318-328 | for a tile and a view that share nothing, the fraction as written is the gap area over the tile's (81 for the example), where the intended one is 0 |
| ZoomSelection.HasAvailableSpec | loleaflet/src/layer/tile/TilesSection.ts:431-433 | hasTiles ends true iff the walk met a loaded tile (from the map or the tile cache) |
| ZoomSelection.MissingSumBounds | loleaflet/src/layer/tile/TilesSection.ts:413-429 | the raw missing-area score lies between 0 and the number of walked tiles |
| ZoomSelection.MissingSumAllAvailable | loleaflet/src/layer/tile/TilesSection.ts:413-429 | a walk of loaded tiles only has raw score 0 |
| ZoomSelection.ScoreInfinite | loleaflet/src/layer/tile/TilesSection.ts:437 | a level scores Infinity iff none of the tiles it visits is loaded |
| ZoomSelection.ScoreVisited | loleaflet/src/layer/tile/TilesSection.ts:412-435 | one callback adds the covered fraction of a missing tile at a non-negative position, or notes a loaded tile |
| ZoomSelection.LevelScore | loleaflet/src/layer/tile/TilesSection.ts:401-437 | one level's scoring (the forEachTileInArea walk of the area at that zoom, every tile visited and never stopped, then the rescale or Infinity) yields the level's score ScoreOf |
| ZoomSelection.ScanList | loleaflet/src/layer/tile/TilesSection.ts:335-350 | the page-strip walk over the coordinate list leaves the raw score and hasTiles of exactly that list |
| ZoomSelection.ScanRange | loleaflet/src/layer/tile/TilesSection.ts:352-372 | the flat walk over the tile range, row by row, leaves the raw score and hasTiles of the range's row-major walk |
| ZoomSelection.ScanRow | loleaflet/src/layer/tile/TilesSection.ts:355-371 | one row of the flat walk extends the raw score and hasTiles from the rows above to the rows up to and including it |
| ZoomSelection.ClampArea | loleaflet/src/layer/tile/TilesSection.ts:392-396 | the area's top-left is clamped to non-negative coordinates and nothing else changes |
| ZoomSelection.ZoomLevelWithMaxContentInArea | loleaflet/src/layer/tile/TilesSection.ts:384-451 | when every level scores Infinity the result is targetZoom; otherwise it is the level with the lowest score, closest to targetZoom among equal scores, and the earlier of two equally close |
| ZoomSelection.WinsUnique | loleaflet/src/layer/tile/TilesSection.ts:443-447 | the replacement rule (strictly lower, or equal and strictly closer) determines the winning level uniquely |
| ZoomSelection.LoneFiniteWins | loleaflet/src/layer/tile/TilesSection.ts:437-447 | a single level with loaded tiles wins, whatever the target |

## Findings

| source | as written | input that shows it | evidently intended | confidence | as-written member | corrected member |
|---|---|---|---|---|---|---|
| loleaflet/src/layer/tile/TilesSection.ts:318-328 | the intersection is built with `new L.Bounds`, which sorts its corners, so its size is never negative and `Math.max(0, ...)` never clamps | tile (0,0)..(10,10), view (100,100)..(200,200): the fraction is 81 | the overlap's extents clamped at 0, so the fraction is 0 for a disjoint tile and always in [0, 1] | medium, not executed | ZoomSelection.SortedCornersDisjointGap | ZoomSelection.FractionSpec |

`ZoomSelection.SortedCornersFraction` models the code as written and `ZoomSelection.IntersectionAreaFraction` the intended fraction. They agree whenever the tile meets or touches the view (`ZoomSelection.SortedCornersAgree`). A floor-based `_pxBoundsToTileRange` yields only such tiles, so the gap can appear only for a tile that the range or the page-strip list hands over without meeting the area.

## Left out

- Pixel output: the model records drawing commands, not pixels. The grid section's `onDrawArea` is recorded only as called.
- Rounding and `dpiScale`: `Bounds.round()` has no effect on the integer model. The split position is taken as already scaled.
- The page-strip height and top: `partHeightPixels` (twips ratio and `Math.round`) and `documentTopLeft[1]` are given integers.
- `setPenPosition` is a container call with no effect on what is drawn.
- Debug drawing (lines 157-161, `pdfViewDrawTileBorders`) and `console.log` are not modelled.
- Floating-point zoom math is given through `ZoomEnv`:
  - `getScaleZoom`, `getZoomScale`, `zoomToFactor`;
  - `scaleBoundsForZoom`;
  - the `Math.round(score * dimensionCorrection^2 / 100)` rescaling.
- Zoom levels are integers. A fractional `minZoom` is not modelled.
- `drawZoomFrame` is modelled only up to its guards and its clear of the view (lines 454-473). The per-pane frame drawing (lines 475-558) is not modelled:
  - `_getZoomDocPos`;
  - the scaled blits with their half-pixel nudges;
  - the call of `zoomLevelWithMaxContentInArea`;
  - its `forEachTileInArea` callback, whose `return false` does not stop the walk.
- `_pxBoundsToTileRange` is a given function. For the zoom selection it is given a second time over real bounds (`ZoomEnv.pxBoundsToTileRange`).
- DOM canvas creation and the `2d` context: an offscreen canvas is a size and a log. Resizing a canvas blanks it.
- The empty mouse and touch hooks (lines 577-590) are not modelled.
- LOOLWSD.cpp (the server) is not part of this model.
- Compositor.TilesSection.OnDraw: requires the context to have no more panes than there are offscreen canvases. The source indexes `oscCtxs[i]` and would fail otherwise.
- Compositor.TilesSection.Paint: requires enough offscreen canvases for the context whenever it draws. The source fails in the same way otherwise.
- Compositor.TilesSection.OnResize: requires the four canvases that `onInitialize` creates.
- The painter's answers (`waitForTiles()`, the paint context, the zoom) are fixed for the length of one call.
- ZoomSelection.FractionSpec: states the intended fraction. The score callback (`ZoomSelection.ScoreVisited`, `ZoomSelection.MissedPart`) uses it, and so does `ZoomSelection.MissingSumBounds`. For a tile that does not meet the area, the code as written would add the gap area instead (see "## Findings"). The model does not follow that; the walk's tile range is a given function, so the model does not prove that such a tile never occurs.
- ZoomSelection.ScoreVisited: adds the intended (clamped) fraction for a missing tile, not the as-written one. The two differ only for a tile that does not meet the area.
- `L.Bounds.intersects` is a given function. Of `L.Bounds`, only the two-point constructor is modelled (`ZoomSelection.BoundsOf`, corners sorted per axis). `Drawing.TileBounds` and `ZoomSelection.TileRBounds` build a tile's bounds without sorting, which assumes a non-negative tile size.
