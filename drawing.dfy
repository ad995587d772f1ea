/**
 * What the compositor draws, as command logs: the crop-and-blit of
 * `drawTileInPane`, the pane geometry of `paintWithPanes` (including
 * `extendedPaneBounds`), the offsets of `paintSimple`, and the guards and
 * dispatch of `paint`. Each function gives the commands one canvas
 * receives; the `TilesSection` class appends them.
 */
module Drawing {
  import opened Wrappers
  import opened Geometry
  import opened Tiles

  type Color = string

  /** The x, y, width, height arguments of `fillRect` and `drawImage`. */
  datatype Rect = Rect(x: int, y: int, w: int, h: int)

  /** One call on a canvas context. */
  datatype Command =
    | Fill(area: Rect, color: Color)            // fillStyle := color; fillRect(area)
    | Grid(crop: Bounds, offset: Point)         // calc grid section's onDrawArea(crop, offset, canvas)
    | Blit(source: Coords, src: Rect, dst: Rect) // drawImage(tile.el, src..., dst...)
    | Draw(source: Coords, dst: Rect)           // drawImage(tile.el, dst...)

  /** An offscreen canvas (`offscreenCanvases[i]` with its context `oscCtxs[i]`): its size and what was drawn on it. */
  datatype Canvas = Canvas(width: int, height: int, log: seq<Command>)

  /** The canvas with `cmds` drawn after what it holds. */
  function Appended(c: Canvas, cmds: seq<Command>): (r: Canvas)
    ensures r.width == c.width && r.height == c.height && r.log == c.log + cmds
  {
    c.(log := c.log + cmds)
  }

  /** A canvas: the main context `this.context`, or offscreen canvas `oscCtxs[index]`. */
  datatype Target = Main | Offscreen(index: nat)

  /**
   * Answers of the section container, the painter and Leaflet, fixed for
   * one call: `isInZoomAnimation()`, `isZoomChanged()`, `waitForTiles()`,
   * `getClearColor()`, `Math.round(map.getZoom())`, `_paintContext()`,
   * and `L.Bounds.intersects`.
   */
  datatype Host = Host(
    inZoomAnimation: bool,
    zoomChanged: bool,
    waitForTiles: bool,
    clearColor: Color,
    zoom: int,
    paintContext: PaintContext,
    intersects: (Bounds, Bounds) -> bool)

  /** `tileTopLeft` to `tileTopLeft + tileSize`. */
  function TileBounds(tile: Tile, ts: Point): (b: Bounds)
    ensures b.min == Pos(tile.coords) && Width(b) == ts.x && Height(b) == ts.y
  {
    Bounds(Pos(tile.coords), Add(Pos(tile.coords), ts))
  }

  /**
   * `extendedPaneBounds`: the pane grown by half the offscreen margin. With
   * no split panes every edge moves out; with split panes only an axis on
   * which the pane can move (`paneBounds.min` non-zero) grows, and its
   * minimum is kept at or after the split position.
   */
  function ExtendedPaneBounds(pane: Bounds, half: int, split: Option<Point>): (r: Bounds)
    ensures split.None? ==>
      r.min.x == pane.min.x - half && r.max.x == pane.max.x + half &&
      r.min.y == pane.min.y - half && r.max.y == pane.max.y + half
    ensures split.Some? && pane.min.x == 0 ==> r.min.x == pane.min.x && r.max.x == pane.max.x
    ensures split.Some? && pane.min.y == 0 ==> r.min.y == pane.min.y && r.max.y == pane.max.y
    ensures split.Some? && pane.min.x != 0 ==>
      r.min.x >= split.value.x && r.min.x >= pane.min.x - half &&
      (r.min.x == split.value.x || r.min.x == pane.min.x - half) && r.max.x == pane.max.x + half
    ensures split.Some? && pane.min.y != 0 ==>
      r.min.y >= split.value.y && r.min.y >= pane.min.y - half &&
      (r.min.y == split.value.y || r.min.y == pane.min.y - half) && r.max.y == pane.max.y + half
    ensures half >= 0 && (split.None? ||
      ((pane.min.x == 0 || pane.min.x >= split.value.x) && (pane.min.y == 0 || pane.min.y >= split.value.y)))
      ==> Contains(r, pane)
  {
    match split
    case None =>
      Bounds(Point(pane.min.x - half, pane.min.y - half), Point(pane.max.x + half, pane.max.y + half))
    case Some(sp) =>
      var minX, maxX := if pane.min.x != 0 then Max(sp.x, pane.min.x - half) else pane.min.x,
                        if pane.min.x != 0 then pane.max.x + half else pane.max.x;
      var minY, maxY := if pane.min.y != 0 then Max(sp.y, pane.min.y - half) else pane.min.y,
                        if pane.min.y != 0 then pane.max.y + half else pane.max.y;
      Bounds(Point(minX, minY), Point(maxX, maxY))
  }

  /**
   * `drawTileInPane`: the tile is cropped to the pane and the crop is copied
   * one-to-one to the canvas at `paneOffset`; a clear of the same area and a
   * grid redraw come first when the call is asynchronous, the zoom changed
   * or the target is not the main canvas. A crop of zero width or height
   * draws nothing.
   */
  function TileInPane(tile: Tile, tileBounds: Bounds, paneBounds: Bounds, paneOffset: Point,
                      target: Target, clearBackground: bool, h: Host): (r: seq<Command>)
    ensures var crop := Crop(tileBounds, paneBounds);
      r == [] <==> Width(crop) == 0 || Height(crop) == 0
    ensures r != [] ==> var crop := Crop(tileBounds, paneBounds); var b := r[|r| - 1];
      && b.Blit? && b.source == tile.coords
      && b.src == Rect(crop.min.x - tileBounds.min.x, crop.min.y - tileBounds.min.y, Width(crop), Height(crop))
      && b.dst == Rect(crop.min.x - paneOffset.x, crop.min.y - paneOffset.y, Width(crop), Height(crop))
      && (Width(crop) > 0 && Height(crop) > 0 ==>
            0 <= b.src.x && b.src.x + b.src.w <= Width(tileBounds) &&
            0 <= b.src.y && b.src.y + b.src.h <= Height(tileBounds))
    ensures r != [] && (clearBackground || h.zoomChanged || target != Main) ==>
      |r| == 3 && r[0] == Fill(r[2].dst, h.clearColor) && r[1] == Grid(Crop(tileBounds, paneBounds), paneOffset)
    ensures r != [] && !(clearBackground || h.zoomChanged || target != Main) ==> |r| == 1
  {
    var crop := Crop(tileBounds, paneBounds);
    var cropWidth := crop.max.x - crop.min.x;
    var cropHeight := crop.max.y - crop.min.y;
    if cropWidth != 0 && cropHeight != 0 then
      var dst := Rect(crop.min.x - paneOffset.x, crop.min.y - paneOffset.y, cropWidth, cropHeight);
      var src := Rect(crop.min.x - tileBounds.min.x, crop.min.y - tileBounds.min.y, cropWidth, cropHeight);
      (if clearBackground || h.zoomChanged || target != Main
       then [Fill(dst, h.clearColor), Grid(crop, paneOffset)]
       else [])
      + [Blit(tile.coords, src, dst)]
    else []
  }

  /**
   * The main-canvas offset of a pane: `min(paneTopLeft, viewBounds.min)` per
   * axis. A pane that starts at or after the view's top-left is drawn at
   * its distance from the view; one that starts before it, at its own origin.
   */
  function MainPaneOffset(pane: Bounds, view: Bounds): (off: Point)
    ensures off.x <= pane.min.x && off.x <= view.min.x && (off.x == pane.min.x || off.x == view.min.x)
    ensures off.y <= pane.min.y && off.y <= view.min.y && (off.y == pane.min.y || off.y == view.min.y)
  {
    Point(Min(pane.min.x, view.min.x), Min(pane.min.y, view.min.y))
  }

  /** Pane `i` of `paintWithPanes` draws `tile` on the main canvas: it meets the pane, and the crop is not flat. */
  predicate PaneDraws(tile: Tile, ctx: PaintContext, h: Host, i: nat)
    requires i < |ctx.paneBoundsList|
  {
    var pane, tb := ctx.paneBoundsList[i], TileBounds(tile, ctx.tileSize);
    h.intersects(pane, tb) && Width(Crop(tb, pane)) != 0 && Height(Crop(tb, pane)) != 0
  }

  /** What pane `i` of `paintWithPanes` draws on the main canvas. */
  function PaneMain(tile: Tile, ctx: PaintContext, h: Host, async: bool, i: nat): seq<Command>
    requires i < |ctx.paneBoundsList|
  {
    var pane := ctx.paneBoundsList[i];
    var tb := TileBounds(tile, ctx.tileSize);
    if h.intersects(pane, tb) then TileInPane(tile, tb, pane, MainPaneOffset(pane, ctx.viewBounds), Main, async, h)
    else []
  }

  /**
   * Pane `i` draws on the main canvas exactly when `PaneDraws` holds, and
   * then it copies the crop of the tile to the pane's offset.
   */
  lemma PaneMainSpec(tile: Tile, ctx: PaintContext, h: Host, async: bool, i: nat)
    requires i < |ctx.paneBoundsList|
    ensures PaneMain(tile, ctx, h, async, i) != [] <==> PaneDraws(tile, ctx, h, i)
    ensures var r := PaneMain(tile, ctx, h, async, i);
      r != [] ==> var b := r[|r| - 1]; var off := MainPaneOffset(ctx.paneBoundsList[i], ctx.viewBounds);
      var crop := Crop(TileBounds(tile, ctx.tileSize), ctx.paneBoundsList[i]);
      b.Blit? && b.source == tile.coords && b.dst == Rect(crop.min.x - off.x, crop.min.y - off.y, Width(crop), Height(crop))
  {
  }

  /** What pane `i` of `paintWithPanes` draws on offscreen canvas `i`. */
  function PaneOffscreen(tile: Tile, ctx: PaintContext, h: Host, half: int, split: Option<Point>, async: bool, i: nat): seq<Command>
    requires i < |ctx.paneBoundsList|
  {
    var ext := ExtendedPaneBounds(ctx.paneBoundsList[i], half, split);
    var tb := TileBounds(tile, ctx.tileSize);
    if h.intersects(ext, tb) then TileInPane(tile, tb, ext, ext.min, Offscreen(i), async, h)
    else []
  }

  /**
   * Pane `i` draws on its offscreen canvas when the tile meets the extended
   * pane with a crop that is not flat, and then it always clears the area
   * and redraws the grid before the copy, placed relative to the extended
   * pane's top-left.
   */
  lemma PaneOffscreenSpec(tile: Tile, ctx: PaintContext, h: Host, half: int, split: Option<Point>, async: bool, i: nat)
    requires i < |ctx.paneBoundsList|
    ensures var ext := ExtendedPaneBounds(ctx.paneBoundsList[i], half, split);
      var tb := TileBounds(tile, ctx.tileSize); var crop := Crop(tb, ext);
      var r := PaneOffscreen(tile, ctx, h, half, split, async, i);
      && (r != [] <==> h.intersects(ext, tb) && Width(crop) != 0 && Height(crop) != 0)
      && (r != [] ==>
            && |r| == 3
            && r[0] == Fill(r[2].dst, h.clearColor)
            && r[1] == Grid(crop, ext.min)
            && r[2].Blit? && r[2].dst == Rect(crop.min.x - ext.min.x, crop.min.y - ext.min.y, Width(crop), Height(crop)))
  {
  }

  /** The main-canvas commands of panes 0..k-1 of `paintWithPanes`, in pane order. */
  function PanesMain(tile: Tile, ctx: PaintContext, h: Host, async: bool, k: nat): seq<Command>
    requires k <= |ctx.paneBoundsList|
  {
    if k == 0 then [] else PanesMain(tile, ctx, h, async, k - 1) + PaneMain(tile, ctx, h, async, k - 1)
  }

  /** `paintWithPanes` draws on the main canvas exactly when some pane draws the tile. */
  lemma {:induction false} PanesMainSpec(tile: Tile, ctx: PaintContext, h: Host, async: bool, k: nat)
    requires k <= |ctx.paneBoundsList|
    ensures PanesMain(tile, ctx, h, async, k) != [] <==> exists i :: 0 <= i < k && PaneDraws(tile, ctx, h, i)
  {
    if k > 0 {
      PanesMainSpec(tile, ctx, h, async, k - 1);
      PaneMainSpec(tile, ctx, h, async, k - 1);
      var before, last := PanesMain(tile, ctx, h, async, k - 1), PaneMain(tile, ctx, h, async, k - 1);
      assert PanesMain(tile, ctx, h, async, k) == before + last;
      assert before + last != [] <==> before != [] || last != [];
    }
  }

  /** `paintSimple`'s main-canvas offset: the tile's position in the view (page strip: below its page). */
  function SimpleOffset(tile: Tile, ctx: PaintContext, layout: Layout): Point {
    var x := tile.coords.x - ctx.viewBounds.min.x;
    match layout
    case Flat => Point(x, tile.coords.y - ctx.viewBounds.min.y)
    case PageStrip(partHeight, documentTop, _, _) =>
      Point(x, tile.coords.part * partHeight + tile.coords.y - documentTop)
  }

  /** The drawn size of a tile in `paintSimple`. */
  function SimpleSize(ctx: PaintContext, layout: Layout): Point {
    match layout
    case Flat => ctx.tileSize
    case PageStrip(_, _, ts, _) => Point(ts, ts)
  }

  /**
   * What `paintSimple` draws on the main canvas: on a flat layout, a clear of
   * the tile's area first when the call is asynchronous or the zoom changed;
   * then the whole tile at its offset.
   */
  function SimpleMain(tile: Tile, ctx: PaintContext, h: Host, layout: Layout, async: bool): (r: seq<Command>)
    ensures |r| >= 1 && r[|r| - 1] == Draw(tile.coords, Rect(SimpleOffset(tile, ctx, layout).x, SimpleOffset(tile, ctx, layout).y,
                                                           SimpleSize(ctx, layout).x, SimpleSize(ctx, layout).y))
    ensures |r| == 2 <==> (async || h.zoomChanged) && layout.Flat?
    ensures |r| == 2 ==> r[0] == Fill(r[1].dst, h.clearColor)
    ensures |r| <= 2
  {
    var off := SimpleOffset(tile, ctx, layout);
    var size := SimpleSize(ctx, layout);
    (if (async || h.zoomChanged) && layout.Flat? then [Fill(Rect(off.x, off.y, ctx.tileSize.x, ctx.tileSize.y), h.clearColor)] else [])
    + [Draw(tile.coords, Rect(off.x, off.y, size.x, size.y))]
  }

  /** What `paintSimple` draws on offscreen canvas 0: the main-canvas drawing moved by the half margin on both axes. */
  function SimpleOffscreen(tile: Tile, ctx: PaintContext, h: Host, layout: Layout, half: int, async: bool): (r: seq<Command>)
    ensures var m := SimpleMain(tile, ctx, h, layout, async); var d := m[|m| - 1].dst;
      r == [Draw(tile.coords, Rect(d.x + half, d.y + half, d.w, d.h))]
  {
    var off := SimpleOffset(tile, ctx, layout);
    var size := SimpleSize(ctx, layout);
    [Draw(tile.coords, Rect(off.x + half, off.y + half, size.x, size.y))]
  }

  /** `paint`'s guard: nothing is drawn during a zoom animation or while the painter waits for tiles. */
  predicate PaintSuppressed(h: Host) {
    h.inZoomAnimation || h.waitForTiles
  }

  /** All that `paint(tile, ctx, async)` draws on the main canvas. */
  function PaintMain(tile: Tile, ctx: PaintContext, h: Host, layout: Layout, async: bool): (r: seq<Command>)
    ensures PaintSuppressed(h) ==> r == []
    ensures !PaintSuppressed(h) && ctx.paneBoundsActive ==> r == PanesMain(tile, ctx, h, async, |ctx.paneBoundsList|)
    ensures !PaintSuppressed(h) && !ctx.paneBoundsActive ==> r == SimpleMain(tile, ctx, h, layout, async)
  {
    if PaintSuppressed(h) then []
    else if ctx.paneBoundsActive then PanesMain(tile, ctx, h, async, |ctx.paneBoundsList|)
    else SimpleMain(tile, ctx, h, layout, async)
  }

  /** All that `paint(tile, ctx, async)` draws on offscreen canvas `i`. */
  function PaintOffscreen(tile: Tile, ctx: PaintContext, h: Host, layout: Layout, half: int, split: Option<Point>,
                          async: bool, i: nat): (r: seq<Command>)
    ensures PaintSuppressed(h) ==> r == []
    ensures ctx.paneBoundsActive && i >= |ctx.paneBoundsList| ==> r == []
    ensures !ctx.paneBoundsActive && i > 0 ==> r == []
    ensures !PaintSuppressed(h) && ctx.paneBoundsActive && i < |ctx.paneBoundsList| ==>
      r == PaneOffscreen(tile, ctx, h, half, split, async, i)
    ensures !PaintSuppressed(h) && !ctx.paneBoundsActive && i == 0 ==> r == SimpleOffscreen(tile, ctx, h, layout, half, async)
  {
    if PaintSuppressed(h) then []
    else if ctx.paneBoundsActive then
      (if i < |ctx.paneBoundsList| then PaneOffscreen(tile, ctx, h, half, split, async, i) else [])
    else if i == 0 then SimpleOffscreen(tile, ctx, h, layout, half, async)
    else []
  }
}
