/**
 * The `TilesSection` canvas section: its offscreen buffers, its drawing on
 * the shared main context and on those buffers, and the full redraw
 * `onDraw`.
 */
module Compositor {
  import opened Wrappers
  import opened Geometry
  import opened Tiles
  import opened Drawing

  /** `borderSize` of `onResize`: the offscreen margin is this many tiles on each side. */
  const BorderSize: int := 3

  /** The number of offscreen canvases `onInitialize` creates, one per pane quadrant. */
  const OffscreenCount: nat := 4

  /** A canvas element as `document.createElement('canvas')` makes it (300 by 150, blank). */
  const BlankCanvas: Canvas := Canvas(300, 150, [])

  /** `drawZoomFrame`'s view of the painter's animation state: `_inZoomAnim`, `_zoomFrameScale`, `_newCenter`. */
  datatype ZoomAnimation = ZoomAnimation(inZoomAnim: bool, frameScale: Option<real>, hasNewCenter: bool)

  /** `drawZoomFrame` goes past its guards only in an animation with a non-zero scale and a new centre. */
  predicate ZoomFrameProceeds(a: ZoomAnimation) {
    a.inZoomAnim && a.frameScale.Some? && a.frameScale.value != 0.0 && a.hasNewCenter
  }

  /**
   * The commands `onDraw`'s paint calls leave on the main canvas, for the
   * painted keys in order (a key outside the store contributes nothing;
   * `DrawList` yields none).
   */
  function ConcatMain(doc: DocLayer, keys: seq<Coords>, h: Host): seq<Command>
  {
    if keys == [] then []
    else
      var last := keys[|keys| - 1];
      ConcatMain(doc, keys[..|keys| - 1], h)
        + (if last in doc.tiles then PaintMain(doc.tiles[last], h.paintContext, h, doc.layout, false) else [])
  }

  /** The commands `onDraw`'s paint calls leave on offscreen canvas `i`, for the painted keys in order. */
  function ConcatOffscreen(doc: DocLayer, keys: seq<Coords>, h: Host, half: int, i: nat): seq<Command>
  {
    if keys == [] then []
    else
      var last := keys[|keys| - 1];
      ConcatOffscreen(doc, keys[..|keys| - 1], h, half, i)
        + (if last in doc.tiles then PaintOffscreen(doc.tiles[last], h.paintContext, h, doc.layout, half, doc.splitPos, false, i) else [])
  }

  /** Painting one more key extends both concatenations by that key's paint. */
  lemma ConcatStep(doc: DocLayer, keys: seq<Coords>, c: Coords, h: Host, half: int)
    requires c in doc.tiles
    ensures ConcatMain(doc, keys + [c], h) == ConcatMain(doc, keys, h) + PaintMain(doc.tiles[c], h.paintContext, h, doc.layout, false)
    ensures forall i: nat {:trigger ConcatOffscreen(doc, keys + [c], h, half, i)} ::
      ConcatOffscreen(doc, keys + [c], h, half, i)
        == ConcatOffscreen(doc, keys, h, half, i) + PaintOffscreen(doc.tiles[c], h.paintContext, h, doc.layout, half, doc.splitPos, false, i)
  {
    assert (keys + [c])[..|keys|] == keys;
  }

  /**
   * While the painter waits for tiles, `paint` draws nothing, so the tiles
   * `onDraw` hands to it leave no trace on any canvas.
   */
  lemma {:induction false} WaitingPaintsNothing(doc: DocLayer, keys: seq<Coords>, h: Host, half: int, i: nat)
    requires h.waitForTiles
    ensures ConcatMain(doc, keys, h) == [] && ConcatOffscreen(doc, keys, h, half, i) == []
  {
    if keys != [] {
      WaitingPaintsNothing(doc, keys[..|keys| - 1], h, half, i);
    }
  }

  /** The walk `onDraw` makes: the view's tiles at the current zoom and selected part. */
  function DrawWalk(doc: DocLayer, h: Host): seq<Coords> {
    ViewCoords(doc, h.paintContext, h.zoom, doc.selectedPart)
  }

  /** `onDraw` returns at once during a zoom animation, and when it must wait for tiles that are not all in. */
  predicate OnDrawSkips(doc: DocLayer, h: Host) {
    var cs := DrawWalk(doc, h);
    h.inZoomAnimation || (h.waitForTiles && !(forall k :: 0 <= k < |cs| ==> IsLoaded(doc.tiles, cs[k])))
  }

  /** `onDraw`'s clear of offscreen canvas `c` with the clear colour. */
  function ClearCanvas(c: Canvas, h: Host): seq<Command> {
    [Fill(Rect(0, 0, c.width, c.height), h.clearColor)]
  }

  /**
   * What `onDraw` has drawn after walking `seen`: `done` holds the walked
   * keys, and the main log and every offscreen canvas hold what they held at
   * `main0`/`osc0` followed by the paint of the drawable keys at their first
   * visit.
   */
  ghost predicate Drawn(doc: DocLayer, h: Host, half: int, seen: seq<Coords>, done: set<Coords>,
                        log: seq<Command>, osc: seq<Canvas>, main0: seq<Command>, osc0: seq<Canvas>)
  {
    var drawn := DrawList(doc, seen);
    && done == Elements(seen)
    && |osc| == |osc0|
    && log == main0 + ConcatMain(doc, drawn, h)
    && forall i :: 0 <= i < |osc| ==> osc[i] == Appended(osc0[i], ConcatOffscreen(doc, drawn, h, half, i))
  }

  /**
   * What `paintWithPanes` has drawn on the offscreen canvases after its
   * first `i` panes: canvas `k` holds what it held at `osc0`, followed by its
   * pane's paint when `k < i`.
   */
  ghost predicate PanesPainted(tile: Tile, ctx: PaintContext, h: Host, half: int, split: Option<Point>, async: bool,
                               i: nat, osc: seq<Canvas>, osc0: seq<Canvas>)
    requires i <= |ctx.paneBoundsList|
  {
    && |osc| == |osc0|
    && forall k :: 0 <= k < |osc| ==>
         osc[k] == Appended(osc0[k], if k < i then PaneOffscreen(tile, ctx, h, half, split, async, k) else [])
  }

  /** Painting pane `i` onto its own canvas extends what the first `i` panes drew to the first `i + 1`. */
  lemma PanesPaintedStep(tile: Tile, ctx: PaintContext, h: Host, half: int, split: Option<Point>, async: bool,
                         i: nat, osc: seq<Canvas>, osc': seq<Canvas>, osc0: seq<Canvas>)
    requires i < |ctx.paneBoundsList|
    requires PanesPainted(tile, ctx, h, half, split, async, i, osc, osc0)
    requires |osc'| == |osc|
    requires forall k :: 0 <= k < |osc| ==>
      osc'[k] == Appended(osc[k], if k == i then PaneOffscreen(tile, ctx, h, half, split, async, i) else [])
    ensures PanesPainted(tile, ctx, h, half, split, async, i + 1, osc', osc0)
  {
    forall k | 0 <= k < |osc'|
      ensures osc'[k] == Appended(osc0[k], if k < i + 1 then PaneOffscreen(tile, ctx, h, half, split, async, k) else [])
    {
      if k == i {
        assert osc[k] == osc0[k].(log := osc0[k].log + []);
      } else {
        assert osc'[k] == osc[k].(log := osc[k].log + []);
      }
    }
  }

  /** Offscreen canvases cleared and then drawn on hold the clear followed by the drawing. */
  lemma ClearedThenDrawn(doc: DocLayer, h: Host, half: int, n: nat, drawn: seq<Coords>,
                         before: seq<Canvas>, cleared: seq<Canvas>, after: seq<Canvas>)
    requires |cleared| == |before| && |after| == |cleared|
    requires forall k :: 0 <= k < |cleared| ==>
      cleared[k] == Appended(before[k], if k < n then ClearCanvas(before[k], h) else [])
    requires forall k :: 0 <= k < |after| ==> after[k] == Appended(cleared[k], ConcatOffscreen(doc, drawn, h, half, k))
    ensures forall k :: 0 <= k < |after| ==>
      after[k] == Appended(before[k], (if k < n then ClearCanvas(before[k], h) else []) + ConcatOffscreen(doc, drawn, h, half, k))
  {
    forall k | 0 <= k < |after|
      ensures after[k] == Appended(before[k], (if k < n then ClearCanvas(before[k], h) else []) + ConcatOffscreen(doc, drawn, h, half, k))
    {
      var clear := if k < n then ClearCanvas(before[k], h) else [];
      assert before[k].log + clear + ConcatOffscreen(doc, drawn, h, half, k)
          == before[k].log + (clear + ConcatOffscreen(doc, drawn, h, half, k));
    }
  }

  /** A key already done, or not drawable, leaves the canvases as they are. */
  lemma DrawnSkip(doc: DocLayer, h: Host, half: int, seen: seq<Coords>, done: set<Coords>, c: Coords,
                  log: seq<Command>, osc: seq<Canvas>, main0: seq<Command>, osc0: seq<Canvas>)
    requires Drawn(doc, h, half, seen, done, log, osc, main0, osc0)
    requires c in done || !Drawable(doc, c)
    ensures Drawn(doc, h, half, seen + [c], done + {c}, log, osc, main0, osc0)
  {
    assert (seen + [c])[..|seen|] == seen;
    assert DrawList(doc, seen + [c]) == DrawList(doc, seen);
  }

  /** A drawable key seen for the first time adds its paint to every canvas. */
  lemma DrawnPaint(doc: DocLayer, h: Host, half: int, seen: seq<Coords>, done: set<Coords>, c: Coords,
                   log: seq<Command>, osc: seq<Canvas>, log': seq<Command>, osc': seq<Canvas>,
                   main0: seq<Command>, osc0: seq<Canvas>)
    requires Drawn(doc, h, half, seen, done, log, osc, main0, osc0)
    requires c !in done && Drawable(doc, c)
    requires log' == log + PaintMain(doc.tiles[c], h.paintContext, h, doc.layout, false)
    requires |osc'| == |osc|
    requires forall i :: 0 <= i < |osc| ==>
      osc'[i] == Appended(osc[i], PaintOffscreen(doc.tiles[c], h.paintContext, h, doc.layout, half, doc.splitPos, false, i))
    ensures Drawn(doc, h, half, seen + [c], done + {c}, log', osc', main0, osc0)
  {
    var drawn := DrawList(doc, seen);
    assert (seen + [c])[..|seen|] == seen;
    assert DrawList(doc, seen + [c]) == drawn + [c];
    ConcatStep(doc, drawn, c, h, half);
    forall i | 0 <= i < |osc'|
      ensures osc'[i] == Appended(osc0[i], ConcatOffscreen(doc, drawn + [c], h, half, i))
    {
      assert ConcatOffscreen(doc, drawn + [c], h, half, i)
        == ConcatOffscreen(doc, drawn, h, half, i) + PaintOffscreen(doc.tiles[c], h.paintContext, h, doc.layout, half, doc.splitPos, false, i);
    }
  }

  class TilesSection {
    /** What this section drew on the shared main context `this.context`. */
    var mainLog: seq<Command>
    /** `offscreenCanvases` with their contexts `oscCtxs`. */
    var offscreen: seq<Canvas>
    /** `this.size`, set by the section container. */
    var size: Point
    /** `sectionProperties.osCanvasExtraSize`. */
    var osCanvasExtraSize: int

    constructor ()
      ensures mainLog == [] && offscreen == [] && size == Point(0, 0)
    {
      mainLog := [];
      offscreen := [];
      size := Point(0, 0);
      osCanvasExtraSize := 0;
    }

    /** `osCanvasExtraSize / 2`. */
    function HalfExtraSize(): int
      reads this
    {
      osCanvasExtraSize / 2
    }

    /** `paint` may index the offscreen canvases this context needs. */
    predicate CanPaint(ctx: PaintContext)
      reads this
    {
      if ctx.paneBoundsActive then |ctx.paneBoundsList| <= |offscreen| else 1 <= |offscreen|
    }

    /**
     * `onResize`: the margin becomes `2 * borderSize * tileSize` and the four
     * offscreen canvases take the section's size plus that margin (resizing
     * a canvas blanks it); half the margin is exactly `borderSize` tiles.
     */
    method OnResize(tileSize: int)
      requires |offscreen| >= OffscreenCount
      modifies this
      ensures osCanvasExtraSize == 2 * BorderSize * tileSize && HalfExtraSize() == BorderSize * tileSize
      ensures |offscreen| == |old(offscreen)|
      ensures forall i :: 0 <= i < OffscreenCount ==>
        offscreen[i] == Canvas(size.x + osCanvasExtraSize, size.y + osCanvasExtraSize, [])
      ensures forall i :: OffscreenCount <= i < |offscreen| ==> offscreen[i] == old(offscreen[i])
      ensures mainLog == old(mainLog) && size == old(size)
    {
      osCanvasExtraSize := 2 * BorderSize * tileSize;
      for i := 0 to OffscreenCount
        invariant |offscreen| == |old(offscreen)|
        invariant forall k :: 0 <= k < i ==> offscreen[k] == Canvas(size.x + osCanvasExtraSize, size.y + osCanvasExtraSize, [])
        invariant forall k :: i <= k < |offscreen| ==> offscreen[k] == old(offscreen[k])
        invariant mainLog == old(mainLog) && size == old(size) && osCanvasExtraSize == 2 * BorderSize * tileSize
      {
        offscreen := offscreen[i := Canvas(size.x + osCanvasExtraSize, size.y + osCanvasExtraSize, [])];
      }
    }

    /** `onInitialize`: four new canvases are pushed, then `onResize` sizes the first four. */
    method OnInitialize(tileSize: int)
      modifies this
      ensures |offscreen| == |old(offscreen)| + OffscreenCount
      ensures osCanvasExtraSize == 2 * BorderSize * tileSize
      ensures forall i :: 0 <= i < OffscreenCount ==>
        offscreen[i] == Canvas(size.x + osCanvasExtraSize, size.y + osCanvasExtraSize, [])
      ensures forall i :: OffscreenCount <= i < |offscreen| ==>
        offscreen[i] == if i < |old(offscreen)| then old(offscreen[i]) else BlankCanvas
      ensures mainLog == old(mainLog) && size == old(size)
    {
      for i := 0 to OffscreenCount
        invariant offscreen == old(offscreen) + seq(i, _ => BlankCanvas)
        invariant mainLog == old(mainLog) && size == old(size)
      {
        offscreen := offscreen + [BlankCanvas];
      }
      OnResize(tileSize);
    }

    /** `drawTileInPane`: appends `TileInPane` to the target canvas and changes nothing else. */
    method DrawTileInPane(tile: Tile, tileBounds: Bounds, paneBounds: Bounds, paneOffset: Point,
                          target: Target, clearBackground: bool, h: Host)
      requires target.Offscreen? ==> target.index < |offscreen|
      modifies this
      ensures var cmds := TileInPane(tile, tileBounds, paneBounds, paneOffset, target, clearBackground, h);
        && mainLog == old(mainLog) + (if target == Main then cmds else [])
        && |offscreen| == |old(offscreen)|
        && forall i :: 0 <= i < |offscreen| ==>
             offscreen[i] == Appended(old(offscreen[i]), if target == Offscreen(i) then cmds else [])
      ensures size == old(size) && osCanvasExtraSize == old(osCanvasExtraSize)
    {
      var cmds := TileInPane(tile, tileBounds, paneBounds, paneOffset, target, clearBackground, h);
      match target
      case Main =>
        mainLog := mainLog + cmds;
      case Offscreen(i) =>
        offscreen := offscreen[i := Appended(offscreen[i], cmds)];
    }

    /** One iteration of `paintWithPanes`: pane `i` draws on the main canvas and on offscreen canvas `i`. */
    method PaintPane(tile: Tile, ctx: PaintContext, h: Host, split: Option<Point>, async: bool, i: nat)
      requires i < |ctx.paneBoundsList| <= |offscreen|
      modifies this
      ensures mainLog == old(mainLog) + PaneMain(tile, ctx, h, async, i)
      ensures |offscreen| == |old(offscreen)|
      ensures forall k :: 0 <= k < |offscreen| ==>
        offscreen[k] == Appended(old(offscreen[k]), if k == i then PaneOffscreen(tile, ctx, h, old(HalfExtraSize()), split, async, i) else [])
      ensures size == old(size) && osCanvasExtraSize == old(osCanvasExtraSize)
    {
      var tileBounds := TileBounds(tile, ctx.tileSize);
      var paneBounds := ctx.paneBoundsList[i];
      var viewBounds := ctx.viewBounds;
      var extendedBounds := ExtendedPaneBounds(paneBounds, HalfExtraSize(), split);
      if h.intersects(paneBounds, tileBounds) {
        var paneOffset := MainPaneOffset(paneBounds, viewBounds);
        DrawTileInPane(tile, tileBounds, paneBounds, paneOffset, Main, async, h);
      }
      if h.intersects(extendedBounds, tileBounds) {
        DrawTileInPane(tile, tileBounds, extendedBounds, extendedBounds.min, Offscreen(i), async, h);
      }
    }

    /** `PaintPane` for pane `i` of the loop in `paintWithPanes`, carrying what panes `0..i` have drawn. */
    method PaintNextPane(tile: Tile, ctx: PaintContext, h: Host, split: Option<Point>, async: bool, i: nat,
                         ghost main0: seq<Command>, ghost osc0: seq<Canvas>)
      requires i < |ctx.paneBoundsList| <= |offscreen|
      requires mainLog == main0 + PanesMain(tile, ctx, h, async, i)
      requires PanesPainted(tile, ctx, h, HalfExtraSize(), split, async, i, offscreen, osc0)
      modifies this
      ensures mainLog == main0 + PanesMain(tile, ctx, h, async, i + 1)
      ensures PanesPainted(tile, ctx, h, HalfExtraSize(), split, async, i + 1, offscreen, osc0)
      ensures size == old(size) && osCanvasExtraSize == old(osCanvasExtraSize)
    {
      ghost var osc := offscreen;
      PaintPane(tile, ctx, h, split, async, i);
      PanesPaintedStep(tile, ctx, h, HalfExtraSize(), split, async, i, osc, offscreen, osc0);
      assert PanesMain(tile, ctx, h, async, i + 1) == PanesMain(tile, ctx, h, async, i) + PaneMain(tile, ctx, h, async, i);
    }

    /**
     * `paintWithPanes`: for each pane, the tile goes to the main canvas when
     * it meets the pane and to the pane's offscreen canvas when it meets the
     * extended pane bounds.
     */
    method PaintWithPanes(tile: Tile, ctx: PaintContext, h: Host, split: Option<Point>, async: bool)
      requires |ctx.paneBoundsList| <= |offscreen|
      modifies this
      ensures mainLog == old(mainLog) + PanesMain(tile, ctx, h, async, |ctx.paneBoundsList|)
      ensures |offscreen| == |old(offscreen)|
      ensures forall i :: 0 <= i < |offscreen| ==>
        offscreen[i] == Appended(old(offscreen[i]),
          if i < |ctx.paneBoundsList| then PaneOffscreen(tile, ctx, h, old(HalfExtraSize()), split, async, i) else [])
      ensures size == old(size) && osCanvasExtraSize == old(osCanvasExtraSize)
    {
      ghost var half := HalfExtraSize();
      for i := 0 to |ctx.paneBoundsList|
        invariant mainLog == old(mainLog) + PanesMain(tile, ctx, h, async, i)
        invariant PanesPainted(tile, ctx, h, half, split, async, i, offscreen, old(offscreen))
        invariant size == old(size) && osCanvasExtraSize == old(osCanvasExtraSize)
      {
        PaintNextPane(tile, ctx, h, split, async, i, old(mainLog), old(offscreen));
      }
    }

    /** `paintSimple`: the tile at its view offset on the main canvas, and half a margin further on offscreen canvas 0. */
    method PaintSimple(tile: Tile, ctx: PaintContext, h: Host, layout: Layout, async: bool)
      requires 1 <= |offscreen|
      modifies this
      ensures mainLog == old(mainLog) + SimpleMain(tile, ctx, h, layout, async)
      ensures |offscreen| == |old(offscreen)|
      ensures forall i :: 0 <= i < |offscreen| ==>
        offscreen[i] == Appended(old(offscreen[i]), if i == 0 then SimpleOffscreen(tile, ctx, h, layout, old(HalfExtraSize()), async) else [])
      ensures size == old(size) && osCanvasExtraSize == old(osCanvasExtraSize)
    {
      var offset := SimpleOffset(tile, ctx, layout);
      var half := HalfExtraSize();
      var extendedOffset := Point(offset.x + half, offset.y + half);
      if (async || h.zoomChanged) && !layout.PageStrip? {
        mainLog := mainLog + [Fill(Rect(offset.x, offset.y, ctx.tileSize.x, ctx.tileSize.y), h.clearColor)];
      }
      var drawSize := SimpleSize(ctx, layout);
      mainLog := mainLog + [Draw(tile.coords, Rect(offset.x, offset.y, drawSize.x, drawSize.y))];
      offscreen := offscreen[0 := Appended(offscreen[0], [Draw(tile.coords, Rect(extendedOffset.x, extendedOffset.y, drawSize.x, drawSize.y))])];
    }

    /**
     * `paint`: nothing during a zoom animation or while the painter waits for
     * tiles; otherwise the painter's context is used when none is given, and
     * the tile is painted by pane when `paneBoundsActive` is true and simply
     * in every other case.
     */
    method Paint(tile: Tile, ctx: Option<PaintContext>, h: Host, doc: DocLayer, async: bool)
      requires !PaintSuppressed(h) ==> CanPaint(OrProvided(ctx, h.paintContext))
      modifies this
      ensures var c := OrProvided(ctx, h.paintContext);
        && mainLog == old(mainLog) + PaintMain(tile, c, h, doc.layout, async)
        && |offscreen| == |old(offscreen)|
        && forall i :: 0 <= i < |offscreen| ==>
             offscreen[i] == Appended(old(offscreen[i]), PaintOffscreen(tile, c, h, doc.layout, old(HalfExtraSize()), doc.splitPos, async, i))
      ensures size == old(size) && osCanvasExtraSize == old(osCanvasExtraSize)
    {
      if h.inZoomAnimation || h.waitForTiles {
        return;
      }
      var c := OrProvided(ctx, h.paintContext);
      if c.paneBoundsActive {
        PaintWithPanes(tile, c, h, doc.splitPos, async);
      } else {
        PaintSimple(tile, c, h, doc.layout, async);
      }
    }

    /** `onDraw`'s callback for one walked coordinate: skip a done key, paint a drawable one, mark it done. */
    method DrawVisited(coords: Coords, done: set<Coords>, doc: DocLayer, h: Host,
                       ghost seen: seq<Coords>, ghost main0: seq<Command>, ghost osc0: seq<Canvas>)
      returns (done': set<Coords>)
      requires !h.inZoomAnimation && CanPaint(h.paintContext)
      requires Drawn(doc, h, HalfExtraSize(), seen, done, mainLog, offscreen, main0, osc0)
      modifies this
      ensures Drawn(doc, h, HalfExtraSize(), seen + [coords], done', mainLog, offscreen, main0, osc0)
      ensures size == old(size) && osCanvasExtraSize == old(osCanvasExtraSize)
    {
      if coords in done {
        DrawnSkip(doc, h, HalfExtraSize(), seen, done, coords, mainLog, offscreen, main0, osc0);
        assert done + {coords} == done;
        return done;
      }
      if Drawable(doc, coords) {
        ghost var log, osc, half := mainLog, offscreen, HalfExtraSize();
        Paint(doc.tiles[coords], Some(h.paintContext), h, doc, false);
        DrawnPaint(doc, h, half, seen, done, coords, log, osc, mainLog, offscreen, main0, osc0);
      } else {
        DrawnSkip(doc, h, HalfExtraSize(), seen, done, coords, mainLog, offscreen, main0, osc0);
      }
      done' := done + {coords};
    }

    /**
     * `onDraw`: unless it skips, clears the offscreen canvas of every pane,
     * then paints each drawable tile of the view once, in walk order.
     */
    method OnDraw(h: Host, doc: DocLayer)
      requires CanPaint(h.paintContext) && |h.paintContext.paneBoundsList| <= |offscreen|
      modifies this
      ensures OnDrawSkips(doc, h) ==> mainLog == old(mainLog) && offscreen == old(offscreen)
      ensures !OnDrawSkips(doc, h) ==>
        var drawn := DrawList(doc, DrawWalk(doc, h));
        && mainLog == old(mainLog) + ConcatMain(doc, drawn, h)
        && |offscreen| == |old(offscreen)|
        && forall i :: 0 <= i < |offscreen| ==>
             offscreen[i] == Appended(old(offscreen[i]),
               (if i < |h.paintContext.paneBoundsList| then ClearCanvas(old(offscreen[i]), h) else [])
               + ConcatOffscreen(doc, drawn, h, old(HalfExtraSize()), i))
      ensures size == old(size) && osCanvasExtraSize == old(osCanvasExtraSize)
    {
      if h.inZoomAnimation {
        return;
      }
      var zoom := h.zoom;
      var part := doc.selectedPart;
      var ctx := h.paintContext;
      ghost var cs := ViewCoords(doc, ctx, zoom, part);
      if h.waitForTiles {
        var allIn;
        ghost var lookups;
        allIn, lookups := HaveAllTilesInView(Some(zoom), Some(part), Some(ctx), h.zoom, h.paintContext, doc);
        if !allIn {
          return;
        }
      }
      ClearPaneCanvases(h, |ctx.paneBoundsList|);
      ghost var main0, osc0 := mainLog, offscreen;
      assert Drawn(doc, h, HalfExtraSize(), [], {}, mainLog, offscreen, main0, osc0);
      var doneTiles := DrawView(h, doc, main0, osc0);
      ClearedThenDrawn(doc, h, HalfExtraSize(), |ctx.paneBoundsList|, DrawList(doc, DrawWalk(doc, h)),
                       old(offscreen), osc0, offscreen);
    }

    /** `onDraw`'s clear of the offscreen canvas of each of the first `n` panes with the clear colour. */
    method ClearPaneCanvases(h: Host, n: nat)
      requires n <= |offscreen|
      modifies this
      ensures |offscreen| == |old(offscreen)|
      ensures forall k :: 0 <= k < |offscreen| ==>
        offscreen[k] == Appended(old(offscreen[k]), if k < n then ClearCanvas(old(offscreen[k]), h) else [])
      ensures mainLog == old(mainLog) && size == old(size) && osCanvasExtraSize == old(osCanvasExtraSize)
    {
      for i := 0 to n
        invariant |offscreen| == |old(offscreen)|
        invariant forall k :: 0 <= k < |offscreen| ==>
          offscreen[k] == Appended(old(offscreen[k]), if k < i then ClearCanvas(old(offscreen[k]), h) else [])
        invariant mainLog == old(mainLog) && size == old(size) && osCanvasExtraSize == old(osCanvasExtraSize)
      {
        offscreen := offscreen[i := Appended(offscreen[i], [Fill(Rect(0, 0, offscreen[i].width, offscreen[i].height), h.clearColor)])];
      }
    }

    /** `onDraw`'s `forEachTileInView` walk, with the callback that paints each drawable key once. */
    method DrawView(h: Host, doc: DocLayer, ghost main0: seq<Command>, ghost osc0: seq<Canvas>)
      returns (doneTiles: set<Coords>)
      requires !h.inZoomAnimation && CanPaint(h.paintContext)
      requires Drawn(doc, h, HalfExtraSize(), [], {}, mainLog, offscreen, main0, osc0)
      modifies this
      ensures Drawn(doc, h, HalfExtraSize(), DrawWalk(doc, h), doneTiles, mainLog, offscreen, main0, osc0)
      ensures size == old(size) && osCanvasExtraSize == old(osCanvasExtraSize)
    {
      var ctx := h.paintContext;
      doneTiles := {};
      if doc.layout.PageStrip? {
        var coordList := doc.layout.viewCoords;
        for k := 0 to |coordList|
          invariant Drawn(doc, h, HalfExtraSize(), coordList[..k], doneTiles, mainLog, offscreen, main0, osc0)
          invariant size == old(size) && osCanvasExtraSize == old(osCanvasExtraSize)
        {
          assert coordList[..k + 1] == coordList[..k] + [coordList[k]];
          doneTiles := DrawVisited(coordList[k], doneTiles, doc, h, coordList[..k], main0, osc0);
        }
        assert coordList[..|coordList|] == coordList;
      } else {
        var tileRanges := TileRanges(ctx.paneBoundsList, doc.toTileRange);
        doneTiles := DrawRanges(h, doc, tileRanges, main0, osc0);
      }
    }

    /** The flat-layout walk of `forEachTileInView` (`j` outer, `i` inner per range) with `onDraw`'s callback. */
    method DrawRanges(h: Host, doc: DocLayer, tileRanges: seq<Bounds>, ghost main0: seq<Command>, ghost osc0: seq<Canvas>)
      returns (doneTiles: set<Coords>)
      requires !h.inZoomAnimation && CanPaint(h.paintContext)
      requires Drawn(doc, h, HalfExtraSize(), [], {}, mainLog, offscreen, main0, osc0)
      modifies this
      ensures Drawn(doc, h, HalfExtraSize(), RangesCoords(tileRanges, h.paintContext.tileSize, h.zoom, doc.selectedPart),
                         doneTiles, mainLog, offscreen, main0, osc0)
      ensures size == old(size) && osCanvasExtraSize == old(osCanvasExtraSize)
    {
      var tileSize, zoom, part := h.paintContext.tileSize, h.zoom, doc.selectedPart;
      doneTiles := {};
      var rangeIdx := 0;
      while rangeIdx < |tileRanges|
        invariant 0 <= rangeIdx <= |tileRanges|
        invariant Drawn(doc, h, HalfExtraSize(), RangesCoords(tileRanges[..rangeIdx], tileSize, zoom, part), doneTiles, mainLog, offscreen, main0, osc0)
        invariant size == old(size) && osCanvasExtraSize == old(osCanvasExtraSize)
      {
        var tileRange := tileRanges[rangeIdx];
        var j := tileRange.min.y;
        assert Walked(tileRanges, rangeIdx, j, tileRange.min.x, tileSize, zoom, part) == RangesCoords(tileRanges[..rangeIdx], tileSize, zoom, part);
        while j <= tileRange.max.y
          invariant tileRange.min.y <= j && (j <= tileRange.max.y + 1 || j == tileRange.min.y)
          invariant Drawn(doc, h, HalfExtraSize(), Walked(tileRanges, rangeIdx, j, tileRange.min.x, tileSize, zoom, part), doneTiles, mainLog, offscreen, main0, osc0)
          invariant size == old(size) && osCanvasExtraSize == old(osCanvasExtraSize)
        {
          var i := tileRange.min.x;
          while i <= tileRange.max.x
            invariant tileRange.min.x <= i && (i <= tileRange.max.x + 1 || i == tileRange.min.x)
            invariant Drawn(doc, h, HalfExtraSize(), Walked(tileRanges, rangeIdx, j, i, tileSize, zoom, part), doneTiles, mainLog, offscreen, main0, osc0)
            invariant size == old(size) && osCanvasExtraSize == old(osCanvasExtraSize)
          {
            var coords := TileAt(i, j, tileSize, zoom, part);
            WalkedNext(tileRanges, rangeIdx, j, i, tileSize, zoom, part);
            doneTiles := DrawVisited(coords, doneTiles, doc, h, Walked(tileRanges, rangeIdx, j, i, tileSize, zoom, part), main0, osc0);
            i := i + 1;
          }
          WalkedRowDone(tileRanges, rangeIdx, j, i, tileSize, zoom, part);
          j := j + 1;
        }
        WalkedRangeDone(tileRanges, rangeIdx, j, tileSize, zoom, part);
        rangeIdx := rangeIdx + 1;
      }
      assert tileRanges[..rangeIdx] == tileRanges;
    }

    /**
     * The guard prefix of `drawZoomFrame`: nothing happens unless an
     * animation with a scale and a new centre is under way; then the main
     * canvas is cleared over the whole view.
     */
    method DrawZoomFrame(anim: ZoomAnimation, ctx: Option<PaintContext>, h: Host)
      modifies this
      ensures !ZoomFrameProceeds(anim) ==> mainLog == old(mainLog)
      ensures ZoomFrameProceeds(anim) ==> var view := OrProvided(ctx, h.paintContext).viewBounds;
        mainLog == old(mainLog) + [Fill(Rect(0, 0, Width(view), Height(view)), h.clearColor)]
      ensures offscreen == old(offscreen) && size == old(size) && osCanvasExtraSize == old(osCanvasExtraSize)
    {
      if !anim.inZoomAnim {
        return;
      }
      if anim.frameScale.None? || anim.frameScale.value == 0.0 || !anim.hasNewCenter {
        return;
      }
      var c := OrProvided(ctx, h.paintContext);
      var viewBounds := c.viewBounds;
      mainLog := mainLog + [Fill(Rect(0, 0, viewBounds.max.x - viewBounds.min.x, viewBounds.max.y - viewBounds.min.y), h.clearColor)];
    }
  }
}
