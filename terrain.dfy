/** World generation: the random walk of column heights, the biome of each
    column, the column of tiles under each height, and the trees planted on
    the surface tiles. Every `Math.random()` draw is a parameter in [0, 1). */
module Terrain {
  import opened Grid
  import opened Materials

  /** Constructor arguments of one generated block (always a tile). */
  datatype Placement = Placement(x: real, y: real, kind: BlockType)

  /** A surface tile `{ x, y }`. */
  datatype Tile = Tile(x: real, y: real)

  predicate IsDraw(r: real) { 0.0 <= r < 1.0 }

  // ---------------------------------------------------------------------
  // Heights

  /** `numSegments`. */
  const NumSegments: nat := 150

  /** `snapToGrid(randomBetween(minHeight, maxHeight))`. */
  function StartHeight(r: real, minHeight: real, maxHeight: real): (y: real)
    ensures OnGrid(y)
  {
    SnapToGrid(r * (maxHeight - minHeight) + minHeight)
  }

  /** The first height is in the band. */
  lemma StartHeightInBand(r: real, minHeight: real, maxHeight: real)
    requires IsDraw(r) && minHeight <= maxHeight
    ensures InBand(StartHeight(r, minHeight, maxHeight), minHeight, maxHeight)
  {
    var v := r * (maxHeight - minHeight) + minHeight;
    assert minHeight <= v <= maxHeight by {
      ProductOfNonNegatives(r, maxHeight - minHeight);
      ProductOfNonNegatives(1.0 - r, maxHeight - minHeight);
    }
    SnapMonotone(minHeight, v);
  }

  lemma ProductOfNonNegatives(a: real, b: real)
    requires 0.0 <= a && 0.0 <= b
    ensures 0.0 <= a * b
  {
  }

  /** A weighted mean of two values in [lo, hi] is in [lo, hi]. */
  lemma ConvexCombination(a: real, b: real, s: real, lo: real, hi: real)
    requires lo <= a <= hi && lo <= b <= hi && 0.0 <= s <= 1.0
    ensures lo <= Blend(a, b, s) <= hi
  {
    assert Blend(a, b, s) == a + (b - a) * s;
    if a <= b {
      ProductOfNonNegatives(b - a, s);
      ProductOfNonNegatives(b - a, 1.0 - s);
    } else {
      ProductOfNonNegatives(a - b, s);
      ProductOfNonNegatives(a - b, 1.0 - s);
    }
  }

  /** One step of the walk: a random change of up to half a tile times
      `roughness` either way, clamped to [minHeight, maxHeight], blended with
      the previous height by `smoothness`, and snapped to the grid. */
  function NextHeight(lastY: real, r: real, minHeight: real, maxHeight: real,
                      roughness: real, smoothness: real): (y: real)
    ensures OnGrid(y)
  {
    var clamped := Max(minHeight, Min(maxHeight, lastY + Change(r, roughness)));
    SnapToGrid(Blend(lastY, clamped, smoothness))
  }

  /** The random change: up to half a tile times `roughness` either way. */
  function Change(r: real, roughness: real): real {
    (r - 0.5) * TileSize * roughness
  }

  /** `a * (1 - s) + b * s`. */
  function Blend(a: real, b: real, s: real): real {
    a * (1.0 - s) + b * s
  }

  /** The band the walk keeps to: from the grid line at or below `minHeight`
      down to `maxHeight`. */
  predicate InBand(y: real, minHeight: real, maxHeight: real) {
    SnapToGrid(minHeight) <= y <= maxHeight
  }

  /** With a blend weight between 0 and 1, a height in the band stays in it. */
  lemma NextHeightInBand(lastY: real, r: real, minHeight: real, maxHeight: real,
                         roughness: real, smoothness: real)
    requires minHeight <= maxHeight && 0.0 <= smoothness <= 1.0
    requires InBand(lastY, minHeight, maxHeight)
    ensures InBand(NextHeight(lastY, r, minHeight, maxHeight, roughness, smoothness), minHeight, maxHeight)
  {
    var clamped := Max(minHeight, Min(maxHeight, lastY + Change(r, roughness)));
    var blend := Blend(lastY, clamped, smoothness);
    var lo := SnapToGrid(minHeight);
    ConvexCombination(lastY, clamped, smoothness, lo, maxHeight);
    SnapMonotone(lo, blend);
    SnapIdempotent(minHeight);
  }

  /** The first `n` heights of the walk from `start`. */
  function Walk(start: real, draws: seq<real>, minHeight: real, maxHeight: real,
                roughness: real, smoothness: real, n: nat): (hs: seq<real>)
    requires n <= |draws|
    ensures |hs| == n
  {
    if n == 0 then []
    else
      var prev := Walk(start, draws, minHeight, maxHeight, roughness, smoothness, n - 1);
      prev + [NextHeight(if n == 1 then start else prev[n - 2], draws[n - 1],
                         minHeight, maxHeight, roughness, smoothness)]
  }

  /** Every height of the walk is on the grid and, with a blend weight
      between 0 and 1 and a start in the band, in the band. */
  lemma {:induction false} WalkInBand(start: real, draws: seq<real>, minHeight: real, maxHeight: real,
                                      roughness: real, smoothness: real, n: nat)
    requires n <= |draws|
    ensures AllOnGrid(Walk(start, draws, minHeight, maxHeight, roughness, smoothness, n))
    ensures minHeight <= maxHeight && 0.0 <= smoothness <= 1.0 && InBand(start, minHeight, maxHeight) ==>
      AllInBand(Walk(start, draws, minHeight, maxHeight, roughness, smoothness, n), minHeight, maxHeight)
  {
    if n > 0 {
      WalkInBand(start, draws, minHeight, maxHeight, roughness, smoothness, n - 1);
      var prev := Walk(start, draws, minHeight, maxHeight, roughness, smoothness, n - 1);
      var hs := Walk(start, draws, minHeight, maxHeight, roughness, smoothness, n);
      var last := if n == 1 then start else prev[n - 2];
      assert hs == prev + [NextHeight(last, draws[n - 1], minHeight, maxHeight, roughness, smoothness)];
      if minHeight <= maxHeight && 0.0 <= smoothness <= 1.0 && InBand(start, minHeight, maxHeight) {
        NextHeightInBand(last, draws[n - 1], minHeight, maxHeight, roughness, smoothness);
      }
    }
  }

  predicate AllOnGrid(hs: seq<real>) {
    forall i :: 0 <= i < |hs| ==> OnGrid(hs[i])
  }

  predicate AllInBand(hs: seq<real>, minHeight: real, maxHeight: real) {
    forall i :: 0 <= i < |hs| ==> InBand(hs[i], minHeight, maxHeight)
  }

  /** The loop that fills `terrainHeights`. */
  method GenerateHeights(start: real, draws: seq<real>, minHeight: real, maxHeight: real,
                         roughness: real, smoothness: real) returns (heights: seq<real>)
    ensures heights == Walk(start, draws, minHeight, maxHeight, roughness, smoothness, |draws|)
  {
    heights := [];
    var lastY := start;
    var i := 0;
    while i < |draws|
      invariant 0 <= i <= |draws| && |heights| == i
      invariant heights == Walk(start, draws, minHeight, maxHeight, roughness, smoothness, i)
      invariant lastY == if i == 0 then start else heights[i - 1]
    {
      var newY := NextHeight(lastY, draws[i], minHeight, maxHeight, roughness, smoothness);
      heights := heights + [newY];
      lastY := newY;
      i := i + 1;
    }
  }

  // ---------------------------------------------------------------------
  // Biomes

  datatype Biome = Grassland | Desert | Mountain | Forest | Snowfield

  /** The list `getRandomBiome` draws from, in its order. */
  const Biomes: seq<Biome> := [Grassland, Desert, Mountain, Forest, Snowfield]

  /** `getRandomBiome()`: `Biomes[Math.floor(r * 5)]`, each of the five
      biomes for a fifth of the draws; the floor of `r * 5`, which lies in
      [0, 5), is found by comparing it with 1 to 4. */
  function RandomBiome(r: real): (b: Biome)
    requires IsDraw(r)
    ensures forall i :: 0 <= i < |Biomes| ==>
      (b == Biomes[i] <==> i as real / 5.0 <= r < (i + 1) as real / 5.0)
  {
    var s := r * 5.0;
    var i := if s < 1.0 then 0 else if s < 2.0 then 1 else if s < 3.0 then 2 else if s < 4.0 then 3 else 4;
    Biomes[i]
  }

  /** `surfaceType` per biome (grass unless desert or snow). */
  function SurfaceOf(b: Biome): BlockType {
    match b
    case Desert => Sand
    case Snowfield => Snow
    case _ => Grass
  }

  /** `undergroundType` per biome (dirt unless desert, mountain or snow). */
  function UndergroundOf(b: Biome): BlockType {
    match b
    case Desert => Sandstone
    case Mountain => Stone
    case Snowfield => Ice
    case _ => Dirt
  }

  /** The biome after one column: with a switch draw below 0.1 a fresh
      biome is drawn. */
  function SwitchBiome(b: Biome, switchDraw: real, pick: real): Biome
    requires IsDraw(pick)
  {
    if switchDraw < 0.1 then RandomBiome(pick) else b
  }

  predicate AllDraws(rs: seq<real>) {
    forall i :: 0 <= i < |rs| ==> IsDraw(rs[i])
  }

  /** The value of `currentBiome` when column `n` is laid; for `n` equal to
      the number of columns it is the biome the tree chance is read from. */
  function BiomeAfter(first: Biome, switches: seq<real>, picks: seq<real>, n: nat): Biome
    requires n <= |switches| == |picks| && AllDraws(picks)
  {
    if n == 0 then first
    else SwitchBiome(BiomeAfter(first, switches, picks, n - 1), switches[n - 1], picks[n - 1])
  }

  /** With no switch draw below 0.1 the first biome is kept throughout. */
  lemma {:induction false} BiomeKeptWithoutSwitch(first: Biome, switches: seq<real>, picks: seq<real>, n: nat)
    requires n <= |switches| == |picks| && AllDraws(picks)
    requires forall i :: 0 <= i < n ==> switches[i] >= 0.1
    ensures BiomeAfter(first, switches, picks, n) == first
  {
    if n > 0 {
      BiomeKeptWithoutSwitch(first, switches, picks, n - 1);
    }
  }

  // ---------------------------------------------------------------------
  // Columns

  /** The `y` of row `k` of a column whose surface is at `topY`. */
  function RowY(topY: real, k: nat): real {
    topY + k as real * TileSize
  }

  /** The number of rows `for (y = topY; y < canvas.height; y += TILE_SIZE)`
      visits: exactly the rows above the bottom of the canvas. */
  function RowCount(topY: real, canvasHeight: real): (n: nat)
    ensures forall k: nat :: k < n <==> RowY(topY, k) < canvasHeight
  {
    if topY >= canvasHeight then 0
    else
      var c := (canvasHeight - topY) / TileSize;
      var f := (-c).Floor;
      assert f < 0;
      forall k: nat ensures k < -f <==> RowY(topY, k) < canvasHeight {
        assert RowY(topY, k) < canvasHeight <==> (k as real) < c;
      }
      -f
  }

  /** The type of the block at `y` in a column with surface `topY`: the
      biome's surface type on top, stone in the bottom two rows of the
      canvas and deeper than 8 tiles, the biome's underground type
      elsewhere. */
  function TileKind(y: real, topY: real, canvasHeight: real, biome: Biome): (r: BlockType)
    ensures r == SurfaceOf(biome) || r == Stone || r == UndergroundOf(biome)
    ensures y == topY ==> r == SurfaceOf(biome)
    ensures y > topY + 8.0 * TileSize ==> r == Stone
  {
    var t :=
      if y == topY then SurfaceOf(biome)
      else if y > canvasHeight - TileSize * 2.0 then Stone
      else UndergroundOf(biome);
    if (y - topY) / TileSize > 8.0 then Stone else t
  }

  /** The blocks of one column. */
  function Column(x: real, topY: real, canvasHeight: real, biome: Biome): (c: seq<Placement>)
    ensures |c| == RowCount(topY, canvasHeight)
  {
    seq(RowCount(topY, canvasHeight), k requires 0 <= k =>
      Placement(SnapToGrid(x), SnapToGrid(RowY(topY, k)), TileKind(RowY(topY, k), topY, canvasHeight, biome)))
  }

  /** A column on the grid: one tile per row from the surface down to the
      bottom of the canvas, the biome's surface type in the top row, stone
      below depth 8 and in the bottom two rows, the underground type in
      between. */
  lemma ColumnShape(x: real, topY: real, canvasHeight: real, biome: Biome)
    requires OnGrid(x) && OnGrid(topY)
    ensures var c := Column(x, topY, canvasHeight, biome);
      && (topY < canvasHeight <==> |c| > 0)
      && (forall k :: 0 <= k < |c| ==> c[k].x == x && c[k].y == RowY(topY, k) && c[k].y < canvasHeight)
      && (|c| > 0 ==> c[0].kind == SurfaceOf(biome))
      && (forall k :: 0 < k < |c| ==>
            c[k].kind == (if k > 8 || RowY(topY, k) > canvasHeight - TileSize * 2.0 then Stone
                          else UndergroundOf(biome)))
  {
    var c := Column(x, topY, canvasHeight, biome);
    SnapFixesGridPoints(x);
    assert topY < canvasHeight <==> RowY(topY, 0) < canvasHeight;
    forall k | 0 <= k < |c|
      ensures c[k].x == x && c[k].y == RowY(topY, k) && c[k].y < canvasHeight
    {
      OnGridShift(topY, k);
      SnapFixesGridPoints(RowY(topY, k));
    }
    forall k | 0 < k < |c|
      ensures c[k].kind == (if k > 8 || RowY(topY, k) > canvasHeight - TileSize * 2.0 then Stone
                            else UndergroundOf(biome))
    {
      assert (RowY(topY, k) - topY) / TileSize == k as real;
    }
  }

  lemma ColumnPrefix(x: real, topY: real, canvasHeight: real, biome: Biome, k: nat)
    requires k < RowCount(topY, canvasHeight)
    ensures Column(x, topY, canvasHeight, biome)[..k + 1] == Column(x, topY, canvasHeight, biome)[..k]
      + [Placement(SnapToGrid(x), SnapToGrid(RowY(topY, k)), TileKind(RowY(topY, k), topY, canvasHeight, biome))]
  {
  }

  /** The row loop of `generateHillyTerrain` for one column: its blocks, and
      the surface tile it records (none if the surface is below the canvas). */
  method FillColumn(x: real, topY: real, canvasHeight: real, biome: Biome)
    returns (blocks: seq<Placement>, surface: Option<Tile>)
    ensures blocks == Column(x, topY, canvasHeight, biome)
    ensures surface == if topY < canvasHeight then Some(Tile(SnapToGrid(x), SnapToGrid(topY))) else None
  {
    var surfaceType := SurfaceOf(biome);
    var undergroundType := UndergroundOf(biome);
    var baseType := Stone;
    blocks := [];
    surface := None;
    ghost var n := RowCount(topY, canvasHeight);
    ghost var k: nat := 0;
    var y := topY;
    while y < canvasHeight
      invariant k <= n && y == RowY(topY, k) && |blocks| == k
      invariant blocks == Column(x, topY, canvasHeight, biome)[..k]
      invariant surface == if k > 0 then Some(Tile(SnapToGrid(x), SnapToGrid(topY))) else None
      decreases n - k
    {
      var t := undergroundType;
      if y == topY {
        t := surfaceType;
        surface := Some(Tile(SnapToGrid(x), SnapToGrid(y)));
      } else if y > canvasHeight - TileSize * 2.0 {
        t := baseType;
      }
      var depth := (y - topY) / TileSize;
      if depth > 8.0 {
        t := baseType;
      }
      assert t == TileKind(y, topY, canvasHeight, biome);
      ColumnPrefix(x, topY, canvasHeight, biome, k);
      blocks := blocks + [Placement(SnapToGrid(x), SnapToGrid(y), t)];
      y := y + TileSize;
      k := k + 1;
    }
    assert blocks == Column(x, topY, canvasHeight, biome);
    if topY < canvasHeight {
      assert RowY(topY, 0) < canvasHeight;
    }
  }

  /** Column `i` is laid at `x = i * TILE_SIZE`. */
  function ColumnX(i: nat): real {
    i as real * TileSize
  }

  /** The blocks of the first `n` columns, column `i` at `ColumnX(i)` in the
      biome current when it is laid. */
  function Columns(heights: seq<real>, canvasHeight: real, first: Biome,
                   switches: seq<real>, picks: seq<real>, n: nat): seq<Placement>
    requires n <= |heights| == |switches| == |picks| && AllDraws(picks)
  {
    if n == 0 then []
    else Columns(heights, canvasHeight, first, switches, picks, n - 1)
         + Column(ColumnX(n - 1), heights[n - 1], canvasHeight, BiomeAfter(first, switches, picks, n - 1))
  }

  /** The surface tiles of the first `n` columns. */
  function SurfaceTiles(heights: seq<real>, canvasHeight: real, n: nat): (ts: seq<Tile>)
    requires n <= |heights|
    ensures |ts| <= n
  {
    if n == 0 then []
    else
      var x := ColumnX(n - 1);
      SurfaceTiles(heights, canvasHeight, n - 1)
      + (if heights[n - 1] < canvasHeight then [Tile(SnapToGrid(x), SnapToGrid(heights[n - 1]))] else [])
  }

  /** When every surface is above the bottom of the canvas and on the grid,
      there is one surface tile per column, at that column's top. */
  lemma {:induction false} SurfaceTilesOnePerColumn(heights: seq<real>, canvasHeight: real, n: nat)
    requires n <= |heights|
    requires forall i :: 0 <= i < n ==> heights[i] < canvasHeight && OnGrid(heights[i])
    ensures |SurfaceTiles(heights, canvasHeight, n)| == n
    ensures forall i :: 0 <= i < n ==> SurfaceTiles(heights, canvasHeight, n)[i] == Tile(i as real * TileSize, heights[i])
  {
    if n > 0 {
      SurfaceTilesOnePerColumn(heights, canvasHeight, n - 1);
      OnGridShift(0.0, n - 1);
      SnapFixesGridPoints(0.0) by { assert (0.0 / TileSize).Floor == 0; }
      SnapFixesGridPoints(ColumnX(n - 1));
      SnapFixesGridPoints(heights[n - 1]);
    }
  }

  /** The column loop of `generateHillyTerrain`: the blocks of every column,
      the surface tiles, and the biome current at the end. */
  method GenerateColumns(heights: seq<real>, canvasHeight: real, first: Biome,
                         switches: seq<real>, picks: seq<real>)
    returns (blocks: seq<Placement>, surfaceTiles: seq<Tile>, last: Biome)
    requires |heights| == |switches| == |picks| && AllDraws(picks)
    ensures blocks == Columns(heights, canvasHeight, first, switches, picks, |heights|)
    ensures surfaceTiles == SurfaceTiles(heights, canvasHeight, |heights|)
    ensures last == BiomeAfter(first, switches, picks, |heights|)
  {
    blocks := [];
    surfaceTiles := [];
    var currentBiome := first;
    var i := 0;
    while i < |heights|
      invariant 0 <= i <= |heights|
      invariant blocks == Columns(heights, canvasHeight, first, switches, picks, i)
      invariant surfaceTiles == SurfaceTiles(heights, canvasHeight, i)
      invariant currentBiome == BiomeAfter(first, switches, picks, i)
    {
      var x := i as real * TileSize;
      assert x == ColumnX(i);
      var topY := heights[i];
      var column, surface := FillColumn(x, topY, canvasHeight, currentBiome);
      if switches[i] < 0.1 {
        currentBiome := RandomBiome(picks[i]);
      }
      assert currentBiome == BiomeAfter(first, switches, picks, i + 1);
      blocks := blocks + column;
      assert blocks == Columns(heights, canvasHeight, first, switches, picks, i + 1);
      if surface.Some? {
        surfaceTiles := surfaceTiles + [surface.value];
      }
      assert surfaceTiles == SurfaceTiles(heights, canvasHeight, i + 1);
      i := i + 1;
    }
    last := currentBiome;
  }

  // ---------------------------------------------------------------------
  // Trees

  /** The `treeChance` passed for the biome current at the end. */
  function TreeChance(b: Biome): real {
    if b == Forest then 0.15 else 0.05
  }

  /** `Math.floor(Math.random() * (maxHeight - minHeight + 1)) + minHeight`
      with the default bounds 4 and 10: `r * 7` lies in [0, 7), so its floor
      is found by comparing it with 1 to 6. The second `ensures` says that
      `h - 4` is that floor. */
  function TreeHeight(r: real): (h: int)
    requires IsDraw(r)
    ensures 4 <= h <= 10
    ensures (h - 4) as real <= r * 7.0 < (h - 3) as real
  {
    var s := r * 7.0;
    if s < 1.0 then 4 else if s < 2.0 then 5 else if s < 3.0 then 6 else if s < 4.0 then 7
    else if s < 5.0 then 8 else if s < 6.0 then 9 else 10
  }

  /** The trunk: `height` wood blocks straight up from the tile. */
  function Trunk(tile: Tile, height: nat): (t: seq<Placement>)
    ensures |t| == height
  {
    seq(height, i requires 0 <= i => Placement(tile.x, tile.y - (i + 1) as real * TileSize, Wood))
  }

  /** The leaf `dx` tiles right and `dy` tiles down of the top of the
      trunk. */
  function LeafAt(tile: Tile, height: nat, dx: int, dy: int): Placement {
    Placement(tile.x + dx as real * TileSize, tile.y - height as real * TileSize + dy as real * TileSize, Leaf)
  }

  /** The leaves: a 3 by 3 square of leaf blocks, row by row from the top,
      centred on the top of the trunk. */
  function Leaves(tile: Tile, height: nat): (l: seq<Placement>)
    ensures |l| == 9
  {
    [LeafAt(tile, height, -1, -1), LeafAt(tile, height, 0, -1), LeafAt(tile, height, 1, -1),
     LeafAt(tile, height, -1, 0), LeafAt(tile, height, 0, 0), LeafAt(tile, height, 1, 0),
     LeafAt(tile, height, -1, 1), LeafAt(tile, height, 0, 1), LeafAt(tile, height, 1, 1)]
  }

  function TreeBlocks(tile: Tile, height: nat): seq<Placement> {
    Trunk(tile, height) + Leaves(tile, height)
  }

  /** A tree of height `h` is `h + 9` blocks: the trunk in the tile's
      column, above the tile, and a square of leaves whose centre block sits
      exactly where the top trunk block is; on a grid tile, every block is
      on the grid. */
  lemma TreeShape(tile: Tile, height: nat)
    requires height > 0
    ensures var t := TreeBlocks(tile, height);
      && |t| == height + 9
      && (forall i :: 0 <= i < height ==> t[i].kind == Wood && t[i].x == tile.x && t[i].y < tile.y)
      && (forall i :: height <= i < |t| ==> t[i].kind == Leaf)
      && t[height + 4].x == t[height - 1].x && t[height + 4].y == t[height - 1].y
      && (OnGrid(tile.x) && OnGrid(tile.y) ==> forall i :: 0 <= i < |t| ==> OnGrid(t[i].x) && OnGrid(t[i].y))
  {
    var t := TreeBlocks(tile, height);
    if OnGrid(tile.x) && OnGrid(tile.y) {
      forall dx, dy | -1 <= dx <= 1 && -1 <= dy <= 1
        ensures OnGrid(LeafAt(tile, height, dx, dy).x) && OnGrid(LeafAt(tile, height, dx, dy).y)
      {
        OnGridShift(tile.x, dx);
        OnGridShift(tile.y, dy - height as int);
      }
      forall i | 0 <= i < |t| ensures OnGrid(t[i].x) && OnGrid(t[i].y) {
        if i < height {
          OnGridShift(tile.y, -(i + 1));
        }
      }
    }
  }

  /** The trunk and leaf loops for one tree. */
  method PlantTree(tile: Tile, height: nat) returns (blocks: seq<Placement>)
    ensures blocks == TreeBlocks(tile, height)
  {
    blocks := [];
    var h := 1;
    while h <= height
      invariant 1 <= h <= height + 1
      invariant blocks == Trunk(tile, height)[..h - 1]
    {
      blocks := blocks + [Placement(tile.x, tile.y - h as real * TileSize, Wood)];
      h := h + 1;
    }
    var leafTopY := tile.y - height as real * TileSize;
    ghost var leaves := Leaves(tile, height);
    var dy := -1;
    while dy <= 1
      invariant -1 <= dy <= 2
      invariant blocks == Trunk(tile, height) + leaves[..3 * (dy + 1)]
    {
      var dx := -1;
      while dx <= 1
        invariant -1 <= dx <= 2
        invariant blocks == Trunk(tile, height) + leaves[..3 * (dy + 1) + (dx + 1)]
      {
        var leafX := tile.x + dx as real * TileSize;
        var leafY := leafTopY + dy as real * TileSize;
        assert leaves[3 * (dy + 1) + (dx + 1)] == LeafAt(tile, height, dx, dy) == Placement(leafX, leafY, Leaf);
        blocks := blocks + [Placement(leafX, leafY, Leaf)];
        dx := dx + 1;
      }
      dy := dy + 1;
    }
  }

  /** The trees on the first `n` surface tiles: a tile gets a tree when its
      chance draw is below `chance`, of the height its height draw gives. */
  function Trees(tiles: seq<Tile>, chance: real, chanceDraws: seq<real>, heightDraws: seq<real>, n: nat): (r: seq<Placement>)
    requires n <= |tiles| == |chanceDraws| == |heightDraws| && AllDraws(heightDraws)
    // trees are made of wood and leaves only
    ensures forall k :: 0 <= k < |r| ==> r[k].kind == Wood || r[k].kind == Leaf
  {
    if n == 0 then []
    else Trees(tiles, chance, chanceDraws, heightDraws, n - 1)
         + TreeAt(tiles[n - 1], chance, chanceDraws[n - 1], heightDraws[n - 1])
  }

  /** The tree one surface tile gets, if any. */
  function TreeAt(tile: Tile, chance: real, chanceDraw: real, heightDraw: real): (t: seq<Placement>)
    requires IsDraw(heightDraw)
    ensures forall k :: 0 <= k < |t| ==> t[k].kind == Wood || t[k].kind == Leaf
  {
    if chanceDraw < chance then TreeBlocks(tile, TreeHeight(heightDraw)) else []
  }

  /** One pass of the loop in `generateTrees`: the tree of tile `i`, if
      any, appended to the trees of the tiles before it. */
  method MaybePlantTree(tiles: seq<Tile>, chance: real, chanceDraws: seq<real>, heightDraws: seq<real>,
                        i: nat, blocks: seq<Placement>)
    returns (more: seq<Placement>)
    requires i < |tiles| == |chanceDraws| == |heightDraws| && AllDraws(heightDraws)
    requires blocks == Trees(tiles, chance, chanceDraws, heightDraws, i)
    ensures more == Trees(tiles, chance, chanceDraws, heightDraws, i + 1)
  {
    more := blocks;
    if chanceDraws[i] < chance {
      var height := TreeHeight(heightDraws[i]);
      var tree := PlantTree(tiles[i], height);
      more := more + tree;
    }
  }

  /** Every tree adds between 13 and 19 blocks; no tile gets more than one. */
  lemma {:induction false} TreesSize(tiles: seq<Tile>, chance: real, chanceDraws: seq<real>, heightDraws: seq<real>, n: nat)
    requires n <= |tiles| == |chanceDraws| == |heightDraws| && AllDraws(heightDraws) && AllDraws(chanceDraws)
    ensures |Trees(tiles, chance, chanceDraws, heightDraws, n)| <= 19 * n
    ensures chance <= 0.0 ==> Trees(tiles, chance, chanceDraws, heightDraws, n) == []
  {
    if n > 0 {
      TreesSize(tiles, chance, chanceDraws, heightDraws, n - 1);
      TreeAtSize(tiles[n - 1], chance, chanceDraws[n - 1], heightDraws[n - 1]);
    }
  }

  lemma TreeAtSize(tile: Tile, chance: real, chanceDraw: real, heightDraw: real)
    requires IsDraw(heightDraw) && IsDraw(chanceDraw)
    ensures |TreeAt(tile, chance, chanceDraw, heightDraw)| <= 19
    ensures chance <= 0.0 ==> TreeAt(tile, chance, chanceDraw, heightDraw) == []
  {
    if chanceDraw < chance {
      var h := TreeHeight(heightDraw);
      assert |TreeBlocks(tile, h)| == h + 9;
    }
  }

  /** `generateTrees`. */
  method GenerateTrees(tiles: seq<Tile>, chance: real, chanceDraws: seq<real>, heightDraws: seq<real>)
    returns (blocks: seq<Placement>)
    requires |tiles| == |chanceDraws| == |heightDraws| && AllDraws(heightDraws)
    ensures blocks == Trees(tiles, chance, chanceDraws, heightDraws, |tiles|)
  {
    blocks := [];
    var i := 0;
    while i < |tiles|
      invariant 0 <= i <= |tiles|
      invariant blocks == Trees(tiles, chance, chanceDraws, heightDraws, i)
    {
      blocks := MaybePlantTree(tiles, chance, chanceDraws, heightDraws, i, blocks);
      i := i + 1;
    }
  }

  // ---------------------------------------------------------------------
  // The whole terrain

  /** The options `generateHillyTerrain` is called with. */
  const Roughness: real := 5.0
  const Smoothness: real := 0.6

  /** `minHeight` (half the canvas) and `maxHeight` (two tiles above the
      bottom). */
  function MinHeight(canvasHeight: real): real { canvasHeight / 2.0 }
  function MaxHeight(canvasHeight: real): real { canvasHeight - TileSize * 2.0 }

  /** The heights of the 150 columns. */
  function Heights(canvasHeight: real, startDraw: real, walkDraws: seq<real>): (hs: seq<real>)
    ensures |hs| == |walkDraws|
  {
    var lo := MinHeight(canvasHeight);
    var hi := MaxHeight(canvasHeight);
    Walk(StartHeight(startDraw, lo, hi), walkDraws, lo, hi, Roughness, Smoothness, |walkDraws|)
  }

  predicate TerrainDraws(startDraw: real, walkDraws: seq<real>, biomeDraw: real, switches: seq<real>,
                         picks: seq<real>, chanceDraws: seq<real>, heightDraws: seq<real>)
  {
    && IsDraw(startDraw) && IsDraw(biomeDraw)
    && |walkDraws| == |switches| == |picks| == |chanceDraws| == |heightDraws| == NumSegments
    && AllDraws(walkDraws) && AllDraws(switches) && AllDraws(picks) && AllDraws(chanceDraws) && AllDraws(heightDraws)
  }

  /** The surface tiles trees may grow on. */
  function TerrainTiles(canvasHeight: real, startDraw: real, walkDraws: seq<real>): seq<Tile> {
    var hs := Heights(canvasHeight, startDraw, walkDraws);
    SurfaceTiles(hs, canvasHeight, |hs|)
  }

  /** Every block `generateHillyTerrain` creates, in creation order: the
      columns left to right, then the trees on the surface tiles with the
      chance of the biome current at the end. */
  function HillyTerrain(canvasHeight: real, startDraw: real, walkDraws: seq<real>, biomeDraw: real,
                        switches: seq<real>, picks: seq<real>, chanceDraws: seq<real>, heightDraws: seq<real>)
    : seq<Placement>
    requires TerrainDraws(startDraw, walkDraws, biomeDraw, switches, picks, chanceDraws, heightDraws)
  {
    var hs := Heights(canvasHeight, startDraw, walkDraws);
    var first := RandomBiome(biomeDraw);
    var tiles := TerrainTiles(canvasHeight, startDraw, walkDraws);
    var last := BiomeAfter(first, switches, picks, |hs|);
    Columns(hs, canvasHeight, first, switches, picks, |hs|)
    + Trees(tiles, TreeChance(last), chanceDraws[..|tiles|], heightDraws[..|tiles|], |tiles|)
  }

  /** `generateHillyTerrain` without the block construction. */
  method GenerateHillyTerrain(canvasHeight: real, startDraw: real, walkDraws: seq<real>, biomeDraw: real,
                              switches: seq<real>, picks: seq<real>, chanceDraws: seq<real>, heightDraws: seq<real>)
    returns (placements: seq<Placement>)
    requires TerrainDraws(startDraw, walkDraws, biomeDraw, switches, picks, chanceDraws, heightDraws)
    ensures placements == HillyTerrain(canvasHeight, startDraw, walkDraws, biomeDraw, switches, picks,
                                       chanceDraws, heightDraws)
  {
    var minHeight := MinHeight(canvasHeight);
    var maxHeight := MaxHeight(canvasHeight);
    var lastY := StartHeight(startDraw, minHeight, maxHeight);
    var heights := GenerateHeights(lastY, walkDraws, minHeight, maxHeight, Roughness, Smoothness);
    var currentBiome := RandomBiome(biomeDraw);
    var columns, surfaceTiles, last := GenerateColumns(heights, canvasHeight, currentBiome, switches, picks);
    var n := |surfaceTiles|;
    var trees := GenerateTrees(surfaceTiles, TreeChance(last), chanceDraws[..n], heightDraws[..n]);
    placements := columns + trees;
  }

  predicate AllPlacedOnGrid(ps: seq<Placement>) {
    forall i :: 0 <= i < |ps| ==> OnGrid(ps[i].x) && OnGrid(ps[i].y)
  }

  predicate AllTilesOnGrid(ts: seq<Tile>) {
    forall i :: 0 <= i < |ts| ==> OnGrid(ts[i].x) && OnGrid(ts[i].y)
  }

  lemma {:induction false} ColumnsOnGrid(heights: seq<real>, canvasHeight: real, first: Biome,
                                         switches: seq<real>, picks: seq<real>, n: nat)
    requires n <= |heights| == |switches| == |picks| && AllDraws(picks)
    ensures AllPlacedOnGrid(Columns(heights, canvasHeight, first, switches, picks, n))
  {
    if n > 0 {
      ColumnsOnGrid(heights, canvasHeight, first, switches, picks, n - 1);
      var prev := Columns(heights, canvasHeight, first, switches, picks, n - 1);
      var col := Column(ColumnX(n - 1), heights[n - 1], canvasHeight, BiomeAfter(first, switches, picks, n - 1));
      var c := prev + col;
      forall i | 0 <= i < |c| ensures OnGrid(c[i].x) && OnGrid(c[i].y) {
        if i >= |prev| {
          assert c[i] == col[i - |prev|];
        } else {
          assert c[i] == prev[i];
        }
      }
    }
  }

  lemma {:induction false} SurfaceTilesOnGrid(heights: seq<real>, canvasHeight: real, n: nat)
    requires n <= |heights|
    ensures AllTilesOnGrid(SurfaceTiles(heights, canvasHeight, n))
  {
    if n > 0 {
      SurfaceTilesOnGrid(heights, canvasHeight, n - 1);
      var prev := SurfaceTiles(heights, canvasHeight, n - 1);
      var ts := SurfaceTiles(heights, canvasHeight, n);
      forall i | 0 <= i < |ts| ensures OnGrid(ts[i].x) && OnGrid(ts[i].y) {
        if i >= |prev| {
          assert ts[i] == Tile(SnapToGrid(ColumnX(n - 1)), SnapToGrid(heights[n - 1]));
        } else {
          assert ts[i] == prev[i];
        }
      }
    }
  }

  lemma {:induction false} TreesOnGrid(tiles: seq<Tile>, chance: real, chanceDraws: seq<real>, heightDraws: seq<real>, n: nat)
    requires n <= |tiles| == |chanceDraws| == |heightDraws| && AllDraws(heightDraws)
    requires AllTilesOnGrid(tiles)
    ensures AllPlacedOnGrid(Trees(tiles, chance, chanceDraws, heightDraws, n))
  {
    if n > 0 {
      TreesOnGrid(tiles, chance, chanceDraws, heightDraws, n - 1);
      if chanceDraws[n - 1] < chance {
        var prev := Trees(tiles, chance, chanceDraws, heightDraws, n - 1);
        var tree := TreeBlocks(tiles[n - 1], TreeHeight(heightDraws[n - 1]));
        TreeShape(tiles[n - 1], TreeHeight(heightDraws[n - 1]));
        var t := prev + tree;
        forall i | 0 <= i < |t| ensures OnGrid(t[i].x) && OnGrid(t[i].y) {
          if i >= |prev| {
            assert t[i] == tree[i - |prev|];
          } else {
            assert t[i] == prev[i];
          }
        }
      } else {
        assert Trees(tiles, chance, chanceDraws, heightDraws, n) == Trees(tiles, chance, chanceDraws, heightDraws, n - 1) + [];
      }
    }
  }

  /** Every generated block sits on the grid. */
  lemma TerrainOnGrid(canvasHeight: real, startDraw: real, walkDraws: seq<real>, biomeDraw: real,
                      switches: seq<real>, picks: seq<real>, chanceDraws: seq<real>, heightDraws: seq<real>)
    requires TerrainDraws(startDraw, walkDraws, biomeDraw, switches, picks, chanceDraws, heightDraws)
    ensures AllPlacedOnGrid(HillyTerrain(canvasHeight, startDraw, walkDraws, biomeDraw, switches, picks,
                                         chanceDraws, heightDraws))
  {
    var hs := Heights(canvasHeight, startDraw, walkDraws);
    var first := RandomBiome(biomeDraw);
    var tiles := TerrainTiles(canvasHeight, startDraw, walkDraws);
    var n := |tiles|;
    var columns := Columns(hs, canvasHeight, first, switches, picks, |hs|);
    var trees := Trees(tiles, TreeChance(BiomeAfter(first, switches, picks, |hs|)), chanceDraws[..n], heightDraws[..n], n);
    ColumnsOnGrid(hs, canvasHeight, first, switches, picks, |hs|);
    SurfaceTilesOnGrid(hs, canvasHeight, |hs|);
    assert AllDraws(heightDraws[..n]);
    TreesOnGrid(tiles, TreeChance(BiomeAfter(first, switches, picks, |hs|)), chanceDraws[..n], heightDraws[..n], n);
    var t := columns + trees;
    forall i | 0 <= i < |t| ensures OnGrid(t[i].x) && OnGrid(t[i].y) {
      if i >= |columns| {
        assert t[i] == trees[i - |columns|];
      } else {
        assert t[i] == columns[i];
      }
    }
  }

  /** On a canvas at least four tiles high, all 150 heights lie between
      the grid line at or above half the canvas and two tiles above the
      bottom, and each column contributes exactly one surface tile, at its
      own top. */
  lemma TerrainSurface(canvasHeight: real, startDraw: real, walkDraws: seq<real>)
    requires IsDraw(startDraw) && canvasHeight >= TileSize * 4.0
    ensures AllInBand(Heights(canvasHeight, startDraw, walkDraws), MinHeight(canvasHeight), MaxHeight(canvasHeight))
    ensures |TerrainTiles(canvasHeight, startDraw, walkDraws)| == |walkDraws|
    ensures forall i :: 0 <= i < |walkDraws| ==>
      TerrainTiles(canvasHeight, startDraw, walkDraws)[i] == Tile(i as real * TileSize, Heights(canvasHeight, startDraw, walkDraws)[i])
  {
    var lo := MinHeight(canvasHeight);
    var hi := MaxHeight(canvasHeight);
    var start := StartHeight(startDraw, lo, hi);
    StartHeightInBand(startDraw, lo, hi);
    assert lo <= hi && 0.0 <= Smoothness <= 1.0 && InBand(start, lo, hi);
    WalkInBand(start, walkDraws, lo, hi, Roughness, Smoothness, |walkDraws|);
    var hs := Heights(canvasHeight, startDraw, walkDraws);
    assert forall i :: 0 <= i < |hs| ==> hs[i] <= hi < canvasHeight;
    SurfaceTilesOnePerColumn(hs, canvasHeight, |hs|);
  }
}
