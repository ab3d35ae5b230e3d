/** Tile grid and axis-aligned boxes: `snapToGrid` and `isColliding`.
    Coordinates are top-left anchored, y grows downward. */
module Grid {

  /** TILE_SIZE: every block is one tile and every placement is snapped to it. */
  const TileSize: real := 32.0

  /** `v` is an exact multiple of the tile size. */
  predicate OnGrid(v: real) {
    (v / TileSize).Floor as real == v / TileSize
  }

  /** snapToGrid: round down to a multiple of the tile size. */
  function SnapToGrid(v: real): (r: real)
    ensures OnGrid(r)
    ensures r <= v < r + TileSize
  {
    (v / TileSize).Floor as real * TileSize
  }

  /** The snapped value is the greatest grid point at or below `v`. */
  lemma SnapIsGreatestGridPoint(v: real, g: real)
    requires OnGrid(g) && g <= v
    ensures g <= SnapToGrid(v)
  {
    var k := (g / TileSize).Floor;
    assert g == k as real * TileSize;
    assert k as real <= v / TileSize;
    assert k <= (v / TileSize).Floor;
  }

  /** The grid point less than one tile below `v`, if it is one, is the
      snapped value. */
  lemma SnapUnique(v: real, g: real)
    requires OnGrid(g) && g <= v < g + TileSize
    ensures SnapToGrid(v) == g
  {
    SnapIsGreatestGridPoint(v, g);
    var k, m := (g / TileSize).Floor, (v / TileSize).Floor;
    assert g == k as real * TileSize;
    assert SnapToGrid(v) == m as real * TileSize;
    assert (m as real) * TileSize < (k + 1) as real * TileSize;
    assert m < k + 1;
  }

  /** Grid points are left where they are. */
  lemma SnapFixesGridPoints(v: real)
    requires OnGrid(v)
    ensures SnapToGrid(v) == v
  {
    SnapIsGreatestGridPoint(v, v);
  }

  lemma SnapIdempotent(v: real)
    ensures SnapToGrid(SnapToGrid(v)) == SnapToGrid(v)
  {
    SnapFixesGridPoints(SnapToGrid(v));
  }

  lemma SnapMonotone(u: real, v: real)
    requires u <= v
    ensures SnapToGrid(u) <= SnapToGrid(v)
  {
    SnapIsGreatestGridPoint(v, SnapToGrid(u));
  }

  /** Moving a grid point by whole tiles keeps it on the grid. */
  lemma OnGridShift(v: real, k: int)
    requires OnGrid(v)
    ensures OnGrid(v + k as real * TileSize)
  {
    var f := (v / TileSize).Floor;
    assert (v + k as real * TileSize) / TileSize == (f + k) as real;
  }

  /** The shape every entity shares: `{x, y, width, height}`. */
  datatype Rect = Rect(x: real, y: real, width: real, height: real)

  /** isColliding: strict overlap on both axes. Spans that meet in an
      interval of positive length along x and along y always collide, and for
      boxes of positive size that is the only way to collide. */
  function IsColliding(a: Rect, b: Rect): (r: bool)
    ensures SpansMeet(a, b) ==> r
    ensures a.width > 0.0 && a.height > 0.0 && b.width > 0.0 && b.height > 0.0 ==> (r <==> SpansMeet(a, b))
  {
    a.x < b.x + b.width && a.x + a.width > b.x &&
    a.y < b.y + b.height && a.y + a.height > b.y
  }

  /** The spans of the two boxes overlap in an interval of positive length
      along both axes. */
  predicate SpansMeet(a: Rect, b: Rect) {
    && Max(a.x, b.x) < Min(a.x + a.width, b.x + b.width)
    && Max(a.y, b.y) < Min(a.y + a.height, b.y + b.height)
  }

  /** The point (px, py) lies strictly inside `r`. */
  predicate Inside(r: Rect, px: real, py: real) {
    r.x < px < r.x + r.width && r.y < py < r.y + r.height
  }

  function Max(a: real, b: real): real { if a < b then b else a }
  function Min(a: real, b: real): real { if a < b then a else b }

  /** For boxes of positive size, the strict test holds exactly when the
      open interiors of the two boxes share a point. */
  lemma CollidingIffInteriorsMeet(a: Rect, b: Rect)
    requires a.width > 0.0 && a.height > 0.0 && b.width > 0.0 && b.height > 0.0
    ensures IsColliding(a, b) <==> exists px, py :: Inside(a, px, py) && Inside(b, px, py)
  {
    if IsColliding(a, b) {
      var px := (Max(a.x, b.x) + Min(a.x + a.width, b.x + b.width)) / 2.0;
      var py := (Max(a.y, b.y) + Min(a.y + a.height, b.y + b.height)) / 2.0;
      assert Inside(a, px, py) && Inside(b, px, py);
    }
  }

  lemma CollidingSymmetric(a: Rect, b: Rect)
    ensures IsColliding(a, b) <==> IsColliding(b, a)
  {
  }

  /** A box of zero size strictly inside another one does collide with it:
      only a pair of flat boxes is kept apart by the strict test. */
  lemma PointInsideBoxCollides()
    ensures IsColliding(Rect(1.0, 1.0, 0.0, 0.0), Rect(0.0, 0.0, 2.0, 2.0))
  {
  }

  /** Two boxes that are both flat along one axis never collide. */
  lemma FlatBoxesNeverCollide(a: Rect, b: Rect)
    requires (a.width == 0.0 && b.width == 0.0) || (a.height == 0.0 && b.height == 0.0)
    ensures !IsColliding(a, b)
  {
  }
}
