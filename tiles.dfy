/**
 The spatial tile index: a fixed grid of square tiles, each holding the ids of
 the entities whose position falls inside it, in insertion order.  World
 coordinates are non-negative integers, so the tile of a point is found by
 integer (floor) division by the tile size.
 */
module TileGrid {

  /** One cell of the world: its world-space origin, a cosmetic texture tag and
      the ids of the entities indexed in it. */
  datatype Tile = Tile(x: int, y: int, tileTexture: int, entityIds: seq<string>)

  /** Rows indexed by tile y, each row indexed by tile x. */
  type Grid = seq<seq<Tile>>

  /** Every row is as wide as the first one: the shape the constructor builds. */
  ghost predicate Rectangular(g: Grid) {
    forall j :: 0 <= j < |g| ==> |g[j]| == |g[0]|
  }

  /** Two grids have the same rows and row widths. */
  ghost predicate SameShape(g: Grid, h: Grid) {
    |h| == |g| && forall j :: 0 <= j < |g| ==> |h[j]| == |g[j]|
  }

  /** The bounds test of the radius scan, in the order the source evaluates it
      (the row count first, then the width of row 0). */
  predicate InGrid(g: Grid, tx: int, ty: int)
    ensures InGrid(g, tx, ty) && Rectangular(g) ==> 0 <= ty < |g| && 0 <= tx < |g[ty]|
  {
    ty >= 0 && tx >= 0 && ty < |g| && tx < |g[0]|
  }

  /** Number of iterations of a half-open range `0..n`: none when `n <= 0`. */
  function Count(n: int): nat {
    if n > 0 then n else 0
  }

  /** `world_to_tile_index`: the tile containing a world point is the floor of
      each coordinate divided by the tile size. */
  function TileIndex(tileSize: int, x: nat, y: nat): (t: (nat, nat))
    requires tileSize > 0
    ensures t.0 * tileSize <= x < t.0 * tileSize + tileSize
    ensures t.1 * tileSize <= y < t.1 * tileSize + tileSize
  {
    (x / tileSize, y / tileSize)
  }

  /** The grid with the id list of tile (tx, ty) replaced by `ids` and every
      other tile, and every other field of that tile, left as it was. */
  function WithIds(g: Grid, tx: nat, ty: nat, ids: seq<string>): (r: Grid)
    requires Rectangular(g) && InGrid(g, tx, ty)
    ensures Rectangular(r) && SameShape(g, r)
    ensures r[ty][tx] == g[ty][tx].(entityIds := ids)
    ensures forall j, i :: 0 <= j < |g| && 0 <= i < |g[j]| && (i != tx || j != ty) ==> r[j][i] == g[j][i]
  {
    g[ty := g[ty][tx := g[ty][tx].(entityIds := ids)]]
  }

  lemma {:induction false} SameShapeInGrid(g: Grid, h: Grid, tx: int, ty: int)
    requires SameShape(g, h)
    ensures InGrid(g, tx, ty) <==> InGrid(h, tx, ty)
  {
    if |g| > 0 {
      assert |h[0]| == |g[0]|;
    }
  }

  /** The grid after id moves from tile o to a different tile n: every
      occurrence leaves o, one is appended to n, nothing else changes. */
  function Moved(g: Grid, o: (nat, nat), n: (nat, nat), id: string): (r: Grid)
    requires Rectangular(g) && InGrid(g, o.0, o.1) && InGrid(g, n.0, n.1) && o != n
    ensures Rectangular(r) && SameShape(g, r)
    ensures r[o.1][o.0] == g[o.1][o.0].(entityIds := Retain(g[o.1][o.0].entityIds, id))
    ensures r[n.1][n.0] == g[n.1][n.0].(entityIds := g[n.1][n.0].entityIds + [id])
    ensures forall j, i :: 0 <= j < |g| && 0 <= i < |g[j]| && (i, j) != o && (i, j) != n ==> r[j][i] == g[j][i]
  {
    var h := WithIds(g, o.0, o.1, Retain(g[o.1][o.0].entityIds, id));
    SameShapeInGrid(g, h, n.0, n.1);
    WithIds(h, n.0, n.1, h[n.1][n.0].entityIds + [id])
  }

  /** `Vec::retain(|id| id != entity_id)`: every occurrence of `id` removed, the
      other ids kept in order. */
  function Retain(ids: seq<string>, id: string): (r: seq<string>)
    ensures forall e :: e in r <==> e in ids && e != id
    ensures |r| <= |ids|
  {
    if ids == [] then []
    else (if ids[0] == id then [] else [ids[0]]) + Retain(ids[1..], id)
  }

  /** Removing an absent id changes nothing. */
  lemma {:induction false} RetainAbsent(ids: seq<string>, id: string)
    requires id !in ids
    ensures Retain(ids, id) == ids
  {
    if ids != [] {
      RetainAbsent(ids[1..], id);
      assert ids == [ids[0]] + ids[1..];
    }
  }

  /** Retain works piecewise, so the surviving ids keep their relative order. */
  lemma {:induction false} RetainAppend(a: seq<string>, b: seq<string>, id: string)
    ensures Retain(a + b, id) == Retain(a, id) + Retain(b, id)
  {
    if a == [] {
      assert a + b == b;
    } else {
      var h := if a[0] == id then [] else [a[0]];
      assert (a + b)[0] == a[0];
      assert (a + b)[1..] == a[1..] + b;
      RetainAppend(a[1..], b, id);
      calc {
        Retain(a + b, id);
        h + Retain(a[1..] + b, id);
        h + (Retain(a[1..], id) + Retain(b, id));
        (h + Retain(a[1..], id)) + Retain(b, id);
      }
    }
  }

  /** Retain deletes exactly the occurrences of `id`: every other id keeps its
      number of occurrences. */
  lemma {:induction false} RetainMultiplicity(ids: seq<string>, id: string, e: string)
    ensures multiset(Retain(ids, id))[e] == if e == id then 0 else multiset(ids)[e]
  {
    if ids != [] {
      var rest := ids[1..];
      var here := if ids[0] == e then 1 else 0;
      RetainMultiplicity(rest, id, e);
      assert multiset(ids)[e] == multiset(rest)[e] + here by {
        assert ids == [ids[0]] + rest;
      }
      if ids[0] == id {
        assert Retain(ids, id) == Retain(rest, id);
      } else {
        assert multiset(Retain(ids, id))[e] == multiset(Retain(rest, id))[e] + here by {
          assert Retain(ids, id) == [ids[0]] + Retain(rest, id);
        }
      }
    }
  }

  lemma AppendAssoc(a: seq<string>, b: seq<string>, c: seq<string>)
    ensures (a + b) + c == a + (b + c)
  {
  }

  /** The ids in tile (nx, ny), or nothing for a coordinate outside the grid. */
  function Cell(g: Grid, nx: int, ny: int): seq<string>
    requires Rectangular(g)
  {
    if InGrid(g, nx, ny) then g[ny][nx].entityIds else []
  }

  /** Side of the scanned square: `-r..=r` has `2r + 1` values, none for r < 0. */
  function Side(r: int): nat {
    if r >= 0 then 2 * r + 1 else 0
  }

  /** The first k tiles of row ny, from dx = -r upwards, concatenated. */
  function RowScan(g: Grid, cx: int, ny: int, r: int, k: nat): seq<string>
    requires Rectangular(g)
  {
    if k == 0 then [] else RowScan(g, cx, ny, r, k - 1) + Cell(g, cx - r + k - 1, ny)
  }

  /** The first k rows of the square, from dy = -r upwards, concatenated. */
  function SquareScan(g: Grid, cx: int, cy: int, r: int, k: nat): seq<string>
    requires Rectangular(g)
  {
    if k == 0 then [] else SquareScan(g, cx, cy, r, k - 1) + RowScan(g, cx, cy - r + k - 1, r, Side(r))
  }

  /** Reference for the radius query: the id lists of the tiles of the square
      [cx-r, cx+r] x [cy-r, cy+r] that lie inside the grid, concatenated in
      row-major order (dy outer, dx inner). */
  function RadiusScan(g: Grid, cx: int, cy: int, r: int): seq<string>
    requires Rectangular(g)
  {
    SquareScan(g, cx, cy, r, Side(r))
  }

  lemma {:induction false} RowScanMembership(g: Grid, cx: int, ny: int, r: int, k: nat, id: string)
    requires Rectangular(g)
    ensures id in RowScan(g, cx, ny, r, k) <==>
            exists nx :: cx - r <= nx < cx - r + k && id in Cell(g, nx, ny)
  {
    if k > 0 {
      RowScanMembership(g, cx, ny, r, k - 1, id);
    }
  }

  /** An id found in the first k rows comes from one of them. */
  lemma {:induction false} SquareScanSource(g: Grid, cx: int, cy: int, r: int, k: nat, id: string)
    requires Rectangular(g) && id in SquareScan(g, cx, cy, r, k)
    ensures exists ny :: cy - r <= ny < cy - r + k && id in RowScan(g, cx, ny, r, Side(r))
  {
    var ry := cy - r + k - 1;
    if id in SquareScan(g, cx, cy, r, k - 1) {
      SquareScanSource(g, cx, cy, r, k - 1, id);
      var ny :| cy - r <= ny < cy - r + k - 1 && id in RowScan(g, cx, ny, r, Side(r));
      assert cy - r <= ny < cy - r + k;
    } else {
      assert id in RowScan(g, cx, ry, r, Side(r));
    }
  }

  /** An id of any of the first k rows is found. */
  lemma {:induction false} SquareScanFinds(g: Grid, cx: int, cy: int, r: int, k: nat, ny: int, id: string)
    requires Rectangular(g) && cy - r <= ny < cy - r + k && id in RowScan(g, cx, ny, r, Side(r))
    ensures id in SquareScan(g, cx, cy, r, k)
  {
    if ny < cy - r + k - 1 {
      SquareScanFinds(g, cx, cy, r, k - 1, ny, id);
    }
  }

  lemma SquareScanMembership(g: Grid, cx: int, cy: int, r: int, k: nat, id: string)
    requires Rectangular(g)
    ensures id in SquareScan(g, cx, cy, r, k) <==>
            exists ny :: cy - r <= ny < cy - r + k && id in RowScan(g, cx, ny, r, Side(r))
  {
    if id in SquareScan(g, cx, cy, r, k) {
      SquareScanSource(g, cx, cy, r, k, id);
    }
    if exists ny :: cy - r <= ny < cy - r + k && id in RowScan(g, cx, ny, r, Side(r)) {
      var ny :| cy - r <= ny < cy - r + k && id in RowScan(g, cx, ny, r, Side(r));
      SquareScanFinds(g, cx, cy, r, k, ny, id);
    }
  }

  /** An id is in the radius query exactly when some in-grid tile of the
      Chebyshev square around the centre holds it. */
  lemma RadiusScanMembership(g: Grid, cx: int, cy: int, r: int, id: string)
    requires Rectangular(g)
    ensures id in RadiusScan(g, cx, cy, r) <==>
            exists ny, nx :: cy - r <= ny <= cy + r && cx - r <= nx <= cx + r && id in Cell(g, nx, ny)
  {
    SquareScanMembership(g, cx, cy, r, Side(r), id);
    if id in RadiusScan(g, cx, cy, r) {
      var ny :| cy - r <= ny < cy - r + Side(r) && id in RowScan(g, cx, ny, r, Side(r));
      RowScanMembership(g, cx, ny, r, Side(r), id);
      var nx :| cx - r <= nx < cx - r + Side(r) && id in Cell(g, nx, ny);
      assert cy - r <= ny <= cy + r && cx - r <= nx <= cx + r;
    }
    if exists ny, nx :: cy - r <= ny <= cy + r && cx - r <= nx <= cx + r && id in Cell(g, nx, ny) {
      var ny, nx :| cy - r <= ny <= cy + r && cx - r <= nx <= cx + r && id in Cell(g, nx, ny);
      RowScanMembership(g, cx, ny, r, Side(r), id);
      assert id in RowScan(g, cx, ny, r, Side(r));
    }
  }

  /** A larger radius finds every id a smaller one finds. */
  lemma RadiusMonotone(g: Grid, cx: int, cy: int, r1: int, r2: int, id: string)
    requires Rectangular(g) && 0 <= r1 <= r2
    requires id in RadiusScan(g, cx, cy, r1)
    ensures id in RadiusScan(g, cx, cy, r2)
  {
    RadiusScanMembership(g, cx, cy, r1, id);
    RadiusScanMembership(g, cx, cy, r2, id);
  }

  /** Radius 0 is exactly the centre tile's list (empty when the centre lies
      outside the grid). */
  lemma RadiusZero(g: Grid, cx: int, cy: int)
    requires Rectangular(g)
    ensures RadiusScan(g, cx, cy, 0) == Cell(g, cx, cy)
  {
    assert RowScan(g, cx, cy, 0, 1) == [] + Cell(g, cx, cy);
    assert SquareScan(g, cx, cy, 0, 1) == [] + RowScan(g, cx, cy, 0, 1);
  }

  /** A negative radius is an empty range and finds nothing. */
  lemma RadiusNegative(g: Grid, cx: int, cy: int, r: int)
    requires Rectangular(g) && r < 0
    ensures RadiusScan(g, cx, cy, r) == []
  {
  }

  /** The inner loop of the radius query: append the lists of the in-grid
      tiles of row ny, from dx = -radius to dx = radius, to `acc`. */
  method ScanRow(g: Grid, tileX: int, ny: int, radius: int, acc: seq<string>) returns (entityIds: seq<string>)
    requires Rectangular(g)
    ensures entityIds == acc + RowScan(g, tileX, ny, radius, Side(radius))
  {
    entityIds := acc;
    var dx := -radius;
    while dx <= radius
      invariant radius < 0 ==> dx == -radius && entityIds == acc
      invariant radius >= 0 ==>
                  -radius <= dx <= radius + 1 && entityIds == acc + RowScan(g, tileX, ny, radius, dx + radius)
    {
      var nx := tileX + dx;
      ghost var row := RowScan(g, tileX, ny, radius, dx + radius);
      if ny >= 0 && nx >= 0 && ny < |g| && nx < |g[0]| {
        assert |g[ny]| == |g[0]|;
        entityIds := entityIds + g[ny][nx].entityIds;
      }
      AppendAssoc(acc, row, Cell(g, nx, ny));
      dx := dx + 1;
    }
    if radius < 0 {
      assert entityIds == acc + [];
    }
  }

  /** The tile index: `tiles` rows of tiles and the tile size it was built with. */
  class Tiles {
    var tiles: Grid
    const tileSize: int

    ghost predicate Valid()
      reads this
    {
      Rectangular(tiles)
    }

    /** `Tiles::new`: `yMax` rows of `xMax` empty tiles, tile (x, y) with origin
        (x * tileSize, y * tileSize) and texture 1. */
    constructor (xMax: int, yMax: int, tileSize: int)
      ensures Valid() && this.tileSize == tileSize
      ensures |tiles| == Count(yMax)
      ensures forall j :: 0 <= j < |tiles| ==> |tiles[j]| == Count(xMax)
      ensures forall j, i :: 0 <= j < |tiles| && 0 <= i < |tiles[j]| ==>
                tiles[j][i] == Tile(i * tileSize, j * tileSize, 1, [])
    {
      var grid: Grid := [];
      var y := 0;
      while y < yMax
        invariant 0 <= y <= Count(yMax)
        invariant |grid| == y
        invariant forall j :: 0 <= j < y ==> |grid[j]| == Count(xMax)
        invariant forall j, i :: 0 <= j < y && 0 <= i < |grid[j]| ==>
                    grid[j][i] == Tile(i * tileSize, j * tileSize, 1, [])
      {
        var row: seq<Tile> := [];
        var x := 0;
        while x < xMax
          invariant 0 <= x <= Count(xMax)
          invariant |row| == x
          invariant forall i :: 0 <= i < x ==> row[i] == Tile(i * tileSize, y * tileSize, 1, [])
        {
          row := row + [Tile(x * tileSize, y * tileSize, 1, [])];
          x := x + 1;
        }
        grid := grid + [row];
        y := y + 1;
      }
      tiles := grid;
      this.tileSize := tileSize;
    }

    /** `add_entity`: append the id to the end of the tile holding (x, y); no
        duplicate check.  Indexing panics outside the grid, hence the requires. */
    method AddEntity(entityId: string, x: nat, y: nat)
      requires Valid() && tileSize > 0
      requires InGrid(tiles, TileIndex(tileSize, x, y).0, TileIndex(tileSize, x, y).1)
      modifies this
      ensures Valid()
      ensures var t := TileIndex(tileSize, x, y);
              tiles == WithIds(old(tiles), t.0, t.1, old(tiles)[t.1][t.0].entityIds + [entityId])
    {
      var t := TileIndex(tileSize, x, y);
      tiles := WithIds(tiles, t.0, t.1, tiles[t.1][t.0].entityIds + [entityId]);
    }

    /** `remove_entity`: drop every occurrence of the id from tile (tx, ty). */
    method RemoveEntity(entityId: string, tx: nat, ty: nat)
      requires Valid() && InGrid(tiles, tx, ty)
      modifies this
      ensures Valid()
      ensures tiles == WithIds(old(tiles), tx, ty, Retain(old(tiles)[ty][tx].entityIds, entityId))
      ensures entityId !in tiles[ty][tx].entityIds
    {
      tiles := WithIds(tiles, tx, ty, Retain(tiles[ty][tx].entityIds, entityId));
    }

    /** `move_entity`: when the old and new points fall in different tiles,
        remove the id from the old tile and append it to the new one; otherwise
        leave the grid alone.  Only the tiles it touches must be in the grid. */
    method MoveEntity(entityId: string, oldX: nat, oldY: nat, newX: nat, newY: nat)
      requires Valid() && tileSize > 0
      requires var o, n := TileIndex(tileSize, oldX, oldY), TileIndex(tileSize, newX, newY);
               o != n ==> InGrid(tiles, o.0, o.1) && InGrid(tiles, n.0, n.1)
      modifies this
      ensures Valid()
      ensures var o, n := TileIndex(tileSize, oldX, oldY), TileIndex(tileSize, newX, newY);
              o == n ==> tiles == old(tiles)
      ensures var o, n := TileIndex(tileSize, oldX, oldY), TileIndex(tileSize, newX, newY);
              o != n ==> tiles == Moved(old(tiles), o, n, entityId) && entityId !in tiles[o.1][o.0].entityIds
    {
      var o := TileIndex(tileSize, oldX, oldY);
      var n := TileIndex(tileSize, newX, newY);
      if o.0 != n.0 || o.1 != n.1 {
        RemoveEntity(entityId, o.0, o.1);
        tiles := WithIds(tiles, n.0, n.1, tiles[n.1][n.0].entityIds + [entityId]);
      }
    }

    /** `get_entities_in_radius`: scan the square of tiles around the centre
        tile, skipping coordinates outside the grid. */
    method GetEntitiesInRadius(x: nat, y: nat, radius: int) returns (entityIds: seq<string>)
      requires Valid() && tileSize > 0
      ensures entityIds == RadiusScan(tiles, TileIndex(tileSize, x, y).0, TileIndex(tileSize, x, y).1, radius)
    {
      var t := TileIndex(tileSize, x, y);
      var tileX, tileY := t.0, t.1;
      entityIds := [];
      var dy := -radius;
      while dy <= radius
        invariant radius < 0 ==> dy == -radius && entityIds == []
        invariant radius >= 0 ==>
                    -radius <= dy <= radius + 1 && entityIds == SquareScan(tiles, tileX, tileY, radius, dy + radius)
      {
        entityIds := ScanRow(tiles, tileX, tileY + dy, radius, entityIds);
        dy := dy + 1;
      }
    }
  }
}
