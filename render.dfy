/**
 * The draw list both `Game1.Draw` variants emit: one grass sprite per map cell
 * that holds grass, row by row, and then the player sprite.
 */
module Render {
  import opened TileMap

  /** The two textures, as opaque handles. */
  datatype Texture = GrassTexture | PlayerTexture

  /** A destination rectangle on screen, in pixels. */
  datatype Rect = Rect(x: int, y: int, width: int, height: int)

  /** One `SpriteBatch.Draw` call. */
  datatype DrawCall = DrawCall(texture: Texture, dest: Rect)

  /** The on-screen square of a tile, shifted by the camera offset. */
  function TileRect(t: Tile, size: int, offsetX: int, offsetY: int): Rect {
    Rect(t.x * size + offsetX, t.y * size + offsetY, size, size)
  }

  /** Row-major order: earlier row, or same row and earlier column. */
  predicate RowMajorBefore(a: Tile, b: Tile) {
    a.y < b.y || (a.y == b.y && a.x < b.x)
  }

  /** Grass cells of row `y`, in the order the inner draw loop visits them. */
  function RowTiles(row: seq<int>, y: int): seq<Tile>
    decreases |row|
  {
    if row == [] then []
    else
      var x := |row| - 1;
      RowTiles(row[..x], y) + (if row[x] == Grass then [Tile(x, y)] else [])
  }

  /** Grass cells of the whole map, in the order the nested draw loops visit them. */
  function GrassTiles(grid: seq<seq<int>>): seq<Tile>
    decreases |grid|
  {
    if grid == [] then []
    else
      var y := |grid| - 1;
      GrassTiles(grid[..y]) + RowTiles(grid[y], y)
  }

  /** One grass draw call per tile, in the tiles' order. */
  function DrawTiles(tiles: seq<Tile>, size: int, offsetX: int, offsetY: int): seq<DrawCall>
    decreases |tiles|
  {
    if tiles == [] then []
    else
      var n := |tiles| - 1;
      DrawTiles(tiles[..n], size, offsetX, offsetY) + [DrawCall(GrassTexture, TileRect(tiles[n], size, offsetX, offsetY))]
  }

  lemma {:induction false} RowTilesSound(row: seq<int>, y: int)
    ensures forall i :: 0 <= i < |RowTiles(row, y)| ==>
              RowTiles(row, y)[i].y == y && 0 <= RowTiles(row, y)[i].x < |row| && row[RowTiles(row, y)[i].x] == Grass
    decreases |row|
  {
    if row != [] {
      RowTilesSound(row[..|row| - 1], y);
    }
  }

  lemma {:induction false} RowTilesAscending(row: seq<int>, y: int)
    ensures forall i, j :: 0 <= i < j < |RowTiles(row, y)| ==> RowTiles(row, y)[i].x < RowTiles(row, y)[j].x
    decreases |row|
  {
    if row != [] {
      RowTilesSound(row[..|row| - 1], y);
      RowTilesAscending(row[..|row| - 1], y);
    }
  }

  lemma {:induction false} RowTilesComplete(row: seq<int>, y: int)
    ensures forall x :: 0 <= x < |row| && row[x] == Grass ==> Tile(x, y) in RowTiles(row, y)
    decreases |row|
  {
    if row != [] {
      var n := |row| - 1;
      RowTilesComplete(row[..n], y);
      forall x | 0 <= x < |row| && row[x] == Grass ensures Tile(x, y) in RowTiles(row, y) {
        if x < n {
          assert row[..n][x] == row[x];
        }
      }
    }
  }

  lemma {:induction false} RowTilesCount(row: seq<int>, y: int)
    ensures |RowTiles(row, y)| == multiset(row)[Grass]
    decreases |row|
  {
    if row != [] {
      var n := |row| - 1;
      RowTilesCount(row[..n], y);
      assert row == row[..n] + [row[n]];
    }
  }

  /** Every grass draw is for a cell inside the map that holds grass. */
  lemma {:induction false} GrassTilesSound(grid: seq<seq<int>>)
    ensures forall i :: 0 <= i < |GrassTiles(grid)| ==> IsGrassTile(grid, GrassTiles(grid)[i])
    decreases |grid|
  {
    if grid != [] {
      var y := |grid| - 1;
      GrassTilesSound(grid[..y]);
      RowTilesSound(grid[y], y);
    }
  }

  /** Grass is drawn in strict row-major order, so no cell is drawn twice. */
  lemma {:induction false} GrassTilesRowMajor(grid: seq<seq<int>>)
    ensures forall i, j :: 0 <= i < j < |GrassTiles(grid)| ==> RowMajorBefore(GrassTiles(grid)[i], GrassTiles(grid)[j])
    decreases |grid|
  {
    if grid != [] {
      var y := |grid| - 1;
      GrassTilesSound(grid[..y]);
      GrassTilesRowMajor(grid[..y]);
      RowTilesSound(grid[y], y);
      RowTilesAscending(grid[y], y);
    }
  }

  /** Every grass cell of the map is drawn. */
  lemma {:induction false} GrassTilesComplete(grid: seq<seq<int>>)
    ensures forall t :: IsGrassTile(grid, t) ==> t in GrassTiles(grid)
    decreases |grid|
  {
    if grid != [] {
      var y := |grid| - 1;
      var earlier, last := GrassTiles(grid[..y]), RowTiles(grid[y], y);
      assert GrassTiles(grid) == earlier + last;
      GrassTilesComplete(grid[..y]);
      RowTilesComplete(grid[y], y);
      forall t | IsGrassTile(grid, t) ensures t in earlier + last {
        if t.y < y {
          assert grid[..y][t.y] == grid[t.y];
          assert IsGrassTile(grid[..y], t);
          assert t in earlier;
        } else {
          assert t == Tile(t.x, y) && grid[y][t.x] == Grass;
          assert t in last;
        }
      }
    }
  }

  /** As many grass draws as there are grass cells. */
  lemma {:induction false} GrassTilesCount(grid: seq<seq<int>>)
    ensures |GrassTiles(grid)| == GrassCount(grid)
    decreases |grid|
  {
    if grid != [] {
      var y := |grid| - 1;
      GrassTilesCount(grid[..y]);
      RowTilesCount(grid[y], y);
    }
  }

  /** The i-th grass draw is the grass texture over the i-th tile's square. */
  lemma {:induction false} DrawTilesAt(tiles: seq<Tile>, size: int, offsetX: int, offsetY: int)
    ensures |DrawTiles(tiles, size, offsetX, offsetY)| == |tiles|
    ensures forall i :: 0 <= i < |tiles| ==>
              DrawTiles(tiles, size, offsetX, offsetY)[i] == DrawCall(GrassTexture, TileRect(tiles[i], size, offsetX, offsetY))
    decreases |tiles|
  {
    if tiles != [] {
      DrawTilesAt(tiles[..|tiles| - 1], size, offsetX, offsetY);
    }
  }

  /** The map part of the draw list has one call per grass cell. */
  lemma DrawnGrassCount(grid: seq<seq<int>>, size: int, offsetX: int, offsetY: int)
    ensures |DrawTiles(GrassTiles(grid), size, offsetX, offsetY)| == GrassCount(grid)
  {
    DrawTilesAt(GrassTiles(grid), size, offsetX, offsetY);
    GrassTilesCount(grid);
  }

  /** Every grass cell of the map gets a grass sprite over its square. */
  lemma GrassCellDrawn(grid: seq<seq<int>>, t: Tile, size: int, offsetX: int, offsetY: int)
    requires IsGrassTile(grid, t)
    ensures DrawCall(GrassTexture, TileRect(t, size, offsetX, offsetY)) in DrawTiles(GrassTiles(grid), size, offsetX, offsetY)
  {
    var tiles := GrassTiles(grid);
    GrassTilesComplete(grid);
    var i :| 0 <= i < |tiles| && tiles[i] == t;
    DrawTilesAt(tiles, size, offsetX, offsetY);
    assert DrawTiles(tiles, size, offsetX, offsetY)[i] == DrawCall(GrassTexture, TileRect(t, size, offsetX, offsetY));
  }

  lemma RowTilesStep(row: seq<int>, x: nat, y: int)
    requires x < |row|
    ensures RowTiles(row[..x + 1], y) == RowTiles(row[..x], y) + (if row[x] == Grass then [Tile(x, y)] else [])
  {
    assert row[..x + 1][..x] == row[..x];
  }

  lemma DrawTilesStep(tiles: seq<Tile>, t: Tile, size: int, offsetX: int, offsetY: int)
    ensures DrawTiles(tiles + [t], size, offsetX, offsetY)
            == DrawTiles(tiles, size, offsetX, offsetY) + [DrawCall(GrassTexture, TileRect(t, size, offsetX, offsetY))]
  {
  }

  lemma {:induction false} DrawTilesAppend(a: seq<Tile>, b: seq<Tile>, size: int, offsetX: int, offsetY: int)
    ensures DrawTiles(a + b, size, offsetX, offsetY)
            == DrawTiles(a, size, offsetX, offsetY) + DrawTiles(b, size, offsetX, offsetY)
    decreases |b|
  {
    if b != [] {
      var n := |b| - 1;
      assert (a + b)[..|a| + n] == a + b[..n];
      DrawTilesAppend(a, b[..n], size, offsetX, offsetY);
    } else {
      assert a + b == a;
    }
  }

  /** The inner draw loop: grass sprites for the grass cells of row `y`, left to right. */
  method DrawRow(m: array2<int>, y: int, size: int, offsetX: int, offsetY: int) returns (calls: seq<DrawCall>)
    requires 0 <= y < m.Length0
    ensures calls == DrawTiles(RowTiles(Rows(m)[y], y), size, offsetX, offsetY)
  {
    ghost var row := Rows(m)[y];
    ghost var drawn: seq<Tile> := [];
    calls := [];
    var x := 0;
    while x < m.Length1
      invariant 0 <= x <= m.Length1 == |row|
      invariant drawn == RowTiles(row[..x], y)
      invariant calls == DrawTiles(drawn, size, offsetX, offsetY)
    {
      assert row[x] == m[y, x];
      RowTilesStep(row, x, y);
      if m[y, x] == Grass {
        DrawTilesStep(drawn, Tile(x, y), size, offsetX, offsetY);
        calls := calls + [DrawCall(GrassTexture, Rect(x * size + offsetX, y * size + offsetY, size, size))];
        drawn := drawn + [Tile(x, y)];
      }
      x := x + 1;
    }
    assert row[..x] == row;
  }

  /**
   * The nested loops of `Draw` over the map: a grass sprite at each grass cell,
   * row by row, every sprite shifted by the camera offset.
   */
  method DrawGrass(m: array2<int>, size: int, offsetX: int, offsetY: int) returns (calls: seq<DrawCall>)
    ensures calls == DrawTiles(GrassTiles(Rows(m)), size, offsetX, offsetY)
  {
    ghost var grid := Rows(m);
    calls := [];
    var y := 0;
    while y < m.Length0
      invariant 0 <= y <= m.Length0 == |grid|
      invariant calls == DrawTiles(GrassTiles(grid[..y]), size, offsetX, offsetY)
    {
      var rowCalls := DrawRow(m, y, size, offsetX, offsetY);
      assert grid[..y + 1][..y] == grid[..y];
      DrawTilesAppend(GrassTiles(grid[..y]), RowTiles(grid[y], y), size, offsetX, offsetY);
      calls := calls + rowCalls;
      y := y + 1;
    }
    assert grid[..y] == grid;
  }
}
