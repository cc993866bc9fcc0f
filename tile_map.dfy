/**
 * The tile map `_map` of both `Game1` variants: a two-dimensional `int` array,
 * read here as rows, and the nested-loop fill that sets every cell to grass.
 */
module TileMap {
  /** Cell value for grass (0 stands for an empty cell). */
  const Grass: int := 1

  /** A map cell address: column `x`, row `y`. */
  datatype Tile = Tile(x: int, y: int)

  /** The map as rows: `grid[y][x]` holds `_map[y, x]`, column `x` of row `y`. */
  ghost function Rows(m: array2<int>): seq<seq<int>>
    reads m
  {
    seq(m.Length0, y requires 0 <= y < m.Length0 reads m =>
      seq(m.Length1, x requires 0 <= x < m.Length1 reads m => m[y, x]))
  }

  predicate IsGrassTile(grid: seq<seq<int>>, t: Tile) {
    0 <= t.y < |grid| && 0 <= t.x < |grid[t.y]| && grid[t.y][t.x] == Grass
  }

  /** A `height x width` map with every cell set to `v`. */
  function Filled(height: nat, width: nat, v: int): seq<seq<int>> {
    seq(height, _ => seq(width, _ => v))
  }

  /** All cells of the map, row after row. */
  function Flatten(grid: seq<seq<int>>): seq<int>
    decreases |grid|
  {
    if grid == [] then [] else Flatten(grid[..|grid| - 1]) + grid[|grid| - 1]
  }

  /** How many cells of the map hold grass. */
  function GrassCount(grid: seq<seq<int>>): nat {
    multiset(Flatten(grid))[Grass]
  }

  /**
   * `_map = new int[height, width]` followed by the nested loops that set every
   * cell to grass, rows outside, columns inside.
   */
  method NewGrassMap(height: nat, width: nat) returns (m: array2<int>)
    ensures fresh(m) && m.Length0 == height && m.Length1 == width
    ensures forall y, x :: 0 <= y < height && 0 <= x < width ==> m[y, x] == Grass
    ensures Rows(m) == Filled(height, width, Grass)
  {
    m := new int[height, width];
    var y := 0;
    while y < m.Length0
      invariant 0 <= y <= height
      invariant forall i, j :: 0 <= i < y && 0 <= j < width ==> m[i, j] == Grass
    {
      var x := 0;
      while x < m.Length1
        invariant 0 <= x <= width
        invariant forall i, j :: 0 <= i < y && 0 <= j < width ==> m[i, j] == Grass
        invariant forall j :: 0 <= j < x ==> m[y, j] == Grass
      {
        m[y, x] := Grass;
        x := x + 1;
      }
      y := y + 1;
    }
    assert forall y :: 0 <= y < height ==> Rows(m)[y] == seq(width, _ => Grass);
  }

  /** A map filled entirely with grass has `height * width` grass cells. */
  lemma {:induction false} FilledGrassCount(height: nat, width: nat)
    ensures GrassCount(Filled(height, width, Grass)) == height * width
    decreases height
  {
    if height > 0 {
      var grid := Filled(height, width, Grass);
      assert grid[..height - 1] == Filled(height - 1, width, Grass);
      FilledGrassCount(height - 1, width);
      GrassRowCount(width);
      assert grid[height - 1] == seq(width, _ => Grass);
    }
  }

  lemma {:induction false} GrassRowCount(width: nat)
    ensures multiset(seq(width, _ => Grass))[Grass] == width
    decreases width
  {
    if width > 0 {
      var row := seq(width, _ => Grass);
      assert row == seq(width - 1, _ => Grass) + [Grass];
      GrassRowCount(width - 1);
    }
  }
}
