/**
 * The column generator run by every chunk worker (`chunk_worker` in
 * src/world.rs). For each of the 16x16 columns of a chunk it scans the
 * column from the top of the world down, choosing a material for every cell
 * with a small automaton (`in_terrain`, `surface_depth`), and then makes a
 * second pass upwards that plants short or tall grass on grass blocks.
 *
 * The floating-point noise is not modelled: the four decisions the generator
 * takes from it are the fields of a `NoiseField`.
 */
module Terrain {

  /** Height of a generated chunk, in cells (`HEIGHT`). */
  const HEIGHT: int := 384
  /** Cells below this height that hold no terrain are water (`WATER_HEIGHT`). */
  const WATER_HEIGHT: int := 55
  /** A chunk is CHUNK_WIDTH x CHUNK_WIDTH columns. */
  const CHUNK_WIDTH: int := 16

  /** Horizontal chunk coordinate (valence's `ChunkPos`). */
  datatype ChunkPos = ChunkPos(x: int, z: int)

  /** The block states the generator writes. */
  datatype Block =
    | Air | Water | Stone | Dirt | Gravel | GrassBlock
    | Grass | TallGrassLower | TallGrassUpper

  /** The grass-density noise, classified against the two thresholds 0.55 and 0.7. */
  datatype GrassDensity =
    | Sparse   // density <= 0.55: no decoration
    | Short    // 0.55 < density <= 0.7: short grass
    | Tall     // density > 0.7: tall grass where there is room

  /** A surface depth: `max(1.0).round()` makes it at least one. */
  type Depth = d: int | d >= 1 witness 1

  /**
   * The noise-derived decisions at a world point (x, y, z): whether the cell is
   * solid, the gravel line, the depth of the soil layer under a surface, and the
   * class of the grass density.
   */
  datatype NoiseField = NoiseField(
    hasTerrain: (int, int, int) -> bool,
    gravelHeight: (int, int, int) -> int,
    surfaceDepth: (int, int, int) -> Depth,
    grassDensity: (int, int, int) -> GrassDensity)

  /** One generated column, indexed by height from the bottom. */
  type Column = seq<Block>

  /** A generated chunk: `grid[z][x]` is the column at local (x, z). */
  type Grid = seq<seq<Column>>

  // ---------------------------------------------------------------------
  // Terrain pass
  // ---------------------------------------------------------------------

  /** The automaton's state between two cells: `in_terrain` and `surface_depth`. */
  datatype Scan = Scan(inTerrain: bool, depth: nat)

  /** Material of the first solid cell of a run. */
  function SurfaceBlock(y: int, gravelHeight: int): Block
  {
    if y < gravelHeight then Gravel
    else if y < WATER_HEIGHT then Dirt
    else GrassBlock
  }

  /** Material of a soil cell under the surface. */
  function SoilBlock(y: int, gravelHeight: int): Block
  {
    if y < gravelHeight then Gravel else Dirt
  }

  /** Visits cell y of column (wx, wz) in state s: the next state and the block written. */
  function TerrainStep(n: NoiseField, wx: int, wz: int, s: Scan, y: int): (Scan, Block)
  {
    if n.hasTerrain(wx, y, wz) then
      var gh := n.gravelHeight(wx, y, wz);
      if !s.inTerrain then
        (Scan(true, n.surfaceDepth(wx, y, wz)), SurfaceBlock(y, gh))
      else if s.depth > 0 then
        (Scan(true, s.depth - 1), SoilBlock(y, gh))
      else
        (s, Stone)
    else
      (Scan(false, 0), if y < WATER_HEIGHT then Water else Air)
  }

  /** The state in which the downward scan reaches cell y. */
  function ScanAbove(n: NoiseField, wx: int, wz: int, y: int): Scan
    requires 0 <= y < HEIGHT
    decreases HEIGHT - y
  {
    if y == HEIGHT - 1 then Scan(false, 0)
    else TerrainStep(n, wx, wz, ScanAbove(n, wx, wz, y + 1), y + 1).0
  }

  /** The block the terrain pass writes at height y. */
  function TerrainBlock(n: NoiseField, wx: int, wz: int, y: int): Block
    requires 0 <= y < HEIGHT
  {
    TerrainStep(n, wx, wz, ScanAbove(n, wx, wz, y), y).1
  }

  /** The whole column after the terrain pass. */
  function TerrainColumn(n: NoiseField, wx: int, wz: int): (c: Column)
    ensures |c| == HEIGHT
  {
    seq(HEIGHT, y requires 0 <= y < HEIGHT => TerrainBlock(n, wx, wz, y))
  }

  /**
   * The terrain pass of `chunk_worker`: scans the column from the top down,
   * keeping `in_terrain` and `surface_depth`, and writes every cell.
   */
  method TerrainPass(n: NoiseField, wx: int, wz: int, column: array<Block>)
    requires column.Length == HEIGHT
    modifies column
    ensures column[..] == TerrainColumn(n, wx, wz)
  {
    var inTerrain := false;
    var surfaceDepth: nat := 0;
    var y := HEIGHT;
    while y > 0
      invariant 0 <= y <= HEIGHT
      invariant 0 < y ==> Scan(inTerrain, surfaceDepth) == ScanAbove(n, wx, wz, y - 1)
      invariant forall k :: y <= k < HEIGHT ==> column[k] == TerrainBlock(n, wx, wz, k)
    {
      y := y - 1;
      var block: Block;
      if n.hasTerrain(wx, y, wz) {
        var gravelHeight := n.gravelHeight(wx, y, wz);
        if !inTerrain {
          inTerrain := true;
          surfaceDepth := n.surfaceDepth(wx, y, wz);
          if y < gravelHeight {
            block := Gravel;
          } else if y < WATER_HEIGHT {
            block := Dirt;
          } else {
            block := GrassBlock;
          }
        } else if surfaceDepth > 0 {
          surfaceDepth := surfaceDepth - 1;
          if y < gravelHeight {
            block := Gravel;
          } else {
            block := Dirt;
          }
        } else {
          block := Stone;
        }
      } else {
        inTerrain := false;
        surfaceDepth := 0;
        if y < WATER_HEIGHT {
          block := Water;
        } else {
          block := Air;
        }
      }
      column[y] := block;
    }
    assert column[..] == TerrainColumn(n, wx, wz);
  }

  // ---------------------------------------------------------------------
  // Terrain pass, described run by run
  // ---------------------------------------------------------------------

  /**
   * t is the top of the solid run that contains y: every cell from y up to t is
   * solid and the cell above t is not (or t is the top of the world).
   */
  ghost predicate RunTop(n: NoiseField, wx: int, wz: int, y: int, t: int)
  {
    && 0 <= y <= t < HEIGHT
    && (forall k :: y <= k <= t ==> n.hasTerrain(wx, k, wz))
    && (t == HEIGHT - 1 || !n.hasTerrain(wx, t + 1, wz))
  }

  /**
   * What a solid cell y of the run topped at t becomes: the surface material at
   * the top, then `surfaceDepth(top)` cells of gravel or dirt, then stone.
   */
  function RunBlock(n: NoiseField, wx: int, wz: int, y: int, t: int): Block
  {
    var gh := n.gravelHeight(wx, y, wz);
    if y == t then SurfaceBlock(y, gh)
    else if t - y <= n.surfaceDepth(wx, t, wz) then SoilBlock(y, gh)
    else Stone
  }

  /** Soil left below cell y of the run topped at t. */
  function DepthLeft(n: NoiseField, wx: int, wz: int, y: int, t: int): nat
  {
    var d := n.surfaceDepth(wx, t, wz) - (t - y);
    if d > 0 then d else 0
  }

  /** A non-solid cell resets the automaton: the next solid cell starts a fresh surface. */
  lemma OpenCellResets(n: NoiseField, wx: int, wz: int, y: int)
    requires 0 <= y < HEIGHT - 1 && !n.hasTerrain(wx, y + 1, wz)
    ensures ScanAbove(n, wx, wz, y) == Scan(false, 0)
  {
  }

  /** Inside a solid run the automaton is exactly in the state the run description predicts. */
  lemma {:induction false} RunStep(n: NoiseField, wx: int, wz: int, y: int, t: int)
    requires RunTop(n, wx, wz, y, t)
    ensures TerrainStep(n, wx, wz, ScanAbove(n, wx, wz, y), y)
            == (Scan(true, DepthLeft(n, wx, wz, y, t)), RunBlock(n, wx, wz, y, t))
    decreases t - y
  {
    if y == t {
      if t < HEIGHT - 1 {
        OpenCellResets(n, wx, wz, t);
      }
    } else {
      assert RunTop(n, wx, wz, y + 1, t);
      RunStep(n, wx, wz, y + 1, t);
    }
  }

  /** Every solid cell belongs to a run with a top. */
  lemma {:induction false} RunTopExists(n: NoiseField, wx: int, wz: int, y: int)
    requires 0 <= y < HEIGHT && n.hasTerrain(wx, y, wz)
    ensures exists t :: RunTop(n, wx, wz, y, t)
    decreases HEIGHT - y
  {
    if y == HEIGHT - 1 || !n.hasTerrain(wx, y + 1, wz) {
      assert RunTop(n, wx, wz, y, y);
    } else {
      RunTopExists(n, wx, wz, y + 1);
      var t :| RunTop(n, wx, wz, y + 1, t);
      assert RunTop(n, wx, wz, y, t);
    }
  }

  /**
   * The terrain pass, cell by cell: a non-solid cell is water below the water
   * line and air above it; a solid cell of the run topped at t is the surface
   * material at t, soil for the next `surfaceDepth(t)` cells, and stone below.
   */
  lemma TerrainBlockCases(n: NoiseField, wx: int, wz: int, y: int, t: int)
    requires 0 <= y < HEIGHT
    ensures !n.hasTerrain(wx, y, wz) ==>
              TerrainBlock(n, wx, wz, y) == (if y < WATER_HEIGHT then Water else Air)
    ensures RunTop(n, wx, wz, y, t) ==> TerrainBlock(n, wx, wz, y) == RunBlock(n, wx, wz, y, t)
  {
    if RunTop(n, wx, wz, y, t) {
      RunStep(n, wx, wz, y, t);
    }
  }

  /** The terrain pass never plants grass: those blocks come only from decoration. */
  lemma TerrainHasNoPlants(n: NoiseField, wx: int, wz: int)
    ensures NoPlants(TerrainColumn(n, wx, wz))
  {
  }

  // ---------------------------------------------------------------------
  // Decoration pass
  // ---------------------------------------------------------------------

  /** `is_air`: the generator only ever writes plain air. */
  predicate IsAir(b: Block)
  {
    b == Air
  }

  /** Cell y is an air cell directly on a grass block: it gets short or tall grass (lower half). */
  predicate OnGrassBlock(t: Column, y: int)
    requires |t| == HEIGHT
  {
    1 <= y < HEIGHT && IsAir(t[y]) && t[y - 1] == GrassBlock
  }

  /** Cell y receives the upper half of a tall grass planted at y - 1. */
  predicate TallGrassTop(n: NoiseField, wx: int, wz: int, t: Column, y: int)
    requires |t| == HEIGHT
  {
    2 <= y < HEIGHT && IsAir(t[y]) && OnGrassBlock(t, y - 1)
    && n.grassDensity(wx, y - 1, wz) == Tall
  }

  /** The block at y once the decoration pass has run over the terrain column t. */
  function Decorated(n: NoiseField, wx: int, wz: int, t: Column, y: int): Block
    requires |t| == HEIGHT && 0 <= y < HEIGHT
  {
    if OnGrassBlock(t, y) then
      match n.grassDensity(wx, y, wz)
      case Sparse => t[y]
      case Short => Grass
      case Tall => if y + 1 < HEIGHT && IsAir(t[y + 1]) then TallGrassLower else Grass
    else if TallGrassTop(n, wx, wz, t, y) then TallGrassUpper
    else t[y]
  }

  /** Decoration keeps every grass block, and creates none. */
  lemma DecoratedKeepsGrassBlocks(n: NoiseField, wx: int, wz: int, t: Column, y: int)
    requires |t| == HEIGHT && 0 <= y < HEIGHT
    ensures Decorated(n, wx, wz, t, y) == GrassBlock <==> t[y] == GrassBlock
  {
  }

  /**
   * The decoration pass of `chunk_worker`, in place: every air cell directly on
   * a grass block whose density is above 0.55 becomes grass; above 0.7, and with
   * air in the cell above, it becomes a two-cell tall grass instead.
   */
  method DecorationPass(n: NoiseField, wx: int, wz: int, column: array<Block>)
    requires column.Length == HEIGHT
    modifies column
    ensures forall y :: 0 <= y < HEIGHT ==> column[y] == Decorated(n, wx, wz, old(column[..]), y)
  {
    ghost var t := column[..];
    for y := 1 to HEIGHT
      invariant forall k :: 0 <= k < y ==> column[k] == Decorated(n, wx, wz, t, k)
      invariant forall k :: y < k < HEIGHT ==> column[k] == t[k]
      invariant y < HEIGHT ==> column[y] == if TallGrassTop(n, wx, wz, t, y) then TallGrassUpper else t[y]
    {
      var current := column[y];
      var below := column[y - 1];
      DecoratedKeepsGrassBlocks(n, wx, wz, t, y - 1);
      if IsAir(current) && below == GrassBlock {
        var density := n.grassDensity(wx, y, wz);
        if density != Sparse {
          if density == Tall && y + 1 < HEIGHT && IsAir(column[y + 1]) {
            column[y + 1] := TallGrassUpper;
            column[y] := TallGrassLower;
          } else {
            column[y] := Grass;
          }
        }
      }
    }
  }

  /** Decoration touches only air cells, and only on or two above a grass block. */
  lemma DecorationTouchesOnlyAirOverGrass(n: NoiseField, wx: int, wz: int, t: Column, y: int)
    requires |t| == HEIGHT && 0 <= y < HEIGHT
    requires Decorated(n, wx, wz, t, y) != t[y]
    ensures t[y] == Air
    ensures t[y - 1] == GrassBlock || (t[y - 1] == Air && t[y - 2] == GrassBlock)
    ensures Decorated(n, wx, wz, t, y) in {Grass, TallGrassLower, TallGrassUpper}
  {
  }

  /** A column with no grass of any kind, as the terrain pass leaves it. */
  predicate NoPlants(t: Column)
  {
    forall k :: 0 <= k < |t| ==> t[k] !in {Grass, TallGrassLower, TallGrassUpper}
  }

  /** Decorating a column without plants puts every tall grass lower half directly under an upper half. */
  lemma TallGrassPairs(n: NoiseField, wx: int, wz: int, t: Column, y: int)
    requires |t| == HEIGHT && NoPlants(t) && 0 <= y < HEIGHT - 1
    ensures Decorated(n, wx, wz, t, y) == TallGrassLower
            <==> Decorated(n, wx, wz, t, y + 1) == TallGrassUpper
  {
  }

  // ---------------------------------------------------------------------
  // Columns and chunks
  // ---------------------------------------------------------------------

  /** The column at world (wx, wz): the terrain pass followed by decoration. */
  function ColumnAt(n: NoiseField, wx: int, wz: int): (c: Column)
    ensures |c| == HEIGHT
  {
    var t := TerrainColumn(n, wx, wz);
    seq(HEIGHT, y requires 0 <= y < HEIGHT => Decorated(n, wx, wz, t, y))
  }

  /** Generates one column in a fresh buffer of air, as `chunk_worker` does inside a chunk. */
  method GenerateColumn(n: NoiseField, wx: int, wz: int) returns (column: Column)
    ensures column == ColumnAt(n, wx, wz)
  {
    var cells := new Block[HEIGHT](_ => Air);
    TerrainPass(n, wx, wz, cells);
    DecorationPass(n, wx, wz, cells);
    column := cells[..];
  }

  /** The chunk a worker produces for `pos`: column (x, z) sits at world (16 pos.x + x, 16 pos.z + z). */
  function ChunkAt(n: NoiseField, pos: ChunkPos): (g: Grid)
    ensures |g| == CHUNK_WIDTH
    ensures forall z :: 0 <= z < CHUNK_WIDTH ==> |g[z]| == CHUNK_WIDTH
    ensures forall z, x :: 0 <= z < CHUNK_WIDTH && 0 <= x < CHUNK_WIDTH ==>
              g[z][x] == ColumnAt(n, pos.x * CHUNK_WIDTH + x, pos.z * CHUNK_WIDTH + z)
  {
    seq(CHUNK_WIDTH, z requires 0 <= z < CHUNK_WIDTH =>
      seq(CHUNK_WIDTH, x requires 0 <= x < CHUNK_WIDTH =>
        ColumnAt(n, pos.x * CHUNK_WIDTH + x, pos.z * CHUNK_WIDTH + z)))
  }

  /** One row of `chunk_worker`'s x loop: the columns at x = 0..15 for a fixed z. */
  method GenerateRow(n: NoiseField, pos: ChunkPos, z: int) returns (row: seq<Column>)
    ensures |row| == CHUNK_WIDTH
    ensures forall x :: 0 <= x < CHUNK_WIDTH ==> row[x] == ColumnAt(n, pos.x * CHUNK_WIDTH + x, pos.z * CHUNK_WIDTH + z)
  {
    row := [];
    for x := 0 to CHUNK_WIDTH
      invariant |row| == x
      invariant forall j :: 0 <= j < x ==> row[j] == ColumnAt(n, pos.x * CHUNK_WIDTH + j, pos.z * CHUNK_WIDTH + z)
    {
      var column := GenerateColumn(n, pos.x * CHUNK_WIDTH + x, pos.z * CHUNK_WIDTH + z);
      row := row + [column];
    }
  }

  /**
   * The body of `chunk_worker` for one request: the z and x loops over the
   * chunk's columns. The result depends on nothing but the noise and `pos`.
   */
  method GenerateChunk(n: NoiseField, pos: ChunkPos) returns (grid: Grid)
    ensures grid == ChunkAt(n, pos)
  {
    ghost var g := ChunkAt(n, pos);
    grid := [];
    for z := 0 to CHUNK_WIDTH
      invariant |grid| == z
      invariant forall i :: 0 <= i < z ==> grid[i] == g[i]
    {
      var row := GenerateRow(n, pos, z);
      assert row == g[z];
      grid := grid + [row];
    }
  }


}
