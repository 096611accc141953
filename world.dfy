/**
 * The parts of the game world that the gate pipeline queries: block positions,
 * the block and fluid at a position, the build limits, the world spawn and the
 * surface heightmap. The engine itself is not modelled; a `Level` is an oracle.
 */
module World {

  /** An integer block coordinate (Minecraft's `BlockPos`). */
  datatype BlockPos = BlockPos(x: int, y: int, z: int)
  {
    /** `BlockPos.offset(dx, dy, dz)`. */
    function Offset(dx: int, dy: int, dz: int): BlockPos {
      BlockPos(x + dx, y + dy, z + dz)
    }

    /** `BlockPos.above(n)`. */
    function Above(n: int): BlockPos {
      BlockPos(x, y + n, z)
    }

    /** `BlockPos.below()`. */
    function Below(): BlockPos {
      BlockPos(x, y - 1, z)
    }
  }

  function Abs(n: int): nat {
    if n < 0 then -n else n
  }

  /** `Vec3i.distManhattan`: the sum of the absolute coordinate differences. */
  function DistManhattan(a: BlockPos, b: BlockPos): nat {
    Abs(a.x - b.x) + Abs(a.y - b.y) + Abs(a.z - b.z)
  }

  lemma DistManhattanSymmetric(a: BlockPos, b: BlockPos)
    ensures DistManhattan(a, b) == DistManhattan(b, a)
  {
  }

  /** The fluids a block can hold (the five entries of Minecraft's `Fluids`). */
  datatype Fluid = EmptyFluid | Water | FlowingWater | Lava | FlowingLava

  /** What the pipeline asks of a block state. */
  datatype BlockState = BlockState(isAir: bool, canBeReplaced: bool, isSolid: bool, fluid: Fluid)

  /**
   * A server level as seen by the pipeline: the shared spawn position, the
   * vertical build limits, the WORLD_SURFACE_WG heightmap and the block state
   * at every position.
   */
  datatype Level = Level(
    sharedSpawnPos: BlockPos,
    minBuildHeight: int,
    maxBuildHeight: int,
    surfaceHeight: (int, int) -> int,
    blockState: BlockPos -> BlockState)
  {
    /** `getHeightmapPos(WORLD_SURFACE_WG, new BlockPos(x, 0, z))`: same column, surface height. */
    function HeightmapPos(x: int, z: int): BlockPos {
      BlockPos(x, surfaceHeight(x, z), z)
    }
  }
}
