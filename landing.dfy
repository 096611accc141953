/**
 * The safe-spot search of `TeleportHandler.handleTeleport`: scan the box
 * x in [-5, 5], y in [0, 5], z in [-5, 5] around the dungeon origin, x then y
 * then z ascending, and take the first safe block; fall back to the origin.
 */
module Landing {
  import opened Wrappers
  import opened World

  const SEARCH_RADIUS: int := 5

  /** An offset from the dungeon origin. */
  datatype Vec = Vec(dx: int, dy: int, dz: int)

  function At(origin: BlockPos, v: Vec): BlockPos {
    origin.Offset(v.dx, v.dy, v.dz)
  }

  /** The scanned box: 11 x 6 x 11 = 726 offsets, none below the origin. */
  predicate InBox(v: Vec) {
    -SEARCH_RADIUS <= v.dx <= SEARCH_RADIUS && 0 <= v.dy <= SEARCH_RADIUS && -SEARCH_RADIUS <= v.dz <= SEARCH_RADIUS
  }

  /** Scan order: x ascending, then y ascending, then z ascending. */
  predicate LexBefore(a: Vec, b: Vec) {
    a.dx < b.dx || (a.dx == b.dx && (a.dy < b.dy || (a.dy == b.dy && a.dz < b.dz)))
  }

  /** Air or a replaceable block. */
  predicate Passable(s: BlockState) {
    s.isAir || s.canBeReplaced
  }

  /**
   * A safe landing block: foot and head blocks passable, a solid block below,
   * and no still water or still lava at the foot (the head is not checked for fluid).
   */
  predicate IsSafe(level: Level, p: BlockPos) {
    var lower := level.blockState(p);
    var upper := level.blockState(p.Above(1));
    var ground := level.blockState(p.Below());
    Passable(lower) && Passable(upper) && ground.isSolid && lower.fluid != Water && lower.fluid != Lava
  }

  /** The innermost loop: z from `z` to 5 in the row (x, y). */
  function ScanZ(level: Level, origin: BlockPos, x: int, y: int, z: int): (r: Option<Vec>)
    requires -SEARCH_RADIUS <= z <= SEARCH_RADIUS + 1
    ensures r.Some? ==> r.value.dx == x && r.value.dy == y && z <= r.value.dz <= SEARCH_RADIUS &&
                        IsSafe(level, At(origin, r.value))
    ensures forall k :: z <= k <= SEARCH_RADIUS && (r.None? || k < r.value.dz) ==>
                        !IsSafe(level, origin.Offset(x, y, k))
    decreases SEARCH_RADIUS + 1 - z
  {
    if z > SEARCH_RADIUS then None
    else if IsSafe(level, origin.Offset(x, y, z)) then Some(Vec(x, y, z))
    else ScanZ(level, origin, x, y, z + 1)
  }

  /** The middle loop: y from `y` to 5 in the slice x. */
  function ScanY(level: Level, origin: BlockPos, x: int, y: int): (r: Option<Vec>)
    requires 0 <= y <= SEARCH_RADIUS + 1
    ensures r.Some? ==> r.value.dx == x && y <= r.value.dy <= SEARCH_RADIUS &&
                        -SEARCH_RADIUS <= r.value.dz <= SEARCH_RADIUS && IsSafe(level, At(origin, r.value))
    ensures forall j, k :: y <= j <= SEARCH_RADIUS && -SEARCH_RADIUS <= k <= SEARCH_RADIUS &&
                           (r.None? || j < r.value.dy || (j == r.value.dy && k < r.value.dz)) ==>
                           !IsSafe(level, origin.Offset(x, j, k))
    decreases SEARCH_RADIUS + 1 - y
  {
    if y > SEARCH_RADIUS then None
    else
      match ScanZ(level, origin, x, y, -SEARCH_RADIUS)
      case Some(v) => Some(v)
      case None => ScanY(level, origin, x, y + 1)
  }

  /** The outer loop: x from `x` to 5. */
  function ScanX(level: Level, origin: BlockPos, x: int): (r: Option<Vec>)
    requires -SEARCH_RADIUS <= x <= SEARCH_RADIUS + 1
    ensures r.Some? ==> InBox(r.value) && x <= r.value.dx && IsSafe(level, At(origin, r.value))
    ensures forall i, j, k :: x <= i && InBox(Vec(i, j, k)) && (r.None? || LexBefore(Vec(i, j, k), r.value)) ==>
                              !IsSafe(level, origin.Offset(i, j, k))
    decreases SEARCH_RADIUS + 1 - x
  {
    if x > SEARCH_RADIUS then None
    else
      match ScanY(level, origin, x, 0)
      case Some(v) => Some(v)
      case None => ScanX(level, origin, x + 1)
  }

  /**
   * The offset the scan stops at: a safe offset in the box such that every
   * offset of the box scanned before it is unsafe; `None` when no offset of
   * the box is safe.
   */
  function FirstSafeOffset(level: Level, origin: BlockPos): (r: Option<Vec>)
    ensures r.Some? ==> InBox(r.value) && IsSafe(level, At(origin, r.value))
    ensures forall i, j, k :: InBox(Vec(i, j, k)) && (r.None? || LexBefore(Vec(i, j, k), r.value)) ==>
                              !IsSafe(level, origin.Offset(i, j, k))
  {
    ScanX(level, origin, -SEARCH_RADIUS)
  }

  /**
   * The block the player is sent to: the first safe block of the box, or the
   * origin itself when the box has none. It is never below the origin and at
   * most 5 blocks from it along each axis.
   */
  function SafeTarget(level: Level, origin: BlockPos): (target: BlockPos)
    ensures FirstSafeOffset(level, origin).Some? ==> IsSafe(level, target)
    ensures FirstSafeOffset(level, origin).Some? ==>
      var v := Vec(target.x - origin.x, target.y - origin.y, target.z - origin.z);
      InBox(v) && forall i, j, k :: InBox(Vec(i, j, k)) && LexBefore(Vec(i, j, k), v) ==> !IsSafe(level, origin.Offset(i, j, k))
    ensures FirstSafeOffset(level, origin).None? ==> target == origin
    ensures origin.y <= target.y <= origin.y + SEARCH_RADIUS
    ensures origin.x - SEARCH_RADIUS <= target.x <= origin.x + SEARCH_RADIUS
    ensures origin.z - SEARCH_RADIUS <= target.z <= origin.z + SEARCH_RADIUS
  {
    match FirstSafeOffset(level, origin)
    case Some(v) => At(origin, v)
    case None => origin
  }

  /** Only the foot block's fluid matters: changing the head block's fluid never changes safety. */
  lemma HeadFluidIgnored(level: Level, p: BlockPos, f: Fluid)
    ensures IsSafe(level, p) ==
            IsSafe(level.(blockState := q => if q == p.Above(1) then level.blockState(q).(fluid := f) else level.blockState(q)), p)
  {
    assert p != p.Above(1) && p.Below() != p.Above(1);
  }

  /**
   * The safe-spot search of `handleTeleport`, as three nested loops that stop
   * at the first safe candidate; returns the block the player is teleported to.
   */
  method HandleTeleport(level: Level, dungeonOrigin: BlockPos) returns (target: BlockPos)
    ensures target == SafeTarget(level, dungeonOrigin)
  {
    var safeTeleportPos: Option<BlockPos> := None;
    ghost var hit: Vec := Vec(0, 0, 0);
    var x := -SEARCH_RADIUS;
    while x <= SEARCH_RADIUS
      invariant -SEARCH_RADIUS <= x <= SEARCH_RADIUS + 1
      invariant safeTeleportPos.None?
      invariant ScanX(level, dungeonOrigin, -SEARCH_RADIUS) == ScanX(level, dungeonOrigin, x)
    {
      var y := 0;
      while y <= SEARCH_RADIUS
        invariant 0 <= y <= SEARCH_RADIUS + 1
        invariant safeTeleportPos.None?
        invariant ScanY(level, dungeonOrigin, x, 0) == ScanY(level, dungeonOrigin, x, y)
      {
        var z := -SEARCH_RADIUS;
        while z <= SEARCH_RADIUS
          invariant -SEARCH_RADIUS <= z <= SEARCH_RADIUS + 1
          invariant safeTeleportPos.None?
          invariant ScanZ(level, dungeonOrigin, x, y, -SEARCH_RADIUS) == ScanZ(level, dungeonOrigin, x, y, z)
        {
          var candidatePos := dungeonOrigin.Offset(x, y, z);
          if IsSafe(level, candidatePos) {
            safeTeleportPos := Some(candidatePos);
            hit := Vec(x, y, z);
            break;
          }
          z := z + 1;
        }
        if safeTeleportPos.Some? {
          assert ScanZ(level, dungeonOrigin, x, y, -SEARCH_RADIUS) == Some(hit);
          assert ScanY(level, dungeonOrigin, x, 0) == Some(hit);
          break;
        }
        y := y + 1;
      }
      if safeTeleportPos.Some? {
        assert ScanX(level, dungeonOrigin, -SEARCH_RADIUS) == Some(hit);
        break;
      }
      x := x + 1;
    }
    if safeTeleportPos.Some? {
      target := safeTeleportPos.value;
    } else {
      target := dungeonOrigin;
    }
  }
}
