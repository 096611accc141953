/**
 * `PositionSelector.selectPosition`: a bounded random search for a surface
 * position far enough from every dungeon already in the level's ledger,
 * which is recorded in the ledger before it is returned.
 */
module Placement {
  import opened Wrappers
  import opened World
  import opened Tracking

  const MIN_DISTANCE_BETWEEN_DUNGEONS: int := 500
  const MAX_ATTEMPTS: int := 50
  const SEARCH_RADIUS_AROUND_SPAWN: int := 20000

  /** The two `random.nextInt(SEARCH_RADIUS_AROUND_SPAWN * 2)` results drawn by one attempt. */
  datatype Draw = Draw(dx: int, dz: int)

  /** What `java.util.Random` supplies: a draw pair per attempt, each value in [0, 40000). */
  predicate DrawsInRange(draws: seq<Draw>) {
    |draws| >= MAX_ATTEMPTS &&
    forall i :: 0 <= i < |draws| ==>
      0 <= draws[i].dx < SEARCH_RADIUS_AROUND_SPAWN * 2 && 0 <= draws[i].dz < SEARCH_RADIUS_AROUND_SPAWN * 2
  }

  /** The surface block in the column the draw picks around the world spawn. */
  function GroundPos(level: Level, d: Draw): BlockPos {
    level.HeightmapPos(level.sharedSpawnPos.x + d.dx - SEARCH_RADIUS_AROUND_SPAWN,
                       level.sharedSpawnPos.z + d.dz - SEARCH_RADIUS_AROUND_SPAWN)
  }

  /** The ground is at least 10 blocks inside both build limits. */
  predicate InHeightBand(level: Level, ground: BlockPos) {
    level.minBuildHeight + 10 <= ground.y <= level.maxBuildHeight - 10
  }

  /** The ground block holds still water or still lava. */
  predicate OnWaterOrLava(level: Level, ground: BlockPos) {
    level.blockState(ground).fluid == Water || level.blockState(ground).fluid == Lava
  }

  /** `p` is at Manhattan distance at least 500 from every tracked position. */
  predicate FarFromAll(tracked: set<BlockPos>, p: BlockPos) {
    forall e :: e in tracked ==> DistManhattan(e, p) >= MIN_DISTANCE_BETWEEN_DUNGEONS
  }

  /** Every two distinct tracked positions are at Manhattan distance at least 500. */
  ghost predicate Separated(tracked: set<BlockPos>) {
    forall a, b :: a in tracked && b in tracked && a != b ==> DistManhattan(a, b) >= MIN_DISTANCE_BETWEEN_DUNGEONS
  }

  /** One iteration of the search loop: the proposed position if every check passes. */
  function Attempt(level: Level, tracked: set<BlockPos>, d: Draw): Option<BlockPos> {
    var ground := GroundPos(level, d);
    if ground.y < level.minBuildHeight + 10 || ground.y > level.maxBuildHeight - 10 then None
    else if OnWaterOrLava(level, ground) then None
    else
      var proposed := ground.Above(2);
      if FarFromAll(tracked, proposed) then Some(proposed) else None
  }

  /**
   * What the selector may return: a position within the search square around
   * spawn, two blocks above the surface of its own column, whose surface block
   * is inside the height band and holds no still water or lava, and which is
   * far from every tracked position.
   */
  predicate Acceptable(level: Level, tracked: set<BlockPos>, p: BlockPos) {
    var spawn := level.sharedSpawnPos;
    var ground := level.HeightmapPos(p.x, p.z);
    spawn.x - SEARCH_RADIUS_AROUND_SPAWN <= p.x < spawn.x + SEARCH_RADIUS_AROUND_SPAWN &&
    spawn.z - SEARCH_RADIUS_AROUND_SPAWN <= p.z < spawn.z + SEARCH_RADIUS_AROUND_SPAWN &&
    p == ground.Above(2) &&
    InHeightBand(level, ground) &&
    !OnWaterOrLava(level, ground) &&
    FarFromAll(tracked, p)
  }

  /** The search from attempt number `attempts` on: the first attempt that succeeds, if any. */
  function Search(level: Level, tracked: set<BlockPos>, draws: seq<Draw>, attempts: int): (r: Option<BlockPos>)
    requires DrawsInRange(draws) && 0 <= attempts <= MAX_ATTEMPTS
    ensures r.Some? ==> Acceptable(level, tracked, r.value)
    decreases MAX_ATTEMPTS - attempts
  {
    if attempts == MAX_ATTEMPTS then None
    else
      match Attempt(level, tracked, draws[attempts])
      case Some(p) => Some(p)
      case None => Search(level, tracked, draws, attempts + 1)
  }

  /**
   * The search is empty exactly when every remaining attempt fails, and
   * otherwise returns the candidate of the first attempt that passes.
   */
  lemma {:induction false} SearchFindsFirstPassingAttempt(level: Level, tracked: set<BlockPos>, draws: seq<Draw>, attempts: int)
    requires DrawsInRange(draws) && 0 <= attempts <= MAX_ATTEMPTS
    ensures var r := Search(level, tracked, draws, attempts);
      r.None? <==> forall i :: attempts <= i < MAX_ATTEMPTS ==> Attempt(level, tracked, draws[i]).None?
    ensures var r := Search(level, tracked, draws, attempts);
      r.Some? ==> exists i :: attempts <= i < MAX_ATTEMPTS && Attempt(level, tracked, draws[i]) == r &&
                              forall j :: attempts <= j < i ==> Attempt(level, tracked, draws[j]).None?
    decreases MAX_ATTEMPTS - attempts
  {
    if attempts < MAX_ATTEMPTS {
      SearchFindsFirstPassingAttempt(level, tracked, draws, attempts + 1);
    }
  }

  /** The ledger's contents, or `None` when the level has no ledger capability. */
  function Tracked(tracker: DungeonGenerationTracker?): Option<set<BlockPos>>
    reads tracker
  {
    if tracker == null then None else Some(tracker.generatedDungeonPositions)
  }

  /** The result of `selectPosition`: empty without a ledger, else the search from the first attempt. */
  function SelectedPosition(level: Level, tracked: Option<set<BlockPos>>, draws: seq<Draw>): Option<BlockPos>
    requires DrawsInRange(draws)
  {
    if tracked.None? then None else Search(level, tracked.value, draws, 0)
  }

  /** The search looks at no more than the first 50 draws. */
  lemma {:induction false} SearchUsesFirstDraws(level: Level, tracked: set<BlockPos>, draws: seq<Draw>, other: seq<Draw>, attempts: int)
    requires DrawsInRange(draws) && DrawsInRange(other) && 0 <= attempts <= MAX_ATTEMPTS
    requires draws[..MAX_ATTEMPTS] == other[..MAX_ATTEMPTS]
    ensures Search(level, tracked, draws, attempts) == Search(level, tracked, other, attempts)
    decreases MAX_ATTEMPTS - attempts
  {
    if attempts < MAX_ATTEMPTS {
      assert draws[attempts] == draws[..MAX_ATTEMPTS][attempts] == other[attempts];
      SearchUsesFirstDraws(level, tracked, draws, other, attempts + 1);
    }
  }

  /** A position far from every tracked one is not itself tracked. */
  lemma FarPositionIsNew(tracked: set<BlockPos>, p: BlockPos)
    requires FarFromAll(tracked, p)
    ensures p !in tracked
  {
  }

  /** Adding a position far from every tracked one keeps the ledger pairwise separated. */
  lemma AddingFarPositionKeepsSeparation(tracked: set<BlockPos>, p: BlockPos)
    requires Separated(tracked) && FarFromAll(tracked, p)
    ensures Separated(tracked + {p})
  {
    forall a, b | a in tracked + {p} && b in tracked + {p} && a != b
      ensures DistManhattan(a, b) >= MIN_DISTANCE_BETWEEN_DUNGEONS
    {
      if a == p {
        DistManhattanSymmetric(a, b);
      }
    }
  }

  /** The allocator keeps the ledger pairwise separated. */
  lemma SearchKeepsSeparation(level: Level, tracked: set<BlockPos>, draws: seq<Draw>)
    requires DrawsInRange(draws) && Separated(tracked)
    ensures Search(level, tracked, draws, 0).Some? ==> Separated(tracked + {Search(level, tracked, draws, 0).value})
  {
    var r := Search(level, tracked, draws, 0);
    if r.Some? {
      AddingFarPositionKeepsSeparation(tracked, r.value);
    }
  }

  /**
   * The inner loop of `selectPosition`: scan the tracked positions and stop at
   * the first one closer than 500 to `proposedPos`.
   */
  method TooClose(positions: set<BlockPos>, proposedPos: BlockPos) returns (tooClose: bool)
    ensures tooClose <==> !FarFromAll(positions, proposedPos)
  {
    tooClose := false;
    var rest := positions;
    while rest != {}
      invariant rest <= positions
      invariant forall e :: e in positions - rest ==> DistManhattan(e, proposedPos) >= MIN_DISTANCE_BETWEEN_DUNGEONS
      decreases |rest|
    {
      var existing :| existing in rest;
      if DistManhattan(existing, proposedPos) < MIN_DISTANCE_BETWEEN_DUNGEONS {
        tooClose := true;
        break;
      }
      rest := rest - {existing};
    }
  }

  /**
   * `selectPosition`. `tracker` is the level's ledger capability (null when
   * absent); `draws` are the random numbers drawn, one pair per attempt.
   * On success the returned position is added to the ledger, which becomes
   * dirty; on failure the ledger is untouched.
   */
  method SelectPosition(level: Level, tracker: DungeonGenerationTracker?, draws: seq<Draw>) returns (r: Option<BlockPos>)
    requires DrawsInRange(draws)
    modifies tracker
    ensures r == SelectedPosition(level, old(Tracked(tracker)), draws)
    ensures tracker != null && r.Some? ==>
      tracker.generatedDungeonPositions == old(tracker.generatedDungeonPositions) + {r.value} && tracker.isDirty
    ensures tracker != null && r.None? ==> unchanged(tracker)
    ensures tracker != null && old(Separated(tracker.generatedDungeonPositions)) ==>
      Separated(tracker.generatedDungeonPositions)
  {
    if tracker == null {
      return None;
    }
    ghost var tracked := tracker.generatedDungeonPositions;
    var spawnPoint := level.sharedSpawnPos;
    var attempts := 0;
    while attempts < MAX_ATTEMPTS
      invariant 0 <= attempts <= MAX_ATTEMPTS
      invariant unchanged(tracker)
      invariant Search(level, tracked, draws, 0) == Search(level, tracked, draws, attempts)
    {
      var d := draws[attempts];
      assert Search(level, tracked, draws, attempts) ==
             (match Attempt(level, tracked, d)
              case Some(p) => Some(p)
              case None => Search(level, tracked, draws, attempts + 1));
      attempts := attempts + 1;
      var x := spawnPoint.x + d.dx - SEARCH_RADIUS_AROUND_SPAWN;
      var z := spawnPoint.z + d.dz - SEARCH_RADIUS_AROUND_SPAWN;
      var groundPos := level.HeightmapPos(x, z);
      if groundPos.y < level.minBuildHeight + 10 || groundPos.y > level.maxBuildHeight - 10 {
        continue;
      }
      var fluid := level.blockState(groundPos).fluid;
      if fluid == Water || fluid == Lava {
        continue;
      }
      var proposedPos := groundPos.Above(2);
      var positions := tracker.GetGeneratedDungeonPositions();
      var tooClose := TooClose(positions, proposedPos);
      if !tooClose {
        FarPositionIsNew(tracked, proposedPos);
        if Separated(tracked) {
          AddingFarPositionKeepsSeparation(tracked, proposedPos);
        }
        tracker.AddGeneratedDungeonPosition(proposedPos);
        return Some(proposedPos);
      }
    }
    return None;
  }
}
