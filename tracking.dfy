/**
 * The per-world allocation ledger (`DungeonGenerationTracker`): the set of
 * block positions already used for dungeons, a dirty flag, and its NBT list
 * codec.
 */
module Tracking {
  import opened World
  import opened Nbt

  /**
   * The positions that deserialising `list` produces: every compound entry is
   * read back as a block position, every other entry is skipped.
   */
  function LoadedPositions(list: seq<Tag>): set<BlockPos> {
    if list == [] then {}
    else
      var last := list[|list| - 1];
      LoadedPositions(list[..|list| - 1]) + (if last.CompoundTag? then {ReadBlockPos(last.entries)} else {})
  }

  /** A position is loaded exactly when some compound entry of the list reads back as it. */
  lemma {:induction false} LoadedPositionsMeaning(list: seq<Tag>, p: BlockPos)
    ensures p in LoadedPositions(list) <==>
            exists i :: 0 <= i < |list| && list[i].CompoundTag? && ReadBlockPos(list[i].entries) == p
    decreases |list|
  {
    if list != [] {
      var init := list[..|list| - 1];
      LoadedPositionsMeaning(init, p);
      if p in LoadedPositions(init) {
        var i :| 0 <= i < |init| && init[i].CompoundTag? && ReadBlockPos(init[i].entries) == p;
        assert list[i] == init[i];
      }
      if exists i :: 0 <= i < |list| && list[i].CompoundTag? && ReadBlockPos(list[i].entries) == p {
        var i :| 0 <= i < |list| && list[i].CompoundTag? && ReadBlockPos(list[i].entries) == p;
        if i < |init| {
          assert init[i] == list[i];
        }
      }
    }
  }

  class DungeonGenerationTracker {
    var generatedDungeonPositions: set<BlockPos>
    var isDirty: bool

    constructor ()
      ensures generatedDungeonPositions == {} && !isDirty
    {
      generatedDungeonPositions := {};
      isDirty := false;
    }

    /** `addGeneratedDungeonPosition`: add `pos`; the ledger becomes dirty only if `pos` was new. */
    method AddGeneratedDungeonPosition(pos: BlockPos)
      modifies this
      ensures generatedDungeonPositions == old(generatedDungeonPositions) + {pos}
      ensures isDirty == (old(isDirty) || pos !in old(generatedDungeonPositions))
    {
      if pos !in generatedDungeonPositions {
        generatedDungeonPositions := generatedDungeonPositions + {pos};
        isDirty := true;
      }
    }

    /** `getGeneratedDungeonPositions`: the current set, read only. */
    method GetGeneratedDungeonPositions() returns (positions: set<BlockPos>)
      ensures positions == generatedDungeonPositions
    {
      positions := generatedDungeonPositions;
    }

    /** `isDirty`. */
    function IsDirty(): bool
      reads this
    {
      isDirty
    }

    /** `setClean`: clear the dirty flag and nothing else. */
    method SetClean()
      modifies this
      ensures !isDirty && generatedDungeonPositions == old(generatedDungeonPositions)
    {
      isDirty := false;
    }

    /**
     * `serializeNBT`: one compound entry per tracked position, in the set's
     * iteration order; the set is unchanged and the ledger is clean afterwards.
     * Deserialising the list gives back exactly the tracked set.
     */
    method SerializeNBT() returns (list: seq<Tag>)
      modifies this
      ensures generatedDungeonPositions == old(generatedDungeonPositions) && !isDirty
      ensures |list| == |generatedDungeonPositions|
      ensures forall i :: 0 <= i < |list| ==>
                list[i].CompoundTag? && ReadBlockPos(list[i].entries) in generatedDungeonPositions
      ensures LoadedPositions(list) == generatedDungeonPositions
    {
      list := [];
      var rest := generatedDungeonPositions;
      ghost var done: set<BlockPos> := {};
      while rest != {}
        invariant generatedDungeonPositions == old(generatedDungeonPositions)
        invariant rest !! done && rest + done == generatedDungeonPositions
        invariant |list| == |done|
        invariant forall i :: 0 <= i < |list| ==> list[i].CompoundTag? && ReadBlockPos(list[i].entries) in done
        invariant LoadedPositions(list) == done
        decreases |rest|
      {
        var pos :| pos in rest;
        BlockPosRoundTrip(pos);
        assert (list + [WriteBlockPos(pos)])[..|list|] == list;
        list := list + [WriteBlockPos(pos)];
        rest := rest - {pos};
        done := done + {pos};
      }
      SetClean();
    }

    /**
     * `deserializeNBT`: discard the previous contents and load the positions of
     * the compound entries, skipping the others; the dirty flag is untouched.
     */
    method DeserializeNBT(list: seq<Tag>)
      modifies this
      ensures generatedDungeonPositions == LoadedPositions(list)
      ensures isDirty == old(isDirty)
    {
      generatedDungeonPositions := {};
      for i := 0 to |list|
        invariant generatedDungeonPositions == LoadedPositions(list[..i])
        invariant isDirty == old(isDirty)
      {
        assert list[..i + 1][..i] == list[..i];
        if list[i].CompoundTag? {
          generatedDungeonPositions := generatedDungeonPositions + {ReadBlockPos(list[i].entries)};
        }
      }
      assert list[..|list|] == list;
    }
  }
}
