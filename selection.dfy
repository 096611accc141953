/**
 * `DungeonSelector.selectDungeons`: look the lower-cased type up in the
 * catalog and keep, in order, the entries of at least the given difficulty.
 */
module Selection {
  import opened Wrappers
  import opened Text
  import opened Dungeons
  import opened Registry

  /** The stream filter `difficulty() >= minimumDifficulty`. */
  function AtLeast(list: seq<DungeonData>, minimumDifficulty: int): (r: seq<DungeonData>)
    ensures |r| <= |list|
    ensures forall d :: d in r <==> d in list && d.difficulty >= minimumDifficulty
  {
    if list == [] then []
    else
      assert forall e :: e in list <==> e == list[0] || e in list[1..];
      (if list[0].difficulty >= minimumDifficulty then [list[0]] else []) + AtLeast(list[1..], minimumDifficulty)
  }

  /** The filter keeps the input order: it distributes over concatenation. */
  lemma {:induction false} AtLeastAppend(a: seq<DungeonData>, b: seq<DungeonData>, minimumDifficulty: int)
    ensures AtLeast(a + b, minimumDifficulty) == AtLeast(a, minimumDifficulty) + AtLeast(b, minimumDifficulty)
    decreases |a|
  {
    if a == [] {
      assert a + b == b;
    } else {
      assert (a + b)[0] == a[0] && (a + b)[1..] == a[1..] + b;
      AtLeastAppend(a[1..], b, minimumDifficulty);
    }
  }

  /** Filtering at a higher minimum is filtering the lower minimum's result again. */
  lemma {:induction false} AtLeastNarrows(list: seq<DungeonData>, low: int, high: int)
    requires low <= high
    ensures AtLeast(AtLeast(list, low), high) == AtLeast(list, high)
    decreases |list|
  {
    if list != [] {
      var x, rest := list[0], list[1..];
      AtLeastNarrows(rest, low, high);
      if x.difficulty >= low {
        var kept := [x] + AtLeast(rest, low);
        assert AtLeast(list, low) == kept;
        assert kept[0] == x && kept[1..] == AtLeast(rest, low);
        assert AtLeast(kept, high) == (if x.difficulty >= high then [x] else []) + AtLeast(AtLeast(rest, low), high);
      } else {
        assert AtLeast(list, low) == AtLeast(rest, low);
        assert AtLeast(list, high) == AtLeast(rest, high);
      }
    }
  }

  /** True when the selector's guard lets `dungeonType` through to the lookup. */
  predicate UsableType(dungeonType: Option<string>) {
    dungeonType.Some? && dungeonType.value != ""
  }

  /**
   * `selectDungeons(type, minimumDifficulty)` over the registry's read-only
   * view `catalog`: a null or empty type, an absent key or an empty group
   * yields the empty list; otherwise the group under `type.toLowerCase()`
   * restricted to difficulty at least `minimumDifficulty`, in order.
   */
  function SelectDungeons(catalog: map<string, seq<DungeonData>>, dungeonType: Option<string>, minimumDifficulty: int)
    : (r: seq<DungeonData>)
    ensures !UsableType(dungeonType) ==> r == []
    ensures UsableType(dungeonType) && ToLowerCase(dungeonType.value) !in catalog ==> r == []
    ensures forall d :: d in r <==>
      UsableType(dungeonType) && ToLowerCase(dungeonType.value) in catalog &&
      d in catalog[ToLowerCase(dungeonType.value)] && d.difficulty >= minimumDifficulty
    ensures UsableType(dungeonType) && ToLowerCase(dungeonType.value) in catalog ==>
      r == AtLeast(catalog[ToLowerCase(dungeonType.value)], minimumDifficulty)
  {
    if dungeonType.None? || dungeonType.value == "" then []
    else
      var key := ToLowerCase(dungeonType.value);
      if key !in catalog || catalog[key] == [] then []
      else AtLeast(catalog[key], minimumDifficulty)
  }

  /** Raising the minimum difficulty never adds entries: the result only loses entries. */
  lemma RaisingMinimumNeverAdds(catalog: map<string, seq<DungeonData>>, dungeonType: Option<string>, low: int, high: int)
    requires low <= high
    ensures SelectDungeons(catalog, dungeonType, high) == AtLeast(SelectDungeons(catalog, dungeonType, low), high)
    ensures |SelectDungeons(catalog, dungeonType, high)| <= |SelectDungeons(catalog, dungeonType, low)|
  {
    if UsableType(dungeonType) && ToLowerCase(dungeonType.value) in catalog {
      AtLeastNarrows(catalog[ToLowerCase(dungeonType.value)], low, high);
    }
  }

  /**
   * As written, the catalog is keyed by the verbatim type while the selector
   * looks up the lower-cased type, so a record whose type has an upper-case
   * letter is never selected, whatever the key.
   */
  lemma MixedCaseTypeUnreachable(prepared: seq<DungeonData>, d: DungeonData, dungeonType: Option<string>, minimumDifficulty: int)
    requires d in prepared && !NoUpper(d.dungeonType)
    ensures d !in SelectDungeons(GroupBy(prepared), dungeonType, minimumDifficulty)
  {
    if UsableType(dungeonType) {
      var key := ToLowerCase(dungeonType.value);
      LowerHasNoUpper(dungeonType.value);
      GroupByMeaning(prepared);
    }
  }

  /**
   * The concrete case: a data file `{structure: "d1", type: "Cave", difficulty: 2}`
   * passes validation and is loaded, yet no selection ever returns it.
   */
  lemma MixedCaseCaveRecordIsLost(dungeonType: Option<string>, minimumDifficulty: int)
    ensures ValidateDungeonData(RawDungeon(Some("d1"), Some("Cave"), 2))
    ensures KeepValid([Some(RawDungeon(Some("d1"), Some("Cave"), 2))]) == [DungeonData("d1", "Cave", 2)]
    ensures SelectDungeons(GroupBy([DungeonData("d1", "Cave", 2)]), dungeonType, minimumDifficulty) == []
  {
    var raw := RawDungeon(Some("d1"), Some("Cave"), 2);
    assert ToLowerCase("Cave") == "cave";
    assert !NoUpper("Cave") by { assert IsUpper("Cave"[0]); }
    assert [Some(raw)][..0] == [];
    MixedCaseTypeUnreachable([DungeonData("d1", "Cave", 2)], DungeonData("d1", "Cave", 2), dungeonType, minimumDifficulty);
    var r := SelectDungeons(GroupBy([DungeonData("d1", "Cave", 2)]), dungeonType, minimumDifficulty);
    if r != [] {
      assert r[0] in r;
      GroupByMeaning([DungeonData("d1", "Cave", 2)]);
      assert false;
    }
  }

  /**
   * With the corrected catalog (types lower-cased before grouping), a lookup
   * finds every loaded record whose type equals the requested type ignoring
   * case and whose difficulty is high enough, and nothing else.
   */
  lemma NormalisedCatalogFindsEveryMatch(prepared: seq<DungeonData>, t: string, minimumDifficulty: int)
    requires t != ""
    ensures forall i :: 0 <= i < |prepared| && EqualsIgnoreCase(prepared[i].dungeonType, t) &&
                        prepared[i].difficulty >= minimumDifficulty ==>
              Normalised(prepared[i]) in SelectDungeons(NormalisedCatalog(prepared), Some(t), minimumDifficulty)
    ensures forall d :: d in SelectDungeons(NormalisedCatalog(prepared), Some(t), minimumDifficulty) ==>
              d.dungeonType == ToLowerCase(t) && d.difficulty >= minimumDifficulty
    ensures forall d :: d in SelectDungeons(NormalisedCatalog(prepared), Some(t), minimumDifficulty) ==>
              exists i :: 0 <= i < |prepared| && d == Normalised(prepared[i]) &&
                          EqualsIgnoreCase(prepared[i].dungeonType, t) && prepared[i].difficulty >= minimumDifficulty
  {
    var normalised := seq(|prepared|, i requires 0 <= i < |prepared| => Normalised(prepared[i]));
    var key := ToLowerCase(t);
    GroupByMeaning(normalised);
    forall i | 0 <= i < |prepared| && EqualsIgnoreCase(prepared[i].dungeonType, t) &&
               prepared[i].difficulty >= minimumDifficulty
      ensures Normalised(prepared[i]) in SelectDungeons(NormalisedCatalog(prepared), Some(t), minimumDifficulty)
    {
      EqualsIgnoreCaseIffLowerEqual(prepared[i].dungeonType, t);
      assert normalised[i] == Normalised(prepared[i]) && normalised[i].dungeonType == key;
      assert normalised[i] in normalised;
    }
    forall d | d in SelectDungeons(NormalisedCatalog(prepared), Some(t), minimumDifficulty)
      ensures exists i :: 0 <= i < |prepared| && d == Normalised(prepared[i]) &&
                          EqualsIgnoreCase(prepared[i].dungeonType, t) && prepared[i].difficulty >= minimumDifficulty
    {
      var i :| 0 <= i < |normalised| && normalised[i] == d;
      EqualsIgnoreCaseIffLowerEqual(prepared[i].dungeonType, t);
    }
  }
}
