/**
 * The gate block entity: a small state machine over six fields. A key
 * activates an idle gate (select a dungeon, allocate a position, summon the
 * structure, teleport the player, start a 400-tick countdown), re-admits
 * players to an active gate, and the countdown destroys the gate when it
 * runs out. The fields persist through a tag round trip.
 */
module Gates {
  import opened Wrappers
  import opened World
  import opened Nbt
  import opened Text
  import opened Dungeons
  import opened Registry
  import opened Selection
  import opened Tracking
  import opened Placement
  import opened Landing

  const ACTIVATION_TIMER_SECONDS: int := 20
  const TICKS_PER_SECOND: int := 20
  /** The countdown length in ticks. */
  const ACTIVATION_TICKS: int := ACTIVATION_TIMER_SECONDS * TICKS_PER_SECOND

  /** A key item: the dungeon type it opens and the minimum difficulty it asks for. */
  datatype Key = Key(opensDungeonType: string, opensDungeonDifficulty: int)

  const BRONZE_KEY := Key("basic", 1)
  const IRON_KEY := Key("cave", 2)
  const GOLDEN_KEY := Key("sewerage", 3)
  const DIAMOND_KEY := Key("dark", 4)
  const SCORBIUM_KEY := Key("dark", 5)
  const KEYS := [BRONZE_KEY, IRON_KEY, GOLDEN_KEY, DIAMOND_KEY, SCORBIUM_KEY]

  /** Every key opens one of the valid dungeon types and names it in lower case. */
  lemma KeysOpenValidTypes()
    ensures forall k :: k in KEYS ==> k.opensDungeonType in VALID_TYPES && NoUpper(k.opensDungeonType)
    ensures forall k :: k in KEYS ==> 1 <= k.opensDungeonDifficulty <= 5
  {
    ValidTypesAreLowerCase();
  }

  /** The six fields of a gate. */
  datatype GateState = GateState(
    isActive: bool,
    activationTimer: int,
    generatedDungeonPos: Option<BlockPos>,
    selectedDungeonStructure: string,
    selectedDungeonType: string,
    selectedDungeonDifficulty: int)

  /** A freshly placed gate. */
  const INITIAL := GateState(false, 0, None, "", "", 0)

  /** An active gate knows where its dungeon is and has time left. */
  predicate Consistent(s: GateState) {
    s.isActive ==> s.generatedDungeonPos.Some? && s.activationTimer > 0
  }

  /** The dungeon position and selected dungeon are the same in both states. */
  predicate SameSelection(s: GateState, t: GateState) {
    t.generatedDungeonPos == s.generatedDungeonPos &&
    t.selectedDungeonStructure == s.selectedDungeonStructure &&
    t.selectedDungeonType == s.selectedDungeonType &&
    t.selectedDungeonDifficulty == s.selectedDungeonDifficulty
  }

  // ---------------------------------------------------------------- tick

  /** True when the next tick makes the gate explode. */
  predicate Expires(s: GateState) {
    s.isActive && s.activationTimer - 1 <= 0
  }

  /**
   * One server tick: an idle gate is untouched; an active gate loses one tick
   * and turns idle once its timer is at most 0. The dungeon position and the
   * selected dungeon are never cleared.
   */
  function Ticked(s: GateState): (t: GateState)
    ensures !s.isActive ==> t == s
    ensures s.isActive ==> t.activationTimer == s.activationTimer - 1
    ensures t.isActive <==> s.isActive && !Expires(s)
    ensures SameSelection(s, t)
  {
    if !s.isActive then s
    else
      var timer := s.activationTimer - 1;
      s.(activationTimer := timer, isActive := timer > 0)
  }

  /** `n` ticks in a row. */
  function Ticks(s: GateState, n: nat): GateState {
    if n == 0 then s else Ticked(Ticks(s, n - 1))
  }

  /** Ticks keep a gate consistent. */
  lemma TickKeepsConsistent(s: GateState)
    requires Consistent(s)
    ensures Consistent(Ticked(s))
  {
  }

  /**
   * An active gate with `T` ticks left is active with `T - n` left after
   * `n < T` ticks, and idle with timer 0 from tick `T` on; the selection
   * survives throughout.
   */
  lemma {:induction false} Countdown(s: GateState, n: nat)
    requires s.isActive && s.activationTimer > 0
    ensures n < s.activationTimer ==> Ticks(s, n).isActive && Ticks(s, n).activationTimer == s.activationTimer - n
    ensures n >= s.activationTimer ==> !Ticks(s, n).isActive && Ticks(s, n).activationTimer == 0
    ensures SameSelection(s, Ticks(s, n))
  {
    if n > 0 {
      Countdown(s, n - 1);
    }
  }

  /** The gate explodes on exactly one tick: the `T`-th, counting from 1. */
  lemma ExplodesOnce(s: GateState, n: nat)
    requires s.isActive && s.activationTimer > 0
    ensures Expires(Ticks(s, n)) <==> n == s.activationTimer - 1
  {
    Countdown(s, n);
  }

  // ---------------------------------------------------------------- activate

  /** The dungeons a key may select from the catalog. */
  function Available(catalog: map<string, seq<DungeonData>>, key: Key): seq<DungeonData> {
    SelectDungeons(catalog, Some(key.opensDungeonType), key.opensDungeonDifficulty)
  }

  /** The random index drawn by `nextInt(size)`. */
  predicate PickInRange(pick: nat, available: seq<DungeonData>) {
    available != [] ==> pick < |available|
  }

  /** A key that re-admits players to an active gate. */
  predicate Admits(s: GateState, key: Key) {
    key.opensDungeonType == s.selectedDungeonType && key.opensDungeonDifficulty >= s.selectedDungeonDifficulty
  }

  /**
   * The position `activate` allocates in the ledger: only an idle gate with a
   * non-empty dungeon list asks the position selector.
   */
  function AllocatedPosition(s: GateState, key: Key, catalog: map<string, seq<DungeonData>>, level: Level,
                             tracked: Option<set<BlockPos>>, draws: seq<Draw>): (p: Option<BlockPos>)
    requires DrawsInRange(draws)
    ensures p.Some? ==> !s.isActive && Available(catalog, key) != [] && tracked.Some? &&
                        Acceptable(level, tracked.value, p.value)
  {
    if s.isActive || Available(catalog, key) == [] then None
    else SelectedPosition(level, tracked, draws)
  }

  /** What one call of `activate` returns and leaves behind. */
  datatype Outcome = Outcome(activated: bool, gate: GateState, teleportedTo: Option<BlockPos>)

  /**
   * `activate`: `pick` is the random index into the dungeon list, `draws` the
   * position selector's random numbers, `tracked` the ledger contents (absent
   * without the capability) and `summoned` what the structure summoner reports.
   * `level` is the world as the call finds it; `builtLevel` is the world after
   * the summoner has placed the structure's blocks, which the landing search
   * of a first activation reads. A failed call changes no field; a successful
   * one teleports the player to the safe spot near the dungeon.
   */
  function Activation(s: GateState, key: Key, catalog: map<string, seq<DungeonData>>, level: Level, builtLevel: Level,
                      tracked: Option<set<BlockPos>>, pick: nat, draws: seq<Draw>, summoned: bool): (o: Outcome)
    requires s.isActive && Admits(s, key) ==> s.generatedDungeonPos.Some?
    requires DrawsInRange(draws) && PickInRange(pick, Available(catalog, key))
    ensures o.activated <==> o.teleportedTo.Some?
    ensures !o.activated ==> o.gate == s
    ensures s.isActive ==> o.gate == s && (o.activated <==> Admits(s, key))
    ensures s.isActive && o.activated ==> o.teleportedTo == Some(SafeTarget(level, s.generatedDungeonPos.value))
    ensures !s.isActive ==>
      (o.activated <==> Available(catalog, key) != [] && AllocatedPosition(s, key, catalog, level, tracked, draws).Some? && summoned)
    ensures !s.isActive && o.activated ==>
      o.gate.isActive && o.gate.activationTimer == ACTIVATION_TICKS &&
      o.gate.generatedDungeonPos == AllocatedPosition(s, key, catalog, level, tracked, draws) &&
      DungeonData(o.gate.selectedDungeonStructure, o.gate.selectedDungeonType, o.gate.selectedDungeonDifficulty)
        == Available(catalog, key)[pick] &&
      o.teleportedTo == Some(SafeTarget(builtLevel, o.gate.generatedDungeonPos.value))
    ensures Consistent(s) ==> Consistent(o.gate)
  {
    if s.isActive then
      if Admits(s, key) then Outcome(true, s, Some(SafeTarget(level, s.generatedDungeonPos.value)))
      else Outcome(false, s, None)
    else
      var available := Available(catalog, key);
      if available == [] then Outcome(false, s, None)
      else
        var chosen := available[pick];
        match SelectedPosition(level, tracked, draws)
        case None => Outcome(false, s, None)
        case Some(p) =>
          if !summoned then Outcome(false, s, None)
          else
            Outcome(true, GateState(true, ACTIVATION_TICKS, Some(p), chosen.structure, chosen.dungeonType, chosen.difficulty),
                    Some(SafeTarget(builtLevel, p)))
  }

  /**
   * A successfully activated gate stays active through ticks 1 to 399,
   * explodes on tick 400 and is idle with timer 0 afterwards.
   */
  lemma ActivatedGateLifetime(s: GateState, key: Key, catalog: map<string, seq<DungeonData>>, level: Level, builtLevel: Level,
                              tracked: Option<set<BlockPos>>, pick: nat, draws: seq<Draw>, summoned: bool, n: nat)
    requires DrawsInRange(draws) && PickInRange(pick, Available(catalog, key))
    requires !s.isActive && Activation(s, key, catalog, level, builtLevel, tracked, pick, draws, summoned).activated
    ensures var g := Activation(s, key, catalog, level, builtLevel, tracked, pick, draws, summoned).gate;
      (Ticks(g, n).isActive <==> n < ACTIVATION_TICKS) &&
      (Expires(Ticks(g, n)) <==> n == ACTIVATION_TICKS - 1) &&
      (n >= ACTIVATION_TICKS ==> Ticks(g, n).activationTimer == 0) &&
      SameSelection(g, Ticks(g, n))
  {
    var g := Activation(s, key, catalog, level, builtLevel, tracked, pick, draws, summoned).gate;
    Countdown(g, n);
    ExplodesOnce(g, n);
  }

  /**
   * Over a catalog built by `apply`, the key that activated a gate re-admits
   * players exactly when the chosen dungeon's difficulty is the key's own
   * minimum: selection takes dungeons at least as hard as the key's minimum,
   * re-entry demands a key at least as strong as the dungeon.
   */
  lemma ActivatingKeyReadmitsOnlyAtItsOwnDifficulty(s: GateState, key: Key, prepared: seq<DungeonData>, level: Level, builtLevel: Level,
                                                     tracked: Option<set<BlockPos>>, pick: nat, draws: seq<Draw>, summoned: bool)
    requires NoUpper(key.opensDungeonType)
    requires DrawsInRange(draws) && PickInRange(pick, Available(GroupBy(prepared), key))
    requires !s.isActive && Activation(s, key, GroupBy(prepared), level, builtLevel, tracked, pick, draws, summoned).activated
    ensures var g := Activation(s, key, GroupBy(prepared), level, builtLevel, tracked, pick, draws, summoned).gate;
      g.selectedDungeonType == key.opensDungeonType &&
      g.selectedDungeonDifficulty >= key.opensDungeonDifficulty &&
      (Admits(g, key) <==> g.selectedDungeonDifficulty == key.opensDungeonDifficulty)
  {
    var catalog := GroupBy(prepared);
    var t := key.opensDungeonType;
    var chosen := Available(catalog, key)[pick];
    assert chosen in Available(catalog, key);
    LowerKeepsLowerCase(t);
    GroupByGroups(prepared);
    assert chosen in OfType(prepared, t);
  }

  // ---------------------------------------------------------------- load / save

  /** The tag keys the gate writes. */
  const POSITION_KEYS := {"GeneratedDungeonX", "GeneratedDungeonY", "GeneratedDungeonZ"}
  const GATE_KEYS := POSITION_KEYS +
    {"IsActive", "ActivationTimer", "SelectedDungeonStructure", "SelectedDungeonType", "SelectedDungeonDifficulty"}

  /** `load`: the six fields read with the getters' defaults; the position only when its X key is present. */
  function Loaded(nbt: Compound): (s: GateState)
    ensures s.generatedDungeonPos.Some? <==> "GeneratedDungeonX" in nbt
  {
    GateState(
      GetBoolean(nbt, "IsActive"),
      GetInt(nbt, "ActivationTimer"),
      if "GeneratedDungeonX" in nbt
      then Some(BlockPos(GetInt(nbt, "GeneratedDungeonX"), GetInt(nbt, "GeneratedDungeonY"), GetInt(nbt, "GeneratedDungeonZ")))
      else None,
      GetString(nbt, "SelectedDungeonStructure"),
      GetString(nbt, "SelectedDungeonType"),
      GetInt(nbt, "SelectedDungeonDifficulty"))
  }

  /**
   * `saveAdditional`: writes the fields into `nbt`; the position keys only
   * when there is a position. Keys the gate does not own are kept.
   */
  function Saved(s: GateState, nbt: Compound): (out: Compound)
    ensures forall k :: k in nbt && k !in GATE_KEYS ==> k in out && out[k] == nbt[k]
    ensures forall k :: k in out ==> k in nbt || k in GATE_KEYS
    ensures s.generatedDungeonPos.None? ==> forall k :: k in POSITION_KEYS ==> (k in out <==> k in nbt)
  {
    var withFields := nbt["IsActive" := BooleanTag(s.isActive)]["ActivationTimer" := IntTag(s.activationTimer)];
    var withPos :=
      match s.generatedDungeonPos
      case Some(p) =>
        withFields["GeneratedDungeonX" := IntTag(p.x)]["GeneratedDungeonY" := IntTag(p.y)]["GeneratedDungeonZ" := IntTag(p.z)]
      case None => withFields;
    withPos["SelectedDungeonStructure" := StringTag(s.selectedDungeonStructure)]
           ["SelectedDungeonType" := StringTag(s.selectedDungeonType)]
           ["SelectedDungeonDifficulty" := IntTag(s.selectedDungeonDifficulty)]
  }

  /** Saving into a tag without a stale position and loading back gives the same six fields. */
  lemma SaveLoadRoundTrip(s: GateState, nbt: Compound)
    requires "GeneratedDungeonX" !in nbt
    ensures Loaded(Saved(s, nbt)) == s
  {
  }

  /** A tag without any gate keys loads as a freshly placed gate. */
  lemma EmptyTagLoadsInitial(nbt: Compound)
    requires forall k :: k in GATE_KEYS ==> k !in nbt
    ensures Loaded(nbt) == INITIAL
  {
  }

  // ---------------------------------------------------------------- the block entity

  class GateBlockEntity {
    var isActive: bool
    var activationTimer: int
    var generatedDungeonPos: Option<BlockPos>
    var selectedDungeonStructure: string
    var selectedDungeonType: string
    var selectedDungeonDifficulty: int

    function State(): GateState
      reads this
    {
      GateState(isActive, activationTimer, generatedDungeonPos,
                selectedDungeonStructure, selectedDungeonType, selectedDungeonDifficulty)
    }

    /** A new gate is idle, with no timer, no dungeon position and no selection. */
    constructor ()
      ensures State() == INITIAL
    {
      isActive := false;
      activationTimer := 0;
      generatedDungeonPos := None;
      selectedDungeonStructure := "";
      selectedDungeonType := "";
      selectedDungeonDifficulty := 0;
    }

    /** One server tick; `exploded` says whether the gate blew up on this tick. */
    method Tick() returns (exploded: bool)
      modifies this
      ensures State() == Ticked(old(State()))
      ensures exploded <==> Expires(old(State()))
    {
      exploded := false;
      if isActive {
        activationTimer := activationTimer - 1;
        if activationTimer <= 0 {
          exploded := true;
          isActive := false;
        }
      }
    }

    /**
     * `activate(player, key)`. Returns whether the gate accepted the key and
     * where the player was teleported. On an idle gate with dungeons to pick
     * from, a position found by the selector stays in the ledger even when
     * summoning then fails. `builtLevel` is the world after the summoner has
     * placed the structure, where a first activation looks for the landing spot.
     */
    method Activate(key: Key, registry: DungeonRegistry, level: Level, builtLevel: Level, tracker: DungeonGenerationTracker?,
                    pick: nat, draws: seq<Draw>, summoned: bool)
      returns (activated: bool, teleportedTo: Option<BlockPos>)
      requires isActive && Admits(State(), key) ==> generatedDungeonPos.Some?
      requires DrawsInRange(draws) && PickInRange(pick, Available(registry.registeredDungeons, key))
      modifies this, tracker
      ensures var o := Activation(old(State()), key, registry.registeredDungeons, level, builtLevel, old(Tracked(tracker)),
                                  pick, draws, summoned);
              activated == o.activated && State() == o.gate && teleportedTo == o.teleportedTo
      ensures var p := AllocatedPosition(old(State()), key, registry.registeredDungeons, level, old(Tracked(tracker)), draws);
              tracker != null && p.Some? ==>
                tracker.generatedDungeonPositions == old(tracker.generatedDungeonPositions) + {p.value} && tracker.isDirty
      ensures var p := AllocatedPosition(old(State()), key, registry.registeredDungeons, level, old(Tracked(tracker)), draws);
              tracker != null && p.None? ==> unchanged(tracker)
      ensures tracker != null && old(Separated(tracker.generatedDungeonPositions)) ==>
              Separated(tracker.generatedDungeonPositions)
    {
      if isActive {
        if key.opensDungeonType == selectedDungeonType && key.opensDungeonDifficulty >= selectedDungeonDifficulty {
          var target := HandleTeleport(level, generatedDungeonPos.value);
          return true, Some(target);
        } else {
          return false, None;
        }
      }

      var availableDungeons := SelectDungeons(registry.GetAllDungeonsByType(), Some(key.opensDungeonType), key.opensDungeonDifficulty);
      if availableDungeons == [] {
        return false, None;
      }
      var chosenDungeon := availableDungeons[pick];

      var selectedPos := SelectPosition(level, tracker, draws);
      if selectedPos.None? {
        return false, None;
      }
      var dungeonSpawnPos := selectedPos.value;

      if !summoned {
        return false, None;
      }

      var target := HandleTeleport(builtLevel, dungeonSpawnPos);

      isActive := true;
      activationTimer := ACTIVATION_TIMER_SECONDS * TICKS_PER_SECOND;
      generatedDungeonPos := Some(dungeonSpawnPos);
      selectedDungeonStructure := chosenDungeon.structure;
      selectedDungeonType := chosenDungeon.dungeonType;
      selectedDungeonDifficulty := chosenDungeon.difficulty;
      return true, Some(target);
    }

    /** `load(nbt)`: replaces all six fields by what the tag holds. */
    method Load(nbt: Compound)
      modifies this
      ensures State() == Loaded(nbt)
    {
      isActive := GetBoolean(nbt, "IsActive");
      activationTimer := GetInt(nbt, "ActivationTimer");
      if "GeneratedDungeonX" in nbt {
        generatedDungeonPos := Some(BlockPos(GetInt(nbt, "GeneratedDungeonX"), GetInt(nbt, "GeneratedDungeonY"),
                                             GetInt(nbt, "GeneratedDungeonZ")));
      } else {
        generatedDungeonPos := None;
      }
      selectedDungeonStructure := GetString(nbt, "SelectedDungeonStructure");
      selectedDungeonType := GetString(nbt, "SelectedDungeonType");
      selectedDungeonDifficulty := GetInt(nbt, "SelectedDungeonDifficulty");
    }

    /** `saveAdditional(nbt)`: the tag after the gate has written its fields into it; the gate is unchanged. */
    method SaveAdditional(nbt: Compound) returns (out: Compound)
      ensures out == Saved(State(), nbt)
      ensures "GeneratedDungeonX" !in nbt ==> Loaded(out) == State()
    {
      out := nbt["IsActive" := BooleanTag(isActive)]["ActivationTimer" := IntTag(activationTimer)];
      if generatedDungeonPos.Some? {
        var p := generatedDungeonPos.value;
        out := out["GeneratedDungeonX" := IntTag(p.x)]["GeneratedDungeonY" := IntTag(p.y)]["GeneratedDungeonZ" := IntTag(p.z)];
      }
      out := out["SelectedDungeonStructure" := StringTag(selectedDungeonStructure)];
      out := out["SelectedDungeonType" := StringTag(selectedDungeonType)];
      out := out["SelectedDungeonDifficulty" := IntTag(selectedDungeonDifficulty)];
      if "GeneratedDungeonX" !in nbt {
        SaveLoadRoundTrip(State(), nbt);
      }
    }
  }
}
