# Chaotic Dungeons gate activation, modelled in Dafny

This project models the gate-activation pipeline of the Chaotic Dungeons
Minecraft mod. A player uses a key on a gate block. The gate then:

1. picks a dungeon of the key's type from the data-driven catalog;
2. searches the world for a spot that is far from every earlier dungeon and
   records that spot in the level's allocation ledger;
3. has the structure summoned there;
4. teleports the player to a safe block near the dungeon;
5. counts down 400 ticks and then destroys itself.

While the gate is active, a compatible key sends further players to the same
dungeon. The gate's six fields and the ledger persist as NBT tags.

The world, the random number generator and the structure summoner are not
modelled as code. They are inputs:

- the heightmap, block states and build limits are the functions of a
  `World.Level` value;
- the random numbers are a sequence of `Placement.Draw` pairs and a `pick`
  index, each with the range that `java.util.Random` guarantees;
- the summoner's answer is a boolean, and the world it leaves behind is a
  second `World.Level` value (`builtLevel`). A first activation searches for
  the landing spot in that world; the position search and re-entry use the
  world as it was before.

Modules, one per source file (helpers first):

| module | source |
|---|---|
| `Wrappers`, `World`, `Text`, `Nbt` | `Option`, block positions and the world oracle, ASCII case mapping, the NBT tag slice in use |
| `Dungeons` | `dungeons/DungeonData.java` |
| `Registry` | `dungeons/DungeonRegistry.java` (class `DungeonRegistry`) |
| `Selection` | `selectors/DungeonSelector.java` |
| `Tracking` | `capabilities/DungeonGenerationTracker.java` (class `DungeonGenerationTracker`) |
| `Placement` | `selectors/PositionSelector.java` |
| `Landing` | `handlers/TeleportHandler.java` |
| `Gates` | `blockentities/GateBlockEntity.java` (class `GateBlockEntity`) and the five key items |

Each imperative method is proved against a pure function: `Prepare` against
`KeepValid`, `Apply` against `GroupBy`, `SelectPosition` against `Search`,
`HandleTeleport` against `SafeTarget`, and `Tick`/`Activate`/`Load`/
`SaveAdditional` against `Ticked`/`Activation`/`Loaded`/`Saved`. The
properties are proved about those functions.

Two points of the gate's behaviour follow directly from the code:

- When the countdown runs out, `tick` sets `isActive` to false and nothing
  else (`GateBlockEntity.java:72-75`). The dungeon position and the selected
  dungeon stay in the fields (`Gates.Countdown`).
- The selector returns the whole filtered list (`DungeonSelector.java:39-41`).
  `activate` then picks a random index into it (`GateBlockEntity.java:132`).

A consequence of the re-entry rule deserves a note. Selection keeps dungeons
whose difficulty is *at least* the key's minimum (`DungeonSelector.java:40`).
Re-entry accepts a key whose difficulty is at least the selected dungeon's
(`GateBlockEntity.java:102`). So the key that opened a gate re-admits
players only when the chosen dungeon's difficulty equals the key's own
minimum (`Gates.ActivatingKeyReadmitsOnlyAtItsOwnDifficulty`). The comment
at `GateBlockEntity.java:99` says that a player who uses "the same key" on
an active gate is teleported to the existing dungeon. The code keeps that
promise only when the chosen dungeon's difficulty equals the key's own.
Drawing a harder dungeon is an intended outcome of selection (line 40), so
it is recorded here as a property of the code rather than as a defect.

Source paths below are relative to the repository root.

## Model

| member | source | states |
|---|---|---|
| `Nbt.BlockPosRoundTrip` | src/main/java/com/chaoticdungeons/chaoticdungeons/capabilities/DungeonGenerationTracker.java:75 | Reading back a block position written as a compound gives the same position. |
| `Dungeons.IsValidType` | src/main/java/com/chaoticdungeons/chaoticdungeons/dungeons/DungeonData.java:27-32 | Definition of `isValidType`: non-null and equal, ignoring case, to one of the four types; characterised by `Dungeons.IsValidTypeAgreesWithRegistry` and `Dungeons.IsValidTypeRejectsNullAndEmpty`. |
| `Dungeons.ValidTypesAreLowerCase` | src/main/java/com/chaoticdungeons/chaoticdungeons/dungeons/DungeonRegistry.java:150 | The four listed dungeon types contain no upper-case letter. |
| `Dungeons.IsValidTypeAgreesWithRegistry` | src/main/java/com/chaoticdungeons/chaoticdungeons/dungeons/DungeonData.java:27-32 | For a non-null type, `isValidType` is true exactly when the lower-cased type is one of basic, cave, sewerage, dark. So it accepts these four in any letter case and rejects every other string. |
| `Dungeons.IsValidTypeRejectsNullAndEmpty` | src/main/java/com/chaoticdungeons/chaoticdungeons/dungeons/DungeonData.java:28 | `isValidType(null)` and `isValidType("")` are false. |
| `Registry.ValidateDungeonData` | src/main/java/com/chaoticdungeons/chaoticdungeons/dungeons/DungeonRegistry.java:135-156 | A record is accepted iff its structure is non-null and non-empty, its type is non-null and non-empty, its difficulty is in 1..5 and its lower-cased type is one of the four types; equivalently (for ASCII case mapping) iff the structure check and the difficulty check pass and the type passes `isValidType`. Hence a null or empty structure, a null or empty type, or a difficulty outside 1..5 is rejected. |
| `Registry.KeepValid` | src/main/java/com/chaoticdungeons/chaoticdungeons/dungeons/DungeonRegistry.java:86-103 | The loaded list is no longer than the file list, and every loaded record is valid. |
| `Registry.KeepValidAppend` | src/main/java/com/chaoticdungeons/chaoticdungeons/dungeons/DungeonRegistry.java:87-101 | Loading two batches of files keeps the records of each batch, in order. A bad file drops only its own record. |
| `Registry.KeepValidKeepsValid` | src/main/java/com/chaoticdungeons/chaoticdungeons/dungeons/DungeonRegistry.java:90-91 | Every parsed record that validates is loaded. |
| `Registry.KeepValidOnlyValid` | src/main/java/com/chaoticdungeons/chaoticdungeons/dungeons/DungeonRegistry.java:90-95 | Every loaded record comes from a parsed, validating input record. Null or unreadable entries contribute nothing. |
| `Registry.Prepare` | src/main/java/com/chaoticdungeons/chaoticdungeons/dungeons/DungeonRegistry.java:80-104 | The filtering loop returns exactly the valid records, in input order. |
| `Registry.OfType` | src/main/java/com/chaoticdungeons/chaoticdungeons/dungeons/DungeonRegistry.java:120 | The group for `t` holds exactly the records whose type is the string `t`. |
| `Registry.GroupBy` | src/main/java/com/chaoticdungeons/chaoticdungeons/dungeons/DungeonRegistry.java:118-121 | Definition of the grouping done by `computeIfAbsent(data.type(), …).add(data)` over the records in turn; characterised by `Registry.GroupByGroups`, `Registry.GroupByMeaning` and `Registry.GroupByTotal`. |
| `Registry.GroupByGroups` | src/main/java/com/chaoticdungeons/chaoticdungeons/dungeons/DungeonRegistry.java:118-121 | A type string is a key iff some record has exactly that type. Its group is the records of that type, in input order. |
| `Registry.GroupByMeaning` | src/main/java/com/chaoticdungeons/chaoticdungeons/dungeons/DungeonRegistry.java:114-121 | The keys are the verbatim type strings of the input, not lower-cased. Each key maps to the records with exactly that string, in order. Empty input gives an empty map. |
| `Registry.GroupByTotal` | src/main/java/com/chaoticdungeons/chaoticdungeons/dungeons/DungeonRegistry.java:123-124 | The group sizes add up to the number of prepared records. |
| `Registry.DungeonRegistry.constructor` | src/main/java/com/chaoticdungeons/chaoticdungeons/dungeons/DungeonRegistry.java:38 | The catalog starts empty. |
| `Registry.DungeonRegistry.Apply` | src/main/java/com/chaoticdungeons/chaoticdungeons/dungeons/DungeonRegistry.java:114-126 | Previous entries are discarded. The new map is the grouping of the prepared records by verbatim type, and its total size is the input length. |
| `Registry.DungeonRegistry.GetAllDungeonsByType` | src/main/java/com/chaoticdungeons/chaoticdungeons/dungeons/DungeonRegistry.java:163-165 | Definition: a read-only view of the map (a function with a `reads` clause, so it cannot change the registry); what the map holds is given by `Registry.DungeonRegistry.Apply`. |
| `Selection.AtLeast` | src/main/java/com/chaoticdungeons/chaoticdungeons/selectors/DungeonSelector.java:39-41 | The filter keeps exactly the entries with difficulty ≥ the minimum and never lengthens the list. |
| `Selection.AtLeastAppend` | src/main/java/com/chaoticdungeons/chaoticdungeons/selectors/DungeonSelector.java:39-41 | The filter is applied element by element and preserves order. |
| `Selection.AtLeastNarrows` | src/main/java/com/chaoticdungeons/chaoticdungeons/selectors/DungeonSelector.java:40 | Filtering at a low minimum and then a higher one equals filtering at the higher one. |
| `Selection.SelectDungeons` | src/main/java/com/chaoticdungeons/chaoticdungeons/selectors/DungeonSelector.java:25-50 | A null or empty type, or a lower-cased type that is not a key, yields []. Otherwise the result is the group under `type.toLowerCase()` filtered by difficulty, in order. An entry is returned iff it is in that group and hard enough. |
| `Selection.RaisingMinimumNeverAdds` | src/main/java/com/chaoticdungeons/chaoticdungeons/selectors/DungeonSelector.java:40 | A higher minimum yields the lower minimum's result filtered again, so it is never longer. |
| `Selection.MixedCaseTypeUnreachable` | src/main/java/com/chaoticdungeons/chaoticdungeons/selectors/DungeonSelector.java:31 | Over the catalog as `apply` builds it, a record whose type has an upper-case letter is never selected, for any requested type and difficulty. |
| `Selection.MixedCaseCaveRecordIsLost` | src/main/java/com/chaoticdungeons/chaoticdungeons/dungeons/DungeonRegistry.java:151 | The record `{d1, "Cave", 2}` validates and is loaded, yet every selection over the resulting catalog is empty. |
| `Selection.NormalisedCatalogFindsEveryMatch` | src/main/java/com/chaoticdungeons/chaoticdungeons/selectors/DungeonSelector.java:31 | With types lower-cased before grouping, a lookup returns every record whose type equals the requested one ignoring case and whose difficulty is high enough, and nothing else: each record returned is the lower-cased form of one such loaded record. |
| `Tracking.LoadedPositions` | src/main/java/com/chaoticdungeons/chaoticdungeons/capabilities/DungeonGenerationTracker.java:89-97 | Definition of the set that deserialising a list produces; characterised by `Tracking.LoadedPositionsMeaning`. |
| `Tracking.LoadedPositionsMeaning` | src/main/java/com/chaoticdungeons/chaoticdungeons/capabilities/DungeonGenerationTracker.java:89-97 | A position is loaded iff some compound entry of the list reads back as it. Non-compound entries are ignored. |
| `Tracking.DungeonGenerationTracker.constructor` | src/main/java/com/chaoticdungeons/chaoticdungeons/capabilities/DungeonGenerationTracker.java:24-25 | A new ledger is empty and clean. |
| `Tracking.DungeonGenerationTracker.AddGeneratedDungeonPosition` | src/main/java/com/chaoticdungeons/chaoticdungeons/capabilities/DungeonGenerationTracker.java:32-37 | The set becomes old ∪ {pos}. The ledger turns dirty only if pos was new, so re-adding a present position changes nothing. |
| `Tracking.DungeonGenerationTracker.GetGeneratedDungeonPositions` | src/main/java/com/chaoticdungeons/chaoticdungeons/capabilities/DungeonGenerationTracker.java:44-46 | Returns exactly the current set and modifies nothing. |
| `Tracking.DungeonGenerationTracker.IsDirty` | src/main/java/com/chaoticdungeons/chaoticdungeons/capabilities/DungeonGenerationTracker.java:53-55 | Definition: reads the dirty flag without changing anything; how the flag moves is stated by `AddGeneratedDungeonPosition`, `SetClean`, `SerializeNBT` and `DeserializeNBT`. |
| `Tracking.DungeonGenerationTracker.SetClean` | src/main/java/com/chaoticdungeons/chaoticdungeons/capabilities/DungeonGenerationTracker.java:60-63 | Clears the dirty flag and leaves the set unchanged. |
| `Tracking.DungeonGenerationTracker.SerializeNBT` | src/main/java/com/chaoticdungeons/chaoticdungeons/capabilities/DungeonGenerationTracker.java:71-80 | Emits one compound entry per tracked position. Deserialising the list gives back exactly the set. The set is unchanged and the ledger is clean afterwards. |
| `Tracking.DungeonGenerationTracker.DeserializeNBT` | src/main/java/com/chaoticdungeons/chaoticdungeons/capabilities/DungeonGenerationTracker.java:88-97 | Replaces the set by the positions of the compound entries and leaves the dirty flag alone. With `SerializeNBT`, this gives the round trip up to set equality. |
| `Placement.Attempt` | src/main/java/com/chaoticdungeons/chaoticdungeons/selectors/PositionSelector.java:112-143 | Definition of one loop iteration: the draw's column around spawn, the height-band and water/lava checks on the ground block, the point two blocks up, and the distance check; its result is characterised through `Placement.Search` and `Placement.SearchFindsFirstPassingAttempt`. |
| `Placement.Search` | src/main/java/com/chaoticdungeons/chaoticdungeons/selectors/PositionSelector.java:111-159 | A position found is acceptable: its x and z are in [spawn − 20000, spawn + 20000), it is two blocks above its column's heightmap block, and that ground is within the ±10 height band and holds neither still water nor still lava. It is also at Manhattan distance ≥ 500 from every tracked position. |
| `Placement.SearchFindsFirstPassingAttempt` | src/main/java/com/chaoticdungeons/chaoticdungeons/selectors/PositionSelector.java:111-159 | The search is empty exactly when all remaining attempts fail (exhaustion); otherwise it returns the candidate of the first attempt that passes, every earlier attempt having failed. |
| `Placement.SelectedPosition` | src/main/java/com/chaoticdungeons/chaoticdungeons/selectors/PositionSelector.java:98-105 | Definition: empty without the ledger capability, else the search from the first attempt; its properties are those of `Placement.Search` and `Placement.SearchFindsFirstPassingAttempt`. |
| `Placement.SearchUsesFirstDraws` | src/main/java/com/chaoticdungeons/chaoticdungeons/selectors/PositionSelector.java:111-115 | At most 50 attempts are made: the result depends only on the first 50 draw pairs. |
| `Placement.FarPositionIsNew` | src/main/java/com/chaoticdungeons/chaoticdungeons/selectors/PositionSelector.java:134-143 | A position far from every tracked one is not itself tracked. |
| `Placement.AddingFarPositionKeepsSeparation` | src/main/java/com/chaoticdungeons/chaoticdungeons/selectors/PositionSelector.java:134-152 | Adding a position that is far from all tracked ones keeps the ledger pairwise ≥ 500 apart. |
| `Placement.SearchKeepsSeparation` | src/main/java/com/chaoticdungeons/chaoticdungeons/selectors/PositionSelector.java:134-154 | A pairwise-separated ledger stays separated after the search result is added. |
| `Placement.TooClose` | src/main/java/com/chaoticdungeons/chaoticdungeons/selectors/PositionSelector.java:134-141 | The inner loop reports too close iff some tracked position is within Manhattan distance 499. |
| `Placement.SelectPosition` | src/main/java/com/chaoticdungeons/chaoticdungeons/selectors/PositionSelector.java:98-160 | Without a ledger the result is empty. Otherwise the result is the search from the first attempt. On success the ledger becomes old ∪ {result} and is dirty. On failure the ledger is unchanged. Pairwise separation is preserved. |
| `Landing.ScanZ` | src/main/java/com/chaoticdungeons/chaoticdungeons/handlers/TeleportHandler.java:49-69 | The inner loop returns the first safe z of its row. Every earlier z is unsafe, and without a hit the whole row is unsafe. |
| `Landing.ScanY` | src/main/java/com/chaoticdungeons/chaoticdungeons/handlers/TeleportHandler.java:48-71 | The middle loop returns the first safe (y, z) of its slice in y-then-z order. Every earlier candidate is unsafe. |
| `Landing.ScanX` | src/main/java/com/chaoticdungeons/chaoticdungeons/handlers/TeleportHandler.java:47-73 | The outer loop returns the first safe offset in x-then-y-then-z order. Every earlier candidate in the box is unsafe. |
| `Landing.FirstSafeOffset` | src/main/java/com/chaoticdungeons/chaoticdungeons/handlers/TeleportHandler.java:43-74 | The hit lies in x, z ∈ [-5, 5], y ∈ [0, 5] and is safe: foot and head air or replaceable, solid ground, and no still water or lava at the foot. Every candidate before it in scan order is unsafe. Without a hit, all 726 candidates are unsafe. |
| `Landing.SafeTarget` | src/main/java/com/chaoticdungeons/chaoticdungeons/handlers/TeleportHandler.java:76-84 | When the box has a safe block, the target is safe, lies in the box, and every candidate before it in x-then-y-then-z order is unsafe: it is the first safe block. Otherwise it is the origin. It is never below the origin and at most 5 blocks from it on each axis. |
| `Landing.HeadFluidIgnored` | src/main/java/com/chaoticdungeons/chaoticdungeons/handlers/TeleportHandler.java:61-65 | Changing the fluid of the head block never changes whether a spot is safe. The comment at line 60 promises "no fluid at the player's head or foot level"; the code at lines 64-65 checks only the foot block. |
| `Landing.HandleTeleport` | src/main/java/com/chaoticdungeons/chaoticdungeons/handlers/TeleportHandler.java:37-85 | The three nested loops with their breaks return exactly `SafeTarget`. |
| `Gates.KeysOpenValidTypes` | src/main/java/com/chaoticdungeons/chaoticdungeons/items/keys/ScorbiumKey.java:13 | All five keys (basic 1, cave 2, sewerage 3, dark 4, dark 5) name a valid type in lower case, with a difficulty in 1..5. |
| `Gates.Ticked` | src/main/java/com/chaoticdungeons/chaoticdungeons/blockentities/GateBlockEntity.java:69-81 | An idle gate is unchanged. An active gate loses exactly one tick and turns idle iff the timer reaches ≤ 0. The position and selected dungeon are never cleared. |
| `Gates.TickKeepsConsistent` | src/main/java/com/chaoticdungeons/chaoticdungeons/blockentities/GateBlockEntity.java:71-75 | An active gate always has a position and a positive timer, and ticks keep it that way. |
| `Gates.Countdown` | src/main/java/com/chaoticdungeons/chaoticdungeons/blockentities/GateBlockEntity.java:72-75 | With T ticks left, the gate is active with T − n left after n < T ticks, and idle with timer 0 from tick T on. The selection survives throughout. |
| `Gates.ExplodesOnce` | src/main/java/com/chaoticdungeons/chaoticdungeons/blockentities/GateBlockEntity.java:72-74 | The explosion happens on exactly one tick, the T-th. |
| `Gates.AllocatedPosition` | src/main/java/com/chaoticdungeons/chaoticdungeons/blockentities/GateBlockEntity.java:136-143 | Only an idle gate with a non-empty dungeon list asks for a position. A position it gets is acceptable for the ledger's contents. |
| `Gates.Activation` | src/main/java/com/chaoticdungeons/chaoticdungeons/blockentities/GateBlockEntity.java:92-176 | Failure changes no field and teleports no one. On an active gate, no field changes and the call succeeds iff the key's type equals the selected type and its difficulty is ≥ the selected difficulty; the player goes to the existing dungeon. On an idle gate, success requires a non-empty list, a position and a successful summon. It then sets the timer to 400, the position to the allocated one and the selection to list[pick], and teleports to the safe spot near that position in the world after summoning. Consistency is preserved. |
| `Gates.ActivatedGateLifetime` | src/main/java/com/chaoticdungeons/chaoticdungeons/blockentities/GateBlockEntity.java:166-167 | After a successful first activation, the gate is active through tick 399, explodes on tick 400, and is idle with timer 0 afterwards. |
| `Gates.ActivatingKeyReadmitsOnlyAtItsOwnDifficulty` | src/main/java/com/chaoticdungeons/chaoticdungeons/blockentities/GateBlockEntity.java:100-102 | Over an `apply`-built catalog, the chosen dungeon has the key's type and at least its difficulty. The same key re-admits iff the chosen difficulty equals the key's. |
| `Gates.Loaded` | src/main/java/com/chaoticdungeons/chaoticdungeons/blockentities/GateBlockEntity.java:202-216 | The loaded gate has a dungeon position iff the tag has the `GeneratedDungeonX` key. |
| `Gates.Saved` | src/main/java/com/chaoticdungeons/chaoticdungeons/blockentities/GateBlockEntity.java:224-238 | Keys the gate does not own are kept, and no other key is added. A gate without a position writes no X/Y/Z keys. |
| `Gates.SaveLoadRoundTrip` | src/main/java/com/chaoticdungeons/chaoticdungeons/blockentities/GateBlockEntity.java:202-238 | Loading what was saved into a tag without a stale X key reproduces all six fields. |
| `Gates.EmptyTagLoadsInitial` | src/main/java/com/chaoticdungeons/chaoticdungeons/blockentities/GateBlockEntity.java:202-216 | A tag without gate keys loads as a new gate: idle, timer 0, no position, empty selection. |
| `Gates.GateBlockEntity.constructor` | src/main/java/com/chaoticdungeons/chaoticdungeons/blockentities/GateBlockEntity.java:50-58 | A new gate is idle with timer 0, no dungeon position, empty structure and type, and difficulty 0. |
| `Gates.GateBlockEntity.Tick` | src/main/java/com/chaoticdungeons/chaoticdungeons/blockentities/GateBlockEntity.java:69-81 | The new fields are `Ticked` of the old ones. The explosion fires iff the gate was active and its decremented timer is ≤ 0. |
| `Gates.GateBlockEntity.Activate` | src/main/java/com/chaoticdungeons/chaoticdungeons/blockentities/GateBlockEntity.java:92-176 | The result, new fields and teleport target are those of `Activation`. The ledger gains the allocated position and turns dirty, even when summoning then fails; otherwise it is unchanged. Ledger separation is preserved. |
| `Gates.GateBlockEntity.Load` | src/main/java/com/chaoticdungeons/chaoticdungeons/blockentities/GateBlockEntity.java:202-216 | All six fields are replaced by what the tag holds, with the getters' defaults. |
| `Gates.GateBlockEntity.SaveAdditional` | src/main/java/com/chaoticdungeons/chaoticdungeons/blockentities/GateBlockEntity.java:224-238 | Writes the six fields into the tag, and loading the result into a gate gives back the same fields. |

## Left out

- Gson parsing, resource listing and file reading in `prepare`. Each data file is an `Option<RawDungeon>`: `None` stands for a null parse result and for a syntax or I/O error, and a null JSON field is `None` inside the record.
- The reload-listener singleton, capability registration and attachment, the save listeners and the `DungeonGenerationTrackerProvider`. This is framework wiring: the registry and the ledger are passed in as objects.
- `DungeonRegistry.getAllDungeonsByType` is a read-only function returning the map. Its unmodifiable wrapper has no counterpart, because Dafny maps are values.
- `StructureSummoner.summonStructure` is foreign code into Minecraft's structure-template engine; `Activate` takes its answer as the boolean `summoned`.
- `explodeBlock` (explosion, block-entity and block removal) is world I/O; `Tick` reports it as `exploded`.
- `player.teleportTo` with its +0.5 floating-point offsets and the player's rotation. The model returns the integer target block.
- `java.util.Random` is supplied as inputs: `draws` (at least 50 pairs in [0, 40000)) and `pick` (below the list size).
- Heightmap, block-state and fluid queries are the functions of `World.Level`. Only the still water and still lava fluids are matched exactly, as `is(Fluids.WATER)` and `is(Fluids.LAVA)` do.
- The `isClientSide` guards and the null-level check, `setChanged`, `sendBlockUpdated`, logging, and client sync (`getUpdatePacket`, `getUpdateTag`, `handleUpdateTag`). The last of these only calls `load`.
- The six field getters of the gate are plain field reads, exposed together by `GateBlockEntity.State`.
- Java `int` wrap-around: coordinates, the timer, difficulties and NBT ints are unbounded integers. The timer could only wrap from a hand-edited tag, and Manhattan distances stay far below 2^31 inside the world border.
- `String.toLowerCase` and `equalsIgnoreCase` are modelled for ASCII letters only. Java maps all of Unicode, and the locale-dependent cases are not modelled either.
- `Gates.Activation, Gates.GateBlockEntity.Activate`: require a dungeon position only for an active gate and a key it admits. There the Java code would throw a `NullPointerException` on re-entry; a key it does not admit gets `false` without the position being read. Only a hand-edited tag can cause the missing position.
- `Gates.SaveLoadRoundTrip`: requires that the target tag has no stale `GeneratedDungeonX` key. The game always saves into a fresh tag, but a position-less gate saved over an old tag would load back a position.
- Dungeons.IsValidTypeAgreesWithRegistry, Registry.ValidateDungeonData: the agreement between `isValidType` (`equalsIgnoreCase`) and the registry's `toLowerCase()` membership test holds only for the ASCII case mapping modelled. In Java, "baſic" (with U+017F, whose upper case is 'S') passes `equalsIgnoreCase("basic")` but lower-cases to itself, so the registry rejects it; under a Turkish default locale "BASIC" lower-cases to "basıc" and is rejected too. The first `ensures` of `ValidateDungeonData` (via `isValidType`) is therefore ASCII-only; its second `ensures` follows the registry's own test.
- The NBT tag slice has no short, long, float or double tags; such a value is `OtherTag`, so `GetInt` reads 0 and `GetBoolean` false where `CompoundTag.getInt`/`getBoolean` would read any numeric tag. This only matters for hand-edited gate or ledger tags.
- The iteration order of a `HashSet` is left open: `SerializeNBT` takes the positions in an arbitrary order.

## Findings

| source | as written | input that shows it | evidently intended | confidence | as-written member | corrected member |
|---|---|---|---|---|---|---|
| src/main/java/com/chaoticdungeons/chaoticdungeons/dungeons/DungeonRegistry.java:120 | Validation lower-cases the type (line 151), but `apply` groups records under the verbatim type. The selector looks up the lower-cased type (DungeonSelector.java:31), so a record with an upper-case letter in its type is loaded but never selectable. | data file `{"structure": "d1", "type": "Cave", "difficulty": 2}`, then any selection, e.g. an iron key (cave, 2) | group under the lower-cased type, so every record that passes validation can be selected | high, not executed | `Selection.MixedCaseCaveRecordIsLost` | `Selection.NormalisedCatalogFindsEveryMatch` |
