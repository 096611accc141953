/**
 * The dungeon catalog (`DungeonRegistry`): validation of parsed records, the
 * filtering loop of `prepare`, and `apply`, which rebuilds the type-indexed map.
 */
module Registry {
  import opened Wrappers
  import opened Text
  import opened Dungeons

  /** A record as the JSON parser produces it; `None` stands for a null field. */
  datatype RawDungeon = RawDungeon(structure: Option<string>, dungeonType: Option<string>, difficulty: int)

  /** What every record in the catalog satisfies after validation. */
  predicate IsValidEntry(d: DungeonData) {
    d.structure != "" && d.dungeonType != "" && 1 <= d.difficulty <= 5 &&
    ToLowerCase(d.dungeonType) in VALID_TYPES
  }

  /**
   * `validateDungeonData`: the structure is present and non-empty, the type is
   * present and non-empty, the difficulty is in 1..5 and the lower-cased type
   * is one of the four dungeon types. Stated both with the registry's own
   * lower-cased membership test and against `isValidType`, the record's
   * case-insensitive test (the two agree for the ASCII case mapping modelled).
   */
  function ValidateDungeonData(raw: RawDungeon): (ok: bool)
    ensures ok <==>
      raw.structure.Some? && raw.structure.value != "" &&
      IsValidType(raw.dungeonType) &&
      1 <= raw.difficulty <= 5
    ensures ok <==>
      raw.structure.Some? && raw.structure.value != "" &&
      raw.dungeonType.Some? && raw.dungeonType.value != "" &&
      1 <= raw.difficulty <= 5 &&
      ToLowerCase(raw.dungeonType.value) in VALID_TYPES
  {
    IsValidTypeRejectsNullAndEmpty();
    var t := if raw.dungeonType.Some? then raw.dungeonType.value else "";
    IsValidTypeAgreesWithRegistry(t);
    if raw.structure.None? || raw.structure.value == "" then false
    else if raw.dungeonType.None? || raw.dungeonType.value == "" then false
    else if raw.difficulty < 1 || raw.difficulty > 5 then false
    else ToLowerCase(raw.dungeonType.value) in VALID_TYPES
  }

  /** The record once validated: both strings are known to be present. */
  function ToData(raw: RawDungeon): DungeonData
    requires raw.structure.Some? && raw.dungeonType.Some?
  {
    DungeonData(raw.structure.value, raw.dungeonType.value, raw.difficulty)
  }

  /**
   * The records `prepare` keeps, in input order. An entry is `None` when the
   * file parsed to null or could not be read or parsed at all.
   */
  function KeepValid(files: seq<Option<RawDungeon>>): (loaded: seq<DungeonData>)
    ensures |loaded| <= |files|
    ensures forall d :: d in loaded ==> IsValidEntry(d)
  {
    if files == [] then []
    else
      var rest := KeepValid(files[..|files| - 1]);
      var f := files[|files| - 1];
      if f.Some? && ValidateDungeonData(f.value) then rest + [ToData(f.value)] else rest
  }

  /**
   * A bad file only drops its own record: the records kept from two batches of
   * files are those kept from each, in order.
   */
  lemma {:induction false} KeepValidAppend(a: seq<Option<RawDungeon>>, b: seq<Option<RawDungeon>>)
    ensures KeepValid(a + b) == KeepValid(a) + KeepValid(b)
    decreases |b|
  {
    if b == [] {
      assert a + b == a;
    } else {
      assert (a + b)[..|a + b| - 1] == a + b[..|b| - 1];
      KeepValidAppend(a, b[..|b| - 1]);
    }
  }

  /** Every present record that validates is kept. */
  lemma {:induction false} KeepValidKeepsValid(files: seq<Option<RawDungeon>>, i: nat)
    requires i < |files| && files[i].Some? && ValidateDungeonData(files[i].value)
    ensures ToData(files[i].value) in KeepValid(files)
    decreases |files|
  {
    if i < |files| - 1 {
      KeepValidKeepsValid(files[..|files| - 1], i);
    }
  }

  /** Every kept record comes from a present input record that validates. */
  lemma {:induction false} KeepValidOnlyValid(files: seq<Option<RawDungeon>>, d: DungeonData)
    requires d in KeepValid(files)
    ensures exists i :: 0 <= i < |files| && files[i].Some? && ValidateDungeonData(files[i].value) &&
                        ToData(files[i].value) == d
    decreases |files|
  {
    var f := files[|files| - 1];
    if f.Some? && ValidateDungeonData(f.value) && d == ToData(f.value) {
    } else {
      KeepValidOnlyValid(files[..|files| - 1], d);
      var i :| 0 <= i < |files| - 1 && files[..|files| - 1][i].Some? &&
               ValidateDungeonData(files[..|files| - 1][i].value) && ToData(files[..|files| - 1][i].value) == d;
      assert files[i] == files[..|files| - 1][i];
    }
  }

  /** The filtering loop of `prepare`: valid records are appended, the rest skipped. */
  method Prepare(files: seq<Option<RawDungeon>>) returns (loadedDungeons: seq<DungeonData>)
    ensures loadedDungeons == KeepValid(files)
  {
    loadedDungeons := [];
    for i := 0 to |files|
      invariant loadedDungeons == KeepValid(files[..i])
    {
      assert files[..i + 1][..i] == files[..i];
      var data := files[i];
      if data.Some? && ValidateDungeonData(data.value) {
        loadedDungeons := loadedDungeons + [ToData(data.value)];
      }
    }
    assert files[..|files|] == files;
  }

  /** The entries of `l` whose type is exactly `t`, in input order. */
  function OfType(l: seq<DungeonData>, t: string): (r: seq<DungeonData>)
    ensures forall d :: d in r <==> d in l && d.dungeonType == t
  {
    if l == [] then []
    else
      var d := l[|l| - 1];
      assert forall e :: e in l <==> e in l[..|l| - 1] || e == d;
      OfType(l[..|l| - 1], t) + (if d.dungeonType == t then [d] else [])
  }

  /** What `apply` builds: `computeIfAbsent(data.type(), ...).add(data)` for each record in turn. */
  function GroupBy(l: seq<DungeonData>): map<string, seq<DungeonData>> {
    if l == [] then map[]
    else
      var m := GroupBy(l[..|l| - 1]);
      var d := l[|l| - 1];
      m[d.dungeonType := (if d.dungeonType in m then m[d.dungeonType] else []) + [d]]
  }

  /**
   * Each key of the grouped map has a non-empty group, and maps to the entries
   * whose type is exactly that key, in input order.
   */
  lemma {:induction false} GroupByGroups(l: seq<DungeonData>)
    ensures forall t :: t in GroupBy(l) <==> OfType(l, t) != []
    ensures forall t :: t in GroupBy(l) ==> GroupBy(l)[t] == OfType(l, t)
    decreases |l|
  {
    if l != [] {
      GroupByGroups(l[..|l| - 1]);
    }
  }

  /**
   * The keys of the grouped map are exactly the verbatim type strings of the
   * input, each mapped to the entries with exactly that string, in input order.
   */
  lemma GroupByMeaning(l: seq<DungeonData>)
    ensures forall t :: t in GroupBy(l) <==> exists d :: d in l && d.dungeonType == t
    ensures forall t :: t in GroupBy(l) ==> GroupBy(l)[t] == OfType(l, t)
  {
    GroupByGroups(l);
    forall t ensures t in GroupBy(l) <==> exists d :: d in l && d.dungeonType == t {
      if OfType(l, t) != [] {
        assert OfType(l, t)[0] in OfType(l, t);
      }
    }
  }

  /** The number of entries over all groups of a type-indexed map. */
  ghost function TotalEntries(m: map<string, seq<DungeonData>>): nat
    decreases |m|
  {
    if m == map[] then 0
    else
      var k :| k in m;
      |m[k]| + TotalEntries(m - {k})
  }

  /** The total can be split off at any key. */
  lemma {:induction false} TotalEntriesAt(m: map<string, seq<DungeonData>>, k: string)
    requires k in m
    ensures TotalEntries(m) == |m[k]| + TotalEntries(m - {k})
    decreases |m|
  {
    var k' :| k' in m && TotalEntries(m) == |m[k']| + TotalEntries(m - {k'});
    if k' != k {
      TotalEntriesAt(m - {k'}, k);
      TotalEntriesAt(m - {k}, k');
      assert m - {k'} - {k} == m - {k} - {k'};
    }
  }

  /** `apply` loses and duplicates nothing: the group sizes add up to the input length. */
  lemma {:induction false} GroupByTotal(l: seq<DungeonData>)
    ensures TotalEntries(GroupBy(l)) == |l|
    decreases |l|
  {
    if l != [] {
      var init := l[..|l| - 1];
      var m := GroupBy(init);
      var k := l[|l| - 1].dungeonType;
      var g := GroupBy(l);
      GroupByTotal(init);
      TotalEntriesAt(g, k);
      if k in m {
        TotalEntriesAt(m, k);
        assert g - {k} == m - {k};
      } else {
        assert g - {k} == m;
      }
    }
  }

  /** The catalog singleton's state: the records grouped by type. */
  class DungeonRegistry {
    var registeredDungeons: map<string, seq<DungeonData>>

    constructor ()
      ensures registeredDungeons == map[]
    {
      registeredDungeons := map[];
    }

    /**
     * `apply`: discard every previous entry, then group the prepared records
     * by their verbatim type, keeping input order within each group.
     */
    method Apply(prepared: seq<DungeonData>)
      modifies this
      ensures registeredDungeons == GroupBy(prepared)
      ensures TotalEntries(registeredDungeons) == |prepared|
    {
      registeredDungeons := map[];
      for i := 0 to |prepared|
        invariant registeredDungeons == GroupBy(prepared[..i])
      {
        assert prepared[..i + 1][..i] == prepared[..i];
        var data := prepared[i];
        var group := if data.dungeonType in registeredDungeons then registeredDungeons[data.dungeonType] else [];
        registeredDungeons := registeredDungeons[data.dungeonType := group + [data]];
      }
      assert prepared[..|prepared|] == prepared;
      GroupByTotal(prepared);
    }

    /** `getAllDungeonsByType`: a read-only view of the map. */
    function GetAllDungeonsByType(): map<string, seq<DungeonData>>
      reads this
    {
      registeredDungeons
    }
  }

  /** A record with its type lower-cased. */
  function Normalised(d: DungeonData): DungeonData {
    d.(dungeonType := ToLowerCase(d.dungeonType))
  }

  /**
   * The corrected catalog: types are lower-cased before grouping, so that the
   * lower-cased lookup of the selector can reach every valid record.
   */
  function NormalisedCatalog(prepared: seq<DungeonData>): map<string, seq<DungeonData>> {
    GroupBy(seq(|prepared|, i requires 0 <= i < |prepared| => Normalised(prepared[i])))
  }
}
