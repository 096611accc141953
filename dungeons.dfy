/**
 * The dungeon descriptor record (`DungeonData`) and its type check.
 */
module Dungeons {
  import opened Wrappers
  import opened Text

  /** One catalog entry: a structure template id, a dungeon type and a difficulty. */
  datatype DungeonData = DungeonData(structure: string, dungeonType: string, difficulty: int)

  /** The four dungeon types, as the registry lists them. */
  const VALID_TYPES: seq<string> := ["basic", "cave", "sewerage", "dark"]

  /**
   * `DungeonData.isValidType`: a non-null type equal, ignoring case, to one of
   * the four dungeon types (`None` stands for Java's null).
   */
  predicate IsValidType(t: Option<string>) {
    t.Some? &&
    (EqualsIgnoreCase(t.value, "basic") ||
     EqualsIgnoreCase(t.value, "cave") ||
     EqualsIgnoreCase(t.value, "sewerage") ||
     EqualsIgnoreCase(t.value, "dark"))
  }

  lemma ValidTypesAreLowerCase()
    ensures forall w :: w in VALID_TYPES ==> NoUpper(w)
  {
    assert NoUpper("basic") && NoUpper("cave") && NoUpper("sewerage") && NoUpper("dark");
  }

  /**
   * For a non-null type, `isValidType` agrees with the registry's test: the
   * lower-cased type is one of the four listed types. In particular it is true
   * for the four names in any letter case and false for every other string.
   */
  lemma IsValidTypeAgreesWithRegistry(t: string)
    ensures IsValidType(Some(t)) <==> ToLowerCase(t) in VALID_TYPES
  {
    ValidTypesAreLowerCase();
    EqualsIgnoreCaseLowerLiteral(t, "basic");
    EqualsIgnoreCaseLowerLiteral(t, "cave");
    EqualsIgnoreCaseLowerLiteral(t, "sewerage");
    EqualsIgnoreCaseLowerLiteral(t, "dark");
  }

  /** `isValidType(null)` is false and no valid type is empty. */
  lemma IsValidTypeRejectsNullAndEmpty()
    ensures !IsValidType(None)
    ensures !IsValidType(Some(""))
  {
    IsValidTypeAgreesWithRegistry("");
  }
}
