/**
 * The slice of Minecraft's NBT tag format that the gate and the ledger use:
 * byte, int, string and compound tags, the typed getters of `CompoundTag`
 * with their defaults for absent or mistyped keys, and `NbtUtils`'
 * block-position codec.
 */
module Nbt {
  import opened World

  datatype Tag =
    | ByteTag(b: int)
    | IntTag(i: int)
    | StringTag(s: string)
    | CompoundTag(entries: map<string, Tag>)
    | OtherTag

  type Compound = map<string, Tag>

  /** `CompoundTag.getInt`: the numeric value under `key`, else 0. */
  function GetInt(c: Compound, key: string): int {
    if key !in c then 0
    else match c[key]
      case ByteTag(b) => b
      case IntTag(i) => i
      case _ => 0
  }

  /** `CompoundTag.getBoolean`: the low byte of the numeric value under `key` is non-zero. */
  function GetBoolean(c: Compound, key: string): bool {
    if key !in c then false
    else match c[key]
      case ByteTag(b) => b % 256 != 0
      case IntTag(i) => i % 256 != 0
      case _ => false
  }

  /** `CompoundTag.getString`: the string under `key`, else the empty string. */
  function GetString(c: Compound, key: string): string {
    if key !in c then ""
    else match c[key]
      case StringTag(s) => s
      case _ => ""
  }

  /** `CompoundTag.putBoolean` stores a byte 1 or 0. */
  function BooleanTag(v: bool): Tag {
    ByteTag(if v then 1 else 0)
  }

  /** `NbtUtils.writeBlockPos`: a compound with int entries X, Y and Z. */
  function WriteBlockPos(p: BlockPos): Tag {
    CompoundTag(map["X" := IntTag(p.x), "Y" := IntTag(p.y), "Z" := IntTag(p.z)])
  }

  /** `NbtUtils.readBlockPos`. */
  function ReadBlockPos(c: Compound): BlockPos {
    BlockPos(GetInt(c, "X"), GetInt(c, "Y"), GetInt(c, "Z"))
  }

  /** Reading back a written block position gives the position. */
  lemma BlockPosRoundTrip(p: BlockPos)
    ensures WriteBlockPos(p).CompoundTag?
    ensures ReadBlockPos(WriteBlockPos(p).entries) == p
  {
  }
}
