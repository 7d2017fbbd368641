/**
 * A block type: its id, its texture handlers and its mining rules. A block is fixed once it is built, so it is
 * modelled as a value.
 */
module Blocks {
  import opened Wrappers
  import opened JavaInts
  import opened JavaStrings
  import BlockTextures

  /** `ItemTool.ToolType`, by its constant name. ItemTool.java is not part of this model. */
  datatype ToolType = ToolType(name: string)

  const PICKAXE: ToolType := ToolType("pickaxe")

  /** The item of an `ItemStack`: a tool of some type and level, or any other item. */
  datatype Item = Tool(toolType: ToolType, toolLevel: int) | OtherItem

  /**
   * A `Block`. `intID` is the numeric id that the id manager assigns later; it is 0 until then. `textureHandlers`
   * is `None` until `loadGraphics` has run.
   */
  datatype Block = Block(
    id: string,
    intID: int,
    textureHandlers: Option<seq<BlockTextures.BlockTextureHandler>>,
    miningTime: real,
    miningTool: ToolType,
    miningToolLevel: int,
    miningOther: bool)

  /** The mining time of a freshly built block: `0.5f`, which is exact in binary floating point. */
  const DEFAULT_MINING_TIME: real := 0.5

  /**
   * The constructor. A null id, or one with no ':', is rejected. Otherwise the id is stored lower-cased, and the
   * mining fields take their defaults.
   */
  function NewBlock(id: Option<string>): (r: Result<Block>)
    ensures r.Ok? <==> id.Some? && ':' in id.value
    ensures r.Err? ==> r.error == IllegalArgument(Printed(id) + " is not in the correct format")
    ensures r.Ok? ==> r.value.id == ToLowerAscii(id.value) && r.value.intID == 0 && r.value.textureHandlers.None?
    ensures r.Ok? ==> r.value.miningTime == 0.5 && r.value.miningTool == PICKAXE
    ensures r.Ok? ==> r.value.miningToolLevel == 1 && r.value.miningOther
  {
    if id.None? || ':' !in id.value then Err(IllegalArgument(Printed(id) + " is not in the correct format"))
    else Ok(Block(ToLowerAscii(id.value), 0, None, DEFAULT_MINING_TIME, PICKAXE, 1, true))
  }

  /** Lower-casing keeps the ':' that the constructor demanded, so a built block's id still has one. */
  lemma IdKeepsColon(id: string)
    requires ':' in id
    ensures ':' in NewBlock(Some(id)).value.id
  {
    var i :| 0 <= i < |id| && id[i] == ':';
    assert ToLowerAscii(id)[i] == ':';
  }

  /**
   * `getTextureHandler`: a meta outside the array's bounds reads handler 0. Before `loadGraphics` the array is null,
   * and the access throws.
   */
  function GetTextureHandler(b: Block, meta: int): (r: Result<BlockTextures.BlockTextureHandler>)
    ensures b.textureHandlers.None? ==> r == Err(NullPointer)
    ensures b.textureHandlers.Some? && 0 <= meta < |b.textureHandlers.value| ==>
              r == Ok(b.textureHandlers.value[meta])
    ensures b.textureHandlers.Some? && !(0 <= meta < |b.textureHandlers.value|) ==>
              r == (if |b.textureHandlers.value| > 0 then Ok(b.textureHandlers.value[0]) else Err(IndexOutOfBounds(0)))
  {
    match b.textureHandlers
    case None => Err(NullPointer)
    case Some(handlers) =>
      var m := if meta < 0 || meta >= |handlers| then 0 else meta;
      if m < |handlers| then Ok(handlers[m]) else Err(IndexOutOfBounds(m))
  }

  /** The localisation key of a block: "block." followed by its id with the first ':' made a '.'. */
  function NameKey(b: Block): (s: string)
    ensures |s| == 6 + |b.id| && s[..6] == "block."
    ensures forall i :: 0 <= i < |b.id| && b.id[i] != ':' ==> s[6 + i] == b.id[i]
  {
    "block." + ReplaceFirst(b.id, ':', '.')
  }

  /**
   * `getName`: the keys handed to the localisation lookup, most specific first. The lookup itself is not part of
   * this model.
   */
  function NameCandidates(b: Block, meta: int): (keys: seq<string>)
    ensures |keys| == 2 && keys[1] == NameKey(b)
    ensures keys[0] == NameKey(b) + "." + IntToString(meta)
  {
    var s := NameKey(b);
    [s + "." + IntToString(meta), s]
  }

  /** In the key of a built block, the first ':' of the id has become a '.', and what came before it is unchanged. */
  lemma NameKeyReplacesFirstColon(b: Block)
    requires ':' in b.id
    ensures var k := IndexOf(b.id, ':'); NameKey(b)[6 + k] == '.' && NameKey(b)[6..6 + k] == b.id[..k]
  {
    var k := IndexOf(b.id, ':');
    assert ReplaceFirst(b.id, ':', '.') == b.id[k := '.'];
    assert NameKey(b)[6..] == ReplaceFirst(b.id, ':', '.');
  }

  /**
   * `canMine` as the source writes it. With no item, a non-tool or another tool type, the answer is `miningOther`.
   * With a matching tool it also allows a tool whose level is at most the block's `miningToolLevel`.
   */
  function CanMineAsWritten(b: Block, item: Option<Item>): bool {
    if item.None? || !item.value.Tool? then b.miningOther
    else if item.value.toolType != b.miningTool then b.miningOther
    else b.miningOther || b.miningToolLevel >= item.value.toolLevel
  }

  /** As written, a pickaxe of level 2 cannot mine a level-1 pickaxe block that a level-0 pickaxe can mine. */
  lemma CanMineAsWrittenRejectsStrongerTool()
    ensures var b := NewBlock(Some("core:stone")).value.(miningOther := false);
      && CanMineAsWritten(b, Some(Tool(PICKAXE, 0)))
      && !CanMineAsWritten(b, Some(Tool(PICKAXE, 2)))
  {
    assert ':' in "core:stone" by {
      assert "core:stone"[4] == ':';
    }
  }

  /**
   * `canMine` with the comparison the mining rule intends: a matching tool must reach the block's
   * `miningToolLevel`. Otherwise the answer is `miningOther`, as in the source.
   */
  function CanMine(b: Block, item: Option<Item>): (r: bool)
    ensures b.miningOther ==> r
    ensures r && !b.miningOther ==>
              (item.Some? && item.value.Tool? && item.value.toolType == b.miningTool
               && item.value.toolLevel >= b.miningToolLevel)
    ensures (item.Some? && item.value.Tool? && item.value.toolType == b.miningTool
             && item.value.toolLevel >= b.miningToolLevel) ==> r
  {
    if item.None? || !item.value.Tool? then b.miningOther
    else if item.value.toolType != b.miningTool then b.miningOther
    else b.miningOther || item.value.toolLevel >= b.miningToolLevel
  }

  /** With the corrected rule, a tool of a higher level mines whatever a lower one of the same type mines. */
  lemma CanMineMonotone(b: Block, t: ToolType, lower: int, higher: int)
    requires lower <= higher
    ensures CanMine(b, Some(Tool(t, lower))) ==> CanMine(b, Some(Tool(t, higher)))
  {
  }

  /** A block that any item can mine (`miningOther`) is mined the same way under both rules. */
  lemma CanMineAgreesWhenMiningOther(b: Block, item: Option<Item>)
    requires b.miningOther
    ensures CanMine(b, item) && CanMineAsWritten(b, item)
  {
  }

  /**
   * `getMiningSpeed`: 1 unless the item is a tool of the block's mining type. For such a tool it is the tool's level
   * times 2, computed in `int` arithmetic (so it wraps) and then widened to a `float`, which rounds above `2^24`.
   */
  function MiningSpeed(b: Block, item: Option<Item>): (r: real)
    ensures item.None? || !item.value.Tool? || item.value.toolType != b.miningTool ==> r == 1.0
    ensures item.Some? && item.value.Tool? && item.value.toolType == b.miningTool && IsInt(2 * item.value.toolLevel) ==>
              r == IntToFloat(2 * item.value.toolLevel)
    ensures item.Some? && item.value.Tool? && item.value.toolType == b.miningTool
            && -0x100_0000 <= 2 * item.value.toolLevel <= 0x100_0000 ==>
              r == (2 * item.value.toolLevel) as real
  {
    if item.None? || !item.value.Tool? then 1.0
    else if item.value.toolType != b.miningTool then 1.0
    else IntToFloat(Wrap32(item.value.toolLevel * 2))
  }

  /** The speed of a matching tool grows with its level, as long as the doubled level stays an `int`. */
  lemma MiningSpeedMonotone(b: Block, t: ToolType, lower: int, higher: int)
    requires t == b.miningTool && 0 <= lower <= higher && IsInt(2 * higher)
    ensures MiningSpeed(b, Some(Tool(t, lower))) <= MiningSpeed(b, Some(Tool(t, higher)))
  {
    IntToFloatMonotone(2 * lower, 2 * higher);
  }

  /** A tool of level `2^24 + 1` mines at `2^25`, not at twice its level: the widening to `float` rounds. */
  lemma MiningSpeedRounds(b: Block)
    ensures MiningSpeed(b, Some(Tool(b.miningTool, 0x100_0001))) == 0x200_0000 as real
  {
    IntToFloatRounds();
  }

  /** `alwaysTransparent`, `canBeTransparent` and `isTransparent`: a plain block is never transparent. */
  function IsTransparent(b: Block, meta: int): (r: bool)
    ensures !r
  {
    false
  }

  /** `getLightLevel`: a plain block gives no light. */
  function LightLevel(b: Block, meta: int): (r: int)
    ensures r == 0
  {
    0
  }

  /** `displayMetaValues`: only meta 0 is shown. */
  function DisplayMetaValues(b: Block): (r: seq<int>)
    ensures r == [0]
  {
    [0]
  }
}
