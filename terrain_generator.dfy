/**
 * The base of the terrain generators: the order in which generation hooks run, and how a block and its meta are
 * packed into the code stored in an area.
 */
module TerrainGenerator {
  import opened Wrappers
  import opened JavaInts
  import Blocks

  /** A block position inside an area, in the area's local coordinates. */
  type Pos = (int, int, int)

  /**
   * An `Area` of the world. `blocks` maps a local position to the 32 bits of the code stored for it; `Area.getRef` numbers the
   * positions one-to-one, so the map is keyed by the position itself. Area.java is not part of this model.
   */
  class Area {
    const areaX: int
    const areaZ: int
    const minBlockX: int
    const minBlockZ: int
    var blocks: map<Pos, bv32>

    constructor (areaX: int, areaZ: int, minBlockX: int, minBlockZ: int)
      ensures this.areaX == areaX && this.areaZ == areaZ
      ensures this.minBlockX == minBlockX && this.minBlockZ == minBlockZ
      ensures blocks == map[]
    {
      this.areaX := areaX;
      this.areaZ := areaZ;
      this.minBlockX := minBlockX;
      this.minBlockZ := minBlockZ;
      blocks := map[];
    }
  }

  /** The 32 bits of a Java `int`, in two's complement. */
  function Bits(x: int): bv32 {
    (x % TWO_32) as bv32
  }

  /**
   * `block.intID + ((meta & 0xFF) << 20)`. Java `int` addition wraps, which is exactly addition of the 32-bit
   * patterns.
   */
  function Code(intID: bv32, meta: bv32): bv32 {
    intID + ((meta & 0xFF) << 20)
  }

  /** The code `set` stores: 0 for a null block. */
  function BlockCode(block: Option<Blocks.Block>, meta: int): bv32 {
    if block.None? then 0 else Code(Bits(block.value.intID), Bits(meta))
  }

  /** For an id below `2^20`, the id sits in the low 20 bits of the code and the meta's low byte in the next 8. */
  lemma CodeRoundTrip(intID: bv32, meta: bv32)
    requires intID < 0x10_0000
    ensures Code(intID, meta) & 0xF_FFFF == intID
    ensures (Code(intID, meta) >> 20) & 0xFF == meta & 0xFF
    ensures Code(intID, meta) < 0x1000_0000
  {
  }

  /** The code `setVisible` stores: 0 for a null block, otherwise the code of `set` OR'd with `BLOCK_VISIBLE`. */
  function VisibleCode(block: Option<Blocks.Block>, meta: int, blockVisible: bv32): bv32 {
    if block.None? then 0 else BlockCode(block, meta) | blockVisible
  }

  /**
   * For a non-null block, the code `setVisible` stores has every `BLOCK_VISIBLE` bit set. All its other bits are
   * those of the code `set` stores.
   */
  lemma VisibleOnlyAddsFlag(block: Blocks.Block, meta: int, blockVisible: bv32)
    ensures VisibleCode(Some(block), meta, blockVisible) & blockVisible == blockVisible
    ensures VisibleCode(Some(block), meta, blockVisible) & !blockVisible
         == BlockCode(Some(block), meta) & !blockVisible
  {
  }

  /** `set`: stores the block's code at the position; nothing else in the area changes. */
  method Set(area: Area, block: Option<Blocks.Block>, x: int, y: int, z: int, meta: int)
    modifies area
    ensures area.blocks == old(area.blocks)[(x, y, z) := BlockCode(block, meta)]
  {
    area.blocks := area.blocks[(x, y, z) := if block.None? then 0 else Code(Bits(block.value.intID), Bits(meta))];
  }

  /** `setVisible`: as `set`, with the visibility flag added to the code. */
  method SetVisible(area: Area, block: Option<Blocks.Block>, x: int, y: int, z: int, meta: int, blockVisible: bv32)
    modifies area
    ensures area.blocks == old(area.blocks)[(x, y, z) := VisibleCode(block, meta, blockVisible)]
  {
    var code := if block.None? then 0 else Code(Bits(block.value.intID), Bits(meta)) | blockVisible;
    area.blocks := area.blocks[(x, y, z) := code];
  }

  /**
   * `setNeighbour`: `neighbour` is the area that `neighbourBlockCoordinates` picks for (x, z). The block goes there,
   * at the coordinates taken relative to that area's minimum block.
   */
  method SetNeighbour(neighbour: Area, block: Option<Blocks.Block>, x: int, y: int, z: int, meta: int)
    modifies neighbour
    ensures neighbour.blocks ==
              old(neighbour.blocks)[(x - neighbour.minBlockX, y, z - neighbour.minBlockZ) := BlockCode(block, meta)]
  {
    Set(neighbour, block, x - neighbour.minBlockX, y, z - neighbour.minBlockZ, meta);
  }

  /** `setVisibleNeighbour`: as `setNeighbour`, through `setVisible`. */
  method SetVisibleNeighbour(neighbour: Area, block: Option<Blocks.Block>, x: int, y: int, z: int, meta: int,
                             blockVisible: bv32)
    modifies neighbour
    ensures neighbour.blocks == old(neighbour.blocks)[(x - neighbour.minBlockX, y, z - neighbour.minBlockZ)
                                                       := VisibleCode(block, meta, blockVisible)]
  {
    SetVisible(neighbour, block, x - neighbour.minBlockX, y, z - neighbour.minBlockZ, meta, blockVisible);
  }

  /** The generation hooks of the template, by name. */
  datatype Hook =
    | GenerateTerrain
    | GenerateCaves
    | GenerateVegetation
    | GenerateStructures
    | GenerateDecorations
    | PostProcess

  /** The hooks `generateArea` runs, in its order. */
  const AREA_HOOKS: seq<Hook> :=
    [GenerateTerrain, GenerateCaves, GenerateVegetation, GenerateStructures, GenerateDecorations, PostProcess]

  /** The hooks `features` runs, in its order. */
  const FEATURE_HOOKS: seq<Hook> := [GenerateCaves, GenerateVegetation, GenerateStructures, GenerateDecorations]
}
