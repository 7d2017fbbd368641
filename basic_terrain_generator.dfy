/**
 * The basic terrain generator: five flat layers in every column of an area (bedrock, two of stone, dirt, grass),
 * plus a few fixed blocks in area (0, 0) for the "old" seed. It overrides only the terrain hook of the template.
 */
module BasicTerrainGenerator {
  import opened Wrappers
  import Blocks
  import opened TerrainGenerator

  /** The blocks the generator places; they stand for the static fields of `Blocks`. */
  datatype Palette = Palette(bedrock: Blocks.Block, stone: Blocks.Block, dirt: Blocks.Block, grass: Blocks.Block)

  /** The number of layers in every column. */
  const LAYERS: int := 5

  /** The block of the layer at height `y`: bedrock at 0, stone at 1 and 2, dirt at 3, grass at 4. */
  function LayerBlock(p: Palette, y: int): Blocks.Block
    requires 0 <= y < LAYERS
  {
    if y == 0 then p.bedrock else if y <= 2 then p.stone else if y == 3 then p.dirt else p.grass
  }

  /** The position is in the layers of a column of an area `size` blocks wide. */
  predicate InLayers(k: Pos, size: int) {
    0 <= k.0 < size && 0 <= k.1 < LAYERS && 0 <= k.2 < size
  }

  /** The extra blocks placed in area (0, 0) for the "old" seed. */
  function Extras(p: Palette): map<Pos, Blocks.Block> {
    map[(1, 4, 1) := p.bedrock, (1, 7, 1) := p.bedrock, (5, 5, 3) := p.stone, (3, 5, 5) := p.grass]
  }

  /**
   * The code `generateTerrain` leaves at position `k`, or `None` where it writes nothing. An extra block wins over
   * the layer it lands in, because it is written after the layers.
   */
  function Generated(p: Palette, size: int, withExtras: bool, k: Pos): Option<bv32> {
    if withExtras && k in Extras(p) then Some(BlockCode(Some(Extras(p)[k]), 0))
    else if InLayers(k, size) then Some(BlockCode(Some(LayerBlock(p, k.1)), 0))
    else None
  }

  /** The numeric ids of the palette fit below the meta bits. */
  predicate IdsFit(p: Palette) {
    && 0 <= p.bedrock.intID < 0x10_0000 && 0 <= p.stone.intID < 0x10_0000
    && 0 <= p.dirt.intID < 0x10_0000 && 0 <= p.grass.intID < 0x10_0000
  }

  /** Every code the generator writes carries meta 0, as long as the block ids fit below the meta bits. */
  lemma GeneratedMetaZero(p: Palette, size: int, withExtras: bool, k: Pos)
    requires IdsFit(p) && Generated(p, size, withExtras, k).Some?
    ensures (Generated(p, size, withExtras, k).value >> 20) & 0xFF == 0
  {
    var b := if withExtras && k in Extras(p) then Extras(p)[k] else LayerBlock(p, k.1);
    assert Generated(p, size, withExtras, k).value == Code(Bits(b.intID), Bits(0));
    BitsOfSmall(b.intID);
    CodeRoundTrip(Bits(b.intID), Bits(0));
  }

  /** A small non-negative number keeps its value as 32 bits. */
  lemma BitsOfSmall(x: int)
    requires 0 <= x < 0x10_0000
    ensures Bits(x) < 0x10_0000
  {
    assert x % 0x1_0000_0000 == x;
  }

  /** Outside area (0, 0), or without the "old" seed, exactly the five layers of every column are written. */
  lemma OnlyLayersWithoutExtras(p: Palette, size: int, k: Pos)
    ensures Generated(p, size, false, k).Some? <==> InLayers(k, size)
    ensures InLayers(k, size) ==> Generated(p, size, false, k) == Some(BlockCode(Some(LayerBlock(p, k.1)), 0))
  {
  }

  /** The layers of a column at (x, z) inside the area, from the bottom up. */
  lemma ColumnLayers(p: Palette, size: int, x: int, z: int)
    requires 0 <= x < size && 0 <= z < size
    ensures Generated(p, size, false, (x, 0, z)) == Some(BlockCode(Some(p.bedrock), 0))
    ensures Generated(p, size, false, (x, 1, z)) == Some(BlockCode(Some(p.stone), 0))
    ensures Generated(p, size, false, (x, 2, z)) == Some(BlockCode(Some(p.stone), 0))
    ensures Generated(p, size, false, (x, 3, z)) == Some(BlockCode(Some(p.dirt), 0))
    ensures Generated(p, size, false, (x, 4, z)) == Some(BlockCode(Some(p.grass), 0))
    ensures Generated(p, size, false, (x, 5, z)).None?
  {
  }

  /**
   * The positions already written when the scan is at height `y` of column (x, z): the earlier columns, scanning
   * x-major, and the lower part of the current one.
   */
  predicate Done(k: Pos, size: int, x: int, z: int, y: int) {
    && 0 <= k.1 < LAYERS && 0 <= k.2 < size && 0 <= k.0
    && (k.0 < x || (k.0 == x && k.2 < z) || (k.0 == x && k.2 == z && k.1 < y))
  }

  /** The area's blocks are the old ones overwritten by the layer codes at the `Done` positions. */
  ghost predicate LayeredUpTo(now: map<Pos, bv32>, before: map<Pos, bv32>, p: Palette, size: int,
                              x: int, z: int, y: int) {
    && (forall k :: k in now <==> k in before || Done(k, size, x, z, y))
    && (forall k :: k in now ==>
          now[k] == if Done(k, size, x, z, y) then BlockCode(Some(LayerBlock(p, k.1)), 0) else before[k])
  }

  /** The starting point of the scan. */
  lemma LayeredStart(before: map<Pos, bv32>, p: Palette, size: int)
    ensures LayeredUpTo(before, before, p, size, 0, 0, 0)
  {
  }

  /** Writing the layer at height `y` of column (x, z) moves the scan one block up. */
  lemma CellStep(now: map<Pos, bv32>, before: map<Pos, bv32>, p: Palette, size: int, x: int, z: int, y: int)
    requires 0 <= x && 0 <= z < size && 0 <= y < LAYERS && LayeredUpTo(now, before, p, size, x, z, y)
    ensures LayeredUpTo(now[(x, y, z) := BlockCode(Some(LayerBlock(p, y)), 0)], before, p, size, x, z, y + 1)
  {
  }

  /** The top of column (x, z) is the bottom of column (x, z + 1). */
  lemma ColumnEnd(now: map<Pos, bv32>, before: map<Pos, bv32>, p: Palette, size: int, x: int, z: int)
    requires LayeredUpTo(now, before, p, size, x, z, LAYERS)
    ensures LayeredUpTo(now, before, p, size, x, z + 1, 0)
  {
    assert forall k :: Done(k, size, x, z, LAYERS) <==> Done(k, size, x, z + 1, 0);
  }

  /** The end of row `x` is the start of row `x + 1`. */
  lemma RowEnd(now: map<Pos, bv32>, before: map<Pos, bv32>, p: Palette, size: int, x: int)
    requires LayeredUpTo(now, before, p, size, x, size, 0)
    ensures LayeredUpTo(now, before, p, size, x + 1, 0, 0)
  {
    assert forall k :: Done(k, size, x, size, 0) <==> Done(k, size, x + 1, 0, 0);
  }

  /** After all rows, the written positions are exactly the layers. */
  lemma LayeredAll(now: map<Pos, bv32>, before: map<Pos, bv32>, p: Palette, size: int)
    requires LayeredUpTo(now, before, p, size, size, 0, 0)
    ensures forall k :: k in now <==> k in before || InLayers(k, size)
    ensures forall k :: k in now ==>
              now[k] == if InLayers(k, size) then BlockCode(Some(LayerBlock(p, k.1)), 0) else before[k]
  {
    assert forall k :: Done(k, size, size, 0, 0) <==> InLayers(k, size);
  }

  class BasicTerrainGenerator {
    /** The field `old`: the seed was exactly "old". */
    const isOld: bool
    const palette: Palette
    /** `Area.SIZE_BLOCKS`: the width of an area in blocks. Area.java is not part of this model. */
    const sizeBlocks: nat
    /** The hooks run so far, in order. */
    ghost var hooksRun: seq<Hook>

    /** The constructor: `old` holds exactly when the seed is "old"; a null seed is not "old". */
    constructor (seed: Option<string>, palette: Palette, sizeBlocks: nat)
      ensures isOld <==> seed == Some("old")
      ensures this.palette == palette && this.sizeBlocks == sizeBlocks && hooksRun == []
    {
      this.isOld := seed == Some("old");
      this.palette := palette;
      this.sizeBlocks := sizeBlocks;
      hooksRun := [];
    }

    /** The five layers of the column at (x, z), from the bottom up. */
    method SetColumn(area: Area, x: int, z: int, ghost before: map<Pos, bv32>)
      requires 0 <= x && 0 <= z < sizeBlocks && LayeredUpTo(area.blocks, before, palette, sizeBlocks, x, z, 0)
      modifies area
      ensures LayeredUpTo(area.blocks, before, palette, sizeBlocks, x, z + 1, 0)
    {
      CellStep(area.blocks, before, palette, sizeBlocks, x, z, 0);
      Set(area, Some(palette.bedrock), x, 0, z, 0);
      CellStep(area.blocks, before, palette, sizeBlocks, x, z, 1);
      Set(area, Some(palette.stone), x, 1, z, 0);
      CellStep(area.blocks, before, palette, sizeBlocks, x, z, 2);
      Set(area, Some(palette.stone), x, 2, z, 0);
      CellStep(area.blocks, before, palette, sizeBlocks, x, z, 3);
      Set(area, Some(palette.dirt), x, 3, z, 0);
      CellStep(area.blocks, before, palette, sizeBlocks, x, z, 4);
      Set(area, Some(palette.grass), x, 4, z, 0);
      ColumnEnd(area.blocks, before, palette, sizeBlocks, x, z);
    }

    /** The row of columns at `x`, for every `z` of the area. */
    method SetRow(area: Area, x: int, ghost before: map<Pos, bv32>)
      requires 0 <= x < sizeBlocks && LayeredUpTo(area.blocks, before, palette, sizeBlocks, x, 0, 0)
      modifies area
      ensures LayeredUpTo(area.blocks, before, palette, sizeBlocks, x + 1, 0, 0)
    {
      for z := 0 to sizeBlocks
        invariant LayeredUpTo(area.blocks, before, palette, sizeBlocks, x, z, 0)
      {
        SetColumn(area, x, z, before);
      }
      RowEnd(area.blocks, before, palette, sizeBlocks, x);
    }

    /** The extra blocks of area (0, 0), written after the layers. */
    method SetExtras(area: Area)
      modifies area
      ensures forall k :: k in area.blocks <==> k in old(area.blocks) || k in Extras(palette)
      ensures forall k :: k in area.blocks ==>
                area.blocks[k] == if k in Extras(palette) then BlockCode(Some(Extras(palette)[k]), 0)
                                  else old(area.blocks)[k]
    {
      Set(area, Some(palette.bedrock), 1, 4, 1, 0);
      Set(area, Some(palette.bedrock), 1, 7, 1, 0);
      Set(area, Some(palette.stone), 5, 5, 3, 0);
      Set(area, Some(palette.grass), 3, 5, 5, 0);
    }

    /**
     * `generateTerrain`: the layers of every column, then the extras when the area is (0, 0) and the seed is
     * "old". Every other position keeps its code.
     */
    method GenerateTerrain(area: Area)
      modifies this, area
      ensures hooksRun == old(hooksRun) + [Hook.GenerateTerrain]
      ensures forall k :: k in area.blocks <==>
                k in old(area.blocks) || Generated(palette, sizeBlocks, area.areaX == 0 && area.areaZ == 0 && isOld, k).Some?
      ensures forall k :: k in area.blocks ==>
                area.blocks[k] == match Generated(palette, sizeBlocks, area.areaX == 0 && area.areaZ == 0 && isOld, k)
                                  case Some(code) => code
                                  case None => old(area.blocks)[k]
    {
      LayeredStart(area.blocks, palette, sizeBlocks);
      for x := 0 to sizeBlocks
        invariant LayeredUpTo(area.blocks, old(area.blocks), palette, sizeBlocks, x, 0, 0)
        invariant hooksRun == old(hooksRun)
      {
        SetRow(area, x, old(area.blocks));
      }
      LayeredAll(area.blocks, old(area.blocks), palette, sizeBlocks);
      if area.areaX == 0 && area.areaZ == 0 && isOld {
        SetExtras(area);
      }
      hooksRun := hooksRun + [Hook.GenerateTerrain];
    }

    /** The caves hook: the template's default does nothing. */
    method GenerateCaves(area: Area)
      modifies this
      ensures hooksRun == old(hooksRun) + [Hook.GenerateCaves]
    {
      hooksRun := hooksRun + [Hook.GenerateCaves];
    }

    /** The vegetation hook: the template's default does nothing. */
    method GenerateVegetation(area: Area)
      modifies this
      ensures hooksRun == old(hooksRun) + [Hook.GenerateVegetation]
    {
      hooksRun := hooksRun + [Hook.GenerateVegetation];
    }

    /** The structures hook: the template's default does nothing. */
    method GenerateStructures(area: Area)
      modifies this
      ensures hooksRun == old(hooksRun) + [Hook.GenerateStructures]
    {
      hooksRun := hooksRun + [Hook.GenerateStructures];
    }

    /** The decorations hook: the template's default does nothing. */
    method GenerateDecorations(area: Area)
      modifies this
      ensures hooksRun == old(hooksRun) + [Hook.GenerateDecorations]
    {
      hooksRun := hooksRun + [Hook.GenerateDecorations];
    }

    /** The post-processing hook: the template's default does nothing. */
    method PostProcess(area: Area)
      modifies this
      ensures hooksRun == old(hooksRun) + [Hook.PostProcess]
    {
      hooksRun := hooksRun + [Hook.PostProcess];
    }

    /**
     * `generateArea`, the template method: terrain, caves, vegetation, structures, decorations, then
     * post-processing. For this generator only the terrain hook changes the area.
     */
    method GenerateArea(area: Area)
      modifies this, area
      ensures hooksRun == old(hooksRun) + AREA_HOOKS
      ensures forall k :: k in area.blocks <==>
                k in old(area.blocks) || Generated(palette, sizeBlocks, area.areaX == 0 && area.areaZ == 0 && isOld, k).Some?
      ensures forall k :: k in area.blocks ==>
                area.blocks[k] == match Generated(palette, sizeBlocks, area.areaX == 0 && area.areaZ == 0 && isOld, k)
                                  case Some(code) => code
                                  case None => old(area.blocks)[k]
    {
      GenerateTerrain(area);
      GenerateCaves(area);
      GenerateVegetation(area);
      GenerateStructures(area);
      GenerateDecorations(area);
      PostProcess(area);
    }

    /** `generate`: the terrain hook alone. */
    method Generate(area: Area)
      modifies this, area
      ensures hooksRun == old(hooksRun) + [Hook.GenerateTerrain]
      ensures forall k :: k in area.blocks <==>
                k in old(area.blocks) || Generated(palette, sizeBlocks, area.areaX == 0 && area.areaZ == 0 && isOld, k).Some?
      ensures forall k :: k in area.blocks ==>
                area.blocks[k] == match Generated(palette, sizeBlocks, area.areaX == 0 && area.areaZ == 0 && isOld, k)
                                  case Some(code) => code
                                  case None => old(area.blocks)[k]
    {
      GenerateTerrain(area);
    }

    /** `features`: caves, vegetation, structures and decorations, in that order; the area is left as it was. */
    method Features(area: Area)
      modifies this
      ensures hooksRun == old(hooksRun) + FEATURE_HOOKS
      ensures unchanged(area)
    {
      GenerateCaves(area);
      GenerateVegetation(area);
      GenerateStructures(area);
      GenerateDecorations(area);
    }

    /**
     * `spawnPoint`: block (0, 5, 0). In an area at least one block wide, that is the free position right above
     * the grass of the first column, and the extras never occupy it.
     */
    function SpawnPoint(): (r: Pos)
      ensures sizeBlocks > 0 ==> forall withExtras :: Generated(palette, sizeBlocks, withExtras, r).None?
      ensures sizeBlocks > 0 ==> Generated(palette, sizeBlocks, false, (r.0, r.1 - 1, r.2))
                                 == Some(BlockCode(Some(palette.grass), 0))
    {
      (0, 5, 0)
    }
  }
}
