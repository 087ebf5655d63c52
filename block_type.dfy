/** The integer codes of the block types. Water has no named constant in the
    program and is written as the literal 16 everywhere it is tested. */
module BlockType {
  import opened Settings

  const VOID: Byte := 0
  const SAND: Byte := 1
  const GRASS: Byte := 2
  const DIRT: Byte := 3
  const STONE: Byte := 4
  const SNOW: Byte := 5
  const LEAVES: Byte := 6
  const WOOD: Byte := 7
  const COAL_ORE: Byte := 8
  const RAW_COAL_BLOCK: Byte := 9
  const COPPER_ORE: Byte := 10
  const RAW_COPPER_BLOCK: Byte := 11
  const TIN_ORE: Byte := 12
  const RAW_TIN_BLOCK: Byte := 13
  const WOOD_BLOCK: Byte := 14
  const BASIC_CRAFTING_TABLE: Byte := 15
  const WATER: Byte := 16
}
