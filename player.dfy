/** The player's block selection and mouse-button dispatch. */
module Players {
  import opened Settings
  import opened BlockType
  import opened ChunkMeshBuilder
  import opened WorldStore
  import opened VoxelHandling

  /** The highest selectable id: the selection wraps after it. */
  const MAX_SELECTED: int := 15

  /** The middle button: the next selectable id, wrapping to 0 after 15. */
  function NextSelected(s: int): (r: int)
    requires 0 <= s <= MAX_SELECTED
    ensures 0 <= r <= MAX_SELECTED
  {
    if s < MAX_SELECTED then s + 1 else 0
  }

  /** The selection after `n` middle-button presses from `s`. */
  function Presses(s: int, n: nat): (r: int)
    requires 0 <= s <= MAX_SELECTED
    ensures 0 <= r <= MAX_SELECTED
    decreases n
  {
    if n == 0 then s else Presses(NextSelected(s), n - 1)
  }

  /** The selection is a counter modulo 16. */
  lemma {:induction false} PressesModulo(s: int, n: nat)
    requires 0 <= s <= MAX_SELECTED
    ensures Presses(s, n) == (s + n) % (MAX_SELECTED + 1)
    decreases n
  {
    if n > 0 {
      PressesModulo(NextSelected(s), n - 1);
    }
  }

  /** Sixteen presses bring the selection back to where it was, and water
      is never selected. */
  lemma SixteenPresses(s: int)
    requires 0 <= s <= MAX_SELECTED
    ensures Presses(s, MAX_SELECTED + 1) == s
    ensures forall n: nat :: Presses(s, n) != WATER
  {
    PressesModulo(s, MAX_SELECTED + 1);
  }

  class Player {
    /** The id placed by the left button. */
    var selectedVoxel: int
    /** The world's voxel handler. */
    const handler: VoxelHandler

    ghost predicate Valid()
      reads this, handler, handler.world, handler.world.chunks, handler.world.rows
    {
      0 <= selectedVoxel <= MAX_SELECTED && handler.Valid()
    }

    /** `__init__`: nothing selected (id 0). */
    constructor (handler: VoxelHandler)
      requires handler.Valid()
      ensures Valid() && this.handler == handler && selectedVoxel == 0
    {
      this.handler := handler;
      selectedVoxel := 0;
    }

    /** `handle_event` for a mouse button press: the left button (1) sets a
        voxel with the selected id, the middle button (2) advances the
        selection, the right button (3) switches the handler's mode. */
    method HandleEvent(button: int)
      requires Valid()
      modifies this, handler, handler.world.chunks, handler.world.rows
      ensures Valid()
      ensures selectedVoxel == if button == 2 then NextSelected(old(selectedVoxel)) else old(selectedVoxel)
      ensures button == 1 && old(handler.interactionMode) == 1 ==>
        handler.world.Voxels() == AfterAdd(old(handler.world.Voxels()), old(handler.voxelId), old(handler.Target()), selectedVoxel)
      ensures button == 1 && old(handler.interactionMode) == 0 ==>
        handler.world.Voxels() == AfterRemove(old(handler.world.Voxels()), old(handler.voxelId), old(handler.voxelWorld))
      ensures button == 3 ==> handler.interactionMode == 1 - old(handler.interactionMode)
      ensures button != 3 ==> handler.interactionMode == old(handler.interactionMode)
      ensures button != 1 ==> handler.world.Voxels() == old(handler.world.Voxels())
      ensures button != 1 ==> forall j :: 0 <= j < WORLD_VOL ==> unchanged(handler.world.chunks[j])
      ensures handler.voxelId == old(handler.voxelId) && handler.voxelWorld == old(handler.voxelWorld)
      ensures handler.voxelNormal == old(handler.voxelNormal) && handler.chunk == old(handler.chunk)
      ensures handler.voxelIndex == old(handler.voxelIndex) && handler.voxelLocal == old(handler.voxelLocal)
      ensures handler.newVoxelId == old(handler.newVoxelId)
      ensures button == 1 && handler.interactionMode == 1 ==>
        && (Places(old(handler.world.Voxels()), handler.voxelId, handler.Target()) ==>
              handler.SlotMeshed(GetChunkIndex(handler.Target()), handler.world.Voxels())
              && !handler.world.chunks[GetChunkIndex(handler.Target())].isEmpty)
        && forall j | 0 <= j < WORLD_VOL &&
             (j != GetChunkIndex(handler.Target()) || !Places(old(handler.world.Voxels()), handler.voxelId, handler.Target())) ::
             unchanged(handler.world.chunks[j])
      ensures button == 1 && handler.interactionMode == 0 && handler.voxelId != 0 ==>
        && handler.SlotMeshed(GetChunkIndex(handler.voxelWorld), handler.world.Voxels())
        && (forall j :: 0 <= j < WORLD_VOL && j in AdjacentSlots(handler.voxelLocal, handler.voxelWorld) ==>
              handler.SlotMeshed(j, handler.world.Voxels()))
        && forall j | 0 <= j < WORLD_VOL && j != GetChunkIndex(handler.voxelWorld) &&
             j !in AdjacentSlots(handler.voxelLocal, handler.voxelWorld) ::
             unchanged(handler.world.chunks[j])
      ensures button == 1 && handler.interactionMode == 0 ==>
        forall j :: 0 <= j < WORLD_VOL ==> handler.world.chunks[j].isEmpty == old(handler.world.chunks[j].isEmpty)
    {
      if button == 1 {
        handler.SetVoxel(Some(selectedVoxel));
      }
      if button == 2 {
        selectedVoxel := NextSelected(selectedVoxel);
      }
      if button == 3 {
        handler.SwitchMode();
      }
    }
  }
}
