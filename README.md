# VoxelTerrain data paging, modelled in Dafny

This project models the data-paging bookkeeping of the fixed-LOD voxel terrain
(`VoxelTerrain`, declared in `terrain/fixed_lod/voxel_terrain.h`). It proves
properties of that model. The terrain pages voxel data in and out in cubic
blocks whose edge is `1 << pow2` voxels. Each paired viewer has a data box in
block coordinates. When a viewer's box moves, the blocks that enter the box
are requested and the blocks that leave it are released.

Four collections do the bookkeeping:

- a loading table: a per-position refcount plus the viewers to notify;
- three work lists whose order does not matter: blocks pending load, block
  meshes pending update, and blocks to save;
- the unloaded-saving cache: edited blocks that were unloaded and are waiting
  for their save to complete;
- the quick-reload list: cached blocks that are replayed as load responses.
  The header replays them on the next process call; the model does not fix
  the order of the phases, so a quick reload may still be queued when the
  block is unloaded and cached again. While the cache holds a block, only a
  quick reload of the voxels it holds now is applied.

Asynchronous jobs are cancelled by replacing a shared dependency object. Here
that object is a streaming epoch and a meshing epoch, and each job carries the
epoch it was created under.

Files:

- `blocks.dfy` (module `Blocks`)
  - block coordinates, and `1 << pow2` computed on 32 bits and read back as
    the getters' `unsigned int` result;
  - voxel/block conversions;
  - boxes, the cells a box covers, and the diff between two boxes.
- `lists.dfy` (module `Lists`): mapping and flat-mapping over sequences, and
  their behaviour under permutation.
- `paging.dfy` (module `Paging`)
  - the paging state as a value (`PagingState`) and the invariant `Valid`;
  - every paging operation as a function from the state before a call to the
    state after it;
  - `Step` and `Run`, which replay a sequence of per-block steps.
- `commutation.dfy` (module `Commutation`): why the order of the lists does
  not matter. Steps on different positions commute, and any permutation of
  pairwise independent steps gives an equivalent state.
- `refcounts.dfy` (module `Refcounts`): every refcount equals the number of
  paired viewers whose data box contains the block, and that equality is
  kept while loading is allowed. The weaker bound, no refcount above that
  number, is kept by every operation other than a single entry, with loading
  allowed or not.
- `guarantees.dfy` (module `Guarantees`): the promises made in the header's
  comments.
  - the unload-while-saving cache;
  - `try_set_block_data` and `generate_block_async`;
  - dropping the results of invalidated dependencies.
- `terrain.dfy` (module `Terrain`)
  - class `VoxelTerrain` keeps the state in real fields, with maps and
    sequences that its methods update in place;
  - each method ensures that its new state is the `Paging` function applied
    to its old state, and that `Valid()` is kept;
  - the loops (`ProcessViewers`, `UnviewDataBlocks`, `ViewDataBlocks`,
    `CheckPendingLoads`, `ProcessQuickReloads`, `ProcessMeshing`,
    `ConsumeBlockDataSaveRequests`, `CountViewersInRange`) are proved
    against those functions by their invariants.

The header names some operations. Their mapping onto the model:

| header operation | model |
|---|---|
| "request load" (`view_data_block`) | `EnterBlock` / `VoxelTerrain.ViewDataBlock` |
| "leave" (`unview_data_block`, `unload_data_block`) | `LeaveBlock`, `UnloadBlock` |
| `apply_data_block_response` | `ApplyLoadResponse` |
| a save completion | `ApplySaveDone` |

The header declares `view_data_block`, `unview_data_block` and
`unload_data_block` but comments them out (lines 293-297). The bookkeeping they
name is still the paging the fields describe, so it is modelled under those
names. The `.cpp` bodies are not part of this model, so every rule below that
goes beyond the header's comments is a modelling assumption. Each is listed
under "## Left out".

## Model

| member | source | states |
|---|---|---|
| Blocks.BlockSize | terrain/fixed_lod/voxel_terrain.h:119-128 | `1 << pow2`, read back as the getters' `unsigned int`, is 2^pow2 and lies strictly between 0 and 2^32 for every pow2 below 32 |
| Blocks.ShiftPow2 | terrain/fixed_lod/voxel_terrain.h:120-121 | arithmetic helper behind BlockSize: doubling 2^k modulo 2^32, n times, gives 2^(k+n) while k+n stays below 32, so the shift loses no bit |
| Blocks.BlockSizeIsPowerOfTwo | terrain/fixed_lod/voxel_terrain.h:119-128 | a block size is a positive power of two |
| Blocks.Pow2Injective | terrain/fixed_lod/voxel_terrain.h:119-128 | two exponents give the same block size only if they are equal |
| Terrain.VoxelTerrain.DataBlockSize | terrain/fixed_lod/voxel_terrain.h:119-122 | the data block edge is 2^pow2, a power of two of at least 1 |
| Terrain.VoxelTerrain.MeshBlockSize | terrain/fixed_lod/voxel_terrain.h:125-128 | the mesh block edge is 2^pow2, a power of two of at least 1 |
| Blocks.CoordToBlock | terrain/fixed_lod/voxel_terrain.h:339 | a voxel coordinate maps to the block coordinate b with b times the block size at or below it and the next block's origin above it (floor division, negative coordinates included) |
| Blocks.CoordToVoxel | terrain/fixed_lod/voxel_terrain.h:340 | a block coordinate maps to a voxel coordinate that is a multiple of the block size |
| Blocks.VoxelToBlock | terrain/fixed_lod/voxel_terrain.h:339 | a voxel lies, on every axis, inside the voxel box of the block it maps to |
| Blocks.BlockToVoxel | terrain/fixed_lod/voxel_terrain.h:340 | a block's voxel origin is aligned to the block size on every axis |
| Blocks.CoordRoundTrip | terrain/fixed_lod/voxel_terrain.h:339-340 | one coordinate: converting a block coordinate to voxels and back gives the block coordinate again, negative coordinates included |
| Blocks.CoordContainment | terrain/fixed_lod/voxel_terrain.h:339-340 | a voxel coordinate maps to block b if and only if it lies at or after b's origin and before the next block's origin (floor division, negative coordinates included) |
| Blocks.BlockRoundTrip | terrain/fixed_lod/voxel_terrain.h:339-340 | block to voxel origin and back is the identity on 3D block positions |
| Blocks.BlockContainment | terrain/fixed_lod/voxel_terrain.h:339-340 | a voxel maps to block b if and only if the voxel box of b contains it |
| Terrain.VoxelTerrain.VoxelToDataBlock | terrain/fixed_lod/voxel_terrain.h:339 | the data block of a voxel contains that voxel on each axis (floor division) |
| Terrain.VoxelTerrain.DataBlockToVoxel | terrain/fixed_lod/voxel_terrain.h:340 | the voxel of a data block is its minimum corner, the block position times the block size on each axis, and it maps back to that block |
| Blocks.Cells | terrain/fixed_lod/voxel_terrain.h:356-371 | the cells of a box list each block the box contains once, and nothing else |
| Blocks.BoxDiff | terrain/fixed_lod/voxel_terrain.h:272-277 | the blocks leaving a data box are exactly those in the old box and not in the new one; the entering blocks are those in the new box and not in the old one; both lists are duplicate-free |
| Paging.ViewersInRange | terrain/fixed_lod/voxel_terrain.h:356-371 | counts the paired viewers whose data box contains a block; it is zero exactly when no viewer's box contains it |
| Paging.Valid | terrain/fixed_lod/voxel_terrain.h:356-395 | the paging invariant: no block is both resident and loading, every resident or loading block is held by at least one viewer, and no job carries an epoch later than the current one |
| Terrain.VoxelTerrain.Valid | terrain/fixed_lod/voxel_terrain.h:356-418 | the fields satisfy Paging.Valid and both block sizes are below 2^32 |
| Paging.HasDataBlock | terrain/fixed_lod/voxel_terrain.h:184 | a block has data exactly when it is resident; under the invariant a block that has data is not loading and has a refcount of at least one |
| Terrain.VoxelTerrain.HasDataBlock | terrain/fixed_lod/voxel_terrain.h:184 | answers as Paging.HasDataBlock on the terrain's state; a block with data is not in the loading table |
| Terrain.VoxelTerrain.CountViewersInRange | terrain/fixed_lod/voxel_terrain.h:179-182 | the loop over the paired viewers computes that count |
| Paging.EnterBlock | terrain/fixed_lod/voxel_terrain.h:385-395 | entering a block adds one to its refcount and changes no other block; a resident block keeps its voxels and emits an entered event for the viewer at once when notifications are asked for; otherwise the viewer is appended to the loading entry's viewers to notify (an existing entry's or a fresh one's) and a fresh block is queued once in the pending-load list |
| Terrain.VoxelTerrain.ViewDataBlock | terrain/fixed_lod/voxel_terrain.h:385-395 | updates the fields as EnterBlock does and keeps the invariant |
| Terrain.VoxelTerrain.JoinResident | terrain/fixed_lod/voxel_terrain.h:320 | the resident-block case of entering: touches only the block map and the events |
| Terrain.VoxelTerrain.JoinLoading | terrain/fixed_lod/voxel_terrain.h:385-389 | the loading case of entering: touches only the loading table |
| Terrain.VoxelTerrain.StartLoading | terrain/fixed_lod/voxel_terrain.h:391-395 | the fresh-block case of entering: touches only the loading table and the pending-load list |
| Paging.LeaveBlock | terrain/fixed_lod/voxel_terrain.h:385-405 | leaving a block takes one from its refcount and changes no other block; a loading entry dropping to zero is removed; a resident block losing its last viewer is unloaded exactly as UnloadBlock does |
| Terrain.VoxelTerrain.UnviewDataBlock | terrain/fixed_lod/voxel_terrain.h:385-392 | updates the fields as LeaveBlock does and keeps the invariant |
| Paging.UnloadBlock | terrain/fixed_lod/voxel_terrain.h:400-405 | an unloaded block leaves the block map; an edited one is queued for saving and kept in the unloaded-saving cache; an unedited one is dropped |
| Terrain.VoxelTerrain.UnloadDataBlock | terrain/fixed_lod/voxel_terrain.h:400-405 | updates the fields as UnloadBlock does |
| Terrain.VoxelTerrain.UnviewDataBlocks | terrain/fixed_lod/voxel_terrain.h:272-277 | the loop leaving a list of blocks leaves the same state as replaying one exit per block |
| Terrain.VoxelTerrain.ViewDataBlocks | terrain/fixed_lod/voxel_terrain.h:272-277 | the loop entering a list of blocks leaves the same state as replaying one entry per block |
| Paging.ProcessViewerDataBoxChange | terrain/fixed_lod/voxel_terrain.h:272-277 | a data-box change keeps the invariant and leaves the viewers, the epochs, the jobs, the quick reloads and the meshes as they were |
| Terrain.VoxelTerrain.ProcessViewerDataBoxChange | terrain/fixed_lod/voxel_terrain.h:272-277 | a data-box change exits the leaving blocks and, only when loading is allowed, enters the entering blocks |
| Paging.UpdateViewer | terrain/fixed_lod/voxel_terrain.h:356-371 | a viewer's state becomes its previous state and the new state becomes current; every other viewer is unchanged; the invariant is kept |
| Paging.ProcessViewers | terrain/fixed_lod/voxel_terrain.h:356-371 | the first viewers move to their new states, with their old states as previous states; the remaining viewers are untouched |
| Terrain.VoxelTerrain.UpdatePairedViewer | terrain/fixed_lod/voxel_terrain.h:356-371 | updates the fields as UpdateViewer does |
| Terrain.VoxelTerrain.ProcessViewers | terrain/fixed_lod/voxel_terrain.h:271 | the loop over the viewers computes Paging.ProcessViewers |
| Paging.PairViewer | terrain/fixed_lod/voxel_terrain.h:356-371 | a newly paired viewer is appended with an empty previous state |
| Paging.UnpairViewer | terrain/fixed_lod/voxel_terrain.h:356-371 | an unpaired viewer is removed from the list, the others keeping their order |
| Terrain.VoxelTerrain.PairViewer | terrain/fixed_lod/voxel_terrain.h:356-371 | updates the fields as Paging.PairViewer does |
| Terrain.VoxelTerrain.UnpairViewer | terrain/fixed_lod/voxel_terrain.h:356-371 | updates the fields as Paging.UnpairViewer does |
| Refcounts.RunExits | terrain/fixed_lod/voxel_terrain.h:385-392 | leaving distinct blocks, each held by someone, lowers each of their refcounts by exactly one and leaves all others unchanged |
| Refcounts.RunEnters | terrain/fixed_lod/voxel_terrain.h:385-392 | entering distinct blocks raises each of their refcounts by exactly one and leaves all others unchanged |
| Refcounts.DiffInterest | terrain/fixed_lod/voxel_terrain.h:385-392 | a box change moves one unit of refcount from every block only in the old box to every block only in the new box |
| Refcounts.UpdateViewerCounted | terrain/fixed_lod/voxel_terrain.h:385-392 | moving one viewer keeps every refcount equal to the number of viewers in range |
| Refcounts.ProcessViewersCounted | terrain/fixed_lod/voxel_terrain.h:385-392 | process_viewers keeps every refcount equal to the number of viewers in range |
| Refcounts.PairViewerCounted | terrain/fixed_lod/voxel_terrain.h:385-392 | pairing a viewer keeps the refcounts equal to the viewer counts |
| Refcounts.UnpairViewerCounted | terrain/fixed_lod/voxel_terrain.h:385-392 | unpairing a viewer keeps the refcounts equal to the viewer counts |
| Refcounts.Counted | terrain/fixed_lod/voxel_terrain.h:385-392 | the refcount of every block equals the number of paired viewers whose data box contains it |
| Refcounts.StepCounted | terrain/fixed_lod/voxel_terrain.h:179-198 | load responses, save completions, edits, try_set_block_data and generate_block_async keep the refcounts equal to the viewer counts |
| Refcounts.RunLoadsCounted | terrain/fixed_lod/voxel_terrain.h:281 | replaying any load responses keeps the counts |
| Refcounts.SendCounted | terrain/fixed_lod/voxel_terrain.h:305 | send_data_load_requests keeps the counts |
| Refcounts.QuickReloadsCounted | terrain/fixed_lod/voxel_terrain.h:406-411 | replaying the quick reloads keeps the counts |
| Refcounts.PagedIffWanted | terrain/fixed_lod/voxel_terrain.h:385-392 | while the counts are kept, a block is resident or loading if and only if some paired viewer's data box contains it |
| Refcounts.Bounded | terrain/fixed_lod/voxel_terrain.h:385-392 | the weaker invariant: no refcount exceeds the number of paired viewers whose data box contains the block |
| Refcounts.CountedBounded | terrain/fixed_lod/voxel_terrain.h:385-392 | equal counts imply the bound |
| Refcounts.HeldIsWanted | terrain/fixed_lod/voxel_terrain.h:385-392 | under the bound, a resident or loading block lies in some paired viewer's data box |
| Refcounts.RunExitsAny | terrain/fixed_lod/voxel_terrain.h:385-392 | leaving distinct blocks lowers each of their refcounts by one, or keeps it at zero, and leaves all others unchanged |
| Refcounts.DiffBounded | terrain/fixed_lod/voxel_terrain.h:272-277 | after a data-box change, with loading allowed or not, each block's refcount is zero or at most its old refcount, less one if the old box held it, plus one if the new box holds it |
| Refcounts.UpdateViewerBounded | terrain/fixed_lod/voxel_terrain.h:272-277 | moving one viewer keeps the bound, with loading allowed or not |
| Refcounts.ProcessViewersBounded | terrain/fixed_lod/voxel_terrain.h:271 | process_viewers keeps the bound, with loading allowed or not |
| Refcounts.PairViewerBounded | terrain/fixed_lod/voxel_terrain.h:356-371 | pairing a viewer keeps the bound, with loading allowed or not |
| Refcounts.UnpairViewerBounded | terrain/fixed_lod/voxel_terrain.h:356-371 | unpairing a viewer keeps the bound |
| Refcounts.StepBounded | terrain/fixed_lod/voxel_terrain.h:179-198 | load responses, save completions, edits, exits, try_set_block_data and generate_block_async keep the bound |
| Refcounts.RunBounded | terrain/fixed_lod/voxel_terrain.h:385-392 | replaying any steps other than entries keeps the bound |
| Refcounts.SendAndReloadBounded | terrain/fixed_lod/voxel_terrain.h:406-411 | send_data_load_requests and the quick reloads keep the bound |
| Paging.ApplyLoadResponse | terrain/fixed_lod/voxel_terrain.h:385-392 | a response is accepted exactly when it is of the current epoch, for a loading block, and, if the unloaded-saving cache holds the block, a quick reload of the voxels the cache holds; an accepted response makes the block resident and unedited with the delivered voxels and the same viewers, emits a loaded event and one entered event per viewer to notify; any other response changes nothing |
| Terrain.VoxelTerrain.ApplyDataBlockResponse | terrain/fixed_lod/voxel_terrain.h:281 | updates the fields as ApplyLoadResponse does |
| Guarantees.ExistingBlockKept | terrain/fixed_lod/voxel_terrain.h:179-198 | a response for a block that is already resident changes nothing |
| Paging.ApplySaveDone | terrain/fixed_lod/voxel_terrain.h:402-405 | a completed save removes the cache entry only when the entry holds the buffer that was saved; otherwise nothing changes |
| Terrain.VoxelTerrain.ApplySaveDone | terrain/fixed_lod/voxel_terrain.h:402-405 | updates the fields as Paging.ApplySaveDone does |
| Paging.EditBlock | terrain/fixed_lod/voxel_terrain.h:131-132 | an edit replaces a resident block's voxels and flags it as needing a save, keeping its viewers; a block that is not resident is untouched |
| Terrain.VoxelTerrain.PostEdit | terrain/fixed_lod/voxel_terrain.h:131-132 | updates the fields as EditBlock does |
| Paging.TrySetBlockData | terrain/fixed_lod/voxel_terrain.h:179-182 | returns true exactly when some paired viewer's data box contains the block; then the block is created or overridden with the given voxels and its loading entry is dropped, and nothing else changes; when false nothing changes |
| Terrain.VoxelTerrain.TrySetBlockData | terrain/fixed_lod/voxel_terrain.h:179-182 | returns the same flag and new state as Paging.TrySetBlockData |
| Guarantees.SetBlockWinsOverPendingLoad | terrain/fixed_lod/voxel_terrain.h:179-182 | after try_set_block_data succeeds, any later response for the block, from the stream, the generator or a quick reload, is dropped and the set voxels stay |
| Paging.GenerateBlockAsync | terrain/fixed_lod/voxel_terrain.h:195-198 | a request for a block that is resident, already loading, or out of every viewer's range changes nothing; otherwise the block is loading, held by the viewers in range, and queued for loading, and nothing else changes |
| Terrain.VoxelTerrain.GenerateBlockAsync | terrain/fixed_lod/voxel_terrain.h:195-198 | updates the fields as Paging.GenerateBlockAsync does |
| Guarantees.GenerateCancelled | terrain/fixed_lod/voxel_terrain.h:195-198 | while no refcount exceeds the number of viewers in range, the generated voxels are dropped when the block already exists on arrival, or when no viewer is in range of it any more |
| Guarantees.GenerateAfterPairingWithoutLoading | terrain/fixed_lod/voxel_terrain.h:195-198 | after a viewer is paired with loading off, a block in its data box is neither resident nor loading, generate_block_async starts loading it, and the refcount bound holds before and after |
| Guarantees.HasDataBlockTracksResidency | terrain/fixed_lod/voxel_terrain.h:184 | has_data_block turns true when an accepted response or a successful try_set_block_data arrives, and a block that has data is wanted by some paired viewer |
| Paging.QuickReloads | terrain/fixed_lod/voxel_terrain.h:402-411 | a quick reload is queued exactly for each pending block the cache holds, carrying the cached voxels |
| Paging.LoadRequests | terrain/fixed_lod/voxel_terrain.h:402-405 | a load job is issued exactly for each pending block the cache does not hold, tagged with the current streaming epoch |
| Paging.SendDataLoadRequests | terrain/fixed_lod/voxel_terrain.h:393-395 | sending the load requests empties the pending list, keeps the invariant and touches neither the blocks, the loading table nor the cache |
| Terrain.VoxelTerrain.CheckPendingLoad | terrain/fixed_lod/voxel_terrain.h:402-411 | one pending block is queued as a quick reload on a cache hit and as a load job on a miss |
| Terrain.VoxelTerrain.CheckPendingLoads | terrain/fixed_lod/voxel_terrain.h:402-411 | the loop over the pending list appends exactly the quick reloads and the load jobs of the pending blocks, in list order |
| Terrain.VoxelTerrain.SendDataLoadRequests | terrain/fixed_lod/voxel_terrain.h:305 | updates the fields as Paging.SendDataLoadRequests does |
| Paging.ProcessQuickReloads | terrain/fixed_lod/voxel_terrain.h:406-411 | the quick reloads are replayed as load responses and the list is emptied, keeping the invariant |
| Terrain.VoxelTerrain.ProcessQuickReloads | terrain/fixed_lod/voxel_terrain.h:406-411 | the loop replaying the quick reloads computes Paging.ProcessQuickReloads |
| Guarantees.CacheKeptUntilSaved | terrain/fixed_lod/voxel_terrain.h:402-405 | a cached block stays in the cache through every step except the completion of the save of that very buffer, and only a newer unload of the same block replaces the buffer |
| Guarantees.RunLoadsKeepCache | terrain/fixed_lod/voxel_terrain.h:402-405 | replaying load responses never changes the cache or the pending-load list |
| Guarantees.QuickReloadKeepsCache | terrain/fixed_lod/voxel_terrain.h:402-411 | quick reloads serve from the cache and leave it in place |
| Guarantees.CacheCheckedFirst | terrain/fixed_lod/voxel_terrain.h:402-411 | a pending block the cache holds is queued as a quick reload of the cached voxels and gets no stream job; a pending block it does not hold gets a stream job of the current epoch; every new quick reload comes from the cache |
| Guarantees.LoadResponseDelivers | terrain/fixed_lod/voxel_terrain.h:402-411 | while the cache holds v for the block, any one response keeps the block loading or resident with v; a current-epoch quick reload of v makes it resident with v |
| Guarantees.ReplayKeeps | terrain/fixed_lod/voxel_terrain.h:402-411 | while the cache holds v for the block, replaying any load responses keeps it loading or resident with v, and a block holding v keeps it |
| Guarantees.ReplayDelivers | terrain/fixed_lod/voxel_terrain.h:406-411 | when one of those responses is a current-epoch quick reload of v, the block ends resident with v |
| Guarantees.OutdatedQuickReloadDropped | terrain/fixed_lod/voxel_terrain.h:402-411 | a quick reload of voxels other than the ones the cache now holds for the block is dropped |
| Guarantees.InFlightDropped | terrain/fixed_lod/voxel_terrain.h:402-404 | while the cache holds a loading block, any number of stream or generator responses leave it loading and leave the cache and the pending list as they were |
| Guarantees.StreamDroppedUntilSaved | terrain/fixed_lod/voxel_terrain.h:402-404 | until a save of the block completes, the cache keeps the block and a stream copy of it is dropped whenever it arrives, whatever steps happen in between |
| Guarantees.CachedPendingServed | terrain/fixed_lod/voxel_terrain.h:402-411 | a pending block the cache holds, loading or already holding the cached voxels, is served from memory: the send issues no stream job for it, and if only load responses arrive until the quick reloads run (no save completion or other step), it ends resident with the cached voxels, whatever older quick reloads were still queued |
| Guarantees.LeaveAndReenter | terrain/fixed_lod/voxel_terrain.h:400-405 | when the last viewer of an edited block leaves and a viewer comes back, the block is cached with the edited voxels, loading and pending, and the jobs and quick reloads already queued are unchanged |
| Guarantees.ComeBackBeforeSave | terrain/fixed_lod/voxel_terrain.h:402-411 | leaving an area and returning before the save completes brings the block back with the edited voxels, from memory and not from the stream, provided only load responses arrive until the quick reloads run (before and after the next send) and in particular no save completes meanwhile; stream copies and older quick reloads among them are dropped |
| Guarantees.EnterThenLeave | terrain/fixed_lod/voxel_terrain.h:385-395 | entering a fresh block and leaving it before it loads leaves the maps as they were, and the eventual response is dropped |
| Paging.ConsumeSaveRequests | terrain/fixed_lod/voxel_terrain.h:399-401 | every queued save becomes a save job, and the list of blocks to save is emptied |
| Terrain.VoxelTerrain.ConsumeBlockDataSaveRequests | terrain/fixed_lod/voxel_terrain.h:306-310 | the loop over the blocks to save computes ConsumeSaveRequests |
| Paging.ScheduleMeshUpdate | terrain/fixed_lod/voxel_terrain.h:396-398 | a mesh block is added once to the pending-update list |
| Terrain.VoxelTerrain.ScheduleMeshUpdate | terrain/fixed_lod/voxel_terrain.h:396-398 | updates the fields as Paging.ScheduleMeshUpdate does |
| Paging.MeshRequests | terrain/fixed_lod/voxel_terrain.h:415-418 | one mesh job per pending update, tagged with the current meshing epoch |
| Paging.ProcessMeshing | terrain/fixed_lod/voxel_terrain.h:279 | process_meshing appends one mesh job per pending update, tagged with the current meshing epoch, empties the list and changes nothing else |
| Terrain.VoxelTerrain.ProcessMeshing | terrain/fixed_lod/voxel_terrain.h:279 | the loop over the pending updates issues the same mesh jobs as Paging.ProcessMeshing and empties the list |
| Paging.ApplyMeshUpdate | terrain/fixed_lod/voxel_terrain.h:415-418 | a mesh result of the current epoch replaces its block's mesh; a stale one changes nothing |
| Terrain.VoxelTerrain.ApplyMeshUpdate | terrain/fixed_lod/voxel_terrain.h:280 | updates the fields as Paging.ApplyMeshUpdate does |
| Paging.InvalidateStreaming | terrain/fixed_lod/voxel_terrain.h:417 | invalidating the streaming dependency moves to a new, strictly later epoch and changes nothing else |
| Paging.InvalidateMeshing | terrain/fixed_lod/voxel_terrain.h:418 | invalidating the meshing dependency moves to a new, strictly later epoch and changes nothing else |
| Terrain.VoxelTerrain.InvalidateStreamingDependency | terrain/fixed_lod/voxel_terrain.h:415-417 | updates the fields as InvalidateStreaming does |
| Terrain.VoxelTerrain.InvalidateMeshingDependency | terrain/fixed_lod/voxel_terrain.h:415-418 | updates the fields as InvalidateMeshing does |
| Guarantees.StaleLoadDropped | terrain/fixed_lod/voxel_terrain.h:415-418 | after the streaming dependency is invalidated, the response of any job submitted before it is dropped, whatever per-block steps (`Step` operations) happen in between |
| Guarantees.StaleMeshDropped | terrain/fixed_lod/voxel_terrain.h:415-418 | after the meshing dependency is invalidated, the result of any mesh job submitted before it is dropped |
| Guarantees.FreshLoadApplied | terrain/fixed_lod/voxel_terrain.h:415-418 | a job submitted after an invalidation carries the new epoch, and its response is applied |
| Paging.Step | terrain/fixed_lod/voxel_terrain.h:385-405 | one per-block operation (entry, exit, load response, save completion, edit, try_set_block_data, generate_block_async) keeps the invariant and leaves the viewers, the epochs, the jobs, the quick reloads and the meshes as they were |
| Paging.Run | terrain/fixed_lod/voxel_terrain.h:393-401 | replaying operations in list order keeps the invariant and the same context |
| Commutation.EquivValid | terrain/fixed_lod/voxel_terrain.h:393-401 | the invariant survives reordering the lists |
| Commutation.StepLocal | terrain/fixed_lod/voxel_terrain.h:385-405 | each per-block step reads and writes only its own block's slot of the maps and only appends to the lists |
| Commutation.StepsCommute | terrain/fixed_lod/voxel_terrain.h:393-401 | two steps on different blocks give equivalent states in either order |
| Commutation.RunCongruent | terrain/fixed_lod/voxel_terrain.h:393-401 | replaying the same steps from equivalent states gives equivalent states |
| Commutation.RunPermutation | terrain/fixed_lod/voxel_terrain.h:393-401 | any permutation of pairwise independent steps gives an equivalent state |
| Commutation.DistinctSwappable | terrain/fixed_lod/voxel_terrain.h:393-395 | steps on pairwise distinct blocks are pairwise independent |
| Commutation.DiffPositions | terrain/fixed_lod/voxel_terrain.h:272-277 | a data-box change visits the leaving blocks and then, when loading is allowed, the entering blocks |
| Commutation.DiffOrderIrrelevant | terrain/fixed_lod/voxel_terrain.h:393-395 | visiting the steps of a data-box change in any order, exits and entries interleaved, gives an equivalent state |
| Commutation.QuickReloadsCompatible | terrain/fixed_lod/voxel_terrain.h:402-411 | quick reloads queued from one cache agree on the voxels of each block |
| Commutation.QuickReloadOrderIrrelevant | terrain/fixed_lod/voxel_terrain.h:406-411 | replaying compatible quick reloads gives equivalent states whatever their order |
| Commutation.SendCongruent | terrain/fixed_lod/voxel_terrain.h:393-395 | send_data_load_requests gives the same jobs and quick reloads, as multisets, whatever the order of the pending-load list |
| Commutation.ConsumeSaveCongruent | terrain/fixed_lod/voxel_terrain.h:399-401 | the save jobs do not depend on the order of the list of blocks to save |
| Commutation.MeshingCongruent | terrain/fixed_lod/voxel_terrain.h:396-398 | the mesh jobs do not depend on the order of the pending-update list |
| Lists.MapSeqPermutation | terrain/fixed_lod/voxel_terrain.h:393-401 | mapping over a permuted list gives a permuted result |
| Lists.FlatMapPermutation | terrain/fixed_lod/voxel_terrain.h:393-401 | flat-mapping over a permuted list gives a permuted result |
| Terrain.VoxelTerrain.constructor | terrain/fixed_lod/voxel_terrain.h:356-418 | a new terrain has no viewers, blocks, lists, cache or jobs, and starts at epoch 0 |

## Left out

- Light data and its file I/O are not part of the paging. They are files and side data.
- The stream, the generator and the mesher are not modelled. Their code is not part of this model. A load job's response is a parameter (`LoadOutput`), and a mesh is an opaque value.
- Threading and the task scheduler are not modelled: `BufferedTaskScheduler`, `AsyncDependencyTracker` and the save completion tracker. Submitting a job appends it to a list, and a job's completion is an operation called with its result. Concurrency is out of scope.
- Collision, material, render-layer and GI settings are left out. So are debug drawing, multiplayer RPC and the synchronizer, the Godot bindings and `Stats`, because none of them touches the paging. Notifications to listeners survive only as records appended to an event list.
- The data box is an input to `ProcessViewers`. Computing it from a viewer's position, view distance and the volume bounds is not modelled, because it is floating point and engine geometry.
- `Terrain.VoxelTerrain.VoxelToDataBlock`: `_b_voxel_to_data_block` takes a floating-point position. The model takes an integer voxel coordinate, because float-to-int conversion is not modelled.
- Block and voxel coordinates are unbounded integers. The 32-bit overflow of `Vector3i` is not modelled.
- `Blocks.BlockSize` requires `pow2 < 32`. The literal `1` in the getters is a signed `int`: for pow2 up to 30 the shift is 2^pow2; at 31 the value 2^31 does not fit in `int`. C++11 as first published left that undefined. From C++14 on, the value is converted to `int`, which is implementation-defined until C++20 and INT_MIN from C++20 on (and on two's-complement targets before it). The `unsigned int` return type reads INT_MIN as 2^31, which is what the model gives. At 32 or more the shift is undefined, so there is nothing to model there.
- `set_mesh_block_size` is left out. Changing the mesh block size rebuilds the mesh map, which is not modelled.
- The mesh block lifecycle is reduced to the pending-update list, mesh jobs and a map of built meshes. This covers `view_mesh_block`, `unview_mesh_block`, `unload_mesh_block`, the neighbour checks before meshing and `is_area_meshed`. `Paging.ScheduleMeshUpdate` therefore queues any block, with no gating.
- `save_all_modified_blocks` is left out. It depends on the voxel data store's own save path, which is not part of this model.
- Load failures and error responses are not modelled: every response carries voxels.
- Voxel buffers are values (`Buffer` is a sequence), not the `shared_ptr<VoxelBuffer>` that the resident block, the cache, the quick reloads and the save list share. So `Paging.ApplySaveDone` compares the saved buffer with the cached one by value rather than by object identity, and an edit of a block after its quick reload replaces its buffer instead of writing through to the buffer object the cache still shares.
- `restart_stream` (line 192), `_on_stream_params_changed` (line 283) and `reset_map` (line 290) are not modelled: they rebuild the maps and re-request the blocks in range. `Paging.InvalidateStreaming` alone only moves to a new epoch, so a loading entry whose job it invalidated stays loading and is not queued again until its viewers leave and re-enter.
- Events cover only the data-block notifications: loaded, entered, unloaded. The area-edited callback (lines 333-334) and the mesh block enter and exit notifications are not modelled.
- `Paging.EditBlock` replaces a whole resident block's buffer at a block position. `post_edit_voxel` and the voxel tool edit single voxels or areas in voxel coordinates; mapping those edits onto blocks is not modelled.
- The order of phases inside `process()` is not fixed by the model. Each phase is its own operation.
- `Paging.TrySetBlockData` counts every paired viewer, not only local ones, because the model does not separate local viewers from remote ones.
- The three maps (resident blocks, loading table, cache) are not claimed to be disjoint. The header keeps a cache entry "until saving completes" (lines 402-404), so it stays even while the same block is loading or resident again; only resident vs. loading is disjoint. Entering a block does not consult the cache at once: the cache is checked when the pending loads are sent, as the header's "checked first before loading new blocks" places it.
- Modelling assumption: the refcount rules. Entering adds one viewer, and leaving removes one. An entry whose refcount reaches zero is removed. A resident block is unloaded, and a loading entry is dropped, which cancels its response.
- Modelling assumption: a position may remain in the pending-load list after its loading entry was dropped. This stale entry still produces a job, and that job's response is then dropped.
- Modelling assumption: `try_set_block_data` sets the block's refcount to the number of viewers in range and marks it unedited.
- Modelling assumption: replaying a quick reload leaves its cache entry in place.
- Modelling assumption: while the unloaded-saving cache holds a block, a response for it is applied only when it is a quick reload (`LoadOutput.fromCache`) of the voxels the cache holds. A stream or generator response is dropped, because the cache holds a newer copy than the stream (lines 402-404). A quick reload queued from an earlier cache entry is dropped too: the header replays quick reloads on the next process call, before the block can be cached again, but the model does not fix that phase order. `Guarantees.StreamDroppedUntilSaved`, `Guarantees.OutdatedQuickReloadDropped` and `Guarantees.ComeBackBeforeSave` rest on this rule.
- `Guarantees.ComeBackBeforeSave` does not cover a save that completes before the quick reloads run. Jobs are not ordered against saves or tagged with the loading entry they serve: once the save completes the cache entry is gone, and a stream job of the current epoch issued before the edit (while an earlier loading entry of the block existed) is accepted. If it answers with the voxels from before the edit ahead of the quick reload, the block comes back with those voxels and the quick reload is then dropped, because the block is no longer loading. The header does not say how the program orders these, and its `.cpp` is not part of this model.
- Modelling assumption: a completed save removes the cache entry only when the entry still holds the saved buffer.
- Modelling assumption: `generate_block_async` does nothing for a block that is resident, that is already loading, or that no viewer is in range of.
- Modelling assumption: pairing a viewer diffs its data box against an empty box, and unpairing diffs it to an empty box.
- Modelling assumption: a data-box change runs its exits before its entries. `Commutation.DiffOrderIrrelevant` shows that any other order gives an equivalent state.
- `Refcounts.UpdateViewerCounted`: the refcounts equal the viewer counts only while loading is allowed. A viewer that moves while loading is off releases the blocks it leaves and requests none, so a block in range can have fewer holders than viewers. The weaker bound `Refcounts.Bounded` (no refcount above the viewer count) is proved for every value of the flag, by `Refcounts.UpdateViewerBounded`, `Refcounts.ProcessViewersBounded` and `Refcounts.PairViewerBounded`.
- `Refcounts.ProcessViewersCounted`: proved only while loading is allowed, for the same reason; `Refcounts.ProcessViewersBounded` covers every value of the flag.
- `Refcounts.PairViewerCounted`: proved only while loading is allowed, for the same reason; `Refcounts.PairViewerBounded` covers every value of the flag.
