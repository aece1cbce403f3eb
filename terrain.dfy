/** VoxelTerrain: the fields the data paging updates in place and the
    methods that update them. Every method is specified by the function of
    Paging for the same operation, so everything proved about those
    functions holds of the object. */
module Terrain {
  import opened Blocks
  import opened Lists
  import opened Paging
  import opened Commutation

  class VoxelTerrain {
    var pairedViewers: seq<PairedViewer>
    var dataBlocks: map<Vec3, DataBlock>
    var loadingBlocks: map<Vec3, LoadingBlock>
    var blocksPendingLoad: seq<Vec3>
    var blocksPendingUpdate: seq<Vec3>
    var blocksToSave: seq<BlockToSave>
    var unloadedSavingBlocks: map<Vec3, Buffer>
    var quickReloadingBlocks: seq<QuickReloadingBlock>
    /** Stand-ins for the streaming and meshing dependency objects: a job
        carries the epoch it was created under, and invalidating a
        dependency moves to the next epoch. */
    var streamingEpoch: nat
    var meshingEpoch: nat
    /** Jobs handed to the task scheduler. */
    var loadTasks: seq<LoadTask>
    var saveTasks: seq<BlockToSave>
    var meshTasks: seq<MeshTask>
    var meshes: map<Vec3, Mesh>
    var events: seq<Event>
    const dataBlockSizePow2: nat
    const meshBlockSizePow2: nat

    function State(): PagingState
      reads this
    {
      PagingState(pairedViewers, dataBlocks, loadingBlocks, blocksPendingLoad, blocksPendingUpdate,
                  blocksToSave, unloadedSavingBlocks, quickReloadingBlocks, streamingEpoch, meshingEpoch,
                  loadTasks, saveTasks, meshTasks, meshes, events)
    }

    predicate Valid()
      reads this
    {
      Paging.Valid(State()) && dataBlockSizePow2 < 32 && meshBlockSizePow2 < 32
    }

    constructor(dataPow2: nat, meshPow2: nat)
      requires dataPow2 < 32 && meshPow2 < 32
      ensures Valid() && State() == Initial()
      ensures dataBlockSizePow2 == dataPow2 && meshBlockSizePow2 == meshPow2
    {
      pairedViewers, dataBlocks, loadingBlocks := [], map[], map[];
      blocksPendingLoad, blocksPendingUpdate, blocksToSave := [], [], [];
      unloadedSavingBlocks, quickReloadingBlocks := map[], [];
      streamingEpoch, meshingEpoch := 0, 0;
      loadTasks, saveTasks, meshTasks := [], [], [];
      meshes, events := map[], [];
      dataBlockSizePow2, meshBlockSizePow2 := dataPow2, meshPow2;
    }

    /** get_data_block_size: the edge of a data block, in voxels. */
    function DataBlockSize(): (size: nat)
      requires dataBlockSizePow2 < 32
      ensures size == Pow2(dataBlockSizePow2) && IsPowerOfTwo(size) && size >= 1
    {
      BlockSizeIsPowerOfTwo(dataBlockSizePow2);
      BlockSize(dataBlockSizePow2)
    }

    /** get_mesh_block_size: the edge of a mesh block, in voxels. */
    function MeshBlockSize(): (size: nat)
      requires meshBlockSizePow2 < 32
      ensures size == Pow2(meshBlockSizePow2) && IsPowerOfTwo(size) && size >= 1
    {
      BlockSizeIsPowerOfTwo(meshBlockSizePow2);
      BlockSize(meshBlockSizePow2)
    }

    /** The data block holding voxel v. */
    function VoxelToDataBlock(v: Vec3): (b: Vec3)
      requires dataBlockSizePow2 < 32
      ensures var size := BlockSize(dataBlockSizePow2);
        Box(BlockToVoxel(b, dataBlockSizePow2), Vec3(size, size, size)).Contains(v)
    {
      BlockContainment(v, VoxelToBlock(v, dataBlockSizePow2), dataBlockSizePow2);
      VoxelToBlock(v, dataBlockSizePow2)
    }

    /** The first voxel of data block b: its minimum corner, which lies in b
        again. */
    function DataBlockToVoxel(b: Vec3): (v: Vec3)
      requires dataBlockSizePow2 < 32
      ensures var size := BlockSize(dataBlockSizePow2);
        v == Vec3(b.x * size, b.y * size, b.z * size)
      ensures VoxelToBlock(v, dataBlockSizePow2) == b
    {
      BlockRoundTrip(b, dataBlockSizePow2);
      BlockToVoxel(b, dataBlockSizePow2)
    }

    /** has_data_block */
    predicate HasDataBlock(pos: Vec3)
      reads this
      ensures HasDataBlock(pos) == Paging.HasDataBlock(State(), pos)
      ensures Valid() && HasDataBlock(pos) ==> pos !in loadingBlocks
    {
      pos in dataBlocks
    }

    /** The number of paired viewers whose data box contains pos. */
    method CountViewersInRange(pos: Vec3) returns (n: nat)
      ensures n == ViewersInRange(pairedViewers, pos)
    {
      n := 0;
      var i := 0;
      while i < |pairedViewers|
        invariant 0 <= i <= |pairedViewers|
        invariant n == ViewersInRange(pairedViewers[..i], pos)
      {
        assert pairedViewers[..i + 1][..i] == pairedViewers[..i];
        if pairedViewers[i].state.dataBox.Contains(pos) {
          n := n + 1;
        }
        i := i + 1;
      }
      assert pairedViewers[..i] == pairedViewers;
    }

    /** A viewer's data box starts covering pos. */
    method ViewDataBlock(pos: Vec3, viewer: ViewerId, notify: bool)
      requires Valid()
      modifies this
      ensures Valid() && State() == EnterBlock(old(State()), pos, viewer, notify)
    {
      if pos in dataBlocks {
        JoinResident(pos, viewer, notify);
      } else if pos in loadingBlocks {
        JoinLoading(pos, viewer, notify);
      } else {
        StartLoading(pos, viewer, notify);
      }
    }

    /** A resident block gains a viewer, who is told at once. */
    method JoinResident(pos: Vec3, viewer: ViewerId, notify: bool)
      requires Valid() && pos in dataBlocks
      modifies this`dataBlocks, this`events
      ensures Valid() && State() == EnterBlock(old(State()), pos, viewer, notify)
    {
      var b := dataBlocks[pos];
      dataBlocks := dataBlocks[pos := b.(viewers := b.viewers + 1)];
      if notify {
        events := events + [DataBlockEntered(pos, viewer)];
        assert [DataBlockEntered(pos, viewer)] == EnteredEvents(pos, NotifyList(notify, viewer));
      } else {
        assert events == events + EnteredEvents(pos, NotifyList(notify, viewer));
      }
    }

    /** A loading entry gains a viewer, to be told when the block arrives. */
    method JoinLoading(pos: Vec3, viewer: ViewerId, notify: bool)
      requires Valid() && pos !in dataBlocks && pos in loadingBlocks
      modifies this`loadingBlocks
      ensures Valid() && State() == EnterBlock(old(State()), pos, viewer, notify)
    {
      var lb := loadingBlocks[pos];
      var toNotify := lb.viewersToNotify;
      if notify {
        toNotify := toNotify + [viewer];
      } else {
        assert toNotify == toNotify + [];
      }
      loadingBlocks := loadingBlocks[pos := LoadingBlock(lb.viewers + 1, toNotify)];
    }

    /** A block nobody holds gets a loading entry with one viewer and is
        queued for loading. */
    method StartLoading(pos: Vec3, viewer: ViewerId, notify: bool)
      requires Valid() && pos !in dataBlocks && pos !in loadingBlocks
      modifies this`loadingBlocks, this`blocksPendingLoad
      ensures Valid() && State() == EnterBlock(old(State()), pos, viewer, notify)
    {
      loadingBlocks := loadingBlocks[pos := LoadingBlock(1, if notify then [viewer] else [])];
      blocksPendingLoad := blocksPendingLoad + [pos];
    }

    /** The last viewer of resident block pos left. */
    method UnloadDataBlock(pos: Vec3)
      requires Valid() && pos in dataBlocks
      modifies this
      ensures Valid() && State() == UnloadBlock(old(State()), pos)
    {
      var b := dataBlocks[pos];
      dataBlocks := dataBlocks - {pos};
      events := events + [DataBlockUnloaded(pos)];
      if b.modified {
        blocksToSave := blocksToSave + [BlockToSave(b.voxels, pos)];
        unloadedSavingBlocks := unloadedSavingBlocks[pos := b.voxels];
      }
    }

    /** A viewer's data box stops covering pos. */
    method UnviewDataBlock(pos: Vec3)
      requires Valid()
      modifies this
      ensures Valid() && State() == LeaveBlock(old(State()), pos)
    {
      if pos in dataBlocks {
        var b := dataBlocks[pos];
        if b.viewers > 1 {
          dataBlocks := dataBlocks[pos := b.(viewers := b.viewers - 1)];
        } else {
          UnloadDataBlock(pos);
        }
      } else if pos in loadingBlocks {
        var lb := loadingBlocks[pos];
        if lb.viewers > 1 {
          loadingBlocks := loadingBlocks[pos := lb.(viewers := lb.viewers - 1)];
        } else {
          loadingBlocks := loadingBlocks - {pos};
        }
      }
    }

    /** The viewer leaves each of the blocks cells, in order. */
    method UnviewDataBlocks(cells: seq<Vec3>)
      requires Valid()
      modifies this
      ensures Valid() && State() == Run(old(State()), ExitOps(cells))
    {
      ghost var s0 := State();
      var i := 0;
      while i < |cells|
        invariant 0 <= i <= |cells|
        invariant Valid() && State() == Run(s0, ExitOps(cells[..i]))
      {
        ExitOpsSnoc(cells, i);
        RunSnoc(s0, ExitOps(cells[..i]), Exit(cells[i]));
        UnviewDataBlock(cells[i]);
        i := i + 1;
      }
      assert cells[..i] == cells;
    }

    /** The viewer enters each of the blocks cells, in order. */
    method ViewDataBlocks(cells: seq<Vec3>, viewer: ViewerId, notify: bool)
      requires Valid()
      modifies this
      ensures Valid() && State() == Run(old(State()), EnterOps(cells, viewer, notify))
    {
      ghost var s0 := State();
      var i := 0;
      while i < |cells|
        invariant 0 <= i <= |cells|
        invariant Valid() && State() == Run(s0, EnterOps(cells[..i], viewer, notify))
      {
        EnterOpsSnoc(cells, i, viewer, notify);
        RunSnoc(s0, EnterOps(cells[..i], viewer, notify), Enter(cells[i], viewer, notify));
        ghost var u := State();
        ViewDataBlock(cells[i], viewer, notify);
        assert State() == Step(u, Enter(cells[i], viewer, notify));
        i := i + 1;
      }
      assert cells[..i] == cells;
    }

    /** process_viewer_data_box_change: leave every block of prev that next
        does not cover, then, when loading is allowed, enter every block of
        next that prev did not cover. */
    method ProcessViewerDataBoxChange(viewer: ViewerId, prev: Box, next: Box, canLoad: bool, notify: bool)
      requires Valid()
      modifies this
      ensures Valid()
      ensures State() == Paging.ProcessViewerDataBoxChange(old(State()), viewer, prev, next, canLoad, notify)
    {
      ghost var s0 := State();
      var leaving := LeavingCells(prev, next);
      UnviewDataBlocks(leaving);
      if canLoad {
        var entering := EnteringCells(prev, next);
        ViewDataBlocks(entering, viewer, notify);
        RunAppend(s0, ExitOps(leaving), EnterOps(entering, viewer, notify));
      } else {
        assert ExitOps(leaving) + [] == ExitOps(leaving);
      }
    }

    /** Viewer i moves to newState: its state becomes its previous state and
        its data-box change is processed. */
    method UpdatePairedViewer(i: nat, newState: ViewerState, canLoad: bool, notify: bool)
      requires Valid() && i < |pairedViewers|
      modifies this
      ensures Valid() && State() == UpdateViewer(old(State()), i, newState, canLoad, notify)
    {
      var v := pairedViewers[i];
      pairedViewers := pairedViewers[i := PairedViewer(v.id, newState, v.state)];
      ProcessViewerDataBoxChange(v.id, v.state.dataBox, newState.dataBox, canLoad, notify);
    }

    /** process_viewers: the paired viewers move to their new states, one
        after the other. */
    method ProcessViewers(states: seq<ViewerState>, canLoad: bool, notify: bool)
      requires Valid() && |states| <= |pairedViewers|
      modifies this
      ensures Valid() && State() == Paging.ProcessViewers(old(State()), states, canLoad, notify)
    {
      ghost var s0 := State();
      var i := 0;
      while i < |states|
        invariant 0 <= i <= |states|
        invariant Valid() && State() == Paging.ProcessViewers(s0, states[..i], canLoad, notify)
        invariant |pairedViewers| == |s0.viewers|
      {
        ghost var u := State();
        UpdatePairedViewer(i, states[i], canLoad, notify);
        ProcessViewersSnoc(s0, states, i, canLoad, notify);
        assert State() == UpdateViewer(u, i, states[i], canLoad, notify);
        i := i + 1;
      }
      assert states[..i] == states;
    }

    /** A viewer starts intersecting the volume. */
    method PairViewer(id: ViewerId, state: ViewerState, canLoad: bool, notify: bool)
      requires Valid()
      modifies this
      ensures Valid() && State() == Paging.PairViewer(old(State()), id, state, canLoad, notify)
    {
      pairedViewers := pairedViewers + [PairedViewer(id, state, ViewerState(EmptyBox(), EmptyBox()))];
      ProcessViewerDataBoxChange(id, EmptyBox(), state.dataBox, canLoad, notify);
    }

    /** Viewer i stops intersecting the volume. */
    method UnpairViewer(i: nat)
      requires Valid() && i < |pairedViewers|
      modifies this
      ensures Valid() && State() == Paging.UnpairViewer(old(State()), i)
    {
      var v := pairedViewers[i];
      pairedViewers := pairedViewers[..i] + pairedViewers[i + 1..];
      ProcessViewerDataBoxChange(v.id, v.state.dataBox, EmptyBox(), false, false);
    }

    /** apply_data_block_response */
    method ApplyDataBlockResponse(out: LoadOutput)
      requires Valid()
      modifies this
      ensures Valid() && State() == ApplyLoadResponse(old(State()), out)
    {
      var pos := out.position;
      if out.epoch != streamingEpoch || pos !in loadingBlocks ||
         (pos in unloadedSavingBlocks && !(out.fromCache && out.voxels == unloadedSavingBlocks[pos])) {
        return;
      }
      var lb := loadingBlocks[pos];
      loadingBlocks := loadingBlocks - {pos};
      dataBlocks := dataBlocks[pos := DataBlock(out.voxels, false, lb.viewers)];
      var entered: seq<Event> := [];
      var k := 0;
      while k < |lb.viewersToNotify|
        invariant 0 <= k <= |lb.viewersToNotify|
        invariant entered == EnteredEvents(pos, lb.viewersToNotify[..k])
      {
        entered := entered + [DataBlockEntered(pos, lb.viewersToNotify[k])];
        k := k + 1;
      }
      assert lb.viewersToNotify[..k] == lb.viewersToNotify;
      events := events + [DataBlockLoaded(pos)] + entered;
    }

    /** A save job for pos, of the buffer voxels, completed. */
    method ApplySaveDone(pos: Vec3, voxels: Buffer)
      requires Valid()
      modifies this
      ensures Valid() && State() == Paging.ApplySaveDone(old(State()), pos, voxels)
    {
      if pos in unloadedSavingBlocks && unloadedSavingBlocks[pos] == voxels {
        unloadedSavingBlocks := unloadedSavingBlocks - {pos};
      }
    }

    /** post_edit_voxel / post_edit_area for the data block pos. */
    method PostEdit(pos: Vec3, voxels: Buffer)
      requires Valid()
      modifies this
      ensures Valid() && State() == EditBlock(old(State()), pos, voxels)
    {
      if pos in dataBlocks {
        dataBlocks := dataBlocks[pos := dataBlocks[pos].(voxels := voxels, modified := true)];
      }
    }

    /** try_set_block_data */
    method TrySetBlockData(pos: Vec3, voxels: Buffer) returns (applied: bool)
      requires Valid()
      modifies this
      ensures Valid() && (applied, State()) == Paging.TrySetBlockData(old(State()), pos, voxels)
    {
      var n := CountViewersInRange(pos);
      if n == 0 {
        return false;
      }
      loadingBlocks := loadingBlocks - {pos};
      dataBlocks := dataBlocks[pos := DataBlock(voxels, false, n)];
      applied := true;
    }

    /** generate_block_async */
    method GenerateBlockAsync(pos: Vec3)
      requires Valid()
      modifies this
      ensures Valid() && State() == Paging.GenerateBlockAsync(old(State()), pos)
    {
      if pos in dataBlocks || pos in loadingBlocks {
        return;
      }
      var n := CountViewersInRange(pos);
      if n == 0 {
        return;
      }
      loadingBlocks := loadingBlocks[pos := LoadingBlock(n, [])];
      blocksPendingLoad := blocksPendingLoad + [pos];
    }

    /** Checks one pending position against the unloaded-saving cache: a
        hit is queued as a quick reload of the cached voxels, a miss as a
        load job under the current streaming epoch. */
    method CheckPendingLoad(pos: Vec3)
      modifies this`quickReloadingBlocks, this`loadTasks
      ensures quickReloadingBlocks == old(quickReloadingBlocks) + QuickReloadOf(unloadedSavingBlocks)(pos)
      ensures loadTasks == old(loadTasks) + LoadRequestOf(unloadedSavingBlocks, streamingEpoch)(pos)
    {
      if pos in unloadedSavingBlocks {
        quickReloadingBlocks := quickReloadingBlocks + [QuickReloadingBlock(unloadedSavingBlocks[pos], pos)];
      } else {
        loadTasks := loadTasks + [LoadTask(pos, streamingEpoch)];
      }
    }

    /** Checks every pending position, in order. */
    method CheckPendingLoads()
      modifies this`quickReloadingBlocks, this`loadTasks
      ensures quickReloadingBlocks == old(quickReloadingBlocks) + FlatMap(QuickReloadOf(unloadedSavingBlocks), blocksPendingLoad)
      ensures loadTasks == old(loadTasks) + FlatMap(LoadRequestOf(unloadedSavingBlocks, streamingEpoch), blocksPendingLoad)
    {
      var pending := blocksPendingLoad;
      var i := 0;
      while i < |pending|
        invariant 0 <= i <= |pending|
        invariant quickReloadingBlocks == old(quickReloadingBlocks) + FlatMap(QuickReloadOf(unloadedSavingBlocks), pending[..i])
        invariant loadTasks == old(loadTasks) + FlatMap(LoadRequestOf(unloadedSavingBlocks, streamingEpoch), pending[..i])
      {
        ghost var qs, ls := quickReloadingBlocks, loadTasks;
        CheckPendingLoad(pending[i]);
        SendSnoc(pending, i, unloadedSavingBlocks, streamingEpoch);
        assert quickReloadingBlocks == qs + QuickReloadOf(unloadedSavingBlocks)(pending[i]);
        assert loadTasks == ls + LoadRequestOf(unloadedSavingBlocks, streamingEpoch)(pending[i]);
        i := i + 1;
      }
      assert pending[..i] == pending;
    }

    /** send_data_load_requests */
    method SendDataLoadRequests()
      requires Valid()
      modifies this
      ensures Valid() && State() == Paging.SendDataLoadRequests(old(State()))
    {
      CheckPendingLoads();
      assert QuickReloads(blocksPendingLoad, unloadedSavingBlocks) == FlatMap(QuickReloadOf(unloadedSavingBlocks), blocksPendingLoad);
      assert LoadRequests(blocksPendingLoad, unloadedSavingBlocks, streamingEpoch) ==
             FlatMap(LoadRequestOf(unloadedSavingBlocks, streamingEpoch), blocksPendingLoad);
      blocksPendingLoad := [];
    }

    /** Replays the quick reloads as load responses of the current epoch. */
    method ProcessQuickReloads()
      requires Valid()
      modifies this
      ensures Valid() && State() == Paging.ProcessQuickReloads(old(State()))
    {
      ghost var s0 := State();
      var qs := quickReloadingBlocks;
      ghost var ops := QuickReloadOps(qs, s0.streamingEpoch);
      var i := 0;
      while i < |qs|
        invariant 0 <= i <= |qs|
        invariant Valid() && State() == Run(s0, ops[..i])
      {
        ghost var u := State();
        ApplyDataBlockResponse(LoadOutput(qs[i].position, qs[i].voxels, streamingEpoch, true));
        assert State() == ApplyLoadResponse(u, ops[i].out);
        RunLoadSnoc(s0, ops, i);
        i := i + 1;
      }
      assert ops[..i] == ops;
      quickReloadingBlocks := [];
    }

    /** consume_block_data_save_requests */
    method ConsumeBlockDataSaveRequests()
      requires Valid()
      modifies this
      ensures Valid() && State() == ConsumeSaveRequests(old(State()))
    {
      ghost var s0 := State();
      var toSave := blocksToSave;
      var i := 0;
      while i < |toSave|
        invariant 0 <= i <= |toSave|
        invariant State() == s0.(saveTasks := s0.saveTasks + s0.toSave[..i])
      {
        assert s0.toSave[..i + 1] == s0.toSave[..i] + [s0.toSave[i]];
        saveTasks := saveTasks + [toSave[i]];
        i := i + 1;
      }
      assert s0.toSave[..i] == s0.toSave;
      blocksToSave := [];
    }

    /** Queues mesh block pos for an update on the next process call. */
    method ScheduleMeshUpdate(pos: Vec3)
      requires Valid()
      modifies this
      ensures Valid() && State() == Paging.ScheduleMeshUpdate(old(State()), pos)
    {
      blocksPendingUpdate := blocksPendingUpdate + [pos];
    }

    /** process_meshing */
    method ProcessMeshing()
      requires Valid()
      modifies this
      ensures Valid() && State() == Paging.ProcessMeshing(old(State()))
    {
      ghost var s0 := State();
      var pending := blocksPendingUpdate;
      var i := 0;
      while i < |pending|
        invariant 0 <= i <= |pending|
        invariant State() == s0.(meshTasks := s0.meshTasks + MeshRequests(s0.pendingUpdate[..i], s0.meshingEpoch))
      {
        assert MeshRequests(s0.pendingUpdate[..i + 1], s0.meshingEpoch) ==
               MeshRequests(s0.pendingUpdate[..i], s0.meshingEpoch) + [MeshTask(s0.pendingUpdate[i], s0.meshingEpoch)];
        meshTasks := meshTasks + [MeshTask(pending[i], meshingEpoch)];
        i := i + 1;
      }
      assert s0.pendingUpdate[..i] == s0.pendingUpdate;
      blocksPendingUpdate := [];
    }

    /** apply_mesh_update */
    method ApplyMeshUpdate(out: MeshOutput)
      requires Valid()
      modifies this
      ensures Valid() && State() == Paging.ApplyMeshUpdate(old(State()), out)
    {
      if out.epoch == meshingEpoch {
        meshes := meshes[out.position := out.mesh];
      }
    }

    /** Invalidates the streaming dependency and creates a new one. */
    method InvalidateStreamingDependency()
      requires Valid()
      modifies this
      ensures Valid() && State() == InvalidateStreaming(old(State()))
    {
      streamingEpoch := streamingEpoch + 1;
    }

    /** Invalidates the meshing dependency and creates a new one. */
    method InvalidateMeshingDependency()
      requires Valid()
      modifies this
      ensures Valid() && State() == InvalidateMeshing(old(State()))
    {
      meshingEpoch := meshingEpoch + 1;
    }
  }

  lemma ExitOpsSnoc(cells: seq<Vec3>, i: nat)
    requires i < |cells|
    ensures ExitOps(cells[..i + 1]) == ExitOps(cells[..i]) + [Exit(cells[i])]
  {
  }

  lemma EnterOpsSnoc(cells: seq<Vec3>, i: nat, viewer: ViewerId, notify: bool)
    requires i < |cells|
    ensures EnterOps(cells[..i + 1], viewer, notify) == EnterOps(cells[..i], viewer, notify) + [Enter(cells[i], viewer, notify)]
  {
  }

  /** One more pending position, checked against the cache. */
  lemma SendSnoc(pending: seq<Vec3>, i: nat, cache: map<Vec3, Buffer>, epoch: nat)
    requires i < |pending|
    ensures FlatMap(QuickReloadOf(cache), pending[..i + 1]) ==
            FlatMap(QuickReloadOf(cache), pending[..i]) + QuickReloadOf(cache)(pending[i])
    ensures FlatMap(LoadRequestOf(cache, epoch), pending[..i + 1]) ==
            FlatMap(LoadRequestOf(cache, epoch), pending[..i]) + LoadRequestOf(cache, epoch)(pending[i])
  {
    assert pending[..i + 1][..i] == pending[..i];
  }

  lemma ProcessViewersSnoc(s: PagingState, states: seq<ViewerState>, i: nat, canLoad: bool, notify: bool)
    requires Valid(s) && i < |states| <= |s.viewers|
    ensures Paging.ProcessViewers(s, states[..i + 1], canLoad, notify) ==
            UpdateViewer(Paging.ProcessViewers(s, states[..i], canLoad, notify), i, states[i], canLoad, notify)
  {
    assert states[..i + 1][..i] == states[..i];
  }
}
