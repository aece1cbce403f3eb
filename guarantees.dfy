/** The promises the terrain makes about its paging: the unload-while-saving
    cache, cancellation of requests, and dropping of results from
    invalidated dependencies. */
module Guarantees {
  import opened Blocks
  import opened Lists
  import opened Paging
  import opened Commutation
  import opened Refcounts

  /** A block unloaded while it needed saving stays in the cache until the
      save of that very buffer completes: no other step removes it, and only
      a newer unload of the same block replaces the buffer. */
  lemma CacheKeptUntilSaved(s: PagingState, op: Op, pos: Vec3)
    requires Valid(s) && pos in s.unloadedSaving
    requires op != SaveDone(pos, s.unloadedSaving[pos])
    ensures pos in Step(s, op).unloadedSaving
    ensures Step(s, op).unloadedSaving[pos] == s.unloadedSaving[pos] ||
            (op == Exit(pos) && pos in s.loaded && s.loaded[pos].modified &&
             Step(s, op).unloadedSaving[pos] == s.loaded[pos].voxels)
  {
    match op
    case Enter(p, v, n) =>
    case Exit(p) => {
      if p in s.loaded && s.loaded[p].viewers <= 1 && s.loaded[p].modified {
        assert Step(s, op).unloadedSaving == s.unloadedSaving[p := s.loaded[p].voxels];
      }
    }
    case LoadDone(out) =>
    case SaveDone(p, voxels) => {
      if p == pos {
        assert voxels != s.unloadedSaving[pos];
      } else if p in s.unloadedSaving && s.unloadedSaving[p] == voxels {
        assert Step(s, op).unloadedSaving == s.unloadedSaving - {p};
      }
    }
    case Edit(p, voxels) =>
    case SetData(p, voxels) =>
    case Generate(p) =>
  }

  /** Load responses only: stream, generator or quick-reload responses of
      any epoch and for any block, and no other step. */
  predicate LoadResponses(ops: seq<Op>) {
    forall i :: 0 <= i < |ops| ==> ops[i].LoadDone?
  }

  /** Replaying load responses never touches the cache or the pending list. */
  lemma {:induction false} RunLoadsKeepCache(s: PagingState, ops: seq<Op>)
    requires Valid(s) && LoadResponses(ops)
    ensures Run(s, ops).unloadedSaving == s.unloadedSaving
    ensures Run(s, ops).pendingLoad == s.pendingLoad
    decreases |ops|
  {
    if ops != [] {
      RunLoadsKeepCache(s, ops[..|ops| - 1]);
    }
  }

  /** Quick reloads serve from the cache but leave it in place; the entry
      still waits for its save. */
  lemma QuickReloadKeepsCache(s: PagingState)
    requires Valid(s)
    ensures ProcessQuickReloads(s).unloadedSaving == s.unloadedSaving
  {
    RunLoadsKeepCache(s, QuickReloadOps(s.quickReloading, s.streamingEpoch));
  }

  /** send_data_load_requests checks the cache first: a pending block the
      cache holds is queued as a quick reload of the cached voxels and no
      stream job is issued for it; only a block the cache does not hold is
      loaded from the stream, under the current streaming epoch. */
  lemma CacheCheckedFirst(s: PagingState, pos: Vec3)
    ensures var t := SendDataLoadRequests(s);
      && (pos in s.pendingLoad && pos in s.unloadedSaving ==>
            QuickReloadingBlock(s.unloadedSaving[pos], pos) in t.quickReloading)
      && (pos in s.unloadedSaving ==> forall j :: |s.loadTasks| <= j < |t.loadTasks| ==> t.loadTasks[j].position != pos)
      && (pos in s.pendingLoad && pos !in s.unloadedSaving ==> LoadTask(pos, s.streamingEpoch) in t.loadTasks)
      && (forall j :: |s.quickReloading| <= j < |t.quickReloading| ==>
            var q := t.quickReloading[j];
            q.position in s.pendingLoad && q.position in s.unloadedSaving && q.voxels == s.unloadedSaving[q.position])
  {
    var t := SendDataLoadRequests(s);
    var qs := QuickReloads(s.pendingLoad, s.unloadedSaving);
    var ls := LoadRequests(s.pendingLoad, s.unloadedSaving, s.streamingEpoch);
    forall j | |s.loadTasks| <= j < |t.loadTasks| ensures t.loadTasks[j] in ls {
      assert t.loadTasks[j] == ls[j - |s.loadTasks|];
    }
    forall j | |s.quickReloading| <= j < |t.quickReloading| ensures t.quickReloading[j] in qs {
      assert t.quickReloading[j] == qs[j - |s.quickReloading|];
    }
    if pos in s.pendingLoad && pos in s.unloadedSaving {
      assert QuickReloadingBlock(s.unloadedSaving[pos], pos) in qs;
    }
    if pos in s.pendingLoad && pos !in s.unloadedSaving {
      assert LoadTask(pos, s.streamingEpoch) in ls;
    }
  }

  /** Block pos is either still waiting for its response or already holds
      the voxels v. */
  predicate LoadingOrHolds(u: PagingState, pos: Vec3, v: Buffer) {
    pos in u.loading || (pos in u.loaded && u.loaded[pos].voxels == v)
  }

  /** While the cache holds v for pos, one load response of any kind keeps
      pos loading or holding v: a stream copy, or a quick reload of other
      voxels, is dropped. A quick reload of v in the current epoch makes pos
      resident with v, and a block that holds v keeps it. */
  lemma LoadResponseDelivers(u: PagingState, out: LoadOutput, pos: Vec3, v: Buffer)
    requires Valid(u) && LoadingOrHolds(u, pos, v)
    requires pos in u.unloadedSaving && u.unloadedSaving[pos] == v
    ensures var t := ApplyLoadResponse(u, out);
      && LoadingOrHolds(t, pos, v)
      && (out == LoadOutput(pos, v, u.streamingEpoch, true) || (pos in u.loaded && u.loaded[pos].voxels == v) ==>
            pos in t.loaded && t.loaded[pos].voxels == v)
  {
  }

  /** Replaying load responses while the cache holds v for pos: pos stays
      loading or holding v, and once it holds v it keeps it. */
  lemma {:induction false} ReplayKeeps(s: PagingState, ops: seq<Op>, pos: Vec3, v: Buffer)
    requires Valid(s) && LoadingOrHolds(s, pos, v) && LoadResponses(ops)
    requires pos in s.unloadedSaving && s.unloadedSaving[pos] == v
    ensures LoadingOrHolds(Run(s, ops), pos, v)
    ensures pos in s.loaded && s.loaded[pos].voxels == v ==>
              pos in Run(s, ops).loaded && Run(s, ops).loaded[pos].voxels == v
    decreases |ops|
  {
    if ops != [] {
      var k := |ops| - 1;
      assert forall i :: 0 <= i < k ==> ops[..k][i] == ops[i];
      ReplayKeeps(s, ops[..k], pos, v);
      RunLoadsKeepCache(s, ops[..k]);
      assert ops[..k + 1] == ops;
      RunLoadSnoc(s, ops, k);
      LoadResponseDelivers(Run(s, ops[..k]), ops[k].out, pos, v);
    }
  }

  /** ... and when the k-th of them is a quick reload of v in the current
      epoch, pos ends resident with v. */
  lemma {:induction false} ReplayDelivers(s: PagingState, ops: seq<Op>, pos: Vec3, v: Buffer, k: nat)
    requires Valid(s) && LoadingOrHolds(s, pos, v) && LoadResponses(ops)
    requires pos in s.unloadedSaving && s.unloadedSaving[pos] == v
    requires k < |ops| && ops[k] == LoadDone(LoadOutput(pos, v, s.streamingEpoch, true))
    ensures pos in Run(s, ops).loaded && Run(s, ops).loaded[pos].voxels == v
    decreases |ops|
  {
    var n := |ops| - 1;
    assert forall i :: 0 <= i < n ==> ops[..n][i] == ops[i];
    if k == n {
      ReplayKeeps(s, ops[..n], pos, v);
    } else {
      ReplayDelivers(s, ops[..n], pos, v, k);
    }
    RunLoadsKeepCache(s, ops[..n]);
    assert ops[..n + 1] == ops;
    RunLoadSnoc(s, ops, n);
    LoadResponseDelivers(Run(s, ops[..n]), ops[n].out, pos, v);
  }

  /** A quick reload queued from an earlier cache entry of pos, whose
      voxels the cache no longer holds, is dropped: it cannot overwrite the
      newer unsaved copy that the cache holds now. */
  lemma OutdatedQuickReloadDropped(s: PagingState, q: QuickReloadingBlock, epoch: nat)
    requires q.position in s.unloadedSaving && q.voxels != s.unloadedSaving[q.position]
    ensures ApplyLoadResponse(s, LoadOutput(q.position, q.voxels, epoch, true)) == s
  {
  }

  /** Responses of stream or generator jobs only, of any epoch and for any
      block: what may arrive from jobs still in flight. */
  predicate StreamResponses(ops: seq<Op>) {
    forall i :: 0 <= i < |ops| ==> ops[i].LoadDone? && !ops[i].out.fromCache
  }

  /** While the cache holds pos, stream responses never make it resident:
      pos stays loading, and the cache and the pending list are untouched. */
  lemma {:induction false} InFlightDropped(u: PagingState, ops: seq<Op>, pos: Vec3)
    requires Valid(u) && pos in u.loading && pos in u.unloadedSaving && StreamResponses(ops)
    ensures var w := Run(u, ops);
      pos in w.loading && w.unloadedSaving == u.unloadedSaving && w.pendingLoad == u.pendingLoad
    decreases |ops|
  {
    if ops != [] {
      var k := |ops| - 1;
      assert forall i :: 0 <= i < k ==> ops[..k][i] == ops[i];
      InFlightDropped(u, ops[..k], pos);
      assert ops[..k + 1] == ops;
      RunLoadSnoc(u, ops, k);
    }
  }

  /** A stream or generator response for a block the cache holds is dropped. */
  lemma StreamDropped(w: PagingState, out: LoadOutput)
    requires out.position in w.unloadedSaving && !out.fromCache
    ensures ApplyLoadResponse(w, out) == w
  {
  }

  /** Until some save of pos completes, the cache keeps pos, so a stream
      copy of pos, outdated by the unsaved one, is dropped whenever it
      arrives, whatever steps happen in between. */
  lemma {:induction false} StreamDroppedUntilSaved(s: PagingState, ops: seq<Op>, out: LoadOutput)
    requires Valid(s) && out.position in s.unloadedSaving && !out.fromCache
    requires forall i :: 0 <= i < |ops| && ops[i].SaveDone? ==> ops[i].pos != out.position
    ensures var w := Run(s, ops);
      out.position in w.unloadedSaving && ApplyLoadResponse(w, out) == w
    decreases |ops|
  {
    if ops != [] {
      var k := |ops| - 1;
      assert forall i :: 0 <= i < k ==> ops[..k][i] == ops[i];
      StreamDroppedUntilSaved(s, ops[..k], out);
      var w := Run(s, ops[..k]);
      CacheKeptUntilSaved(w, ops[k], out.position);
      assert Run(s, ops) == Step(w, ops[k]);
      StreamDropped(Step(w, ops[k]), out);
    }
  }

  /** A pending block that the cache holds, loading or already holding the
      cached voxels: the next send queues no stream job for it, and once the
      quick reloads run, whatever load responses arrived in between and
      whatever older quick reloads were still queued, it is resident with the
      cached voxels. */
  lemma CachedPendingServed(s: PagingState, pos: Vec3, late: seq<Op>)
    requires Valid(s) && pos in s.pendingLoad && pos in s.unloadedSaving
    requires LoadingOrHolds(s, pos, s.unloadedSaving[pos]) && LoadResponses(late)
    ensures var t := Run(SendDataLoadRequests(s), late);
      && t.unloadedSaving == s.unloadedSaving
      && (forall j :: |s.loadTasks| <= j < |t.loadTasks| ==> t.loadTasks[j].position != pos)
      && pos in ProcessQuickReloads(t).loaded
      && ProcessQuickReloads(t).loaded[pos].voxels == s.unloadedSaving[pos]
  {
    var cached := s.unloadedSaving[pos];
    var t0 := SendDataLoadRequests(s);
    CacheCheckedFirst(s, pos);
    ReplayKeeps(t0, late, pos, cached);
    RunLoadsKeepCache(t0, late);
    var t := Run(t0, late);
    assert t.quickReloading == t0.quickReloading && t.loadTasks == t0.loadTasks;
    var ops := QuickReloadOps(t.quickReloading, t.streamingEpoch);
    var k :| 0 <= k < |t.quickReloading| && t.quickReloading[k] == QuickReloadingBlock(cached, pos);
    assert ops[k] == LoadDone(LoadOutput(pos, cached, t.streamingEpoch, true));
    ReplayDelivers(t, ops, pos, cached, k);
  }

  /** The last viewer of an edited block leaves, then a viewer enters it
      again: the block is in the cache with the edited voxels, loading and
      pending, and its old jobs and quick reloads are as they were. */
  lemma LeaveAndReenter(s: PagingState, pos: Vec3, viewer: ViewerId, notify: bool)
    requires Valid(s)
    requires pos in s.loaded && s.loaded[pos].modified && s.loaded[pos].viewers == 1
    ensures var u := EnterBlock(LeaveBlock(s, pos), pos, viewer, notify);
      && Valid(u) && u.quickReloading == s.quickReloading && u.loadTasks == s.loadTasks
      && pos in u.loading && pos in u.pendingLoad
      && pos in u.unloadedSaving && u.unloadedSaving[pos] == s.loaded[pos].voxels
  {
  }

  /** Leaving an area and coming back before the save completes: the block
      an edit left unsaved is unloaded into the cache and re-entered. Until
      the quick reloads run, only load responses arrive, before and after
      the next send: stream copies, which are outdated, and quick reloads
      queued earlier, of older voxels. They are dropped. The block is served
      from the cache instead of the stream and comes back resident with the
      edited voxels. */
  lemma ComeBackBeforeSave(s: PagingState, pos: Vec3, viewer: ViewerId, notify: bool, early: seq<Op>, late: seq<Op>)
    requires Valid(s)
    requires pos in s.loaded && s.loaded[pos].modified && s.loaded[pos].viewers == 1
    requires LoadResponses(early) && LoadResponses(late)
    ensures var u := Run(EnterBlock(LeaveBlock(s, pos), pos, viewer, notify), early);
      var t := Run(SendDataLoadRequests(u), late);
      && pos in t.unloadedSaving
      && (forall j :: |s.loadTasks| <= j < |t.loadTasks| ==> t.loadTasks[j].position != pos)
      && pos in ProcessQuickReloads(t).loaded
      && ProcessQuickReloads(t).loaded[pos].voxels == s.loaded[pos].voxels
  {
    LeaveAndReenter(s, pos, viewer, notify);
    var r := EnterBlock(LeaveBlock(s, pos), pos, viewer, notify);
    ReplayKeeps(r, early, pos, s.loaded[pos].voxels);
    RunLoadsKeepCache(r, early);
    CachedPendingServed(Run(r, early), pos, late);
  }

  /** A response for a block that is already resident is dropped: nothing
      a stream or generator returns overrides an existing block. */
  lemma ExistingBlockKept(s: PagingState, out: LoadOutput)
    requires Valid(s) && out.position in s.loaded
    ensures ApplyLoadResponse(s, out) == s
  {
    assert out.position !in s.loading;
  }

  /** Once try_set_block_data has applied, a stream or generator response
      for the same block arriving afterwards is dropped. */
  lemma SetBlockWinsOverPendingLoad(s: PagingState, pos: Vec3, voxels: Buffer, response: Buffer, epoch: nat, fromCache: bool)
    requires Valid(s)
    requires TrySetBlockData(s, pos, voxels).0
    ensures var t := TrySetBlockData(s, pos, voxels).1;
      ApplyLoadResponse(t, LoadOutput(pos, response, epoch, fromCache)) == t && t.loaded[pos].voxels == voxels
  {
    ExistingBlockKept(TrySetBlockData(s, pos, voxels).1, LoadOutput(pos, response, epoch, fromCache));
  }

  /** generate_block_async is cancelled when the block exists once the
      generated voxels arrive, and when no viewer is in range of the block
      any more at that point. */
  lemma GenerateCancelled(s: PagingState, pos: Vec3, out: LoadOutput)
    requires Valid(s) && Bounded(s) && out.position == pos
    requires pos in s.loaded || forall v :: v in s.viewers ==> !v.state.dataBox.Contains(pos)
    ensures ApplyLoadResponse(s, out) == s
  {
    if pos !in s.loaded && pos in s.loading {
      HeldIsWanted(s, pos);
    }
  }

  /** generate_block_async has work to do: with loading off, pairing a
      viewer requests none of the blocks in its data box, and a later
      generate_block_async for one of them starts loading it, keeping the
      bound that GenerateCancelled relies on. */
  lemma GenerateAfterPairingWithoutLoading(s: PagingState, id: ViewerId, state: ViewerState, pos: Vec3, notify: bool)
    requires Valid(s) && Bounded(s) && pos !in s.loaded && pos !in s.loading && state.dataBox.Contains(pos)
    ensures var u := PairViewer(s, id, state, false, notify);
      && Bounded(u) && pos !in u.loaded && pos !in u.loading
      && pos in GenerateBlockAsync(u, pos).loading && Bounded(GenerateBlockAsync(u, pos))
  {
    var v := PairedViewer(id, state, ViewerState(EmptyBox(), EmptyBox()));
    var paired := s.(viewers := s.viewers + [v]);
    PairViewerBounded(s, id, state, false, notify);
    assert Cells(EmptyBox()) == [];
    assert DiffOps(EmptyBox(), state.dataBox, id, false, notify) == [];
    var u := PairViewer(s, id, state, false, notify);
    assert u == paired;
    assert v in u.viewers;
    assert ViewersInRange(u.viewers, pos) > 0;
    StepBounded(u, Generate(pos));
  }

  /** has_data_block tracks residency: it turns true when an accepted
      response or a successful try_set_block_data arrives, and a block that
      has it is wanted by some paired viewer. */
  lemma HasDataBlockTracksResidency(s: PagingState, out: LoadOutput, pos: Vec3, voxels: Buffer)
    requires Valid(s) && Bounded(s)
    ensures Accepted(s, out) ==> HasDataBlock(ApplyLoadResponse(s, out), out.position)
    ensures TrySetBlockData(s, pos, voxels).0 ==> HasDataBlock(TrySetBlockData(s, pos, voxels).1, pos)
    ensures HasDataBlock(s, pos) ==> exists v :: v in s.viewers && v.state.dataBox.Contains(pos)
  {
    if HasDataBlock(s, pos) {
      HeldIsWanted(s, pos);
    }
  }

  /** A viewer that enters a fresh block and leaves it before loading
      completes leaves no trace in the maps (only the stale pending entry),
      and the eventual response is dropped. */
  lemma EnterThenLeave(s: PagingState, pos: Vec3, viewer: ViewerId, notify: bool, out: LoadOutput)
    requires Valid(s) && pos !in s.loaded && pos !in s.loading && out.position == pos
    ensures var t := LeaveBlock(EnterBlock(s, pos, viewer, notify), pos);
      && t.loaded == s.loaded && t.loading == s.loading && t.unloadedSaving == s.unloadedSaving
      && t.pendingLoad == s.pendingLoad + [pos]
      && ApplyLoadResponse(t, out) == t
  {
    var s1 := EnterBlock(s, pos, viewer, notify);
    assert s1.loading == s.loading[pos := LoadingBlock(1, NotifyList(notify, viewer))];
    assert s1.loading - {pos} == s.loading;
  }

  /** After the streaming dependency is invalidated, the response of any job
      submitted before is dropped, whatever happens in between. */
  lemma StaleLoadDropped(s: PagingState, ops: seq<Op>, task: LoadTask, voxels: Buffer)
    requires Valid(s) && task in s.loadTasks
    ensures var u := Run(InvalidateStreaming(s), ops);
      ApplyLoadResponse(u, LoadOutput(task.position, voxels, task.epoch, false)) == u
  {
  }

  /** After the meshing dependency is invalidated, the result of any mesh job
      submitted before is dropped. */
  lemma StaleMeshDropped(s: PagingState, ops: seq<Op>, task: MeshTask, mesh: Mesh)
    requires Valid(s) && task in s.meshTasks
    ensures var u := Run(InvalidateMeshing(s), ops);
      ApplyMeshUpdate(u, MeshOutput(task.position, mesh, task.epoch)) == u
  {
  }

  /** A job submitted after an invalidation carries the new epoch, so its
      result is applied. */
  lemma FreshLoadApplied(s: PagingState, pos: Vec3, voxels: Buffer)
    requires Valid(s) && pos in s.loading && pos in s.pendingLoad && pos !in s.unloadedSaving
    ensures var t := SendDataLoadRequests(InvalidateStreaming(s));
      exists task :: task in t.loadTasks && task.position == pos &&
        var u := ApplyLoadResponse(t, LoadOutput(pos, voxels, task.epoch, false));
        pos in u.loaded && u.loaded[pos] == DataBlock(voxels, false, s.loading[pos].viewers)
  {
    var s' := InvalidateStreaming(s);
    var t := SendDataLoadRequests(s');
    CacheCheckedFirst(s', pos);
    var task := LoadTask(pos, s'.streamingEpoch);
    assert task in t.loadTasks;
  }
}
