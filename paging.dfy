/** The data-paging bookkeeping of the fixed-LOD terrain (VoxelTerrain) as a
    pure state machine. PagingState holds the fields the terrain updates in
    place; every operation below maps the state before a call to the state
    after it. The class in terrain.dfy runs these operations on real fields. */
module Paging {
  import opened Blocks
  import opened Lists

  type ViewerId = nat

  /** Voxel contents of one data block. Its layout and codec are not modelled;
      two buffers are the same buffer when they hold the same values. */
  type Buffer = seq<int>

  /** A built mesh; the polygonization itself is not modelled. */
  type Mesh = seq<int>

  /** What a paired viewer needs, in block coordinates. */
  datatype ViewerState = ViewerState(dataBox: Box, meshBox: Box)

  /** A viewer with the state of this process call and of the previous one. */
  datatype PairedViewer = PairedViewer(id: ViewerId, state: ViewerState, prevState: ViewerState)

  /** A resident data block: its voxels, whether it was edited since it was
      saved, and how many viewers currently hold it. */
  datatype DataBlock = DataBlock(voxels: Buffer, modified: bool, viewers: nat)

  /** A block being loaded: how many viewers want it and which viewers must be
      told when it arrives. */
  datatype LoadingBlock = LoadingBlock(viewers: nat, viewersToNotify: seq<ViewerId>)

  datatype BlockToSave = BlockToSave(voxels: Buffer, position: Vec3)

  /** A cached block that is replayed as a load response on the next process call. */
  datatype QuickReloadingBlock = QuickReloadingBlock(voxels: Buffer, position: Vec3)

  /** Submitted jobs, tagged with the dependency epoch they were created under. */
  datatype LoadTask = LoadTask(position: Vec3, epoch: nat)
  datatype MeshTask = MeshTask(position: Vec3, epoch: nat)

  /** Results drained from the task scheduler. A load output is either the
      answer of a stream or generator job, or a quick reload replayed from
      the unloaded-saving cache (fromCache). */
  datatype LoadOutput = LoadOutput(position: Vec3, voxels: Buffer, epoch: nat, fromCache: bool)
  datatype MeshOutput = MeshOutput(position: Vec3, mesh: Mesh, epoch: nat)

  /** Notifications handed to listeners. */
  datatype Event =
    | DataBlockLoaded(position: Vec3)
    | DataBlockUnloaded(position: Vec3)
    | DataBlockEntered(position: Vec3, viewer: ViewerId)

  datatype PagingState = PagingState(
    viewers: seq<PairedViewer>,
    loaded: map<Vec3, DataBlock>,
    loading: map<Vec3, LoadingBlock>,
    pendingLoad: seq<Vec3>,
    pendingUpdate: seq<Vec3>,
    toSave: seq<BlockToSave>,
    unloadedSaving: map<Vec3, Buffer>,
    quickReloading: seq<QuickReloadingBlock>,
    streamingEpoch: nat,
    meshingEpoch: nat,
    loadTasks: seq<LoadTask>,
    saveTasks: seq<BlockToSave>,
    meshTasks: seq<MeshTask>,
    meshes: map<Vec3, Mesh>,
    events: seq<Event>)

  /** The state of a terrain that has paged nothing in yet. */
  function Initial(): PagingState {
    PagingState([], map[], map[], [], [], [], map[], [], 0, 0, [], [], [], map[], [])
  }

  /** The bookkeeping invariant: a position is never both resident and
      loading, every resident block and loading entry is held by at least one
      viewer (entries that drop to zero are removed), and no submitted job
      carries an epoch newer than the current one. */
  predicate Valid(s: PagingState) {
    && s.loaded.Keys !! s.loading.Keys
    && (forall p :: p in s.loaded ==> s.loaded[p].viewers >= 1)
    && (forall p :: p in s.loading ==> s.loading[p].viewers >= 1)
    && (forall t :: t in s.loadTasks ==> t.epoch <= s.streamingEpoch)
    && (forall t :: t in s.meshTasks ==> t.epoch <= s.meshingEpoch)
  }

  /** The parts of the state that single-position steps never touch: the
      viewers, the epochs, the submitted jobs and the mesh side. */
  predicate SameContext(s: PagingState, t: PagingState) {
    && t.viewers == s.viewers && t.streamingEpoch == s.streamingEpoch && t.meshingEpoch == s.meshingEpoch
    && t.quickReloading == s.quickReloading && t.loadTasks == s.loadTasks
    && t.saveTasks == s.saveTasks && t.meshTasks == s.meshTasks
    && t.pendingUpdate == s.pendingUpdate && t.meshes == s.meshes
  }

  /** How many viewers hold pos: the refcount of its resident block or of its
      loading entry, and zero when it is neither. */
  function Interest(s: PagingState, pos: Vec3): nat {
    if pos in s.loaded then s.loaded[pos].viewers
    else if pos in s.loading then s.loading[pos].viewers
    else 0
  }

  /** has_data_block: the block is resident, so it is not loading and some
      viewer holds it. */
  predicate HasDataBlock(s: PagingState, pos: Vec3)
    ensures Valid(s) && HasDataBlock(s, pos) ==> pos !in s.loading && Interest(s, pos) >= 1
  {
    pos in s.loaded
  }

  /** The number of paired viewers whose data box contains pos. */
  function ViewersInRange(vs: seq<PairedViewer>, pos: Vec3): (n: nat)
    ensures n <= |vs|
    ensures n == 0 <==> forall v :: v in vs ==> !v.state.dataBox.Contains(pos)
  {
    if vs == [] then 0
    else
      var init := vs[..|vs| - 1];
      assert vs == init + [vs[|vs| - 1]];
      ViewersInRange(init, pos) + (if vs[|vs| - 1].state.dataBox.Contains(pos) then 1 else 0)
  }

  function NotifyList(notify: bool, viewer: ViewerId): seq<ViewerId> {
    if notify then [viewer] else []
  }

  function EnteredEvents(pos: Vec3, viewers: seq<ViewerId>): (r: seq<Event>)
    ensures |r| == |viewers|
    ensures forall i :: 0 <= i < |r| ==> r[i] == DataBlockEntered(pos, viewers[i])
  {
    seq(|viewers|, i requires 0 <= i < |viewers| => DataBlockEntered(pos, viewers[i]))
  }

  /** A viewer's data box starts covering pos. A resident block gains a
      viewer (and the viewer is told at once); a loading entry gains a viewer
      (and the viewer is told on arrival); otherwise a loading entry with one
      viewer is created and pos is queued for loading. No job is submitted
      here and the unloaded-saving cache is not consulted yet. */
  function EnterBlock(s: PagingState, pos: Vec3, viewer: ViewerId, notify: bool): (t: PagingState)
    ensures Valid(s) ==> Valid(t)
    ensures SameContext(s, t)
    ensures Interest(t, pos) == Interest(s, pos) + 1
    ensures forall q :: q != pos ==> Interest(t, q) == Interest(s, q)
    ensures pos in t.loaded <==> pos in s.loaded
    ensures pos in s.loaded ==> t.loaded[pos].voxels == s.loaded[pos].voxels
    ensures pos !in s.loaded ==> pos in t.loading
    ensures t.pendingLoad == if pos in s.loaded || pos in s.loading then s.pendingLoad else s.pendingLoad + [pos]
    ensures t.unloadedSaving == s.unloadedSaving && t.loadTasks == s.loadTasks && t.toSave == s.toSave
    ensures pos in s.loaded ==> t.events == s.events + EnteredEvents(pos, NotifyList(notify, viewer))
    ensures pos !in s.loaded ==> t.events == s.events
    ensures pos !in s.loaded ==>
      t.loading[pos].viewersToNotify ==
        (if pos in s.loading then s.loading[pos].viewersToNotify else []) + NotifyList(notify, viewer)
  {
    if pos in s.loaded then
      var b := s.loaded[pos];
      s.(loaded := s.loaded[pos := b.(viewers := b.viewers + 1)],
         events := s.events + EnteredEvents(pos, NotifyList(notify, viewer)))
    else if pos in s.loading then
      var lb := s.loading[pos];
      s.(loading := s.loading[pos := LoadingBlock(lb.viewers + 1, lb.viewersToNotify + NotifyList(notify, viewer))])
    else
      s.(loading := s.loading[pos := LoadingBlock(1, NotifyList(notify, viewer))],
         pendingLoad := s.pendingLoad + [pos])
  }

  /** Removes a resident block whose last viewer left. A block edited since
      its last save is queued for saving and kept in the unloaded-saving cache
      until that save completes; an unedited block is dropped. */
  function UnloadBlock(s: PagingState, pos: Vec3): (t: PagingState)
    requires pos in s.loaded
    ensures Valid(s) ==> Valid(t)
    ensures SameContext(s, t)
    ensures pos !in t.loaded && t.loaded == s.loaded - {pos}
    ensures s.loaded[pos].modified ==>
              t.unloadedSaving == s.unloadedSaving[pos := s.loaded[pos].voxels] &&
              t.toSave == s.toSave + [BlockToSave(s.loaded[pos].voxels, pos)]
    ensures !s.loaded[pos].modified ==> t.unloadedSaving == s.unloadedSaving && t.toSave == s.toSave
  {
    var b := s.loaded[pos];
    var dropped := s.(loaded := s.loaded - {pos}, events := s.events + [DataBlockUnloaded(pos)]);
    if b.modified then
      dropped.(toSave := s.toSave + [BlockToSave(b.voxels, pos)],
               unloadedSaving := s.unloadedSaving[pos := b.voxels])
    else
      dropped
  }

  /** A viewer's data box stops covering pos. The refcount of its resident
      block or loading entry drops by one; at zero the block is unloaded, or
      the loading entry is removed so that the eventual response is dropped. */
  function LeaveBlock(s: PagingState, pos: Vec3): (t: PagingState)
    requires Valid(s)
    ensures Valid(s) ==> Valid(t)
    ensures SameContext(s, t)
    ensures Interest(t, pos) == Interest(s, pos) - 1 || (Interest(s, pos) == 0 && t == s)
    ensures forall q :: q != pos ==> Interest(t, q) == Interest(s, q)
    ensures pos in t.loaded ==> pos in s.loaded && t.loaded[pos] == s.loaded[pos].(viewers := s.loaded[pos].viewers - 1)
    ensures pos in s.loading && s.loading[pos].viewers == 1 ==> pos !in t.loading
    ensures pos in s.loaded && s.loaded[pos].viewers == 1 ==> t == UnloadBlock(s, pos)
    ensures t.loadTasks == s.loadTasks && t.pendingLoad == s.pendingLoad
  {
    if pos in s.loaded then
      var b := s.loaded[pos];
      if b.viewers > 1 then s.(loaded := s.loaded[pos := b.(viewers := b.viewers - 1)])
      else UnloadBlock(s, pos)
    else if pos in s.loading then
      var lb := s.loading[pos];
      if lb.viewers > 1 then s.(loading := s.loading[pos := lb.(viewers := lb.viewers - 1)])
      else s.(loading := s.loading - {pos})
    else
      s
  }

  /** Whether a load output is applied: it carries the current streaming
      epoch and the block is still loading. While the cache holds an unsaved
      copy of the block, only a quick reload of that very copy is applied: a
      stream copy is then outdated, and so is a quick reload queued from an
      earlier cache entry. */
  predicate Accepted(s: PagingState, out: LoadOutput) {
    && out.epoch == s.streamingEpoch
    && out.position in s.loading
    && (out.position in s.unloadedSaving ==> out.fromCache && out.voxels == s.unloadedSaving[out.position])
  }

  /** Applies a load (or generate) response. A response tagged with a stale
      streaming epoch, for a position nobody is loading any more, or for a
      block the unloaded-saving cache holds and that is not a quick reload of
      the cached copy, changes nothing.
      Otherwise the loading entry becomes a resident, unedited block
      holding the delivered voxels and the same viewers, and every viewer on
      the notify list gets one entered event. */
  function ApplyLoadResponse(s: PagingState, out: LoadOutput): (t: PagingState)
    ensures Valid(s) ==> Valid(t)
    ensures SameContext(s, t)
    ensures !Accepted(s, out) ==> t == s
    ensures Accepted(s, out) ==>
      && t.loaded == s.loaded[out.position := DataBlock(out.voxels, false, s.loading[out.position].viewers)]
      && t.loading == s.loading - {out.position}
      && t.events == s.events + [DataBlockLoaded(out.position)]
                     + EnteredEvents(out.position, s.loading[out.position].viewersToNotify)
    ensures out.position !in s.loaded ==> Interest(t, out.position) == Interest(s, out.position)
    ensures t.unloadedSaving == s.unloadedSaving && t.pendingLoad == s.pendingLoad
  {
    var pos := out.position;
    if !Accepted(s, out) then s
    else
      var lb := s.loading[pos];
      s.(loading := s.loading - {pos},
         loaded := s.loaded[pos := DataBlock(out.voxels, false, lb.viewers)],
         events := s.events + [DataBlockLoaded(pos)] + EnteredEvents(pos, lb.viewersToNotify))
  }

  /** A save of `voxels` at pos completed. The cache entry goes away only
      when it still holds that same buffer; a newer unload of pos keeps its
      own entry until its own save completes. */
  function ApplySaveDone(s: PagingState, pos: Vec3, voxels: Buffer): (t: PagingState)
    ensures Valid(s) ==> Valid(t)
    ensures SameContext(s, t)
    ensures pos in s.unloadedSaving && s.unloadedSaving[pos] == voxels ==>
              t.unloadedSaving == s.unloadedSaving - {pos}
    ensures !(pos in s.unloadedSaving && s.unloadedSaving[pos] == voxels) ==> t == s
    ensures t.loaded == s.loaded && t.loading == s.loading
  {
    if pos in s.unloadedSaving && s.unloadedSaving[pos] == voxels then
      s.(unloadedSaving := s.unloadedSaving - {pos})
    else
      s
  }

  /** An edit committed to the voxels of block pos (post_edit_voxel,
      post_edit_area). Only resident blocks are edited; the block is then
      flagged as needing a save. */
  function EditBlock(s: PagingState, pos: Vec3, voxels: Buffer): (t: PagingState)
    ensures Valid(s) ==> Valid(t)
    ensures SameContext(s, t)
    ensures pos in s.loaded ==>
      t.loaded == s.loaded[pos := DataBlock(voxels, true, s.loaded[pos].viewers)]
    ensures pos !in s.loaded ==> t == s
    ensures t.loading == s.loading && t.unloadedSaving == s.unloadedSaving
  {
    if pos in s.loaded then
      s.(loaded := s.loaded[pos := s.loaded[pos].(voxels := voxels, modified := true)])
    else
      s
  }

  /** try_set_block_data: when some paired viewer's data box contains pos,
      the block is created or overridden with `voxels` (held by those
      viewers) and any loading entry is dropped, so a later stream response
      for pos cannot overwrite it. With no viewer in range nothing changes. */
  function TrySetBlockData(s: PagingState, pos: Vec3, voxels: Buffer): (r: (bool, PagingState))
    ensures Valid(s) ==> Valid(r.1)
    ensures SameContext(s, r.1)
    ensures r.0 <==> exists v :: v in s.viewers && v.state.dataBox.Contains(pos)
    ensures !r.0 ==> r.1 == s
    ensures r.0 ==> (r.1.loaded == s.loaded[pos := DataBlock(voxels, false, ViewersInRange(s.viewers, pos))] &&
                     r.1.loading == s.loading - {pos})
    ensures r.1.(loaded := s.loaded, loading := s.loading) == s
  {
    var n := ViewersInRange(s.viewers, pos);
    if n == 0 then (false, s)
    else (true, s.(loading := s.loading - {pos},
                   loaded := s.loaded[pos := DataBlock(voxels, false, n)]))
  }

  /** generate_block_async: a block that already exists, or that no viewer's
      data box contains, is not requested. Otherwise a loading entry held by
      the viewers in range is created and pos is queued for loading, unless
      one is already being loaded. */
  function GenerateBlockAsync(s: PagingState, pos: Vec3): (t: PagingState)
    ensures Valid(s) ==> Valid(t)
    ensures SameContext(s, t)
    ensures pos in s.loaded || pos in s.loading || ViewersInRange(s.viewers, pos) == 0 ==> t == s
    ensures pos !in s.loaded && pos !in s.loading && ViewersInRange(s.viewers, pos) > 0 ==>
      t.loading == s.loading[pos := LoadingBlock(ViewersInRange(s.viewers, pos), [])] &&
      t.pendingLoad == s.pendingLoad + [pos]
    ensures t.(loading := s.loading, pendingLoad := s.pendingLoad) == s
  {
    if pos in s.loaded || pos in s.loading then s
    else
      var n := ViewersInRange(s.viewers, pos);
      if n == 0 then s
      else s.(loading := s.loading[pos := LoadingBlock(n, [])], pendingLoad := s.pendingLoad + [pos])
  }

  /** A single-position step of the paging store. */
  datatype Op =
    | Enter(pos: Vec3, viewer: ViewerId, notify: bool)
    | Exit(pos: Vec3)
    | LoadDone(out: LoadOutput)
    | SaveDone(pos: Vec3, voxels: Buffer)
    | Edit(pos: Vec3, voxels: Buffer)
    | SetData(pos: Vec3, voxels: Buffer)
    | Generate(pos: Vec3)

  /** The one block position an operation reads and writes. */
  function OpPos(op: Op): Vec3 {
    match op
    case LoadDone(out) => out.position
    case _ => op.pos
  }

  function Step(s: PagingState, op: Op): (t: PagingState)
    requires Valid(s)
    ensures Valid(t)
    ensures SameContext(s, t)
  {
    match op
    case Enter(pos, viewer, notify) => EnterBlock(s, pos, viewer, notify)
    case Exit(pos) => LeaveBlock(s, pos)
    case LoadDone(out) => ApplyLoadResponse(s, out)
    case SaveDone(pos, voxels) => ApplySaveDone(s, pos, voxels)
    case Edit(pos, voxels) => EditBlock(s, pos, voxels)
    case SetData(pos, voxels) => TrySetBlockData(s, pos, voxels).1
    case Generate(pos) => GenerateBlockAsync(s, pos)
  }

  /** The operations applied in order, first to last. */
  function Run(s: PagingState, ops: seq<Op>): (t: PagingState)
    requires Valid(s)
    ensures Valid(t)
    ensures SameContext(s, t)
  {
    if ops == [] then s else Step(Run(s, ops[..|ops| - 1]), ops[|ops| - 1])
  }

  function ExitOps(cells: seq<Vec3>): (ops: seq<Op>)
    ensures |ops| == |cells| && forall i :: 0 <= i < |cells| ==> ops[i] == Exit(cells[i])
  {
    MapSeq(c => Exit(c), cells)
  }

  function EnterOps(cells: seq<Vec3>, viewer: ViewerId, notify: bool): (ops: seq<Op>)
    ensures |ops| == |cells| && forall i :: 0 <= i < |cells| ==> ops[i] == Enter(cells[i], viewer, notify)
  {
    MapSeq(c => Enter(c, viewer, notify), cells)
  }

  /** The steps of process_viewer_data_box_change: one Exit per block that
      left the data box, then, when loading is allowed, one Enter per block
      that entered it. */
  function DiffOps(prev: Box, next: Box, viewer: ViewerId, canLoad: bool, notify: bool): seq<Op> {
    ExitOps(LeavingCells(prev, next)) + (if canLoad then EnterOps(EnteringCells(prev, next), viewer, notify) else [])
  }

  function ProcessViewerDataBoxChange(s: PagingState, viewer: ViewerId, prev: Box, next: Box,
                                      canLoad: bool, notify: bool): (t: PagingState)
    requires Valid(s)
    ensures Valid(t) && SameContext(s, t)
  {
    Run(s, DiffOps(prev, next, viewer, canLoad, notify))
  }

  /** One viewer moves to a new state: its current state becomes its
      previous state, and the data-box diff is processed. */
  function UpdateViewer(s: PagingState, i: nat, newState: ViewerState, canLoad: bool, notify: bool): (t: PagingState)
    requires Valid(s) && i < |s.viewers|
    ensures Valid(t)
    ensures |t.viewers| == |s.viewers|
    ensures t.viewers[i] == PairedViewer(s.viewers[i].id, newState, s.viewers[i].state)
    ensures forall j :: 0 <= j < |s.viewers| && j != i ==> t.viewers[j] == s.viewers[j]
  {
    var v := s.viewers[i];
    var paired := s.(viewers := s.viewers[i := PairedViewer(v.id, newState, v.state)]);
    ProcessViewerDataBoxChange(paired, v.id, v.state.dataBox, newState.dataBox, canLoad, notify)
  }

  /** process_viewers: the first |states| paired viewers move to the given
      states, one after the other. */
  function ProcessViewers(s: PagingState, states: seq<ViewerState>, canLoad: bool, notify: bool): (t: PagingState)
    requires Valid(s) && |states| <= |s.viewers|
    ensures Valid(t)
    ensures |t.viewers| == |s.viewers|
    ensures forall j :: 0 <= j < |states| ==> t.viewers[j] == PairedViewer(s.viewers[j].id, states[j], s.viewers[j].state)
    ensures forall j :: |states| <= j < |s.viewers| ==> t.viewers[j] == s.viewers[j]
    decreases |states|
  {
    if states == [] then s
    else
      var k := |states| - 1;
      UpdateViewer(ProcessViewers(s, states[..k], canLoad, notify), k, states[k], canLoad, notify)
  }

  /** A box that covers no block. */
  function EmptyBox(): (b: Box)
    ensures forall p :: !b.Contains(p)
  {
    Box(Vec3(0, 0, 0), Vec3(0, 0, 0))
  }

  /** A viewer starts intersecting the volume. It has no previous state, so
      every block of its data box enters. */
  function PairViewer(s: PagingState, id: ViewerId, state: ViewerState, canLoad: bool, notify: bool): (t: PagingState)
    requires Valid(s)
    ensures Valid(t)
    ensures t.viewers == s.viewers + [PairedViewer(id, state, ViewerState(EmptyBox(), EmptyBox()))]
  {
    var paired := s.(viewers := s.viewers + [PairedViewer(id, state, ViewerState(EmptyBox(), EmptyBox()))]);
    ProcessViewerDataBoxChange(paired, id, EmptyBox(), state.dataBox, canLoad, notify)
  }

  /** The viewer at index i stops intersecting the volume: every block of its
      data box leaves. */
  function UnpairViewer(s: PagingState, i: nat): (t: PagingState)
    requires Valid(s) && i < |s.viewers|
    ensures Valid(t)
    ensures t.viewers == s.viewers[..i] + s.viewers[i + 1..]
  {
    var v := s.viewers[i];
    var unpaired := s.(viewers := s.viewers[..i] + s.viewers[i + 1..]);
    ProcessViewerDataBoxChange(unpaired, v.id, v.state.dataBox, EmptyBox(), false, false)
  }

  /** What send_data_load_requests does with one pending position: a hit in
      the unloaded-saving cache is a quick reload of the cached voxels. */
  function QuickReloadOf(cache: map<Vec3, Buffer>): Vec3 -> seq<QuickReloadingBlock> {
    p => if p in cache then [QuickReloadingBlock(cache[p], p)] else []
  }

  /** ... and a miss is a load job tagged with the current streaming epoch. */
  function LoadRequestOf(cache: map<Vec3, Buffer>, epoch: nat): Vec3 -> seq<LoadTask> {
    p => if p in cache then [] else [LoadTask(p, epoch)]
  }

  /** The pending positions that the unloaded-saving cache can serve, as
      simulated load responses carrying the cached voxels. */
  function QuickReloads(pending: seq<Vec3>, cache: map<Vec3, Buffer>): (r: seq<QuickReloadingBlock>)
    ensures forall q :: q in r <==> q.position in pending && q.position in cache && q.voxels == cache[q.position]
  {
    var r := FlatMap(QuickReloadOf(cache), pending);
    assert forall q :: q in r <==> q.position in pending && q.position in cache && q.voxels == cache[q.position] by {
      forall q ensures q in r <==> q.position in pending && q.position in cache && q.voxels == cache[q.position] {
        FlatMapMember(QuickReloadOf(cache), pending, q);
        if q.position in pending && q.position in cache && q.voxels == cache[q.position] {
          assert q in QuickReloadOf(cache)(q.position);
        }
      }
    }
    r
  }

  /** The pending positions the cache cannot serve, as load jobs tagged with
      the current streaming epoch. */
  function LoadRequests(pending: seq<Vec3>, cache: map<Vec3, Buffer>, epoch: nat): (r: seq<LoadTask>)
    ensures forall t :: t in r <==> t.position in pending && t.position !in cache && t.epoch == epoch
  {
    var r := FlatMap(LoadRequestOf(cache, epoch), pending);
    assert forall t :: t in r <==> t.position in pending && t.position !in cache && t.epoch == epoch by {
      forall t ensures t in r <==> t.position in pending && t.position !in cache && t.epoch == epoch {
        FlatMapMember(LoadRequestOf(cache, epoch), pending, t);
        if t.position in pending && t.position !in cache && t.epoch == epoch {
          assert t in LoadRequestOf(cache, epoch)(t.position);
        }
      }
    }
    r
  }

  /** send_data_load_requests: each pending position is checked against the
      unloaded-saving cache first; a hit is queued as a quick reload, a miss
      becomes a load job. The pending list is then empty. */
  function SendDataLoadRequests(s: PagingState): (t: PagingState)
    ensures Valid(s) ==> Valid(t)
    ensures t.loaded == s.loaded && t.loading == s.loading && t.unloadedSaving == s.unloadedSaving
    ensures t.pendingLoad == []
    ensures t.(quickReloading := s.quickReloading, loadTasks := s.loadTasks, pendingLoad := s.pendingLoad) == s
  {
    s.(quickReloading := s.quickReloading + QuickReloads(s.pendingLoad, s.unloadedSaving),
       loadTasks := s.loadTasks + LoadRequests(s.pendingLoad, s.unloadedSaving, s.streamingEpoch),
       pendingLoad := [])
  }

  function QuickReloadOps(qs: seq<QuickReloadingBlock>, epoch: nat): (ops: seq<Op>)
    ensures |ops| == |qs|
    ensures forall i :: 0 <= i < |qs| ==> ops[i] == LoadDone(LoadOutput(qs[i].position, qs[i].voxels, epoch, true))
  {
    MapSeq((q: QuickReloadingBlock) => LoadDone(LoadOutput(q.position, q.voxels, epoch, true)), qs)
  }

  /** The quick reloads are applied as load responses of the current epoch,
      then the list is emptied. */
  function ProcessQuickReloads(s: PagingState): (t: PagingState)
    requires Valid(s)
    ensures Valid(t) && t.quickReloading == []
  {
    Run(s, QuickReloadOps(s.quickReloading, s.streamingEpoch)).(quickReloading := [])
  }

  /** consume_block_data_save_requests: every queued save becomes a save job. */
  function ConsumeSaveRequests(s: PagingState): (t: PagingState)
    ensures Valid(s) ==> Valid(t)
    ensures t.toSave == [] && multiset(t.saveTasks) == multiset(s.saveTasks) + multiset(s.toSave)
    ensures t.(toSave := s.toSave, saveTasks := s.saveTasks) == s
  {
    s.(saveTasks := s.saveTasks + s.toSave, toSave := [])
  }

  /** A mesh block is queued for an update on the next process call. */
  function ScheduleMeshUpdate(s: PagingState, pos: Vec3): (t: PagingState)
    ensures Valid(s) ==> Valid(t)
    ensures multiset(t.pendingUpdate) == multiset(s.pendingUpdate) + multiset{pos}
    ensures t.(pendingUpdate := s.pendingUpdate) == s
  {
    s.(pendingUpdate := s.pendingUpdate + [pos])
  }

  function MeshRequests(pending: seq<Vec3>, epoch: nat): (r: seq<MeshTask>)
    ensures |r| == |pending|
    ensures forall i :: 0 <= i < |pending| ==> r[i] == MeshTask(pending[i], epoch)
  {
    MapSeq(p => MeshTask(p, epoch), pending)
  }

  /** process_meshing: every pending mesh update becomes a mesh job tagged
      with the current meshing epoch. */
  function ProcessMeshing(s: PagingState): (t: PagingState)
    ensures Valid(s) ==> Valid(t)
    ensures t.pendingUpdate == []
    ensures t.meshTasks == s.meshTasks + MeshRequests(s.pendingUpdate, s.meshingEpoch)
    ensures t.(meshTasks := s.meshTasks, pendingUpdate := s.pendingUpdate) == s
  {
    s.(meshTasks := s.meshTasks + MeshRequests(s.pendingUpdate, s.meshingEpoch), pendingUpdate := [])
  }

  /** apply_mesh_update: a result of the current meshing epoch replaces the
      mesh of its block wholesale; a stale one is discarded. */
  function ApplyMeshUpdate(s: PagingState, out: MeshOutput): (t: PagingState)
    ensures out.epoch == s.meshingEpoch ==> t.meshes == s.meshes[out.position := out.mesh]
    ensures out.epoch != s.meshingEpoch ==> t == s
    ensures t.(meshes := s.meshes) == s
    ensures Valid(s) ==> Valid(t)
  {
    if out.epoch == s.meshingEpoch then s.(meshes := s.meshes[out.position := out.mesh]) else s
  }

  /** The streaming dependency is invalidated and a new one is created. */
  function InvalidateStreaming(s: PagingState): (t: PagingState)
    ensures t.streamingEpoch > s.streamingEpoch
    ensures t.(streamingEpoch := s.streamingEpoch) == s
    ensures Valid(s) ==> Valid(t)
  {
    s.(streamingEpoch := s.streamingEpoch + 1)
  }

  /** The meshing dependency is invalidated and a new one is created. */
  function InvalidateMeshing(s: PagingState): (t: PagingState)
    ensures t.meshingEpoch > s.meshingEpoch
    ensures t.(meshingEpoch := s.meshingEpoch) == s
    ensures Valid(s) ==> Valid(t)
  {
    s.(meshingEpoch := s.meshingEpoch + 1)
  }
}
