/** The viewer refcounts. LoadingBlock::viewers and the refcount of a
    resident block count the paired viewers that want the block; as long as
    automatic loading is on, that count is exactly the number of paired
    viewers whose data box contains the block, so a block is resident or
    loading exactly when some paired viewer's data box contains it. */
module Refcounts {
  import opened Blocks
  import opened Lists
  import opened Paging
  import opened Commutation

  /** Every position's refcount is the number of viewers in range of it. */
  ghost predicate Counted(s: PagingState) {
    forall p :: Interest(s, p) == ViewersInRange(s.viewers, p)
  }

  /** 1 when b contains p, else 0. */
  function InBox(b: Box, p: Vec3): nat {
    if b.Contains(p) then 1 else 0
  }

  lemma {:induction false} ViewersInRangeConcat(a: seq<PairedViewer>, b: seq<PairedViewer>, p: Vec3)
    ensures ViewersInRange(a + b, p) == ViewersInRange(a, p) + ViewersInRange(b, p)
    decreases |b|
  {
    if b == [] {
      assert a + b == a;
    } else {
      var b' := b[..|b| - 1];
      assert (a + b)[..|a + b| - 1] == a + b';
      ViewersInRangeConcat(a, b', p);
    }
  }

  lemma ViewersInRangeSingle(v: PairedViewer, p: Vec3)
    ensures ViewersInRange([v], p) == InBox(v.state.dataBox, p)
  {
    assert [v][..0] == [];
  }

  /** Replacing one viewer changes the count by what the two viewers see at p. */
  lemma ViewersInRangeUpdate(vs: seq<PairedViewer>, i: nat, v: PairedViewer, p: Vec3)
    requires i < |vs|
    ensures ViewersInRange(vs[i := v], p) + InBox(vs[i].state.dataBox, p) ==
            ViewersInRange(vs, p) + InBox(v.state.dataBox, p)
  {
    assert vs == vs[..i] + [vs[i]] + vs[i + 1..];
    assert vs[i := v] == vs[..i] + [v] + vs[i + 1..];
    ViewersInRangeConcat(vs[..i] + [vs[i]], vs[i + 1..], p);
    ViewersInRangeConcat(vs[..i], [vs[i]], p);
    ViewersInRangeConcat(vs[..i] + [v], vs[i + 1..], p);
    ViewersInRangeConcat(vs[..i], [v], p);
    ViewersInRangeSingle(vs[i], p);
    ViewersInRangeSingle(v, p);
  }

  /** Removing one viewer removes what it sees at p. */
  lemma ViewersInRangeRemove(vs: seq<PairedViewer>, i: nat, p: Vec3)
    requires i < |vs|
    ensures ViewersInRange(vs[..i] + vs[i + 1..], p) + InBox(vs[i].state.dataBox, p) == ViewersInRange(vs, p)
  {
    assert vs == vs[..i] + [vs[i]] + vs[i + 1..];
    ViewersInRangeConcat(vs[..i] + [vs[i]], vs[i + 1..], p);
    ViewersInRangeConcat(vs[..i], [vs[i]], p);
    ViewersInRangeConcat(vs[..i], vs[i + 1..], p);
    ViewersInRangeSingle(vs[i], p);
  }

  lemma DistinctInit<T>(cells: seq<T>)
    requires Distinct(cells) && cells != []
    ensures Distinct(cells[..|cells| - 1]) && cells[|cells| - 1] !in cells[..|cells| - 1]
  {
    var init := cells[..|cells| - 1];
    forall i, j | 0 <= i < j < |init| ensures init[i] != init[j] {
      assert init[i] == cells[i] && init[j] == cells[j];
    }
  }

  lemma RunExitsSnoc(s: PagingState, cells: seq<Vec3>)
    requires Valid(s) && cells != []
    ensures Run(s, ExitOps(cells)) == LeaveBlock(Run(s, ExitOps(cells[..|cells| - 1])), cells[|cells| - 1])
  {
    var init, x := cells[..|cells| - 1], cells[|cells| - 1];
    assert ExitOps(cells) == ExitOps(init) + [Exit(x)];
    RunSnoc(s, ExitOps(init), Exit(x));
  }

  lemma RunEntersSnoc(s: PagingState, cells: seq<Vec3>, viewer: ViewerId, notify: bool)
    requires Valid(s) && cells != []
    ensures Run(s, EnterOps(cells, viewer, notify)) ==
            EnterBlock(Run(s, EnterOps(cells[..|cells| - 1], viewer, notify)), cells[|cells| - 1], viewer, notify)
  {
    var init, x := cells[..|cells| - 1], cells[|cells| - 1];
    assert EnterOps(cells, viewer, notify) == EnterOps(init, viewer, notify) + [Enter(x, viewer, notify)];
    RunSnoc(s, EnterOps(init, viewer, notify), Enter(x, viewer, notify));
  }

  /** Leaving distinct blocks that are each held by someone takes one viewer
      off each of them and nothing off any other block. */
  lemma {:induction false} RunExits(s: PagingState, cells: seq<Vec3>)
    requires Valid(s) && Distinct(cells)
    requires forall p :: p in cells ==> Interest(s, p) >= 1
    ensures forall p :: Interest(Run(s, ExitOps(cells)), p) == Interest(s, p) - (if p in cells then 1 else 0)
    decreases |cells|
  {
    if cells != [] {
      var init, x := cells[..|cells| - 1], cells[|cells| - 1];
      assert cells == init + [x];
      DistinctInit(cells);
      RunExits(s, init);
      RunExitsSnoc(s, cells);
      forall p ensures Interest(Run(s, ExitOps(cells)), p) == Interest(s, p) - (if p in cells then 1 else 0) {
        assert p in cells <==> p in init || p == x;
      }
    }
  }

  /** Entering distinct blocks adds one viewer to each of them. */
  lemma {:induction false} RunEnters(s: PagingState, cells: seq<Vec3>, viewer: ViewerId, notify: bool)
    requires Valid(s) && Distinct(cells)
    ensures forall p :: Interest(Run(s, EnterOps(cells, viewer, notify)), p) == Interest(s, p) + (if p in cells then 1 else 0)
    decreases |cells|
  {
    if cells != [] {
      var init, x := cells[..|cells| - 1], cells[|cells| - 1];
      assert cells == init + [x];
      DistinctInit(cells);
      RunEnters(s, init, viewer, notify);
      RunEntersSnoc(s, cells, viewer, notify);
      forall p ensures Interest(Run(s, EnterOps(cells, viewer, notify)), p) == Interest(s, p) + (if p in cells then 1 else 0) {
        assert p in cells <==> p in init || p == x;
      }
    }
  }

  /** With loading allowed, a data-box change from prev to next takes one
      viewer off every block of prev and adds one to every block of next. */
  lemma DiffInterest(s: PagingState, viewer: ViewerId, prev: Box, next: Box, notify: bool)
    requires Valid(s)
    requires forall p :: prev.Contains(p) ==> Interest(s, p) >= 1
    ensures forall p ::
      Interest(ProcessViewerDataBoxChange(s, viewer, prev, next, true, notify), p) + InBox(prev, p) ==
      Interest(s, p) + InBox(next, p)
  {
    var l, e := LeavingCells(prev, next), EnteringCells(prev, next);
    BoxDiff(prev, next);
    RunAppend(s, ExitOps(l), EnterOps(e, viewer, notify));
    RunExits(s, l);
    RunEnters(Run(s, ExitOps(l)), e, viewer, notify);
  }

  /** A viewer that moves keeps the refcounts equal to the viewer counts. */
  lemma UpdateViewerCounted(s: PagingState, i: nat, newState: ViewerState, notify: bool)
    requires Valid(s) && Counted(s) && i < |s.viewers|
    ensures Counted(UpdateViewer(s, i, newState, true, notify))
  {
    var v := s.viewers[i];
    var v' := PairedViewer(v.id, newState, v.state);
    var paired := s.(viewers := s.viewers[i := v']);
    forall p | v.state.dataBox.Contains(p) ensures Interest(paired, p) >= 1 {
      assert v in s.viewers;
      assert Interest(paired, p) == Interest(s, p) == ViewersInRange(s.viewers, p);
    }
    DiffInterest(paired, v.id, v.state.dataBox, newState.dataBox, notify);
    forall p ensures ViewersInRange(paired.viewers, p) + InBox(v.state.dataBox, p) ==
                     ViewersInRange(s.viewers, p) + InBox(newState.dataBox, p) {
      ViewersInRangeUpdate(s.viewers, i, v', p);
    }
  }

  /** process_viewers keeps the refcounts equal to the viewer counts. */
  lemma {:induction false} ProcessViewersCounted(s: PagingState, states: seq<ViewerState>, notify: bool)
    requires Valid(s) && Counted(s) && |states| <= |s.viewers|
    ensures Counted(ProcessViewers(s, states, true, notify))
    decreases |states|
  {
    if states != [] {
      var k := |states| - 1;
      ProcessViewersCounted(s, states[..k], notify);
      UpdateViewerCounted(ProcessViewers(s, states[..k], true, notify), k, states[k], notify);
    }
  }

  /** A newly paired viewer adds itself to every block in its data box. */
  lemma PairViewerCounted(s: PagingState, id: ViewerId, state: ViewerState, notify: bool)
    requires Valid(s) && Counted(s)
    ensures Counted(PairViewer(s, id, state, true, notify))
  {
    var v := PairedViewer(id, state, ViewerState(EmptyBox(), EmptyBox()));
    var paired := s.(viewers := s.viewers + [v]);
    DiffInterest(paired, id, EmptyBox(), state.dataBox, notify);
    forall p ensures ViewersInRange(paired.viewers, p) == ViewersInRange(s.viewers, p) + InBox(state.dataBox, p) {
      ViewersInRangeConcat(s.viewers, [v], p);
      ViewersInRangeSingle(v, p);
    }
  }

  /** An unpaired viewer takes itself off every block in its data box. */
  lemma UnpairViewerCounted(s: PagingState, i: nat)
    requires Valid(s) && Counted(s) && i < |s.viewers|
    ensures Counted(UnpairViewer(s, i))
  {
    var v := s.viewers[i];
    var unpaired := s.(viewers := s.viewers[..i] + s.viewers[i + 1..]);
    forall p | v.state.dataBox.Contains(p) ensures Interest(unpaired, p) >= 1 {
      assert v in s.viewers;
      assert Interest(unpaired, p) == Interest(s, p) == ViewersInRange(s.viewers, p);
    }
    DiffInterest(unpaired, v.id, v.state.dataBox, EmptyBox(), false);
    assert ProcessViewerDataBoxChange(unpaired, v.id, v.state.dataBox, EmptyBox(), false, false) ==
           ProcessViewerDataBoxChange(unpaired, v.id, v.state.dataBox, EmptyBox(), true, false) by {
      BoxDiff(v.state.dataBox, EmptyBox());
      OutsideOfCover(Cells(EmptyBox()), v.state.dataBox);
    }
    forall p ensures ViewersInRange(unpaired.viewers, p) + InBox(v.state.dataBox, p) == ViewersInRange(s.viewers, p) {
      ViewersInRangeRemove(s.viewers, i, p);
    }
  }

  /** The steps that do not come from a viewer moving keep the counts: a load
      response moves the count from the loading entry to the block,
      try_set_block_data sets it to the viewers in range, and
      generate_block_async has nothing to create when every wanted block is
      already resident or loading. */
  lemma StepCounted(s: PagingState, op: Op)
    requires Valid(s) && Counted(s) && !op.Enter? && !op.Exit?
    ensures Counted(Step(s, op))
  {
    var t := Step(s, op);
    match op
    case LoadDone(out) => {
      forall q ensures Interest(t, q) == Interest(s, q) {
        if q != out.position && Accepted(s, out) {
          assert q in t.loaded <==> q in s.loaded;
          assert q in t.loading <==> q in s.loading;
        }
      }
    }
    case SaveDone(p, voxels) =>
    case Edit(p, voxels) =>
    case SetData(p, voxels) => {
      forall q ensures Interest(t, q) == ViewersInRange(t.viewers, q) {
        if q != p && TrySetBlockData(s, p, voxels).0 {
          assert q in t.loaded <==> q in s.loaded;
          assert q in t.loading <==> q in s.loading;
        }
      }
    }
    case Generate(p) => {
      if p !in s.loaded && p !in s.loading {
        assert Interest(s, p) == 0;
      }
    }
  }

  /** Replaying load responses keeps the counts. */
  lemma {:induction false} RunLoadsCounted(s: PagingState, ops: seq<Op>)
    requires Valid(s) && Counted(s)
    requires forall i :: 0 <= i < |ops| ==> ops[i].LoadDone?
    ensures Counted(Run(s, ops))
    decreases |ops|
  {
    if ops != [] {
      RunLoadsCounted(s, ops[..|ops| - 1]);
      StepCounted(Run(s, ops[..|ops| - 1]), ops[|ops| - 1]);
    }
  }

  /** Turning pending loads into jobs and quick reloads keeps the counts. */
  lemma SendCounted(s: PagingState)
    requires Valid(s) && Counted(s)
    ensures Counted(SendDataLoadRequests(s))
  {
    var t := SendDataLoadRequests(s);
    forall p ensures Interest(t, p) == ViewersInRange(t.viewers, p) {
      assert Interest(t, p) == Interest(s, p);
    }
  }

  /** Replaying the quick reloads keeps the counts. */
  lemma QuickReloadsCounted(s: PagingState)
    requires Valid(s) && Counted(s)
    ensures Counted(ProcessQuickReloads(s))
  {
    var ops := QuickReloadOps(s.quickReloading, s.streamingEpoch);
    RunLoadsCounted(s, ops);
    var t := ProcessQuickReloads(s);
    forall p ensures Interest(t, p) == ViewersInRange(t.viewers, p) {
      assert Interest(t, p) == Interest(Run(s, ops), p);
    }
  }

  /** With the counts kept, a block is resident or loading exactly when some
      paired viewer's data box contains it. */
  lemma PagedIffWanted(s: PagingState, p: Vec3)
    requires Valid(s) && Counted(s)
    ensures p in s.loaded || p in s.loading <==> exists v :: v in s.viewers && v.state.dataBox.Contains(p)
  {
    assert Interest(s, p) == ViewersInRange(s.viewers, p);
  }

  /** Every refcount is at most the number of paired viewers whose data box
      contains the block. Unlike Counted this also survives viewers that move
      while loading is off: they release the blocks they leave and request
      none, so a block in range may be neither resident nor loading. */
  ghost predicate Bounded(s: PagingState) {
    forall p :: Interest(s, p) <= ViewersInRange(s.viewers, p)
  }

  lemma CountedBounded(s: PagingState)
    requires Counted(s)
    ensures Bounded(s)
  {
  }

  /** With the bound kept, a resident or loading block is wanted by some
      paired viewer. */
  lemma HeldIsWanted(s: PagingState, p: Vec3)
    requires Valid(s) && Bounded(s) && (p in s.loaded || p in s.loading)
    ensures exists v :: v in s.viewers && v.state.dataBox.Contains(p)
  {
    assert Interest(s, p) <= ViewersInRange(s.viewers, p);
  }

  /** Leaving distinct blocks takes one viewer off each of them that is held
      by someone, and leaves every other block alone. */
  lemma {:induction false} RunExitsAny(s: PagingState, cells: seq<Vec3>)
    requires Valid(s) && Distinct(cells)
    ensures forall p :: p !in cells ==> Interest(Run(s, ExitOps(cells)), p) == Interest(s, p)
    ensures forall p :: p in cells ==>
      Interest(Run(s, ExitOps(cells)), p) == if Interest(s, p) == 0 then 0 else Interest(s, p) - 1
    decreases |cells|
  {
    if cells != [] {
      var init, x := cells[..|cells| - 1], cells[|cells| - 1];
      assert cells == init + [x];
      DistinctInit(cells);
      RunExitsAny(s, init);
      RunExitsSnoc(s, cells);
      forall p | p in cells ensures
        Interest(Run(s, ExitOps(cells)), p) == if Interest(s, p) == 0 then 0 else Interest(s, p) - 1
      {
        assert p in init || p == x;
      }
    }
  }

  /** Whether or not loading is allowed, a data-box change from prev to next
      leaves every block that some viewer still holds with at most its old
      refcount, less one if it left the box, plus one if it entered it. */
  lemma DiffBounded(s: PagingState, viewer: ViewerId, prev: Box, next: Box, canLoad: bool, notify: bool)
    requires Valid(s)
    ensures forall p :: var n := Interest(ProcessViewerDataBoxChange(s, viewer, prev, next, canLoad, notify), p);
      n == 0 || n + InBox(prev, p) <= Interest(s, p) + InBox(next, p)
  {
    var l, e := LeavingCells(prev, next), EnteringCells(prev, next);
    BoxDiff(prev, next);
    RunExitsAny(s, l);
    if canLoad {
      RunAppend(s, ExitOps(l), EnterOps(e, viewer, notify));
      RunEnters(Run(s, ExitOps(l)), e, viewer, notify);
    } else {
      assert ExitOps(l) + [] == ExitOps(l);
    }
  }

  /** A viewer that moves keeps the bound, whether or not loading is allowed. */
  lemma UpdateViewerBounded(s: PagingState, i: nat, newState: ViewerState, canLoad: bool, notify: bool)
    requires Valid(s) && Bounded(s) && i < |s.viewers|
    ensures Bounded(UpdateViewer(s, i, newState, canLoad, notify))
  {
    var v := s.viewers[i];
    var v' := PairedViewer(v.id, newState, v.state);
    var paired := s.(viewers := s.viewers[i := v']);
    DiffBounded(paired, v.id, v.state.dataBox, newState.dataBox, canLoad, notify);
    forall p ensures ViewersInRange(paired.viewers, p) + InBox(v.state.dataBox, p) ==
                     ViewersInRange(s.viewers, p) + InBox(newState.dataBox, p) {
      ViewersInRangeUpdate(s.viewers, i, v', p);
    }
  }

  /** process_viewers keeps the bound, whether or not loading is allowed. */
  lemma {:induction false} ProcessViewersBounded(s: PagingState, states: seq<ViewerState>, canLoad: bool, notify: bool)
    requires Valid(s) && Bounded(s) && |states| <= |s.viewers|
    ensures Bounded(ProcessViewers(s, states, canLoad, notify))
    decreases |states|
  {
    if states != [] {
      var k := |states| - 1;
      ProcessViewersBounded(s, states[..k], canLoad, notify);
      UpdateViewerBounded(ProcessViewers(s, states[..k], canLoad, notify), k, states[k], canLoad, notify);
    }
  }

  /** Pairing a viewer keeps the bound, whether or not loading is allowed. */
  lemma PairViewerBounded(s: PagingState, id: ViewerId, state: ViewerState, canLoad: bool, notify: bool)
    requires Valid(s) && Bounded(s)
    ensures Bounded(PairViewer(s, id, state, canLoad, notify))
  {
    var v := PairedViewer(id, state, ViewerState(EmptyBox(), EmptyBox()));
    var paired := s.(viewers := s.viewers + [v]);
    DiffBounded(paired, id, EmptyBox(), state.dataBox, canLoad, notify);
    forall p ensures ViewersInRange(paired.viewers, p) == ViewersInRange(s.viewers, p) + InBox(state.dataBox, p) {
      ViewersInRangeConcat(s.viewers, [v], p);
      ViewersInRangeSingle(v, p);
    }
  }

  /** Unpairing a viewer keeps the bound. */
  lemma UnpairViewerBounded(s: PagingState, i: nat)
    requires Valid(s) && Bounded(s) && i < |s.viewers|
    ensures Bounded(UnpairViewer(s, i))
  {
    var v := s.viewers[i];
    var unpaired := s.(viewers := s.viewers[..i] + s.viewers[i + 1..]);
    DiffBounded(unpaired, v.id, v.state.dataBox, EmptyBox(), false, false);
    forall p ensures ViewersInRange(unpaired.viewers, p) + InBox(v.state.dataBox, p) == ViewersInRange(s.viewers, p) {
      ViewersInRangeRemove(s.viewers, i, p);
    }
  }

  /** Every step except a bare entry keeps the bound: leaving lowers a
      refcount, and try_set_block_data and generate_block_async set it to the
      number of viewers in range. */
  lemma StepBounded(s: PagingState, op: Op)
    requires Valid(s) && Bounded(s) && !op.Enter?
    ensures Bounded(Step(s, op))
  {
    var t := Step(s, op);
    match op
    case Exit(p) =>
    case LoadDone(out) => {
      forall q ensures Interest(t, q) == Interest(s, q) {
        if q != out.position && Accepted(s, out) {
          assert q in t.loaded <==> q in s.loaded;
          assert q in t.loading <==> q in s.loading;
        }
      }
    }
    case SaveDone(p, voxels) =>
    case Edit(p, voxels) =>
    case SetData(p, voxels) => {
      forall q ensures Interest(t, q) <= ViewersInRange(t.viewers, q) {
        if q != p && TrySetBlockData(s, p, voxels).0 {
          assert q in t.loaded <==> q in s.loaded;
          assert q in t.loading <==> q in s.loading;
        }
      }
    }
    case Generate(p) => {
      forall q ensures Interest(t, q) <= ViewersInRange(t.viewers, q) {
        if q != p && p !in s.loaded && p !in s.loading {
          assert q in t.loaded <==> q in s.loaded;
          assert q in t.loading <==> q in s.loading;
        }
      }
    }
  }

  /** Replaying steps none of which is a bare entry keeps the bound. */
  lemma {:induction false} RunBounded(s: PagingState, ops: seq<Op>)
    requires Valid(s) && Bounded(s)
    requires forall i :: 0 <= i < |ops| ==> !ops[i].Enter?
    ensures Bounded(Run(s, ops))
    decreases |ops|
  {
    if ops != [] {
      RunBounded(s, ops[..|ops| - 1]);
      StepBounded(Run(s, ops[..|ops| - 1]), ops[|ops| - 1]);
    }
  }

  /** Sending the load requests and replaying the quick reloads keep the bound. */
  lemma SendAndReloadBounded(s: PagingState)
    requires Valid(s) && Bounded(s)
    ensures Bounded(SendDataLoadRequests(s))
    ensures Bounded(ProcessQuickReloads(SendDataLoadRequests(s)))
  {
    var t := SendDataLoadRequests(s);
    forall p ensures Interest(t, p) <= ViewersInRange(t.viewers, p) {
      assert Interest(t, p) == Interest(s, p);
    }
    var ops := QuickReloadOps(t.quickReloading, t.streamingEpoch);
    RunBounded(t, ops);
    var u := ProcessQuickReloads(t);
    forall p ensures Interest(u, p) <= ViewersInRange(u.viewers, p) {
      assert Interest(u, p) == Interest(Run(t, ops), p);
    }
  }
}
