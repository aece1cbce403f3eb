/** The order of the work lists does not matter. Two states are equivalent
    when they agree on everything except the order of the entries of their
    lists; every single-position step respects this equivalence, and steps on
    different positions commute up to it. Hence a batch of steps on distinct
    positions gives the same result in every order, and so do the passes that
    turn _blocks_pending_load, _blocks_pending_update and _blocks_to_save
    into jobs. */
module Commutation {
  import opened Blocks
  import opened Paging
  import opened Lists

  predicate Equiv(s: PagingState, t: PagingState) {
    && s.viewers == t.viewers
    && s.loaded == t.loaded && s.loading == t.loading && s.unloadedSaving == t.unloadedSaving
    && s.streamingEpoch == t.streamingEpoch && s.meshingEpoch == t.meshingEpoch
    && s.meshes == t.meshes
    && multiset(s.pendingLoad) == multiset(t.pendingLoad)
    && multiset(s.pendingUpdate) == multiset(t.pendingUpdate)
    && multiset(s.toSave) == multiset(t.toSave)
    && multiset(s.quickReloading) == multiset(t.quickReloading)
    && multiset(s.loadTasks) == multiset(t.loadTasks)
    && multiset(s.saveTasks) == multiset(t.saveTasks)
    && multiset(s.meshTasks) == multiset(t.meshTasks)
    && multiset(s.events) == multiset(t.events)
  }

  /** Equivalent states agree on the invariant. */
  lemma EquivValid(s: PagingState, t: PagingState)
    requires Equiv(s, t) && Valid(s)
    ensures Valid(t)
  {
    forall x | x in t.loadTasks ensures x.epoch <= t.streamingEpoch {
      assert x in multiset(t.loadTasks);
    }
    forall x | x in t.meshTasks ensures x.epoch <= t.meshingEpoch {
      assert x in multiset(t.meshTasks);
    }
  }

  datatype Option<T> = None | Some(value: T)

  function Lookup<V>(m: map<Vec3, V>, p: Vec3): Option<V> {
    if p in m then Some(m[p]) else None
  }

  /** Everything the three position-keyed maps hold about one position. */
  datatype Slot = Slot(block: Option<DataBlock>, entry: Option<LoadingBlock>, cached: Option<Buffer>)

  function SlotOf(s: PagingState, p: Vec3): Slot {
    Slot(Lookup(s.loaded, p), Lookup(s.loading, p), Lookup(s.unloadedSaving, p))
  }

  lemma MapsFromLookups<V>(m: map<Vec3, V>, n: map<Vec3, V>)
    requires forall q :: Lookup(m, q) == Lookup(n, q)
    ensures m == n
  {
    forall q | q in m ensures q in n && m[q] == n[q] {
      assert Lookup(m, q) == Lookup(n, q);
    }
    forall q | q in n ensures q in m {
      assert Lookup(m, q) == Lookup(n, q);
    }
  }

  /** Agreeing on every slot is agreeing on the three maps. */
  lemma MapsFromSlots(s: PagingState, t: PagingState)
    requires forall q :: SlotOf(s, q) == SlotOf(t, q)
    ensures s.loaded == t.loaded && s.loading == t.loading && s.unloadedSaving == t.unloadedSaving
  {
    forall q ensures Lookup(s.loaded, q) == Lookup(t.loaded, q) {
      assert SlotOf(s, q) == SlotOf(t, q);
    }
    forall q ensures Lookup(s.loading, q) == Lookup(t.loading, q) {
      assert SlotOf(s, q) == SlotOf(t, q);
    }
    forall q ensures Lookup(s.unloadedSaving, q) == Lookup(t.unloadedSaving, q) {
      assert SlotOf(s, q) == SlotOf(t, q);
    }
    MapsFromLookups(s.loaded, t.loaded);
    MapsFromLookups(s.loading, t.loading);
    MapsFromLookups(s.unloadedSaving, t.unloadedSaving);
  }

  /** A step at p leaves every other slot alone and only appends to the
      pending-load, to-save and event lists. */
  ghost predicate StepFrame(s: PagingState, t: PagingState, p: Vec3) {
    && SameContext(s, t)
    && (forall q :: q != p ==> SlotOf(t, q) == SlotOf(s, q))
    && s.pendingLoad <= t.pendingLoad && s.toSave <= t.toSave && s.events <= t.events
  }

  /** Two steps at p, from states s1 and s2, have the same effect: the same new
      slot at p and the same entries appended to each list. */
  ghost predicate SameEffect(s1: PagingState, t1: PagingState, s2: PagingState, t2: PagingState, p: Vec3)
    requires StepFrame(s1, t1, p) && StepFrame(s2, t2, p)
  {
    && SlotOf(t1, p) == SlotOf(t2, p)
    && t1.pendingLoad[|s1.pendingLoad|..] == t2.pendingLoad[|s2.pendingLoad|..]
    && t1.toSave[|s1.toSave|..] == t2.toSave[|s2.toSave|..]
    && t1.events[|s1.events|..] == t2.events[|s2.events|..]
  }

  /** Two states look the same from position p. */
  ghost predicate SameView(s1: PagingState, s2: PagingState, p: Vec3) {
    && SlotOf(s1, p) == SlotOf(s2, p)
    && s1.viewers == s2.viewers && s1.streamingEpoch == s2.streamingEpoch
  }

  lemma EnterFrame(s: PagingState, p: Vec3, v: ViewerId, n: bool)
    ensures StepFrame(s, EnterBlock(s, p, v, n), p)
  {
    var t := EnterBlock(s, p, v, n);
    forall q | q != p ensures SlotOf(t, q) == SlotOf(s, q) {
      if p in s.loaded {
        assert t.loaded == s.loaded[p := t.loaded[p]];
      } else if p in s.loading {
        assert t.loading == s.loading[p := t.loading[p]];
      } else {
        assert t.loading == s.loading[p := t.loading[p]];
      }
    }
  }

  lemma EnterLocal(s1: PagingState, s2: PagingState, p: Vec3, v: ViewerId, n: bool)
    requires SameView(s1, s2, p)
    ensures StepFrame(s1, EnterBlock(s1, p, v, n), p) && StepFrame(s2, EnterBlock(s2, p, v, n), p)
    ensures SameEffect(s1, EnterBlock(s1, p, v, n), s2, EnterBlock(s2, p, v, n), p)
  {
    EnterFrame(s1, p, v, n);
    EnterFrame(s2, p, v, n);
    assert SlotOf(s1, p).block == SlotOf(s2, p).block && SlotOf(s1, p).entry == SlotOf(s2, p).entry;
    var t1, t2 := EnterBlock(s1, p, v, n), EnterBlock(s2, p, v, n);
    if p in s1.loaded {
      assert s1.loaded[p] == s2.loaded[p];
      assert t1.events[|s1.events|..] == t2.events[|s2.events|..];
    } else if p in s1.loading {
      assert s1.loading[p] == s2.loading[p];
    } else {
      assert t1.pendingLoad[|s1.pendingLoad|..] == [p] == t2.pendingLoad[|s2.pendingLoad|..];
    }
  }

  lemma UnloadFrame(s: PagingState, p: Vec3)
    requires p in s.loaded
    ensures StepFrame(s, UnloadBlock(s, p), p)
  {
    var t := UnloadBlock(s, p);
    forall q | q != p ensures SlotOf(t, q) == SlotOf(s, q) {
      assert t.loaded == s.loaded - {p};
      if s.loaded[p].modified {
        assert t.unloadedSaving == s.unloadedSaving[p := s.loaded[p].voxels];
      }
    }
  }

  /** What unloading a resident block does at its own position. */
  lemma UnloadEffect(s: PagingState, p: Vec3)
    requires p in s.loaded
    ensures var t, b := UnloadBlock(s, p), s.loaded[p];
      && SlotOf(t, p) == Slot(None, Lookup(s.loading, p), if b.modified then Some(b.voxels) else Lookup(s.unloadedSaving, p))
      && t.pendingLoad == s.pendingLoad
      && t.toSave[|s.toSave|..] == (if b.modified then [BlockToSave(b.voxels, p)] else [])
      && t.events[|s.events|..] == [DataBlockUnloaded(p)]
  {
  }

  lemma UnloadLocal(s1: PagingState, s2: PagingState, p: Vec3)
    requires SameView(s1, s2, p) && p in s1.loaded && p in s2.loaded
    ensures StepFrame(s1, UnloadBlock(s1, p), p) && StepFrame(s2, UnloadBlock(s2, p), p)
    ensures SameEffect(s1, UnloadBlock(s1, p), s2, UnloadBlock(s2, p), p)
  {
    UnloadFrame(s1, p);
    UnloadFrame(s2, p);
    UnloadEffect(s1, p);
    UnloadEffect(s2, p);
    assert SlotOf(s1, p) == SlotOf(s2, p);
    assert s1.loaded[p] == s2.loaded[p];
  }

  lemma ExitFrame(s: PagingState, p: Vec3)
    requires Valid(s)
    ensures StepFrame(s, LeaveBlock(s, p), p)
  {
    var t := LeaveBlock(s, p);
    if p in s.loaded {
      if s.loaded[p].viewers > 1 {
        forall q | q != p ensures SlotOf(t, q) == SlotOf(s, q) {
          assert t.loaded == s.loaded[p := t.loaded[p]];
        }
      } else {
        UnloadFrame(s, p);
      }
    } else if p in s.loading {
      forall q | q != p ensures SlotOf(t, q) == SlotOf(s, q) {
        if s.loading[p].viewers > 1 {
          assert t.loading == s.loading[p := t.loading[p]];
        } else {
          assert t.loading == s.loading - {p};
        }
      }
    }
  }

  /** Leaving a resident block that keeps other viewers. */
  lemma ExitSharedLocal(s1: PagingState, s2: PagingState, p: Vec3)
    requires Valid(s1) && Valid(s2) && SameView(s1, s2, p)
    requires p in s1.loaded && p in s2.loaded && s1.loaded[p] == s2.loaded[p] && s1.loaded[p].viewers > 1
    ensures StepFrame(s1, LeaveBlock(s1, p), p) && StepFrame(s2, LeaveBlock(s2, p), p)
    ensures SameEffect(s1, LeaveBlock(s1, p), s2, LeaveBlock(s2, p), p)
  {
    ExitFrame(s1, p);
    ExitFrame(s2, p);
  }

  /** What leaving a loading block does at its own position. */
  lemma ExitLoadingEffect(s: PagingState, p: Vec3)
    requires Valid(s) && p !in s.loaded && p in s.loading
    ensures var t, lb := LeaveBlock(s, p), s.loading[p];
      && SlotOf(t, p) == Slot(None, if lb.viewers > 1 then Some(lb.(viewers := lb.viewers - 1)) else None,
                              Lookup(s.unloadedSaving, p))
      && t.pendingLoad == s.pendingLoad && t.toSave == s.toSave && t.events == s.events
  {
  }

  /** Leaving a block that is still loading. */
  lemma ExitLoadingLocal(s1: PagingState, s2: PagingState, p: Vec3)
    requires Valid(s1) && Valid(s2) && SameView(s1, s2, p)
    requires p !in s1.loaded && p !in s2.loaded
    requires p in s1.loading && p in s2.loading && s1.loading[p] == s2.loading[p]
    ensures StepFrame(s1, LeaveBlock(s1, p), p) && StepFrame(s2, LeaveBlock(s2, p), p)
    ensures SameEffect(s1, LeaveBlock(s1, p), s2, LeaveBlock(s2, p), p)
  {
    ExitFrame(s1, p);
    ExitFrame(s2, p);
    ExitLoadingEffect(s1, p);
    ExitLoadingEffect(s2, p);
    assert SlotOf(s1, p) == SlotOf(s2, p);
  }

  lemma ExitLocal(s1: PagingState, s2: PagingState, p: Vec3)
    requires Valid(s1) && Valid(s2) && SameView(s1, s2, p)
    ensures StepFrame(s1, LeaveBlock(s1, p), p) && StepFrame(s2, LeaveBlock(s2, p), p)
    ensures SameEffect(s1, LeaveBlock(s1, p), s2, LeaveBlock(s2, p), p)
  {
    assert SlotOf(s1, p).block == SlotOf(s2, p).block && SlotOf(s1, p).entry == SlotOf(s2, p).entry;
    if p in s1.loaded {
      assert s1.loaded[p] == s2.loaded[p];
      if s1.loaded[p].viewers > 1 {
        ExitSharedLocal(s1, s2, p);
      } else {
        UnloadLocal(s1, s2, p);
      }
    } else if p in s1.loading {
      assert s1.loading[p] == s2.loading[p];
      ExitLoadingLocal(s1, s2, p);
    } else {
      ExitFrame(s1, p);
      ExitFrame(s2, p);
    }
  }

  /** What a load response does at its own position. */
  lemma LoadDoneEffect(s: PagingState, out: LoadOutput)
    ensures var t, p := ApplyLoadResponse(s, out), out.position;
      && t.pendingLoad == s.pendingLoad && t.toSave == s.toSave
      && (Accepted(s, out) ==>
            && SlotOf(t, p) == Slot(Some(DataBlock(out.voxels, false, s.loading[p].viewers)), None, Lookup(s.unloadedSaving, p))
            && t.events[|s.events|..] == [DataBlockLoaded(p)] + EnteredEvents(p, s.loading[p].viewersToNotify))
      && (!Accepted(s, out) ==> t == s)
  {
  }

  lemma LoadDoneFrame(s: PagingState, out: LoadOutput)
    ensures StepFrame(s, ApplyLoadResponse(s, out), out.position)
  {
  }

  lemma LoadDoneLocal(s1: PagingState, s2: PagingState, out: LoadOutput)
    requires SameView(s1, s2, out.position)
    ensures StepFrame(s1, ApplyLoadResponse(s1, out), out.position)
    ensures StepFrame(s2, ApplyLoadResponse(s2, out), out.position)
    ensures SameEffect(s1, ApplyLoadResponse(s1, out), s2, ApplyLoadResponse(s2, out), out.position)
  {
    var p := out.position;
    LoadDoneFrame(s1, out);
    LoadDoneFrame(s2, out);
    LoadDoneEffect(s1, out);
    LoadDoneEffect(s2, out);
    assert SlotOf(s1, p) == SlotOf(s2, p);
    assert p in s1.loading <==> p in s2.loading;
    assert p in s1.unloadedSaving <==> p in s2.unloadedSaving;
  }

  lemma SaveDoneLocal(s1: PagingState, s2: PagingState, p: Vec3, voxels: Buffer)
    requires SameView(s1, s2, p)
    ensures StepFrame(s1, ApplySaveDone(s1, p, voxels), p) && StepFrame(s2, ApplySaveDone(s2, p, voxels), p)
    ensures SameEffect(s1, ApplySaveDone(s1, p, voxels), s2, ApplySaveDone(s2, p, voxels), p)
  {
    assert p in s1.unloadedSaving <==> p in s2.unloadedSaving by { assert SlotOf(s1, p).cached == SlotOf(s2, p).cached; }
  }

  lemma EditLocal(s1: PagingState, s2: PagingState, p: Vec3, voxels: Buffer)
    requires SameView(s1, s2, p)
    ensures StepFrame(s1, EditBlock(s1, p, voxels), p) && StepFrame(s2, EditBlock(s2, p, voxels), p)
    ensures SameEffect(s1, EditBlock(s1, p, voxels), s2, EditBlock(s2, p, voxels), p)
  {
    assert p in s1.loaded <==> p in s2.loaded by { assert SlotOf(s1, p).block == SlotOf(s2, p).block; }
  }

  lemma SetDataLocal(s1: PagingState, s2: PagingState, p: Vec3, voxels: Buffer)
    requires SameView(s1, s2, p)
    ensures StepFrame(s1, TrySetBlockData(s1, p, voxels).1, p)
    ensures StepFrame(s2, TrySetBlockData(s2, p, voxels).1, p)
    ensures SameEffect(s1, TrySetBlockData(s1, p, voxels).1, s2, TrySetBlockData(s2, p, voxels).1, p)
  {
  }

  lemma GenerateFrame(s: PagingState, p: Vec3)
    ensures StepFrame(s, GenerateBlockAsync(s, p), p)
  {
    var t := GenerateBlockAsync(s, p);
    forall q | q != p ensures SlotOf(t, q) == SlotOf(s, q) {
      if p !in s.loaded && p !in s.loading && ViewersInRange(s.viewers, p) > 0 {
        assert t.loading == s.loading[p := t.loading[p]];
      }
    }
  }

  lemma GenerateLocal(s1: PagingState, s2: PagingState, p: Vec3)
    requires SameView(s1, s2, p)
    ensures StepFrame(s1, GenerateBlockAsync(s1, p), p) && StepFrame(s2, GenerateBlockAsync(s2, p), p)
    ensures SameEffect(s1, GenerateBlockAsync(s1, p), s2, GenerateBlockAsync(s2, p), p)
  {
    GenerateFrame(s1, p);
    GenerateFrame(s2, p);
    assert SlotOf(s1, p).block == SlotOf(s2, p).block && SlotOf(s1, p).entry == SlotOf(s2, p).entry;
    var t1, t2 := GenerateBlockAsync(s1, p), GenerateBlockAsync(s2, p);
    if p !in s1.loaded && p !in s1.loading && ViewersInRange(s1.viewers, p) > 0 {
      assert t1.pendingLoad[|s1.pendingLoad|..] == [p] == t2.pendingLoad[|s2.pendingLoad|..];
    }
  }

  /** Every step is local to its position: it changes nothing elsewhere, and
      what it does depends only on what the state holds at that position. */
  lemma StepLocal(s1: PagingState, s2: PagingState, op: Op)
    requires Valid(s1) && Valid(s2) && SameView(s1, s2, OpPos(op))
    ensures StepFrame(s1, Step(s1, op), OpPos(op)) && StepFrame(s2, Step(s2, op), OpPos(op))
    ensures SameEffect(s1, Step(s1, op), s2, Step(s2, op), OpPos(op))
  {
    match op
    case Enter(p, v, n) => EnterLocal(s1, s2, p, v, n);
    case Exit(p) => ExitLocal(s1, s2, p);
    case LoadDone(out) => LoadDoneLocal(s1, s2, out);
    case SaveDone(p, voxels) => SaveDoneLocal(s1, s2, p, voxels);
    case Edit(p, voxels) => EditLocal(s1, s2, p, voxels);
    case SetData(p, voxels) => SetDataLocal(s1, s2, p, voxels);
    case Generate(p) => GenerateLocal(s1, s2, p);
  }

  lemma SplitAt<T>(a: seq<T>, b: seq<T>)
    requires a <= b
    ensures b == a + b[|a|..]
  {
  }

  /** Every single-position step respects equivalence. */
  lemma StepCongruent(s: PagingState, t: PagingState, op: Op)
    requires Valid(s) && Valid(t) && Equiv(s, t)
    ensures Equiv(Step(s, op), Step(t, op))
  {
    var p := OpPos(op);
    var s', t' := Step(s, op), Step(t, op);
    StepLocal(s, t, op);
    forall q ensures SlotOf(s', q) == SlotOf(t', q) {
      if q != p { assert SlotOf(s, q) == SlotOf(t, q); }
    }
    MapsFromSlots(s', t');
    SplitAt(s.pendingLoad, s'.pendingLoad);
    SplitAt(t.pendingLoad, t'.pendingLoad);
    SplitAt(s.toSave, s'.toSave);
    SplitAt(t.toSave, t'.toSave);
    SplitAt(s.events, s'.events);
    SplitAt(t.events, t'.events);
  }

  /** Two lists each grown from x by the same two suffixes, in opposite
      orders, hold the same entries. */
  lemma AppendsCommute<T>(x: seq<T>, y1: seq<T>, z1: seq<T>, y2: seq<T>, z2: seq<T>)
    requires x <= y1 <= z1 && x <= y2 <= z2
    requires y1[|x|..] == z2[|y2|..] && y2[|x|..] == z1[|y1|..]
    ensures multiset(z1) == multiset(z2)
  {
    SplitAt(x, y1);
    SplitAt(y1, z1);
    SplitAt(x, y2);
    SplitAt(y2, z2);
  }

  /** Steps on different positions commute. */
  lemma StepsCommute(s: PagingState, a: Op, b: Op)
    requires Valid(s) && OpPos(a) != OpPos(b)
    ensures Equiv(Step(Step(s, a), b), Step(Step(s, b), a))
  {
    var pa, pb := OpPos(a), OpPos(b);
    var ta, tb := Step(s, a), Step(s, b);
    var uab, uba := Step(ta, b), Step(tb, a);
    StepLocal(s, s, a);
    StepLocal(s, s, b);
    assert SlotOf(ta, pb) == SlotOf(s, pb);
    assert SlotOf(tb, pa) == SlotOf(s, pa);
    StepLocal(ta, s, b);
    StepLocal(tb, s, a);
    forall q ensures SlotOf(uab, q) == SlotOf(uba, q) {
      if q != pa && q != pb {
        calc {
          SlotOf(uab, q);
          SlotOf(ta, q);
          SlotOf(s, q);
          SlotOf(tb, q);
          SlotOf(uba, q);
        }
      }
    }
    MapsFromSlots(uab, uba);
    AppendsCommute(s.pendingLoad, ta.pendingLoad, uab.pendingLoad, tb.pendingLoad, uba.pendingLoad);
    AppendsCommute(s.toSave, ta.toSave, uab.toSave, tb.toSave, uba.toSave);
    AppendsCommute(s.events, ta.events, uab.events, tb.events, uba.events);
  }

  /** Two steps may be swapped: they are the same step, or they are on
      different positions. */
  predicate Independent(a: Op, b: Op) {
    a == b || OpPos(a) != OpPos(b)
  }

  /** Every two entries of the batch may be swapped. */
  predicate Swappable(ops: seq<Op>) {
    forall i, j :: 0 <= i < |ops| && 0 <= j < |ops| ==> Independent(ops[i], ops[j])
  }

  lemma EquivTrans(s: PagingState, t: PagingState, u: PagingState)
    requires Equiv(s, t) && Equiv(t, u)
    ensures Equiv(s, u)
  {
  }

  lemma RunSnoc(s: PagingState, ops: seq<Op>, op: Op)
    requires Valid(s)
    ensures Run(s, ops + [op]) == Step(Run(s, ops), op)
  {
    assert (ops + [op])[..|ops|] == ops;
  }

  /** The step that extends a prefix of a batch of load responses. */
  lemma RunLoadSnoc(s: PagingState, ops: seq<Op>, i: nat)
    requires Valid(s) && i < |ops| && ops[i].LoadDone?
    ensures Run(s, ops[..i + 1]) == ApplyLoadResponse(Run(s, ops[..i]), ops[i].out)
  {
    var init := ops[..i + 1][..i];
    assert init == ops[..i];
    assert Run(s, ops[..i + 1]) == Step(Run(s, init), ops[i]);
  }

  /** Running two batches one after the other is running their concatenation. */
  lemma {:induction false} RunAppend(s: PagingState, a: seq<Op>, b: seq<Op>)
    requires Valid(s)
    ensures Run(s, a + b) == Run(Run(s, a), b)
    decreases |b|
  {
    if b == [] {
      assert a + b == a;
    } else {
      var b', x := b[..|b| - 1], b[|b| - 1];
      assert a + b == (a + b') + [x];
      RunAppend(s, a, b');
      RunSnoc(s, a + b', x);
    }
  }

  /** A batch respects equivalence of the state it starts from. */
  lemma {:induction false} RunCongruent(s: PagingState, t: PagingState, ops: seq<Op>)
    requires Valid(s) && Valid(t) && Equiv(s, t)
    ensures Equiv(Run(s, ops), Run(t, ops))
    decreases |ops|
  {
    if ops != [] {
      var init := ops[..|ops| - 1];
      RunCongruent(s, t, init);
      StepCongruent(Run(s, init), Run(t, init), ops[|ops| - 1]);
    }
  }

  /** One swap of adjacent steps, from a state equivalent to having taken x. */
  lemma SwapLast(u: PagingState, r: PagingState, x: Op, y: Op)
    requires Valid(u) && Valid(r) && Equiv(r, Step(u, x)) && Independent(x, y)
    ensures Equiv(Step(r, y), Step(Step(u, y), x))
  {
    StepCongruent(r, Step(u, x), y);
    if x != y {
      StepsCommute(u, x, y);
    }
    EquivTrans(Step(r, y), Step(Step(u, x), y), Step(Step(u, y), x));
  }

  /** Running a + [x] + (b' + [y]) ends with the step y. */
  lemma RunLastOf(s: PagingState, c: seq<Op>, b': seq<Op>, y: Op)
    requires Valid(s)
    ensures Run(s, c + (b' + [y])) == Step(Run(s, c + b'), y)
  {
    assert c + (b' + [y]) == (c + b') + [y];
    RunSnoc(s, c + b', y);
  }

  /** Running a + (b' + [y]) + [x] ends with the steps y and x. */
  lemma RunLastTwo(s: PagingState, a: seq<Op>, b': seq<Op>, y: Op, x: Op)
    requires Valid(s)
    ensures Run(s, a + (b' + [y]) + [x]) == Step(Step(Run(s, a + b'), y), x)
  {
    RunLastOf(s, a, b', y);
    RunSnoc(s, a + (b' + [y]), x);
  }

  /** A step independent of all the steps after it may be moved to the end. */
  lemma {:induction false} MoveToEnd(s: PagingState, a: seq<Op>, x: Op, b: seq<Op>)
    requires Valid(s)
    requires forall y :: y in b ==> Independent(x, y)
    ensures Equiv(Run(s, a + [x] + b), Run(s, a + b + [x]))
    decreases |b|
  {
    if b == [] {
      assert a + [x] + b == a + b + [x];
    } else {
      var b', y := b[..|b| - 1], b[|b| - 1];
      assert b == b' + [y];
      MoveToEnd(s, a, x, b');
      RunLastOf(s, a + [x], b', y);
      RunSnoc(s, a + b', x);
      RunLastTwo(s, a, b', y, x);
      SwapLast(Run(s, a + b'), Run(s, a + [x] + b'), x, y);
    }
  }

  /** Taking one step out of a swappable batch leaves a swappable batch, and
      that step may be swapped with every step after it. */
  lemma SwappableRemove(ops: seq<Op>, k: nat)
    requires Swappable(ops) && k < |ops|
    ensures Swappable(ops[..k] + ops[k + 1..])
    ensures forall y :: y in ops[k + 1..] ==> Independent(ops[k], y)
  {
    var rest := ops[..k] + ops[k + 1..];
    forall i, j | 0 <= i < |rest| && 0 <= j < |rest| ensures Independent(rest[i], rest[j]) {
      var i1 := if i < k then i else i + 1;
      var j1 := if j < k then j else j + 1;
      assert rest[i] == ops[i1] && rest[j] == ops[j1];
    }
    forall y | y in ops[k + 1..] ensures Independent(ops[k], y) {
      var j :| 0 <= j < |ops[k + 1..]| && ops[k + 1..][j] == y;
      assert ops[k + 1 + j] == y;
    }
  }

  /** A batch of pairwise swappable steps gives the same result, up to the
      order of the work lists, in every order. */
  lemma {:induction false} RunPermutation(s: PagingState, ops1: seq<Op>, ops2: seq<Op>)
    requires Valid(s) && Swappable(ops1) && multiset(ops1) == multiset(ops2)
    ensures Equiv(Run(s, ops1), Run(s, ops2))
    decreases |ops2|
  {
    if ops2 != [] {
      var ops2', x := ops2[..|ops2| - 1], ops2[|ops2| - 1];
      assert ops2 == ops2' + [x];
      assert x in multiset(ops1);
      var k :| 0 <= k < |ops1| && ops1[k] == x;
      RemoveAt(ops1, k);
      SwappableRemove(ops1, k);
      var a, b := ops1[..k], ops1[k + 1..];
      RunPermutation(s, a + b, ops2');
      MoveOutLast(s, a, x, b, ops2');
    }
  }

  /** If a + b runs like ops and x is independent of every step of b, then
      a + [x] + b runs like ops followed by x. */
  lemma MoveOutLast(s: PagingState, a: seq<Op>, x: Op, b: seq<Op>, ops: seq<Op>)
    requires Valid(s) && forall y :: y in b ==> Independent(x, y)
    requires Equiv(Run(s, a + b), Run(s, ops))
    ensures Equiv(Run(s, a + [x] + b), Run(s, ops + [x]))
  {
    MoveToEnd(s, a, x, b);
    RunSnocCongruent(s, a + b, ops, x);
    EquivTrans(Run(s, a + [x] + b), Run(s, a + b + [x]), Run(s, ops + [x]));
  }

  /** Equivalent runs stay equivalent after one more step. */
  lemma RunSnocCongruent(s: PagingState, p: seq<Op>, q: seq<Op>, x: Op)
    requires Valid(s) && Equiv(Run(s, p), Run(s, q))
    ensures Equiv(Run(s, p + [x]), Run(s, q + [x]))
  {
    RunSnoc(s, p, x);
    RunSnoc(s, q, x);
    StepCongruent(Run(s, p), Run(s, q), x);
  }

  /** Steps on pairwise distinct positions are swappable. */
  lemma DistinctSwappable(ops: seq<Op>)
    requires Distinct(MapSeq(OpPos, ops))
    ensures Swappable(ops)
  {
    forall i, j | 0 <= i < |ops| && 0 <= j < |ops| ensures Independent(ops[i], ops[j]) {
      if i < j {
        assert MapSeq(OpPos, ops)[i] != MapSeq(OpPos, ops)[j];
      } else if j < i {
        assert MapSeq(OpPos, ops)[j] != MapSeq(OpPos, ops)[i];
      }
    }
  }

  /** The blocks a diff visits, in order. */
  lemma DiffPositions(prev: Box, next: Box, viewer: ViewerId, canLoad: bool, notify: bool)
    ensures MapSeq(OpPos, DiffOps(prev, next, viewer, canLoad, notify)) ==
            LeavingCells(prev, next) + (if canLoad then EnteringCells(prev, next) else [])
  {
    var l, e := LeavingCells(prev, next), EnteringCells(prev, next);
    var diff := DiffOps(prev, next, viewer, canLoad, notify);
    var entered := if canLoad then e else [];
    assert |MapSeq(OpPos, diff)| == |l + entered|;
    forall i | 0 <= i < |diff| ensures MapSeq(OpPos, diff)[i] == (l + entered)[i] {
      if i < |l| {
        assert diff[i] == ExitOps(l)[i];
      } else {
        assert diff[i] == EnterOps(e, viewer, notify)[i - |l|];
      }
    }
  }

  /** process_viewer_data_box_change visits every block of the diff once, so
      the order in which the leaving and entering blocks are visited (and
      whether exits come before entries) does not change the outcome. */
  lemma DiffOrderIrrelevant(s: PagingState, viewer: ViewerId, prev: Box, next: Box,
                            canLoad: bool, notify: bool, ops: seq<Op>)
    requires Valid(s)
    requires multiset(ops) == multiset(DiffOps(prev, next, viewer, canLoad, notify))
    ensures Equiv(Run(s, ops), ProcessViewerDataBoxChange(s, viewer, prev, next, canLoad, notify))
  {
    var l := LeavingCells(prev, next);
    BoxDiff(prev, next);
    DiffPositions(prev, next, viewer, canLoad, notify);
    if !canLoad {
      assert l + [] == l;
    }
    var diff := DiffOps(prev, next, viewer, canLoad, notify);
    DistinctSwappable(diff);
    RunPermutation(s, diff, ops);
  }

  /** Quick reloads are compatible when two for the same position carry the
      same voxels. */
  predicate Compatible(qs: seq<QuickReloadingBlock>) {
    forall i, j :: 0 <= i < |qs| && 0 <= j < |qs| && qs[i].position == qs[j].position ==> qs[i] == qs[j]
  }

  /** One pass of send_data_load_requests reads each hit from the same cache,
      so its quick reloads are compatible. */
  lemma QuickReloadsCompatible(pending: seq<Vec3>, cache: map<Vec3, Buffer>)
    ensures Compatible(QuickReloads(pending, cache))
  {
    var qs := QuickReloads(pending, cache);
    forall i, j | 0 <= i < |qs| && 0 <= j < |qs| && qs[i].position == qs[j].position ensures qs[i] == qs[j] {
      assert qs[i] in qs && qs[j] in qs;
    }
  }

  /** The quick reloads are replayed with the same result in any order, from
      equivalent states. */
  lemma QuickReloadOrderIrrelevant(s: PagingState, t: PagingState)
    requires Valid(s) && Valid(t) && Equiv(s, t) && Compatible(s.quickReloading)
    ensures Equiv(ProcessQuickReloads(s), ProcessQuickReloads(t))
  {
    var f := (q: QuickReloadingBlock) => LoadDone(LoadOutput(q.position, q.voxels, s.streamingEpoch, true));
    var ops1, ops2 := QuickReloadOps(s.quickReloading, s.streamingEpoch), QuickReloadOps(t.quickReloading, t.streamingEpoch);
    assert ops1 == MapSeq(f, s.quickReloading);
    assert ops2 == MapSeq(f, t.quickReloading);
    MapSeqPermutation(f, s.quickReloading, t.quickReloading);
    forall i, j | 0 <= i < |ops1| && 0 <= j < |ops1| ensures Independent(ops1[i], ops1[j]) {
    }
    RunPermutation(s, ops1, ops2);
    RunCongruent(s, t, ops2);
    EquivTrans(Run(s, ops1), Run(s, ops2), Run(t, ops2));
  }

  /** send_data_load_requests gives the same jobs and quick reloads, counted
      as multisets, whatever the order of _blocks_pending_load. */
  lemma SendCongruent(s: PagingState, t: PagingState)
    requires Equiv(s, t)
    ensures Equiv(SendDataLoadRequests(s), SendDataLoadRequests(t))
  {
    FlatMapPermutation(QuickReloadOf(s.unloadedSaving), s.pendingLoad, t.pendingLoad);
    FlatMapPermutation(LoadRequestOf(s.unloadedSaving, s.streamingEpoch), s.pendingLoad, t.pendingLoad);
  }

  /** consume_block_data_save_requests does not depend on the order of
      _blocks_to_save. */
  lemma ConsumeSaveCongruent(s: PagingState, t: PagingState)
    requires Equiv(s, t)
    ensures Equiv(ConsumeSaveRequests(s), ConsumeSaveRequests(t))
  {
  }

  /** process_meshing does not depend on the order of _blocks_pending_update. */
  lemma MeshingCongruent(s: PagingState, t: PagingState)
    requires Equiv(s, t)
    ensures Equiv(ProcessMeshing(s), ProcessMeshing(t))
  {
    var f := (p: Vec3) => MeshTask(p, s.meshingEpoch);
    assert MeshRequests(s.pendingUpdate, s.meshingEpoch) == MapSeq(f, s.pendingUpdate);
    assert MeshRequests(t.pendingUpdate, t.meshingEpoch) == MapSeq(f, t.pendingUpdate);
    MapSeqPermutation(f, s.pendingUpdate, t.pendingUpdate);
  }
}
