/** Runs of `LogMachine` put together from shorter ones: single steps, a whole bread, one call of log_write. */
module LogRuns {
  import opened Blocks
  import opened CacheModel
  import opened LogDisk
  import opened LogMachine
  import opened LogInvariant
  import opened LogCore
  import opened LogSteps
  import opened LogRoom

  lemma {:induction false} RunConcat(L: Layout, s: State, steps: seq<Step>, more: seq<Step>)
    requires LayoutOk(L) && IsRun(L, s, steps) && IsRun(L, After(L, s, steps), more)
    ensures IsRun(L, s, steps + more) && After(L, s, steps + more) == After(L, After(L, s, steps), more)
    decreases |steps|
  {
    hide Enabled, Apply;
    if steps == [] {
      assert [] + more == more;
    } else {
      RunConcat(L, Apply(L, s, steps[0]), steps[1..], more);
      assert (steps + more)[1..] == steps[1..] + more;
    }
  }

  lemma RunOne(L: Layout, s: State, st: Step)
    requires LayoutOk(L) && Enabled(L, s, st)
    ensures IsRun(L, s, [st]) && After(L, s, [st]) == Apply(L, s, st)
  {
    hide Enabled, Apply;
    assert [st][1..] == [];
  }

  /** Steps commit and recovery are made of: no client step, no power failure. */
  predicate Internal(st: Step) {
    !(st.BeginOp? || st.EndOp? || st.Modify? || st.TestLog? || st.LogWrite? || st.Crash?)
  }

  ghost predicate RunTo(L: Layout, s: State, steps: seq<Step>, s': State)
    requires LayoutOk(L)
  {
    IsRun(L, s, steps) && After(L, s, steps) == s'
  }

  /** Some run leads from s to s'. */
  ghost predicate Path(L: Layout, s: State, s': State)
    requires LayoutOk(L)
  {
    exists steps :: RunTo(L, s, steps, s')
  }

  /** Some run of internal steps leads from s to s'. */
  ghost predicate Reaches(L: Layout, s: State, s': State)
    requires LayoutOk(L)
  {
    exists steps :: RunTo(L, s, steps, s') && forall k :: 0 <= k < |steps| ==> Internal(steps[k])
  }

  lemma ReachesSelf(L: Layout, s: State)
    requires LayoutOk(L)
    ensures Reaches(L, s, s)
  {
    assert RunTo(L, s, [], s);
  }

  lemma ReachesTrans(L: Layout, s: State, m: State, s': State)
    requires LayoutOk(L) && Reaches(L, s, m) && Reaches(L, m, s')
    ensures Reaches(L, s, s')
  {
    hide IsRun, After;
    var a :| RunTo(L, s, a, m) && forall k :: 0 <= k < |a| ==> Internal(a[k]);
    var b :| RunTo(L, m, b, s') && forall k :: 0 <= k < |b| ==> Internal(b[k]);
    RunConcat(L, s, a, b);
    assert RunTo(L, s, a + b, s');
  }

  lemma ReachesStep(L: Layout, s: State, st: Step)
    requires LayoutOk(L) && Enabled(L, s, st) && Internal(st)
    ensures Reaches(L, s, Apply(L, s, st))
  {
    hide Enabled, Apply, IsRun, After;
    RunOne(L, s, st);
    assert RunTo(L, s, [st], Apply(L, s, st));
  }

  lemma PathTrans(L: Layout, s: State, m: State, s': State)
    requires LayoutOk(L) && Path(L, s, m) && Path(L, m, s')
    ensures Path(L, s, s')
  {
    hide IsRun, After;
    var a :| RunTo(L, s, a, m);
    var b :| RunTo(L, m, b, s');
    RunConcat(L, s, a, b);
    assert RunTo(L, s, a + b, s');
  }

  /** One more step at the end of a run. */
  lemma PathStep(L: Layout, s: State, m: State, st: Step)
    requires LayoutOk(L) && Path(L, s, m) && Core(L, m) && Enabled(L, m, st)
    ensures Path(L, s, Apply(L, m, st)) && Core(L, Apply(L, m, st))
  {
    hide Enabled, Apply, IsRun, After, Core;
    StepCore(L, m, st);
    RunOne(L, m, st);
    assert RunTo(L, m, [st], Apply(L, m, st));
    PathTrans(L, s, m, Apply(L, m, st));
  }

  lemma PathSelf(L: Layout, s: State)
    requires LayoutOk(L)
    ensures Path(L, s, s)
  {
    assert RunTo(L, s, [], s);
  }

  /** A whole bread by p: reference, lock, and read if the buffer was not valid. */
  lemma BreadRuns(L: Layout, s: State, p: nat, b: nat, i: nat)
    requires LayoutOk(L) && CanRef(L, s, p, b) && b < |s.disk|
    requires Choose(s.cache, ROOTDEV, b) == Some(i) && i < |s.cache.bufs| && s.cache.bufs[i].holder.None?
    ensures var s' := s.(cache := Loaded(s.cache, s.disk, ROOTDEV, b, p));
            Reaches(L, s, s') && Owns(s', p, i, b)
  {
    hide Reaches, RunTo;
    ChooseMeaning(s.cache, ROOTDEV, b);
    var s1 := DoRef(L, s, p, b);
    ReachesStep(L, s, Ref(p, b));
    var s2 := DoLock(s1, p);
    ReachesStep(L, s1, Lock(p));
    ReachesTrans(L, s, s1, s2);
    assert s2.procs == s.procs;
    var s' := s.(cache := Loaded(s.cache, s.disk, ROOTDEV, b, p));
    if s2.cache.bufs[i].valid {
      assert s2.cache.bufs == s'.cache.bufs;
    } else {
      ReachesStep(L, s2, Fill(p, i));
      ReachesTrans(L, s, s2, DoFill(s2, p, i));
      assert DoFill(s2, p, i).cache.bufs == s'.cache.bufs;
    }
  }

  lemma LockedVol(L: Layout, s: State, p: nat, b: nat)
    requires LayoutOk(L) && Core(L, s) && CanRef(L, s, p, b) && b < L.size && CanLock(DoRef(L, s, p, b), p)
    ensures var s2 := DoLock(DoRef(L, s, p, b), p);
            Core(L, s2) && |s.disk| == |s2.disk| == L.size && SameVol(L, s, s2)
  {
    var s1 := DoRef(L, s, p, b);
    RefCore(L, s, p, b);
    RefVol(L, s, p, b);
    LockCore(L, s1, p);
    LockVol(L, s1, p);
    hide Core, VolAt, SameVol, CanRef, DoRef;
    VolTrans(L, s, s1, DoLock(s1, p));
  }

  lemma FilledVol(L: Layout, s: State, s2: State, p: nat, i: nat)
    requires LayoutOk(L) && Core(L, s2) && |s.disk| == |s2.disk| == L.size && SameVol(L, s, s2) && CanFill(s2, p, i)
    ensures SameVol(L, s, DoFill(s2, p, i))
  {
    FillCore(L, s2, p, i);
    FillVol(L, s2, p, i);
    hide Core, VolAt, SameVol;
    VolTrans(L, s, s2, DoFill(s2, p, i));
  }

  /** It changes nothing that readers see. */
  lemma BreadVol(L: Layout, s: State, p: nat, b: nat, i: nat)
    requires LayoutOk(L) && Core(L, s) && CanRef(L, s, p, b) && b < L.size
    requires Choose(s.cache, ROOTDEV, b) == Some(i) && i < |s.cache.bufs| && s.cache.bufs[i].holder.None?
    ensures |s.disk| == L.size && SameVol(L, s, s.(cache := Loaded(s.cache, s.disk, ROOTDEV, b, p)))
  {
    hide Core, VolAt, SameVol;
    ChooseMeaning(s.cache, ROOTDEV, b);
    LockedVol(L, s, p, b);
    var s2 := DoLock(DoRef(L, s, p, b), p);
    assert s2.procs == s.procs;
    var s' := s.(cache := Loaded(s.cache, s.disk, ROOTDEV, b, p));
    if s2.cache.bufs[i].valid {
      assert s2.cache.bufs == s'.cache.bufs;
    } else {
      FilledVol(L, s, s2, p, i);
      assert DoFill(s2, p, i).cache.bufs == s'.cache.bufs;
    }
  }

  // ----- which buffers are referenced

  /** Nobody is between bget and acquiresleep. */
  ghost predicate Idle(procs: seq<Proc>) {
    forall p :: 0 <= p < |procs| ==> procs[p].waits.None?
  }

  lemma {:induction false} NoWaiters(procs: seq<Proc>, i: nat)
    requires Idle(procs)
    ensures Waiters(procs, i) == 0
    decreases |procs|
  {
    if procs != [] {
      NoWaiters(procs[..|procs| - 1], i);
    }
  }

  /** used lists the pinned blocks and those of locked buffers. */
  ghost predicate UsesOnly(s: State, used: seq<nat>) {
    && (forall b :: b in Pins(s) ==> b in used)
    && forall i :: 0 <= i < |s.cache.bufs| && s.cache.bufs[i].holder.Some? ==> s.cache.bufs[i].blockno in used
  }

  /** Then bget finds a buffer for any other block, and nobody holds it. */
  lemma FreeBuffer(L: Layout, s: State, used: seq<nat>, b: nat)
    requires LayoutOk(L) && CacheOk(L, s) && Idle(s.procs) && UsesOnly(s, used) && |used| < |s.cache.bufs|
    requires b !in used
    ensures Choose(s.cache, ROOTDEV, b).Some?
    ensures var i := Choose(s.cache, ROOTDEV, b).value; i < |s.cache.bufs| && s.cache.bufs[i].holder.None?
  {
    var bufs := s.cache.bufs;
    ChooseMeaning(s.cache, ROOTDEV, b);
    forall i | 0 <= i < |bufs| && bufs[i].refcnt > 0 ensures bufs[i].dev == ROOTDEV && bufs[i].blockno in used {
      assert CountOk(s, i) && DevOk(L, bufs[i]);
      NoWaiters(s.procs, i);
    }
    if Choose(s.cache, ROOTDEV, b).None? {
      ReferencedFit(s, used);
    } else {
      var i := Choose(s.cache, ROOTDEV, b).value;
      assert CountOk(s, i);
    }
  }

  lemma ReferencedFit(s: State, used: seq<nat>)
    requires Unique(s.cache)
    requires forall i :: 0 <= i < |s.cache.bufs| ==> s.cache.bufs[i].dev == ROOTDEV && s.cache.bufs[i].blockno in used
    ensures |s.cache.bufs| <= |used|
  {
    var bufs := s.cache.bufs;
    var held := seq(|bufs|, i requires 0 <= i < |bufs| => bufs[i].blockno);
    assert Distinct(held) by {
      forall i, j | 0 <= i < j < |held| ensures held[i] != held[j] {
        assert !Holds(bufs[j], bufs[i].dev, bufs[i].blockno);
      }
    }
    DistinctCount(held);
    FewElements(used, Elements(held));
  }

  /** Nothing but buffer i changes. */
  ghost predicate OthersSame(s: State, s': State, i: nat) {
    && s' == s.(cache := s'.cache) && |s'.cache.bufs| == |s.cache.bufs|
    && forall j :: 0 <= j < |s.cache.bufs| && j != i ==> s'.cache.bufs[j] == s.cache.bufs[j]
  }

  /** bread of a block that is neither pinned nor locked, while a buffer is left for it. */
  lemma Take(L: Layout, s0: State, s: State, p: nat, b: nat, used: seq<nat>) returns (i: nat, s': State)
    requires LayoutOk(L) && Path(L, s0, s) && Core(L, s)
    requires p < |s.procs| && s.procs[p].passed.None? && MayAccess(L, s, p, b) && b < L.size
    requires Idle(s.procs) && UsesOnly(s, used) && b !in used && |used| < |s.cache.bufs|
    ensures Path(L, s0, s') && Core(L, s') && Owns(s', p, i, b) && OthersSame(s, s', i)
    ensures UsesOnly(s', used + [b]) && s.cache.bufs[i].holder.None?
    ensures |s.disk| == L.size && SameVol(L, s, s')
  {
    FreeBuffer(L, s, used, b);
    i := Choose(s.cache, ROOTDEV, b).value;
    s' := LockFound(L, s0, s, p, b, i);
  }

  /** bread of a block whose buffer is valid and unlocked. */
  lemma TakeCached(L: Layout, s0: State, s: State, p: nat, b: nat) returns (i: nat, s': State)
    requires LayoutOk(L) && Path(L, s0, s) && Core(L, s)
    requires p < |s.procs| && s.procs[p].passed.None? && s.procs[p].waits.None? && MayAccess(L, s, p, b) && b < L.size
    requires Cached(s, b)
    requires forall i :: 0 <= i < |s.cache.bufs| && s.cache.bufs[i].holder.Some? ==> !Holds(s.cache.bufs[i], ROOTDEV, b)
    ensures Path(L, s0, s') && Core(L, s') && Owns(s', p, i, b) && OthersSame(s, s', i)
    ensures s.cache.bufs[i].holder.None?
    ensures |s.disk| == L.size && SameVol(L, s, s')
  {
    ChooseMeaning(s.cache, ROOTDEV, b);
    i :| CachedIn(s, i, b);
    i := Choose(s.cache, ROOTDEV, b).value;
    s' := LockFound(L, s0, s, p, b, i);
  }

  lemma LockFound(L: Layout, s0: State, s: State, p: nat, b: nat, i: nat) returns (s': State)
    requires LayoutOk(L) && Path(L, s0, s) && Core(L, s)
    requires p < |s.procs| && s.procs[p].passed.None? && s.procs[p].waits.None? && MayAccess(L, s, p, b) && b < L.size
    requires Choose(s.cache, ROOTDEV, b) == Some(i) && i < |s.cache.bufs| && s.cache.bufs[i].holder.None?
    ensures Path(L, s0, s') && Core(L, s') && Owns(s', p, i, b) && OthersSame(s, s', i)
    ensures |s.disk| == L.size && SameVol(L, s, s')
  {
    BreadRuns(L, s, p, b, i);
    BreadVol(L, s, p, b, i);
    s' := s.(cache := Loaded(s.cache, s.disk, ROOTDEV, b, p));
    hide Core, Choose, Loaded, MayAccess, CanRef, SameVol;
    ReachesIsPath(L, s0, s, s');
  }

  lemma ReachesIsPath(L: Layout, s0: State, s: State, s': State)
    requires LayoutOk(L) && Path(L, s0, s) && Core(L, s) && Reaches(L, s, s')
    ensures Path(L, s0, s') && Core(L, s')
  {
    hide IsRun, After, Core;
    var steps :| RunTo(L, s, steps, s') && forall k :: 0 <= k < |steps| ==> Internal(steps[k]);
    assert Path(L, s, s');
    PathTrans(L, s0, s, s');
    RunCore(L, s, steps);
  }
}
