/** The invariants of `LogMachine`. Core is kept by every step of every process and by crashes, whatever the
    sizes; Inv says in addition what the disk holds, for as long as the list fits the log region. */
module LogInvariant {
  import opened Blocks
  import opened CacheModel
  import opened LogDisk
  import opened LogMachine

  ghost function Ops(procs: seq<Proc>): nat {
    if procs == [] then 0
    else Ops(procs[..|procs| - 1]) + OpCount(procs[|procs| - 1])
  }

  /** Log space the running operations may still claim. */
  ghost function Unspent(procs: seq<Proc>): nat {
    if procs == [] then 0
    else Unspent(procs[..|procs| - 1]) + OpSpace(procs[|procs| - 1])
  }

  /** Processes that have referenced buffer i and not locked it yet. */
  ghost function Waiters(procs: seq<Proc>, i: nat): nat {
    if procs == [] then 0
    else Waiters(procs[..|procs| - 1], i) + WaitCount(procs[|procs| - 1], i)
  }

  function WaitCount(pr: Proc, i: nat): nat { if pr.waits == Some(i) then 1 else 0 }

  function OpCount(pr: Proc): nat { if pr.op.Some? then 1 else 0 }

  function OpSpace(pr: Proc): nat { if pr.op.Some? then pr.op.value else 0 }

  lemma {:induction false} UpdateProc(procs: seq<Proc>, p: nat, pr: Proc)
    requires p < |procs|
    ensures Ops(procs[p := pr]) == Ops(procs) - OpCount(procs[p]) + OpCount(pr)
    ensures Unspent(procs[p := pr]) == Unspent(procs) - OpSpace(procs[p]) + OpSpace(pr)
    ensures OpCount(procs[p]) <= Ops(procs) && OpSpace(procs[p]) <= Unspent(procs)
  {
    var n := |procs| - 1;
    var procs' := procs[p := pr];
    if p == n {
      assert procs'[..n] == procs[..n];
    } else {
      assert procs'[..n] == procs[..n][p := pr];
      UpdateProc(procs[..n], p, pr);
    }
  }

  lemma {:induction false} UpdateWaiter(procs: seq<Proc>, p: nat, pr: Proc, i: nat)
    requires p < |procs|
    ensures Waiters(procs[p := pr], i) == Waiters(procs, i) - WaitCount(procs[p], i) + WaitCount(pr, i)
    ensures WaitCount(procs[p], i) <= Waiters(procs, i)
  {
    var n := |procs| - 1;
    var procs' := procs[p := pr];
    if p == n {
      assert procs'[..n] == procs[..n];
    } else {
      assert procs'[..n] == procs[..n][p := pr];
      UpdateWaiter(procs[..n], p, pr, i);
    }
  }

  lemma {:induction false} UnspentBound(procs: seq<Proc>, m: nat)
    requires forall p :: 0 <= p < |procs| && procs[p].op.Some? ==> procs[p].op.value <= m
    ensures Unspent(procs) <= Ops(procs) * m
  {
    if procs != [] {
      UnspentBound(procs[..|procs| - 1], m);
      var k := Ops(procs[..|procs| - 1]);
      assert (k + 1) * m == k * m + m;
    }
  }

  lemma {:induction false} NoOps(procs: seq<Proc>)
    ensures Ops(procs) == 0 <==> forall p :: 0 <= p < |procs| ==> procs[p].op.None?
    ensures Ops(procs) == 0 ==> Unspent(procs) == 0
  {
    if procs != [] {
      var n := |procs| - 1;
      NoOps(procs[..n]);
      if Ops(procs) == 0 {
        forall p | 0 <= p < |procs| ensures procs[p].op.None? {
          if p < n { assert procs[..n][p].op.None?; }
        }
      }
    }
  }

  predicate IsPinned(s: State, i: nat)
    requires i < |s.cache.bufs|
  {
    s.cache.bufs[i].dev == ROOTDEV && s.cache.bufs[i].blockno in Pins(s)
  }

  /** The reference count is exactly the waiters, the holder and log_write's pin. */
  ghost predicate CountOk(s: State, i: nat)
    requires i < |s.cache.bufs|
  {
    var b := s.cache.bufs[i];
    b.refcnt == Waiters(s.procs, i) + (if b.holder.Some? then 1 else 0) + (if IsPinned(s, i) then 1 else 0)
  }

  /** A buffer never used since binit stays at device 0, unreferenced and invalid. */
  ghost predicate DevOk(L: Layout, b: Buf) {
    if b.dev == ROOTDEV then b.blockno < L.size else b.dev == 0 && !b.valid && b.refcnt == 0
  }

  /** Unless it is pinned or being changed, a valid buffer agrees with the disk. */
  ghost predicate CleanOk(s: State, i: nat)
    requires i < |s.cache.bufs|
  {
    var b := s.cache.bufs[i];
    b.valid && i !in s.dirty && b.blockno !in Pins(s) ==> b.blockno < |s.disk| && b.data == s.disk[b.blockno]
  }

  /** A valid buffer holds block b. */
  ghost predicate CachedIn(s: State, i: int, b: nat) {
    0 <= i < |s.cache.bufs| && s.cache.bufs[i].valid && Holds(s.cache.bufs[i], ROOTDEV, b)
  }

  ghost predicate Cached(s: State, b: nat) {
    exists i :: CachedIn(s, i, b)
  }

  ghost predicate CacheOk(L: Layout, s: State) {
    && |s.disk| == L.size
    && RingOk(s.cache) && Unique(s.cache)
    && (forall i :: 0 <= i < |s.cache.bufs| ==> CountOk(s, i))
    && (forall i :: 0 <= i < |s.cache.bufs| ==> DevOk(L, s.cache.bufs[i]))
    && (forall i :: 0 <= i < |s.cache.bufs| ==> CleanOk(s, i))
    && (forall i :: 0 <= i < |s.cache.bufs| && s.cache.bufs[i].holder.Some? ==>
        s.cache.bufs[i].holder.value < |s.procs|)
    && (forall b :: b in Pins(s) ==> Cached(s, b))
  }

  /** A buffer being changed is locked by an operation in progress. */
  ghost predicate DirtyOk(L: Layout, s: State) {
    forall i :: i in s.dirty ==>
      && i < |s.cache.bufs| && s.cache.bufs[i].valid && s.cache.bufs[i].dev == ROOTDEV
      && Home(L, s.cache.bufs[i].blockno)
      && s.cache.bufs[i].holder.Some? && InOp(s, s.cache.bufs[i].holder.value)
  }

  ghost predicate ProcsOk(L: Layout, s: State) {
    && s.outstanding == Ops(s.procs)
    && (forall p :: 0 <= p < |s.procs| && s.procs[p].op.Some? ==> s.procs[p].op.value <= L.maxOp)
    && (forall p :: 0 <= p < |s.procs| && s.procs[p].waits.Some? ==>
          && s.procs[p].waits.value < |s.cache.bufs|
          && s.cache.bufs[s.procs[p].waits.value].dev == ROOTDEV)
  }

  /** A process past log_write's tests still has the block it makes them for. */
  ghost predicate PassOk(L: Layout, s: State) {
    forall p :: 0 <= p < |s.procs| && s.procs[p].passed.Some? ==>
      s.procs[p].waits.None? && L.nlog >= 2 && HasBlock(L, s, p, s.procs[p].passed.value)
  }

  /** Two operations cannot be open at once. */
  predicate Single(L: Layout, s: State) {
    L.logSize < 2 * L.maxOp || |s.procs| < 2
  }

  /** Then what log_write's tests found is still so when it adds the block. */
  ghost predicate SingleOk(L: Layout, s: State) {
    Single(L, s) ==>
      && Ops(s.procs) <= 1
      && forall p :: 0 <= p < |s.procs| && s.procs[p].passed.Some? ==> |s.lh| + 1 < L.nlog
  }

  /** Admission: the log never fills beyond what begin_op reserved, commit excludes operations. */
  ghost predicate AdmissionOk(L: Layout, s: State) {
    && ListOk(L, s.lh)
    && |s.lh| + Unspent(s.procs) <= L.logSize
    && (s.phase != Running ==> s.outstanding == 0)
    && (s.committing <==> s.phase != Running && !Recovering(s))
  }

  /** The loops of commit and recovery are inside the list; the header on disk is one that was written. */
  ghost predicate StageOk(L: Layout, s: State)
    requires LayoutOk(L)
  {
    && HeadOk(L, s.disk)
    && match s.phase
       case Running => true
       case WritingLog(t) => t < |s.lh|
       case WritingHead => 0 < |s.lh|
       case Installing(t) => t < |s.lh|
       case Reinstalling(t) => t < |s.lh|
       case _ => s.lh == []
  }

  ghost predicate Core(L: Layout, s: State)
    requires LayoutOk(L)
  {
    && CacheOk(L, s) && DirtyOk(L, s) && ProcsOk(L, s) && PassOk(L, s) && SingleOk(L, s) && AdmissionOk(L, s)
    && StageOk(L, s)
  }

  /** The block map clients see: the cached copy if there is one, the disk otherwise. */
  ghost function VolAt(s: State, b: nat): Block
    requires b < |s.disk|
  {
    if exists i :: CachedIn(s, i, b) then
      var i :| CachedIn(s, i, b); s.cache.bufs[i].data
    else s.disk[b]
  }

  /** Log blocks [0, n) hold the current contents of the blocks they stand for. */
  ghost predicate LogHolds(L: Layout, s: State, n: nat)
    requires LayoutOk(L) && |s.disk| == L.size && EntriesOk(L, s.lh) && n <= |s.lh|
  {
    forall k :: 0 <= k < n ==> s.disk[LogBlock(L, k)] == VolAt(s, s.lh[k])
  }

  /** The first n logged blocks have reached their homes. */
  ghost predicate Installed(L: Layout, disk: Disk, n: nat)
    requires LayoutOk(L) && DiskOk(L, disk) && n <= |Header(L, disk)|
  {
    forall k :: 0 <= k < n ==> disk[LogBlock(L, k)] == disk[Header(L, disk)[k]]
  }

  ghost predicate PhaseOk(L: Layout, s: State)
    requires LayoutOk(L) && |s.disk| == L.size && EntriesOk(L, s.lh)
  {
    && DiskOk(L, s.disk)
    && match s.phase
       case Running => Header(L, s.disk) == []
       case WritingLog(t) => Header(L, s.disk) == [] && t < |s.lh| && LogHolds(L, s, t)
       case WritingHead => Header(L, s.disk) == [] && 0 < |s.lh| && LogHolds(L, s, |s.lh|)
       case Installing(t) => Header(L, s.disk) == s.lh && t < |s.lh| && LogHolds(L, s, |s.lh|)
       case Erasing => s.lh == [] && Installed(L, s.disk, |Header(L, s.disk)|)
       case Finishing => s.lh == [] && Header(L, s.disk) == []
       case ReadingHead => s.lh == []
       case Reinstalling(t) => Header(L, s.disk) == s.lh && t < |s.lh| && Installed(L, s.disk, t)
       case Clearing => s.lh == [] && Installed(L, s.disk, |Header(L, s.disk)|)
  }

  ghost predicate Inv(L: Layout, s: State)
    requires LayoutOk(L)
  {
    Core(L, s) && |s.lh| < L.nlog && PhaseOk(L, s)
  }

  /** bread is transparent: a valid buffer of block b carries the block map's value of b. */
  lemma VolCached(s: State, i: nat, b: nat)
    requires Unique(s.cache) && CachedIn(s, i, b) && b < |s.disk|
    ensures VolAt(s, b) == s.cache.bufs[i].data
  {
    assert forall j :: CachedIn(s, j, b) ==> j == i;
  }

  /** A block neither pinned nor being changed reads as the disk has it. */
  lemma VolClean(L: Layout, s: State, b: nat)
    requires LayoutOk(L) && CacheOk(L, s) && b < L.size
    requires b !in Pins(s)
    requires forall i :: i in s.dirty && i < |s.cache.bufs| ==> s.cache.bufs[i].blockno != b
    ensures VolAt(s, b) == s.disk[b]
  {
    if Cached(s, b) {
      var i :| CachedIn(s, i, b);
      VolCached(s, i, b);
      assert CleanOk(s, i);
    }
  }

  /** Steps that leave the data of every valid buffer and the disk alone leave the map alone. */
  lemma VolSame(s: State, s': State, b: nat)
    requires Unique(s.cache) && Unique(s'.cache) && b < |s.disk| && |s'.disk| == |s.disk|
    requires s'.disk[b] == s.disk[b]
    requires forall i :: CachedIn(s, i, b) && CachedIn(s', i, b) ==> s'.cache.bufs[i].data == s.cache.bufs[i].data
    requires forall i :: CachedIn(s, i, b) && !CachedIn(s', i, b) ==> s.cache.bufs[i].data == s.disk[b]
    requires forall i :: CachedIn(s', i, b) && !CachedIn(s, i, b) ==> s'.cache.bufs[i].data == VolAt(s, b)
    ensures VolAt(s', b) == VolAt(s, b)
  {
    if Cached(s', b) {
      var i :| CachedIn(s', i, b);
      VolCached(s', i, b);
      if CachedIn(s, i, b) { VolCached(s, i, b); }
    } else if Cached(s, b) {
      var i :| CachedIn(s, i, b);
      VolCached(s, i, b);
    }
  }

  /** No operation is open while commit or recovery runs, so nothing is being changed. */
  lemma QuietCore(L: Layout, s: State)
    requires LayoutOk(L) && Core(L, s)
    ensures |s.disk| == L.size && HeadOk(L, s.disk)
    ensures s.phase != Running ==> s.dirty == {}
    ensures s.phase != Running ==> forall p :: !InOp(s, p)
    ensures s.phase != Running ==> forall p :: 0 <= p < |s.procs| ==> s.procs[p].passed.None?
    ensures (exists p :: InOp(s, p)) ==> s.outstanding >= 1 && s.phase == Running && !s.committing
  {
    NoOps(s.procs);
  }

  lemma QuietPhase(L: Layout, s: State)
    requires LayoutOk(L) && Inv(L, s)
    ensures |s.disk| == L.size && DiskOk(L, s.disk)
    ensures s.phase != Running ==> s.dirty == {}
    ensures s.phase != Running ==> forall p :: !InOp(s, p)
    ensures (exists p :: InOp(s, p)) ==> s.outstanding >= 1 && s.phase == Running && !s.committing
  {
    QuietCore(L, s);
  }
}
