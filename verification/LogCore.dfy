/** Every step of `LogMachine` keeps Core: reference counts and the cache's agreement with the disk, the
    reservations of begin_op, and the lists in memory and on disk. Nothing here depends on the log region
    being large enough for the list. */
module LogCore {
  import opened Blocks
  import opened CacheModel
  import opened LogDisk
  import opened LogMachine
  import opened LogInvariant

  // ----- frames

  /** s' differs from s in buffer i alone, as far as the other buffers can tell. */
  ghost predicate OnlyBuf(s: State, s': State, i: nat) {
    && |s'.cache.bufs| == |s.cache.bufs| && |s'.disk| == |s.disk| && |s'.procs| == |s.procs|
    && forall j :: 0 <= j < |s.cache.bufs| && j != i ==>
         && s'.cache.bufs[j] == s.cache.bufs[j]
         && Waiters(s'.procs, j) == Waiters(s.procs, j)
         && (j in s'.dirty <==> j in s.dirty)
         && (s.cache.bufs[j].dev == ROOTDEV ==>
               && (s.cache.bufs[j].blockno in Pins(s') <==> s.cache.bufs[j].blockno in Pins(s))
               && (s.cache.bufs[j].blockno < |s.disk| ==>
                     s'.disk[s.cache.bufs[j].blockno] == s.disk[s.cache.bufs[j].blockno]))
  }

  /** What is left to check after a step is the buffer it touched. */
  lemma CacheFrame(L: Layout, s: State, s': State, i: nat)
    requires CacheOk(L, s) && OnlyBuf(s, s', i) && i < |s.cache.bufs|
    requires RingOk(s'.cache) && Unique(s'.cache)
    requires CountOk(s', i) && DevOk(L, s'.cache.bufs[i]) && CleanOk(s', i)
    requires s'.cache.bufs[i].holder.Some? ==> s'.cache.bufs[i].holder.value < |s.procs|
    requires forall b :: b in Pins(s') ==> Cached(s', b)
    ensures CacheOk(L, s')
  {
    forall j | 0 <= j < |s.cache.bufs| && j != i
      ensures CountOk(s', j) && DevOk(L, s'.cache.bufs[j]) && CleanOk(s', j)
    {
      assert CountOk(s, j) && DevOk(L, s.cache.bufs[j]) && CleanOk(s, j);
    }
  }

  /** Pins stay cached when no pinned block leaves the cache. */
  lemma PinsFrame(s: State, s': State)
    requires forall b :: b in Pins(s) ==> Cached(s, b)
    requires forall b :: b in Pins(s') ==> b in Pins(s)
    requires forall j, b :: b in Pins(s) && CachedIn(s, j, b) ==> CachedIn(s', j, b)
    ensures forall b :: b in Pins(s') ==> Cached(s', b)
  {
    forall b | b in Pins(s') ensures Cached(s', b) {
      var j :| CachedIn(s, j, b);
      assert CachedIn(s', j, b);
    }
  }

  /** Whoever is past log_write's tests in s' was so in s, and has its buffer still. */
  ghost predicate Undisturbed(s: State, s': State) {
    && |s'.cache.bufs| == |s.cache.bufs| && |s'.procs| == |s.procs|
    && forall p :: 0 <= p < |s.procs| && s'.procs[p].passed.Some? ==>
         && s.procs[p].passed == s'.procs[p].passed && (s.procs[p].waits.None? ==> s'.procs[p].waits.None?)
         && (s.procs[p].op.Some? ==> s'.procs[p].op.Some?)
         && (s.procs[p].passed.value < |s.cache.bufs| ==> SameHold(s, s', s.procs[p].passed.value))
  }

  ghost predicate SameHold(s: State, s': State, i: nat)
    requires i < |s.cache.bufs| == |s'.cache.bufs|
  {
    var b, b' := s.cache.bufs[i], s'.cache.bufs[i];
    b.holder.Some? && b.valid ==> b'.holder == b.holder && b'.valid && b'.dev == b.dev && b'.blockno == b.blockno
  }

  lemma PassFrame(L: Layout, s: State, s': State)
    requires PassOk(L, s) && Undisturbed(s, s')
    ensures PassOk(L, s')
  {}

  /** The list, the phase and the disk's header stay; operations and reservations are as many. */
  lemma RestFrame(L: Layout, s: State, s': State)
    requires LayoutOk(L) && SingleOk(L, s) && AdmissionOk(L, s) && StageOk(L, s) && Undisturbed(s, s')
    requires s'.disk == s.disk && s'.lh == s.lh && s'.phase == s.phase
    requires s'.committing == s.committing && s'.outstanding == s.outstanding
    requires Ops(s'.procs) == Ops(s.procs) && Unspent(s'.procs) == Unspent(s.procs)
    ensures SingleOk(L, s') && AdmissionOk(L, s') && StageOk(L, s')
  {}

  // ----- bget under bcache.lock

  lemma RefCache(L: Layout, s: State, p: nat, b: nat)
    requires LayoutOk(L) && CacheOk(L, s) && DirtyOk(L, s) && CanRef(L, s, p, b) && b < L.size
    ensures CacheOk(L, DoRef(L, s, p, b))
  {
    var s' := DoRef(L, s, p, b);
    ChooseMeaning(s.cache, ROOTDEV, b);
    ReferenceKeepsRing(s.cache, ROOTDEV, b);
    var i := Choose(s.cache, ROOTDEV, b).value;
    assert CountOk(s, i) && DevOk(L, s.cache.bufs[i]) && CleanOk(s, i);
    forall j | 0 <= j < |s.cache.bufs|
      ensures Waiters(s'.procs, j) == Waiters(s.procs, j) + if j == i then 1 else 0
    {
      UpdateWaiter(s.procs, p, s'.procs[p], j);
    }
    PinsFrame(s, s');
    RefTarget(s, s', i, b);
    CacheFrame(L, s, s', i);
  }

  lemma RefTarget(s: State, s': State, i: nat, b: nat)
    requires i < |s.cache.bufs| && CountOk(s, i) && CleanOk(s, i) && RingOk(s.cache)
    requires Choose(s.cache, ROOTDEV, b) == Some(i)
    requires i in s.dirty ==> s.cache.bufs[i].holder.Some?
    requires forall c :: c in Pins(s) ==> Cached(s, c)
    requires s'.cache == Reference(s.cache, ROOTDEV, b) && Pins(s') == Pins(s)
    requires s'.dirty == s.dirty && s'.disk == s.disk
    requires Waiters(s'.procs, i) == Waiters(s.procs, i) + 1
    ensures CountOk(s', i) && CleanOk(s', i)
  {
    ChooseMeaning(s.cache, ROOTDEV, b);
  }

  lemma RefOthers(L: Layout, s: State, p: nat, b: nat)
    requires LayoutOk(L) && CacheOk(L, s) && DirtyOk(L, s) && ProcsOk(L, s) && CanRef(L, s, p, b)
    ensures var s' := DoRef(L, s, p, b); DirtyOk(L, s') && ProcsOk(L, s') && Undisturbed(s, s')
  {
    var s' := DoRef(L, s, p, b);
    ChooseMeaning(s.cache, ROOTDEV, b);
    UpdateProc(s.procs, p, s'.procs[p]);
    var i := Choose(s.cache, ROOTDEV, b).value;
    assert CountOk(s, i);
  }

  lemma RefCore(L: Layout, s: State, p: nat, b: nat)
    requires LayoutOk(L) && Core(L, s) && CanRef(L, s, p, b)
    ensures Core(L, DoRef(L, s, p, b))
  {
    var s' := DoRef(L, s, p, b);
    RefCache(L, s, p, b);
    RefOthers(L, s, p, b);
    UpdateProc(s.procs, p, s'.procs[p]);
    hide CacheOk, DirtyOk, CanRef, Choose, Reference;
    PassFrame(L, s, s');
    RestFrame(L, s, s');
  }

  // ----- acquiresleep

  lemma LockCache(L: Layout, s: State, p: nat, i: nat)
    requires CacheOk(L, s) && CanLock(s, p) && i == s.procs[p].waits.value
    ensures CacheOk(L, DoLock(s, p))
  {
    var s' := DoLock(s, p);
    assert CountOk(s, i) && DevOk(L, s.cache.bufs[i]) && CleanOk(s, i);
    forall j | 0 <= j < |s.cache.bufs|
      ensures Waiters(s'.procs, j) == Waiters(s.procs, j) - if j == i then 1 else 0
    {
      UpdateWaiter(s.procs, p, s'.procs[p], j);
    }
    PinsFrame(s, s');
    CacheFrame(L, s, s', i);
  }

  lemma LockCore(L: Layout, s: State, p: nat)
    requires LayoutOk(L) && Core(L, s) && CanLock(s, p)
    ensures Core(L, DoLock(s, p))
  {
    var s' := DoLock(s, p);
    LockCache(L, s, p, s.procs[p].waits.value);
    UpdateProc(s.procs, p, s'.procs[p]);
    assert DirtyOk(L, s');
    hide CacheOk, DirtyOk;
    PassFrame(L, s, s');
    RestFrame(L, s, s');
  }

  // ----- bread's disk read

  lemma FillCore(L: Layout, s: State, p: nat, i: nat)
    requires LayoutOk(L) && Core(L, s) && CanFill(s, p, i)
    ensures Core(L, DoFill(s, p, i))
  {
    var s' := DoFill(s, p, i);
    assert CountOk(s, i) && DevOk(L, s.cache.bufs[i]) && CleanOk(s, i);
    PinsFrame(s, s');
    CacheFrame(L, s, s', i);
    hide CacheOk;
    PassFrame(L, s, s');
    RestFrame(L, s, s');
  }

  // ----- a client changes a buffer it has locked

  lemma ModifyCore(L: Layout, s: State, p: nat, i: nat, data: Block)
    requires LayoutOk(L) && Core(L, s) && CanModify(L, s, p, i)
    ensures Core(L, DoModify(L, s, p, i, data))
  {
    var s' := DoModify(L, s, p, i, data);
    assert CountOk(s, i) && DevOk(L, s.cache.bufs[i]);
    PinsFrame(s, s');
    CacheFrame(L, s, s', i);
    hide CacheOk;
    PassFrame(L, s, s');
    RestFrame(L, s, s');
  }

  // ----- log_write

  lemma TestLogCore(L: Layout, s: State, p: nat, i: nat)
    requires LayoutOk(L) && Core(L, s) && CanTestLog(L, s, p, i)
    ensures Core(L, DoTestLog(L, s, p, i))
  {
    var s' := DoTestLog(L, s, p, i);
    UpdateProc(s.procs, p, s'.procs[p]);
    forall j | 0 <= j < |s.cache.bufs| ensures Waiters(s'.procs, j) == Waiters(s.procs, j) {
      UpdateWaiter(s.procs, p, s'.procs[p], j);
    }
    SameCache(L, s, s');
    hide CacheOk;
  }

  lemma LogWriteCache(L: Layout, s: State, p: nat, i: nat)
    requires LayoutOk(L) && CacheOk(L, s) && CanLogWrite(L, s, p, i) && s.phase == Running
    ensures CacheOk(L, DoLogWrite(L, s, p, i))
  {
    var s' := DoLogWrite(L, s, p, i);
    var b := s.cache.bufs[i].blockno;
    assert CountOk(s, i) && DevOk(L, s.cache.bufs[i]);
    forall j | 0 <= j < |s.cache.bufs| ensures Waiters(s'.procs, j) == Waiters(s.procs, j) {
      UpdateWaiter(s.procs, p, s'.procs[p], j);
    }
    assert CachedIn(s', i, b);
    forall c | c in Pins(s') ensures Cached(s', c) {
      if c != b {
        var k :| CachedIn(s, k, c);
        assert CachedIn(s', k, c);
      }
    }
    CacheFrame(L, s, s', i);
  }

  lemma LogWriteCore(L: Layout, s: State, p: nat, i: nat)
    requires LayoutOk(L) && Core(L, s) && CanLogWrite(L, s, p, i)
    ensures Core(L, DoLogWrite(L, s, p, i))
  {
    var s' := DoLogWrite(L, s, p, i);
    QuietCore(L, s);
    LogWriteCache(L, s, p, i);
    hide CacheOk;
    LogWriteLists(L, s, p, i);
    LogWriteAlone(L, s, p, i);
    hide DirtyOk, ProcsOk, AdmissionOk, StageOk, SingleOk;
    PassFrame(L, s, s');
  }

  lemma LogWriteLists(L: Layout, s: State, p: nat, i: nat)
    requires LayoutOk(L) && DirtyOk(L, s) && ProcsOk(L, s) && AdmissionOk(L, s) && StageOk(L, s)
    requires CanLogWrite(L, s, p, i) && s.phase == Running
    ensures var s' := DoLogWrite(L, s, p, i); DirtyOk(L, s') && ProcsOk(L, s') && AdmissionOk(L, s') && StageOk(L, s')
  {
    var s' := DoLogWrite(L, s, p, i);
    UpdateProc(s.procs, p, s'.procs[p]);
    hide HeadOk;
  }

  /** Where operations exclude each other, nobody else is inside log_write. */
  lemma LogWriteAlone(L: Layout, s: State, p: nat, i: nat)
    requires LayoutOk(L) && PassOk(L, s) && SingleOk(L, s) && CanLogWrite(L, s, p, i)
    ensures SingleOk(L, DoLogWrite(L, s, p, i))
  {
    var s' := DoLogWrite(L, s, p, i);
    UpdateProc(s.procs, p, s'.procs[p]);
    if Single(L, s) {
      forall q | 0 <= q < |s.procs| && q != p ensures s.procs[q].op.None? {
        OneOp(s.procs, p, q);
      }
    }
  }

  lemma OneOp(procs: seq<Proc>, p: nat, q: nat)
    requires p < |procs| && q < |procs| && p != q && procs[p].op.Some? && Ops(procs) <= 1
    ensures procs[q].op.None?
  {
    UpdateProc(procs, p, IDLE);
    UpdateProc(procs[p := IDLE], q, IDLE);
  }

  // ----- brelse

  lemma BrelseCore(L: Layout, s: State, p: nat, i: nat)
    requires LayoutOk(L) && Core(L, s) && CanBrelse(s, p, i)
    ensures Core(L, DoBrelse(s, p, i))
  {
    var s' := DoBrelse(s, p, i);
    ReleaseKeepsRing(s.cache, i);
    assert CountOk(s, i) && DevOk(L, s.cache.bufs[i]) && CleanOk(s, i);
    PinsFrame(s, s');
    CacheFrame(L, s, s', i);
    hide CacheOk;
    PassFrame(L, s, s');
    RestFrame(L, s, s');
  }

  // ----- begin_op and end_op

  /** Only log.lh, the counters and the phase move. */
  lemma SameCache(L: Layout, s: State, s': State)
    requires CacheOk(L, s)
    requires s'.cache == s.cache && s'.disk == s.disk && s'.dirty == s.dirty && |s'.procs| == |s.procs|
    requires forall j :: 0 <= j < |s.cache.bufs| ==> Waiters(s'.procs, j) == Waiters(s.procs, j)
    requires forall b :: b in Pins(s') <==> b in Pins(s)
    ensures CacheOk(L, s') && forall b :: 0 <= b < L.size ==> VolAt(s', b) == VolAt(s, b)
  {
    forall j | 0 <= j < |s.cache.bufs| ensures CountOk(s', j) && CleanOk(s', j) {
      assert CountOk(s, j) && CleanOk(s, j);
    }
    PinsFrame(s, s');
    forall c | 0 <= c < L.size ensures VolAt(s', c) == VolAt(s, c) {
      VolSame(s, s', c);
    }
  }

  /** begin_op's test reserves a full MAXOPBLOCKS for the new operation. */
  lemma Admit(L: Layout, s: State, p: nat)
    requires ProcsOk(L, s) && AdmissionOk(L, s) && CanBeginOp(L, s, p)
    ensures ProcsOk(L, DoBeginOp(L, s, p)) && AdmissionOk(L, DoBeginOp(L, s, p))
  {
    UpdateProc(s.procs, p, s.procs[p].(op := Some(L.maxOp)));
    UnspentBound(s.procs, L.maxOp);
    assert (s.outstanding + 1) * L.maxOp == s.outstanding * L.maxOp + L.maxOp;
  }

  /** Where two reservations do not fit, begin_op admits an operation only when none is open. */
  lemma AdmitAlone(L: Layout, s: State, p: nat)
    requires ProcsOk(L, s) && SingleOk(L, s) && CanBeginOp(L, s, p)
    ensures SingleOk(L, DoBeginOp(L, s, p))
  {
    var s' := DoBeginOp(L, s, p);
    UpdateProc(s.procs, p, s'.procs[p]);
    if L.logSize < 2 * L.maxOp {
      TwoFit(s.outstanding, L.maxOp);
    } else {
      FewOps(s'.procs);
    }
  }

  lemma TwoFit(n: nat, m: nat)
    ensures n >= 1 ==> (n + 1) * m >= 2 * m
  {}

  lemma {:induction false} FewOps(procs: seq<Proc>)
    ensures Ops(procs) <= |procs|
  {
    if procs != [] { FewOps(procs[..|procs| - 1]); }
  }

  lemma BeginOpCore(L: Layout, s: State, p: nat)
    requires LayoutOk(L) && Core(L, s) && CanBeginOp(L, s, p)
    ensures Core(L, DoBeginOp(L, s, p))
  {
    var s' := DoBeginOp(L, s, p);
    Admit(L, s, p);
    AdmitAlone(L, s, p);
    forall j | 0 <= j < |s.cache.bufs| ensures Waiters(s'.procs, j) == Waiters(s.procs, j) {
      UpdateWaiter(s.procs, p, s'.procs[p], j);
    }
    SameCache(L, s, s');
    hide CacheOk;
    PassFrame(L, s, s');
  }

  lemma EndOpCore(L: Layout, s: State, p: nat)
    requires LayoutOk(L) && Core(L, s) && CanEndOp(s, p)
    ensures Core(L, DoEndOp(s, p))
  {
    var s' := DoEndOp(s, p);
    QuietCore(L, s);
    forall j | 0 <= j < |s.cache.bufs| ensures Waiters(s'.procs, j) == Waiters(s.procs, j) {
      UpdateWaiter(s.procs, p, s'.procs[p], j);
    }
    SameCache(L, s, s');
    hide CacheOk;
    EndOpLists(L, s, p);
    hide DirtyOk, ProcsOk, AdmissionOk, StageOk, SingleOk;
    PassFrame(L, s, s');
  }

  lemma EndOpLists(L: Layout, s: State, p: nat)
    requires LayoutOk(L) && DirtyOk(L, s) && ProcsOk(L, s) && SingleOk(L, s) && AdmissionOk(L, s) && StageOk(L, s)
    requires CanEndOp(s, p) && s.phase == Running
    ensures var s' := DoEndOp(s, p);
            DirtyOk(L, s') && ProcsOk(L, s') && SingleOk(L, s') && AdmissionOk(L, s') && StageOk(L, s')
  {
    var s' := DoEndOp(s, p);
    UpdateProc(s.procs, p, s'.procs[p]);
    hide HeadOk;
  }

  lemma FinishCore(L: Layout, s: State)
    requires LayoutOk(L) && Core(L, s) && s.phase.Finishing?
    ensures Core(L, s.(committing := false, phase := Running))
  {
    var s' := s.(committing := false, phase := Running);
    SameCache(L, s, s');
    hide CacheOk;
    PassFrame(L, s, s');
  }

  // ----- commit() and recover_from_log()

  /** Buffer i is overwritten and written through: the cache agrees with the disk on its block,
      and no other block changes. */
  lemma StoreCache(L: Layout, s: State, i: nat, data: Block, s': State)
    requires LayoutOk(L) && CacheOk(L, s) && i < |s.cache.bufs| && s.cache.bufs[i].dev == ROOTDEV
    requires s.cache.bufs[i].blockno < L.size && s'.cache == StoreBlock(s, i, data).cache
    requires s'.disk == s.disk[s.cache.bufs[i].blockno := data]
    requires s'.procs == s.procs && s'.dirty == s.dirty
    requires forall b :: b in Pins(s') <==> b in Pins(s)
    ensures CacheOk(L, s')
    ensures forall b :: 0 <= b < L.size && b != s.cache.bufs[i].blockno ==> VolAt(s', b) == VolAt(s, b)
  {
    assert CountOk(s, i) && DevOk(L, s.cache.bufs[i]);
    PinsFrame(s, s');
    CacheFrame(L, s, s', i);
    forall b | 0 <= b < L.size && b != s.cache.bufs[i].blockno ensures VolAt(s', b) == VolAt(s, b) {
      VolSame(s, s', b);
    }
  }

  /** A write to any block but the header, by commit or recovery. */
  lemma StoreCore(L: Layout, s: State, i: nat, data: Block, s': State)
    requires LayoutOk(L) && Core(L, s) && s.phase != Running && i < |s.cache.bufs| && s.cache.bufs[i].dev == ROOTDEV
    requires s.cache.bufs[i].blockno < |s.disk| && s.cache.bufs[i].blockno != L.logstart
    requires s' == StoreBlock(s, i, data).(phase := s'.phase) && CacheOk(L, s')
    requires s'.phase != Running && Recovering(s') == Recovering(s)
    requires match s'.phase
             case WritingLog(t) => t < |s.lh|
             case WritingHead => 0 < |s.lh|
             case Installing(t) => t < |s.lh|
             case Reinstalling(t) => t < |s.lh|
             case _ => s.lh == []
    ensures Core(L, s')
  {
    QuietCore(L, s);
    assert s'.disk[L.logstart] == s.disk[L.logstart];
    hide CacheOk;
  }

  lemma WriteLogCore(L: Layout, s: State, i: nat, j: nat)
    requires LayoutOk(L) && Core(L, s) && CanWriteLog(L, s, i, j)
    ensures Core(L, DoWriteLog(L, s, i, j))
  {
    var s' := DoWriteLog(L, s, i, j);
    StoreCache(L, s, i, s.cache.bufs[j].data, s');
    hide CacheOk;
    StoreCore(L, s, i, s.cache.bufs[j].data, s');
  }

  lemma HeadWritten(L: Layout, disk: Disk, buf: Block, lh: seq<nat>)
    requires LayoutOk(L) && |disk| == L.size && ListOk(L, lh)
    ensures var disk' := disk[L.logstart := EncodeHead(buf, lh)]; HeadOk(L, disk') && Header(L, disk') == lh
  {
    HeadRoundTrip(buf, lh);
  }

  lemma WriteHeadCore(L: Layout, s: State, i: nat)
    requires LayoutOk(L) && Core(L, s) && CanWriteHead(L, s, i)
    ensures Core(L, DoWriteHead(L, s, i))
  {
    var s' := DoWriteHead(L, s, i);
    QuietCore(L, s);
    HeadWritten(L, s.disk, s.cache.bufs[i].data, s.lh);
    StoreCache(L, s, i, EncodeHead(s.cache.bufs[i].data, s.lh), s');
    hide CacheOk, EncodeHead, HeadOk;
    HeadStored(L, s, s');
  }

  lemma EraseCache(L: Layout, s: State, i: nat, next: Phase)
    requires LayoutOk(L) && Core(L, s) && CanErase(L, s, i)
    requires (s.phase.Erasing? && next == Finishing) || (s.phase.Clearing? && next == Running)
    ensures CacheOk(L, DoErase(L, s, i, next))
  {
    StoreCache(L, s, i, EncodeHead(s.cache.bufs[i].data, []), DoErase(L, s, i, next));
  }

  lemma EraseCore(L: Layout, s: State, i: nat, next: Phase)
    requires LayoutOk(L) && Core(L, s) && CanErase(L, s, i)
    requires (s.phase.Erasing? && next == Finishing) || (s.phase.Clearing? && next == Running)
    ensures Core(L, DoErase(L, s, i, next))
  {
    hide CacheOk, CleanOk;
    var s' := DoErase(L, s, i, next);
    QuietCore(L, s);
    assert StageOk(L, s') by { HeadWritten(L, s.disk, s.cache.bufs[i].data, []); }
    EraseCache(L, s, i, next);
    hide EncodeHead, HeadOk;
    HeadStored(L, s, s');
  }

  /** The header write of commit or recovery moves the phase and nothing else of note. */
  lemma HeadStored(L: Layout, s: State, s': State)
    requires LayoutOk(L) && Core(L, s) && s.phase != Running && s.dirty == {} && CacheOk(L, s') && StageOk(L, s')
    requires s' == s.(disk := s'.disk, cache := s'.cache, phase := s'.phase) && |s'.cache.bufs| == |s.cache.bufs|
    requires forall p :: 0 <= p < |s.procs| ==> s.procs[p].passed.None?
    requires forall i :: 0 <= i < |s.cache.bufs| ==> s'.cache.bufs[i].dev == s.cache.bufs[i].dev
    requires if s'.phase == Running then Recovering(s) else Recovering(s') == Recovering(s)
    ensures Core(L, s')
  {
    hide CacheOk, StageOk;
  }

  /** bunpin after the block has gone home. */
  lemma UnpinCache(L: Layout, s: State, j: nat, t: nat, s': State)
    requires CacheOk(L, s) && j < |s.cache.bufs| && s.cache.bufs[j].dev == ROOTDEV && s.cache.bufs[j].refcnt > 0
    requires s.phase == Installing(t) && t < |s.lh| && Distinct(s.lh) && s.cache.bufs[j].blockno == s.lh[t]
    requires s.lh[t] < |s.disk| && s.cache.bufs[j].data == s.disk[s.lh[t]]
    requires s'.cache == s.cache.(bufs := s.cache.bufs[j := s.cache.bufs[j].(refcnt := s.cache.bufs[j].refcnt - 1)])
    requires s'.disk == s.disk && s'.procs == s.procs && s'.dirty == s.dirty && Pins(s') == s.lh[t + 1..]
    ensures CacheOk(L, s')
  {
    assert s.lh[t..] == [s.lh[t]] + s.lh[t + 1..];
    PinsFrame(s, s');
    assert CountOk(s, j) && DevOk(L, s.cache.bufs[j]);
    CacheFrame(L, s, s', j);
  }

  lemma InstallCache(L: Layout, s: State, i: nat, j: nat)
    requires LayoutOk(L) && CacheOk(L, s) && s.phase.Installing? && CanInstall(L, s, i, j, s.phase.tail)
    requires ListOk(L, s.lh)
    ensures CacheOk(L, DoInstall(L, s, i, j))
  {
    var s' := DoInstall(L, s, i, j);
    var t := s.phase.tail;
    var s1 := StoreBlock(s, j, s.cache.bufs[i].data);
    StoreCache(L, s, j, s.cache.bufs[i].data, s1);
    assert t + 1 == |s.lh| ==> s.lh[t + 1..] == [];
    UnpinCache(L, s1, j, t, s');
  }

  lemma InstallCore(L: Layout, s: State, i: nat, j: nat)
    requires LayoutOk(L) && Core(L, s) && s.phase.Installing? && CanInstall(L, s, i, j, s.phase.tail)
    ensures Core(L, DoInstall(L, s, i, j))
  {
    var s' := DoInstall(L, s, i, j);
    QuietCore(L, s);
    InstallCache(L, s, i, j);
    assert s'.disk[L.logstart] == s.disk[L.logstart];
    hide CacheOk;
  }

  lemma RecInstallCore(L: Layout, s: State, i: nat, j: nat)
    requires LayoutOk(L) && Core(L, s) && s.phase.Reinstalling? && CanInstall(L, s, i, j, s.phase.tail)
    ensures Core(L, DoRecInstall(L, s, i, j))
  {
    var s' := DoRecInstall(L, s, i, j);
    QuietCore(L, s);
    StoreCache(L, s, j, s.cache.bufs[i].data, s');
    assert s'.disk[L.logstart] == s.disk[L.logstart];
    hide CacheOk;
  }

  lemma RecHeadCore(L: Layout, s: State, i: nat)
    requires LayoutOk(L) && Core(L, s) && CanRecHead(L, s, i)
    ensures Core(L, DoRecHead(L, s, i)) && DoRecHead(L, s, i).lh == Header(L, s.disk)
  {
    var s' := DoRecHead(L, s, i);
    QuietCore(L, s);
    NoOps(s.procs);
    assert CleanOk(s, i);
    SameCache(L, s, s');
    hide CacheOk;
    PassFrame(L, s, s');
  }

  // ----- power failure

  lemma {:induction false} NobodyWaits(n: nat, i: nat)
    ensures var procs := seq(n, _ => IDLE); Waiters(procs, i) == 0 && Ops(procs) == 0 && Unspent(procs) == 0
  {
    var procs := seq(n, _ => IDLE);
    if n > 0 {
      assert procs[..n - 1] == seq(n - 1, _ => IDLE);
      NobodyWaits(n - 1, i);
    }
  }

  lemma RebootCore(L: Layout, s: State)
    requires LayoutOk(L) && HeadOk(L, s.disk)
    ensures Core(L, Reboot(s))
  {
    var s' := Reboot(s);
    NobodyWaits(|s.procs|, 0);
    forall i | 0 <= i < |s'.cache.bufs| ensures i in s'.cache.order && CountOk(s', i) {
      assert s'.cache.order[|s'.cache.bufs| - 1 - i] == i;
      NobodyWaits(|s.procs|, i);
    }
  }

  // ----- every run

  lemma StepCore(L: Layout, s: State, st: Step)
    requires LayoutOk(L) && Core(L, s) && Enabled(L, s, st)
    ensures Core(L, Apply(L, s, st))
  {
    hide Core;
    match st
    case BeginOp(p) => BeginOpCore(L, s, p);
    case Ref(p, b) => RefCore(L, s, p, b);
    case Lock(p) => LockCore(L, s, p);
    case Fill(p, i) => FillCore(L, s, p, i);
    case Modify(p, i, data) => ModifyCore(L, s, p, i, data);
    case TestLog(p, i) => TestLogCore(L, s, p, i);
    case LogWrite(p, i) => LogWriteCore(L, s, p, i);
    case Brelse(p, i) => BrelseCore(L, s, p, i);
    case EndOp(p) => EndOpCore(L, s, p);
    case WriteLogStep(i, j) => WriteLogCore(L, s, i, j);
    case WriteHeadStep(i) => WriteHeadCore(L, s, i);
    case InstallStep(i, j) => InstallCore(L, s, i, j);
    case EraseStep(i) => EraseCore(L, s, i, Finishing);
    case FinishStep => FinishCore(L, s);
    case Crash => QuietCore(L, s); RebootCore(L, s);
    case RecHeadStep(i) => RecHeadCore(L, s, i);
    case RecInstallStep(i, j) => RecInstallCore(L, s, i, j);
    case RecEraseStep(i) => EraseCore(L, s, i, Running);
  }

  /** Whatever the sizes, every run keeps Core. */
  lemma {:induction false} RunCore(L: Layout, s: State, steps: seq<Step>)
    requires LayoutOk(L) && Core(L, s) && IsRun(L, s, steps)
    ensures Core(L, After(L, s, steps))
    decreases |steps|
  {
    hide Core, Enabled, Apply;
    if steps != [] {
      StepCore(L, s, steps[0]);
      RunCore(L, Apply(L, s, steps[0]), steps[1..]);
    }
  }
}
