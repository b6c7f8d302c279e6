/** A process at work on the log: begin_op, then bread, memmove, log_write and brelse for each block of a
    transaction, then end_op and commit. */
module FsLog {
  import opened Blocks
  import opened CacheModel
  import opened LogDisk
  import opened LogMachine
  import opened LogInvariant
  import opened LogSteps
  import opened LogRoom
  import opened LogRuns
  import opened Bio
  import opened LogCode
  import FsFormat
  import FsState
  import FsCode
  import FsCrash
  import DirCode

  /** No operation is open, nothing is logged, nobody uses the cache. */
  ghost predicate AtRest(log: Log)
    reads log, log.block, log.cache, log.cache.buf, log.device
  {
    && log.Valid() && log.phase == Running && log.n == 0 && log.outstanding == 0 && log.dirty == {}
    && Idle(log.procs) && (forall q :: 0 <= q < |log.procs| ==> log.procs[q].passed.None?)
    && forall j :: 0 <= j < log.cache.nbuf ==> log.S().cache.bufs[j].holder.None?
  }

  /** Process p alone is inside an operation, with room for `left` more blocks, and holds the buffers of held. */
  ghost predicate Inside(log: Log, p: nat, left: nat, held: set<nat>)
    reads log, log.block, log.cache, log.cache.buf, log.device
  {
    && log.Valid() && log.phase == Running && p < |log.procs| && log.procs[p].op == Some(left)
    && Idle(log.procs) && (forall q :: 0 <= q < |log.procs| ==> log.procs[q].passed.None?)
    && log.outstanding == 1 && Locked(log.S(), p, held)
  }

  lemma PathInv(L: Layout, s0: State, s: State, st: Step)
    requires LayoutOk(L) && Path(L, s0, s) && Inv(L, s) && Enabled(L, s, st)
    ensures Path(L, s0, Apply(L, s, st))
  {
    hide Enabled, Apply, Path;
    PathStep(L, s0, s, st);
  }

  lemma PathReaches(L: Layout, s0: State, s: State, s': State)
    requires LayoutOk(L) && Path(L, s0, s) && Inv(L, s) && Reaches(L, s, s')
    ensures Path(L, s0, s')
  {
    hide Path, Reaches;
    ReachesIsPath(L, s0, s, s');
  }

  // ----- one block

  /** bread; a buffer is left for it. */
  method BreadFor(log: Log, p: nat, b: nat, ghost left: nat, ghost s0: State) returns (i: nat)
    requires Inside(log, p, left, {}) && log.dirty == {} && Home(log.L, b) && log.n < log.cache.nbuf
    requires Path(log.L, s0, log.S())
    modifies log.cache.buf
    ensures Inside(log, p, left, {i}) && i < log.cache.nbuf && Owns(log.S(), p, i, b)
    ensures log.S() == old(log.S()).(cache := log.S().cache) && Path(log.L, s0, log.S())
    ensures |log.device.blocks| == log.L.size && VolMap(log.L, log.S()) == VolMap(log.L, old(log.S()))
  {
    hide Inv, Reaches, RingOk, Path, VolMap, LayoutOk, Linked, Distinct;
    ghost var s := log.S();
    AcquireReady(log.L, s, p, {}, b);
    NotStarved(log.L, s, p, b);
    var r, waits := log.cache.Bread(log.device, ROOTDEV, b, p);
    i := r.value;
    assert {} + {i} == {i};
    BreadRuns(log.L, s, p, b, i);
    ReachesKeepsMap(log.L, s, log.S());
    PathReaches(log.L, s0, s, log.S());
    SameReaders(log.L, s, log.S());
  }

  lemma NotStarved(L: Layout, s: State, p: nat, b: nat)
    requires LayoutOk(L) && Inv(L, s) && s.phase == Running && Idle(s.procs) && Locked(s, p, {})
    requires |s.lh| < |s.cache.bufs| && RingOk(s.cache)
    ensures Choose(s.cache, ROOTDEV, b).Some?
  {
    ChooseMeaning(s.cache, ROOTDEV, b);
    if Choose(s.cache, ROOTDEV, b).None? {
      PinnedFill(L, s, p, -1);
    }
  }

  /** memmove into the buffer. */
  method ModifyFor(log: Log, p: nat, i: nat, data: Block, ghost left: nat, ghost s0: State)
    requires Inside(log, p, left, {i}) && i < log.cache.nbuf && CanModify(log.L, log.S(), p, i)
    requires Path(log.L, s0, log.S())
    modifies log`dirty, log.cache.buf
    ensures Inside(log, p, left, {i}) && log.S() == DoModify(log.L, old(log.S()), p, i, data)
    ensures Path(log.L, s0, log.S()) && |log.device.blocks| == log.L.size
    ensures VolMap(log.L, log.S()) == VolMap(log.L, old(log.S()))[old(log.S()).cache.bufs[i].blockno := data]
  {
    hide Inv, RingOk, Path, LayoutOk, Linked, Distinct;
    ghost var s := log.S();
    assert s.cache.bufs[i] == BufOf(log.cache.buf[i]);
    log.cache.Update(i, BufOf(log.cache.buf[i]).(data := data));
    log.dirty := log.dirty + {i};
    assert log.S() == DoModify(log.L, s, p, i, data);
    PathInv(log.L, s0, s, Modify(p, i, data));
    ModifyStep(log.L, s, p, i, data);
    QuietPhase(log.L, s);
    assert VolMap(log.L, log.S()) == VolMap(log.L, s)[s.cache.bufs[i].blockno := data];
  }

  /** log_write of a block not logged yet, with room for it. */
  method LogWriteFor(log: Log, p: nat, i: nat, ghost left: nat, ghost s0: State)
    requires Inside(log, p, left, {i}) && left > 0 && i < log.cache.nbuf && CanModify(log.L, log.S(), p, i)
    requires log.dirty == {i} && log.S().cache.bufs[i].blockno !in log.S().lh && !TooBig(log.L, log.S())
    requires Path(log.L, s0, log.S())
    modifies log`n, log`procs, log`dirty, log.block, log.cache.buf
    ensures |log.procs| == |old(log.procs)|
    ensures Inside(log, p, left - 1, {i}) && log.dirty == {} && Path(log.L, s0, log.S())
    ensures log.S().lh == old(log.S()).lh + [old(log.S()).cache.bufs[i].blockno]
    ensures |log.device.blocks| == log.L.size && VolMap(log.L, log.S()) == VolMap(log.L, old(log.S()))
  {
    hide Inv, RingOk, Path, LayoutOk, Linked, Distinct;
    ghost var s := log.S();
    var ok := log.LogWrite(p, i);
    LoggedFor(log.L, s0, s, p, i);
  }

  lemma LoggedFor(L: Layout, s0: State, s: State, p: nat, i: nat)
    requires LayoutOk(L) && Inv(L, s) && CanTestLog(L, s, p, i) && CanLogWrite(L, DoTestLog(L, s, p, i), p, i)
    requires Path(L, s0, s)
    ensures var s' := DoLogWrite(L, DoTestLog(L, s, p, i), p, i);
            Path(L, s0, s') && |s.disk| == L.size && VolMap(L, s') == VolMap(L, s)
  {
    hide Inv, Path, SameVol, VolAt;
    var s1 := DoTestLog(L, s, p, i);
    QuietPhase(L, s);
    TestLogStep(L, s, p, i);
    LogWriteStep(L, s1, p, i);
    assert Enabled(L, s, TestLog(p, i)) && Enabled(L, s1, LogWrite(p, i));
    hide CanTestLog, CanLogWrite, DoTestLog, DoLogWrite, VolMap;
    PathInv(L, s0, s, TestLog(p, i));
    PathInv(L, s0, s1, LogWrite(p, i));
    SameMap(L, s, s1);
    SameMap(L, s1, DoLogWrite(L, s1, p, i));
  }

  lemma SameMap(L: Layout, s: State, s': State)
    requires |s.disk| == L.size && |s'.disk| == L.size && SameVol(L, s, s')
    ensures VolMap(L, s') == VolMap(L, s)
  {}

  /** brelse. */
  method BrelseFor(log: Log, p: nat, i: nat, ghost left: nat, ghost s0: State)
    requires Inside(log, p, left, {i}) && log.dirty == {} && i < log.cache.nbuf && Path(log.L, s0, log.S())
    modifies log.cache, log.cache.buf
    ensures Inside(log, p, left, {}) && log.S() == old(log.S()).(cache := log.S().cache) && Path(log.L, s0, log.S())
    ensures |log.device.blocks| == log.L.size && VolMap(log.L, log.S()) == VolMap(log.L, old(log.S()))
  {
    hide Inv, RingOk, Path, LayoutOk, Linked, Distinct, Reaches, VolMap;
    ghost var s := log.S();
    HeldOk(log.L, s, i);
    var ok := log.cache.Brelse(i, p);
    InternalStep(log.L, s, Brelse(p, i));
    PathReaches(log.L, s0, s, log.S());
    SameReaders(log.L, s, log.S());
  }

  /** What the code of fs.c does with each block it changes. */
  method UpdateBlock(log: Log, p: nat, b: nat, data: Block, ghost left: nat, ghost s0: State)
    requires Inside(log, p, left, {}) && log.dirty == {} && Home(log.L, b) && log.n < log.cache.nbuf && left > 0
    requires b !in log.S().lh && !TooBig(log.L, log.S()) && Path(log.L, s0, log.S())
    modifies log`n, log`procs, log`dirty, log.block, log.cache, log.cache.buf
    ensures |log.procs| == |old(log.procs)|
    ensures Inside(log, p, left - 1, {}) && log.dirty == {} && log.S().lh == old(log.S()).lh + [b]
    ensures Path(log.L, s0, log.S())
    ensures |log.device.blocks| == log.L.size && VolMap(log.L, log.S()) == VolMap(log.L, old(log.S()))[b := data]
  {
    hide Inv, Path, VolMap, RingOk, Linked, LayoutOk;
    var i := BreadFor(log, p, b, left, s0);
    ModifyFor(log, p, i, data, left, s0);
    LogWriteFor(log, p, i, left, s0);
    BrelseFor(log, p, i, left - 1, s0);
  }

  // ----- a whole transaction

  /** The map m with the first k of the blocks written. */
  ghost function Updated(m: map<nat, Block>, blocks: seq<nat>, data: seq<Block>, k: nat): map<nat, Block>
    requires k <= |blocks| == |data|
  {
    if k == 0 then m else Updated(m, blocks, data, k - 1)[blocks[k - 1] := data[k - 1]]
  }

  /** begin_op at rest: there is room. */
  method Begin(log: Log, p: nat)
    requires AtRest(log) && p < |log.procs| && log.L.maxOp <= log.L.logSize
    modifies log`outstanding, log`procs
    ensures |log.procs| == |old(log.procs)|
    ensures Inside(log, p, log.L.maxOp, {}) && log.dirty == {} && log.n == 0
    ensures Path(log.L, old(log.S()), log.S())
    ensures |log.device.blocks| == log.L.size && VolMap(log.L, log.S()) == VolMap(log.L, old(log.S()))
  {
    hide Inv, Path, VolMap, RingOk, Linked, LayoutOk;
    ghost var s := log.S();
    NoneOpen(log.L, s);
    QuietPhase(log.L, s);
    var go := log.BeginOp(p);
    BeginOpStep(log.L, s, p);
    SameMap(log.L, s, log.S());
    PathSelf(log.L, s);
    PathInv(log.L, s, s, BeginOp(p));
  }

  lemma NoneOpen(L: Layout, s: State)
    requires LayoutOk(L) && Inv(L, s) && s.outstanding == 0 && s.phase == Running
    ensures (forall q :: 0 <= q < |s.procs| ==> s.procs[q].op.None?) && !s.committing
  {
    NoOps(s.procs);
  }

  /** The changes of a transaction, block by block. */
  method UpdateAll(log: Log, p: nat, blocks: seq<nat>, data: seq<Block>, ghost s0: State)
    requires Inside(log, p, log.L.maxOp, {}) && log.dirty == {} && log.n == 0 && Path(log.L, s0, log.S())
    requires |log.device.blocks| == log.L.size
    requires |blocks| == |data| <= log.L.maxOp <= log.L.logSize && |blocks| < log.L.nlog && |blocks| <= log.cache.nbuf
    requires Distinct(blocks) && forall k :: 0 <= k < |blocks| ==> Home(log.L, blocks[k])
    modifies log`n, log`procs, log`dirty, log.block, log.cache, log.cache.buf
    ensures |log.procs| == |old(log.procs)|
    ensures Inside(log, p, log.L.maxOp - |blocks|, {}) && log.dirty == {} && log.S().lh == blocks
    ensures Path(log.L, s0, log.S())
    ensures VolMap(log.L, log.S()) == Updated(VolMap(log.L, old(log.S())), blocks, data, |blocks|)
  {
    hide Inv, Path, VolMap, RingOk, Linked, LayoutOk, Locked, Idle;
    for k := 0 to |blocks|
      invariant Inside(log, p, log.L.maxOp - k, {}) && log.dirty == {} && log.S().lh == blocks[..k]
      invariant Path(log.L, s0, log.S()) && |log.device.blocks| == log.L.size && |log.procs| == |old(log.procs)|
      invariant VolMap(log.L, log.S()) == Updated(VolMap(log.L, old(log.S())), blocks, data, k)
    {
      UpdateBlock(log, p, blocks[k], data[k], log.L.maxOp - k, s0);
      assert blocks[..k + 1] == blocks[..k] + [blocks[k]];
    }
    assert blocks[..|blocks|] == blocks;
  }

  /** The last operation has ended and commit is to run. */
  ghost predicate Closing(log: Log)
    reads log, log.block, log.cache, log.cache.buf, log.device
  {
    && log.Busy() && (if log.n > 0 then log.phase == WritingLog(0) else log.phase == Finishing)
    && log.outstanding == 0 && log.dirty == {}
    && Idle(log.procs) && forall q :: 0 <= q < |log.procs| ==> log.procs[q].passed.None?
  }

  /** end_op by the only operation. */
  method End(log: Log, p: nat, ghost left: nat, ghost s0: State)
    requires Inside(log, p, left, {}) && log.dirty == {} && Path(log.L, s0, log.S())
    modifies log`outstanding, log`procs, log`committing, log`who, log`phase
    ensures |log.procs| == |old(log.procs)|
    ensures Closing(log) && Path(log.L, s0, log.S()) && log.n == old(log.n)
    ensures |log.device.blocks| == log.L.size && VolMap(log.L, log.S()) == VolMap(log.L, old(log.S()))
  {
    hide Inv, Path, VolMap, RingOk, Linked, LayoutOk, SameVol;
    ghost var s := log.S();
    QuietPhase(log.L, s);
    var doCommit := log.EndOp(p);
    EndOpStep(log.L, s, p);
    SameMap(log.L, s, log.S());
    PathInv(log.L, s0, s, EndOp(p));
  }

  /** commit, and what end_op does after it. */
  method Close(log: Log, ghost s0: State)
    requires Closing(log) && log.n < log.cache.nbuf && Path(log.L, s0, log.S())
    modifies log`committing, log`phase, log`n, log.cache, log.cache.buf, log.device
    ensures AtRest(log) && Path(log.L, s0, log.S())
    ensures |old(log.device.blocks)| == |log.device.blocks| == log.L.size && DiskOk(log.L, old(log.device.blocks))
    ensures VolMap(log.L, log.S()) == VolMap(log.L, old(log.S()))
    ensures old(log.device.writes) <= log.device.writes
    ensures var lo, hi, point := |old(log.device.writes)|, |log.device.writes|, |old(log.device.writes)| + old(log.n);
            && Kept(log.L, log.device.image, log.device.writes, lo, Min(point, hi),
                    Durable(log.L, old(log.device.blocks)))
            && Kept(log.L, log.device.image, log.device.writes, point + 1, hi, VolMap(log.L, log.S()))
  {
    hide Inv, Path, VolMap, RingOk, Linked, LayoutOk, Reaches, Kept, Durable, DiskOk, Header, SameVol;
    ghost var s := log.S();
    var ok := log.Commit();
    ghost var s1 := log.S();
    PathReaches(log.L, s0, s, s1);
    SameReaders(log.L, s, s1);
    FinishMap(log.L, s0, s1);
    log.committing := false;
    log.phase := Running;
  }

  lemma FinishMap(L: Layout, s0: State, s: State)
    requires LayoutOk(L) && Inv(L, s) && s.phase == Finishing && Path(L, s0, s)
    ensures var s' := s.(committing := false, phase := Running);
            Inv(L, s') && Path(L, s0, s') && |s.disk| == L.size && VolMap(L, s') == VolMap(L, s)
  {
    hide Inv, Path, VolMap, SameVol;
    QuietPhase(L, s);
    LogSteps.FinishStep(L, s);
    SameMap(L, s, s.(committing := false, phase := Running));
    PathInv(L, s0, s, LogMachine.FinishStep);
  }

  /** A transaction of at most MAXOPBLOCKS blocks is a run of the machine. It is durable when it is over, and a power
      failure after any of its writes recovers to the map before it, up to the write of the header, or to the map
      after it, from that write on. */
  method Transact(log: Log, p: nat, blocks: seq<nat>, data: seq<Block>)
    requires AtRest(log) && p < |log.procs|
    requires |blocks| == |data| <= log.L.maxOp <= log.L.logSize && |blocks| < log.L.nlog && |blocks| < log.cache.nbuf
    requires Distinct(blocks) && forall k :: 0 <= k < |blocks| ==> Home(log.L, blocks[k])
    modifies log, log.block, log.cache, log.cache.buf, log.device
    ensures |log.procs| == |old(log.procs)|
    ensures AtRest(log) && Path(log.L, old(log.S()), log.S())
    ensures |old(log.device.blocks)| == |log.device.blocks| == log.L.size
    ensures VolMap(log.L, log.S()) == Updated(VolMap(log.L, old(log.S())), blocks, data, |blocks|)
    ensures old(log.device.writes) <= log.device.writes
    ensures var lo, hi, point := |old(log.device.writes)|, |log.device.writes|, |old(log.device.writes)| + |blocks|;
            && Kept(log.L, log.device.image, log.device.writes, lo, Min(point, hi), VolMap(log.L, old(log.S())))
            && Kept(log.L, log.device.image, log.device.writes, point + 1, hi, VolMap(log.L, log.S()))
  {
    hide Inv, Path, VolMap, RingOk, Linked, LayoutOk, Kept, Durable, DiskOk, Header, Updated, Locked, Idle;
    ghost var s := log.S();
    Settled(log.L, s);
    Begin(log, p);
    UpdateAll(log, p, blocks, data, s);
    End(log, p, log.L.maxOp - |blocks|, s);
    Close(log, s);
  }

  // ----- the transactions of filewrite

  /** The blocks that differ, with what they become. */
  ghost predicate Differs(before: seq<Block>, after: seq<Block>, blocks: seq<nat>, data: seq<Block>, n: nat)
    requires n <= |before| == |after|
  {
    && |blocks| == |data| && Distinct(blocks)
    && (forall k :: 0 <= k < |blocks| ==>
          blocks[k] < n && after[blocks[k]] != before[blocks[k]] && data[k] == after[blocks[k]])
    && (forall b :: 0 <= b < n && b !in blocks ==> after[b] == before[b])
  }

  method Changed(before: seq<Block>, after: seq<Block>) returns (blocks: seq<nat>, data: seq<Block>)
    requires |before| == |after|
    ensures Differs(before, after, blocks, data, |before|)
  {
    blocks, data := [], [];
    for b := 0 to |before|
      invariant Differs(before, after, blocks, data, b)
    {
      if after[b] != before[b] {
        blocks, data := blocks + [b], data + [after[b]];
      }
    }
  }

  lemma ChangedFew(before: seq<Block>, after: seq<Block>, blocks: seq<nat>, data: seq<Block>, logged: set<nat>)
    requires |before| == |after| && Differs(before, after, blocks, data, |before|)
    requires FsCode.Complete(FsCode.Tx(before, after, logged))
    ensures |blocks| <= |logged| && forall k :: 0 <= k < |blocks| ==> blocks[k] in logged
  {
    DistinctCount(blocks);
    FsCode.SubsetSize(Elements(blocks), logged);
  }

  lemma {:induction false} UpdatedAt(m: map<nat, Block>, blocks: seq<nat>, data: seq<Block>, n: nat, b: nat)
    requires n <= |blocks| == |data| && Distinct(blocks)
    ensures b in Updated(m, blocks, data, n) <==> b in m || b in blocks[..n]
    ensures b in m && b !in blocks[..n] ==> Updated(m, blocks, data, n)[b] == m[b]
    ensures forall k :: 0 <= k < n && blocks[k] == b ==> Updated(m, blocks, data, n)[b] == data[k]
  {
    if n > 0 {
      UpdatedAt(m, blocks, data, n - 1, b);
      assert blocks[..n] == blocks[..n - 1] + [blocks[n - 1]];
    }
  }

  lemma UpdatedIsAfter(L: Layout, before: seq<Block>, after: seq<Block>, blocks: seq<nat>, data: seq<Block>)
    requires |before| == |after| == L.size && Differs(before, after, blocks, data, |before|)
    requires forall k :: 0 <= k < |blocks| ==> Home(L, blocks[k])
    ensures Updated(FsCrash.MapOf(L, before), blocks, data, |blocks|) == FsCrash.MapOf(L, after)
  {
    var m := Updated(FsCrash.MapOf(L, before), blocks, data, |blocks|);
    forall b: nat ensures b in m <==> b in FsCrash.MapOf(L, after) {
      UpdatedAt(FsCrash.MapOf(L, before), blocks, data, |blocks|, b);
    }
    forall b: nat | b in m ensures m[b] == FsCrash.MapOf(L, after)[b] {
      UpdatedAt(FsCrash.MapOf(L, before), blocks, data, |blocks|, b);
      if b in blocks { var k :| 0 <= k < |blocks| && blocks[k] == b; }
    }
  }

  /** Power failure after the first k writes recovers the map of one of the disks between the transactions. */
  ghost predicate Whole(L: Layout, image: Disk, ws: seq<(nat, Block)>, k: nat, store: seq<Block>, txs: seq<FsCode.Tx>)
    requires LayoutOk(L) && k <= |ws| && FsCrash.Sized(L, store, txs)
  {
    && DiskOk(L, Written(image, ws[..k]))
    && exists t: nat :: FsCrash.Survives(L, store, txs, Durable(L, Written(image, ws[..k])), t)
  }

  /** One transaction of FsCode, as a process makes it. */
  method PerformOne(log: Log, p: nat, txs: seq<FsCode.Tx>, t: nat, ghost store: seq<Block>, ghost lo: nat)
    requires AtRest(log) && p < |log.procs| && FsCrash.Sized(log.L, store, txs) && t < |txs|
    requires txs[t].before == FsCrash.StoreAt(store, txs, t) && FsCode.Complete(txs[t])
    requires |txs[t].logged| <= log.L.maxOp <= log.L.logSize && |txs[t].logged| < log.L.nlog
    requires |txs[t].logged| < log.cache.nbuf && forall b :: b in txs[t].logged ==> Home(log.L, b)
    requires |log.device.blocks| == log.L.size
    requires VolMap(log.L, log.S()) == FsCrash.MapOf(log.L, FsCrash.StoreAt(store, txs, t))
    requires lo <= |log.device.writes|
    requires forall k :: lo <= k <= |log.device.writes| ==>
               Whole(log.L, log.device.image, log.device.writes, k, store, txs)
    modifies log, log.block, log.cache, log.cache.buf, log.device
    ensures |log.procs| == |old(log.procs)|
    ensures AtRest(log) && Path(log.L, old(log.S()), log.S()) && |log.device.blocks| == log.L.size
    ensures VolMap(log.L, log.S()) == FsCrash.MapOf(log.L, FsCrash.StoreAt(store, txs, t + 1))
    ensures old(log.device.writes) <= log.device.writes
    ensures forall k :: lo <= k <= |log.device.writes| ==>
              Whole(log.L, log.device.image, log.device.writes, k, store, txs)
  {
    hide Inv, Path, VolMap, RingOk, Linked, LayoutOk, Kept, Durable, DiskOk, Header, Updated, Locked, Idle, Whole;
    hide FsCrash.MapOf, FsCode.Complete, Differs;
    var before, after := txs[t].before, txs[t].after;
    var blocks, data := Changed(before, after);
    ChangedFew(before, after, blocks, data, txs[t].logged);
    DiffersList(before, after, blocks, data);
    UpdatedIsAfter(log.L, before, after, blocks, data);
    ghost var ws := log.device.writes;
    Transact(log, p, blocks, data);
    WholeMore(log.L, log.device.image, ws, log.device.writes, lo, |ws| + |blocks|, store, txs, t);
  }

  lemma DiffersList(before: seq<Block>, after: seq<Block>, blocks: seq<nat>, data: seq<Block>)
    requires |before| == |after| && Differs(before, after, blocks, data, |before|)
    ensures |blocks| == |data| && Distinct(blocks)
  {}

  lemma WholeMore(L: Layout, image: Disk, ws: seq<(nat, Block)>, ws': seq<(nat, Block)>, lo: nat, point: nat,
                  store: seq<Block>, txs: seq<FsCode.Tx>, t: nat)
    requires LayoutOk(L) && ws <= ws' && FsCrash.Sized(L, store, txs) && t < |txs| && lo <= |ws| <= point
    requires forall k :: lo <= k <= |ws| ==> Whole(L, image, ws, k, store, txs)
    requires Kept(L, image, ws', |ws|, Min(point, |ws'|), FsCrash.MapOf(L, FsCrash.StoreAt(store, txs, t)))
    requires Kept(L, image, ws', point + 1, |ws'|, FsCrash.MapOf(L, FsCrash.StoreAt(store, txs, t + 1)))
    ensures forall k :: lo <= k <= |ws'| ==> Whole(L, image, ws', k, store, txs)
  {
    hide Written, DiskOk, Durable, FsCrash.MapOf;
    forall k | lo <= k <= |ws'| ensures Whole(L, image, ws', k, store, txs) {
      if k < |ws| {
        assert Whole(L, image, ws, k, store, txs) && ws'[..k] == ws[..k];
      } else {
        var dur := Durable(L, Written(image, ws'[..k]));
        assert FsCrash.Survives(L, store, txs, dur, if k <= point then t else t + 1);
      }
    }
  }

  lemma {:induction false} ChainedAt(store: seq<Block>, txs: seq<FsCode.Tx>, last: seq<Block>, t: nat)
    requires FsCode.Chained(store, txs, last) && t < |txs|
    ensures txs[t].before == FsCrash.StoreAt(store, txs, t) && last == FsCrash.StoreAt(store, txs, |txs|)
    decreases |txs|
  {
    var n := |txs| - 1;
    if t < n {
      ChainedAt(store, txs[..n], txs[n].before, t);
    } else if n > 0 {
      ChainedAt(store, txs[..n], txs[n].before, n - 1);
    }
  }

  /** Transactions that the log has room for, with every change logged. */
  ghost predicate Fits(L: Layout, txs: seq<FsCode.Tx>, nbuf: nat) {
    forall t :: 0 <= t < |txs| ==>
      && FsCode.Complete(txs[t]) && |txs[t].logged| <= L.maxOp && |txs[t].logged| < L.nlog && |txs[t].logged| < nbuf
      && forall b :: b in txs[t].logged ==> Home(L, b)
  }

  /** A chain of transactions, made by a process on the log one after the other, is a run of the machine. A power
      failure after any of its disk writes recovers the disk as it was between two of them. */
  method Perform(log: Log, p: nat, txs: seq<FsCode.Tx>, ghost store: seq<Block>, ghost last: seq<Block>)
    requires AtRest(log) && p < |log.procs| && log.L.maxOp <= log.L.logSize
    requires FsCrash.Sized(log.L, store, txs) && FsCode.Chained(store, txs, last) && Fits(log.L, txs, log.cache.nbuf)
    requires |log.device.blocks| == log.L.size && VolMap(log.L, log.S()) == FsCrash.MapOf(log.L, store)
    modifies log, log.block, log.cache, log.cache.buf, log.device
    ensures AtRest(log) && Path(log.L, old(log.S()), log.S()) && |log.device.blocks| == |last| == log.L.size
    ensures VolMap(log.L, log.S()) == FsCrash.MapOf(log.L, last)
    ensures old(log.device.writes) <= log.device.writes
    ensures forall k :: |old(log.device.writes)| <= k <= |log.device.writes| ==>
              Whole(log.L, log.device.image, log.device.writes, k, store, txs)
  {
    hide Inv, Path, VolMap, RingOk, Linked, LayoutOk, Kept, Durable, DiskOk, Header, Locked, Idle, Whole;
    hide FsCrash.MapOf, FsCode.Complete;
    ghost var lo := |log.device.writes|;
    WholeNow(log.L, log.S(), log.device.image, log.device.writes, store, txs);
    PathSelf(log.L, log.S());
    for t := 0 to |txs|
      invariant AtRest(log) && Path(log.L, old(log.S()), log.S()) && |log.device.blocks| == log.L.size
      invariant VolMap(log.L, log.S()) == FsCrash.MapOf(log.L, FsCrash.StoreAt(store, txs, t))
      invariant old(log.device.writes) <= log.device.writes && |log.procs| == |old(log.procs)|
      invariant forall k :: lo <= k <= |log.device.writes| ==>
                  Whole(log.L, log.device.image, log.device.writes, k, store, txs)
    {
      ghost var s := log.S();
      ChainedAt(store, txs, last, t);
      PerformOne(log, p, txs, t, store, lo);
      PathTrans(log.L, old(log.S()), s, log.S());
    }
    if txs != [] { ChainedAt(store, txs, last, 0); }
  }

  /** The transactions of a filewrite: a power failure after any of the disk writes recovers a sound file system with
      a whole number of its pieces. */
  method PerformFilewrite(log: Log, p: nat, txs: seq<FsCode.Tx>, ghost sb: FsFormat.Superblock, ghost f: FsState.Fs,
                          ghost i: nat, ghost from: nat, ghost src: seq<byte>, ghost n: nat, ghost last: seq<Block>)
    requires AtRest(log) && p < |log.procs| && log.L.size == sb.size && log.L.logstart + log.L.nlog <= sb.inodestart
    requires FsCode.MAXOPBLOCKS <= log.L.maxOp <= log.L.logSize
    requires FsCode.MAXOPBLOCKS < log.L.nlog && FsCode.MAXOPBLOCKS < log.cache.nbuf
    requires FsCode.Sound(sb, f.store) && f.ino == FsFormat.Inos(sb, f.store) && i < sb.ninodes
    requires FsCode.Chained(f.store, txs, last) && FsCode.Pieces(sb, f, i, from, src, n, txs, true)
    requires |log.device.blocks| == log.L.size && VolMap(log.L, log.S()) == FsCrash.MapOf(log.L, f.store)
    modifies log, log.block, log.cache, log.cache.buf, log.device
    ensures AtRest(log) && Path(log.L, old(log.S()), log.S()) && |log.device.blocks| == |last| == log.L.size
    ensures VolMap(log.L, log.S()) == FsCrash.MapOf(log.L, last)
    ensures old(log.device.writes) <= log.device.writes
    ensures forall k :: |old(log.device.writes)| <= k <= |log.device.writes| ==>
              RecoversAt(log.L, log.device.image, log.device.writes, k, sb, f, i, from, src, n, |txs|)
  {
    assert LayoutOk(log.L);
    hide Inv, Path, VolMap, RingOk, Linked, LayoutOk, Kept, Durable, DiskOk, Header, Locked, Idle, Whole, AtRest;
    hide FsCrash.MapOf, FsCode.Complete, FsCode.Pieces, FsCrash.Recovers, FsState.Owning, FsState.NoHoles, RecoversAt;
    hide FsCode.Chained;
    FsCrash.PiecesSized(log.L, sb, f, i, from, src, n, txs);
    PiecesFit(log.L, sb, f, i, from, src, n, txs, log.cache.nbuf);
    Perform(log, p, txs, f.store, last);
    forall k | |old(log.device.writes)| <= k <= |log.device.writes|
      ensures RecoversAt(log.L, log.device.image, log.device.writes, k, sb, f, i, from, src, n, |txs|)
    {
      WholeRecovers(log.L, log.device.image, log.device.writes, k, sb, f, i, from, src, n, txs);
    }
  }

  /** Power failure after the first k writes recovers a sound file system with some number t of the pieces. */
  ghost predicate RecoversAt(L: Layout, image: Disk, ws: seq<(nat, Block)>, k: nat, sb: FsFormat.Superblock,
                             f: FsState.Fs, i: nat, from: nat, src: seq<byte>, n: nat, most: nat)
    requires LayoutOk(L) && k <= |ws| && FsState.Healthy(sb, f) && i < sb.ninodes
  {
    && DiskOk(L, Written(image, ws[..k]))
    && exists t: nat :: t <= most &&
         FsCrash.Recovers(L, sb, f, i, from, src, Durable(L, Written(image, ws[..k])), Min(t * FsCode.PIECE, n))
  }

  lemma WholeNow(L: Layout, s: State, image: Disk, ws: seq<(nat, Block)>, store: seq<Block>, txs: seq<FsCode.Tx>)
    requires LayoutOk(L) && Inv(L, s) && s.lh == [] && s.phase == Running && s.dirty == {}
    requires s.disk == Written(image, ws) && FsCrash.Sized(L, store, txs) && |s.disk| == L.size
    requires VolMap(L, s) == FsCrash.MapOf(L, store)
    ensures Whole(L, image, ws, |ws|, store, txs)
  {
    hide Inv, VolMap, FsCrash.MapOf, Written;
    LogCode.Settled(L, s);
    assert ws[..|ws|] == ws;
    assert FsCrash.Survives(L, store, txs, Durable(L, s.disk), 0);
  }

  lemma PiecesFit(L: Layout, sb: FsFormat.Superblock, f: FsState.Fs, i: nat, from: nat, src: seq<byte>, n: nat,
                  txs: seq<FsCode.Tx>, nbuf: nat)
    requires FsState.Healthy(sb, f) && i < sb.ninodes && FsCode.Pieces(sb, f, i, from, src, n, txs, true)
    requires L.size == sb.size && L.logstart + L.nlog <= sb.inodestart
    requires FsCode.MAXOPBLOCKS <= L.maxOp && FsCode.MAXOPBLOCKS < L.nlog && FsCode.MAXOPBLOCKS < nbuf
    ensures Fits(L, txs, nbuf)
  {}

  lemma WholeRecovers(L: Layout, image: Disk, ws: seq<(nat, Block)>, k: nat, sb: FsFormat.Superblock, f: FsState.Fs,
                      i: nat, from: nat, src: seq<byte>, n: nat, txs: seq<FsCode.Tx>)
    requires LayoutOk(L) && k <= |ws| && FsCrash.Sized(L, f.store, txs) && Whole(L, image, ws, k, f.store, txs)
    requires L.size == sb.size && FsCode.Sound(sb, f.store) && f.ino == FsFormat.Inos(sb, f.store) && i < sb.ninodes
    requires FsCode.Pieces(sb, f, i, from, src, n, txs, true)
    ensures RecoversAt(L, image, ws, k, sb, f, i, from, src, n, |txs|)
  {
    var dur := Durable(L, Written(image, ws[..k]));
    var t: nat :| FsCrash.Survives(L, f.store, txs, dur, t);
    FsCrash.SurvivorIsPrefix(L, sb, f, i, from, src, n, txs, dur, t);
  }

  /** A call that is one transaction, such as those of DirCode: a power failure after any of its disk writes recovers
      the disk before the call or the disk after it, and both are sound. */
  method PerformCall(log: Log, p: nat, tx: FsCode.Tx, ghost sb: FsFormat.Superblock, ghost most: nat)
    requires AtRest(log) && p < |log.procs| && log.L.size == sb.size && log.L.logstart + log.L.nlog <= sb.inodestart
    requires DirCode.Whole(sb, tx, tx.before, tx.after, most)
    requires most <= log.L.maxOp <= log.L.logSize && most < log.L.nlog && most < log.cache.nbuf
    requires |log.device.blocks| == |tx.before| == log.L.size
    requires VolMap(log.L, log.S()) == FsCrash.MapOf(log.L, tx.before)
    modifies log, log.block, log.cache, log.cache.buf, log.device
    ensures AtRest(log) && Path(log.L, old(log.S()), log.S()) && |log.device.blocks| == |tx.after| == log.L.size
    ensures VolMap(log.L, log.S()) == FsCrash.MapOf(log.L, tx.after)
    ensures old(log.device.writes) <= log.device.writes
    ensures forall k :: |old(log.device.writes)| <= k <= |log.device.writes| ==>
              AllOrNothing(log.L, log.device.image, log.device.writes, k, tx)
    ensures FsCode.Sound(sb, tx.before) && FsCode.Sound(sb, tx.after)
  {
    assert LayoutOk(log.L);
    assert |tx.after| == log.L.size && FsCode.Complete(tx) && Fits(log.L, [tx], log.cache.nbuf);
    hide Inv, Path, VolMap, RingOk, Linked, LayoutOk, Kept, Durable, DiskOk, Header, Locked, Idle, Whole, AtRest;
    hide FsCrash.MapOf, FsCode.Complete, FsCode.Sound, AllOrNothing, Fits;
    OneChained(tx);
    Perform(log, p, [tx], tx.before, tx.after);
    forall k | |old(log.device.writes)| <= k <= |log.device.writes|
      ensures AllOrNothing(log.L, log.device.image, log.device.writes, k, tx)
    {
      WholeOne(log.L, log.device.image, log.device.writes, k, tx);
    }
  }

  lemma OneChained(tx: FsCode.Tx)
    ensures FsCode.Chained(tx.before, [tx], tx.after)
  {
    assert [tx][..0] == [];
  }

  /** Power failure after the first k writes recovers the map before the transaction or the map after it. */
  ghost predicate AllOrNothing(L: Layout, image: Disk, ws: seq<(nat, Block)>, k: nat, tx: FsCode.Tx)
    requires LayoutOk(L) && k <= |ws| && |tx.before| == |tx.after| == L.size
  {
    && DiskOk(L, Written(image, ws[..k]))
    && Durable(L, Written(image, ws[..k])) in {FsCrash.MapOf(L, tx.before), FsCrash.MapOf(L, tx.after)}
  }

  lemma WholeOne(L: Layout, image: Disk, ws: seq<(nat, Block)>, k: nat, tx: FsCode.Tx)
    requires LayoutOk(L) && k <= |ws| && |tx.before| == |tx.after| == L.size && FsCrash.Sized(L, tx.before, [tx])
    requires Whole(L, image, ws, k, tx.before, [tx])
    ensures AllOrNothing(L, image, ws, k, tx)
  {
    hide Written, Durable, DiskOk, FsCrash.MapOf;
    var t: nat :| FsCrash.Survives(L, tx.before, [tx], Durable(L, Written(image, ws[..k])), t);
    assert t == 0 || t == 1;
  }
}
