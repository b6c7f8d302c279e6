/** What each step of `LogMachine` does to the disk's meaning and to the block map that clients see, for as
    long as the list fits the log region. */
module LogSteps {
  import opened Blocks
  import opened CacheModel
  import opened LogDisk
  import opened LogMachine
  import opened LogInvariant
  import opened LogCore

  /** Every home block reads the same in s and s'. */
  ghost predicate SameVol(L: Layout, s: State, s': State)
    requires |s.disk| == L.size && |s'.disk| == L.size
  {
    forall b :: 0 <= b < L.size && Home(L, b) ==> VolAt(s', b) == VolAt(s, b)
  }

  lemma VolTrans(L: Layout, s: State, m: State, s': State)
    requires |s.disk| == |m.disk| == |s'.disk| == L.size && SameVol(L, s, m) && SameVol(L, m, s')
    ensures SameVol(L, s, s')
  {}

  lemma PhaseFrame(L: Layout, s: State, s': State)
    requires LayoutOk(L) && |s.disk| == L.size && EntriesOk(L, s.lh) && PhaseOk(L, s)
    requires s'.disk == s.disk && s'.lh == s.lh && s'.phase == s.phase && SameVol(L, s, s')
    ensures PhaseOk(L, s')
  {}

  // ----- the buffer cache

  lemma RefVol(L: Layout, s: State, p: nat, b: nat)
    requires LayoutOk(L) && CacheOk(L, s) && DirtyOk(L, s) && CanRef(L, s, p, b) && b < L.size
    ensures |DoRef(L, s, p, b).disk| == L.size && SameVol(L, s, DoRef(L, s, p, b))
  {
    var s' := DoRef(L, s, p, b);
    ChooseMeaning(s.cache, ROOTDEV, b);
    ReferenceKeepsRing(s.cache, ROOTDEV, b);
    var i := Choose(s.cache, ROOTDEV, b).value;
    assert CountOk(s, i) && CleanOk(s, i) && DevOk(L, s.cache.bufs[i]);
    forall c | 0 <= c < L.size ensures VolAt(s', c) == VolAt(s, c) {
      VolSame(s, s', c);
    }
  }

  lemma RefStep(L: Layout, s: State, p: nat, b: nat)
    requires LayoutOk(L) && Inv(L, s) && CanRef(L, s, p, b)
    ensures var s' := DoRef(L, s, p, b); Inv(L, s') && SameVol(L, s, s')
  {
    RefCore(L, s, p, b);
    RefVol(L, s, p, b);
    hide CacheOk, DirtyOk, Choose, Reference;
    PhaseFrame(L, s, DoRef(L, s, p, b));
  }

  lemma LockStep(L: Layout, s: State, p: nat)
    requires LayoutOk(L) && Inv(L, s) && CanLock(s, p)
    ensures var s' := DoLock(s, p); Inv(L, s') && SameVol(L, s, s')
  {
    LockCore(L, s, p);
    LockVol(L, s, p);
    PhaseFrame(L, s, DoLock(s, p));
  }

  lemma LockVol(L: Layout, s: State, p: nat)
    requires LayoutOk(L) && CacheOk(L, s) && CanLock(s, p) && CacheOk(L, DoLock(s, p))
    ensures SameVol(L, s, DoLock(s, p))
  {
    var s' := DoLock(s, p);
    forall c | 0 <= c < L.size ensures VolAt(s', c) == VolAt(s, c) {
      VolSame(s, s', c);
    }
  }

  lemma FillStep(L: Layout, s: State, p: nat, i: nat)
    requires LayoutOk(L) && Inv(L, s) && CanFill(s, p, i)
    ensures var s' := DoFill(s, p, i); Inv(L, s') && SameVol(L, s, s')
  {
    var s' := DoFill(s, p, i);
    FillCore(L, s, p, i);
    FillVol(L, s, p, i);
    hide CacheOk, DirtyOk, ProcsOk;
    PhaseFrame(L, s, s');
  }

  lemma FillVol(L: Layout, s: State, p: nat, i: nat)
    requires LayoutOk(L) && CacheOk(L, s) && CanFill(s, p, i) && CacheOk(L, DoFill(s, p, i))
    ensures SameVol(L, s, DoFill(s, p, i))
  {
    var s' := DoFill(s, p, i);
    assert DevOk(L, s.cache.bufs[i]);
    forall c | 0 <= c < L.size ensures VolAt(s', c) == VolAt(s, c) {
      VolSame(s, s', c);
    }
  }

  lemma BrelseStep(L: Layout, s: State, p: nat, i: nat)
    requires LayoutOk(L) && Inv(L, s) && CanBrelse(s, p, i)
    ensures var s' := DoBrelse(s, p, i); Inv(L, s') && SameVol(L, s, s')
  {
    var s' := DoBrelse(s, p, i);
    BrelseCore(L, s, p, i);
    BrelseVol(L, s, p, i);
    hide CacheOk, DirtyOk, ProcsOk;
    PhaseFrame(L, s, s');
  }

  lemma BrelseVol(L: Layout, s: State, p: nat, i: nat)
    requires LayoutOk(L) && CacheOk(L, s) && CanBrelse(s, p, i) && CacheOk(L, DoBrelse(s, p, i))
    ensures SameVol(L, s, DoBrelse(s, p, i))
  {
    var s' := DoBrelse(s, p, i);
    forall c | 0 <= c < L.size ensures VolAt(s', c) == VolAt(s, c) {
      VolSame(s, s', c);
    }
  }

  // ----- a client changes a buffer it has locked

  lemma ModifyStep(L: Layout, s: State, p: nat, i: nat, data: Block)
    requires LayoutOk(L) && Inv(L, s) && CanModify(L, s, p, i)
    ensures var s' := DoModify(L, s, p, i, data);
            && Inv(L, s')
            && VolAt(s', s.cache.bufs[i].blockno) == data
            && forall b :: 0 <= b < L.size && b != s.cache.bufs[i].blockno ==> VolAt(s', b) == VolAt(s, b)
  {
    QuietPhase(L, s);
    ModifyCore(L, s, p, i, data);
    ModifyVol(L, s, p, i, data);
  }

  lemma ModifyVol(L: Layout, s: State, p: nat, i: nat, data: Block)
    requires LayoutOk(L) && CacheOk(L, s) && CanModify(L, s, p, i) && CacheOk(L, DoModify(L, s, p, i, data))
    ensures var s' := DoModify(L, s, p, i, data);
            && VolAt(s', s.cache.bufs[i].blockno) == data
            && forall b :: 0 <= b < L.size && b != s.cache.bufs[i].blockno ==> VolAt(s', b) == VolAt(s, b)
  {
    var s' := DoModify(L, s, p, i, data);
    VolCached(s', i, s.cache.bufs[i].blockno);
    forall b | 0 <= b < L.size && b != s.cache.bufs[i].blockno ensures VolAt(s', b) == VolAt(s, b) {
      VolSame(s, s', b);
    }
  }

  // ----- log_write

  lemma TestLogStep(L: Layout, s: State, p: nat, i: nat)
    requires LayoutOk(L) && Inv(L, s) && CanTestLog(L, s, p, i)
    ensures var s' := DoTestLog(L, s, p, i); Inv(L, s') && SameVol(L, s, s')
  {
    var s' := DoTestLog(L, s, p, i);
    TestLogCore(L, s, p, i);
    forall c | 0 <= c < L.size ensures VolAt(s', c) == VolAt(s, c) {
      VolSame(s, s', c);
    }
    hide CacheOk, DirtyOk, ProcsOk;
    PhaseFrame(L, s, s');
  }

  /** The list still fits the log region when the block is new and there is room for one more. */
  lemma LogWriteStep(L: Layout, s: State, p: nat, i: nat)
    requires LayoutOk(L) && Inv(L, s) && CanLogWrite(L, s, p, i)
    requires s.cache.bufs[i].blockno in s.lh || |s.lh| + 1 < L.nlog
    ensures var s' := DoLogWrite(L, s, p, i); Inv(L, s') && SameVol(L, s, s')
  {
    var s' := DoLogWrite(L, s, p, i);
    QuietPhase(L, s);
    LogWriteCore(L, s, p, i);
    LogWriteVol(L, s, p, i);
    hide CacheOk, DirtyOk, ProcsOk;
  }

  lemma LogWriteVol(L: Layout, s: State, p: nat, i: nat)
    requires LayoutOk(L) && CacheOk(L, s) && CanLogWrite(L, s, p, i) && CacheOk(L, DoLogWrite(L, s, p, i))
    ensures SameVol(L, s, DoLogWrite(L, s, p, i))
  {
    var s' := DoLogWrite(L, s, p, i);
    forall c | 0 <= c < L.size ensures VolAt(s', c) == VolAt(s, c) {
      VolSame(s, s', c);
    }
  }

  // ----- begin_op and end_op

  lemma BeginOpStep(L: Layout, s: State, p: nat)
    requires LayoutOk(L) && Inv(L, s) && CanBeginOp(L, s, p)
    ensures var s' := DoBeginOp(L, s, p); Inv(L, s') && SameVol(L, s, s')
  {
    var s' := DoBeginOp(L, s, p);
    BeginOpCore(L, s, p);
    VolUntouched(L, s, s');
    hide CacheOk, DirtyOk, ProcsOk;
    PhaseFrame(L, s, s');
  }

  lemma VolUntouched(L: Layout, s: State, s': State)
    requires CacheOk(L, s) && s'.cache == s.cache && s'.disk == s.disk
    ensures SameVol(L, s, s')
  {
    forall c | 0 <= c < L.size ensures VolAt(s', c) == VolAt(s, c) {
      VolSame(s, s', c);
    }
  }

  lemma EndOpStep(L: Layout, s: State, p: nat)
    requires LayoutOk(L) && Inv(L, s) && CanEndOp(s, p)
    ensures var s' := DoEndOp(s, p); Inv(L, s') && SameVol(L, s, s')
  {
    var s' := DoEndOp(s, p);
    QuietPhase(L, s);
    EndOpCore(L, s, p);
    VolUntouched(L, s, s');
    hide CacheOk, DirtyOk, ProcsOk, SameVol;
  }

  lemma FinishStep(L: Layout, s: State)
    requires LayoutOk(L) && Inv(L, s) && s.phase.Finishing?
    ensures var s' := s.(committing := false, phase := Running); Inv(L, s') && SameVol(L, s, s')
  {
    var s' := s.(committing := false, phase := Running);
    FinishCore(L, s);
    VolUntouched(L, s, s');
    hide CacheOk, DirtyOk, ProcsOk, SameVol;
  }

  // ----- commit() and recover_from_log()

  lemma WriteLogStepOk(L: Layout, s: State, i: nat, j: nat)
    requires LayoutOk(L) && Inv(L, s) && CanWriteLog(L, s, i, j)
    ensures var s' := DoWriteLog(L, s, i, j);
            Inv(L, s') && SameVol(L, s, s') && Durable(L, s'.disk) == Durable(L, s.disk)
  {
    var s' := DoWriteLog(L, s, i, j);
    var t := s.phase.tail;
    WriteLogCore(L, s, i, j);
    StoreCache(L, s, i, s.cache.bufs[j].data, s');
    LogBlockWrite(L, s.disk, t, s.cache.bufs[j].data);
    VolCached(s, j, s.lh[t]);
    hide CacheOk, DirtyOk, ProcsOk;
    assert LogHolds(L, s', t + 1);
  }

  /** The block map clients see, on the blocks outside the log. */
  ghost function VolMap(L: Layout, s: State): map<nat, Block>
    requires |s.disk| == L.size
  {
    map b | 0 <= b < L.size && Home(L, b) :: VolAt(s, b)
  }

  /** The commit point: after this one write the durable map is what clients see. */
  lemma WriteHeadStepOk(L: Layout, s: State, i: nat)
    requires LayoutOk(L) && Inv(L, s) && CanWriteHead(L, s, i)
    ensures var s' := DoWriteHead(L, s, i);
            Inv(L, s') && SameVol(L, s, s') && Durable(L, s'.disk) == VolMap(L, s)
  {
    var s' := DoWriteHead(L, s, i);
    WriteHeadCore(L, s, i);
    WriteHeadDisk(L, s, s.cache.bufs[i].data);
    StoreCache(L, s, i, EncodeHead(s.cache.bufs[i].data, s.lh), s');
    hide CacheOk, DirtyOk, ProcsOk, EncodeHead, Header, DiskOk, Durable, VolMap;
    assert LogHolds(L, s', |s.lh|);
  }

  lemma WriteHeadDisk(L: Layout, s: State, prior: Block)
    requires LayoutOk(L) && Inv(L, s) && s.phase.WritingHead?
    ensures var disk' := s.disk[L.logstart := EncodeHead(prior, s.lh)];
            DiskOk(L, disk') && Header(L, disk') == s.lh && Durable(L, disk') == VolMap(L, s)
  {
    QuietPhase(L, s);
    forall b | b in VolMap(L, s) && b !in s.lh ensures s.disk[b] == VolMap(L, s)[b] {
      VolClean(L, s, b);
    }
    HeadWriteCommits(L, s.disk, prior, s.lh, VolMap(L, s));
  }

  /** The log block about to be installed carries what its home block's buffer already holds. */
  lemma InstallSource(L: Layout, s: State, i: nat, j: nat)
    requires LayoutOk(L) && Inv(L, s) && s.phase.Installing? && CanInstall(L, s, i, j, s.phase.tail)
    ensures s.cache.bufs[i].data == s.disk[LogBlock(L, s.phase.tail)] == s.cache.bufs[j].data
  {
    QuietPhase(L, s);
    assert CleanOk(s, i);
    VolCached(s, j, s.lh[s.phase.tail]);
  }

  lemma InstallVol(L: Layout, s: State, i: nat, j: nat)
    requires LayoutOk(L) && CacheOk(L, s) && s.phase.Installing? && CanInstall(L, s, i, j, s.phase.tail)
    requires CacheOk(L, DoInstall(L, s, i, j)) && s.cache.bufs[i].data == s.cache.bufs[j].data
    ensures SameVol(L, s, DoInstall(L, s, i, j))
  {
    var s' := DoInstall(L, s, i, j);
    var t := s.phase.tail;
    forall b | 0 <= b < L.size && Home(L, b) ensures VolAt(s', b) == VolAt(s, b) {
      if b == s.lh[t] {
        VolCached(s, j, b);
        VolCached(s', j, b);
      } else {
        VolSame(s, s', b);
      }
    }
  }

  lemma InstallStepOk(L: Layout, s: State, i: nat, j: nat)
    requires LayoutOk(L) && Inv(L, s) && s.phase.Installing? && CanInstall(L, s, i, j, s.phase.tail)
    ensures var s' := DoInstall(L, s, i, j);
            Inv(L, s') && SameVol(L, s, s') && Durable(L, s'.disk) == Durable(L, s.disk)
  {
    QuietPhase(L, s);
    InstallSource(L, s, i, j);
    InstallCore(L, s, i, j);
    InstallVol(L, s, i, j);
    InstallWrite(L, s.disk, s.phase.tail);
    InstallPhase(L, s, i, j);
    hide CacheOk, DirtyOk, ProcsOk, PhaseOk, EntriesOk, Durable, SameVol, Home;
  }

  lemma InstallPhase(L: Layout, s: State, i: nat, j: nat)
    requires LayoutOk(L) && s.phase.Installing? && CanInstall(L, s, i, j, s.phase.tail) && |s.disk| == L.size
    requires EntriesOk(L, s.lh) && PhaseOk(L, s) && s.dirty == {}
    requires CacheOk(L, DoInstall(L, s, i, j)) && SameVol(L, s, DoInstall(L, s, i, j))
    requires s.cache.bufs[i].data == s.disk[LogBlock(L, s.phase.tail)]
    requires var d := s.disk[s.lh[s.phase.tail] := s.disk[LogBlock(L, s.phase.tail)]];
             DiskOk(L, d) && Header(L, d) == Header(L, s.disk)
    ensures var s' := DoInstall(L, s, i, j); |s'.disk| == L.size && EntriesOk(L, s'.lh) && PhaseOk(L, s')
  {
    hide DiskOk, Header;
    var s' := DoInstall(L, s, i, j);
    var t := s.phase.tail;
    assert s'.disk == s.disk[s.lh[t] := s.disk[LogBlock(L, t)]];
    if t + 1 == |s.lh| {
      forall k | 0 <= k < |s.lh| ensures s'.disk[LogBlock(L, k)] == s'.disk[s.lh[k]] {
        VolClean(L, s', s.lh[k]);
      }
    }
  }

  lemma EraseDisk(L: Layout, s: State, prior: Block)
    requires LayoutOk(L) && Inv(L, s) && (s.phase.Erasing? || s.phase.Clearing?)
    ensures var disk' := s.disk[L.logstart := EncodeHead(prior, [])];
            && |s.disk| == L.size && DiskOk(L, s.disk) && DiskOk(L, disk')
            && Header(L, disk') == [] && Durable(L, disk') == Durable(L, s.disk)
  {
    EraseWrite(L, s.disk, prior);
  }

  lemma EraseVol(L: Layout, s: State, i: nat, next: Phase)
    requires LayoutOk(L) && Core(L, s) && CanErase(L, s, i)
    requires (s.phase.Erasing? && next == Finishing) || (s.phase.Clearing? && next == Running)
    ensures SameVol(L, s, DoErase(L, s, i, next))
  {
    StoreCache(L, s, i, EncodeHead(s.cache.bufs[i].data, []), DoErase(L, s, i, next));
  }

  lemma EraseStepOk(L: Layout, s: State, i: nat, next: Phase)
    requires LayoutOk(L) && Inv(L, s) && CanErase(L, s, i)
    requires (s.phase.Erasing? && next == Finishing) || (s.phase.Clearing? && next == Running)
    ensures var s' := DoErase(L, s, i, next);
            Inv(L, s') && SameVol(L, s, s') && Durable(L, s'.disk) == Durable(L, s.disk)
  {
    hide CacheOk, DirtyOk, ProcsOk, PassOk, SingleOk, AdmissionOk, EncodeHead, Header, Durable, HeadReadable, HeadOk;
    hide VolAt, LogHolds, Installed, SameVol;
    EraseCore(L, s, i, next);
    EraseVol(L, s, i, next);
    EraseDisk(L, s, s.cache.bufs[i].data);
    assert DoErase(L, s, i, next).disk == s.disk[L.logstart := EncodeHead(s.cache.bufs[i].data, [])];
  }

  // ----- power failure and recovery

  lemma RebootOk(L: Layout, s: State)
    requires LayoutOk(L) && DiskOk(L, s.disk)
    ensures Inv(L, Reboot(s))
  {
    RebootCore(L, s);
  }

  lemma RecHeadStepOk(L: Layout, s: State, i: nat)
    requires LayoutOk(L) && Inv(L, s) && CanRecHead(L, s, i)
    ensures Inv(L, DoRecHead(L, s, i))
  {
    RecHeadCore(L, s, i);
    hide CacheOk, DirtyOk, ProcsOk;
  }

  lemma InstalledNext(L: Layout, disk: Disk, t: nat)
    requires LayoutOk(L) && DiskOk(L, disk) && t < |Header(L, disk)| && Installed(L, disk, t)
    ensures var disk' := disk[Header(L, disk)[t] := disk[LogBlock(L, t)]];
            DiskOk(L, disk') && Header(L, disk') == Header(L, disk) && Installed(L, disk', t + 1)
  {
    InstallWrite(L, disk, t);
  }

  lemma RecInstallStepOk(L: Layout, s: State, i: nat, j: nat)
    requires LayoutOk(L) && Inv(L, s) && s.phase.Reinstalling? && CanInstall(L, s, i, j, s.phase.tail)
    ensures var s' := DoRecInstall(L, s, i, j);
            Inv(L, s') && Durable(L, s'.disk) == Durable(L, s.disk)
  {
    var t := s.phase.tail;
    QuietPhase(L, s);
    assert CleanOk(s, i);
    RecInstallCore(L, s, i, j);
    InstallWrite(L, s.disk, t);
    hide CacheOk, DirtyOk, ProcsOk;
    InstalledNext(L, s.disk, t);
  }
}
