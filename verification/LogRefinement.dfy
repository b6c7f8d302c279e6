/** The logging file-system core refines a block map with atomic, durable transactions: over every
    run, with any interleaving and crashes anywhere, including inside recovery. */
module LogRefinement {
  import opened Blocks
  import opened LogDisk
  import opened LogMachine
  import opened LogInvariant
  import opened LogCore
  import opened LogSteps
  import opened LogRoom

  /** vol is what reads return, dur what survives power failure, open the operations between
      begin_op and end_op. */
  datatype Atomic = Atomic(vol: map<nat, Block>, dur: map<nat, Block>, open: set<nat>)

  datatype Event =
    | Quiet
    | Begin(p: nat)
    | Write(p: nat, b: nat, data: Block)
    | End(p: nat)
    | Commit
    | PowerLoss

  /** The specification: only an open operation writes; a commit needs every operation closed and
      makes the whole visible map durable at once; power failure falls back to the durable map. */
  ghost predicate AtomicStep(a: Atomic, e: Event, a': Atomic) {
    match e
    case Quiet => a' == a
    case Begin(p) => p !in a.open && a' == a.(open := a.open + {p})
    case Write(p, b, data) => p in a.open && b in a.vol && a' == a.(vol := a.vol[b := data])
    case End(p) => p in a.open && a' == a.(open := a.open - {p})
    case Commit => a.open == {} && a' == a.(dur := a.vol)
    case PowerLoss => a' == Atomic(a.dur, a.dur, {})
  }

  ghost function OpenOps(s: State): set<nat> {
    set p | 0 <= p < |s.procs| && InOp(s, p)
  }

  ghost function Abstract(L: Layout, s: State): Atomic
    requires LayoutOk(L) && DiskOk(L, s.disk)
  {
    Atomic(if Recovering(s) then Durable(L, s.disk) else VolMap(L, s), Durable(L, s.disk), OpenOps(s))
  }

  ghost function EventOf(s: State, st: Step): Event {
    match st
    case BeginOp(p) => Begin(p)
    case Modify(p, i, data) => if i < |s.cache.bufs| then Write(p, s.cache.bufs[i].blockno, data) else Quiet
    case EndOp(p) => End(p)
    case WriteHeadStep(_) => Commit
    case Crash => PowerLoss
    case _ => Quiet
  }

  /** The states of a run none of whose transfers leaves the log region. */
  ghost predicate Ready(L: Layout, s: State)
    requires LayoutOk(L)
  {
    Inv(L, s) || Over(L, s)
  }

  /** Until write_log leaves the region, a list that has outgrown it does nothing to the disk. */
  ghost predicate Over(L: Layout, s: State)
    requires LayoutOk(L)
  {
    && Unsafe(L, s) && Core(L, s) && Spare(s) && L.nlog <= |s.lh| && DiskOk(L, s.disk) && Header(L, s.disk) == []
    && (s.phase == Running || (s.phase.WritingLog? && s.phase.tail < L.nlog))
  }

  lemma ReadyDisk(L: Layout, s: State)
    requires LayoutOk(L) && Ready(L, s)
    ensures |s.disk| == L.size && DiskOk(L, s.disk)
  {}

  /** The durable map does not move while the disk does not. */
  lemma SameAbstract(L: Layout, s: State, s': State)
    requires LayoutOk(L) && DiskOk(L, s.disk) && DiskOk(L, s'.disk) && SameVol(L, s, s')
    requires Durable(L, s'.disk) == Durable(L, s.disk) && OpenOps(s') == OpenOps(s)
    requires Recovering(s') == Recovering(s)
    ensures Abstract(L, s') == Abstract(L, s)
  {
    assert VolMap(L, s') == VolMap(L, s);
  }

  lemma QuietCacheStep(L: Layout, s: State, s': State)
    requires LayoutOk(L) && Inv(L, s) && Inv(L, s') && SameVol(L, s, s')
    requires Durable(L, s'.disk) == Durable(L, s.disk) && OpenOps(s') == OpenOps(s)
    requires Recovering(s') == Recovering(s)
    ensures Abstract(L, s') == Abstract(L, s)
  {
    SameAbstract(L, s, s');
  }

  /** When recovery ends, reads return the durable map. */
  lemma RecoveryEnds(L: Layout, s: State)
    requires LayoutOk(L) && Inv(L, s) && s.phase == Running && s.lh == [] && s.dirty == {}
    ensures VolMap(L, s) == Durable(L, s.disk)
  {
    forall b | 0 <= b < L.size && Home(L, b) ensures VolAt(s, b) == RecoveredAt(L, s.disk, b) {
      VolClean(L, s, b);
    }
  }

  /** log_write's second step: the block it adds has a log block of its own, or the list outgrows the log. */
  lemma AppendStep(L: Layout, s: State, p: nat, i: nat)
    requires LayoutOk(L) && Inv(L, s) && CanLogWrite(L, s, p, i)
    ensures Ready(L, DoLogWrite(L, s, p, i)) && SameVol(L, s, DoLogWrite(L, s, p, i))
  {
    if s.cache.bufs[i].blockno in s.lh || |s.lh| + 1 < L.nlog {
      LogWriteStep(L, s, p, i);
    } else {
      AppendFits(L, s, p, i);
      QuietPhase(L, s);
      LogWriteCore(L, s, p, i);
      LogWriteVol(L, s, p, i);
      hide Core;
    }
  }

  lemma AppendRefines(L: Layout, s: State, p: nat, i: nat)
    requires LayoutOk(L) && Inv(L, s) && CanLogWrite(L, s, p, i)
    ensures var s' := DoLogWrite(L, s, p, i); Ready(L, s') && Abstract(L, s') == Abstract(L, s)
  {
    hide Inv, Over, VolMap, Durable, SameVol, VolAt;
    var s' := DoLogWrite(L, s, p, i);
    AppendStep(L, s, p, i);
    ReadyDisk(L, s);
    ReadyDisk(L, s');
    assert OpenOps(s') == OpenOps(s);
    SameAbstract(L, s, s');
  }

  /** Cache traffic is invisible. */
  lemma CacheStep(L: Layout, s: State, st: Step)
    requires LayoutOk(L) && Inv(L, s) && Enabled(L, s, st)
    requires st.Ref? || st.Lock? || st.Fill? || st.Brelse?
    ensures Inv(L, Apply(L, s, st)) && Abstract(L, Apply(L, s, st)) == Abstract(L, s)
  {
    hide Inv, VolMap, Durable, SameVol, VolAt;
    var s' := Apply(L, s, st);
    match st {
      case Ref(p, b) => RefStep(L, s, p, b);
      case Lock(p) => LockStep(L, s, p);
      case Fill(p, i) => FillStep(L, s, p, i);
      case Brelse(p, i) => BrelseStep(L, s, p, i);
    }
    assert OpenOps(s') == OpenOps(s);
    QuietCacheStep(L, s, s');
  }

  /** So is the bookkeeping of the log. */
  lemma ListStep(L: Layout, s: State, st: Step)
    requires LayoutOk(L) && Inv(L, s) && Enabled(L, s, st)
    requires st.TestLog? || st.FinishStep?
    ensures Inv(L, Apply(L, s, st)) && Abstract(L, Apply(L, s, st)) == Abstract(L, s)
  {
    hide Inv, VolMap, Durable, SameVol, VolAt;
    var s' := Apply(L, s, st);
    match st {
      case TestLog(p, i) => TestLogStep(L, s, p, i);
      case FinishStep => LogSteps.FinishStep(L, s);
    }
    assert OpenOps(s') == OpenOps(s);
    QuietCacheStep(L, s, s');
  }

  lemma BeginStep(L: Layout, s: State, p: nat)
    requires LayoutOk(L) && Inv(L, s) && CanBeginOp(L, s, p)
    ensures var s' := DoBeginOp(L, s, p); Inv(L, s') && AtomicStep(Abstract(L, s), Begin(p), Abstract(L, s'))
  {
    var s' := DoBeginOp(L, s, p);
    BeginOpStep(L, s, p);
    assert OpenOps(s') == OpenOps(s) + {p};
    SameMaps(L, s, s');
    hide Inv, VolMap, Durable;
  }

  lemma EndStep(L: Layout, s: State, p: nat)
    requires LayoutOk(L) && Inv(L, s) && CanEndOp(s, p)
    ensures var s' := DoEndOp(s, p); Inv(L, s') && AtomicStep(Abstract(L, s), End(p), Abstract(L, s'))
  {
    var s' := DoEndOp(s, p);
    EndOpStep(L, s, p);
    assert OpenOps(s') == OpenOps(s) - {p};
    QuietPhase(L, s);
    SameMaps(L, s, s');
    hide Inv, VolMap, Durable;
  }

  lemma SameMaps(L: Layout, s: State, s': State)
    requires LayoutOk(L) && Inv(L, s) && Inv(L, s') && SameVol(L, s, s') && s'.disk == s.disk
    ensures |s.disk| == L.size == |s'.disk| && VolMap(L, s') == VolMap(L, s)
    ensures Durable(L, s'.disk) == Durable(L, s.disk)
  {}

  lemma WriteStep(L: Layout, s: State, p: nat, i: nat, data: Block)
    requires LayoutOk(L) && Inv(L, s) && CanModify(L, s, p, i)
    ensures var s' := DoModify(L, s, p, i, data); var b := s.cache.bufs[i].blockno;
            Inv(L, s') && AtomicStep(Abstract(L, s), Write(p, b, data), Abstract(L, s'))
  {
    var s' := DoModify(L, s, p, i, data);
    ModifyStep(L, s, p, i, data);
    QuietPhase(L, s);
    assert OpenOps(s') == OpenOps(s);
    assert VolMap(L, s') == VolMap(L, s)[s.cache.bufs[i].blockno := data];
  }

  /** The steps of commit() other than the first write_head leave the atomic map alone. */
  lemma CommitStep(L: Layout, s: State, st: Step)
    requires LayoutOk(L) && Inv(L, s) && Enabled(L, s, st)
    requires st.WriteLogStep? || st.InstallStep? || st.EraseStep?
    ensures Inv(L, Apply(L, s, st)) && Abstract(L, Apply(L, s, st)) == Abstract(L, s)
  {
    hide Inv;
    var s' := Apply(L, s, st);
    match st {
      case WriteLogStep(i, j) => WriteLogStepOk(L, s, i, j);
      case InstallStep(i, j) => InstallStepOk(L, s, i, j);
      case EraseStep(i) => EraseStepOk(L, s, i, Finishing);
    }
    assert OpenOps(s') == OpenOps(s);
    QuietCacheStep(L, s, s');
  }

  lemma CommitPoint(L: Layout, s: State, i: nat)
    requires LayoutOk(L) && Inv(L, s) && CanWriteHead(L, s, i)
    ensures var s' := DoWriteHead(L, s, i); Inv(L, s') && AtomicStep(Abstract(L, s), Commit, Abstract(L, s'))
  {
    hide Inv;
    var s' := DoWriteHead(L, s, i);
    WriteHeadStepOk(L, s, i);
    QuietPhase(L, s);
    QuietPhase(L, s');
    assert OpenOps(s') == OpenOps(s) == {};
    assert VolMap(L, s') == VolMap(L, s);
  }

  lemma RecoveryStep(L: Layout, s: State, st: Step)
    requires LayoutOk(L) && Inv(L, s) && Enabled(L, s, st)
    requires st.RecHeadStep? || st.RecInstallStep? || st.RecEraseStep?
    ensures Inv(L, Apply(L, s, st)) && Abstract(L, Apply(L, s, st)) == Abstract(L, s)
  {
    hide CacheOk, ProcsOk, DirtyOk;
    var s' := Apply(L, s, st);
    QuietPhase(L, s);
    match st {
      case RecHeadStep(i) => RecHeadStepOk(L, s, i);
      case RecInstallStep(i, j) => RecInstallStepOk(L, s, i, j);
      case RecEraseStep(i) => EraseStepOk(L, s, i, Running); RecoveryEnds(L, s');
    }
    assert OpenOps(s') == OpenOps(s);
  }

  lemma CrashStep(L: Layout, s: State)
    requires LayoutOk(L) && Inv(L, s)
    ensures Inv(L, Reboot(s)) && AtomicStep(Abstract(L, s), PowerLoss, Abstract(L, Reboot(s)))
  {
    RebootOk(L, s);
    assert OpenOps(Reboot(s)) == {};
  }

  /** A step that starts from the invariant. */
  lemma InvRefines(L: Layout, s: State, st: Step)
    requires LayoutOk(L) && Inv(L, s) && Enabled(L, s, st)
    ensures Ready(L, Apply(L, s, st)) && (!st.LogWrite? ==> Inv(L, Apply(L, s, st)))
    ensures AtomicStep(Abstract(L, s), EventOf(s, st), Abstract(L, Apply(L, s, st)))
  {
    hide Inv, Abstract, Over;
    match st
    case BeginOp(p) => BeginStep(L, s, p);
    case EndOp(p) => EndStep(L, s, p);
    case Modify(p, i, data) => WriteStep(L, s, p, i, data);
    case WriteHeadStep(i) => CommitPoint(L, s, i);
    case Crash => CrashStep(L, s);
    case WriteLogStep(_, _) => CommitStep(L, s, st);
    case InstallStep(_, _) => CommitStep(L, s, st);
    case EraseStep(_) => CommitStep(L, s, st);
    case RecHeadStep(_) => RecoveryStep(L, s, st);
    case RecInstallStep(_, _) => RecoveryStep(L, s, st);
    case RecEraseStep(_) => RecoveryStep(L, s, st);
    case TestLog(_, _) => ListStep(L, s, st);
    case LogWrite(p, i) => AppendRefines(L, s, p, i);
    case FinishStep => ListStep(L, s, st);
    case _ => CacheStep(L, s, st);
  }

  // ----- the list has outgrown the log region

  /** What a step other than a block transfer or a power failure leaves alone then; log_write's test fails. */
  lemma OverShape(L: Layout, s: State, st: Step)
    requires LayoutOk(L) && Over(L, s) && Enabled(L, s, st) && !st.WriteLogStep? && st != Crash
    ensures st.BeginOp? || st.EndOp? || st.Modify? || st.Ref? || st.Lock? || st.Fill? || st.Brelse? || st.LogWrite?
    ensures var s' := Apply(L, s, st); s'.disk == s.disk && |s.lh| <= |s'.lh|
    ensures var s' := Apply(L, s, st); s'.phase == Running || s'.phase == s.phase || s'.phase == WritingLog(0)
  {
    hide Core, Spare, HeadReadable;
  }

  lemma OverStays(L: Layout, s: State, st: Step)
    requires LayoutOk(L) && Over(L, s) && Enabled(L, s, st) && !st.WriteLogStep? && st != Crash
    ensures Over(L, Apply(L, s, st)) && Apply(L, s, st).disk == s.disk
    ensures st.BeginOp? || st.EndOp? || st.Modify? || st.Ref? || st.Lock? || st.Fill? || st.Brelse? || st.LogWrite?
  {
    OverShape(L, s, st);
    StepCore(L, s, st);
    SpareStep(L, s, st);
    SizesStay(L, s, st);
    hide Core, Spare, Unsafe, Enabled, Apply, DiskOk, Header;
  }

  /** Cache traffic is invisible, and so is log_write, which can only absorb or lengthen the list further. */
  lemma OverVol(L: Layout, s: State, st: Step)
    requires LayoutOk(L) && CacheOk(L, s) && DirtyOk(L, s) && Enabled(L, s, st) && CacheOk(L, Apply(L, s, st))
    requires st.Ref? || st.Lock? || st.Fill? || st.Brelse? || st.LogWrite?
    requires st.Ref? ==> st.b < L.size
    ensures |s.disk| == |Apply(L, s, st).disk| == L.size && SameVol(L, s, Apply(L, s, st))
  {
    assert |s.disk| == |Apply(L, s, st).disk| == L.size;
    hide CacheOk, DirtyOk, VolAt, SameVol;
    match st
    case Ref(p, b) => RefVol(L, s, p, b);
    case Lock(p) => LockVol(L, s, p);
    case Fill(p, i) => FillVol(L, s, p, i);
    case Brelse(p, i) => BrelseVol(L, s, p, i);
    case LogWrite(p, i) => LogWriteVol(L, s, p, i);
  }

  lemma SameOps(L: Layout, s: State, st: Step)
    requires LayoutOk(L) && Enabled(L, s, st)
    requires st.Ref? || st.Lock? || st.Fill? || st.Brelse? || st.LogWrite?
    ensures OpenOps(Apply(L, s, st)) == OpenOps(s)
  {}

  lemma OverQuiet(L: Layout, s: State, st: Step)
    requires LayoutOk(L) && Over(L, s) && Enabled(L, s, st) && Over(L, Apply(L, s, st))
    requires st.Ref? || st.Lock? || st.Fill? || st.Brelse? || st.LogWrite?
    ensures |s.disk| == |Apply(L, s, st).disk| == L.size && SameVol(L, s, Apply(L, s, st))
  {
    assert st.Ref? ==> st.b < L.size;
    assert CacheOk(L, s) && DirtyOk(L, s) && CacheOk(L, Apply(L, s, st));
    hide Over, SameVol, Enabled, Apply, CacheOk, DirtyOk;
    OverVol(L, s, st);
  }

  /** write_log goes on inside the region. */
  lemma OverCopy(L: Layout, s: State, i: nat, j: nat)
    requires LayoutOk(L) && Over(L, s) && CanWriteLog(L, s, i, j) && !Strays(L, s, i, j)
    ensures var s' := DoWriteLog(L, s, i, j);
            Over(L, s') && SameVol(L, s, s') && Durable(L, s'.disk) == Durable(L, s.disk) && OpenOps(s') == OpenOps(s)
  {
    var s' := DoWriteLog(L, s, i, j);
    SpareStep(L, s, WriteLogStep(i, j));
    WriteLogCore(L, s, i, j);
    StoreCache(L, s, i, s.cache.bufs[j].data, s');
    LogBlockWrite(L, s.disk, s.phase.tail, s.cache.bufs[j].data);
    hide Core, Durable, DiskOk, Header;
  }

  lemma OverCrash(L: Layout, s: State)
    requires LayoutOk(L) && Over(L, s)
    ensures Inv(L, Reboot(s)) && AtomicStep(Abstract(L, s), PowerLoss, Abstract(L, Reboot(s)))
  {
    RebootOk(L, s);
    assert OpenOps(Reboot(s)) == {};
  }

  lemma OverModify(L: Layout, s: State, p: nat, i: nat, data: Block)
    requires LayoutOk(L) && Over(L, s) && CanModify(L, s, p, i) && Over(L, DoModify(L, s, p, i, data))
    ensures var s' := DoModify(L, s, p, i, data); var b := s.cache.bufs[i].blockno;
            AtomicStep(Abstract(L, s), Write(p, b, data), Abstract(L, s'))
  {
    var s' := DoModify(L, s, p, i, data);
    ModifyVol(L, s, p, i, data);
    assert OpenOps(s') == OpenOps(s);
    assert VolMap(L, s') == VolMap(L, s)[s.cache.bufs[i].blockno := data];
  }

  lemma OverBegin(L: Layout, s: State, p: nat)
    requires LayoutOk(L) && Over(L, s) && CanBeginOp(L, s, p) && Over(L, DoBeginOp(L, s, p))
    ensures AtomicStep(Abstract(L, s), Begin(p), Abstract(L, DoBeginOp(L, s, p)))
  {
    var s' := DoBeginOp(L, s, p);
    VolUntouched(L, s, s');
    assert OpenOps(s') == OpenOps(s) + {p};
    assert VolMap(L, s') == VolMap(L, s);
  }

  lemma OverEnd(L: Layout, s: State, p: nat)
    requires LayoutOk(L) && Over(L, s) && CanEndOp(s, p) && Over(L, DoEndOp(s, p))
    ensures AtomicStep(Abstract(L, s), End(p), Abstract(L, DoEndOp(s, p)))
  {
    var s' := DoEndOp(s, p);
    VolUntouched(L, s, s');
    assert OpenOps(s') == OpenOps(s) - {p};
    assert VolMap(L, s') == VolMap(L, s);
  }

  lemma OverEvent(L: Layout, s: State, st: Step)
    requires LayoutOk(L) && Over(L, s) && Enabled(L, s, st) && Over(L, Apply(L, s, st))
    requires Apply(L, s, st).disk == s.disk
    requires st.Ref? || st.Lock? || st.Fill? || st.Brelse? || st.LogWrite?
    ensures Abstract(L, Apply(L, s, st)) == Abstract(L, s)
  {
    OverQuiet(L, s, st);
    SameOps(L, s, st);
    assert !Recovering(s) && !Recovering(Apply(L, s, st)) && DiskOk(L, s.disk);
    hide Over, Durable, VolAt, DiskOk, Enabled, Apply, OpenOps;
    SameAbstract(L, s, Apply(L, s, st));
  }

  lemma OverRefines(L: Layout, s: State, st: Step)
    requires LayoutOk(L) && Over(L, s) && Enabled(L, s, st) && (st.WriteLogStep? ==> !Strays(L, s, st.i, st.j))
    ensures Ready(L, Apply(L, s, st))
    ensures AtomicStep(Abstract(L, s), EventOf(s, st), Abstract(L, Apply(L, s, st)))
  {
    if st == Crash {
      hide Inv, Over, Abstract;
      OverCrash(L, s);
    } else if st.WriteLogStep? {
      OverCopy(L, s, st.i, st.j);
      hide Core, Durable, VolAt;
      SameAbstract(L, s, Apply(L, s, st));
    } else {
      OverStays(L, s, st);
      hide Over, Durable, VolAt, DiskOk, Abstract, CanRef, DoRef, CanLock, CanFill, CanBrelse, CanLogWrite, DoLogWrite;
      match st
      case BeginOp(p) => OverBegin(L, s, p);
      case EndOp(p) => OverEnd(L, s, p);
      case Modify(p, i, data) => OverModify(L, s, p, i, data);
      case _ => OverEvent(L, s, st);
    }
  }

  /** Simulation: every enabled step keeps the invariant and is a step of the atomic map, but for a transfer of
      write_log to a block outside the log region. */
  lemma StepRefines(L: Layout, s: State, st: Step)
    requires LayoutOk(L) && Ready(L, s) && Enabled(L, s, st) && (st.WriteLogStep? ==> !Strays(L, s, st.i, st.j))
    ensures Ready(L, Apply(L, s, st))
    ensures AtomicStep(Abstract(L, s), EventOf(s, st), Abstract(L, Apply(L, s, st)))
  {
    hide Inv, Abstract, Over;
    if Over(L, s) { OverRefines(L, s, st); } else { InvRefines(L, s, st); }
  }

  // ----- whole runs

  /** A behaviour of the specification: consecutive maps are related by the events. */
  ghost predicate IsBehaviour(trace: seq<Atomic>, events: seq<Event>) {
    && |trace| == |events| + 1
    && forall k :: 0 <= k < |events| ==> AtomicStep(trace[k], events[k], trace[k + 1])
  }

  ghost function Events(L: Layout, s: State, steps: seq<Step>): seq<Event>
    requires LayoutOk(L) && IsRun(L, s, steps)
    decreases |steps|
  {
    if steps == [] then [] else [EventOf(s, steps[0])] + Events(L, Apply(L, s, steps[0]), steps[1..])
  }

  /** A transfer of write_log that leaves the region needs a list that has outgrown it, a buffer beside the
      pinned ones, and a block after the log. */
  lemma StrayCause(L: Layout, s: State, i: nat, j: nat)
    requires LayoutOk(L) && Ready(L, s) && Strays(L, s, i, j)
    ensures Over(L, s) && !Contained(L, s)
  {
    assert |s.disk| == L.size && s.cache.bufs[i].blockno == LogBlock(L, s.phase.tail);
    hide Core;
  }

  /** Crash atomicity and cache transparency for every run: whatever the processes do and wherever
      power fails, the kernel goes through the states of the atomic block map, unless the sizes let
      write_log leave the log region. */
  lemma {:induction false} RunRefines(L: Layout, s: State, steps: seq<Step>) returns (trace: seq<Atomic>)
    requires LayoutOk(L) && Ready(L, s) && IsRun(L, s, steps) && Contained(L, s)
    ensures Ready(L, After(L, s, steps)) && Contained(L, After(L, s, steps))
    ensures Unsafe(L, After(L, s, steps)) == Unsafe(L, s)
    ensures IsBehaviour(trace, Events(L, s, steps))
    ensures trace[0] == Abstract(L, s) && trace[|trace| - 1] == Abstract(L, After(L, s, steps))
    decreases |steps|
  {
    hide Ready, Abstract, AtomicStep, Enabled, Apply, Unsafe, Contained, Strays;
    ReadyDisk(L, s);
    if steps == [] {
      trace := [Abstract(L, s)];
    } else {
      var m := Apply(L, s, steps[0]);
      if steps[0].WriteLogStep? && Strays(L, s, steps[0].i, steps[0].j) { StrayCause(L, s, steps[0].i, steps[0].j); }
      StepRefines(L, s, steps[0]);
      SizesStay(L, s, steps[0]);
      var rest := RunRefines(L, m, steps[1..]);
      trace := [Abstract(L, s)] + rest;
      assert Events(L, s, steps) == [EventOf(s, steps[0])] + Events(L, m, steps[1..]);
    }
  }

  /** From power-on, over any disk image the log code can leave behind. */
  lemma BootRefines(L: Layout, s: State, steps: seq<Step>) returns (trace: seq<Atomic>)
    requires LayoutOk(L) && Init(L, s) && IsRun(L, s, steps) && Contained(L, s)
    ensures Inv(L, s) && Ready(L, After(L, s, steps)) && (!Unsafe(L, s) ==> Inv(L, After(L, s, steps)))
    ensures Contained(L, After(L, s, steps))
    ensures IsBehaviour(trace, Events(L, s, steps))
    ensures trace[0] == Atomic(Durable(L, s.disk), Durable(L, s.disk), {})
    ensures trace[|trace| - 1] == Abstract(L, After(L, s, steps))
  {
    RebootOk(L, s);
    trace := RunRefines(L, s, steps);
    assert OpenOps(s) == {};
  }

  /** No operation is torn: what is durable is always a map that was visible at a moment when no
      operation was open, or the map found at the start. */
  lemma {:induction false} DurableIsQuiescent(trace: seq<Atomic>, events: seq<Event>, n: nat) returns (k: nat)
    requires IsBehaviour(trace, events) && n < |trace|
    ensures k <= n
    ensures (trace[k].open == {} && trace[n].dur == trace[k].vol) || (k == 0 && trace[n].dur == trace[0].dur)
    decreases n
  {
    if n == 0 {
      k := 0;
    } else {
      assert AtomicStep(trace[n - 1], events[n - 1], trace[n - 1 + 1]);
      if events[n - 1].Commit? {
        k := n - 1;
      } else {
        k := DurableIsQuiescent(trace, events, n - 1);
      }
    }
  }

  /** All or nothing: after a power failure reads return the map as it stood at the last commit,
      every write before it and none after. */
  lemma {:induction false} LossFallsBack(trace: seq<Atomic>, events: seq<Event>, c: nat, n: nat)
    requires IsBehaviour(trace, events) && c < n < |events|
    requires events[c] == Commit && events[n] == PowerLoss
    requires forall k :: c < k < n ==> events[k] != Commit
    ensures trace[n + 1].vol == trace[c].vol && trace[n + 1].open == {}
  {
    assert AtomicStep(trace[n], events[n], trace[n + 1]);
    assert AtomicStep(trace[c], events[c], trace[c + 1]);
    for k := c + 1 to n
      invariant trace[k].dur == trace[c].vol
    {
      assert AtomicStep(trace[k], events[k], trace[k + 1]);
    }
  }
}
