/** log.c over bio.c as a transition system. Each step is what one process does between two
    points where another may run: a critical section under log.lock or bcache.lock, log_write's
    tests before it takes the lock, one change under a buffer's sleep-lock, or one block transfer.
    A crash may fall between any two steps. */
module LogMachine {
  import opened Blocks
  import opened CacheModel
  import opened LogDisk

  const ROOTDEV: nat := 1

  const BOOT: nat := 0 // the process that runs fsinit

  /** op: blocks the process may still add to the log, if it is between begin_op and end_op.
      waits: buffer it has referenced in bget and is waiting to lock.
      passed: buffer for which it is inside log_write, past the tests that are made without log.lock. */
  datatype Proc = Proc(op: Option<nat>, waits: Option<nat>, passed: Option<nat>)

  const IDLE: Proc := Proc(None, None, None)

  /** Where commit() or recover_from_log() stands; tail is the loop variable. */
  datatype Phase =
    | Running
    | WritingLog(tail: nat) | WritingHead | Installing(tail: nat) | Erasing | Finishing
    | ReadingHead | Reinstalling(tail: nat) | Clearing

  /** lh is log.lh.block[..log.lh.n]; who runs commit or recovery; dirty are the buffers changed
      since they were locked and not yet passed to log_write. */
  datatype State = State(
    disk: Disk, cache: Cache, procs: seq<Proc>,
    lh: seq<nat>, outstanding: nat, committing: bool,
    phase: Phase, who: nat, dirty: set<nat>)

  datatype Step =
    | BeginOp(p: nat)
    | Ref(p: nat, b: nat)
    | Lock(p: nat)
    | Fill(p: nat, i: nat)
    | Modify(p: nat, i: nat, data: Block)
    | TestLog(p: nat, i: nat)
    | LogWrite(p: nat, i: nat)
    | Brelse(p: nat, i: nat)
    | EndOp(p: nat)
    | WriteLogStep(i: nat, j: nat)
    | WriteHeadStep(i: nat)
    | InstallStep(i: nat, j: nat)
    | EraseStep(i: nat)
    | FinishStep
    | Crash
    | RecHeadStep(i: nat)
    | RecInstallStep(i: nat, j: nat)
    | RecEraseStep(i: nat)

  predicate Recovering(s: State) {
    s.phase.ReadingHead? || s.phase.Reinstalling? || s.phase.Clearing?
  }

  /** Logged blocks whose buffers still carry log_write's pin. */
  function Pins(s: State): seq<nat> {
    match s.phase
    case Running => s.lh
    case WritingLog(_) => s.lh
    case WritingHead => s.lh
    case Installing(t) => if t <= |s.lh| then s.lh[t..] else []
    case _ => []
  }

  /** Buffer i is locked by p, valid, and holds block b. */
  predicate Owns(s: State, p: nat, i: nat, b: nat) {
    && i < |s.cache.bufs|
    && s.cache.bufs[i].valid
    && s.cache.bufs[i].holder == Some(p)
    && Holds(s.cache.bufs[i], ROOTDEV, b)
  }

  predicate InOp(s: State, p: nat) {
    p < |s.procs| && s.procs[p].op.Some?
  }

  /** Only commit and recovery touch the log region; nobody else runs during recovery. */
  predicate MayAccess(L: Layout, s: State, p: nat, b: nat) {
    if s.phase != Running && p == s.who then b < L.size else Home(L, b) && !Recovering(s)
  }

  /** The guard of log_write: true where it panics with "too big a transaction". */
  predicate TooBig(L: Layout, s: State) {
    |s.lh| >= L.logSize || |s.lh| >= L.nlog - 1
  }

  function SetBuf(s: State, i: nat, b: Buf): State
    requires i < |s.cache.bufs|
  {
    s.(cache := s.cache.(bufs := s.cache.bufs[i := b]))
  }

  function SetProc(s: State, p: nat, pr: Proc): State
    requires p < |s.procs|
  {
    s.(procs := s.procs[p := pr])
  }

  /** memmove of a whole block into buffer i followed by bwrite. */
  function StoreBlock(s: State, i: nat, data: Block): State
    requires i < |s.cache.bufs| && s.cache.bufs[i].blockno < |s.disk|
  {
    SetBuf(s, i, s.cache.bufs[i].(data := data)).(disk := s.disk[s.cache.bufs[i].blockno := data])
  }

  /** Memory after power-on: binit, a zeroed struct log, and only the boot process. */
  function Reboot(s: State): State {
    State(s.disk, FreshCache(|s.cache.bufs|), seq(|s.procs|, _ => IDLE),
          [], 0, false, ReadingHead, BOOT, {})
  }

  // begin_op: under log.lock; where the guard fails the process sleeps.

  predicate CanBeginOp(L: Layout, s: State, p: nat) {
    && p < |s.procs| && s.procs[p].op.None? && !Recovering(s)
    && !s.committing && |s.lh| + (s.outstanding + 1) * L.maxOp <= L.logSize
  }

  function DoBeginOp(L: Layout, s: State, p: nat): State
    requires CanBeginOp(L, s, p)
  {
    SetProc(s, p, s.procs[p].(op := Some(L.maxOp))).(outstanding := s.outstanding + 1)
  }

  // bget under bcache.lock; disabled where it panics with "no buffers".

  ghost predicate CanRef(L: Layout, s: State, p: nat, b: nat) {
    && p < |s.procs| && s.procs[p].waits.None? && s.procs[p].passed.None? && MayAccess(L, s, p, b)
    && RingOk(s.cache) && Choose(s.cache, ROOTDEV, b).Some?
  }

  ghost function DoRef(L: Layout, s: State, p: nat, b: nat): State
    requires CanRef(L, s, p, b)
  {
    ChooseMeaning(s.cache, ROOTDEV, b);
    SetProc(s, p, s.procs[p].(waits := Choose(s.cache, ROOTDEV, b))).(cache := Reference(s.cache, ROOTDEV, b))
  }

  // acquiresleep on the buffer bget chose.

  predicate CanLock(s: State, p: nat) {
    && p < |s.procs| && s.procs[p].waits.Some?
    && s.procs[p].waits.value < |s.cache.bufs| && s.cache.bufs[s.procs[p].waits.value].holder.None?
  }

  function DoLock(s: State, p: nat): State
    requires CanLock(s, p)
  {
    var i := s.procs[p].waits.value;
    SetProc(SetBuf(s, i, s.cache.bufs[i].(holder := Some(p))), p, s.procs[p].(waits := None))
  }

  // bread's disk read.

  predicate CanFill(s: State, p: nat, i: nat) {
    && p < |s.procs| && i < |s.cache.bufs| && s.cache.bufs[i].holder == Some(p) && !s.cache.bufs[i].valid
    && s.cache.bufs[i].blockno < |s.disk|
  }

  function DoFill(s: State, p: nat, i: nat): State
    requires CanFill(s, p, i)
  {
    SetBuf(s, i, s.cache.bufs[i].(valid := true, data := s.disk[s.cache.bufs[i].blockno]))
  }

  /** Buffer i is locked by operation p and holds a valid home block. */
  predicate HasBlock(L: Layout, s: State, p: nat, i: nat) {
    InOp(s, p) && i < |s.cache.bufs| && Owns(s, p, i, s.cache.bufs[i].blockno) && Home(L, s.cache.bufs[i].blockno)
  }

  /** Then p may change it, unless it is inside log_write. */
  predicate CanModify(L: Layout, s: State, p: nat, i: nat) {
    HasBlock(L, s, p, i) && s.procs[p].passed.None?
  }

  function DoModify(L: Layout, s: State, p: nat, i: nat, data: Block): State
    requires CanModify(L, s, p, i)
  {
    SetBuf(s, i, s.cache.bufs[i].(data := data)).(dirty := s.dirty + {i})
  }

  // The tests at the start of log_write, made before it takes log.lock; disabled where it panics.

  predicate CanTestLog(L: Layout, s: State, p: nat, i: nat) {
    CanModify(L, s, p, i) && s.procs[p].waits.None? && !TooBig(L, s) && s.outstanding >= 1
  }

  function DoTestLog(L: Layout, s: State, p: nat, i: nat): State
    requires CanTestLog(L, s, p, i)
  {
    SetProc(s, p, s.procs[p].(passed := Some(i)))
  }

  // The rest of log_write, under log.lock; disabled for a block beyond the operation's MAXOPBLOCKS.

  predicate CanLogWrite(L: Layout, s: State, p: nat, i: nat) {
    && HasBlock(L, s, p, i) && s.procs[p].passed == Some(i)
    && (s.cache.bufs[i].blockno !in s.lh ==> s.procs[p].op.value >= 1)
  }

  function DoLogWrite(L: Layout, s: State, p: nat, i: nat): State
    requires CanLogWrite(L, s, p, i)
  {
    var b := s.cache.bufs[i];
    var pr := s.procs[p].(passed := None);
    var s1 := s.(dirty := s.dirty - {i});
    if b.blockno in s.lh then SetProc(s1, p, pr)
    else SetProc(SetBuf(s1, i, b.(refcnt := b.refcnt + 1)), p, pr.(op := Some(pr.op.value - 1)))
         .(lh := s.lh + [b.blockno])
  }

  // brelse; a buffer that was changed must have been passed to log_write first.

  predicate CanBrelse(s: State, p: nat, i: nat) {
    && p < |s.procs| && i < |s.cache.bufs| && s.cache.bufs[i].holder == Some(p) && s.cache.bufs[i].refcnt > 0
    && i !in s.dirty && s.procs[p].passed.None?
  }

  function DoBrelse(s: State, p: nat, i: nat): State
    requires CanBrelse(s, p, i)
  {
    s.(cache := Release(s.cache, i))
  }

  // end_op under log.lock; disabled where it panics with "log.committing".

  predicate CanEndOp(s: State, p: nat) {
    && InOp(s, p) && s.outstanding >= 1 && !s.committing && s.procs[p].passed.None?
    && forall i :: i in s.dirty && 0 <= i < |s.cache.bufs| ==> s.cache.bufs[i].holder != Some(p)
  }

  function DoEndOp(s: State, p: nat): State
    requires CanEndOp(s, p)
  {
    var s1 := SetProc(s, p, s.procs[p].(op := None)).(outstanding := s.outstanding - 1);
    if s1.outstanding > 0 then s1
    else s1.(committing := true, who := p, phase := if |s.lh| > 0 then WritingLog(0) else Finishing)
  }

  // One iteration of write_log: buffer j (a logged block) is copied into the log through i.

  predicate CanWriteLog(L: Layout, s: State, i: nat, j: nat) {
    && s.phase.WritingLog? && s.phase.tail < |s.lh|
    && Owns(s, s.who, i, LogBlock(L, s.phase.tail)) && Owns(s, s.who, j, s.lh[s.phase.tail])
    && LogBlock(L, s.phase.tail) < |s.disk|
  }

  function DoWriteLog(L: Layout, s: State, i: nat, j: nat): State
    requires CanWriteLog(L, s, i, j)
  {
    var t := s.phase.tail;
    StoreBlock(s, i, s.cache.bufs[j].data).(phase := if t + 1 < |s.lh| then WritingLog(t + 1) else WritingHead)
  }

  // write_head with the transaction's block list: the commit point.

  ghost predicate CanWriteHead(L: Layout, s: State, i: nat)
    requires LayoutOk(L)
  {
    s.phase.WritingHead? && Owns(s, s.who, i, L.logstart) && ListOk(L, s.lh) && L.logstart < |s.disk|
  }

  ghost function DoWriteHead(L: Layout, s: State, i: nat): State
    requires LayoutOk(L) && CanWriteHead(L, s, i)
  {
    StoreBlock(s, i, EncodeHead(s.cache.bufs[i].data, s.lh)).(phase := Installing(0))
  }

  // One iteration of install_trans: buffer i (log block) goes home through buffer j.

  predicate CanInstall(L: Layout, s: State, i: nat, j: nat, t: nat) {
    && t < |s.lh|
    && Owns(s, s.who, i, LogBlock(L, t)) && Owns(s, s.who, j, s.lh[t])
    && s.lh[t] < |s.disk| && s.cache.bufs[j].refcnt > 0
  }

  function DoInstall(L: Layout, s: State, i: nat, j: nat): State
    requires s.phase.Installing? && CanInstall(L, s, i, j, s.phase.tail)
  {
    var t := s.phase.tail;
    var s1 := StoreBlock(s, j, s.cache.bufs[i].data);
    var s2 := SetBuf(s1, j, s1.cache.bufs[j].(refcnt := s1.cache.bufs[j].refcnt - 1)); // bunpin
    if t + 1 < |s.lh| then s2.(phase := Installing(t + 1)) else s2.(lh := [], phase := Erasing)
  }

  function DoRecInstall(L: Layout, s: State, i: nat, j: nat): State
    requires s.phase.Reinstalling? && CanInstall(L, s, i, j, s.phase.tail)
  {
    var t := s.phase.tail;
    var s1 := StoreBlock(s, j, s.cache.bufs[i].data);
    if t + 1 < |s.lh| then s1.(phase := Reinstalling(t + 1)) else s1.(lh := [], phase := Clearing)
  }

  // write_head with an empty list, at the end of commit and of recovery.

  predicate CanErase(L: Layout, s: State, i: nat) {
    Owns(s, s.who, i, L.logstart) && L.logstart < |s.disk|
  }

  function DoErase(L: Layout, s: State, i: nat, next: Phase): State
    requires CanErase(L, s, i)
  {
    StoreBlock(s, i, EncodeHead(s.cache.bufs[i].data, [])).(phase := next)
  }

  // read_head.

  predicate CanRecHead(L: Layout, s: State, i: nat) {
    s.phase.ReadingHead? && Owns(s, s.who, i, L.logstart) && WordAt(s.cache.bufs[i].data, 0) < WORDS
  }

  function DoRecHead(L: Layout, s: State, i: nat): State
    requires CanRecHead(L, s, i)
  {
    var lh := DecodeHead(s.cache.bufs[i].data);
    s.(lh := lh, phase := if |lh| > 0 then Reinstalling(0) else Clearing)
  }

  ghost predicate Enabled(L: Layout, s: State, st: Step)
    requires LayoutOk(L)
  {
    match st
    case BeginOp(p) => CanBeginOp(L, s, p)
    case Ref(p, b) => CanRef(L, s, p, b)
    case Lock(p) => CanLock(s, p)
    case Fill(p, i) => CanFill(s, p, i)
    case Modify(p, i, data) => CanModify(L, s, p, i)
    case TestLog(p, i) => CanTestLog(L, s, p, i)
    case LogWrite(p, i) => CanLogWrite(L, s, p, i)
    case Brelse(p, i) => CanBrelse(s, p, i)
    case EndOp(p) => CanEndOp(s, p)
    case WriteLogStep(i, j) => CanWriteLog(L, s, i, j)
    case WriteHeadStep(i) => CanWriteHead(L, s, i)
    case InstallStep(i, j) => s.phase.Installing? && CanInstall(L, s, i, j, s.phase.tail)
    case EraseStep(i) => s.phase.Erasing? && CanErase(L, s, i)
    case FinishStep => s.phase.Finishing?
    case Crash => true
    case RecHeadStep(i) => CanRecHead(L, s, i)
    case RecInstallStep(i, j) => s.phase.Reinstalling? && CanInstall(L, s, i, j, s.phase.tail)
    case RecEraseStep(i) => s.phase.Clearing? && CanErase(L, s, i)
  }

  ghost function Apply(L: Layout, s: State, st: Step): State
    requires LayoutOk(L) && Enabled(L, s, st)
  {
    match st
    case BeginOp(p) => DoBeginOp(L, s, p)
    case Ref(p, b) => DoRef(L, s, p, b)
    case Lock(p) => DoLock(s, p)
    case Fill(p, i) => DoFill(s, p, i)
    case Modify(p, i, data) => DoModify(L, s, p, i, data)
    case TestLog(p, i) => DoTestLog(L, s, p, i)
    case LogWrite(p, i) => DoLogWrite(L, s, p, i)
    case Brelse(p, i) => DoBrelse(s, p, i)
    case EndOp(p) => DoEndOp(s, p)
    case WriteLogStep(i, j) => DoWriteLog(L, s, i, j)
    case WriteHeadStep(i) => DoWriteHead(L, s, i)
    case InstallStep(i, j) => DoInstall(L, s, i, j)
    case EraseStep(i) => DoErase(L, s, i, Finishing)
    case FinishStep => s.(committing := false, phase := Running)
    case Crash => Reboot(s)
    case RecHeadStep(i) => DoRecHead(L, s, i)
    case RecInstallStep(i, j) => DoRecInstall(L, s, i, j)
    case RecEraseStep(i) => DoErase(L, s, i, Running)
  }

  /** Any disk image the log code itself can leave behind, at power-on. */
  ghost predicate Init(L: Layout, s: State)
    requires LayoutOk(L)
  {
    DiskOk(L, s.disk) && s == Reboot(s)
  }

  /** States reached from s0 by steps, each enabled where it is taken. */
  ghost predicate IsRun(L: Layout, s0: State, steps: seq<Step>)
    requires LayoutOk(L)
    decreases |steps|
  {
    steps == [] || (Enabled(L, s0, steps[0]) && IsRun(L, Apply(L, s0, steps[0]), steps[1..]))
  }

  ghost function After(L: Layout, s0: State, steps: seq<Step>): State
    requires LayoutOk(L) && IsRun(L, s0, steps)
    decreases |steps|
  {
    if steps == [] then s0 else After(L, Apply(L, s0, steps[0]), steps[1..])
  }
}
