/** sleep, wakeup, yield, kill, the scheduler and sleep-locks (kernel/proc.c, kernel/sleeplock.c,
    kernel/spinlock.c) as interleaved steps of CPUs. A step is one spin-lock operation, one access to
    a shared field, or one swtch. */
module SleepMachine {
  import opened Blocks

  datatype PState = Runnable | Running | Sleeping

  /** p->lock of a process, and the spin-lock inside a sleep-lock. */
  datatype LockId = P(p: nat) | L(l: nat)

  /** Where a process is in the kernel. */
  datatype Pc =
    | Idle                                       // outside the functions modelled
    | Fork                                       // forkret
    | Enter(l: nat) | Check(l: nat) | Grab(l: nat) | Took(l: nat)                      // acquiresleep
    | Nap(l: nat) | Drop(l: nat) | Mark(l: nat) | Doze(l: nat) | Switch(l: nat)        // sleep, going down
    | Woke(l: nat) | Tidy(l: nat) | Again(l: nat)                                      // sleep, coming back
    | Leave(l: nat) | Clear(l: nat)                                                    // releasesleep
    | Scan(l: nat, k: nat) | Rouse(l: nat, k: nat) | Pass(l: nat, k: nat)              // wakeup in it
    | Give(to: Pc) | Ready(to: Pc) | Handoff(to: Pc) | Resumed(to: Pc)                 // yield, and where it returns
    | Kill(q: nat) | Strike(q: nat) | Struck(q: nat)                                   // kill

  /** Where a CPU is: in its scheduler loop at process p, or running p. */
  datatype Cpu =
    | Look(p: nat) | Seen(p: nat) | Picked(p: nat) | Going(p: nat) | Run(p: nat) | Return(p: nat) | Passing(p: nat)

  /** The next thing a process does. */
  datatype Op =
    | Free
    | Acquire(x: LockId, next: Pc)
    | Release(x: LockId, next: Pc)
    | TestLocked(l: nat, busy: Pc, idle: Pc)
    | SetLocked(l: nat, next: Pc)
    | ClearLocked(l: nat, next: Pc)
    | SetChan(chan: Option<nat>, next: Pc)
    | SetState(v: PState, next: Pc)
    | Sched(next: Pc)
    | WakeUp(k: nat, l: nat, next: Pc)
    | Poke(q: nat, next: Pc)

  /** procs processes, cpus CPUs. locks maps a held spin-lock to its CPU, noff counts push_off; own is
      the set of sleep-locks that a process has from acquiresleep and has not given back. */
  datatype State = State(
    procs: nat, cpus: nat,
    state: seq<PState>, chan: seq<Option<nat>>, pc: seq<Pc>, own: seq<set<nat>>,
    cpu: seq<Cpu>, running: seq<Option<nat>>, noff: seq<nat>,
    locks: map<LockId, nat>, locked: map<nat, nat>)

  predicate Shape(s: State) {
    && |s.state| == |s.chan| == |s.pc| == |s.own| == s.procs
    && |s.cpu| == |s.running| == |s.noff| == s.cpus
    && (forall c :: 0 <= c < s.cpus ==> s.cpu[c].p < s.procs)
    && (forall p :: 0 <= p < s.procs ==> PcOk(s.pc[p], s.procs))
  }

  predicate PcOk(pc: Pc, procs: nat) {
    match pc
    case Scan(l, k) => k <= procs
    case Rouse(l, k) => k < procs
    case Pass(l, k) => k < procs
    case Kill(q) => q < procs
    case Strike(q) => q < procs
    case Struck(q) => q < procs
    case Give(to) => ReturnOk(to, procs)
    case Ready(to) => ReturnOk(to, procs)
    case Handoff(to) => ReturnOk(to, procs)
    case Resumed(to) => ReturnOk(to, procs)
    case _ => true
  }

  /** Where a timer interrupt can come and yield return: in the functions modelled, the places with no
      spin-lock held. */
  predicate Preemptible(pc: Pc) { pc.Idle? || pc.Enter? || pc.Again? || pc.Leave? || pc.Kill? }

  predicate ReturnOk(pc: Pc, procs: nat) { Preemptible(pc) && (pc.Kill? ==> pc.q < procs) }

  /** The code of process p. */
  function Code(p: nat, pc: Pc, procs: nat): Op {
    match pc
    case Idle => Free
    case Fork => Release(P(p), Idle)
    case Enter(l) => Acquire(L(l), Check(l))
    case Check(l) => TestLocked(l, Nap(l), Grab(l))
    case Grab(l) => SetLocked(l, Took(l))
    case Took(l) => Release(L(l), Idle)
    case Nap(l) => Acquire(P(p), Drop(l))
    case Drop(l) => Release(L(l), Mark(l))
    case Mark(l) => SetChan(Some(l), Doze(l))
    case Doze(l) => SetState(Sleeping, Switch(l))
    case Switch(l) => Sched(Woke(l))
    case Woke(l) => SetChan(None, Tidy(l))
    case Tidy(l) => Release(P(p), Again(l))
    case Again(l) => Acquire(L(l), Check(l))
    case Leave(l) => Acquire(L(l), Clear(l))
    case Clear(l) => ClearLocked(l, Scan(l, 0))
    case Scan(l, k) => if k < procs then Acquire(P(k), Rouse(l, k)) else Release(L(l), Idle)
    case Rouse(l, k) => WakeUp(k, l, Pass(l, k))
    case Pass(l, k) => Release(P(k), Scan(l, k + 1))
    case Give(to) => Acquire(P(p), Ready(to))
    case Ready(to) => SetState(Runnable, Handoff(to))
    case Handoff(to) => Sched(Resumed(to))
    case Resumed(to) => Release(P(p), to)
    case Kill(q) => Acquire(P(q), Strike(q))
    case Strike(q) => Poke(q, Struck(q))
    case Struck(q) => Release(P(q), Idle)
  }

  /** The next operation of process p, which goes to yield if the timer interrupts it here. */
  function Next(p: nat, pc: Pc, goal: Pc, procs: nat): Op {
    if Preemptible(pc) && goal == Give(pc) then Free else Code(p, pc, procs)
  }

  /** What a process outside these functions may call next: releasesleep only of a lock it has. */
  predicate MayCall(s: State, p: nat, pc: Pc)
    requires p < |s.own|
  {
    match pc
    case Enter(l) => true
    case Leave(l) => l in s.own[p]
    case Kill(q) => q < s.procs
    case _ => false
  }

  // ----- steps

  /** acquire, when the lock is free. */
  predicate CanAcquire(s: State, x: LockId) { x !in s.locks }

  function DoAcquire(s: State, c: nat, x: LockId): State
    requires c < |s.noff|
  {
    s.(locks := s.locks[x := c], noff := s.noff[c := s.noff[c] + 1])
  }

  function DoRelease(s: State, c: nat, x: LockId): State
    requires c < |s.noff| && s.noff[c] > 0
  {
    s.(locks := s.locks - {x}, noff := s.noff[c := s.noff[c] - 1])
  }

  function At(s: State, p: nat, pc: Pc): State
    requires p < |s.pc|
  {
    s.(pc := s.pc[p := pc])
  }

  /** The step of CPU c from s to t while it runs process p; goal is the call that an idle process makes, or
      yield from where it is. */
  ghost predicate ProcStep(s: State, t: State, c: nat, p: nat, goal: Pc)
    requires Shape(s) && c < s.cpus && p < s.procs
  {
    match Next(p, s.pc[p], goal, s.procs)
    case Free => (goal == Give(s.pc[p]) || MayCall(s, p, goal)) && t == At(s, p, goal)
    case Acquire(x, next) => CanAcquire(s, x) && t == At(DoAcquire(s, c, x), p, next)
    case Release(x, next) => s.noff[c] > 0 && t == At(DoRelease(s, c, x), p, next)
    case TestLocked(l, busy, idle) => t == At(s, p, if l in s.locked then busy else idle)
    case SetLocked(l, next) => t == At(s, p, next).(locked := s.locked[l := p], own := s.own[p := s.own[p] + {l}])
    case ClearLocked(l, next) => t == At(s, p, next).(locked := s.locked - {l}, own := s.own[p := s.own[p] - {l}])
    case SetChan(v, next) => t == At(s, p, next).(chan := s.chan[p := v])
    case SetState(v, next) => t == At(s, p, next).(state := s.state[p := v])
    case Sched(next) => t == At(s, p, next).(cpu := s.cpu[c := Return(p)])
    case WakeUp(k, l, next) =>
      && k < s.procs
      && t == (if s.state[k] == Sleeping && s.chan[k] == Some(l)
               then At(s, p, next).(state := s.state[k := Runnable]) else At(s, p, next))
    case Poke(q, next) =>
      && q < s.procs
      && t == (if s.state[q] == Sleeping then At(s, p, next).(state := s.state[q := Runnable]) else At(s, p, next))
  }

  /** The step of CPU c in its scheduler loop; to is the process it looks at next. */
  ghost predicate SchedStep(s: State, t: State, c: nat, to: nat)
    requires Shape(s) && c < s.cpus
  {
    var p := s.cpu[c].p;
    match s.cpu[c]
    case Look(_) => CanAcquire(s, P(p)) && t == DoAcquire(s, c, P(p)).(cpu := s.cpu[c := Seen(p)])
    case Seen(_) =>
      if s.state[p] == Runnable then t == s.(state := s.state[p := Running], cpu := s.cpu[c := Picked(p)])
      else t == s.(cpu := s.cpu[c := Passing(p)])
    case Picked(_) => t == s.(running := s.running[c := Some(p)], cpu := s.cpu[c := Going(p)])
    case Going(_) => t == s.(cpu := s.cpu[c := Run(p)])
    case Run(_) => false
    case Return(_) => t == s.(running := s.running[c := None], cpu := s.cpu[c := Passing(p)])
    case Passing(_) => s.noff[c] > 0 && to < s.procs && t == DoRelease(s, c, P(p)).(cpu := s.cpu[c := Look(to)])
  }

  ghost predicate Step(s: State, t: State) {
    Shape(s) && exists c: nat, goal, to: nat :: c < s.cpus && CpuStep(s, t, c, goal, to)
  }

  ghost predicate CpuStep(s: State, t: State, c: nat, goal: Pc, to: nat)
    requires Shape(s) && c < s.cpus
  {
    if s.cpu[c].Run? then ProcStep(s, t, c, s.cpu[c].p, goal) else SchedStep(s, t, c, to)
  }

  /** After boot: every process waits at forkret, no lock is held. */
  ghost predicate Init(s: State) {
    && Shape(s) && s.locks == map[] && s.locked == map[]
    && (forall p :: 0 <= p < s.procs ==> s.state[p] == Runnable && s.pc[p] == Fork && s.own[p] == {})
    && (forall c :: 0 <= c < s.cpus ==> s.cpu[c].Look? && s.running[c] == None && s.noff[c] == 0)
  }

  ghost predicate IsRun(run: seq<State>) {
    |run| > 0 && Init(run[0]) && forall i :: 0 <= i < |run| - 1 ==> Step(run[i], run[i + 1])
  }

  // ----- what must not happen

  /** holding(lk) on CPU c. */
  predicate Holding(s: State, c: nat, x: LockId) { x in s.locks && s.locks[x] == c }

  /** The panics of acquire, release and sched that CPU c is about to run into. */
  predicate Panics(s: State, c: nat)
    requires Shape(s) && c < s.cpus
  {
    var p := s.cpu[c].p;
    match s.cpu[c]
    case Look(_) => Holding(s, c, P(p))
    case Passing(_) => !Holding(s, c, P(p)) || s.noff[c] < 1
    case Run(_) =>
      (match Code(p, s.pc[p], s.procs)
       case Acquire(x, _) => Holding(s, c, x)
       case Release(x, _) => !Holding(s, c, x) || s.noff[c] < 1
       case Sched(_) => !Holding(s, c, P(p)) || s.noff[c] != 1 || s.state[p] == Running
       case _ => false)
    case _ => false
  }
}
