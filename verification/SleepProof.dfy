/** What every interleaving of the sleep/wakeup machine keeps. */
module SleepProof {
  import opened Blocks
  import opened SleepMachine

  // ----- who holds which spin-lock

  /** The spin-locks a process at pc has taken and not released. */
  function Needs(p: nat, pc: Pc): set<LockId> {
    match pc
    case Fork => {P(p)}
    case Check(l) => {L(l)}
    case Grab(l) => {L(l)}
    case Took(l) => {L(l)}
    case Nap(l) => {L(l)}
    case Drop(l) => {L(l), P(p)}
    case Mark(l) => {P(p)}
    case Doze(l) => {P(p)}
    case Switch(l) => {P(p)}
    case Woke(l) => {P(p)}
    case Tidy(l) => {P(p)}
    case Clear(l) => {L(l)}
    case Scan(l, k) => {L(l)}
    case Rouse(l, k) => {L(l), P(k)}
    case Pass(l, k) => {L(l), P(k)}
    case Ready(_) => {P(p)}
    case Handoff(_) => {P(p)}
    case Resumed(_) => {P(p)}
    case Strike(q) => {P(q)}
    case Struck(q) => {P(q)}
    case _ => {}
  }

  function CpuNeeds(s: State, c: int): set<LockId>
    requires Shape(s) && 0 <= c < s.cpus
  {
    match s.cpu[c]
    case Look(_) => {}
    case Run(p) => Needs(p, s.pc[p])
    case _ => {P(s.cpu[c].p)}
  }

  ghost predicate Locking(s: State)
    requires Shape(s)
  {
    && (forall c, x :: 0 <= c < s.cpus ==> (Holding(s, c, x) <==> x in CpuNeeds(s, c)))
    && (forall x :: x in s.locks ==> s.locks[x] < s.cpus)
    && (forall c :: 0 <= c < s.cpus ==> s.noff[c] == |CpuNeeds(s, c)|)
  }

  /** The code takes only locks it does not have and releases only locks it has. */
  lemma CodeNeeds(p: nat, pc: Pc, goal: Pc, procs: nat)
    requires PcOk(pc, procs)
    ensures match Next(p, pc, goal, procs)
            case Free => Needs(p, pc) == {}
            case Acquire(x, next) => x !in Needs(p, pc) && Needs(p, next) == Needs(p, pc) + {x}
            case Release(x, next) => x in Needs(p, pc) && Needs(p, next) == Needs(p, pc) - {x}
            case TestLocked(l, busy, idle) => Needs(p, busy) == Needs(p, pc) && Needs(p, idle) == Needs(p, pc)
            case SetLocked(l, next) => Needs(p, next) == Needs(p, pc)
            case ClearLocked(l, next) => Needs(p, next) == Needs(p, pc)
            case SetChan(v, next) => Needs(p, next) == Needs(p, pc)
            case SetState(v, next) => Needs(p, next) == Needs(p, pc)
            case Sched(next) => Needs(p, next) == Needs(p, pc) == {P(p)}
            case WakeUp(k, l, next) => Needs(p, next) == Needs(p, pc)
            case Poke(q, next) => Needs(p, next) == Needs(p, pc)
  {}

  /** Nothing but CPU c changed what it needs. */
  ghost predicate OthersNeed(s: State, t: State, c: nat) {
    && Shape(s) && Shape(t) && t.cpus == s.cpus && c < s.cpus
    && forall d :: 0 <= d < s.cpus && d != c ==> CpuNeeds(t, d) == CpuNeeds(s, d)
  }

  lemma LockTaken(s: State, t: State, c: nat, x: LockId)
    requires OthersNeed(s, t, c) && Locking(s) && x !in s.locks && CpuNeeds(t, c) == CpuNeeds(s, c) + {x}
    requires t.locks == s.locks[x := c] && t.noff == s.noff[c := s.noff[c] + 1]
    ensures Locking(t)
  {
    assert |s.noff| == s.cpus && |t.noff| == t.cpus;
    hide CpuNeeds, Shape;
    assert x !in CpuNeeds(s, c) by { assert !Holding(s, c, x); }
    forall d, y | 0 <= d < t.cpus ensures Holding(t, d, y) <==> y in CpuNeeds(t, d) {
      if d != c { assert CpuNeeds(t, d) == CpuNeeds(s, d); }
      assert Holding(s, d, y) <==> y in CpuNeeds(s, d);
      assert d != c && y == x ==> !Holding(s, d, x);
    }
    forall d | 0 <= d < t.cpus ensures t.noff[d] == |CpuNeeds(t, d)| {
      if d != c { assert CpuNeeds(t, d) == CpuNeeds(s, d); }
    }
  }

  lemma LockGiven(s: State, t: State, c: nat, x: LockId)
    requires OthersNeed(s, t, c) && Locking(s) && x in CpuNeeds(s, c) && CpuNeeds(t, c) == CpuNeeds(s, c) - {x}
    requires s.noff[c] > 0 && t.locks == s.locks - {x} && t.noff == s.noff[c := s.noff[c] - 1]
    ensures Locking(t)
  {
    assert |s.noff| == s.cpus && |t.noff| == t.cpus;
    hide CpuNeeds, Shape;
    assert Holding(s, c, x);
    forall d, y | 0 <= d < t.cpus ensures Holding(t, d, y) <==> y in CpuNeeds(t, d) {
      if d != c { assert CpuNeeds(t, d) == CpuNeeds(s, d); }
      assert Holding(s, d, y) <==> y in CpuNeeds(s, d);
    }
    forall d | 0 <= d < t.cpus ensures t.noff[d] == |CpuNeeds(t, d)| {
      if d != c { assert CpuNeeds(t, d) == CpuNeeds(s, d); }
    }
  }

  lemma LockSame(s: State, t: State, c: nat)
    requires OthersNeed(s, t, c) && Locking(s) && CpuNeeds(t, c) == CpuNeeds(s, c) && t.locks == s.locks
    requires t.noff == s.noff
    ensures Locking(t)
  {
    assert |s.noff| == s.cpus && |t.noff| == t.cpus;
    hide CpuNeeds, Shape;
    forall d, y | 0 <= d < t.cpus ensures Holding(t, d, y) <==> y in CpuNeeds(t, d) {
      assert CpuNeeds(t, d) == CpuNeeds(s, d);
      assert Holding(s, d, y) <==> y in CpuNeeds(s, d);
    }
    forall d | 0 <= d < t.cpus ensures t.noff[d] == |CpuNeeds(t, d)| {
      assert CpuNeeds(t, d) == CpuNeeds(s, d);
    }
  }

  // ----- where the processes are

  predicate On(s: State, c: int, p: int)
    requires Shape(s) && 0 <= c < s.cpus
  {
    s.cpu[c].p == p && (s.cpu[c].Picked? || s.cpu[c].Going? || s.cpu[c].Run? || s.cpu[c].Return?)
  }

  /** Where swtch back into a process can land. */
  predicate Resumable(pc: Pc) { pc.Fork? || pc.Woke? || pc.Resumed? }

  /** The state field of a process that is running at pc. */
  function Due(pc: Pc): PState {
    if pc.Switch? then Sleeping else if pc.Handoff? then Runnable else Running
  }

  ghost predicate CpuOk(s: State, c: int)
    requires Shape(s) && 0 <= c < s.cpus
  {
    var p := s.cpu[c].p;
    && s.running[c] == (if s.cpu[c].Going? || s.cpu[c].Run? || s.cpu[c].Return? then Some(p) else None)
    && (s.cpu[c].Picked? || s.cpu[c].Going? ==> s.state[p] == Running && Resumable(s.pc[p]))
    && (s.cpu[c].Run? ==> s.state[p] == Due(s.pc[p]))
    && (s.cpu[c].Return? ==> s.state[p] != Running && Resumable(s.pc[p]))
  }

  ghost predicate Placed(s: State)
    requires Shape(s)
  {
    && (forall c, d, p :: 0 <= c < s.cpus && 0 <= d < s.cpus && On(s, c, p) && On(s, d, p) ==> c == d)
    && (forall c :: 0 <= c < s.cpus ==> CpuOk(s, c))
    && (forall p :: 0 <= p < s.procs && (forall c :: 0 <= c < s.cpus ==> !On(s, c, p)) ==>
        s.state[p] != Running && Resumable(s.pc[p]))
  }

  /** A process about to sleep, or asleep, has its channel set. */
  ghost predicate Chans(s: State)
    requires Shape(s)
  {
    forall p :: 0 <= p < s.procs ==>
      && (s.pc[p].Doze? || s.pc[p].Switch? || s.pc[p].Woke? ==> s.chan[p] == Some(s.pc[p].l))
      && (s.state[p] == Sleeping ==> s.pc[p].Switch? || s.pc[p].Woke?)
  }

  // ----- sleep-locks

  /** What a process at pc that owns the sleep-locks in own knows of the one it is working on. */
  predicate KnowsAt(locked: map<nat, nat>, own: set<nat>, pc: Pc) {
    match pc
    case Grab(l) => l !in locked
    case Nap(l) => l in locked
    case Drop(l) => l in locked
    case Leave(l) => l in own
    case Clear(l) => l in own
    case Scan(l, k) => l !in locked
    case Rouse(l, k) => l !in locked
    case Pass(l, k) => l !in locked
    case Give(to) => MayReturn(own, to)
    case Ready(to) => MayReturn(own, to)
    case Handoff(to) => MayReturn(own, to)
    case Resumed(to) => MayReturn(own, to)
    case _ => true
  }

  /** A process preempted on entry to releasesleep still has the lock. */
  predicate MayReturn(own: set<nat>, pc: Pc) { pc.Leave? ==> pc.l in own }

  /** A sleep-lock is locked by exactly the one process that owns it. */
  ghost predicate OwnerOk(procs: nat, locked: map<nat, nat>, own: seq<set<nat>>)
    requires |own| == procs
  {
    && (forall p, l :: 0 <= p < procs && l in own[p] ==> l in locked && locked[l] == p)
    && (forall l :: l in locked ==> locked[l] < procs && l in own[locked[l]])
  }

  ghost predicate Owned(s: State)
    requires Shape(s)
  {
    OwnerOk(s.procs, s.locked, s.own) && (forall p :: 0 <= p < s.procs ==> KnowsAt(s.locked, s.own[p], s.pc[p]))
  }

  // ----- no wakeup is lost

  /** A process at pc has found sleep-lock l taken and is on its way to sleep, or asleep. */
  predicate CommittedAt(pc: Pc, state: PState, l: int) {
    match pc
    case Nap(m) => m == l
    case Drop(m) => m == l
    case Mark(m) => m == l
    case Doze(m) => m == l
    case Switch(m) => m == l
    case Woke(m) => m == l && state == Sleeping
    case _ => false
  }

  /** A process at pc is in the wakeup of releasesleep(l) and has not come to process q. */
  predicate PendingAt(pc: Pc, l: int, q: int) {
    match pc
    case Scan(m, k) => m == l && k <= q
    case Rouse(m, k) => m == l && k <= q
    case Pass(m, k) => m == l && k < q
    case _ => false
  }

  ghost predicate Awaited(s: State, q: int, l: int)
    requires Shape(s)
  {
    l in s.locked || exists p :: 0 <= p < s.procs && PendingAt(s.pc[p], l, q)
  }

  ghost predicate NoneLost(s: State)
    requires Shape(s)
  {
    forall q, l :: 0 <= q < s.procs && CommittedAt(s.pc[q], s.state[q], l) ==> Awaited(s, q, l)
  }

  ghost predicate Inv(s: State) {
    Shape(s) && Locking(s) && Placed(s) && Chans(s) && Owned(s) && NoneLost(s)
  }

  // ----- a step of a process

  /** What a process step leaves alone. */
  ghost predicate Framed(s: State, t: State, c: nat, p: nat) {
    && Shape(s) && Shape(t) && c < s.cpus && p < s.procs && t.procs == s.procs && t.cpus == s.cpus
    && s.cpu[c] == Run(p) && t.running == s.running && t.pc == s.pc[p := t.pc[p]] && t.cpu == s.cpu[c := t.cpu[c]]
    && (t.cpu[c] == Run(p) || t.cpu[c] == Return(p))
  }

  lemma NextPc(s: State, t: State, c: nat, p: nat, goal: Pc)
    requires Shape(s) && c < s.cpus && p < s.procs && ProcStep(s, t, c, p, goal)
    ensures p < |t.pc| && PcOk(t.pc[p], s.procs)
  {
    assert PcOk(s.pc[p], s.procs);
    CodePc(p, s.pc[p], goal, s.procs);
    hide Next, Code;
    if !Next(p, s.pc[p], goal, s.procs).Free? { hide PcOk; }
  }

  lemma ProcFrame(s: State, t: State, c: nat, p: nat, goal: Pc)
    requires Shape(s) && c < s.cpus && p < s.procs && s.cpu[c] == Run(p) && ProcStep(s, t, c, p, goal)
    ensures Framed(s, t, c, p)
    ensures t.cpu[c] == (if Next(p, s.pc[p], goal, s.procs).Sched? then Return(p) else Run(p))
  {
    NextPc(s, t, c, p, goal);
    hide Next, Code, PcOk, MayCall, CanAcquire;
    match Next(p, s.pc[p], goal, s.procs)
    case WakeUp(k, l, next) =>
    case _ =>
  }

  lemma CodePc(p: nat, pc: Pc, goal: Pc, procs: nat)
    requires PcOk(pc, procs)
    ensures match Next(p, pc, goal, procs)
            case Free => true
            case TestLocked(l, busy, idle) => PcOk(busy, procs) && PcOk(idle, procs)
            case WakeUp(k, l, next) => PcOk(next, procs) && k < procs
            case Poke(q, next) => PcOk(next, procs) && q < procs
            case op => PcOk(op.next, procs)
  {}

  lemma ProcOthers(s: State, t: State, c: nat, p: nat)
    requires Framed(s, t, c, p) && Placed(s)
    ensures OthersNeed(s, t, c)
  {
    forall d | 0 <= d < s.cpus && d != c ensures CpuNeeds(t, d) == CpuNeeds(s, d) {
      assert On(s, c, p);
      assert s.cpu[d] == Run(p) ==> On(s, d, p);
    }
  }

  lemma LockingProc(s: State, t: State, c: nat, p: nat, goal: Pc)
    requires Inv(s) && c < s.cpus && p < s.procs && s.cpu[c] == Run(p) && ProcStep(s, t, c, p, goal)
    ensures Shape(t) && Locking(t)
  {
    ProcFrame(s, t, c, p, goal);
    ProcOthers(s, t, c, p);
    CodeNeeds(p, s.pc[p], goal, s.procs);
    hide Placed, Chans, Owned, NoneLost, Locking, Framed, OthersNeed, Shape, Needs;
    match Next(p, s.pc[p], goal, s.procs)
    case Acquire(x, next) => LockTaken(s, t, c, x);
    case Release(x, next) => LockGiven(s, t, c, x);
    case _ => LockSame(s, t, c);
  }

  /** Not on the way through sched. */
  predicate Plain(pc: Pc) { !pc.Doze? && !pc.Switch? && !pc.Woke? && !pc.Handoff? }

  /** The order in which sleep and yield touch chan and state before sched. */
  lemma CodeShape(p: nat, pc: Pc, goal: Pc, procs: nat)
    requires PcOk(pc, procs)
    ensures match Next(p, pc, goal, procs)
            case Free => Due(pc) == Running
            case Acquire(x, next) => Plain(next) && Due(pc) == Running
            case Release(x, next) => Plain(next) && Due(pc) == Running
            case TestLocked(l, busy, idle) => Plain(busy) && Plain(idle) && Due(pc) == Running
            case SetLocked(l, next) => Plain(next) && Due(pc) == Running
            case ClearLocked(l, next) => Plain(next) && Due(pc) == Running
            case SetChan(v, next) =>
              && Due(pc) == Running && Due(next) == Running && (v.Some? ==> next == Doze(v.value))
              && (v.None? ==> Plain(next))
            case SetState(v, next) =>
              && Due(pc) == Running && v == Due(next) != Running && (v == Sleeping ==> pc.Doze? && next == Switch(pc.l))
              && (v == Runnable ==> next.Handoff?)
            case Sched(next) =>
              && Due(pc) != Running && Resumable(next) && (pc.Switch? ==> next == Woke(pc.l))
              && (pc.Handoff? ==> next.Resumed?)
            case WakeUp(k, l, next) => Plain(next) && Due(pc) == Running && P(k) in Needs(p, pc)
            case Poke(q, next) => Plain(next) && Due(pc) == Running && P(q) in Needs(p, pc)
  {}

  /** A step of process p to t on CPU c, as far as the state fields go: its own follows Due, and others
      are only woken, by someone who has their lock. */
  ghost predicate StateStep(s: State, t: State, c: nat, p: nat)
    requires Framed(s, t, c, p)
  {
    && t.state[p] == (if t.cpu[c].Run? then Due(t.pc[p]) else s.state[p])
    && (t.cpu[c].Return? ==> Due(s.pc[p]) != Running && Resumable(t.pc[p]))
    && forall q :: 0 <= q < s.procs && q != p ==>
      t.state[q] == s.state[q] || (s.state[q] == Sleeping && t.state[q] == Runnable && P(q) in CpuNeeds(s, c))
  }

  lemma ProcState(s: State, t: State, c: nat, p: nat, goal: Pc)
    requires Shape(s) && c < s.cpus && p < s.procs && s.cpu[c] == Run(p) && ProcStep(s, t, c, p, goal) && CpuOk(s, c)
    ensures Framed(s, t, c, p) && StateStep(s, t, c, p)
  {
    ProcFrame(s, t, c, p, goal);
    CodeShape(p, s.pc[p], goal, s.procs);
    hide Next, Code, Needs;
  }

  lemma PlacedProc(s: State, t: State, c: nat, p: nat)
    requires Framed(s, t, c, p) && StateStep(s, t, c, p) && Locking(s) && Placed(s)
    ensures Placed(t)
  {
    hide Needs, PcOk;
    assert forall d, q :: 0 <= d < s.cpus ==> (On(t, d, q) <==> On(s, d, q));
    assert On(s, c, p) && CpuOk(s, c);
    forall d | 0 <= d < t.cpus ensures CpuOk(t, d) {
      if d != c { PlacedOther(s, t, c, p, d); }
    }
    forall q | 0 <= q < t.procs && (forall d :: 0 <= d < t.cpus ==> !On(t, d, q))
      ensures t.state[q] != Running && Resumable(t.pc[q])
    {
      assert forall d :: 0 <= d < s.cpus ==> !On(s, d, q);
      assert q != p;
    }
  }

  lemma PlacedOther(s: State, t: State, c: nat, p: nat, d: nat)
    requires Framed(s, t, c, p) && StateStep(s, t, c, p) && Locking(s) && Placed(s) && d < s.cpus && d != c
    ensures CpuOk(t, d)
  {
    var q := s.cpu[d].p;
    assert CpuOk(s, d) && CpuOk(s, c) && On(s, c, p);
    OneHolder(s, c, d, P(q));
    assert On(s, d, q) ==> q != p;
  }

  lemma OneHolder(s: State, c: nat, d: nat, x: LockId)
    requires Shape(s) && Locking(s) && c < s.cpus && d < s.cpus && c != d
    ensures !(x in CpuNeeds(s, c) && x in CpuNeeds(s, d))
  {
    assert Holding(s, c, x) <==> x in CpuNeeds(s, c);
    assert Holding(s, d, x) <==> x in CpuNeeds(s, d);
  }

  lemma ChansProc(s: State, t: State, c: nat, p: nat, goal: Pc)
    requires Shape(s) && c < s.cpus && p < s.procs && s.cpu[c] == Run(p) && ProcStep(s, t, c, p, goal) && CpuOk(s, c)
    requires Chans(s)
    ensures Shape(t) && Chans(t)
  {
    ProcState(s, t, c, p, goal);
    CodeShape(p, s.pc[p], goal, s.procs);
    assert Next(p, s.pc[p], goal, s.procs).Free? ==> Plain(goal);
    hide Next, Code, Needs, PcOk;
    forall q | 0 <= q < t.procs && q != p
      ensures t.pc[q] == s.pc[q] && t.chan[q] == s.chan[q] && (t.state[q] == Sleeping ==> s.state[q] == Sleeping)
    {}
  }

  // ----- the sleep-lock invariants over a process step

  lemma CodeKnows(p: nat, pc: Pc, goal: Pc, procs: nat, locked: map<nat, nat>, own: set<nat>)
    requires KnowsAt(locked, own, pc) && PcOk(pc, procs)
    ensures match Next(p, pc, goal, procs)
            case Free => true
            case TestLocked(l, busy, idle) => KnowsAt(locked, own, if l in locked then busy else idle)
            case SetLocked(l, next) => l !in locked && KnowsAt(locked[l := p], own + {l}, next) && L(l) in Needs(p, pc)
            case ClearLocked(l, next) => l in own && KnowsAt(locked - {l}, own - {l}, next) && L(l) in Needs(p, pc)
            case op => KnowsAt(locked, own, op.next)
  {}

  /** While c has a lock, no other process is at a place that needs it. */
  lemma Elsewhere(s: State, c: nat, p: nat, q: nat, x: LockId)
    requires Shape(s) && Locking(s) && Placed(s) && c < s.cpus && s.cpu[c] == Run(p) && x in Needs(p, s.pc[p])
    requires q < s.procs && q != p
    ensures Resumable(s.pc[q]) || x !in Needs(q, s.pc[q])
  {
    hide Needs, PcOk;
    if !Resumable(s.pc[q]) {
      var d :| 0 <= d < s.cpus && On(s, d, q);
      assert CpuOk(s, d);
      OneHolder(s, c, d, x);
    }
  }

  lemma KnowsOther(locked: map<nat, nat>, locked': map<nat, nat>, own: set<nat>, q: nat, pc: Pc, l: nat)
    requires KnowsAt(locked, own, pc) && (forall m :: m != l ==> (m in locked' <==> m in locked))
    requires (Resumable(pc) || L(l) !in Needs(q, pc))
    ensures KnowsAt(locked', own, pc)
  {}

  lemma OwnedProc(s: State, t: State, c: nat, p: nat, goal: Pc)
    requires Inv(s) && c < s.cpus && p < s.procs && s.cpu[c] == Run(p) && ProcStep(s, t, c, p, goal)
    ensures Shape(t) && Owned(t)
  {
    ProcFrame(s, t, c, p, goal);
    assert KnowsAt(s.locked, s.own[p], s.pc[p]);
    CodeKnows(p, s.pc[p], goal, s.procs, s.locked, s.own[p]);
    OwnedNext(s, t, c, p, goal);
    hide Next, Code, Needs, PcOk, KnowsAt, Placed, Locking, Chans, NoneLost, OwnerOk, MayCall, Framed;
    assert OwnerOk(s.procs, s.locked, s.own);
    match Next(p, s.pc[p], goal, s.procs)
    case SetLocked(l, next) => OwnerSet(s.procs, s.locked, s.own, p, l);
    case ClearLocked(l, next) => OwnerClear(s.procs, s.locked, s.own, p, l);
    case _ => assert t.locked == s.locked && t.own == s.own;
  }

  lemma OwnerSet(procs: nat, locked: map<nat, nat>, own: seq<set<nat>>, p: nat, l: nat)
    requires |own| == procs && p < procs && OwnerOk(procs, locked, own) && l !in locked
    ensures OwnerOk(procs, locked[l := p], own[p := own[p] + {l}])
  {}

  lemma OwnerClear(procs: nat, locked: map<nat, nat>, own: seq<set<nat>>, p: nat, l: nat)
    requires |own| == procs && p < procs && OwnerOk(procs, locked, own) && l in own[p]
    ensures OwnerOk(procs, locked - {l}, own[p := own[p] - {l}])
  {
    assert l in locked && locked[l] == p;
    var own' := own[p := own[p] - {l}];
    forall q, m | 0 <= q < procs && m in own'[q] ensures m in locked - {l} && (locked - {l})[m] == q {
      assert m in own[q] && m in locked && locked[m] == q;
    }
    forall m | m in locked - {l} ensures (locked - {l})[m] < procs && m in own'[(locked - {l})[m]] {
      assert m in own[locked[m]];
    }
  }

  /** A process that takes or clears a sleep-lock holds its spin-lock, so what the others know stands. */
  lemma OtherKnows(s: State, c: nat, p: nat, q: nat, l: nat, locked': map<nat, nat>)
    requires Inv(s) && c < s.cpus && s.cpu[c] == Run(p) && L(l) in Needs(p, s.pc[p]) && q < s.procs && q != p
    requires forall m :: m != l ==> (m in locked' <==> m in s.locked)
    ensures KnowsAt(locked', s.own[q], s.pc[q])
  {
    assert KnowsAt(s.locked, s.own[q], s.pc[q]);
    Elsewhere(s, c, p, q, L(l));
    KnowsOther(s.locked, locked', s.own[q], q, s.pc[q], l);
  }

  lemma OwnedNext(s: State, t: State, c: nat, p: nat, goal: Pc)
    requires Inv(s) && c < s.cpus && p < s.procs && s.cpu[c] == Run(p) && ProcStep(s, t, c, p, goal)
    requires Framed(s, t, c, p)
    ensures forall q :: 0 <= q < s.procs ==> KnowsAt(t.locked, t.own[q], t.pc[q])
  {
    assert KnowsAt(s.locked, s.own[p], s.pc[p]);
    CodeKnows(p, s.pc[p], goal, s.procs, s.locked, s.own[p]);
    assert Next(p, s.pc[p], goal, s.procs).Free? ==> KnowsAt(s.locked, s.own[p], goal);
    hide Next, Code, Needs, PcOk, KnowsAt, Placed, Locking, Chans, NoneLost, MayCall, CanAcquire;
    forall q | 0 <= q < s.procs ensures KnowsAt(t.locked, t.own[q], t.pc[q]) {
      assert KnowsAt(s.locked, s.own[q], s.pc[q]);
      match Next(p, s.pc[p], goal, s.procs)
      case SetLocked(l, next) => if q != p { OtherKnows(s, c, p, q, l, t.locked); }
      case ClearLocked(l, next) => if q != p { OtherKnows(s, c, p, q, l, t.locked); }
      case _ =>
    }
  }

  lemma CodePending(p: nat, pc: Pc, goal: Pc, procs: nat, l: int, q: int)
    requires PendingAt(pc, l, q) && q < procs
    ensures match Next(p, pc, goal, procs)
            case Acquire(x, next) => PendingAt(next, l, q)
            case Release(x, next) => PendingAt(next, l, q)
            case WakeUp(k, m, next) =>
              PendingAt(next, l, q) || (k == q && m == l && L(l) in Needs(p, pc) && P(q) in Needs(p, pc))
            case _ => false
  {}

  lemma CodeCommitted(p: nat, pc: Pc, goal: Pc, procs: nat, l: int)
    requires PcOk(pc, procs)
    ensures match Next(p, pc, goal, procs)
            case Free => true
            case TestLocked(m, busy, idle) =>
              !CommittedAt(idle, Running, l) && (CommittedAt(busy, Running, l) ==> l == m)
            case SetState(v, next) => CommittedAt(next, v, l) ==> CommittedAt(pc, Running, l)
            case Sched(next) => CommittedAt(next, Sleeping, l) ==> CommittedAt(pc, Sleeping, l)
            case op => CommittedAt(op.next, Running, l) ==> CommittedAt(pc, Running, l)
    ensures match Next(p, pc, goal, procs)
            case ClearLocked(m, next) => next == Scan(m, 0)
            case _ => true
    ensures CommittedAt(pc, Running, l) ==> forall q :: !PendingAt(pc, l, q)
  {}

  lemma AwaitedProc(s: State, t: State, c: nat, p: nat, goal: Pc, q: nat, l: int)
    requires Inv(s) && c < s.cpus && p < s.procs && s.cpu[c] == Run(p) && ProcStep(s, t, c, p, goal)
    requires Framed(s, t, c, p)
    requires q < s.procs && Awaited(s, q, l)
    ensures Awaited(t, q, l) || (Next(p, s.pc[p], goal, s.procs).WakeUp? && Next(p, s.pc[p], goal, s.procs).k == q
                                 && Next(p, s.pc[p], goal, s.procs).l == l
                                 && L(l) in Needs(p, s.pc[p]) && P(q) in Needs(p, s.pc[p]))
  {
    hide Inv, Needs, PcOk;
    CodeCommitted(p, s.pc[p], goal, s.procs, l);
    if l in s.locked {
      if l !in t.locked {
        assert PendingAt(t.pc[p], l, q);
      }
    } else {
      var p' :| 0 <= p' < s.procs && PendingAt(s.pc[p'], l, q);
      if p' == p { CodePending(p, s.pc[p], goal, s.procs, l, q); }
      hide Next, Code;
      assert p' != p ==> PendingAt(t.pc[p'], l, q);
    }
  }

  /** No process other than p can lose its wakeup to p's step. */
  lemma LostOther(s: State, t: State, c: nat, p: nat, goal: Pc, q: nat, l: int)
    requires Inv(s) && c < s.cpus && p < s.procs && s.cpu[c] == Run(p) && ProcStep(s, t, c, p, goal)
    requires Framed(s, t, c, p) && StateStep(s, t, c, p)
    requires q < s.procs && q != p && CommittedAt(t.pc[q], t.state[q], l)
    ensures Awaited(t, q, l)
  {
    hide Next, Code, Needs, PcOk, Placed, Locking, MayCall;
    assert CommittedAt(s.pc[q], s.state[q], l);
    AwaitedProc(s, t, c, p, goal, q, l);
    if !Awaited(t, q, l) {
      Elsewhere(s, c, p, q, L(l));
      Elsewhere(s, c, p, q, P(q));
      CommittedNeeds(q, s.pc[q], s.state[q], l);
    }
  }

  lemma CommittedNeeds(q: nat, pc: Pc, state: PState, l: int)
    requires CommittedAt(pc, state, l)
    ensures l >= 0
    ensures ((pc == Woke(l) && state == Sleeping) || (!Resumable(pc) && (L(l) in Needs(q, pc) || P(q) in Needs(q, pc))))
  {}

  lemma LostSelf(s: State, t: State, c: nat, p: nat, goal: Pc, l: int)
    requires Inv(s) && c < s.cpus && p < s.procs && s.cpu[c] == Run(p) && ProcStep(s, t, c, p, goal)
    requires Framed(s, t, c, p)
    requires CommittedAt(t.pc[p], t.state[p], l)
    ensures Awaited(t, p, l)
  {
    CodeCommitted(p, s.pc[p], goal, s.procs, l);
    assert CpuOk(s, c);
    CodeShape(p, s.pc[p], goal, s.procs);
    hide Needs, PcOk, Placed, Locking, MayCall, Chans, Owned;
    if CommittedAt(s.pc[p], s.state[p], l) {
      AwaitedProc(s, t, c, p, goal, p, l);
    }
  }

  /** Every step of a process keeps the invariant. */
  lemma ProcKeeps(s: State, t: State, c: nat, p: nat, goal: Pc)
    requires Inv(s) && c < s.cpus && p < s.procs && s.cpu[c] == Run(p) && ProcStep(s, t, c, p, goal)
    ensures Inv(t)
  {
    assert CpuOk(s, c);
    ProcState(s, t, c, p, goal);
    LockingProc(s, t, c, p, goal);
    PlacedProc(s, t, c, p);
    ChansProc(s, t, c, p, goal);
    OwnedProc(s, t, c, p, goal);
    hide Next, Code, Needs, PcOk, Placed, Locking, MayCall, Chans, Owned, ProcStep, StateStep, CommittedAt, Awaited;
    forall q, l | 0 <= q < t.procs && CommittedAt(t.pc[q], t.state[q], l) ensures Awaited(t, q, l) {
      if q == p { LostSelf(s, t, c, p, goal, l); } else { LostOther(s, t, c, p, goal, q, l); }
    }
  }

  // ----- a step of the scheduler

  /** What a scheduler step leaves alone. */
  ghost predicate Idled(s: State, t: State, c: nat) {
    && Shape(s) && Shape(t) && c < s.cpus && t.procs == s.procs && t.cpus == s.cpus && !s.cpu[c].Run?
    && t.pc == s.pc && t.chan == s.chan && t.own == s.own && t.locked == s.locked && t.cpu == s.cpu[c := t.cpu[c]]
  }

  lemma SchedFrame(s: State, t: State, c: nat, to: nat)
    requires Shape(s) && c < s.cpus && !s.cpu[c].Run? && SchedStep(s, t, c, to)
    ensures Idled(s, t, c) && OthersNeed(s, t, c)
  {
    hide PcOk, Needs;
  }

  lemma SchedLocking(s: State, t: State, c: nat, to: nat)
    requires Inv(s) && c < s.cpus && !s.cpu[c].Run? && SchedStep(s, t, c, to)
    ensures Shape(t) && Locking(t)
  {
    SchedFrame(s, t, c, to);
    var p := s.cpu[c].p;
    assert CpuOk(s, c);
    assert s.cpu[c].Going? ==> Needs(p, s.pc[p]) == {P(p)};
    hide PcOk, Needs, Placed, Chans, Owned, NoneLost, Locking, OthersNeed;
    match s.cpu[c]
    case Look(_) => LockTaken(s, t, c, P(p));
    case Passing(_) => LockGiven(s, t, c, P(p));
    case _ => LockSame(s, t, c);
  }

  lemma SchedPlaced(s: State, t: State, c: nat, to: nat)
    requires Inv(s) && c < s.cpus && !s.cpu[c].Run? && SchedStep(s, t, c, to)
    ensures Shape(t) && Placed(t)
  {
    SchedFrame(s, t, c, to);
    hide Inv, SchedStep, CpuOk;
    forall d | 0 <= d < t.cpus ensures CpuOk(t, d) { SchedCpu(s, t, c, to, d); }
    forall q | 0 <= q < t.procs && (forall d :: 0 <= d < t.cpus ==> !On(t, d, q))
      ensures t.state[q] != Running && Resumable(t.pc[q])
    {
      SchedOff(s, t, c, to, q);
    }
    forall d, e, q | 0 <= d < t.cpus && 0 <= e < t.cpus && On(t, d, q) && On(t, e, q) ensures d == e {
      SchedOn(s, t, c, to, d, q);
      SchedOn(s, t, c, to, e, q);
    }
  }

  /** Only picking a process puts it on the CPU, and then it is on no other. */
  lemma SchedOn(s: State, t: State, c: nat, to: nat, d: nat, q: nat)
    requires Inv(s) && c < s.cpus && !s.cpu[c].Run? && SchedStep(s, t, c, to) && Idled(s, t, c) && d < s.cpus
    requires On(t, d, q)
    ensures if s.cpu[c] == Seen(q) && t.cpu[c].Picked? then d == c
            else On(s, d, q) && forall e :: 0 <= e < s.cpus && On(s, e, q) ==> e == d
  {
    hide Locking, Chans, Owned, NoneLost, PcOk, Needs, CpuOk;
    if s.cpu[c] == Seen(q) && t.cpu[c].Picked? {
      PickFree(s, c);
      assert d != c ==> !On(s, d, q);
    } else {
      assert d == c || On(s, d, q);
    }
  }

  lemma SchedCpu(s: State, t: State, c: nat, to: nat, d: nat)
    requires Inv(s) && c < s.cpus && !s.cpu[c].Run? && SchedStep(s, t, c, to) && Idled(s, t, c) && d < s.cpus
    ensures CpuOk(t, d)
  {
    assert CpuOk(s, c) && CpuOk(s, d);
    if s.cpu[c].Seen? && s.state[s.cpu[c].p] == Runnable {
      PickFree(s, c);
      assert !On(s, d, s.cpu[c].p);
    }
    hide Locking, Chans, Owned, NoneLost, PcOk, Needs, Placed;
  }

  lemma SchedOff(s: State, t: State, c: nat, to: nat, q: nat)
    requires Inv(s) && c < s.cpus && !s.cpu[c].Run? && SchedStep(s, t, c, to) && Idled(s, t, c) && q < s.procs
    requires forall d :: 0 <= d < t.cpus ==> !On(t, d, q)
    ensures t.state[q] != Running && Resumable(t.pc[q])
  {
    hide Locking, Chans, Owned, NoneLost, PcOk, Needs;
    assert CpuOk(s, c);
    assert !On(t, c, q);
    forall d | 0 <= d < s.cpus && d != c ensures !On(s, d, q) { assert !On(t, d, q); }
  }

  /** A process that the scheduler finds runnable is on no CPU. */
  lemma PickFree(s: State, c: nat)
    requires Inv(s) && c < s.cpus && s.cpu[c].Seen? && s.state[s.cpu[c].p] == Runnable
    ensures Resumable(s.pc[s.cpu[c].p]) && forall d :: 0 <= d < s.cpus ==> !On(s, d, s.cpu[c].p)
  {
    var p := s.cpu[c].p;
    forall d | 0 <= d < s.cpus ensures !On(s, d, p) {
      assert CpuOk(s, d);
      if d != c { OneHolder(s, c, d, P(p)); }
    }
  }

  lemma SchedRest(s: State, t: State, c: nat, to: nat)
    requires Inv(s) && c < s.cpus && !s.cpu[c].Run? && SchedStep(s, t, c, to)
    ensures Shape(t) && Chans(t) && Owned(t) && NoneLost(t)
  {
    SchedFrame(s, t, c, to);
    hide PcOk, Needs, Placed, Locking, OthersNeed, KnowsAt, OwnerOk;
    assert forall q :: 0 <= q < s.procs && t.state[q] == Sleeping ==> s.state[q] == Sleeping;
    forall q, l | 0 <= q < t.procs && CommittedAt(t.pc[q], t.state[q], l) ensures Awaited(t, q, l) {
      assert CommittedAt(s.pc[q], s.state[q], l);
      assert Awaited(s, q, l);
    }
  }

  // ----- every run

  lemma StepKeeps(s: State, t: State)
    requires Inv(s) && Step(s, t)
    ensures Inv(t)
  {
    var c: nat, goal, to: nat :| c < s.cpus && CpuStep(s, t, c, goal, to);
    hide Locking, Placed, Chans, Owned, NoneLost, ProcStep, SchedStep;
    if s.cpu[c].Run? {
      ProcKeeps(s, t, c, s.cpu[c].p, goal);
    } else {
      SchedLocking(s, t, c, to);
      SchedPlaced(s, t, c, to);
      SchedRest(s, t, c, to);
    }
  }

  lemma InitInv(s: State)
    requires Init(s)
    ensures Inv(s)
  {}

  lemma {:induction false} RunInv(run: seq<State>, i: nat)
    requires IsRun(run) && i < |run|
    ensures Inv(run[i])
  {
    hide Inv, Step, Init;
    if i == 0 {
      InitInv(run[0]);
    } else {
      RunInv(run, i - 1);
      StepKeeps(run[i - 1], run[i]);
    }
  }

  /** In every state of every run: a sleep-lock has at most one owner, and is locked exactly when it
      has one; a process asleep on a sleep-lock has its wakeup coming, for the lock is locked or the
      process releasing it has yet to scan the sleeper; and a process whose lock is free is RUNNING
      exactly when one CPU, and only one, has it as its current process. */
  lemma SleepSafety(run: seq<State>, i: nat)
    requires IsRun(run) && i < |run|
    ensures Shape(run[i])
    ensures forall l, p, q ::
      0 <= p < run[i].procs && 0 <= q < run[i].procs && l in run[i].own[p] && l in run[i].own[q] ==> p == q
    ensures forall l :: l in run[i].locked <==> exists p :: 0 <= p < run[i].procs && l in run[i].own[p]
    ensures forall q, l ::
      0 <= q < run[i].procs && run[i].state[q] == Sleeping && run[i].chan[q] == Some(l) ==> Awaited(run[i], q, l)
    ensures forall p :: 0 <= p < run[i].procs && P(p) !in run[i].locks ==>
              (run[i].state[p] == Running <==> exists c :: 0 <= c < run[i].cpus && run[i].running[c] == Some(p))
    ensures forall c, d, p :: 0 <= c < run[i].cpus && 0 <= d < run[i].cpus && run[i].running[c] == Some(p) ==>
              run[i].running[d] == Some(p) ==> c == d
  {
    RunInv(run, i);
    var s := run[i];
    OwnersAre(s);
    SleepersAwaited(s);
    RunningIs(s);
  }

  lemma OwnersAre(s: State)
    requires Inv(s)
    ensures forall l, p, q :: 0 <= p < s.procs && 0 <= q < s.procs && l in s.own[p] && l in s.own[q] ==> p == q
    ensures forall l :: l in s.locked <==> exists p :: 0 <= p < s.procs && l in s.own[p]
  {
    hide Locking, Placed, Chans, NoneLost, KnowsAt;
    forall l, p, q | 0 <= p < s.procs && 0 <= q < s.procs && l in s.own[p] && l in s.own[q] ensures p == q {
      assert s.locked[l] == p;
    }
  }

  lemma SleepersAwaited(s: State)
    requires Inv(s)
    ensures forall q, l :: 0 <= q < s.procs && s.state[q] == Sleeping && s.chan[q] == Some(l) ==> Awaited(s, q, l)
  {
    hide Locking, Placed, Owned, Awaited;
    forall q, l | 0 <= q < s.procs && s.state[q] == Sleeping && s.chan[q] == Some(l) ensures Awaited(s, q, l) {
      assert CommittedAt(s.pc[q], s.state[q], l);
    }
  }

  lemma RunningIs(s: State)
    requires Inv(s)
    ensures forall c, d, p ::
      0 <= c < s.cpus && 0 <= d < s.cpus && s.running[c] == Some(p) && s.running[d] == Some(p) ==> c == d
    ensures forall p :: 0 <= p < s.procs && P(p) !in s.locks ==>
      (s.state[p] == Running <==> exists c :: 0 <= c < s.cpus && s.running[c] == Some(p))
  {
    hide Chans, Owned, NoneLost, PcOk;
    forall c, d, p | 0 <= c < s.cpus && 0 <= d < s.cpus && s.running[c] == Some(p) && s.running[d] == Some(p)
      ensures c == d
    {
      assert CpuOk(s, c) && CpuOk(s, d);
      assert On(s, c, p) && On(s, d, p);
    }
    forall p | 0 <= p < s.procs && P(p) !in s.locks
      ensures s.state[p] == Running <==> exists c :: 0 <= c < s.cpus && s.running[c] == Some(p)
    {
      RunningOne(s, p);
    }
  }

  lemma RunningOne(s: State, p: nat)
    requires Inv(s) && p < s.procs && P(p) !in s.locks
    ensures s.state[p] == Running <==> exists c :: 0 <= c < s.cpus && s.running[c] == Some(p)
  {
    hide Chans, Owned, NoneLost, PcOk;
    forall c | 0 <= c < s.cpus ensures P(p) !in CpuNeeds(s, c) { assert !Holding(s, c, P(p)); }
    if s.state[p] == Running {
      var c :| 0 <= c < s.cpus && On(s, c, p);
      assert CpuOk(s, c) && P(p) !in CpuNeeds(s, c);
    }
    if exists c :: 0 <= c < s.cpus && s.running[c] == Some(p) {
      var c :| 0 <= c < s.cpus && s.running[c] == Some(p);
      assert CpuOk(s, c) && P(p) !in CpuNeeds(s, c);
    }
  }

  /** In no run does acquire, release or sched panic. */
  lemma NoPanic(run: seq<State>, i: nat, c: nat)
    requires IsRun(run) && i < |run| && Shape(run[i]) && c < run[i].cpus
    ensures !Panics(run[i], c)
  {
    RunInv(run, i);
    var s := run[i];
    var p := s.cpu[c].p;
    assert CpuOk(s, c);
    CodeNeeds(p, s.pc[p], Idle, s.procs);
    CodeShape(p, s.pc[p], Idle, s.procs);
    assert forall x :: Holding(s, c, x) <==> x in CpuNeeds(s, c);
    assert s.noff[c] == |CpuNeeds(s, c)|;
    hide Next, Code, Needs, PcOk, Placed, Locking, Chans, Owned, NoneLost, IsRun;
  }
}
