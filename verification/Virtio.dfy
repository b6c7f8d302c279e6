/** kernel/virtio_disk.c: the driver's operations on the queue, each run under vdisk_lock, and the
    device's side of it. */
module Virtio {
  import opened Blocks
  import opened DiskQueue

  // ----- every order of events

  /** The queue together with what it stands for. */
  datatype World = World(q: Queue, n: Counts, owner: seq<Option<nat>>, reqs: map<nat, Req>)

  datatype Event =
    | Submit(b: nat, write: bool, sector: nat, d0: nat, d1: nat, d2: nat) // virtio_disk_rw up to its wait
    | Fetch                                                               // the device reads the avail ring
    | Complete(h: nat)                                            // the device has done a request, in any order
    | Intr                                                                // one turn of virtio_disk_intr's loop
    | Finish(h: nat)                                                      // virtio_disk_rw after its wait

  /** The arrays have num entries and descriptor numbers are below num. */
  ghost predicate Typed(num: nat, w: World) {
    && Shape(num, w.q) && |w.owner| == num
    && forall h :: h in w.reqs ==> h < num && w.reqs[h].d0 < num && w.reqs[h].d1 < num && w.reqs[h].d2 < num
  }

  ghost predicate Ok(num: nat, w: World) { num < WRAP && Sound(num, w.q, w.n, w.owner, w.reqs) }

  /** When an event can happen. The driver looks only at memory; a buffer has one request at a time
      because its sleep-lock is held, and the device completes only what it has fetched. */
  ghost predicate Enabled(num: nat, w: World, e: Event) {
    && Typed(num, w)
    && match e
       case Submit(b, write, sector, d0, d1, d2) =>
         && d0 < num && d1 < num && d2 < num && d0 != d1 && d0 != d2 && d1 != d2 && w.q.free[d0] && w.q.free[d1]
         && w.q.free[d2]
         && forall h :: h in w.reqs ==> w.reqs[h].b != b
       case Fetch => w.q.fetched != w.q.availIdx
       case Complete(h) => h in w.reqs && w.reqs[h].phase == Inflight
       case Intr => w.q.seen != w.q.usedIdx
       case Finish(h) => h in w.reqs && w.reqs[h].b in w.q.busy && !w.q.busy[w.reqs[h].b]
  }

  ghost function After(num: nat, w: World, e: Event): World
    requires Enabled(num, w, e)
  {
    match e
    case Submit(b, write, sector, d0, d1, d2) =>
      World(Submitted(w.q, d0, d1, d2, b, write, sector, num), w.n.(a := w.n.a + 1),
            Owning(w.owner, d0, d1, d2, Some(d0)),
            w.reqs[d0 := Req(b, write, sector, d0, d1, d2, Queued(w.n.a))])
    case Fetch => TurnFetched(num, w)
    case Complete(h) => World(Completed(w.q, h, num), w.n.(u := w.n.u + 1), w.owner, Phased(w.reqs, h, Used(w.n.u)))
    case Intr => TurnNoticed(num, w)
    case Finish(h) =>
      World(Finished(w.q, w.reqs[h], num), w.n, Owning(w.owner, h, w.reqs[h].d1, w.reqs[h].d2, None), w.reqs - {h})
  }

  ghost function TurnFetched(num: nat, w: World): World
    requires Typed(num, w) && w.q.fetched != w.q.availIdx
  {
    var h := w.q.avail[w.q.fetched % num];
    if h in w.reqs then World(Fetched(w.q), w.n.(f := w.n.f + 1), w.owner, Phased(w.reqs, h, Inflight)) else w
  }

  ghost function TurnNoticed(num: nat, w: World): World
    requires Typed(num, w) && w.q.seen != w.q.usedIdx
  {
    var h := w.q.used[w.q.seen % num];
    if h in w.reqs then World(Noticed(w.q, w.reqs[h].b), w.n.(s := w.n.s + 1), w.owner, Phased(w.reqs, h, Done)) else w
  }

  lemma EventOk(num: nat, w: World, e: Event)
    requires Ok(num, w) && Enabled(num, w, e)
    ensures Ok(num, After(num, w, e))
  {
    hide Rings, Divided, Submitted, Completed, Finished, Fetched, Noticed, Carries;
    match e
    case Submit(b, write, sector, d0, d1, d2) =>
      hide Carried; SubmitSound(num, w.q, w.n, w.owner, w.reqs, d0, d1, d2, b, write, sector);
    case Fetch => hide Carried; FetchSound(num, w.q, w.n, w.owner, w.reqs);
    case Complete(h) => hide Carried; CompleteSound(num, w.q, w.n, w.owner, w.reqs, h);
    case Intr => hide Carried; IntrSound(num, w.q, w.n, w.owner, w.reqs);
    case Finish(h) =>
      CarriedAt(num, w.q, w.reqs, h);
      hide Carried;
      FinishSound(num, w.q, w.n, w.owner, w.reqs, h);
  }

  /** After virtio_disk_init: everything free, both rings empty. */
  ghost predicate Boot(num: nat, w: World) {
    && num < WRAP && Shape(num, w.q) && w.n == Counts(0, 0, 0, 0) && w.reqs == map[] && |w.owner| == num
    && w.q.availIdx == 0 && w.q.fetched == 0 && w.q.usedIdx == 0 && w.q.seen == 0
    && forall i :: 0 <= i < num ==> w.q.free[i] && w.owner[i] == None
  }

  /** The worlds that a sequence of events leads through. */
  ghost predicate IsRun(num: nat, run: seq<World>, es: seq<Event>) {
    && |run| == |es| + 1 && Boot(num, run[0])
    && forall i :: 0 <= i < |es| ==> Enabled(num, run[i], es[i]) && run[i + 1] == After(num, run[i], es[i])
  }

  lemma BootOk(num: nat, w: World)
    requires Boot(num, w)
    ensures Ok(num, w)
  {}

  lemma OkTyped(num: nat, w: World)
    requires Ok(num, w)
    ensures Typed(num, w)
  {
    forall h | h in w.reqs ensures h < num && w.reqs[h].d0 < num && w.reqs[h].d1 < num && w.reqs[h].d2 < num {
      CarriedAt(num, w.q, w.reqs, h);
    }
  }

  lemma {:induction false} RunOk(num: nat, run: seq<World>, es: seq<Event>, i: nat)
    requires IsRun(num, run, es) && i < |run|
    ensures Ok(num, run[i]) && Typed(num, run[i])
  {
    hide Carried, Divided, Rings, Enabled, After, Boot, Typed;
    if i == 0 {
      BootOk(num, run[0]);
    } else {
      RunOk(num, run, es, i - 1);
      assert Enabled(num, run[i - 1], es[i - 1]);
      EventOk(num, run[i - 1], es[i - 1]);
    }
    OkTyped(num, run[i]);
  }

  /** In every world of every run, whatever order the device completes requests in: the free descriptors
      and three for each pending request make up the table; the request that the device reads from the
      chain at a head is the one submitted there; the avail slot that the next request would use is not
      one the device has yet to read, nor is the next used slot one the driver has yet to read. */
  lemma QueueSafety(num: nat, run: seq<World>, es: seq<Event>, i: nat)
    requires IsRun(num, run, es) && i < |run|
    ensures Ok(num, run[i]) && |FreeSet(num, run[i].q.free)| + 3 * |run[i].reqs| == num
    ensures forall h :: h in run[i].reqs ==> Carries(num, run[i].q, h, run[i].reqs[h])
    ensures (exists x :: 0 <= x < num && run[i].q.free[x]) ==> Unread(num, run[i].q.availIdx, run[i].n.f, run[i].n.a)
    ensures (exists h :: h in run[i].reqs && run[i].reqs[h].phase == Inflight) ==>
      Unread(num, run[i].q.usedIdx, run[i].n.s, run[i].n.u)
  {
    RunOk(num, run, es, i);
    var w := run[i];
    forall h | h in w.reqs ensures Carries(num, w.q, h, w.reqs[h]) { CarriedAt(num, w.q, w.reqs, h); }
    DescriptorCount(num, w.q.free, w.owner, w.reqs);
    hide Carried, Ring, IsRun, Carries;
    if exists x :: 0 <= x < num && w.q.free[x] {
      var x :| 0 <= x < num && w.q.free[x];
      assert x !in w.reqs;
      SlotRoom(num, w.q.avail, w.n.f, w.n.a, w.reqs, false, x);
    }
    if exists h :: h in w.reqs && w.reqs[h].phase == Inflight {
      var h :| h in w.reqs && w.reqs[h].phase == Inflight;
      SlotRoom(num, w.q.used, w.n.s, w.n.u, w.reqs, true, h);
    }
  }

  /** The slot that index idx selects holds none of the entries lo to hi. */
  ghost predicate Unread(num: nat, idx: nat, lo: nat, hi: nat) {
    num > 0 && forall k :: lo <= k < hi ==> k % num != idx % num
  }

  lemma SlotRoom(num: nat, ring: seq<nat>, lo: nat, hi: nat, reqs: map<nat, Req>, used: bool, x: nat)
    requires Ring(num, ring, lo, hi, reqs, used) && x < num && WRAP % num == 0 && !InPhase(reqs, x, used)
    requires forall h :: h in reqs ==> h < num
    ensures Unread(num, hi % WRAP, lo, hi)
  {
    RingRoom(num, ring, lo, hi, reqs, used, x);
    SlotOf(num, hi);
    forall k | lo <= k < hi ensures k % num != hi % WRAP % num { SlotsDiffer(num, k, hi); }
  }

  function Rank(p: Phase): nat {
    match p
    case Queued(_) => 0
    case Inflight => 1
    case Used(_) => 2
    case Done => 3
  }

  /** A request goes through its phases in order, one at a time, and leaves only after the last: it is
      fetched once, completed once and noticed once. */
  lemma PhasesInOrder(num: nat, w: World, e: Event, h: nat)
    requires Ok(num, w) && Enabled(num, w, e) && h in w.reqs
    ensures var w' := After(num, w, e);
            if e == Finish(h) then w.reqs[h].phase == Done && h !in w'.reqs
            else h in w'.reqs && w'.reqs[h] == w.reqs[h].(phase := w'.reqs[h].phase)
                 && (w'.reqs[h].phase == w.reqs[h].phase || Rank(w'.reqs[h].phase) == Rank(w.reqs[h].phase) + 1)
  {
    hide Rings, Divided, Submitted, Completed, Finished, Fetched, Noticed, Carries;
    match e
    case Submit(b, write, sector, d0, d1, d2) =>
      hide Carried; SubmitSound(num, w.q, w.n, w.owner, w.reqs, d0, d1, d2, b, write, sector);
    case Fetch => hide Carried; FetchSound(num, w.q, w.n, w.owner, w.reqs);
    case Complete(g) => hide Carried;
    case Intr => hide Carried; IntrSound(num, w.q, w.n, w.owner, w.reqs);
    case Finish(g) => CarriedAt(num, w.q, w.reqs, g);
  }

  // ----- the driver

  class Disk {
    const num: nat
    var free: seq<bool>
    var desc: seq<Desc>
    var ops: seq<(bool, nat)>
    var info: seq<Info>
    var avail: seq<nat>
    var availIdx: nat
    var used: seq<nat>
    var usedIdx: nat
    var seen: nat
    var fetched: nat
    var busy: map<nat, bool>
    ghost var n: Counts
    ghost var owner: seq<Option<nat>>
    ghost var reqs: map<nat, Req>

    ghost function Q(): Queue
      reads this
    {
      Queue(free, desc, ops, info, avail, availIdx, used, usedIdx, seen, fetched, busy)
    }

    ghost function W(): World
      reads this
    {
      World(Q(), n, owner, reqs)
    }

    ghost predicate Valid()
      reads this
    {
      Ok(num, W())
    }

    /** virtio_disk_init */
    constructor (size: nat)
      requires 0 < size < WRAP && WRAP % size == 0
      ensures num == size && Valid() && reqs == map[] && forall i :: 0 <= i < num ==> free[i]
    {
      num := size;
      free, desc, ops, info := seq(size, _ => true), seq(size, _ => EMPTY), seq(size, _ => (false, 0)), seq(size,
                                   _ => Info(None, 0));
      avail, used, availIdx, usedIdx, seen, fetched, busy := seq<nat>(size, _ => 0), seq<nat>(size, _ => 0), 0, 0, 0, 0,
        map[];
      n, owner, reqs := Counts(0, 0, 0, 0), seq(size, _ => None), map[];
      new;
      BootOk(num, W());
    }

    /** alloc_desc: the first free descriptor, or None. */
    method AllocDesc() returns (r: Option<nat>)
      requires |free| == num
      modifies this`free
      ensures r.None? ==> free == old(free) && forall j :: 0 <= j < num ==> !free[j]
      ensures r.Some? ==>
        && r.value < num && old(free)[r.value] && free == old(free)[r.value := false]
        && forall j :: 0 <= j < r.value ==> !free[j]
    {
      var i := 0;
      while i < num
        invariant 0 <= i <= num && free == old(free) && forall j :: 0 <= j < i ==> !free[j]
      {
        if free[i] {
          free := free[i := false];
          return Some(i);
        }
        i := i + 1;
      }
      r := None;
    }

    /** free_desc; false where it panics. */
    method FreeDesc(i: nat) returns (ok: bool)
      requires |free| == |desc| == num
      modifies this`free, this`desc
      ensures ok == (i < num && !old(free)[i])
      ensures if ok then free == old(free)[i := true] && desc == old(desc)[i := EMPTY]
              else free == old(free) && desc == old(desc)
    {
      if i >= num || free[i] {
        return false;
      }
      desc := desc[i := EMPTY];
      free := free[i := true];
      ok := true;
    }

    /** virtio_disk_rw up to its wait: None when it has to sleep for descriptors, else the head of the
        chain that now carries the request. */
    method Start(b: nat, write: bool, sector: nat) returns (r: Option<nat>)
      requires Valid() && forall h :: h in reqs ==> reqs[h].b != b
      modifies this
      ensures Valid()
      ensures r.None? ==>
        && reqs == old(reqs) && n == old(n) && free == old(free)
        && forall x, y, z :: 0 <= x < y < z < num ==> !(free[x] && free[y] && free[z])
      ensures r.Some? ==>
        && r.value !in old(reqs) && r.value in reqs && reqs == old(reqs)[r.value := reqs[r.value]]
        && n == old(n).(a := old(n).a + 1)
      ensures r.Some? ==>
        && reqs[r.value].b == b && reqs[r.value].write == write && reqs[r.value].sector == sector
        && reqs[r.value].phase == Queued(old(n).a)
    {
      hide Sound, Submitted, Owning;
      ghost var q0 := Q();
      SoundShape(num, q0, n, owner, reqs);
      var idx := Alloc3Desc();
      if idx == [] {
        DescOfFree(num, q0, Q(), n, owner, reqs);
        return None;
      }
      assert Q() == q0.(free := free);
      Place(idx[0], idx[1], idx[2], b, write, sector, q0);
      r := Some(idx[0]);
    }

    /** The request goes out in three descriptors that were free in q0 and have been taken. */
    method Place(d0: nat, d1: nat, d2: nat, b: nat, write: bool, sector: nat, ghost q0: Queue)
      requires num < WRAP && Sound(num, q0, n, owner, reqs) && d0 < num && d1 < num && d2 < num && d0 != d1 && d0 != d2
      requires d1 != d2
      requires Shape(num, q0) && q0.free[d0] && q0.free[d1] && q0.free[d2] && forall h :: h in reqs ==> reqs[h].b != b
      requires Q() == q0.(free := q0.free[d0 := false][d1 := false][d2 := false])
      modifies this
      ensures Valid() && d0 !in old(reqs)
      ensures reqs == old(reqs)[d0 := Req(b, write, sector, d0, d1, d2, Queued(old(n).a))]
      ensures n == old(n).(a := old(n).a + 1)
    {
      hide Sound, Submitted, Owning;
      SoundShape(num, q0, n, owner, reqs);
      SubmitSound(num, q0, n, owner, reqs, d0, d1, d2, b, write, sector);
      Fill(d0, d1, d2, b, write, sector, q0);
      owner := Owning(owner, d0, d1, d2, Some(d0));
      reqs := reqs[d0 := Req(b, write, sector, d0, d1, d2, Queued(n.a))];
      n := n.(a := n.a + 1);
    }

    /** The descriptors, the header, the status and the avail entry of a request. */
    method Fill(d0: nat, d1: nat, d2: nat, b: nat, write: bool, sector: nat, ghost q0: Queue)
      requires Shape(num, q0) && d0 < num && d1 < num && d2 < num
      requires Q() == q0.(free := q0.free[d0 := false][d1 := false][d2 := false])
      modifies this`ops, this`desc, this`info, this`busy, this`avail, this`availIdx
      ensures Q() == Submitted(q0, d0, d1, d2, b, write, sector, num)
    {
      ops := ops[d0 := (write, sector)];
      desc := desc[d0 := Desc(Op(d0), 16, true, false, d1)];
      desc := desc[d1 := Desc(Data(b), BSIZE, true, !write, d2)];
      info := info[d0 := info[d0].(status := 0xff)];
      desc := desc[d2 := Desc(Status(d0), 1, false, true, 0)];
      busy := busy[b := true];
      info := info[d0 := info[d0].(b := Some(b))];
      avail := avail[availIdx % num := d0];
      availIdx := (availIdx + 1) % WRAP;
    }

    /** virtio_disk_rw after its wait has seen the buffer no longer busy: exactly the chain's three
        descriptors become free, without a panic in free_desc. */
    method End(h: nat) returns (ok: bool)
      requires Valid() && h in reqs && reqs[h].b in busy && !busy[reqs[h].b]
      modifies this
      ensures ok && Valid() && reqs == old(reqs) - {h} && n == old(n)
    {
      hide Sound, Finished, Owning, Carries;
      ghost var r := reqs[h];
      ChainTaken(num, Q(), n, owner, reqs, h);
      FinishSound(num, Q(), n, owner, reqs, h);
      ok := Retire(h, r);
      owner := Owning(owner, h, r.d1, r.d2, None);
      reqs := reqs - {h};
    }

    /** The last lines of virtio_disk_rw. */
    method Retire(h: nat, ghost r: Req) returns (ok: bool)
      requires Shape(num, Q()) && Carries(num, Q(), h, r) && !free[h] && !free[r.d1] && !free[r.d2]
      modifies this`info, this`free, this`desc
      ensures ok && Q() == Finished(old(Q()), r, num)
    {
      info := info[h := info[h].(b := None)];
      ok := FreeChain(h, r);
    }

    /** free_chain */
    method FreeChain(i: nat, ghost r: Req) returns (ok: bool)
      requires |free| == |desc| == num && i == r.d0 < num && r.d1 < num && r.d2 < num && r.d0 != r.d1 && r.d0 != r.d2
      requires r.d1 != r.d2
      requires !free[r.d0] && !free[r.d1] && !free[r.d2]
      requires desc[r.d0].hasNext && desc[r.d0].next == r.d1 && desc[r.d1].hasNext && desc[r.d1].next == r.d2
      requires !desc[r.d2].hasNext
      modifies this`free, this`desc
      ensures ok && free == old(free)[r.d0 := true][r.d1 := true][r.d2 := true]
      ensures desc == old(desc)[r.d0 := EMPTY][r.d1 := EMPTY][r.d2 := EMPTY]
    {
      var at := i;
      ghost var step := 0;
      while true
        invariant 0 <= step <= 2 && |free| == |desc| == num
        invariant at == (if step == 0 then r.d0 else if step == 1 then r.d1 else r.d2)
        invariant free == (if step == 0 then old(free) else if step == 1 then old(free)[r.d0 := true]
                           else old(free)[r.d0 := true][r.d1 := true])
        invariant desc == (if step == 0 then old(desc) else if step == 1 then old(desc)[r.d0 := EMPTY]
                           else old(desc)[r.d0 := EMPTY][r.d1 := EMPTY])
        decreases 2 - step
      {
        var flag := desc[at].hasNext;
        var nxt := desc[at].next;
        ok := FreeDesc(at);
        if flag {
          at := nxt;
          step := step + 1;
        } else {
          break;
        }
      }
    }

    /** virtio_disk_intr: every request the device has returned is noticed, without the status panic. */
    method Intr() returns (ok: bool)
      requires Valid()
      modifies this
      ensures ok && Valid() && n == old(n).(s := n.u) && Seen(old(reqs), reqs, n.u) && free == old(free)
      ensures forall h :: h in reqs ==> !reqs[h].phase.Used?
    {
      hide Sound, Phased;
      ghost var n0, reqs0 := n, reqs;
      ok := true;
      UsedRange(num, Q(), n, owner, reqs);
      IntrNone(reqs, n.s, n.u);
      while seen != usedIdx
        invariant ok && Valid() && n == n0.(s := n.s) && n0.s <= n.s <= n.u && Seen(reqs0, reqs, n.s)
        invariant free == old(free)
        decreases n.u - n.s
      {
        ghost var reqs1 := reqs;
        ghost var id;
        ok, id := IntrOne();
        SeenMore(reqs0, reqs1, reqs, n.s - 1, id);
      }
      IntrSound(num, Q(), n, owner, reqs);
      UsedRange(num, Q(), n, owner, reqs);
    }

    /** One turn of the loop in virtio_disk_intr. */
    method IntrOne() returns (ok: bool, ghost id: nat)
      requires Valid() && seen != usedIdx
      modifies this`busy, this`seen, this`reqs, this`n
      ensures ok && Valid() && n == old(n).(s := old(n).s + 1) && n.s <= n.u
      ensures id in old(reqs) && old(reqs)[id].phase == Used(old(n).s) && reqs == Phased(old(reqs), id, Done)
      ensures forall h :: h in old(reqs) && old(reqs)[h].phase == Used(old(n).s) ==> h == id
    {
      hide Sound;
      OnePerSlot(num, Q(), n, owner, reqs);
      IntrSound(num, Q(), n, owner, reqs);
      SoundShape(num, Q(), n, owner, reqs);
      ghost var q0 := Q();
      var i := used[seen % num];
      id := i;
      if info[i].status != 0 {
        return false, id;
      }
      var b := info[i].b;
      busy := busy[b.value := false];
      seen := (seen + 1) % WRAP;
      assert Q() == Noticed(q0, b.value);
      reqs := Phased(reqs, i, Done);
      n := n.(s := n.s + 1);
      ok := true;
    }

    /** The device reads the next head from the avail ring. */
    method DeviceFetch() returns (r: Option<nat>)
      requires Valid()
      modifies this
      ensures Valid() && r.None? == (old(n).f == old(n).a)
      ensures r.None? ==> W() == old(W())
      ensures r.Some? ==>
        && r.value in old(reqs) && old(reqs)[r.value].phase == Queued(old(n).f)
        && reqs == Phased(old(reqs), r.value, Inflight)
    {
      hide Carried, Divided, Rings;
      FetchSound(num, Q(), n, owner, reqs);
      UsedRange(num, Q(), n, owner, reqs);
      if fetched == availIdx {
        return None;
      }
      ghost var q0 := Q();
      var h := avail[fetched % num];
      fetched := (fetched + 1) % WRAP;
      assert Q() == Fetched(q0);
      reqs := Phased(reqs, h, Inflight);
      n := n.(f := n.f + 1);
      r := Some(h);
    }

    /** The device finishes one of the requests it has, in any order it likes. */
    method DeviceComplete(h: nat)
      requires Valid() && h in reqs && reqs[h].phase == Inflight
      modifies this
      ensures Valid() && reqs == Phased(old(reqs), h, Used(old(n).u)) && n == old(n).(u := old(n).u + 1)
    {
      hide Carried, Divided, Rings;
      CompleteSound(num, Q(), n, owner, reqs, h);
      ghost var q0 := Q();
      info := info[h := info[h].(status := 0)];
      used := used[usedIdx % num := h];
      usedIdx := (usedIdx + 1) % WRAP;
      assert Q() == Completed(q0, h, num);
      reqs := Phased(reqs, h, Used(n.u));
      n := n.(u := n.u + 1);
    }

    /** alloc3_desc: three distinct free descriptors, or none taken when there are fewer than three. */
    method Alloc3Desc() returns (idx: seq<nat>)
      requires |free| == |desc| == num
      modifies this`free, this`desc
      ensures |desc| == num && forall k :: 0 <= k < num && desc[k] != old(desc)[k] ==> old(free)[k]
      ensures |idx| == 3 || idx == []
      ensures |idx| == 3 ==>
        && idx[0] != idx[1] && idx[0] != idx[2] && idx[1] != idx[2]
        && forall j :: 0 <= j < 3 ==> idx[j] < num && old(free)[idx[j]]
      ensures |idx| == 3 ==> free == old(free)[idx[0] := false][idx[1] := false][idx[2] := false] && desc == old(desc)
      ensures idx == [] ==>
        free == old(free) && forall x, y, z :: 0 <= x < y < z < num ==> !(free[x] && free[y] && free[z])
    {
      hide Taken;
      idx := [];
      TakenNone(num, free);
      while |idx| < 3
        invariant |idx| <= 3 && |free| == num && desc == old(desc) && Taken(num, old(free), free, idx)
        decreases 3 - |idx|
      {
        ghost var before := free;
        var r := AllocDesc();
        if r.None? {
          FewFree(num, old(free), free, idx);
          PutBack(idx, old(free));
          return [];
        }
        assert free[r.value := true] == before;
        TakenMore(num, old(free), free, idx, r.value);
        idx := idx + [r.value];
      }
      TakenThree(num, old(free), free, idx);
    }

    /** The undo loop of alloc3_desc. */
    method PutBack(idx: seq<nat>, ghost before: seq<bool>)
      requires |free| == |desc| == num && Taken(num, before, free, idx)
      modifies this`free, this`desc
      ensures free == before && |desc| == num && forall k :: 0 <= k < num && desc[k] != old(desc)[k] ==> before[k]
    {
      var j := 0;
      while j < |idx|
        invariant j <= |idx| && |free| == |desc| == num && Taken(num, before, free, idx[j..])
        invariant forall k :: 0 <= k < num && desc[k] != old(desc)[k] ==> before[k]
      {
        TakenFirst(num, before, free, idx[j..]);
        var ok := FreeDesc(idx[j]);
        assert idx[j..][1..] == idx[j + 1..];
        j := j + 1;
      }
      assert idx[j..] == [];
    }
  }

  lemma TakenNone(num: nat, free: seq<bool>)
    requires |free| == num
    ensures Taken(num, free, free, [])
  {}

  lemma TakenFirst(num: nat, before: seq<bool>, free: seq<bool>, idx: seq<nat>)
    requires Taken(num, before, free, idx) && idx != []
    ensures idx[0] < num && before[idx[0]] && !free[idx[0]] && Taken(num, before, free[idx[0] := true], idx[1..])
  {
    assert idx == [idx[0]] + idx[1..];
  }

  lemma TakenThree(num: nat, before: seq<bool>, free: seq<bool>, idx: seq<nat>)
    requires Taken(num, before, free, idx) && |idx| == 3
    ensures idx[0] != idx[1] && idx[0] != idx[2] && idx[1] != idx[2]
    ensures forall j :: 0 <= j < 3 ==> idx[j] < num && before[idx[j]]
    ensures free == before[idx[0] := false][idx[1] := false][idx[2] := false]
  {
    forall k | 0 <= k < num ensures k in idx <==> k == idx[0] || k == idx[1] || k == idx[2] {}
  }

  /** idx lists distinct descriptors that were free before and are taken now; no other changed. */
  ghost predicate Taken(num: nat, before: seq<bool>, free: seq<bool>, idx: seq<nat>) {
    && |before| == |free| == num && (forall j :: 0 <= j < |idx| ==> idx[j] < num && before[idx[j]])
    && (forall i, j :: 0 <= i < j < |idx| ==> idx[i] != idx[j])
    && (forall k :: 0 <= k < num ==> (free[k] <==> before[k] && k !in idx))
  }

  lemma TakenMore(num: nat, before: seq<bool>, free: seq<bool>, idx: seq<nat>, d: nat)
    requires |before| == |free| == num && d < num && !free[d] && Taken(num, before, free[d := true], idx)
    ensures Taken(num, before, free, idx + [d])
  {}

  lemma FewFree(num: nat, before: seq<bool>, free: seq<bool>, idx: seq<nat>)
    requires Taken(num, before, free, idx) && |idx| < 3 && forall j :: 0 <= j < num ==> !free[j]
    ensures forall x, y, z :: 0 <= x < y < z < num ==> !(before[x] && before[y] && before[z])
  {
    forall k | 0 <= k < num && before[k] ensures k in idx { assert !free[k]; }
  }

  /** What a free descriptor holds does not matter. */
  lemma DescOfFree(num: nat, q: Queue, q': Queue, n: Counts, owner: seq<Option<nat>>, reqs: map<nat, Req>)
    requires Sound(num, q, n, owner, reqs) && |q'.desc| == num && q' == q.(desc := q'.desc)
    requires forall k :: 0 <= k < num && q'.desc[k] != q.desc[k] ==> q.free[k]
    ensures Sound(num, q', n, owner, reqs)
  {
    hide Rings;
    forall h | h in reqs ensures Carries(num, q', h, reqs[h]) {
      assert Carries(num, q, h, reqs[h]);
      CarryFrame(num, q, q', h, reqs[h]);
    }
    assert Rings(num, q', n, reqs) by { SameRings(num, q, q', n, reqs); }
  }

  lemma SameRings(num: nat, q: Queue, q': Queue, n: Counts, reqs: map<nat, Req>)
    requires Rings(num, q, n, reqs) && q'.avail == q.avail && q'.used == q.used
    requires q'.availIdx == q.availIdx && q'.usedIdx == q.usedIdx && q'.seen == q.seen && q'.fetched == q.fetched
    ensures Rings(num, q', n, reqs)
  {
    hide Ring;
  }

  lemma ChainTaken(num: nat, q: Queue, n: Counts, owner: seq<Option<nat>>, reqs: map<nat, Req>, h: nat)
    requires Sound(num, q, n, owner, reqs) && h in reqs
    ensures Shape(num, q) && h < num && reqs[h].d1 < num && reqs[h].d2 < num && !q.free[h] && !q.free[reqs[h].d1]
    ensures !q.free[reqs[h].d2]
    ensures Carries(num, q, h, reqs[h]) && |owner| == num
    ensures reqs[h].b in q.busy && !q.busy[reqs[h].b] ==> reqs[h].phase == Done
  {
    hide Rings;
    CarriedAt(num, q, reqs, h);
  }

  lemma SoundShape(num: nat, q: Queue, n: Counts, owner: seq<Option<nat>>, reqs: map<nat, Req>)
    requires Sound(num, q, n, owner, reqs)
    ensures Shape(num, q) && |owner| == num
  {}

  /** The requests returned at used positions below k are done; nothing else changed. */
  ghost predicate Seen(before: map<nat, Req>, after: map<nat, Req>, k: nat) {
    && after.Keys == before.Keys
    && forall h :: h in before ==>
         after[h] == if before[h].phase.Used? && before[h].phase.pos < k then before[h].(phase := Done) else before[h]
  }

  lemma IntrNone(reqs: map<nat, Req>, s: nat, u: nat)
    requires forall h :: h in reqs && reqs[h].phase.Used? ==> s <= reqs[h].phase.pos < u
    ensures Seen(reqs, reqs, s)
  {}

  lemma SeenMore(before: map<nat, Req>, mid: map<nat, Req>, after: map<nat, Req>, k: nat, id: nat)
    requires Seen(before, mid, k) && id in mid && mid[id].phase == Used(k) && after == Phased(mid, id, Done)
    requires forall h :: h in mid && mid[h].phase == Used(k) ==> h == id
    ensures Seen(before, after, k + 1)
  {
  }

  lemma OnePerSlot(num: nat, q: Queue, n: Counts, owner: seq<Option<nat>>, reqs: map<nat, Req>)
    requires Sound(num, q, n, owner, reqs)
    ensures forall h, g :: h in reqs && g in reqs && reqs[h].phase.Used? && reqs[g].phase == reqs[h].phase ==> g == h
  {
    hide Carried, Divided;
  }

  lemma UsedRange(num: nat, q: Queue, n: Counts, owner: seq<Option<nat>>, reqs: map<nat, Req>)
    requires Sound(num, q, n, owner, reqs)
    ensures n.s <= n.u && n.f <= n.a && forall h :: h in reqs && reqs[h].phase.Used? ==> n.s <= reqs[h].phase.pos < n.u
  {
    hide Carried, Divided;
  }
}
