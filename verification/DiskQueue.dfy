/** The virtio queue of kernel/virtio_disk.c as values: descriptor chains, rings with 16-bit indices,
    and the requests they carry (sections 2.6 and 5.2 of VIRTIO 1.1). */
module DiskQueue {
  import opened Blocks

  const WRAP: nat := 0x1_0000 // uint16

  /** Where a descriptor points: the header in ops[i], the data of buffer b, the status byte in info[i]. */
  datatype Addr = Null | Op(i: nat) | Data(b: nat) | Status(s: nat)

  datatype Desc = Desc(addr: Addr, len: nat, hasNext: bool, deviceWrites: bool, next: nat)

  const EMPTY: Desc := Desc(Null, 0, false, false, 0)

  /** What has become of a request: in the avail ring at absolute position pos, with the device, in the
      used ring at position pos, or seen by virtio_disk_intr. */
  datatype Phase = Queued(pos: nat) | Inflight | Used(pos: nat) | Done

  /** A request of buffer b in descriptors d0, d1, d2. */
  datatype Req = Req(b: nat, write: bool, sector: nat, d0: nat, d1: nat, d2: nat, phase: Phase)

  /** b and status of disk.info[i] */
  datatype Info = Info(b: Option<nat>, status: nat)

  /** The memory that driver and device share, and the driver's own arrays. */
  datatype Queue = Queue(
    free: seq<bool>, desc: seq<Desc>, ops: seq<(bool, nat)>, info: seq<Info>,
    avail: seq<nat>, availIdx: nat, used: seq<nat>, usedIdx: nat, seen: nat, fetched: nat, busy: map<nat, bool>)

  /** Absolute counts: requests made available, fetched by the device, returned by it, seen by the
      driver. The 16-bit indices are these modulo WRAP. */
  datatype Counts = Counts(a: nat, f: nat, u: nat, s: nat)

  predicate Shape(num: nat, q: Queue) {
    && num > 0 && WRAP % num == 0
    && |q.free| == |q.desc| == |q.ops| == |q.info| == |q.avail| == |q.used| == num
  }

  predicate Indexed(q: Queue, n: Counts) {
    q.availIdx == n.a % WRAP && q.fetched == n.f % WRAP && q.usedIdx == n.u % WRAP && q.seen == n.s % WRAP
  }

  /** The device sees exactly the request in the chain that starts at h. */
  predicate Carries(num: nat, q: Queue, h: nat, r: Req)
    requires Shape(num, q)
  {
    && r.d0 == h && h < num && r.d1 < num && r.d2 < num && h != r.d1 && h != r.d2 && r.d1 != r.d2
    && q.desc[h] == Desc(Op(h), 16, true, false, r.d1) && q.ops[h] == (r.write, r.sector)
    && q.desc[r.d1] == Desc(Data(r.b), BSIZE, true, !r.write, r.d2)
    && q.desc[r.d2] == Desc(Status(h), 1, false, true, 0)
    && q.info[h].b == Some(r.b) && (r.phase.Used? || r.phase.Done? ==> q.info[h].status == 0)
    && r.b in q.busy && q.busy[r.b] == !r.phase.Done?
  }

  predicate InChain(r: Req, i: nat) { i == r.d0 || i == r.d1 || i == r.d2 }

  /** Each descriptor is free or belongs to the chain of one request. */
  predicate Divided(num: nat, free: seq<bool>, owner: seq<Option<nat>>, reqs: map<nat, Req>) {
    && |free| == |owner| == num
    && (forall i :: 0 <= i < num ==> (free[i] <==> owner[i] == None))
    && (forall i :: 0 <= i < num && owner[i].Some? ==> owner[i].value in reqs && InChain(reqs[owner[i].value], i))
    && (forall h :: h in reqs ==>
          h == reqs[h].d0 && h < num && reqs[h].d1 < num && reqs[h].d2 < num
          && owner[h] == Some(h) && owner[reqs[h].d1] == Some(h) && owner[reqs[h].d2] == Some(h))
  }

  /** The ring positions between lo and hi hold the requests in that phase, each once. */
  ghost predicate Ring(num: nat, ring: seq<nat>, lo: nat, hi: nat, reqs: map<nat, Req>, used: bool) {
    && num > 0 && |ring| == num && lo <= hi
    && (forall k :: lo <= k < hi ==>
        ring[k % num] in reqs && reqs[ring[k % num]].phase == (if used then Used(k) else Queued(k)))
    && (forall h :: h in reqs && (if used then reqs[h].phase.Used? else reqs[h].phase.Queued?) ==>
          lo <= reqs[h].phase.pos < hi && ring[reqs[h].phase.pos % num] == h)
  }

  /** Every request is carried by its chain, and no two are for the same buffer. */
  ghost predicate Carried(num: nat, q: Queue, reqs: map<nat, Req>)
    requires Shape(num, q)
  {
    && (forall h :: h in reqs ==> Carries(num, q, h, reqs[h]))
    && (forall h, g :: h in reqs && g in reqs && reqs[h].b == reqs[g].b ==> h == g)
  }

  ghost predicate Rings(num: nat, q: Queue, n: Counts, reqs: map<nat, Req>) {
    Indexed(q, n) && Ring(num, q.avail, n.f, n.a, reqs, false) && Ring(num, q.used, n.s, n.u, reqs, true)
  }

  ghost predicate Sound(num: nat, q: Queue, n: Counts, owner: seq<Option<nat>>, reqs: map<nat, Req>) {
    Shape(num, q) && Carried(num, q, reqs) && Divided(num, q.free, owner, reqs) && Rings(num, q, n, reqs)
  }

  // ----- arithmetic of the indices

  /** Taking a 16-bit index modulo the ring size gives the slot of the absolute position. */
  lemma SlotOf(num: nat, k: nat)
    requires num > 0 && WRAP % num == 0
    ensures k % WRAP % num == k % num
  {
    var m := WRAP / num;
    assert WRAP == m * num;
    var x := k / WRAP;
    assert k == x * WRAP + k % WRAP;
    assert k == (x * m) * num + k % WRAP by { assert x * (m * num) == (x * m) * num; }
    ModAdd(k % WRAP, x * m, num);
  }

  lemma ModAdd(r: nat, m: nat, d: nat)
    requires d > 0
    ensures (m * d + r) % d == r % d
  {
    var q := r / d;
    assert r == q * d + r % d;
    assert m * d + r == (m + q) * d + r % d;
    DivUnique(m * d + r, m + q, r % d, d);
  }

  lemma DivUnique(x: nat, q: nat, r: nat, d: nat)
    requires d > 0 && r < d && x == q * d + r
    ensures x % d == r
  {
    var e := q - x / d;
    assert x == x / d * d + x % d;
    assert e * d == x % d - r;
    if e >= 1 { MulGe(e, d); }
    if e <= -1 { MulGe(-e, d); }
    assert e == 0;
  }

  lemma MulGe(e: int, d: nat)
    requires e >= 1
    ensures e * d >= d
  {
    assert (e - 1) * d >= 0;
  }

  /** Positions less than a ring apart have different slots. */
  lemma SlotsDiffer(num: nat, j: nat, k: nat)
    requires num > 0 && j < k < j + num
    ensures j % num != k % num
  {
    var a, r, c := j / num, j % num, k - j;
    assert j == a * num + r;
    if r + c < num {
      DivUnique(k, a, r + c, num);
    } else {
      assert k == (a + 1) * num + (r + c - num);
      DivUnique(k, a + 1, r + c - num, num);
    }
  }

  lemma Wrapped(x: nat, y: nat)
    requires x <= y < x + WRAP
    ensures x % WRAP == y % WRAP <==> x == y
  {}

  lemma NextIndex(x: nat)
    ensures (x % WRAP + 1) % WRAP == (x + 1) % WRAP
  {}

  // ----- rings

  ghost predicate InPhase(reqs: map<nat, Req>, h: nat, used: bool) {
    h in reqs && if used then reqs[h].phase.Used? else reqs[h].phase.Queued?
  }

  /** The requests in a ring are as many as the positions. */
  lemma {:induction false} RingHeads(num: nat, ring: seq<nat>, lo: nat, hi: nat, reqs: map<nat, Req>, used: bool,
                                     k: nat) returns (heads: set<nat>)
    requires Ring(num, ring, lo, hi, reqs, used) && lo <= k <= hi
    ensures |heads| == k - lo && forall h :: h in heads ==> InPhase(reqs, h, used) && reqs[h].phase.pos < k
  {
    if k == lo {
      heads := {};
    } else {
      var rest := RingHeads(num, ring, lo, hi, reqs, used, k - 1);
      var h := ring[(k - 1) % num];
      heads := rest + {h};
    }
  }

  lemma {:induction false} SmallSet(s: set<nat>, n: nat)
    requires forall i :: i in s ==> i < n
    ensures |s| <= n
  {
    if n > 0 {
      SmallSet(s - {n - 1}, n - 1);
    }
  }

  /** While some descriptor is not the head of a request in the ring, the ring has room. */
  lemma RingRoom(num: nat, ring: seq<nat>, lo: nat, hi: nat, reqs: map<nat, Req>, used: bool, x: nat)
    requires Ring(num, ring, lo, hi, reqs, used) && x < num && !InPhase(reqs, x, used)
    requires forall h :: h in reqs ==> h < num
    ensures hi - lo < num
  {
    var heads := RingHeads(num, ring, lo, hi, reqs, used, hi);
    SmallSet(heads + {x}, num);
  }

  lemma RingPush(num: nat, ring: seq<nat>, lo: nat, hi: nat, reqs: map<nat, Req>, used: bool, h: nat, r: Req)
    requires Ring(num, ring, lo, hi, reqs, used) && hi - lo < num && !InPhase(reqs, h, used)
    requires r.phase == (if used then Used(hi) else Queued(hi))
    ensures Ring(num, ring[hi % num := h], lo, hi + 1, reqs[h := r], used)
  {
    var ring', reqs' := ring[hi % num := h], reqs[h := r];
    forall k | lo <= k < hi ensures ring'[k % num] == ring[k % num] && ring[k % num] != h {
      SlotsDiffer(num, k, hi);
      assert InPhase(reqs, ring[k % num], used);
    }
  }

  lemma RingPop(num: nat, ring: seq<nat>, lo: nat, hi: nat, reqs: map<nat, Req>, used: bool, r: Req)
    requires Ring(num, ring, lo, hi, reqs, used) && lo < hi && !(if used then r.phase.Used? else r.phase.Queued?)
    ensures ring[lo % num] in reqs && reqs[ring[lo % num]].phase.pos == lo
    ensures Ring(num, ring, lo + 1, hi, reqs[ring[lo % num] := r], used)
  {
    var h := ring[lo % num];
    forall k | lo < k < hi ensures ring[k % num] != h {
      assert reqs[ring[k % num]].phase.pos == k;
    }
  }

  /** A request that is in the ring neither before nor after is no concern of it. */
  lemma RingOther(num: nat, ring: seq<nat>, lo: nat, hi: nat, reqs: map<nat, Req>, used: bool, h: nat, reqs': map<nat,
                  Req>)
    requires Ring(num, ring, lo, hi, reqs, used) && !InPhase(reqs, h, used) && !InPhase(reqs', h, used)
    requires forall g :: g != h ==> (g in reqs' <==> g in reqs) && (g in reqs ==> reqs'[g] == reqs[g])
    ensures Ring(num, ring, lo, hi, reqs', used)
  {
    forall k | lo <= k < hi ensures ring[k % num] != h {
      assert InPhase(reqs, ring[k % num], used);
    }
  }

  // ----- the steps, as changes of the shared memory

  /** The descriptors, header and status of a request set up and its head put in the avail ring. */
  ghost function Submitted(q: Queue, d0: nat, d1: nat, d2: nat, b: nat, write: bool, sector: nat, num: nat): Queue
    requires Shape(num, q) && d0 < num && d1 < num && d2 < num
  {
    q.(free := q.free[d0 := false][d1 := false][d2 := false],
       desc := q.desc[d0 := Desc(Op(d0), 16, true, false, d1)]
                     [d1 := Desc(Data(b), BSIZE, true, !write, d2)]
                     [d2 := Desc(Status(d0), 1, false, true, 0)],
       ops := q.ops[d0 := (write, sector)], info := q.info[d0 := Info(Some(b), 0xff)],
       avail := q.avail[q.availIdx % num := d0], availIdx := (q.availIdx + 1) % WRAP, busy := q.busy[b := true])
  }

  ghost function Owning(owner: seq<Option<nat>>, d0: nat, d1: nat, d2: nat, v: Option<nat>): seq<Option<nat>>
    requires d0 < |owner| && d1 < |owner| && d2 < |owner|
  {
    owner[d0 := v][d1 := v][d2 := v]
  }

  /** The request's chain and the others are carried. */
  lemma CarryFrame(num: nat, q: Queue, q': Queue, h: nat, r: Req)
    requires Shape(num, q) && Shape(num, q') && Carries(num, q, h, r)
    requires q'.desc[h] == q.desc[h] && q'.desc[r.d1] == q.desc[r.d1] && q'.desc[r.d2] == q.desc[r.d2]
    requires q'.ops[h] == q.ops[h] && q'.info[h] == q.info[h] && r.b in q'.busy && q'.busy[r.b] == q.busy[r.b]
    ensures Carries(num, q', h, r)
  {}

  lemma SubmitSound(num: nat, q: Queue, n: Counts, owner: seq<Option<nat>>, reqs: map<nat, Req>, d0: nat, d1: nat,
                    d2: nat, b: nat, write: bool, sector: nat)
    requires Sound(num, q, n, owner, reqs) && d0 < num && d1 < num && d2 < num && d0 != d1 && d0 != d2 && d1 != d2
    requires q.free[d0] && q.free[d1] && q.free[d2] && forall h :: h in reqs ==> reqs[h].b != b
    ensures var r := Req(b, write, sector, d0, d1, d2, Queued(n.a));
            d0 !in reqs && Sound(num, Submitted(q, d0, d1, d2, b, write, sector, num), n.(a := n.a + 1),
                                 Owning(owner, d0, d1, d2, Some(d0)), reqs[d0 := r])
  {
    var r := Req(b, write, sector, d0, d1, d2, Queued(n.a));
    hide Rings, Carried;
    SubmitDivided(num, q.free, owner, reqs, d0, d1, d2, r);
    SubmitCarries(num, q, owner, reqs, d0, d1, d2, r);
    SubmitRings(num, q, n, owner, reqs, d0, d1, d2, r);
    hide Divided;
  }

  lemma SubmitRings(num: nat, q: Queue, n: Counts, owner: seq<Option<nat>>, reqs: map<nat, Req>, d0: nat, d1: nat,
                    d2: nat, r: Req)
    requires Shape(num, q) && Divided(num, q.free, owner, reqs) && Rings(num, q, n, reqs) && d0 < num && d1 < num
    requires d2 < num && q.free[d0]
    requires r.phase == Queued(n.a)
    ensures Rings(num, Submitted(q, d0, d1, d2, r.b, r.write, r.sector, num), n.(a := n.a + 1), reqs[d0 := r])
  {
    SlotOf(num, n.a);
    NextIndex(n.a);
    hide Ring;
    RingRoom(num, q.avail, n.f, n.a, reqs, false, d0);
    RingPush(num, q.avail, n.f, n.a, reqs, false, d0, r);
    RingOther(num, q.used, n.s, n.u, reqs, true, d0, reqs[d0 := r]);
  }

  lemma SubmitDivided(num: nat, free: seq<bool>, owner: seq<Option<nat>>, reqs: map<nat, Req>, d0: nat, d1: nat,
                      d2: nat, r: Req)
    requires Divided(num, free, owner, reqs) && d0 < num && d1 < num && d2 < num && free[d0] && free[d1] && free[d2]
    requires r.d0 == d0 && r.d1 == d1 && r.d2 == d2
    ensures Divided(num, free[d0 := false][d1 := false][d2 := false], Owning(owner, d0, d1, d2, Some(d0)),
                    reqs[d0 := r])
  {}

  lemma SubmitCarries(num: nat, q: Queue, owner: seq<Option<nat>>, reqs: map<nat, Req>, d0: nat, d1: nat, d2: nat,
                      r: Req)
    requires Shape(num, q) && Divided(num, q.free, owner, reqs) && Carried(num, q, reqs) && d0 < num && d1 < num
    requires d2 < num
    requires q.free[d0] && q.free[d1] && q.free[d2] && d0 != d1 && d0 != d2 && d1 != d2
    requires forall h :: h in reqs ==> reqs[h].b != r.b
    requires r.d0 == d0 && r.d1 == d1 && r.d2 == d2 && r.phase.Queued?
    ensures var q' := Submitted(q, d0, d1, d2, r.b, r.write, r.sector, num);
            Shape(num, q') && Carried(num, q', reqs[d0 := r])
  {
    var q', reqs' := Submitted(q, d0, d1, d2, r.b, r.write, r.sector, num), reqs[d0 := r];
    assert Carries(num, q', d0, r);
    forall h | h in reqs && h != d0 ensures Carries(num, q', h, reqs[h]) {
      assert Carries(num, q, h, reqs[h]);
      SubmitFrame(num, q, owner, reqs, d0, d1, d2, r, h);
    }
    hide Carries, Submitted, Divided;
    forall h | h in reqs' ensures Carries(num, q', h, reqs'[h]) {}
  }

  lemma SubmitFrame(num: nat, q: Queue, owner: seq<Option<nat>>, reqs: map<nat, Req>, d0: nat, d1: nat, d2: nat, r: Req,
                    h: nat)
    requires Shape(num, q) && Divided(num, q.free, owner, reqs) && d0 < num && d1 < num && d2 < num && q.free[d0]
    requires q.free[d1] && q.free[d2]
    requires h in reqs && h != d0 && reqs[h].b != r.b && Carries(num, q, h, reqs[h])
    ensures Carries(num, Submitted(q, d0, d1, d2, r.b, r.write, r.sector, num), h, reqs[h])
  {
    var g := reqs[h];
    assert owner[h] == Some(h) && owner[g.d1] == Some(h) && owner[g.d2] == Some(h);
    hide Divided;
    CarryFrame(num, q, Submitted(q, d0, d1, d2, r.b, r.write, r.sector, num), h, g);
  }

  /** The device takes the next head from the avail ring. */
  ghost function Fetched(q: Queue): Queue { q.(fetched := (q.fetched + 1) % WRAP) }

  ghost function Phased(reqs: map<nat, Req>, h: nat, p: Phase): map<nat, Req>
    requires h in reqs
  {
    reqs[h := reqs[h].(phase := p)]
  }

  lemma PhasedDivided(num: nat, free: seq<bool>, owner: seq<Option<nat>>, reqs: map<nat, Req>, h: nat, p: Phase)
    requires Divided(num, free, owner, reqs) && h in reqs
    ensures Divided(num, free, owner, Phased(reqs, h, p)) && forall x :: x in reqs ==> x < num
  {}

  /** The memory changed only in the status and the busy flag of request h, as its new phase says. */
  lemma PhasedCarried(num: nat, q: Queue, q': Queue, reqs: map<nat, Req>, h: nat, p: Phase)
    requires Shape(num, q) && Shape(num, q') && Carried(num, q, reqs) && h in reqs
    requires h < num && q'.desc == q.desc && q'.ops == q.ops && q'.info == q.info[h := q'.info[h]]
    requires q'.info[h].b == q.info[h].b
    requires p.Used? || p.Done? ==> q'.info[h].status == 0
    requires q'.busy == q.busy[reqs[h].b := !p.Done?]
    ensures Carried(num, q', Phased(reqs, h, p))
  {
    var reqs' := Phased(reqs, h, p);
    forall g | g in reqs' ensures Carries(num, q', g, reqs'[g]) {
      assert Carries(num, q, g, reqs[g]);
      assert g != h ==> reqs[g].b != reqs[h].b;
    }
  }

  lemma CarriedAt(num: nat, q: Queue, reqs: map<nat, Req>, h: nat)
    requires Shape(num, q) && Carried(num, q, reqs) && h in reqs
    ensures Carries(num, q, h, reqs[h])
  {}

  /** There is something to fetch exactly when the 16-bit indices differ, and it is a queued request. */
  lemma FetchSound(num: nat, q: Queue, n: Counts, owner: seq<Option<nat>>, reqs: map<nat, Req>)
    requires Sound(num, q, n, owner, reqs) && num < WRAP
    ensures q.fetched != q.availIdx <==> n.f < n.a
    ensures n.f < n.a ==> var h := q.avail[q.fetched % num];
                          && h in reqs && reqs[h].phase == Queued(n.f)
                          && Sound(num, Fetched(q), n.(f := n.f + 1), owner, Phased(reqs, h, Inflight))
  {
    hide Carried;
    RingLength(num, q.avail, n.f, n.a, reqs, false, owner, q.free);
    Wrapped(n.f, n.a);
    if n.f < n.a {
      FetchRings(num, q, n, reqs);
      var h := q.avail[q.fetched % num];
      hide Rings;
      CarriedAt(num, q, reqs, h);
      assert q.busy == q.busy[reqs[h].b := true];
      PhasedDivided(num, q.free, owner, reqs, h, Inflight);
      hide Divided;
      PhasedCarried(num, q, Fetched(q), reqs, h, Inflight);
    }
  }

  lemma FetchRings(num: nat, q: Queue, n: Counts, reqs: map<nat, Req>)
    requires Shape(num, q) && Rings(num, q, n, reqs) && n.f < n.a
    ensures var h := q.avail[q.fetched % num];
            && h in reqs && reqs[h].phase == Queued(n.f)
            && Rings(num, Fetched(q), n.(f := n.f + 1), Phased(reqs, h, Inflight))
  {
    SlotOf(num, n.f);
    NextIndex(n.f);
    var h := q.avail[n.f % num];
    RingPop(num, q.avail, n.f, n.a, reqs, false, reqs[h].(phase := Inflight));
    RingOther(num, q.used, n.s, n.u, reqs, true, h, Phased(reqs, h, Inflight));
  }

  lemma RingLength(num: nat, ring: seq<nat>, lo: nat, hi: nat, reqs: map<nat, Req>, used: bool, owner: seq<Option<nat>>,
                   free: seq<bool>)
    requires Ring(num, ring, lo, hi, reqs, used) && Divided(num, free, owner, reqs)
    ensures hi - lo <= num
  {
    var heads := RingHeads(num, ring, lo, hi, reqs, used, hi);
    SmallSet(heads, num);
  }

  /** The device reports success and returns the request in the used ring. */
  ghost function Completed(q: Queue, h: nat, num: nat): Queue
    requires Shape(num, q) && h < num
  {
    q.(info := q.info[h := q.info[h].(status := 0)], used := q.used[q.usedIdx % num := h],
       usedIdx := (q.usedIdx + 1) % WRAP)
  }

  lemma CompleteSound(num: nat, q: Queue, n: Counts, owner: seq<Option<nat>>, reqs: map<nat, Req>, h: nat)
    requires Sound(num, q, n, owner, reqs) && h in reqs && reqs[h].phase == Inflight
    ensures h < num && Sound(num, Completed(q, h, num), n.(u := n.u + 1), owner, Phased(reqs, h, Used(n.u)))
  {
    hide Carried, Rings;
    PhasedDivided(num, q.free, owner, reqs, h, Used(n.u));
    hide Divided;
    CarriedAt(num, q, reqs, h);
    assert q.busy == q.busy[reqs[h].b := true];
    CompleteRings(num, q, n, reqs, h);
    PhasedCarried(num, q, Completed(q, h, num), reqs, h, Used(n.u));
  }

  lemma CompleteRings(num: nat, q: Queue, n: Counts, reqs: map<nat, Req>, h: nat)
    requires Shape(num, q) && Rings(num, q, n, reqs) && h in reqs && reqs[h].phase == Inflight
    requires forall x :: x in reqs ==> x < num
    ensures Rings(num, Completed(q, h, num), n.(u := n.u + 1), Phased(reqs, h, Used(n.u)))
  {
    SlotOf(num, n.u);
    NextIndex(n.u);
    hide Ring;
    RingRoom(num, q.used, n.s, n.u, reqs, true, h);
    RingPush(num, q.used, n.s, n.u, reqs, true, h, reqs[h].(phase := Used(n.u)));
    RingOther(num, q.avail, n.f, n.a, reqs, false, h, Phased(reqs, h, Used(n.u)));
  }

  /** One turn of the loop in virtio_disk_intr. */
  ghost function Noticed(q: Queue, b: nat): Queue { q.(busy := q.busy[b := false], seen := (q.seen + 1) % WRAP) }

  lemma IntrSound(num: nat, q: Queue, n: Counts, owner: seq<Option<nat>>, reqs: map<nat, Req>)
    requires Sound(num, q, n, owner, reqs) && num < WRAP
    ensures q.seen != q.usedIdx <==> n.s < n.u
    ensures n.s < n.u ==> var h := q.used[q.seen % num];
                          && h in reqs && h < num && reqs[h].phase == Used(n.s) && q.info[h] == Info(Some(reqs[h].b), 0)
                          && Sound(num, Noticed(q, reqs[h].b), n.(s := n.s + 1), owner, Phased(reqs, h, Done))
  {
    hide Carried;
    RingLength(num, q.used, n.s, n.u, reqs, true, owner, q.free);
    Wrapped(n.s, n.u);
    if n.s < n.u {
      IntrRings(num, q, n, reqs);
      var h := q.used[q.seen % num];
      hide Rings;
      CarriedAt(num, q, reqs, h);
      PhasedDivided(num, q.free, owner, reqs, h, Done);
      hide Divided;
      PhasedCarried(num, q, Noticed(q, reqs[h].b), reqs, h, Done);
    }
  }

  lemma IntrRings(num: nat, q: Queue, n: Counts, reqs: map<nat, Req>)
    requires Shape(num, q) && Rings(num, q, n, reqs) && n.s < n.u
    ensures var h := q.used[q.seen % num];
            && h in reqs && reqs[h].phase == Used(n.s)
            && Rings(num, Noticed(q, reqs[h].b), n.(s := n.s + 1), Phased(reqs, h, Done))
  {
    SlotOf(num, n.s);
    NextIndex(n.s);
    var h := q.used[n.s % num];
    RingPop(num, q.used, n.s, n.u, reqs, true, reqs[h].(phase := Done));
    RingOther(num, q.avail, n.f, n.a, reqs, false, h, Phased(reqs, h, Done));
  }

  /** The end of virtio_disk_rw: the chain is free again. */
  ghost function Finished(q: Queue, r: Req, num: nat): Queue
    requires Shape(num, q) && r.d0 < num && r.d1 < num && r.d2 < num
  {
    q.(free := q.free[r.d0 := true][r.d1 := true][r.d2 := true],
       desc := q.desc[r.d0 := EMPTY][r.d1 := EMPTY][r.d2 := EMPTY],
       info := q.info[r.d0 := q.info[r.d0].(b := None)])
  }

  lemma FinishSound(num: nat, q: Queue, n: Counts, owner: seq<Option<nat>>, reqs: map<nat, Req>, h: nat)
    requires Sound(num, q, n, owner, reqs) && h in reqs && reqs[h].phase == Done
    ensures var r := reqs[h];
            && r.d0 < num && r.d1 < num && r.d2 < num
            && Sound(num, Finished(q, r, num), n, Owning(owner, h, r.d1, r.d2, None), reqs - {h})
  {
    hide Rings, Carried;
    FinishDivided(num, q.free, owner, reqs, h);
    FinishCarried(num, q, owner, reqs, h);
    hide Divided;
    FinishRings(num, q, n, reqs, h);
  }

  lemma FinishRings(num: nat, q: Queue, n: Counts, reqs: map<nat, Req>, h: nat)
    requires Shape(num, q) && Rings(num, q, n, reqs) && h in reqs && reqs[h].phase == Done
    requires reqs[h].d0 < num && reqs[h].d1 < num && reqs[h].d2 < num
    ensures Rings(num, Finished(q, reqs[h], num), n, reqs - {h})
  {
    hide Ring;
    RingOther(num, q.avail, n.f, n.a, reqs, false, h, reqs - {h});
    RingOther(num, q.used, n.s, n.u, reqs, true, h, reqs - {h});
  }

  lemma FinishCarried(num: nat, q: Queue, owner: seq<Option<nat>>, reqs: map<nat, Req>, h: nat)
    requires Shape(num, q) && Carried(num, q, reqs) && Divided(num, q.free, owner, reqs) && h in reqs
    ensures reqs[h].d0 < num && reqs[h].d1 < num && reqs[h].d2 < num
    ensures Carried(num, Finished(q, reqs[h], num), reqs - {h})
  {
    var q', reqs' := Finished(q, reqs[h], num), reqs - {h};
    hide Carries;
    forall g | g in reqs' ensures Carries(num, q', g, reqs'[g]) {
      assert Carries(num, q, g, reqs[g]);
      FinishFrame(num, q, owner, reqs, h, g);
    }
  }

  lemma FinishFrame(num: nat, q: Queue, owner: seq<Option<nat>>, reqs: map<nat, Req>, h: nat, g: nat)
    requires Shape(num, q) && Divided(num, q.free, owner, reqs) && h in reqs && g in reqs && g != h
    requires Carries(num, q, g, reqs[g])
    ensures reqs[h].d0 < num && reqs[h].d1 < num && reqs[h].d2 < num
    ensures Carries(num, Finished(q, reqs[h], num), g, reqs[g])
  {
    assert owner[g] == Some(g) && owner[reqs[g].d1] == Some(g) && owner[reqs[g].d2] == Some(g);
    assert owner[h] == Some(h) && owner[reqs[h].d1] == Some(h) && owner[reqs[h].d2] == Some(h);
    hide Divided;
    CarryFrame(num, q, Finished(q, reqs[h], num), g, reqs[g]);
  }

  lemma FinishDivided(num: nat, free: seq<bool>, owner: seq<Option<nat>>, reqs: map<nat, Req>, h: nat)
    requires Divided(num, free, owner, reqs) && h in reqs
    ensures var r := reqs[h];
            Divided(num, free[h := true][r.d1 := true][r.d2 := true], Owning(owner, h, r.d1, r.d2, None), reqs - {h})
  {
    var r := reqs[h];
    forall i | 0 <= i < num && owner[i] == Some(h) ensures InChain(r, i) {}
  }

  // ----- how many descriptors there are

  ghost function FreeSet(num: nat, free: seq<bool>): set<nat>
    requires |free| == num
  {
    set i: nat | i < num && free[i]
  }

  lemma {:induction false} FullSet(s: set<nat>, n: nat)
    requires forall i :: i in s <==> 0 <= i < n
    ensures |s| == n
  {
    if n > 0 {
      FullSet(s - {n - 1}, n - 1);
    }
  }

  /** Free descriptors and those of the pending requests, three each, make up the whole table. */
  lemma {:induction false} DescriptorCount(num: nat, free: seq<bool>, owner: seq<Option<nat>>, reqs: map<nat, Req>)
    requires Divided(num, free, owner, reqs)
    requires forall h :: h in reqs ==> h != reqs[h].d1 && h != reqs[h].d2 && reqs[h].d1 != reqs[h].d2
    ensures |FreeSet(num, free)| + 3 * |reqs| == num
    decreases |reqs|
  {
    if reqs == map[] {
      FullSet(FreeSet(num, free), num);
    } else {
      var h :| h in reqs;
      var r := reqs[h];
      var free' := free[h := true][r.d1 := true][r.d2 := true];
      FinishDivided(num, free, owner, reqs, h);
      DescriptorCount(num, free', Owning(owner, h, r.d1, r.d2, None), reqs - {h});
      hide Divided;
      FreeThree(num, free, h, r.d1, r.d2);
      assert |reqs - {h}| == |reqs| - 1 by { assert reqs.Keys - {h} == (reqs - {h}).Keys; }
    }
  }

  lemma FreeThree(num: nat, free: seq<bool>, x: nat, y: nat, z: nat)
    requires |free| == num && x < num && y < num && z < num && !free[x] && !free[y] && !free[z] && x != y && x != z
    requires y != z
    ensures |FreeSet(num, free[x := true][y := true][z := true])| == |FreeSet(num, free)| + 3
  {
    var s := FreeSet(num, free);
    assert FreeSet(num, free[x := true][y := true][z := true]) == s + {x} + {y} + {z};
  }
}
