/** log.c as written: the in-memory header updated in place, loops over its entries, buffers read,
    copied, written and released through `Bio`. Every method is proved to be a run of
    `LogMachine`, so what `LogRefinement` shows of runs holds of this code at every write. */
module LogCode {
  import opened Blocks
  import opened CacheModel
  import opened LogDisk
  import opened LogMachine
  import opened LogInvariant
  import opened LogSteps
  import opened LogRoom
  import opened LogRuns
  import opened LogRefinement
  import opened LogAdmission
  import opened Bio

  lemma InternalStep(L: Layout, s: State, st: Step)
    requires LayoutOk(L) && Inv(L, s) && Enabled(L, s, st) && Internal(st)
    ensures Reaches(L, s, Apply(L, s, st)) && Inv(L, Apply(L, s, st))
  {
    hide Inv, Enabled, Apply, IsRun, After;
    ReachesStep(L, s, st);
    InvRefines(L, s, st);
  }

  /** Commit and recovery never change what a reader sees. */
  lemma ReachesKeepsMap(L: Layout, s: State, s': State)
    requires LayoutOk(L) && Inv(L, s) && Reaches(L, s, s')
    ensures Inv(L, s') && Abstract(L, s').vol == Abstract(L, s).vol && Abstract(L, s').open == Abstract(L, s).open
  {
    hide Inv, Abstract;
    var steps :| RunTo(L, s, steps, s') && forall k :: 0 <= k < |steps| ==> Internal(steps[k]);
    RunKeepsMap(L, s, steps);
  }

  lemma {:induction false} RunKeepsMap(L: Layout, s: State, steps: seq<Step>)
    requires LayoutOk(L) && Inv(L, s) && IsRun(L, s, steps)
    requires forall k :: 0 <= k < |steps| ==> Internal(steps[k])
    ensures Inv(L, After(L, s, steps))
    ensures Abstract(L, After(L, s, steps)).vol == Abstract(L, s).vol
    ensures Abstract(L, After(L, s, steps)).open == Abstract(L, s).open
    decreases |steps|
  {
    hide Inv, Abstract, Enabled, Apply;
    if steps != [] {
      InvRefines(L, s, steps[0]);
      QuietPhase(L, s);
      QuietPhase(L, Apply(L, s, steps[0]));
      assert AtomicStep(Abstract(L, s), EventOf(s, steps[0]), Abstract(L, Apply(L, s, steps[0])));
      RunKeepsMap(L, Apply(L, s, steps[0]), steps[1..]);
    }
  }

  lemma HeldOk(L: Layout, s: State, i: nat)
    requires LayoutOk(L) && Inv(L, s) && i < |s.cache.bufs| && s.cache.bufs[i].holder.Some?
    ensures s.cache.bufs[i].refcnt > 0 && s.cache.bufs[i].dev == ROOTDEV
    ensures s.cache.bufs[i].blockno < |s.disk| && L.logstart < |s.disk| && EntriesOk(L, s.lh)
    ensures s.phase.ReadingHead? && CachedIn(s, i, L.logstart) ==> WordAt(s.cache.bufs[i].data, 0) < WORDS
  {
    GuardsHold(L, s, i);
  }

  /** The buffers locked in s are exactly those of held, all of them by p. */
  ghost predicate Locked(s: State, p: nat, held: set<nat>) {
    forall j :: 0 <= j < |s.cache.bufs| ==>
      (if j in held then s.cache.bufs[j].holder == Some(p) else s.cache.bufs[j].holder.None?)
  }

  /** bread does not wait unless the block's own buffer is locked, and locks one more buffer. */
  lemma AcquireReady(L: Layout, s: State, p: nat, held: set<nat>, b: nat)
    requires LayoutOk(L) && Inv(L, s) && Locked(s, p, held) && b < L.size
    requires forall j :: j in held && 0 <= j < |s.cache.bufs| ==> !Holds(s.cache.bufs[j], ROOTDEV, b)
    ensures RingOk(s.cache) && |s.disk| == L.size
    ensures match Choose(s.cache, ROOTDEV, b)
            case Some(i) =>
              && i < |s.cache.bufs| && s.cache.bufs[i].holder.None? && i !in held
              && Locked(s.(cache := Loaded(s.cache, s.disk, ROOTDEV, b, p)), p, held + {i})
            case None => true
  {
    ChooseMeaning(s.cache, ROOTDEV, b);
    if Choose(s.cache, ROOTDEV, b).Some? {
      var i := Choose(s.cache, ROOTDEV, b).value;
      assert CountOk(s, i);
      assert i !in held;
    }
  }

  /** Power failure after any k of these writes, lo <= k <= hi, recovers to dur. */
  ghost predicate Kept(L: Layout, image: Disk, ws: seq<(nat, Block)>, lo: nat, hi: nat, dur: map<nat, Block>)
    requires LayoutOk(L) && hi <= |ws|
  {
    forall k :: lo <= k <= hi ==>
      DiskOk(L, Written(image, ws[..k])) && Durable(L, Written(image, ws[..k])) == dur
  }

  /** Every buffer is referenced, so bget panics; with no other user of the cache the pinned blocks
      fill all the buffers, or during recovery all but one. */
  ghost predicate Starved(s: State) {
    && (forall i :: 0 <= i < |s.cache.bufs| ==> s.cache.bufs[i].refcnt > 0)
    && (Idle(s.procs) ==> |s.cache.bufs| <= |Pins(s)| + if Recovering(s) then 1 else 0)
  }

  ghost function BlocksIn(bufs: seq<Buf>, h: int, k: nat): set<nat>
    requires k <= |bufs|
  {
    if k == 0 then {} else BlocksIn(bufs, h, k - 1) + if k - 1 == h then {} else {bufs[k - 1].blockno}
  }

  lemma {:induction false} BlocksCount(bufs: seq<Buf>, h: int, k: nat)
    requires k <= |bufs|
    requires forall i, j :: 0 <= i < j < k && i != h && j != h ==> bufs[i].blockno != bufs[j].blockno
    ensures |BlocksIn(bufs, h, k)| == k - if 0 <= h < k then 1 else 0
    ensures forall x :: x in BlocksIn(bufs, h, k) ==> exists i :: 0 <= i < k && i != h && bufs[i].blockno == x
  {
    if k > 0 {
      BlocksCount(bufs, h, k - 1);
      var before := BlocksIn(bufs, h, k - 1);
      assert k - 1 != h ==> bufs[k - 1].blockno !in before;
      forall x | x in BlocksIn(bufs, h, k) ensures exists i :: 0 <= i < k && i != h && bufs[i].blockno == x {
        if x in before {
          var i :| 0 <= i < k - 1 && i != h && bufs[i].blockno == x;
        } else {
          assert bufs[k - 1].blockno == x;
        }
      }
    }
  }

  /** bget fails while at most one buffer is locked: every other buffer is pinned. */
  lemma PinnedFill(L: Layout, s: State, p: nat, h: int)
    requires LayoutOk(L) && CacheOk(L, s) && Idle(s.procs) && Locked(s, p, if h >= 0 then {h} else {})
    requires forall i :: 0 <= i < |s.cache.bufs| ==> s.cache.bufs[i].refcnt > 0
    ensures |s.cache.bufs| <= |Pins(s)| + if h >= 0 then 1 else 0
  {
    var bufs := s.cache.bufs;
    forall i | 0 <= i < |bufs| && i != h ensures bufs[i].dev == ROOTDEV && bufs[i].blockno in Pins(s) {
      assert CountOk(s, i);
      NoWaiters(s.procs, i);
    }
    BlocksCount(bufs, h, |bufs|);
    FewElements(Pins(s), BlocksIn(bufs, h, |bufs|));
  }

  /** bget fails for block b, which the committing process wants beside buffer h. */
  lemma Starves(L: Layout, s: State, p: nat, h: int, b: nat)
    requires LayoutOk(L) && Inv(L, s) && Locked(s, p, if h >= 0 then {h} else {})
    requires h >= 0 ==> Recovering(s) || b in Pins(s)
    requires Choose(s.cache, ROOTDEV, b).None?
    ensures Starved(s)
  {
    ChooseMeaning(s.cache, ROOTDEV, b);
    assert b in Pins(s) ==> Cached(s, b);
    if Idle(s.procs) {
      PinnedFill(L, s, p, h);
    }
  }

  ghost predicate SameDurable(L: Layout, disk: Disk, disk': Disk)
    requires LayoutOk(L)
  {
    DiskOk(L, disk) && DiskOk(L, disk') && Durable(L, disk') == Durable(L, disk)
  }

  lemma KeptMore(L: Layout, image: Disk, ws: seq<(nat, Block)>, more: seq<(nat, Block)>, lo: nat, hi: nat, dur: map<nat,
                 Block>)
    requires LayoutOk(L) && hi <= |ws| && Kept(L, image, ws, lo, hi, dur)
    ensures Kept(L, image, ws + more, lo, hi, dur)
  {
    forall k | lo <= k <= hi ensures (ws + more)[..k] == ws[..k] {}
  }

  lemma KeptNow(L: Layout, image: Disk, ws: seq<(nat, Block)>, w: (nat, Block), lo: nat, dur: map<nat, Block>)
    requires LayoutOk(L) && lo <= |ws| + 1 && (lo <= |ws| ==> Kept(L, image, ws, lo, |ws|, dur))
    requires DiskOk(L, Written(image, ws + [w])) && Durable(L, Written(image, ws + [w])) == dur
    ensures Kept(L, image, ws + [w], lo, |ws| + 1, dur)
  {
    hide Written, DiskOk, Durable;
    var ws' := ws + [w];
    forall k | lo <= k <= |ws| + 1
      ensures DiskOk(L, Written(image, ws'[..k])) && Durable(L, Written(image, ws'[..k])) == dur
    {
      if k <= |ws| {
        assert ws'[..k] == ws[..k];
      } else {
        assert ws'[..k] == ws';
      }
    }
  }

  class Log {
    const L: Layout
    const cache: Bcache
    const device: Device
    const block: array<nat> // log.lh.block
    var n: nat // log.lh.n
    var outstanding: nat
    var committing: bool
    var who: nat // the process inside commit or recovery
    ghost var phase: Phase
    ghost var procs: seq<Proc>
    ghost var dirty: set<nat>

    ghost predicate Shape()
      reads this, block, cache, cache.buf, device
    {
      LayoutOk(L) && block.Length == L.logSize && n <= L.logSize && cache.Valid() && device.Valid()
    }

    /** The machine state this object stands for. */
    ghost function S(): State
      requires Shape()
      reads this, block, cache, cache.buf, device
    {
      State(device.blocks, cache.View(), procs, block[..n], outstanding, committing, phase, who, dirty)
    }

    ghost predicate Valid()
      reads this, block, cache, cache.buf, device
    {
      Shape() && Inv(L, S()) && who < |procs| && procs[who].waits.None? && procs[who].passed.None?
    }

    /** Commit or recovery is running, and no buffer is locked. */
    ghost predicate Busy()
      reads this, block, cache, cache.buf, device
    {
      Valid() && phase != Running && Locked(S(), who, {})
    }

    /** Power-on: binit, a zeroed struct log, and initlog up to its call of recover_from_log. */
    constructor (layout: Layout, contents: Disk, nbuf: nat, nproc: nat)
      requires LayoutOk(layout) && DiskOk(layout, contents) && nproc > 0
      ensures L == layout && Busy() && Init(L, S()) && device.blocks == contents
      ensures fresh(cache) && fresh(cache.buf) && fresh(device) && fresh(block)
    {
      L := layout;
      cache := new Bcache(nbuf);
      device := new Device(contents);
      block := new nat[layout.logSize];
      n, outstanding, committing := 0, 0, false;
      phase, who, dirty := ReadingHead, BOOT, {};
      procs := seq(nproc, _ => IDLE);
      new;
      assert S() == Reboot(S());
      RebootOk(L, S());
    }

    /** bread by the committing process. */
    method Acquire(b: nat, ghost held: set<nat>) returns (r: Option<nat>)
      requires Valid() && phase != Running && b < L.size && Locked(S(), who, held)
      requires forall j :: j in held && 0 <= j < cache.nbuf ==> !Holds(S().cache.bufs[j], ROOTDEV, b)
      requires held == {} || exists h: nat :: held == {h} && (Recovering(S()) || b in Pins(S()))
      modifies cache.buf
      ensures Valid() && Reaches(L, old(S()), S())
      ensures r.None? ==> S() == old(S()) && Starved(S())
      ensures r.Some? ==>
        && r.value < cache.nbuf && r.value !in held && Owns(S(), who, r.value, b)
        && S() == old(S()).(cache := S().cache) && Locked(S(), who, held + {r.value})
        && forall j :: j in held && 0 <= j < cache.nbuf ==> S().cache.bufs[j] == old(S()).cache.bufs[j]
    {
      hide Inv, Reaches, RingOk, Starved, LayoutOk, Linked, Distinct;
      ghost var s := S();
      AcquireReady(L, s, who, held, b);
      var waits;
      r, waits := cache.Bread(device, ROOTDEV, b, who);
      if r.None? {
        ReachesSelf(L, s);
        ghost var h: int := -1;
        if held != {} { h :| h >= 0 && held == {h}; }
        Starves(L, s, who, h, b);
      } else {
        BreadRuns(L, s, who, b, r.value);
        ReachesKeepsMap(L, s, S());
      }
    }

    /** brelse by the committing process. */
    method Drop(i: nat, ghost held: set<nat>)
      requires Valid() && dirty == {} && i in held && i < cache.nbuf && Locked(S(), who, held)
      modifies cache, cache.buf
      ensures Valid() && Reaches(L, old(S()), S()) && S() == old(S()).(cache := S().cache)
      ensures Locked(S(), who, held - {i})
    {
      hide Inv, Reaches, RingOk;
      ghost var s := S();
      DropReady(L, s, who, held, i);
      var ok := cache.Brelse(i, who);
      InternalStep(L, s, Brelse(who, i));
    }

    /** memmove of a block into buffer i and bwrite: one transfer to the disk. */
    method Put(i: nat, data: Block)
      requires Valid() && i < cache.nbuf && S().cache.bufs[i].holder == Some(who)
      requires S().cache.bufs[i].blockno < |device.blocks|
      modifies cache.buf, device
      ensures Shape() && S() == StoreBlock(old(S()), i, data)
      ensures |device.writes| == |old(device.writes)| + 1 && device.writes[..|old(device.writes)|] == old(device.writes)
    {
      hide Inv, RingOk;
      assert S().cache.bufs[i] == BufOf(cache.buf[i]);
      cache.Update(i, BufOf(cache.buf[i]).(data := data));
      assert S().cache.bufs[i] == BufOf(cache.buf[i]);
      var ok := cache.Bwrite(device, i, who);
    }

    /** bread of log block `tail` and of the home block it stands for. */
    method AcquirePair(tail: nat) returns (ok: bool, i: nat, j: nat)
      requires Busy() && tail < n && phase in {WritingLog(tail), Installing(tail), Reinstalling(tail)}
      modifies cache.buf
      ensures Valid() && Reaches(L, old(S()), S()) && S() == old(S()).(cache := S().cache)
      ensures ok ==> Owns(S(), who, i, LogBlock(L, tail)) && Owns(S(), who, j, block[tail]) && i != j
      ensures ok ==> Locked(S(), who, {i, j})
      ensures !ok ==> Starved(S())
    {
      hide Inv, Reaches, RingOk, Starved, LayoutOk, Linked, Distinct;
      i, j := 0, 0;
      ghost var s := S();
      EntryBounds(L, s, tail);
      var r := Acquire(L.logstart + tail + 1, {});
      if r.None? {
        return false, 0, 0;
      }
      i := r.value;
      ghost var s1 := S();
      assert {} + {i} == {i};
      r := Acquire(block[tail], {i});
      ReachesTrans(L, s, s1, S());
      if r.None? {
        return false, 0, 0;
      }
      j := r.value;
      ok := true;
    }

    /** brelse of two buffers, i first. */
    method DropPair(i: nat, j: nat)
      requires Valid() && phase != Running && i != j && i < cache.nbuf && j < cache.nbuf && Locked(S(), who, {i, j})
      modifies cache, cache.buf
      ensures Busy() && Reaches(L, old(S()), S()) && S() == old(S()).(cache := S().cache)
    {
      hide Inv, Reaches, RingOk;
      ghost var s := S();
      QuietPhase(L, s);
      Drop(i, {i, j});
      assert {i, j} - {i} == {j};
      ghost var s1 := S();
      Drop(j, {j});
      ReachesTrans(L, s, s1, S());
      assert {j} - {j} == {};
    }

    /** memmove(to->data, from->data); bwrite(to) in write_log. */
    method CopyToLog(tail: nat, to: nat, from: nat)
      requires Valid() && phase == WritingLog(tail) && tail < n && Locked(S(), who, {to, from})
      requires Owns(S(), who, to, LogBlock(L, tail)) && Owns(S(), who, from, block[tail])
      modifies this`phase, cache.buf, device
      ensures Valid() && Reaches(L, old(S()), S()) && Locked(S(), who, {to, from}) && S().lh == old(S()).lh
      ensures phase == if tail + 1 < n then WritingLog(tail + 1) else WritingHead
      ensures |device.writes| == |old(device.writes)| + 1 && device.writes[..|old(device.writes)|] == old(device.writes)
      ensures SameDurable(L, old(device.blocks), device.blocks)
    {
      hide Inv, Reaches, RingOk, Locked;
      ghost var s := S();
      CopyRuns(L, s, to, from);
      assert s.cache.bufs[from] == BufOf(cache.buf[from]);
      Put(to, cache.buf[from].data);
      phase := if tail + 1 < n then WritingLog(tail + 1) else WritingHead;
      assert S() == DoWriteLog(L, s, to, from);
    }

    /** One iteration of write_log; false where bget panics for want of a buffer. */
    method WriteLogOne(tail: nat, ghost lo: nat, ghost dur: map<nat, Block>) returns (ok: bool)
      requires Busy() && phase == WritingLog(tail) && tail < n
      requires lo <= |device.writes| && Kept(L, device.image, device.writes, lo, |device.writes|, dur)
      modifies this`phase, cache, cache.buf, device
      ensures Valid() && Reaches(L, old(S()), S()) && S().lh == old(S()).lh
      ensures lo <= |device.writes| && Kept(L, device.image, device.writes, lo, |device.writes|, dur)
      ensures ok ==> Busy() && phase == if tail + 1 < n then WritingLog(tail + 1) else WritingHead
      ensures old(device.writes) <= device.writes && |device.writes| == |old(device.writes)| + if ok then 1 else 0
      ensures !ok ==> Starved(S())
    {
      hide Inv, Reaches, RingOk, Kept, SameDurable;
      ghost var s := S();
      var to, from;
      ok, to, from := AcquirePair(tail);
      if ok {
        ghost var s1 := S();
        CopyToLog(tail, to, from);
        ReachesTrans(L, s, s1, S());
        StillKept(L, device.image, old(device.writes), device.writes, lo, dur);
        s1 := S();
        assert {to, from} == {from, to};
        DropPair(from, to);
        ReachesTrans(L, s, s1, S());
      }
    }

    /** write_log. Wherever it is cut off, recovery finds what was durable before. */
    method WriteLog(ghost lo: nat, ghost dur: map<nat, Block>) returns (ok: bool)
      requires Busy() && phase == WritingLog(0) && n > 0
      requires lo <= |device.writes| && Kept(L, device.image, device.writes, lo, |device.writes|, dur)
      modifies this`phase, cache, cache.buf, device
      ensures Valid() && Reaches(L, old(S()), S()) && S().lh == old(S()).lh
      ensures lo <= |device.writes| && Kept(L, device.image, device.writes, lo, |device.writes|, dur)
      ensures old(device.writes) <= device.writes && |device.writes| <= |old(device.writes)| + n
      ensures ok ==> Busy() && phase == WritingHead && |device.writes| == |old(device.writes)| + n
      ensures !ok ==> Starved(S())
    {
      hide Inv, Reaches, RingOk, Kept;
      ghost var s := S();
      ReachesSelf(L, s);
      var tail := 0;
      while tail < n
        invariant 0 <= tail <= n && Busy() && Reaches(L, s, S()) && S().lh == s.lh
        invariant phase == if tail < n then WritingLog(tail) else WritingHead
        invariant old(device.writes) <= device.writes && |device.writes| == |old(device.writes)| + tail
        invariant Kept(L, device.image, device.writes, lo, |device.writes|, dur)
      {
        ghost var s1 := S();
        ok := WriteLogOne(tail, lo, dur);
        ReachesTrans(L, s, s1, S());
        if !ok {
          return;
        }
        tail := tail + 1;
      }
      ok := true;
    }

    /** The header block: count, entries, and the rest of the buffer as it was. */
    method BuildHead(prior: Block) returns (data: Block)
      requires Shape() && n < WORDS && forall k :: 0 <= k < n ==> block[k] < TWO32
      ensures data == EncodeHead(prior, block[..n])
    {
      data := PutWord(prior, 0, n);
      for i := 0 to n
        invariant data == PutEntries(PutWord(prior, 0, n), block[..n], i)
      {
        data := PutWord(data, i + 1, block[i]);
      }
    }

    /** write_head: the commit point when the list is not empty, the end of commit or recovery when
        it is. */
    method StoreHead() returns (ok: bool)
      requires Busy() && (if phase == WritingHead then n > 0 else n == 0 && (phase == Erasing || phase == Clearing))
      modifies this`phase, cache, cache.buf, device
      ensures Valid() && Reaches(L, old(S()), S()) && S().lh == old(S()).lh
      ensures !ok ==> device.writes == old(device.writes) && device.blocks == old(device.blocks)
      ensures ok ==> Locked(S(), who, {}) && phase == HeadNext(old(phase))
      ensures ok ==>
        |device.writes| == |old(device.writes)| + 1 && device.writes[..|old(device.writes)|] == old(device.writes)
      ensures ok ==> HeadEffect(L, old(S()), device.blocks)
      ensures !ok ==> Starved(S())
      ensures !ok ==> phase != Running
    {
      hide Inv, Reaches, RingOk, Starved, LayoutOk, Linked, Distinct, EncodeHead, HeadEffect;
      ghost var s := S();
      HeadBounds(L, s);
      var r := Acquire(L.logstart, {});
      if r.None? {
        return false;
      }
      var i := r.value;
      ghost var s1 := S();
      assert {} + {i} == {i};
      assert s1.cache.bufs[i] == BufOf(cache.buf[i]);
      var data := BuildHead(cache.buf[i].data);
      HeadRuns(L, s, s1, i);
      Put(i, data);
      phase := HeadNext(phase);
      ReachesTrans(L, s, s1, S());
      s1 := S();
      Drop(i, {i});
      assert {i} - {i} == {};
      ReachesTrans(L, s, s1, S());
      ok := true;
    }

    /** memmove(dbuf->data, lbuf->data); bwrite(dbuf); bunpin(dbuf) in install_trans. */
    method CopyHome(tail: nat, lbuf: nat, dbuf: nat)
      requires Valid() && phase == Installing(tail) && tail < n && Locked(S(), who, {lbuf, dbuf})
      requires Owns(S(), who, lbuf, LogBlock(L, tail)) && Owns(S(), who, dbuf, block[tail])
      modifies this`phase, this`n, cache.buf, device
      ensures Valid() && Reaches(L, old(S()), S()) && Locked(S(), who, {lbuf, dbuf})
      ensures if tail + 1 < old(n) then phase == Installing(tail + 1) && S().lh == old(S()).lh
              else phase == Erasing && n == 0
      ensures |device.writes| == |old(device.writes)| + 1 && device.writes[..|old(device.writes)|] == old(device.writes)
      ensures SameDurable(L, old(device.blocks), device.blocks)
    {
      hide Inv, Reaches, RingOk, Locked, SameDurable;
      ghost var s := S();
      InstallRuns(L, s, lbuf, dbuf);
      assert s.cache.bufs[lbuf] == BufOf(cache.buf[lbuf]);
      Put(dbuf, cache.buf[lbuf].data);
      cache.Bunpin(dbuf);
      if tail + 1 < n {
        phase := Installing(tail + 1);
      } else {
        phase, n := Erasing, 0;
      }
      assert S() == DoInstall(L, s, lbuf, dbuf);
    }

    /** The same copy during recovery, which pins nothing. */
    method CopyHomeRecovering(tail: nat, lbuf: nat, dbuf: nat)
      requires Valid() && phase == Reinstalling(tail) && tail < n && Locked(S(), who, {lbuf, dbuf})
      requires Owns(S(), who, lbuf, LogBlock(L, tail)) && Owns(S(), who, dbuf, block[tail])
      modifies this`phase, this`n, cache.buf, device
      ensures Valid() && Reaches(L, old(S()), S()) && Locked(S(), who, {lbuf, dbuf})
      ensures if tail + 1 < old(n) then phase == Reinstalling(tail + 1) && S().lh == old(S()).lh
              else phase == Clearing && n == 0
      ensures |device.writes| == |old(device.writes)| + 1 && device.writes[..|old(device.writes)|] == old(device.writes)
      ensures SameDurable(L, old(device.blocks), device.blocks)
    {
      hide Inv, Reaches, RingOk, Locked, SameDurable;
      ghost var s := S();
      ReinstallRuns(L, s, lbuf, dbuf);
      assert s.cache.bufs[lbuf] == BufOf(cache.buf[lbuf]);
      Put(dbuf, cache.buf[lbuf].data);
      if tail + 1 < n {
        phase := Reinstalling(tail + 1);
      } else {
        phase, n := Clearing, 0;
      }
      assert S() == DoRecInstall(L, s, lbuf, dbuf);
    }

    /** One iteration of install_trans. */
    method InstallOne(recovering: bool, tail: nat, ghost lo: nat, ghost dur: map<nat, Block>) returns (ok: bool)
      requires Busy() && tail < n && phase == if recovering then Reinstalling(tail) else Installing(tail)
      requires lo <= |device.writes| && Kept(L, device.image, device.writes, lo, |device.writes|, dur)
      modifies this`phase, this`n, cache, cache.buf, device
      ensures Valid() && Reaches(L, old(S()), S())
      ensures lo <= |device.writes| && Kept(L, device.image, device.writes, lo, |device.writes|, dur)
      ensures old(device.writes) <= device.writes
      ensures ok ==> Busy() && n == if tail + 1 < old(n) then old(n) else 0
      ensures ok && tail + 1 < old(n) ==> phase == if recovering then Reinstalling(tail + 1) else Installing(tail + 1)
      ensures ok && tail + 1 == old(n) ==> phase == if recovering then Clearing else Erasing
      ensures !ok ==> Starved(S())
      ensures n <= old(n)
      ensures !ok ==> phase != Running
    {
      hide Inv, Reaches, RingOk, Kept, SameDurable, Locked;
      ghost var s := S();
      var lbuf, dbuf;
      ok, lbuf, dbuf := AcquirePair(tail);
      if ok {
        ghost var s1 := S();
        if recovering {
          CopyHomeRecovering(tail, lbuf, dbuf);
        } else {
          CopyHome(tail, lbuf, dbuf);
        }
        ReachesTrans(L, s, s1, S());
        StillKept(L, device.image, old(device.writes), device.writes, lo, dur);
        s1 := S();
        DropPair(lbuf, dbuf);
        ReachesTrans(L, s, s1, S());
        assert tail + 1 < old(n) ==> |s1.lh| == |S().lh|;
      }
    }

    /** install_trans followed by the caller's log.lh.n = 0. */
    method InstallTrans(recovering: bool, ghost lo: nat, ghost dur: map<nat, Block>) returns (ok: bool)
      requires Busy() && n > 0 && phase == if recovering then Reinstalling(0) else Installing(0)
      requires lo <= |device.writes| && Kept(L, device.image, device.writes, lo, |device.writes|, dur)
      modifies this`phase, this`n, cache, cache.buf, device
      ensures Valid() && Reaches(L, old(S()), S())
      ensures lo <= |device.writes| && Kept(L, device.image, device.writes, lo, |device.writes|, dur)
      ensures old(device.writes) <= device.writes
      ensures ok ==> Busy() && n == 0 && phase == if recovering then Clearing else Erasing
      ensures !ok ==> Starved(S())
      ensures n <= old(n)
      ensures !ok ==> phase != Running
    {
      hide Inv, Reaches, RingOk, Kept;
      ghost var s := S();
      ReachesSelf(L, s);
      var tail, count := 0, n;
      while tail < count
        invariant 0 <= tail <= count && Busy() && Reaches(L, s, S())
        invariant tail < count ==> n == count && phase == if recovering then Reinstalling(tail) else Installing(tail)
        invariant tail == count ==> n == 0 && phase == if recovering then Clearing else Erasing
        invariant lo <= |device.writes| && Kept(L, device.image, device.writes, lo, |device.writes|, dur)
        invariant old(device.writes) <= device.writes && n <= count
      {
        ghost var s1 := S();
        ok := InstallOne(recovering, tail, lo, dur);
        ReachesTrans(L, s, s1, S());
        if !ok {
          return;
        }
        tail := tail + 1;
      }
      ok := true;
    }

    /** read_head: copies the list out of the header block's words. */
    method ReadHead() returns (ok: bool)
      requires Busy() && phase == ReadingHead
      modifies this`phase, this`n, block, cache, cache.buf
      ensures Valid() && Reaches(L, old(S()), S())
      ensures ok ==> Busy() && phase == if n > 0 then Reinstalling(0) else Clearing
      ensures !ok ==> Starved(S())
      ensures !ok ==> phase != Running
    {
      hide Inv, Reaches, RingOk;
      ghost var s := S();
      HeadBounds(L, s);
      var r := Acquire(L.logstart, {});
      if r.None? {
        return false;
      }
      var i := r.value;
      ghost var s1 := S();
      assert {} + {i} == {i};
      assert s1.cache.bufs[i] == BufOf(cache.buf[i]);
      var head := cache.buf[i].data;
      ReadRuns(L, s1, i);
      Unpack(head);
      phase := if n > 0 then Reinstalling(0) else Clearing;
      assert S() == DoRecHead(L, s1, i);
      ReachesTrans(L, s, s1, S());
      s1 := S();
      HeadBounds(L, s1);
      Drop(i, {i});
      assert {i} - {i} == {};
      ReachesTrans(L, s, s1, S());
      ok := true;
    }

    /** The copying loop of read_head. */
    method Unpack(head: Block)
      requires WordAt(head, 0) <= block.Length && WordAt(head, 0) < WORDS
      modifies this`n, block
      ensures n == WordAt(head, 0) <= block.Length && block[..n] == DecodeHead(head)
    {
      n := WordAt(head, 0);
      for i := 0 to n
        invariant n == WordAt(head, 0) <= block.Length
        invariant forall k :: 0 <= k < i ==> block[k] == WordAt(head, k + 1)
      {
        block[i] := WordAt(head, i + 1);
      }
    }

    /** recover_from_log: cut off after any of its writes it can be run again to the same end, and
        once it completes readers see exactly the durable map. Two buffers are enough for it. */
    method RecoverFromLog() returns (ok: bool)
      requires Busy() && phase == ReadingHead
      modifies this`phase, this`n, block, cache, cache.buf, device
      ensures Valid() && Reaches(L, old(S()), S()) && DiskOk(L, old(device.blocks))
      ensures |old(device.writes)| <= |device.writes|
      ensures Kept(L, device.image, device.writes, |old(device.writes)|, |device.writes|,
                   Durable(L, old(device.blocks)))
      ensures ok ==> phase == Running && n == 0 && Locked(S(), who, {})
      ensures ok ==> |device.blocks| == L.size && VolMap(L, S()) == Durable(L, old(device.blocks))
      ensures ok ==>
        && DiskOk(L, device.blocks) && Header(L, device.blocks) == []
        && Durable(L, device.blocks) == Durable(L, old(device.blocks))
      ensures !ok ==> Starved(S())
      ensures Idle(procs) && cache.nbuf >= 2 ==> ok
    {
      hide Inv, Reaches, RingOk, Kept, HeadEffect, Locked, Durable, VolMap, Header, DiskOk, Starved, LayoutOk, Linked;
      hide Distinct, Idle;
      ghost var s := S();
      StartKept(L, s, device.image, device.writes);
      ghost var lo, dur := |device.writes|, Durable(L, device.blocks);
      Committing(L, s);
      ok := ReadHead();
      ghost var s1 := S();
      if !ok {
        RecoveryStarved(L, S());
        return;
      }
      if n > 0 {
        ok := InstallTrans(true, lo, dur);
        ReachesTrans(L, s, s1, S());
        if !ok {
          RecoveryStarved(L, S());
          return;
        }
        s1 := S();
      }
      ghost var ws := device.writes;
      ok := StoreHead();
      ReachesTrans(L, s, s1, S());
      if ok {
        ClearKept(L, s1, device.image, ws, device.writes, lo, dur);
        Recovered(L, s, S());
      } else {
        RecoveryStarved(L, S());
      }
    }

    /** commit: a power failure before the first write_head recovers to the old durable map, after
        it to the map readers saw when commit began. Nothing else using the cache, a list shorter
        than the cache has buffers is enough for it to complete. */
    method Commit() returns (ok: bool)
      requires Busy() && (if n > 0 then phase == WritingLog(0) else phase == Finishing)
      modifies this`phase, this`n, cache, cache.buf, device
      ensures Valid() && Reaches(L, old(S()), S()) && DiskOk(L, old(device.blocks)) && |old(device.blocks)| == L.size
      ensures old(device.writes) <= device.writes
      ensures var point := |old(device.writes)| + old(n);
              && Kept(L, device.image, device.writes, |old(device.writes)|, Min(point, |device.writes|),
                      Durable(L, old(device.blocks)))
              && Kept(L, device.image, device.writes, point + 1, |device.writes|, VolMap(L, old(S())))
      ensures ok ==> Busy() && phase == Finishing && n == 0
      ensures ok ==>
        DiskOk(L, device.blocks) && Header(L, device.blocks) == [] && Durable(L, device.blocks) == VolMap(L, old(S()))
      ensures !ok ==> Starved(S())
      ensures Idle(procs) && old(n) < cache.nbuf ==> ok
    {
      hide Inv, Reaches, RingOk, Kept, HeadEffect, Locked, Durable, VolMap, Header, DiskOk, Starved, LayoutOk, Linked;
      hide Distinct, Idle;
      ghost var s := S();
      StartKept(L, s, device.image, device.writes);
      ghost var lo, dur := |device.writes|, Durable(L, device.blocks);
      ghost var point, vol := lo + n, VolMap(L, s);
      if n == 0 {
        ReachesSelf(L, s);
        NoneKept(L, device.image, device.writes, vol);
        Settled(L, s);
        return true;
      }
      Committing(L, s);
      ok := WriteLog(lo, dur);
      ghost var s1, ws := S(), device.writes;
      NoneKept(L, device.image, ws, vol);
      if ok {
        ok := StoreHead();
        ReachesTrans(L, s, s1, S());
        if ok {
          CommitKept(L, s, s1, device.image, ws, device.writes, lo, dur);
          ok := FinishCommit(s, lo, point, dur, vol);
        }
      }
      if !ok { CommitStarved(L, S()); }
    }

    /** commit after the commit point: install, then erase the transaction from the log. */
    method FinishCommit(ghost s: State, ghost lo: nat, ghost point: nat, ghost dur: map<nat, Block>, ghost vol: map<nat,
                        Block>) returns (ok: bool)
      requires Busy() && n > 0 && phase == Installing(0) && Reaches(L, s, S())
      requires lo <= point && |device.writes| == point + 1
      requires Kept(L, device.image, device.writes, lo, point, dur)
      requires Kept(L, device.image, device.writes, point + 1, point + 1, vol)
      modifies this`phase, this`n, cache, cache.buf, device
      ensures Valid() && Reaches(L, s, S()) && point < |device.writes| && old(device.writes) <= device.writes
      ensures Kept(L, device.image, device.writes, lo, point, dur)
      ensures Kept(L, device.image, device.writes, point + 1, |device.writes|, vol)
      ensures ok ==> Busy() && phase == Finishing && n == 0
      ensures ok ==> DiskOk(L, device.blocks) && Header(L, device.blocks) == [] && Durable(L, device.blocks) == vol
      ensures !ok ==> Starved(S())
      ensures n <= old(n)
    {
      hide Inv, Reaches, RingOk, Kept, HeadEffect, Locked, Durable, VolMap, Header, DiskOk, Starved, LayoutOk, Linked;
      hide Distinct;
      ghost var s1, ws := S(), device.writes;
      ok := InstallTrans(false, point + 1, vol);
      ReachesTrans(L, s, s1, S());
      KeptPrefix(L, device.image, ws, device.writes, lo, point, dur);
      if ok {
        s1, ws := S(), device.writes;
        ok := StoreHead();
        ReachesTrans(L, s, s1, S());
        if ok {
          KeptPrefix(L, device.image, ws, device.writes, lo, point, dur);
          ClearKept(L, s1, device.image, ws, device.writes, point + 1, vol);
          Settled(L, S());
          KeptEnd(L, device.image, device.writes, point + 1, vol);
        }
      }
    }

    /** One pass of begin_op's loop under log.lock; false where the caller sleeps. */
    method BeginOp(p: nat) returns (go: bool)
      requires Valid() && p < |procs| && procs[p].op.None? && !Recovering(S())
      modifies this`outstanding, this`procs
      ensures Valid() && go == CanBeginOp(L, old(S()), p)
      ensures S() == if go then DoBeginOp(L, old(S()), p) else old(S())
    {
      hide Inv, RingOk;
      ghost var s := S();
      if committing || n + (outstanding + 1) * L.maxOp > L.logSize {
        return false;
      }
      outstanding := outstanding + 1;
      procs := procs[p := procs[p].(op := Some(L.maxOp))];
      assert S() == DoBeginOp(L, s, p);
      BeginOpStep(L, s, p);
      go := true;
    }

    /** end_op up to its release of log.lock; true when the caller must run commit(). */
    method EndOp(p: nat) returns (doCommit: bool)
      requires Valid() && InOp(S(), p) && procs[p].waits.None? && procs[p].passed.None?
      requires forall i :: i in dirty && 0 <= i < cache.nbuf ==> S().cache.bufs[i].holder != Some(p)
      modifies this`outstanding, this`procs, this`committing, this`who, this`phase
      ensures Valid() && CanEndOp(old(S()), p) && S() == DoEndOp(old(S()), p)
      ensures doCommit == committing && (doCommit ==> who == p && OpenOps(S()) == {})
    {
      hide Inv, RingOk;
      ghost var s := S();
      QuietPhase(L, s);
      EndOpStep(L, s, p);
      QuietPhase(L, DoEndOp(s, p));
      outstanding := outstanding - 1;
      procs := procs[p := procs[p].(op := None)];
      if outstanding == 0 {
        doCommit, committing, who := true, true, p;
        phase := if n > 0 then WritingLog(0) else Finishing;
      } else {
        doCommit := false;
      }
      assert S() == DoEndOp(s, p);
    }

    /** log_write on buffer i by operation p, with nobody else between its test and its lock; false where it
        panics with "too big a transaction". */
    method LogWrite(p: nat, i: nat) returns (ok: bool)
      requires Valid() && CanModify(L, S(), p, i) && procs[p].waits.None?
      requires S().cache.bufs[i].blockno !in S().lh ==> S().procs[p].op.value >= 1
      modifies this`n, this`procs, this`dirty, block, cache.buf
      ensures Valid() && ok == !TooBig(L, old(S()))
      ensures if ok then CanTestLog(L, old(S()), p, i) && CanLogWrite(L, DoTestLog(L, old(S()), p, i), p, i) &&
                         S() == DoLogWrite(L, DoTestLog(L, old(S()), p, i), p, i)
              else S() == old(S())
    {
      hide Inv, RingOk;
      ghost var s := S();
      QuietPhase(L, s);
      if n >= L.logSize || n >= L.nlog - 1 {
        return false;
      }
      TestLogStep(L, s, p, i);
      ghost var s1 := DoTestLog(L, s, p, i);
      LogWriteStep(L, s1, p, i);
      var b := cache.buf[i].blockno;
      assert s.cache.bufs[i] == BufOf(cache.buf[i]);
      var k := 0;
      while k < n && block[k] != b
        invariant 0 <= k <= n && b !in block[..k]
      {
        k := k + 1;
      }
      assert k < n ==> block[..n][k] == b;
      block[k] := b;
      dirty := dirty - {i};
      if k == n {
        assert block[..n] == s.lh;
        cache.Bpin(i);
        procs := procs[p := procs[p].(op := Some(procs[p].op.value - 1))];
        n := n + 1;
      } else {
        assert block[..n] == s.lh;
      }
      assert procs == DoLogWrite(L, s1, p, i).procs;
      assert S() == DoLogWrite(L, s1, p, i);
      ok := true;
    }
  }

  lemma CommitStarved(L: Layout, s: State)
    requires LayoutOk(L) && Inv(L, s) && s.committing && Starved(s)
    ensures Idle(s.procs) ==> |s.cache.bufs| <= |s.lh|
  {
    hide CacheOk, ProcsOk, DirtyOk, Idle;
  }

  lemma RecoveryStarved(L: Layout, s: State)
    requires LayoutOk(L) && Inv(L, s) && !s.committing && s.phase != Running && Starved(s)
    ensures Idle(s.procs) ==> |s.cache.bufs| <= 1
  {
    hide CacheOk, ProcsOk, DirtyOk, Idle;
  }

  lemma Committing(L: Layout, s: State)
    requires LayoutOk(L) && Inv(L, s) && s.phase != Running
    ensures s.committing == !Recovering(s)
  {
    hide CacheOk, ProcsOk, DirtyOk;
  }

  lemma StartKept(L: Layout, s: State, image: Disk, ws: seq<(nat, Block)>)
    requires LayoutOk(L) && Inv(L, s) && s.disk == Written(image, ws)
    ensures DiskOk(L, s.disk) && |s.disk| == L.size && Kept(L, image, ws, |ws|, |ws|, Durable(L, s.disk))
  {
    hide Inv;
    QuietPhase(L, s);
    assert ws[..|ws|] == ws;
  }

  lemma NoneKept(L: Layout, image: Disk, ws: seq<(nat, Block)>, vol: map<nat, Block>)
    requires LayoutOk(L)
    ensures forall lo :: lo > |ws| ==> Kept(L, image, ws, lo, |ws|, vol)
  {}

  lemma KeptEnd(L: Layout, image: Disk, ws: seq<(nat, Block)>, lo: nat, dur: map<nat, Block>)
    requires LayoutOk(L) && lo <= |ws| && Kept(L, image, ws, lo, |ws|, dur)
    ensures DiskOk(L, Written(image, ws)) && Durable(L, Written(image, ws)) == dur
  {
    assert ws[..|ws|] == ws;
  }

  lemma KeptPrefix(L: Layout, image: Disk, ws: seq<(nat, Block)>, ws': seq<(nat, Block)>, lo: nat, hi: nat,
                   dur: map<nat, Block>)
    requires LayoutOk(L) && hi <= |ws| && Kept(L, image, ws, lo, hi, dur) && ws <= ws'
    ensures Kept(L, image, ws', lo, hi, dur)
  {
    assert ws' == ws + ws'[|ws|..];
    KeptMore(L, image, ws, ws'[|ws|..], lo, hi, dur);
  }

  lemma ClearKept(L: Layout, s: State, image: Disk, ws: seq<(nat, Block)>, ws': seq<(nat, Block)>, lo: nat,
                  dur: map<nat, Block>)
    requires LayoutOk(L) && s.phase != WritingHead && s.disk == Written(image, ws)
    requires HeadEffect(L, s, Written(image, ws'))
    requires |ws'| == |ws| + 1 && ws'[..|ws|] == ws && lo <= |ws| && Kept(L, image, ws, lo, |ws|, dur)
    ensures Kept(L, image, ws', lo, |ws'|, dur)
  {
    hide Kept, Written, DiskOk, Durable;
    StillKept(L, image, ws, ws', lo, dur);
  }

  /** The header write turns every later crash point over to the new map. */
  lemma CommitKept(L: Layout, s: State, s1: State, image: Disk, ws: seq<(nat, Block)>, ws': seq<(nat, Block)>, lo: nat,
                   dur: map<nat, Block>)
    requires LayoutOk(L) && Inv(L, s) && Reaches(L, s, s1) && !Recovering(s) && |s.disk| == L.size
    requires s1.phase == WritingHead && HeadEffect(L, s1, Written(image, ws'))
    requires |ws'| == |ws| + 1 && ws'[..|ws|] == ws && lo <= |ws| && Kept(L, image, ws, lo, |ws|, dur)
    ensures Kept(L, image, ws', lo, |ws|, dur) && Kept(L, image, ws', |ws| + 1, |ws| + 1, VolMap(L, s))
  {
    hide Kept, Written, DiskOk, Durable, Inv, Reaches;
    KeptPrefix(L, image, ws, ws', lo, |ws|, dur);
    SameReaders(L, s, s1);
    assert ws' == ws + [ws'[|ws|]];
    KeptNow(L, image, ws, ws'[|ws|], |ws| + 1, VolMap(L, s));
  }

  lemma SameReaders(L: Layout, s: State, s1: State)
    requires LayoutOk(L) && Inv(L, s) && Reaches(L, s, s1) && !Recovering(s) && !Recovering(s1)
    ensures |s.disk| == L.size == |s1.disk| && VolMap(L, s1) == VolMap(L, s)
  {
    ReachesKeepsMap(L, s, s1);
  }

  /** With nothing logged and nothing being changed, what readers see is durable. */
  lemma Settled(L: Layout, s: State)
    requires LayoutOk(L) && Inv(L, s) && s.lh == [] && (s.phase == Finishing || (s.phase == Running && s.dirty == {}))
    ensures |s.disk| == L.size && DiskOk(L, s.disk) && Header(L, s.disk) == [] && Durable(L, s.disk) == VolMap(L, s)
  {
    QuietPhase(L, s);
    forall b | 0 <= b < L.size && Home(L, b) ensures VolAt(s, b) == RecoveredAt(L, s.disk, b) {
      VolClean(L, s, b);
    }
  }

  lemma Recovered(L: Layout, s: State, s': State)
    requires LayoutOk(L) && Inv(L, s) && Reaches(L, s, s') && Recovering(s) && s'.phase == Running && s'.lh == []
    requires s'.dirty == s.dirty
    ensures |s'.disk| == L.size && DiskOk(L, s.disk) && VolMap(L, s') == Durable(L, s.disk)
    ensures DiskOk(L, s'.disk) && Header(L, s'.disk) == [] && Durable(L, s'.disk) == Durable(L, s.disk)
  {
    ReachesKeepsMap(L, s, s');
    QuietPhase(L, s);
    Settled(L, s');
  }

  lemma ReadRuns(L: Layout, s: State, i: nat)
    requires LayoutOk(L) && Inv(L, s) && s.phase == ReadingHead && Owns(s, s.who, i, L.logstart)
    requires Locked(s, s.who, {i})
    ensures CanRecHead(L, s, i) && WordAt(s.cache.bufs[i].data, 0) <= L.logSize
    ensures var s' := DoRecHead(L, s, i); Reaches(L, s, s') && Inv(L, s') && Locked(s', s.who, {i})
  {
    hide Reaches;
    HeldOk(L, s, i);
    InternalStep(L, s, RecHeadStep(i));
    ListFits(L, DoRecHead(L, s, i));
  }

  function HeadNext(phase: Phase): Phase {
    if phase == WritingHead then Installing(0) else if phase == Erasing then Finishing else Running
  }

  /** With a list, writing the header makes the visible map durable; without, it changes nothing. */
  ghost predicate HeadEffect(L: Layout, s: State, disk: Disk)
    requires LayoutOk(L)
  {
    && DiskOk(L, s.disk) && DiskOk(L, disk)
    && Durable(L, disk) == if s.phase == WritingHead then VolMap(L, s) else Durable(L, s.disk)
  }

  lemma HeadBounds(L: Layout, s: State)
    requires LayoutOk(L) && Inv(L, s)
    ensures |s.disk| == L.size && L.logstart < L.size && |s.lh| < WORDS
    ensures forall k :: 0 <= k < |s.lh| ==> s.lh[k] < TWO32
    ensures s.phase != Running ==> s.dirty == {}
  {
    QuietPhase(L, s);
  }

  /** Writing the header through buffer i of s, a state that differs from s0 in the cache alone. */
  lemma HeadRuns(L: Layout, s0: State, s: State, i: nat)
    requires LayoutOk(L) && Inv(L, s0) && Inv(L, s) && s == s0.(cache := s.cache) && Reaches(L, s0, s)
    requires Owns(s, s.who, i, L.logstart) && Locked(s, s.who, {i})
    requires if s.phase == WritingHead then |s.lh| > 0 else s.lh == [] && (s.phase == Erasing || s.phase == Clearing)
    ensures |s.lh| < WORDS && (forall k :: 0 <= k < |s.lh| ==> s.lh[k] < TWO32) && L.logstart < |s.disk|
    ensures var s' := StoreBlock(s, i, EncodeHead(s.cache.bufs[i].data, s.lh)).(phase := HeadNext(s.phase));
            Reaches(L, s, s') && Inv(L, s') && Locked(s', s.who, {i}) && HeadEffect(L, s0, s'.disk)
  {
    hide Inv, Reaches, EncodeHead, Abstract;
    HeadBounds(L, s);
    HeadSame(L, s0, s);
    QuietPhase(L, s);
    if s.phase == WritingHead {
      ListFits(L, s);
      InternalStep(L, s, WriteHeadStep(i));
      WriteHeadStepOk(L, s, i);
      QuietPhase(L, DoWriteHead(L, s, i));
    } else {
      HeadClears(L, s, i);
    }
  }

  lemma HeadClears(L: Layout, s: State, i: nat)
    requires LayoutOk(L) && Inv(L, s) && CanErase(L, s, i) && s.phase in {Erasing, Clearing}
    ensures var s' := DoErase(L, s, i, HeadNext(s.phase));
            Reaches(L, s, s') && Inv(L, s') && SameDurable(L, s.disk, s'.disk)
  {
    hide Inv, Reaches, EncodeHead;
    QuietPhase(L, s);
    if s.phase == Erasing {
      InternalStep(L, s, EraseStep(i));
      EraseStepOk(L, s, i, Finishing);
      QuietPhase(L, DoErase(L, s, i, Finishing));
    } else {
      InternalStep(L, s, RecEraseStep(i));
      EraseStepOk(L, s, i, Running);
      QuietPhase(L, DoErase(L, s, i, Running));
    }
  }

  lemma ListFits(L: Layout, s: State)
    requires LayoutOk(L) && Inv(L, s)
    ensures EntriesOk(L, s.lh)
  {}

  lemma HeadSame(L: Layout, s0: State, s: State)
    requires LayoutOk(L) && Inv(L, s0) && Inv(L, s) && s == s0.(cache := s.cache) && Reaches(L, s0, s)
    ensures s.phase == WritingHead ==> VolMap(L, s) == VolMap(L, s0)
  {
    ReachesKeepsMap(L, s0, s);
  }

  /** A write that leaves the atomic map alone extends the range of safe crash points. */
  lemma StillKept(L: Layout, image: Disk, ws: seq<(nat, Block)>, ws': seq<(nat, Block)>, lo: nat, dur: map<nat, Block>)
    requires LayoutOk(L) && SameDurable(L, Written(image, ws), Written(image, ws'))
    requires |ws'| == |ws| + 1 && ws'[..|ws|] == ws && lo <= |ws|
    requires Kept(L, image, ws, lo, |ws|, dur)
    ensures Kept(L, image, ws', lo, |ws'|, dur)
  {
    hide Written, DiskOk, Durable;
    assert ws' == ws + [ws'[|ws|]];
    assert ws[..|ws|] == ws;
    KeptNow(L, image, ws, ws'[|ws|], lo, dur);
  }

  lemma CopyRuns(L: Layout, s: State, to: nat, from: nat)
    requires LayoutOk(L) && Inv(L, s) && s.phase.WritingLog? && s.phase.tail < |s.lh| && Locked(s, s.who, {to, from})
    requires Owns(s, s.who, to, LogBlock(L, s.phase.tail)) && Owns(s, s.who, from, s.lh[s.phase.tail])
    ensures CanWriteLog(L, s, to, from)
    ensures var s' := DoWriteLog(L, s, to, from);
            Reaches(L, s, s') && Inv(L, s') && Locked(s', s.who, {to, from}) && SameDurable(L, s.disk, s'.disk)
  {
    hide Inv, Reaches;
    EntryBounds(L, s, s.phase.tail);
    InternalStep(L, s, WriteLogStep(to, from));
    WriteLogStepOk(L, s, to, from);
    QuietPhase(L, s);
    QuietPhase(L, DoWriteLog(L, s, to, from));
  }

  lemma InstallRuns(L: Layout, s: State, i: nat, j: nat)
    requires LayoutOk(L) && Inv(L, s) && s.phase.Installing? && s.phase.tail < |s.lh| && Locked(s, s.who, {i, j})
    requires Owns(s, s.who, i, LogBlock(L, s.phase.tail)) && Owns(s, s.who, j, s.lh[s.phase.tail])
    ensures CanInstall(L, s, i, j, s.phase.tail)
    ensures var s' := DoInstall(L, s, i, j);
            Reaches(L, s, s') && Inv(L, s') && Locked(s', s.who, {i, j}) && SameDurable(L, s.disk, s'.disk)
  {
    hide Inv, Reaches;
    EntryBounds(L, s, s.phase.tail);
    HeldOk(L, s, j);
    InternalStep(L, s, InstallStep(i, j));
    InstallStepOk(L, s, i, j);
    QuietPhase(L, s);
    QuietPhase(L, DoInstall(L, s, i, j));
  }

  lemma ReinstallRuns(L: Layout, s: State, i: nat, j: nat)
    requires LayoutOk(L) && Inv(L, s) && s.phase.Reinstalling? && s.phase.tail < |s.lh| && Locked(s, s.who, {i, j})
    requires Owns(s, s.who, i, LogBlock(L, s.phase.tail)) && Owns(s, s.who, j, s.lh[s.phase.tail])
    ensures CanInstall(L, s, i, j, s.phase.tail)
    ensures var s' := DoRecInstall(L, s, i, j);
            Reaches(L, s, s') && Inv(L, s') && Locked(s', s.who, {i, j}) && SameDurable(L, s.disk, s'.disk)
  {
    hide Inv, Reaches;
    EntryBounds(L, s, s.phase.tail);
    HeldOk(L, s, j);
    InternalStep(L, s, RecInstallStep(i, j));
    RecInstallStepOk(L, s, i, j);
    QuietPhase(L, s);
    QuietPhase(L, DoRecInstall(L, s, i, j));
  }

  lemma DropReady(L: Layout, s: State, p: nat, held: set<nat>, i: nat)
    requires LayoutOk(L) && Inv(L, s) && Locked(s, p, held) && s.dirty == {} && i in held && i < |s.cache.bufs|
    requires p < |s.procs| ==> s.procs[p].passed.None?
    ensures s.cache.bufs[i].refcnt > 0 && p < |s.procs| && CanBrelse(s, p, i)
    ensures Locked(DoBrelse(s, p, i), p, held - {i})
  {
    HeldOk(L, s, i);
  }

  lemma EntryBounds(L: Layout, s: State, tail: nat)
    requires LayoutOk(L) && Inv(L, s) && tail < |s.lh|
    ensures |s.disk| == L.size && LogBlock(L, tail) < L.size && s.lh[tail] < L.size
    ensures s.lh[tail] != LogBlock(L, tail) && s.lh[tail] != L.logstart
  {}
}
