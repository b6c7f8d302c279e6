/** The run in which two operations both pass log_write's size test for the last log block, and the exact
    sizes of kernel and disk for which there is one. */
module LogOverrun {
  import opened Blocks
  import opened CacheModel
  import opened LogDisk
  import opened LogMachine
  import opened LogInvariant
  import opened LogCore
  import opened LogSteps
  import opened LogRoom
  import opened LogRuns
  import opened LogRefinement

  /** Nobody is inside bget or log_write, and no buffer is locked. */
  ghost predicate Calm(s: State) {
    && (forall p :: 0 <= p < |s.procs| ==> s.procs[p].waits.None? && s.procs[p].passed.None?)
    && (forall i :: 0 <= i < |s.cache.bufs| ==> s.cache.bufs[i].holder.None?)
    && s.dirty == {}
  }

  /** A run from s0 has come to s. */
  ghost predicate At(L: Layout, s0: State, s: State)
    requires LayoutOk(L)
  {
    Path(L, s0, s) && Core(L, s) && |s.procs| == |s0.procs| && |s.cache.bufs| == |s0.cache.bufs|
  }

  /** The first k home blocks have been logged. */
  function Filled(L: Layout, k: nat): seq<nat>
    requires L.logstart + L.nlog <= L.size && k <= Homes(L)
  {
    seq(k, j requires 0 <= j < k => HomeAt(L, j))
  }

  lemma NextHome(L: Layout, k: nat)
    requires LayoutOk(L) && k < Homes(L)
    ensures Home(L, HomeAt(L, k)) && HomeAt(L, k) !in Filled(L, k)
    ensures Filled(L, k + 1) == Filled(L, k) + [HomeAt(L, k)]
  {}

  // ----- single calls

  /** brelse. */
  lemma Give(L: Layout, s0: State, s: State, p: nat, i: nat) returns (s': State)
    requires LayoutOk(L) && At(L, s0, s) && i < |s.cache.bufs| && s.cache.bufs[i].holder == Some(p)
    requires p < |s.procs| && s.procs[p].passed.None? && i !in s.dirty
    ensures At(L, s0, s') && OthersSame(s, s', i) && s'.cache.bufs[i].holder.None?
    ensures |s.disk| == L.size && SameVol(L, s, s')
  {
    assert CountOk(s, i);
    s' := DoBrelse(s, p, i);
    PathStep(L, s0, s, Brelse(p, i));
    BrelseVol(L, s, p, i);
  }

  /** Two calls of brelse, after which no buffer is locked. */
  lemma GiveBoth(L: Layout, s0: State, s: State, p: nat, i: nat, q: nat, j: nat) returns (s': State)
    requires LayoutOk(L) && At(L, s0, s) && i < |s.cache.bufs| && j < |s.cache.bufs| && i != j && s.dirty == {}
    requires s.cache.bufs[i].holder == Some(p) && s.cache.bufs[j].holder == Some(q)
    requires p < |s.procs| && q < |s.procs|
    requires forall k :: 0 <= k < |s.procs| ==> s.procs[k].passed.None? && s.procs[k].waits.None?
    requires forall k :: 0 <= k < |s.cache.bufs| && k != i && k != j ==> s.cache.bufs[k].holder.None?
    ensures At(L, s0, s') && s' == s.(cache := s'.cache) && Calm(s') && |s.disk| == L.size && SameVol(L, s, s')
  {
    hide At, SameVol;
    var s1 := Give(L, s0, s, p, i);
    s' := Give(L, s0, s1, q, j);
    VolTrans(L, s, s1, s');
  }

  /** log_write up to its acquire. */
  lemma Pass(L: Layout, s0: State, s: State, p: nat, i: nat) returns (s': State)
    requires LayoutOk(L) && At(L, s0, s) && CanModify(L, s, p, i) && s.procs[p].waits.None? && !TooBig(L, s)
    ensures At(L, s0, s') && s' == SetProc(s, p, s.procs[p].(passed := Some(i)))
    ensures |s.disk| == L.size && SameVol(L, s, s')
  {
    QuietCore(L, s);
    s' := DoTestLog(L, s, p, i);
    VolUntouched(L, s, s');
    hide Core, CanModify, TooBig;
    PathStep(L, s0, s, TestLog(p, i));
  }

  /** The rest of log_write, for a block not logged before. */
  lemma Add(L: Layout, s0: State, s: State, p: nat, i: nat, b: nat) returns (s': State)
    requires LayoutOk(L) && At(L, s0, s) && InOp(s, p) && s.procs[p].passed == Some(i) && s.procs[p].op.value >= 1
    requires Owns(s, p, i, b) && b !in s.lh
    ensures At(L, s0, s') && s'.lh == s.lh + [b] && |s'.cache.bufs| == |s.cache.bufs|
    ensures s' == s.(cache := s'.cache, lh := s'.lh, dirty := s.dirty - {i},
                     procs := s.procs[p := s.procs[p].(op := Some(s.procs[p].op.value - 1), passed := None)])
    ensures s'.cache.bufs == s.cache.bufs[i := s.cache.bufs[i].(refcnt := s.cache.bufs[i].refcnt + 1)]
    ensures |s.disk| == L.size && SameVol(L, s, s')
  {
    s' := DoLogWrite(L, s, p, i);
    PathStep(L, s0, s, LogWrite(p, i));
    LogWriteVol(L, s, p, i);
  }

  /** An operation reads, logs and releases one more block. */
  lemma LogOne(L: Layout, s0: State, s: State, p: nat, k: nat) returns (s': State)
    requires LayoutOk(L) && At(L, s0, s) && Calm(s) && s.phase == Running && k < Homes(L) && s.lh == Filled(L, k)
    requires InOp(s, p) && s.procs[p].op.value >= 1 && !TooBig(L, s) && k < |s.cache.bufs|
    ensures At(L, s0, s') && Calm(s') && s'.lh == Filled(L, k + 1)
    ensures s' ==
            s.(cache := s'.cache, lh := s'.lh, procs := s.procs[p := s.procs[p].(op := Some(s.procs[p].op.value - 1))])
  {
    hide Core, RingOk, HomeAt, SameVol;
    NextHome(L, k);
    var b := HomeAt(L, k);
    var i, s1 := Take(L, s0, s, p, b, s.lh);
    var s2 := Pass(L, s0, s1, p, i);
    var s3 := Add(L, s0, s2, p, i, b);
    s' := Give(L, s0, s3, p, i);
  }

  // ----- filling the log

  /** Operation p logs blocks k0 to k. */
  lemma {:induction false} FillBy(L: Layout, s0: State, s: State, p: nat, k0: nat, k: nat) returns (s': State)
    requires LayoutOk(L) && At(L, s0, s) && Calm(s) && s.phase == Running && InOp(s, p)
    requires k0 <= k <= Homes(L) && s.lh == Filled(L, k0) && s.procs[p].op.value >= k - k0
    requires k <= |s.cache.bufs| && k <= L.logSize && k < L.nlog
    ensures At(L, s0, s') && Calm(s') && s'.lh == Filled(L, k)
    ensures s' == s.(cache := s'.cache, lh := s'.lh,
                     procs := s.procs[p := s.procs[p].(op := Some(s.procs[p].op.value - (k - k0)))])
    decreases k - k0
  {
    hide Calm, Core, HomeAt, At;
    if k0 == k {
      s' := s;
    } else {
      var s1 := LogOne(L, s0, s, p, k0);
      assert |s1.cache.bufs| == |s.cache.bufs| by { SameSizes(L, s0, s); SameSizes(L, s0, s1); }
      s' := FillBy(L, s0, s1, p, k0 + 1, k);
    }
  }

  lemma SameSizes(L: Layout, s0: State, s: State)
    requires LayoutOk(L) && At(L, s0, s)
    ensures |s.procs| == |s0.procs| && |s.cache.bufs| == |s0.cache.bufs|
  {}

  /** The open operations are those of processes 0 and 1, as given. */
  ghost predicate Two(s: State, a: Option<nat>, b: Option<nat>) {
    && |s.procs| >= 2 && s.procs[0].op == a && s.procs[1].op == b
    && s.outstanding == (if a.Some? then 1 else 0) + (if b.Some? then 1 else 0)
  }

  lemma BeginCall(L: Layout, s0: State, s: State, p: nat) returns (s': State)
    requires LayoutOk(L) && At(L, s0, s) && Calm(s) && s.phase == Running && p < |s.procs| && s.procs[p].op.None?
    requires |s.lh| + (s.outstanding + 1) * L.maxOp <= L.logSize
    ensures At(L, s0, s') && Calm(s')
    ensures s' == s.(procs := s.procs[p := s.procs[p].(op := Some(L.maxOp))], outstanding := s.outstanding + 1)
  {
    s' := DoBeginOp(L, s, p);
    PathStep(L, s0, s, BeginOp(p));
  }

  lemma EndCall(L: Layout, s0: State, s: State, p: nat) returns (s': State)
    requires LayoutOk(L) && At(L, s0, s) && Calm(s) && s.phase == Running && InOp(s, p)
    ensures At(L, s0, s') && Calm(s') && s.outstanding >= 1
    ensures s'.procs == s.procs[p := s.procs[p].(op := None)] && s'.outstanding == s.outstanding - 1 && s'.lh == s.lh
    ensures s'.phase == if s.outstanding > 1 then Running else if s.lh == [] then Finishing else WritingLog(0)
    ensures s.outstanding == 1 ==> s'.who == p
    ensures s'.disk == s.disk && |s.disk| == L.size && SameVol(L, s, s')
  {
    QuietCore(L, s);
    s' := DoEndOp(s, p);
    PathStep(L, s0, s, EndOp(p));
    VolUntouched(L, s, s');
  }

  /** While operation 0 stays open, process 1 logs one block in an operation of its own. */
  lemma Cycle(L: Layout, s0: State, s: State, k: nat, v: nat) returns (s': State)
    requires LayoutOk(L) && At(L, s0, s) && Calm(s) && s.phase == Running && Two(s, Some(v), None)
    requires k < Homes(L) && s.lh == Filled(L, k) && 1 <= L.maxOp && k + 2 * L.maxOp <= L.logSize
    requires k < |s.cache.bufs| && k + 1 < L.nlog
    ensures At(L, s0, s') && Calm(s') && s'.phase == Running && Two(s', Some(v), None) && s'.lh == Filled(L, k + 1)
  {
    hide Calm, Core, HomeAt;
    var s1 := BeginCall(L, s0, s, 1);
    var s2 := LogOne(L, s0, s1, 1, k);
    s' := EndCall(L, s0, s2, 1);
  }

  lemma {:induction false} Cycles(L: Layout, s0: State, s: State, k0: nat, k: nat, v: nat) returns (s': State)
    requires LayoutOk(L) && At(L, s0, s) && Calm(s) && s.phase == Running && Two(s, Some(v), None)
    requires k0 <= k <= Homes(L) && s.lh == Filled(L, k0) && 1 <= L.maxOp && k + 2 * L.maxOp <= L.logSize
    requires k <= |s.cache.bufs| && k < L.nlog
    ensures At(L, s0, s') && Calm(s') && s'.phase == Running && Two(s', Some(v), None) && s'.lh == Filled(L, k)
    decreases k - k0
  {
    hide Calm, Core, HomeAt, At, Two, Filled;
    if k0 == k {
      s' := s;
    } else {
      var s1 := Cycle(L, s0, s, k0, v);
      assert |s1.cache.bufs| == |s.cache.bufs| by { SameSizes(L, s0, s); SameSizes(L, s0, s1); }
      s' := Cycles(L, s0, s1, k0 + 1, k, v);
    }
  }

  /** From an empty log to two open operations with two blocks short of n logged, a block left for each. */
  lemma Climb(L: Layout, s0: State, s: State, n: nat) returns (s': State, a: nat, b: nat)
    requires LayoutOk(L) && At(L, s0, s) && Calm(s) && s.phase == Running && Two(s, None, None) && s.lh == []
    requires 2 <= n <= L.logSize && n <= L.nlog && n <= Homes(L) && n <= |s.cache.bufs|
    requires 1 <= L.maxOp && 2 * L.maxOp <= L.logSize
    ensures At(L, s0, s') && Calm(s') && s'.phase == Running && s'.lh == Filled(L, n - 2)
    ensures Two(s', Some(a), Some(b)) && a >= 1 && b >= 1
  {
    hide Calm, Core, HomeAt, At;
    SameSizes(L, s0, s);
    var k0 := if n - 2 <= L.logSize - 2 * L.maxOp then n - 2 else L.logSize - 2 * L.maxOp;
    var k1 := if n - 2 <= k0 + L.maxOp - 1 then n - 2 else k0 + L.maxOp - 1;
    var s1 := BeginCall(L, s0, s, 0);
    assert s1.lh == Filled(L, 0);
    var s2 := Cycles(L, s0, s1, 0, k0, L.maxOp);
    var s3 := BeginCall(L, s0, s2, 1);
    SameSizes(L, s0, s3);
    var s4 := FillBy(L, s0, s3, 1, k0, k1);
    SameSizes(L, s0, s4);
    s' := FillBy(L, s0, s4, 0, k1, n - 2);
    a, b := s'.procs[0].op.value, s'.procs[1].op.value;
  }

  // ----- from power-on to the first operation

  /** During recovery: only the boot process, nothing changed but the disk, the cache and the list. */
  ghost predicate Booting(L: Layout, s0: State, s: State)
    requires LayoutOk(L)
  {
    && At(L, s0, s) && Calm(s) && 0 < |s.procs| && s.procs == s0.procs && s.who == BOOT && s.outstanding == 0
    && |s.lh| < L.nlog
  }

  lemma PowerOn(L: Layout, s: State)
    requires LayoutOk(L) && Init(L, s) && 0 < |s.procs|
    ensures Booting(L, s, s) && s.phase == ReadingHead && forall p :: 0 <= p < |s.procs| ==> s.procs[p].op.None?
  {
    RebootCore(L, s);
    PathSelf(L, s);
  }

  /** initlog reads the header. */
  lemma ReadHead(L: Layout, s0: State, s: State) returns (s': State)
    requires LayoutOk(L) && Booting(L, s0, s) && s.phase == ReadingHead && DiskOk(L, s.disk) && 1 <= |s.cache.bufs|
    ensures Booting(L, s0, s') && s'.phase == if s'.lh == [] then Clearing else Reinstalling(0)
  {
    var i, s1 := Take(L, s0, s, BOOT, L.logstart, []);
    assert CleanOk(s1, i);
    var s2 := DoRecHead(L, s1, i);
    hide DecodeHead, Core, RingOk;
    PathStep(L, s0, s1, RecHeadStep(i));
    s' := Give(L, s0, s2, BOOT, i);
  }

  /** bread of a log block and of the home block it stands for. */
  lemma TakePair(L: Layout, s0: State, s: State, t: nat) returns (i: nat, j: nat, s': State)
    requires LayoutOk(L) && Booting(L, s0, s) && s.phase == Reinstalling(t) && t < |s.lh| && 2 <= |s.cache.bufs|
    ensures At(L, s0, s') && s' == s.(cache := s'.cache) && i != j
    ensures Owns(s', BOOT, i, LogBlock(L, t)) && Owns(s', BOOT, j, s.lh[t]) && CanInstall(L, s', i, j, t)
    ensures forall k :: 0 <= k < |s'.cache.bufs| && k != i && k != j ==> s'.cache.bufs[k].holder.None?
  {
    var from, to := LogBlock(L, t), s.lh[t];
    assert Home(L, to);
    var s1;
    i, s1 := Take(L, s0, s, BOOT, from, []);
    j, s' := Take(L, s0, s1, BOOT, to, [from]);
    assert CountOk(s', j);
    hide RingOk, Unique, DirtyOk, ProcsOk, PassOk, SingleOk, StageOk;
  }

  /** One iteration of install_trans during recovery. */
  lemma Reinstall(L: Layout, s0: State, s: State, t: nat) returns (s': State)
    requires LayoutOk(L) && Booting(L, s0, s) && s.phase == Reinstalling(t) && t < |s.lh| && 2 <= |s.cache.bufs|
    ensures Booting(L, s0, s') && |s'.cache.bufs| == |s.cache.bufs|
    ensures if t + 1 < |s.lh| then s'.phase == Reinstalling(t + 1) && |s'.lh| == |s.lh| else s'.phase == Clearing
  {
    hide Core, RingOk;
    var i, j, s2 := TakePair(L, s0, s, t);
    var s3 := DoRecInstall(L, s2, i, j);
    PathStep(L, s0, s2, RecInstallStep(i, j));
    hide CanInstall;
    s' := GiveBoth(L, s0, s3, BOOT, i, BOOT, j);
  }

  lemma {:induction false} ReinstallAll(L: Layout, s0: State, s: State, t: nat) returns (s': State)
    requires LayoutOk(L) && Booting(L, s0, s) && s.phase == Reinstalling(t) && t < |s.lh| && 2 <= |s.cache.bufs|
    ensures Booting(L, s0, s') && s'.phase == Clearing && |s'.cache.bufs| == |s.cache.bufs|
    decreases |s.lh| - t
  {
    hide Booting;
    s' := Reinstall(L, s0, s, t);
    if t + 1 < |s.lh| {
      s' := ReinstallAll(L, s0, s', t + 1);
    }
  }

  lemma ClearingHead(L: Layout, s: State)
    requires LayoutOk(L) && Core(L, s) && s.phase == Clearing
    ensures s.lh == [] && |s.disk| == L.size
  {}

  /** recover_from_log erases the header; file-system calls may begin. */
  lemma Clear(L: Layout, s0: State, s: State) returns (s': State)
    requires LayoutOk(L) && Booting(L, s0, s) && s.phase == Clearing && 1 <= |s.cache.bufs|
    ensures Booting(L, s0, s') && s'.phase == Running && s'.lh == []
  {
    hide EncodeHead, Core, RingOk;
    ClearingHead(L, s);
    var i, s1 := Take(L, s0, s, BOOT, L.logstart, []);
    var s2 := DoErase(L, s1, i, Running);
    PathStep(L, s0, s1, RecEraseStep(i));
    s' := Give(L, s0, s2, BOOT, i);
  }

  lemma Boot(L: Layout, s: State) returns (s': State)
    requires LayoutOk(L) && Init(L, s) && 2 <= |s.procs| && 2 <= |s.cache.bufs|
    ensures At(L, s, s') && Calm(s') && s'.phase == Running && Two(s', None, None) && s'.lh == []
  {
    hide Core, Init, Calm, DiskOk;
    assert DiskOk(L, s.disk) by { OnDisk(L, s); }
    PowerOn(L, s);
    s' := ReadHead(L, s, s);
    if s'.lh != [] {
      s' := ReinstallAll(L, s, s', 0);
    }
    s' := Clear(L, s, s');
  }

  lemma OnDisk(L: Layout, s: State)
    requires LayoutOk(L) && Init(L, s)
    ensures DiskOk(L, s.disk)
  {}

  // ----- both operations add a last block

  /** The last block of an overlong list differs from what readers and the disk have for the first. */
  ghost predicate Odd(L: Layout, s: State)
    requires LayoutOk(L) && |s.disk| == L.size && 2 <= L.nlog <= Homes(L)
  {
    var first := HomeAt(L, 0);
    VolAt(s, HomeAt(L, L.nlog - 1)) !in [VolAt(s, first), s.disk[first]]
  }

  lemma OddStays(L: Layout, s: State, s': State)
    requires LayoutOk(L) && |s.disk| == |s'.disk| == L.size && 2 <= L.nlog <= Homes(L) && Odd(L, s)
    requires SameVol(L, s, s') && s'.disk[HomeAt(L, 0)] == s.disk[HomeAt(L, 0)]
    ensures Odd(L, s')
  {
    assert Home(L, HomeAt(L, 0)) && Home(L, HomeAt(L, L.nlog - 1));
  }

  function Fresh(x: Block, y: Block): (d: Block)
    ensures d !in [x, y]
  {
    var a, b, c := seq(BSIZE, _ => 0), seq(BSIZE, _ => 1), seq(BSIZE, _ => 2);
    assert a[0] != b[0] && b[0] != c[0] && a[0] != c[0];
    if a !in [x, y] then a else if b !in [x, y] then b else c
  }

  /** Two operations each hold a new block. */
  lemma TakeBoth(L: Layout, s0: State, s: State, n: nat) returns (i: nat, j: nat, s': State)
    requires LayoutOk(L) && At(L, s0, s) && Calm(s) && s.phase == Running && 2 <= |s.procs|
    requires 2 <= n <= Homes(L) && n <= |s.cache.bufs| && s.lh == Filled(L, n - 2)
    ensures At(L, s0, s') && s' == s.(cache := s'.cache) && i != j
    ensures Owns(s', 0, i, HomeAt(L, n - 2)) && Owns(s', 1, j, HomeAt(L, n - 1))
    ensures forall k :: 0 <= k < |s'.cache.bufs| && k != i && k != j ==> s'.cache.bufs[k].holder.None?
  {
    hide Core, RingOk, HomeAt, SameVol;
    NextHome(L, n - 2);
    NextHome(L, n - 1);
    var s1;
    i, s1 := Take(L, s0, s, 0, HomeAt(L, n - 2), s.lh);
    j, s' := Take(L, s0, s1, 1, HomeAt(L, n - 1), s.lh + [HomeAt(L, n - 2)]);
  }

  /** The second operation changes its block. */
  lemma Change(L: Layout, s0: State, s: State, j: nat) returns (s': State)
    requires LayoutOk(L) && At(L, s0, s) && 2 <= L.nlog <= Homes(L)
    requires InOp(s, 1) && s.procs[1].passed.None? && Owns(s, 1, j, HomeAt(L, L.nlog - 1)) && s.dirty == {}
    ensures At(L, s0, s') && |s'.disk| == L.size && Odd(L, s')
    ensures s' == s.(cache := s'.cache, dirty := {j})
    ensures s'.cache.bufs == s.cache.bufs[j := s.cache.bufs[j].(data := s'.cache.bufs[j].data)]
  {
    var first, last := HomeAt(L, 0), HomeAt(L, L.nlog - 1);
    assert first != last && Home(L, last);
    var data := Fresh(VolAt(s, first), s.disk[first]);
    s' := DoModify(L, s, 1, j, data);
    PathStep(L, s0, s, Modify(1, j, data));
    ModifyVol(L, s, 1, j, data);
  }

  /** Both pass the size test before either adds its block. */
  lemma PassBoth(L: Layout, s0: State, s: State, i: nat, j: nat, b: nat, c: nat) returns (s': State)
    requires LayoutOk(L) && At(L, s0, s) && !TooBig(L, s) && InOp(s, 0) && InOp(s, 1)
    requires Owns(s, 0, i, b) && Owns(s, 1, j, c) && Home(L, b) && Home(L, c)
    requires forall k :: 0 <= k < |s.procs| ==> s.procs[k].passed.None? && s.procs[k].waits.None?
    ensures At(L, s0, s') && |s.disk| == L.size && SameVol(L, s, s')
    ensures s' == s.(procs := s.procs[0 := s.procs[0].(passed := Some(i))][1 := s.procs[1].(passed := Some(j))])
  {
    hide At, SameVol;
    var s1 := Pass(L, s0, s, 0, i);
    s' := Pass(L, s0, s1, 1, j);
    VolTrans(L, s, s1, s');
  }

  /** Then both add theirs and release it. */
  lemma EnterBoth(L: Layout, s0: State, s: State, i: nat, j: nat, b: nat, c: nat) returns (s': State)
    requires LayoutOk(L) && At(L, s0, s) && !TooBig(L, s) && InOp(s, 0) && InOp(s, 1) && i != j
    requires Owns(s, 0, i, b) && Owns(s, 1, j, c) && Home(L, b) && Home(L, c) && b != c && b !in s.lh && c !in s.lh
    requires forall k :: 0 <= k < |s.procs| ==> s.procs[k].passed.None? && s.procs[k].waits.None?
    requires s.procs[0].op.value >= 1 && s.procs[1].op.value >= 1 && s.dirty == {j}
    requires forall k :: 0 <= k < |s.cache.bufs| && k != i && k != j ==> s.cache.bufs[k].holder.None?
    ensures At(L, s0, s') && Calm(s') && |s.disk| == L.size && SameVol(L, s, s')
    ensures s'.lh == s.lh + [b] + [c] && s'.disk == s.disk && s'.phase == s.phase && s'.outstanding == s.outstanding
    ensures |s'.procs| == |s.procs| && s'.procs[0].op == Some(s.procs[0].op.value - 1)
    ensures s'.procs[1].op == Some(s.procs[1].op.value - 1)
  {
    hide At, RingOk, SameVol;
    var s1 := PassBoth(L, s0, s, i, j, b, c);
    var s2 := Add(L, s0, s1, 0, i, b);
    VolTrans(L, s, s1, s2);
    var s3 := Add(L, s0, s2, 1, j, c);
    VolTrans(L, s, s2, s3);
    s' := GiveBoth(L, s0, s3, 0, i, 1, j);
    VolTrans(L, s, s3, s');
  }

  /** The list outgrows the log region. */
  lemma AddBoth(L: Layout, s0: State, s: State, a: nat, b: nat) returns (s': State)
    requires LayoutOk(L) && At(L, s0, s) && Calm(s) && s.phase == Running && Two(s, Some(a), Some(b)) && a >= 1
    requires b >= 1
    requires 2 <= L.nlog <= Homes(L) && L.nlog <= |s.cache.bufs| && s.lh == Filled(L, L.nlog - 2)
    requires L.nlog <= L.logSize
    ensures At(L, s0, s') && Calm(s') && s'.phase == Running && Two(s', Some(a - 1), Some(b - 1))
    ensures s'.lh == Filled(L, L.nlog) && |s'.disk| == L.size && Odd(L, s')
  {
    hide At, RingOk, HomeAt, SameVol, Odd;
    NextHome(L, L.nlog - 2);
    NextHome(L, L.nlog - 1);
    var i, j, s1 := TakeBoth(L, s0, s, L.nlog);
    var s2 := Change(L, s0, s1, j);
    s' := EnterBoth(L, s0, s2, i, j, HomeAt(L, L.nlog - 2), HomeAt(L, L.nlog - 1));
    OddStays(L, s2, s');
  }

  lemma Overrun(L: Layout, s: State) returns (s': State)
    requires LayoutOk(L) && Init(L, s) && Unsafe(L, s)
    ensures At(L, s, s') && Calm(s') && s'.phase == Running && s'.lh == Filled(L, L.nlog)
    ensures |s'.procs| >= 2 && InOp(s', 0) && InOp(s', 1) && s'.outstanding == 2
    ensures |s'.disk| == L.size && Odd(L, s')
  {
    hide At, Calm, Init, Filled, Odd;
    var s1 := Boot(L, s);
    SameSizes(L, s, s1);
    var s2, a, b := Climb(L, s, s1, L.nlog);
    SameSizes(L, s, s2);
    s' := AddBoth(L, s, s2, a, b);
  }

  /** The list of logged blocks outgrows the log region in some run exactly when the sizes are unsafe. */
  lemma OverrunExactly(L: Layout, s: State)
    requires LayoutOk(L) && Init(L, s)
    ensures (exists z :: Path(L, s, z) && |z.lh| >= L.nlog) <==> Unsafe(L, s)
  {
    if Unsafe(L, s) {
      var z := Overrun(L, s);
      assert Path(L, s, z) && |z.lh| >= L.nlog;
    } else {
      forall z | Path(L, s, z) ensures |z.lh| < L.nlog {
        var steps :| RunTo(L, s, steps, z);
        var trace := BootRefines(L, s, steps);
      }
    }
  }
}
