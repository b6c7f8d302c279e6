/** Log space: what begin_op's reservation guarantees in every run, when log_write's panic can
    fire, and the reachable states where it does. */
module LogAdmission {
  import opened Blocks
  import opened CacheModel
  import opened LogDisk
  import opened LogMachine
  import opened LogInvariant
  import opened LogCore
  import opened LogRoom
  import opened LogRuns
  import opened LogRefinement
  import opened LogOverrun

  /** In every state of every run, whatever the sizes, the logged blocks are distinct home blocks, they and the
      unspent reservations fit in LOGSIZE, commit runs with no operation outstanding, and no operation can meet
      the panics of end_op or log_write's "outside of trans". The list fits the log region too, unless the
      sizes are unsafe. */
  lemma RunAdmits(L: Layout, s: State, steps: seq<Step>)
    requires LayoutOk(L) && Init(L, s) && IsRun(L, s, steps)
    ensures var z := After(L, s, steps);
            && Distinct(z.lh) && (forall k :: 0 <= k < |z.lh| ==> Home(L, z.lh[k]))
            && |z.lh| + Unspent(z.procs) <= L.logSize
            && z.outstanding == Ops(z.procs)
            && (z.committing ==> z.outstanding == 0)
            && (forall p :: InOp(z, p) ==> z.outstanding >= 1 && !z.committing)
            && (!Unsafe(L, s) ==> |z.lh| < L.nlog)
  {
    var z := After(L, s, steps);
    RebootCore(L, s);
    RunCore(L, s, steps);
    QuietCore(L, z);
    forall p | InOp(z, p) ensures z.outstanding >= 1 && !z.committing {
      assert exists q :: InOp(z, q);
    }
    assert RunTo(L, s, steps, z);
    assert Path(L, s, z);
    OverrunExactly(L, s);
  }

  /** The enabling conditions that are not guards of the source hold by themselves: a locked
      buffer is referenced, the head is always writable, every transfer is on the disk. */
  lemma GuardsHold(L: Layout, s: State, i: nat)
    requires LayoutOk(L) && Core(L, s) && i < |s.cache.bufs| && s.cache.bufs[i].holder.Some?
    ensures s.cache.bufs[i].refcnt > 0 && s.cache.bufs[i].dev == ROOTDEV
    ensures s.cache.bufs[i].blockno < |s.disk| && L.logstart < |s.disk| && ListOk(L, s.lh)
    ensures s.phase.ReadingHead? && CachedIn(s, i, L.logstart) ==> WordAt(s.cache.bufs[i].data, 0) < WORDS
  {
    assert CountOk(s, i) && DevOk(L, s.cache.bufs[i]) && CleanOk(s, i);
    QuietCore(L, s);
  }

  /** With a log region larger than LOGSIZE, log_write panics exactly when the log is full, and
      then every outstanding operation has used its whole reservation: an operation with a block
      of its MAXOPBLOCKS left never meets the panic. */
  lemma PanicMeansSpent(L: Layout, s: State, p: nat)
    requires LayoutOk(L) && Core(L, s) && InOp(s, p) && L.nlog > L.logSize
    ensures TooBig(L, s) <==> |s.lh| == L.logSize
    ensures TooBig(L, s) ==> Unspent(s.procs) == 0
    ensures s.procs[p].op.value >= 1 ==> !TooBig(L, s)
  {
    UpdateProc(s.procs, p, s.procs[p]);
  }

  /** mkfs makes nlog equal to LOGSIZE. There log_write panics exactly when at most one block of LOGSIZE is
      left, and an operation that meets the panic with a block of its MAXOPBLOCKS left has one left, the last
      that any operation has: with MAXOPBLOCKS above 1 it has logged something itself. */
  lemma PanicAtLogsize(L: Layout, s: State, p: nat)
    requires LayoutOk(L) && Core(L, s) && InOp(s, p) && L.nlog == L.logSize
    ensures TooBig(L, s) <==> |s.lh| >= L.logSize - 1
    ensures TooBig(L, s) && s.procs[p].op.value >= 1 ==>
              |s.lh| == L.logSize - 1 && s.procs[p].op.value == 1 && Unspent(s.procs) == 1
    ensures L.maxOp >= 2 && s.procs[p].op.value == L.maxOp ==> !TooBig(L, s)
  {
    UpdateProc(s.procs, p, s.procs[p]);
  }

  /** Sizes for which two operations can fill LOGSIZE. */
  predicate Fillable(L: Layout, s: State) {
    && 1 <= L.maxOp && 2 * L.maxOp <= L.logSize && 2 <= |s.procs| && L.logSize <= |s.cache.bufs|
    && L.logSize + L.nlog <= L.size
  }

  /** All but two blocks of LOGSIZE are logged and the two open operations have one each. */
  lemma NearlyFull(L: Layout, s: State) returns (z: State)
    requires LayoutOk(L) && Init(L, s) && Fillable(L, s) && L.nlog >= L.logSize
    ensures At(L, s, z) && Calm(z) && z.phase == Running && Two(z, Some(1), Some(1)) && z.lh == Filled(L, L.logSize - 2)
  {
    hide At, Calm, Init, HomeAt;
    var s1 := Boot(L, s);
    SameSizes(L, s, s1);
    var a, b;
    z, a, b := Climb(L, s, s1, L.logSize);
    BothSpent(L, s, z, a, b);
  }

  lemma BothSpent(L: Layout, s0: State, s: State, a: nat, b: nat)
    requires LayoutOk(L) && At(L, s0, s) && Two(s, Some(a), Some(b)) && |s.lh| == L.logSize - 2 && a >= 1 && b >= 1
    ensures a == 1 && b == 1
  {
    var rest := s.procs[0 := s.procs[0].(op := None)];
    UpdateProc(s.procs, 0, rest[0]);
    UpdateProc(rest, 1, rest[1]);
  }

  /** With nlog equal to LOGSIZE an operation with a block of its MAXOPBLOCKS left does meet the panic, for
      every MAXOPBLOCKS of which two fit in LOGSIZE, and from every disk image. */
  lemma PanicWithBlockLeft(L: Layout, s: State) returns (z: State, i: nat)
    requires LayoutOk(L) && Init(L, s) && Fillable(L, s) && L.nlog == L.logSize
    ensures Path(L, s, z) && CanModify(L, z, 0, i) && z.cache.bufs[i].blockno !in z.lh
    ensures z.procs[0].op == Some(1) && TooBig(L, z)
  {
    hide Core, HomeAt;
    var s1 := NearlyFull(L, s);
    var s2 := LogOne(L, s, s1, 1, L.logSize - 2);
    NextHome(L, L.logSize - 1);
    i, z := Take(L, s, s2, 0, HomeAt(L, L.logSize - 1), s2.lh);
  }

  /** A larger log does not remove the panic: the size test comes before the search for an entry
      to absorb into, so rewriting an already logged block panics once the log is full. */
  lemma PanicOnAbsorption(L: Layout, s: State) returns (z: State, i: nat)
    requires LayoutOk(L) && Init(L, s) && Fillable(L, s) && L.nlog > L.logSize
    ensures Path(L, s, z) && CanModify(L, z, 0, i) && z.cache.bufs[i].blockno in z.lh
    ensures z.procs[0].op == Some(0) && TooBig(L, z)
  {
    hide Core, HomeAt;
    var s1 := NearlyFull(L, s);
    var s2 := LogOne(L, s, s1, 1, L.logSize - 2);
    var s3 := LogOne(L, s, s2, 0, L.logSize - 1);
    assert Cached(s3, s3.lh[0]) && Home(L, s3.lh[0]) by { LoggedCached(L, s3, 0); }
    i, z := TakeCached(L, s, s3, 0, s3.lh[0]);
  }

  lemma LoggedCached(L: Layout, s: State, k: nat)
    requires LayoutOk(L) && Core(L, s) && s.phase == Running && k < |s.lh|
    ensures Cached(s, s.lh[k]) && Home(L, s.lh[k])
  {}
}
