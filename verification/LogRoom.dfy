/** When log_write's two separate steps can add a block for which the log region has no room: its size test
    is made before it takes log.lock, so two operations can both pass it for the last block. */
module LogRoom {
  import opened CacheModel
  import opened LogDisk
  import opened LogMachine
  import opened LogInvariant

  /** Two operations can pass the test for the last log block together: the region is no larger than LOGSIZE,
      begin_op admits two, and there are processes, buffers and blocks enough to fill it. All of it is fixed
      by the sizes of the kernel and of the disk. */
  predicate Unsafe(L: Layout, s: State) {
    && 2 <= L.nlog <= L.logSize && 1 <= L.maxOp && 2 * L.maxOp <= L.logSize
    && 2 <= |s.procs| && L.nlog <= |s.cache.bufs| && 2 * L.nlog <= L.size
  }

  /** The blocks that write_log copies to lie inside the log region in every run: the list fits it, or commit
      has no buffer for the first log block, or the disk ends with the log. */
  predicate Contained(L: Layout, s: State) {
    !(Unsafe(L, s) && L.nlog < |s.cache.bufs| && L.logstart + L.nlog < L.size)
  }

  // ----- counting

  ghost function Elements(s: seq<nat>): set<nat> {
    set x | x in s
  }

  lemma {:induction false} FewElements(s: seq<nat>, a: set<nat>)
    requires forall x :: x in a ==> x in s
    ensures |a| <= |s|
    decreases |s|
  {
    if s != [] {
      var last := |s| - 1;
      FewElements(s[..last], a - {s[last]});
    }
  }

  lemma {:induction false} DistinctCount(s: seq<nat>)
    requires Distinct(s)
    ensures |Elements(s)| == |s|
    decreases |s|
  {
    if s != [] {
      var last := |s| - 1;
      DistinctCount(s[..last]);
      assert Elements(s) == Elements(s[..last]) + {s[last]};
      assert s[last] !in s[..last];
    }
  }

  /** Different blocks that all have a valid buffer are no more than the buffers. */
  lemma CachedFit(s: State, bs: seq<nat>)
    requires Distinct(bs) && forall b :: b in bs ==> Cached(s, b)
    ensures |bs| <= |s.cache.bufs|
  {
    var held := seq(|s.cache.bufs|, i requires 0 <= i < |s.cache.bufs| => s.cache.bufs[i].blockno);
    forall b | b in Elements(bs) ensures b in held {
      var i :| CachedIn(s, i, b);
      assert held[i] == b;
    }
    DistinctCount(bs);
    FewElements(held, Elements(bs));
  }

  function Homes(L: Layout): nat
    requires L.nlog <= L.size
  {
    L.size - L.nlog
  }

  /** The blocks outside the log region, from the one after it and round to the one before it. */
  function HomeAt(L: Layout, k: nat): nat
    requires L.logstart + L.nlog <= L.size && k < Homes(L)
  {
    var b := L.logstart + L.nlog + k;
    if b < L.size then b else b - L.size
  }

  lemma HomesFit(L: Layout, bs: seq<nat>)
    requires LayoutOk(L) && Distinct(bs) && forall b :: b in bs ==> Home(L, b)
    ensures |bs| <= Homes(L)
  {
    var all := seq(Homes(L), k requires 0 <= k < Homes(L) => HomeAt(L, k));
    forall b | b in Elements(bs) ensures b in all {
      var k := if b < L.logstart then b + L.size - L.logstart - L.nlog else b - L.logstart - L.nlog;
      assert all[k] == b;
    }
    DistinctCount(bs);
    FewElements(all, Elements(bs));
  }

  // ----- room for one more

  /** A block that log_write is about to add still has a log block of its own, unless the sizes are unsafe. */
  lemma AppendFits(L: Layout, s: State, p: nat, i: nat)
    requires LayoutOk(L) && Core(L, s) && CanLogWrite(L, s, p, i) && s.cache.bufs[i].blockno !in s.lh
    ensures |s.lh| + 1 < L.nlog || Unsafe(L, s)
  {
    var b := s.cache.bufs[i].blockno;
    QuietCore(L, s);
    UpdateProc(s.procs, p, s.procs[p]);
    var bs := s.lh + [b];
    assert CachedIn(s, i, b);
    CachedFit(s, bs);
    HomesFit(L, bs);
  }

  /** The sizes stay what they are. */
  lemma SizesStay(L: Layout, s: State, st: Step)
    requires LayoutOk(L) && Enabled(L, s, st)
    ensures |Apply(L, s, st).procs| == |s.procs| && |Apply(L, s, st).cache.bufs| == |s.cache.bufs|
    ensures Unsafe(L, Apply(L, s, st)) == Unsafe(L, s) && Contained(L, Apply(L, s, st)) == Contained(L, s)
  {
    match st
    case Ref(p, b) => ChooseMeaning(s.cache, ROOTDEV, b);
    case _ =>
  }

  // ----- writing outside the log

  /** write_log's next transfer goes to a block outside the log region. */
  predicate Strays(L: Layout, s: State, i: nat, j: nat) {
    CanWriteLog(L, s, i, j) && Home(L, s.cache.bufs[i].blockno)
  }

  /** Past its first log block, commit has a buffer beside the pinned ones. */
  ghost predicate Spare(s: State) {
    s.phase.WritingLog? && s.phase.tail > 0 ==> |s.lh| < |s.cache.bufs|
  }

  lemma FirstCopy(L: Layout, s: State, i: nat, j: nat)
    requires LayoutOk(L) && Core(L, s) && 2 <= L.nlog && CanWriteLog(L, s, i, j) && s.phase.tail == 0
    ensures |s.lh| < |s.cache.bufs|
  {
    var b := LogBlock(L, 0);
    assert CachedIn(s, i, b);
    assert b !in s.lh;
    CachedFit(s, s.lh + [b]);
  }

  lemma SpareStep(L: Layout, s: State, st: Step)
    requires LayoutOk(L) && Core(L, s) && Spare(s) && Enabled(L, s, st) && 2 <= L.nlog
    ensures Spare(Apply(L, s, st))
  {
    SizesStay(L, s, st);
    QuietCore(L, s);
    hide Core, HeadOk, RingOk;
    match st {
      case WriteLogStep(i, j) => if s.phase.tail == 0 { FirstCopy(L, s, i, j); }
      case LogWrite(p, i) => assert InOp(s, p);
      case EndOp(p) => assert InOp(s, p);
      case _ =>
    }
  }
}
