/** What the overrun does to the disk: write_log copies a block over the one after the log region, exactly
    when the cache has a buffer more than the log has blocks. */
module LogStray {
  import opened Blocks
  import opened CacheModel
  import opened LogDisk
  import opened LogMachine
  import opened LogInvariant
  import opened LogCore
  import opened LogSteps
  import opened LogRoom
  import opened LogRuns
  import opened LogRefinement
  import opened LogOverrun

  // ----- the run

  /** commit() is at block t of an overlong list. */
  ghost predicate Committing(L: Layout, s0: State, s: State, t: nat)
    requires LayoutOk(L)
  {
    && At(L, s0, s) && Calm(s) && s.phase == WritingLog(t) && s.who < |s.procs|
    && 2 <= L.nlog <= Homes(L) && s.lh == Filled(L, L.nlog) && L.nlog < |s.cache.bufs|
    && |s.disk| == L.size && Odd(L, s)
  }

  lemma EndBoth(L: Layout, s0: State, s: State) returns (s': State)
    requires LayoutOk(L) && At(L, s0, s) && Calm(s) && s.phase == Running && 2 <= L.nlog <= Homes(L)
    requires s.lh == Filled(L, L.nlog) && |s.disk| == L.size && Odd(L, s)
    requires |s.procs| >= 2 && InOp(s, 0) && InOp(s, 1) && s.outstanding == 2 && L.nlog < |s.cache.bufs|
    ensures Committing(L, s0, s', 0)
  {
    hide Core, HomeAt, SameVol, Odd;
    var s1 := EndCall(L, s0, s, 0);
    OddStays(L, s, s1);
    s' := EndCall(L, s0, s1, 1);
    OddStays(L, s1, s');
  }

  lemma PinnedCached(L: Layout, s: State, k: nat)
    requires LayoutOk(L) && Core(L, s) && s.phase.WritingLog? && k < |s.lh|
    ensures Cached(s, s.lh[k]) && Home(L, s.lh[k])
  {}

  /** The buffers of log block t and of the block it stands for. */
  lemma TakeCopy(L: Layout, s0: State, s: State, t: nat) returns (i: nat, j: nat, s': State)
    requires LayoutOk(L) && Committing(L, s0, s, t) && t + 1 < L.nlog
    ensures At(L, s0, s') && s' == s.(cache := s'.cache) && i != j && CanWriteLog(L, s', i, j) && SameVol(L, s, s')
    ensures forall k :: 0 <= k < |s'.cache.bufs| && k != i && k != j ==> s'.cache.bufs[k].holder.None?
  {
    hide Core, HomeAt, RingOk, SameVol;
    SizeOfDisk(L, s);
    forall k | 0 <= k < |s.lh| ensures Home(L, s.lh[k]) {
      PinnedCached(L, s, k);
    }
    var s1;
    i, s1 := Take(L, s0, s, s.who, LogBlock(L, t), s.lh);
    PinnedCached(L, s1, t);
    j, s' := TakeCached(L, s0, s1, s.who, s.lh[t]);
    VolTrans(L, s, s1, s');
  }

  lemma SizeOfDisk(L: Layout, s: State)
    requires LayoutOk(L) && Core(L, s)
    ensures |s.disk| == L.size
  {}

  lemma CopyVol(L: Layout, s: State, i: nat, j: nat)
    requires LayoutOk(L) && Core(L, s) && CanWriteLog(L, s, i, j) && s.phase.tail + 1 < L.nlog
    ensures |s.disk| == L.size && SameVol(L, s, DoWriteLog(L, s, i, j))
  {
    WriteLogCore(L, s, i, j);
    StoreCache(L, s, i, s.cache.bufs[j].data, DoWriteLog(L, s, i, j));
  }

  /** One iteration of write_log. */
  lemma CopyOne(L: Layout, s0: State, s: State, t: nat) returns (s': State)
    requires LayoutOk(L) && Committing(L, s0, s, t) && t + 1 < L.nlog
    ensures Committing(L, s0, s', t + 1)
  {
    hide Core, RingOk, SameVol, Odd;
    var i, j, s1 := TakeCopy(L, s0, s, t);
    OddStays(L, s, s1);
    var s2 := DoWriteLog(L, s1, i, j);
    PathStep(L, s0, s1, WriteLogStep(i, j));
    CopyVol(L, s1, i, j);
    OddStays(L, s1, s2);
    s' := GiveBoth(L, s0, s2, s.who, i, s.who, j);
    OddStays(L, s2, s');
  }

  lemma {:induction false} CopyAll(L: Layout, s0: State, s: State, t: nat) returns (s': State)
    requires LayoutOk(L) && Committing(L, s0, s, t) && t < L.nlog
    ensures Committing(L, s0, s', L.nlog - 1)
    decreases L.nlog - t
  {
    hide Committing;
    if t + 1 == L.nlog {
      s' := s;
    } else {
      var s1 := CopyOne(L, s0, s, t);
      s' := CopyAll(L, s0, s1, t + 1);
    }
  }

  /** The transfer that leaves the region changes what is durable, and what readers see. */
  ghost predicate Tears(L: Layout, s: State, i: nat, j: nat)
    requires LayoutOk(L)
  {
    && Strays(L, s, i, j) && DiskOk(L, s.disk) && DiskOk(L, DoWriteLog(L, s, i, j).disk)
    && Durable(L, DoWriteLog(L, s, i, j).disk) != Durable(L, s.disk)
    && VolMap(L, DoWriteLog(L, s, i, j)) != VolMap(L, s)
  }

  /** The last block's place is taken by the first block after the region. */
  lemma LastCopy(L: Layout, s0: State, s: State) returns (i: nat, j: nat, s': State)
    requires LayoutOk(L) && Committing(L, s0, s, L.nlog - 1) && L.logstart + L.nlog < L.size
    ensures At(L, s0, s') && Strays(L, s', i, j) && |s'.disk| == L.size && Odd(L, s')
    ensures s'.cache.bufs[i].blockno == HomeAt(L, 0) && s'.cache.bufs[j].blockno == HomeAt(L, L.nlog - 1)
  {
    hide Core, RingOk, SameVol, Odd;
    var n := L.nlog - 1;
    assert s.lh[0] == LogBlock(L, n) != s.lh[n];
    PinnedCached(L, s, 0);
    var s1;
    i, s1 := TakeCached(L, s0, s, s.who, s.lh[0]);
    OddStays(L, s, s1);
    PinnedCached(L, s1, n);
    j, s' := TakeCached(L, s0, s1, s.who, s.lh[n]);
    OddStays(L, s1, s');
  }

  lemma StrayTears(L: Layout, s: State, i: nat, j: nat)
    requires LayoutOk(L) && Core(L, s) && Unmarked(L, s) && Strays(L, s, i, j) && 2 <= L.nlog <= Homes(L)
    requires |s.disk| == L.size && Odd(L, s)
    requires s.cache.bufs[i].blockno == HomeAt(L, 0) && s.cache.bufs[j].blockno == HomeAt(L, L.nlog - 1)
    ensures Tears(L, s, i, j)
  {
    var s', first, last := DoWriteLog(L, s, i, j), HomeAt(L, 0), HomeAt(L, L.nlog - 1);
    var data := s.cache.bufs[j].data;
    VolCached(s, j, last);
    WriteLogCore(L, s, i, j);
    VolCached(s', i, first);
    assert s'.disk == s.disk[first := data] && VolAt(s', first) == data;
    assert s'.disk[L.logstart] == s.disk[L.logstart];
    assert Header(L, s'.disk) == [] == Header(L, s.disk);
    assert Durable(L, s'.disk)[first] == data && Durable(L, s.disk)[first] == s.disk[first];
    assert VolMap(L, s')[first] == data && VolMap(L, s)[first] == VolAt(s, first);
  }

  // ----- the header stays empty until write_head

  ghost predicate Unmarked(L: Layout, s: State)
    requires LayoutOk(L)
  {
    s.phase == Running || s.phase.WritingLog? || s.phase == WritingHead || s.phase == Finishing ==>
      HeadReadable(L, s.disk) && Header(L, s.disk) == []
  }

  lemma UnmarkedStep(L: Layout, s: State, st: Step)
    requires LayoutOk(L) && Core(L, s) && Unmarked(L, s) && Enabled(L, s, st)
    ensures Unmarked(L, Apply(L, s, st))
  {
    QuietCore(L, s);
    match st {
      case EraseStep(i) => HeadWritten(L, s.disk, s.cache.bufs[i].data, []);
      case RecEraseStep(i) => HeadWritten(L, s.disk, s.cache.bufs[i].data, []);
      case EndOp(p) => assert InOp(s, p);
      case _ => hide Core; HeadStays(L, s, st);
    }
  }

  lemma HeadStays(L: Layout, s: State, st: Step)
    requires LayoutOk(L) && Unmarked(L, s) && Enabled(L, s, st)
    requires !st.EraseStep? && !st.RecEraseStep? && !st.EndOp?
    ensures Unmarked(L, Apply(L, s, st))
  {
    hide RingOk, EncodeHead, DecodeHead, Choose;
  }

  lemma {:induction false} RunUnmarked(L: Layout, s: State, steps: seq<Step>)
    requires LayoutOk(L) && Core(L, s) && Unmarked(L, s) && IsRun(L, s, steps)
    ensures Core(L, After(L, s, steps)) && Unmarked(L, After(L, s, steps))
    decreases |steps|
  {
    hide Core, Unmarked, Enabled, Apply;
    if steps != [] {
      StepCore(L, s, steps[0]);
      UnmarkedStep(L, s, steps[0]);
      RunUnmarked(L, Apply(L, s, steps[0]), steps[1..]);
    }
  }

  lemma PathUnmarked(L: Layout, s: State, z: State)
    requires LayoutOk(L) && Init(L, s) && Path(L, s, z)
    ensures Core(L, z) && Unmarked(L, z)
  {
    hide Init;
    PowerOnCore(L, s);
    var steps :| RunTo(L, s, steps, z);
    RunUnmarked(L, s, steps);
  }

  lemma Stray(L: Layout, s: State) returns (i: nat, j: nat, z: State)
    requires LayoutOk(L) && Init(L, s) && !Contained(L, s)
    ensures Path(L, s, z) && Tears(L, z, i, j)
  {
    hide Calm, Init, Filled, Strays, Committing, Tears, Core, Odd, Unmarked;
    var s1 := Overrun(L, s);
    SameSizes(L, s, s1);
    var s2 := EndBoth(L, s, s1);
    var s3 := CopyAll(L, s, s2, 0);
    i, j, z := LastCopy(L, s, s3);
    PathUnmarked(L, s, z);
    StrayTears(L, z, i, j);
  }

  /** Some run has write_log write outside the log region exactly when the sizes are unsafe, the cache has
      more buffers than the log blocks, and there is a block after the log. */
  lemma StrayExactly(L: Layout, s: State)
    requires LayoutOk(L) && Init(L, s)
    ensures (exists z, i, j :: Path(L, s, z) && Strays(L, z, i, j)) <==> !Contained(L, s)
  {
    if !Contained(L, s) {
      var i, j, z := Stray(L, s);
    }
    forall z, i, j | Path(L, s, z) && Strays(L, z, i, j) ensures !Contained(L, s) {
      if Contained(L, s) {
        hide Contained, Strays, Ready, Init;
        var steps :| RunTo(L, s, steps, z);
        var trace := BootRefines(L, s, steps);
        StrayCause(L, z, i, j);
      }
    }
  }

  // ----- crash atomicity, exactly

  /** The run goes through the states of the atomic block map, from the map that s stands for to that of its end. */
  ghost predicate Refines(L: Layout, s: State, steps: seq<Step>)
    requires LayoutOk(L) && DiskOk(L, s.disk)
  {
    && IsRun(L, s, steps) && DiskOk(L, After(L, s, steps).disk)
    && exists trace :: IsTrace(L, s, steps, trace)
  }

  ghost predicate IsTrace(L: Layout, s: State, steps: seq<Step>, trace: seq<Atomic>)
    requires LayoutOk(L) && IsRun(L, s, steps) && DiskOk(L, s.disk) && DiskOk(L, After(L, s, steps).disk)
  {
    && IsBehaviour(trace, Events(L, s, steps)) && trace[0] == Abstract(L, s)
    && trace[|trace| - 1] == Abstract(L, After(L, s, steps))
  }

  /** The specification is deterministic. */
  lemma {:induction false} OneTrace(a: seq<Atomic>, b: seq<Atomic>, ea: seq<Event>, eb: seq<Event>, n: nat)
    requires IsBehaviour(a, ea) && IsBehaviour(b, eb) && a[0] == b[0] && n <= |ea| && ea <= eb
    ensures a[n] == b[n]
    decreases n
  {
    if n > 0 {
      OneTrace(a, b, ea, eb, n - 1);
      assert AtomicStep(a[n - 1], ea[n - 1], a[n - 1 + 1]) && AtomicStep(b[n - 1], eb[n - 1], b[n - 1 + 1]);
    }
  }

  lemma {:induction false} EventsConcat(L: Layout, s: State, steps: seq<Step>, st: Step)
    requires LayoutOk(L) && IsRun(L, s, steps) && Enabled(L, After(L, s, steps), st)
    ensures IsRun(L, s, steps + [st]) && After(L, s, steps + [st]) == Apply(L, After(L, s, steps), st)
    ensures Events(L, s, steps + [st]) == Events(L, s, steps) + [EventOf(After(L, s, steps), st)]
    ensures |Events(L, s, steps)| == |steps|
    decreases |steps|
  {
    hide Enabled, Apply, EventOf;
    if steps == [] {
      assert [] + [st] == [st] && [st][1..] == [];
    } else {
      EventsConcat(L, Apply(L, s, steps[0]), steps[1..], st);
      assert (steps + [st])[1..] == steps[1..] + [st];
    }
  }

  /** If the runs up to and with a quiet step are both runs of the atomic map, the step leaves the map alone. */
  lemma QuietIsSame(L: Layout, s: State, steps: seq<Step>, st: Step)
    requires LayoutOk(L) && DiskOk(L, s.disk) && IsRun(L, s, steps) && Enabled(L, After(L, s, steps), st)
    requires EventOf(After(L, s, steps), st) == Quiet && Refines(L, s, steps) && Refines(L, s, steps + [st])
    ensures DiskOk(L, After(L, s, steps).disk) && DiskOk(L, Apply(L, After(L, s, steps), st).disk)
    ensures Abstract(L, Apply(L, After(L, s, steps), st)) == Abstract(L, After(L, s, steps))
  {
    hide Abstract, Enabled, Apply, DiskOk, EventOf, AtomicStep, Durable;
    EventsConcat(L, s, steps, st);
    var a :| IsTrace(L, s, steps, a);
    var b :| IsTrace(L, s, steps + [st], b);
    LastQuietEvent(a, b, Events(L, s, steps), Events(L, s, steps + [st]));
  }

  /** A run up to a tearing transfer and one with it are not both runs of the atomic map. */
  lemma TornRun(L: Layout, s: State, steps: seq<Step>, i: nat, j: nat)
    requires LayoutOk(L) && DiskOk(L, s.disk) && IsRun(L, s, steps) && Tears(L, After(L, s, steps), i, j)
    ensures IsRun(L, s, steps + [WriteLogStep(i, j)])
    ensures !(Refines(L, s, steps) && Refines(L, s, steps + [WriteLogStep(i, j)]))
  {
    hide *;
    var st := WriteLogStep(i, j);
    NotSame(L, After(L, s, steps), i, j);
    EventsConcat(L, s, steps, st);
    if Refines(L, s, steps) && Refines(L, s, steps + [st]) {
      QuietIsSame(L, s, steps, st);
    }
  }

  lemma LastQuietEvent(a: seq<Atomic>, b: seq<Atomic>, ea: seq<Event>, eb: seq<Event>)
    requires IsBehaviour(a, ea) && IsBehaviour(b, eb) && a[0] == b[0] && eb == ea + [Quiet]
    ensures b[|b| - 1] == a[|a| - 1]
  {
    OneTrace(a, b, ea, eb, |ea|);
    assert AtomicStep(b[|ea|], eb[|ea|], b[|ea| + 1]);
  }

  lemma NotSame(L: Layout, s: State, i: nat, j: nat)
    requires LayoutOk(L) && Tears(L, s, i, j)
    ensures Enabled(L, s, WriteLogStep(i, j)) && EventOf(s, WriteLogStep(i, j)) == Quiet
    ensures DiskOk(L, s.disk) && DiskOk(L, Apply(L, s, WriteLogStep(i, j)).disk)
    ensures Abstract(L, Apply(L, s, WriteLogStep(i, j))) != Abstract(L, s)
  {}

  /** From power-on over any image, every run is a run of the atomic block map if and only if the sizes keep
      write_log inside the log region; otherwise one of its transfers changes the durable map without a commit. */
  lemma RefinesExactly(L: Layout, s: State)
    requires LayoutOk(L) && Init(L, s)
    ensures (forall steps :: IsRun(L, s, steps) ==> Refines(L, s, steps)) <==> Contained(L, s)
  {
    hide Tears, Contained, Abstract;
    if Contained(L, s) {
      forall steps | IsRun(L, s, steps) ensures Refines(L, s, steps) {
        ContainedRefines(L, s, steps);
      }
    } else {
      var i, j, z := Stray(L, s);
      var steps :| RunTo(L, s, steps, z);
      TornRun(L, s, steps, i, j);
    }
  }

  lemma ContainedRefines(L: Layout, s: State, steps: seq<Step>)
    requires LayoutOk(L) && Init(L, s) && IsRun(L, s, steps) && Contained(L, s)
    ensures Refines(L, s, steps)
  {
    hide Contained, Ready, Inv;
    RebootOk(L, s);
    assert Ready(L, s) by { BootReady(L, s); }
    var trace := RunRefines(L, s, steps);
    ReadyDisk(L, After(L, s, steps));
    assert IsTrace(L, s, steps, trace);
  }

  lemma BootReady(L: Layout, s: State)
    requires LayoutOk(L) && Init(L, s)
    ensures Ready(L, s)
  {
    RebootOk(L, s);
  }

  lemma PowerOnCore(L: Layout, s: State)
    requires LayoutOk(L) && Init(L, s)
    ensures Core(L, s) && Unmarked(L, s)
  {
    RebootCore(L, s);
  }

  lemma {:induction false} RunSizes(L: Layout, s: State, steps: seq<Step>)
    requires LayoutOk(L) && IsRun(L, s, steps)
    ensures |After(L, s, steps).cache.bufs| == |s.cache.bufs|
    decreases |steps|
  {
    hide Enabled, Apply;
    if steps != [] {
      SizesStay(L, s, steps[0]);
      RunSizes(L, Apply(L, s, steps[0]), steps[1..]);
    }
  }

  /** When the pinned blocks fill the cache, bget panics for any other block. */
  lemma NoBuffers(L: Layout, s: State, b: nat)
    requires LayoutOk(L) && CacheOk(L, s) && Distinct(Pins(s)) && |Pins(s)| == |s.cache.bufs| && b !in Pins(s)
    ensures Choose(s.cache, ROOTDEV, b).None?
  {
    var bufs := s.cache.bufs;
    var held := seq(|bufs|, i requires 0 <= i < |bufs| => bufs[i].blockno);
    forall i | 0 <= i < |bufs| ensures IsPinned(s, i) {
      var others := held[..i] + held[i + 1..];
      if !IsPinned(s, i) {
        forall c | c in Elements(Pins(s)) ensures c in others {
          var j :| CachedIn(s, j, c);
          assert if j < i then others[j] == c else others[j - 1] == c;
        }
        DistinctCount(Pins(s));
        FewElements(others, Elements(Pins(s)));
      }
    }
    forall i | 0 <= i < |bufs| ensures bufs[i].refcnt > 0 && !Holds(bufs[i], ROOTDEV, b) {
      assert CountOk(s, i);
    }
    ChooseMeaning(s.cache, ROOTDEV, b);
  }

  /** The sizes of param.h, with the log that mkfs lays out. */
  const XV6: Layout := Layout(1000, 2, 30, 30, 10)

  /** xv6 as built: two operations can log one block more than the log has room for. No run then writes outside
      the log, because commit cannot read its first log block: the list pins all 30 buffers and bget panics. */
  lemma Xv6Overruns(s: State)
    requires Init(XV6, s) && |s.cache.bufs| == 30 && |s.procs| == 64
    ensures exists z :: Path(XV6, s, z) && |z.lh| == XV6.nlog
    ensures forall z, i, j :: Path(XV6, s, z) ==> !Strays(XV6, z, i, j)
    ensures forall z :: Path(XV6, s, z) && |z.lh| == XV6.nlog && z.phase == WritingLog(0) ==>
              RingOk(z.cache) && Choose(z.cache, ROOTDEV, LogBlock(XV6, 0)).None?
  {
    var o := Overrun(XV6, s);
    assert Path(XV6, s, o) && |o.lh| == XV6.nlog;
    StrayExactly(XV6, s);
    forall z | Path(XV6, s, z) && |z.lh| == XV6.nlog && z.phase == WritingLog(0)
      ensures RingOk(z.cache) && Choose(z.cache, ROOTDEV, LogBlock(XV6, 0)).None?
    {
      FullPins(XV6, s, z);
      NoBuffers(XV6, z, LogBlock(XV6, 0));
    }
  }

  /** So crash atomicity holds of xv6 as built, in every run. */
  lemma Xv6Refines(s: State, steps: seq<Step>)
    requires Init(XV6, s) && |s.cache.bufs| == 30 && |s.procs| == 64 && IsRun(XV6, s, steps)
    ensures Unsafe(XV6, s) && Refines(XV6, s, steps)
  {
    RefinesExactly(XV6, s);
  }

  lemma FullPins(L: Layout, s: State, z: State)
    requires LayoutOk(L) && Init(L, s) && Path(L, s, z) && z.phase == WritingLog(0) && 2 <= L.nlog
    ensures CacheOk(L, z) && Distinct(Pins(z)) && LogBlock(L, 0) !in Pins(z) && |z.cache.bufs| == |s.cache.bufs|
  {
    hide Init, RingOk;
    PowerOnCore(L, s);
    var steps :| RunTo(L, s, steps, z);
    RunCore(L, s, steps);
    RunSizes(L, s, steps);
  }
}
