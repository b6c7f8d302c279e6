/** What a power failure leaves of the file system: the atomic block map of `LogRefinement` under the
    transactions of `FsCode`. */
module FsCrash {
  import opened Blocks
  import opened LogRefinement
  import LogDisk
  import LogMachine
  import LogRoom
  import FsFormat
  import FsState
  import FsCode

  // ----- properties of the map when no operation is open

  /** No operation is open at i and at j, one is all the time between, and power does not fail. */
  ghost predicate Stretch(trace: seq<Atomic>, events: seq<Event>, i: nat, j: nat) {
    && i < j < |trace| == |events| + 1 && trace[i].open == {} && trace[j].open == {}
    && (forall k :: i < k < j ==> trace[k].open != {})
    && (forall k :: i <= k < j ==> events[k] != PowerLoss)
  }

  /** Over each such stretch the operations keep P. */
  ghost predicate KeptBy(P: map<nat, Block> -> bool, trace: seq<Atomic>, events: seq<Event>) {
    forall i: nat, j: nat :: Stretch(trace, events, i, j) && P(trace[i].vol) ==> P(trace[j].vol)
  }

  /** The last moment before n with no operation open. */
  lemma {:induction false} LastQuiet(trace: seq<Atomic>, n: nat) returns (m: nat)
    requires 0 < n < |trace| && trace[0].open == {}
    ensures m < n && trace[m].open == {} && forall k :: m < k < n ==> trace[k].open != {}
  {
    m := n - 1;
    while trace[m].open != {}
      invariant 0 <= m < n && forall k :: m < k < n ==> trace[k].open != {}
      decreases m
    {
      m := m - 1;
    }
  }

  /** Any property that groups of overlapping operations keep is true of the durable map in every state of a
      behaviour, and of the visible map whenever no operation is open. */
  lemma {:induction false} KeptThroughout(P: map<nat, Block> -> bool, trace: seq<Atomic>, events: seq<Event>, n: nat)
    requires IsBehaviour(trace, events) && KeptBy(P, trace, events) && n < |trace|
    requires trace[0].open == {} && P(trace[0].vol) && P(trace[0].dur)
    ensures P(trace[n].dur) && (trace[n].open == {} ==> P(trace[n].vol))
    decreases n
  {
    if n > 0 {
      KeptThroughout(P, trace, events, n - 1);
      assert AtomicStep(trace[n - 1], events[n - 1], trace[n - 1 + 1]);
      if trace[n].open == {} && events[n - 1] != PowerLoss {
        var m := LastQuiet(trace, n);
        KeptThroughout(P, trace, events, m);
        forall k | m <= k < n ensures events[k] != PowerLoss {
          assert AtomicStep(trace[k], events[k], trace[k + 1]);
        }
        assert Stretch(trace, events, m, n);
      }
    }
  }

  // ----- a process that performs transactions one after the other

  /** The map that a disk stands for, on the blocks outside the log. */
  ghost function MapOf(L: LogDisk.Layout, store: seq<Block>): map<nat, Block>
    requires |store| == L.size
  {
    map b | 0 <= b < L.size && LogDisk.Home(L, b) :: store[b]
  }

  /** The disk after the first t transactions. */
  function StoreAt(store: seq<Block>, txs: seq<FsCode.Tx>, t: nat): seq<Block>
    requires t <= |txs|
  {
    if t == 0 then store else txs[t - 1].after
  }

  ghost predicate Sized(L: LogDisk.Layout, store: seq<Block>, txs: seq<FsCode.Tx>) {
    |store| == L.size && forall t :: 0 <= t < |txs| ==> |txs[t].after| == L.size
  }

  /** Calls of end_op before n. */
  ghost function Ends(events: seq<Event>, n: nat): nat
    requires n <= |events|
  {
    if n == 0 then 0 else Ends(events, n - 1) + if events[n - 1].End? then 1 else 0
  }

  ghost predicate NoLoss(events: seq<Event>, n: nat)
    requires n <= |events|
  {
    forall k :: 0 <= k < n ==> events[k] != PowerLoss
  }

  /** Operations that had ended when commit last ran before power failed. */
  ghost function Settled(events: seq<Event>, n: nat): nat
    requires n <= |events|
  {
    if n == 0 then 0
    else if events[n - 1].Commit? && NoLoss(events, n) then Ends(events, n - 1)
    else Settled(events, n - 1)
  }

  /** Only process p begins operations, and none once power has failed. */
  ghost predicate Alone(events: seq<Event>, p: nat) {
    forall k :: 0 <= k < |events| && events[k].Begin? ==> events[k].p == p && NoLoss(events, k)
  }

  /** At the end of its t-th operation readers see what transaction t leaves. */
  ghost predicate Performs(L: LogDisk.Layout, trace: seq<Atomic>, events: seq<Event>, txs: seq<FsCode.Tx>)
    requires forall t :: 0 <= t < |txs| ==> |txs[t].after| == L.size
  {
    && |trace| == |events| + 1
    && forall k :: 0 <= k < |events| && events[k].End? ==>
         Ends(events, k) < |txs| && trace[k + 1].vol == MapOf(L, txs[Ends(events, k)].after)
  }

  /** The first t transactions and no other are in the map m. */
  ghost predicate Survives(L: LogDisk.Layout, store: seq<Block>, txs: seq<FsCode.Tx>, m: map<nat, Block>, t: nat)
    requires Sized(L, store, txs)
  {
    t <= |txs| && m == MapOf(L, StoreAt(store, txs, t))
  }

  /** Where the behaviour stands after n steps. */
  ghost predicate Stands(L: LogDisk.Layout, trace: seq<Atomic>, events: seq<Event>, p: nat, store: seq<Block>,
                         txs: seq<FsCode.Tx>, n: nat)
    requires |trace| == |events| + 1 && n < |trace| && Sized(L, store, txs)
  {
    && trace[n].open <= {p} && Settled(events, n) <= Ends(events, n) <= |txs|
    && Survives(L, store, txs, trace[n].dur, Settled(events, n))
    && (if NoLoss(events, n)
        then trace[n].open == {} ==> Survives(L, store, txs, trace[n].vol, Ends(events, n))
        else trace[n].open == {} && trace[n].vol == trace[n].dur)
  }

  lemma StandsNext(L: LogDisk.Layout, trace: seq<Atomic>, events: seq<Event>, p: nat, store: seq<Block>,
                   txs: seq<FsCode.Tx>, n: nat)
    requires IsBehaviour(trace, events) && Sized(L, store, txs) && Performs(L, trace, events, txs) && Alone(events, p)
    requires n < |events| && Stands(L, trace, events, p, store, txs, n)
    ensures Stands(L, trace, events, p, store, txs, n + 1)
  {
    hide MapOf;
    assert AtomicStep(trace[n], events[n], trace[n + 1]);
    assert NoLoss(events, n + 1) <==> NoLoss(events, n) && events[n] != PowerLoss;
    hide NoLoss;
    match events[n]
    case End(_) =>
    case _ =>
  }

  /** Wherever it stops, what is durable is the disk as the transactions left it that had ended when commit last
      ran, each of them whole. */
  lemma {:induction false} DurablePrefix(L: LogDisk.Layout, trace: seq<Atomic>, events: seq<Event>, p: nat,
                                         store: seq<Block>, txs: seq<FsCode.Tx>, n: nat)
    requires IsBehaviour(trace, events) && Sized(L, store, txs) && Performs(L, trace, events, txs) && Alone(events, p)
    requires trace[0] == Atomic(MapOf(L, store), MapOf(L, store), {}) && n < |trace|
    ensures Stands(L, trace, events, p, store, txs, n)
    decreases n
  {
    if n == 0 {
      assert Survives(L, store, txs, trace[0].dur, 0);
    } else {
      hide Stands, Performs, Alone, MapOf, Sized;
      DurablePrefix(L, trace, events, p, store, txs, n - 1);
      StandsNext(L, trace, events, p, store, txs, n - 1);
    }
  }

  // ----- filewrite

  /** A disk with map m is a sound file system in which file i has the first k bytes of src from offset `from` on,
      and all else is as in f. */
  ghost predicate Recovers(L: LogDisk.Layout, sb: FsFormat.Superblock, f: FsState.Fs, i: nat, from: nat,
                           src: seq<byte>, m: map<nat, Block>, k: nat)
    requires FsState.Healthy(sb, f) && i < sb.ninodes
  {
    exists store :: |store| == L.size && m == MapOf(L, store) && FsCode.Sound(sb, store) &&
                    FsCode.PrefixIn(sb, f, store, i, from, src, k)
  }

  lemma SurvivorIsPrefix(L: LogDisk.Layout, sb: FsFormat.Superblock, f: FsState.Fs, i: nat, from: nat,
                         src: seq<byte>, n: nat, txs: seq<FsCode.Tx>, m: map<nat, Block>, t: nat)
    requires L.size == sb.size && FsCode.Sound(sb, f.store) && f.ino == FsFormat.Inos(sb, f.store) && i < sb.ninodes
    requires FsCode.Pieces(sb, f, i, from, src, n, txs, true) && Sized(L, f.store, txs)
    requires Survives(L, f.store, txs, m, t)
    ensures Recovers(L, sb, f, i, from, src, m, Min(t * FsCode.PIECE, n))
  {
    hide FsCode.WrittenTo, FsState.Healthy, MapOf;
    var store := StoreAt(f.store, txs, t);
    if t > 0 { assert FsCode.Sound(sb, txs[t - 1].after) && FsCode.AllSound(sb, txs); }
    hide FsCode.Sound, FsCode.InArea, FsCode.Complete;
    assert FsCode.PrefixIn(sb, f, store, i, from, src, Min(t * FsCode.PIECE, n));
  }

  /** From power-on over a sound disk: whatever the interleaving with readers, and wherever power fails, recovery
      finds a sound file system, and of a filewrite that a process was making a whole number of pieces. */
  lemma FilewriteSurvives(L: LogDisk.Layout, s: LogMachine.State, steps: seq<LogMachine.Step>, p: nat,
                          sb: FsFormat.Superblock, f: FsState.Fs, i: nat, from: nat, src: seq<byte>, n: nat,
                          txs: seq<FsCode.Tx>) returns (trace: seq<Atomic>)
    requires LogDisk.LayoutOk(L) && LogMachine.Init(L, s) && LogMachine.IsRun(L, s, steps) && LogRoom.Contained(L, s)
    requires L.size == sb.size && FsCode.Sound(sb, f.store) && f.ino == FsFormat.Inos(sb, f.store) && i < sb.ninodes
    requires LogDisk.Durable(L, s.disk) == MapOf(L, f.store)
    requires FsCode.Pieces(sb, f, i, from, src, n, txs, true)
    ensures IsBehaviour(trace, Events(L, s, steps)) && Sized(L, f.store, txs)
    ensures LogDisk.DiskOk(L, LogMachine.After(L, s, steps).disk)
    ensures Performs(L, trace, Events(L, s, steps), txs) && Alone(Events(L, s, steps), p) ==>
              Recovers(L, sb, f, i, from, src, LogDisk.Durable(L, LogMachine.After(L, s, steps).disk),
                       Min(Settled(Events(L, s, steps), |Events(L, s, steps)|) * FsCode.PIECE, n))
  {
    trace := BootRefines(L, s, steps);
    var events, z := Events(L, s, steps), LogMachine.After(L, s, steps);
    ReadyDisk(L, z);
    assert Sized(L, f.store, txs) by { PiecesSized(L, sb, f, i, from, src, n, txs); }
    assert trace[|trace| - 1].dur == LogDisk.Durable(L, z.disk);
    hide *;
    if Performs(L, trace, events, txs) && Alone(events, p) {
      DurablePrefix(L, trace, events, p, f.store, txs, |trace| - 1);
      DurableNow(L, trace, events, p, f.store, txs, |trace| - 1);
      SurvivorIsPrefix(L, sb, f, i, from, src, n, txs, trace[|trace| - 1].dur, Settled(events, |events|));
    }
  }

  lemma PiecesSized(L: LogDisk.Layout, sb: FsFormat.Superblock, f: FsState.Fs, i: nat, from: nat, src: seq<byte>,
                    n: nat, txs: seq<FsCode.Tx>)
    requires L.size == sb.size && FsCode.Sound(sb, f.store) && FsState.Healthy(sb, f) && i < sb.ninodes
    requires FsCode.Pieces(sb, f, i, from, src, n, txs, true)
    ensures Sized(L, f.store, txs)
  {}

  lemma DurableNow(L: LogDisk.Layout, trace: seq<Atomic>, events: seq<Event>, p: nat, store: seq<Block>,
                   txs: seq<FsCode.Tx>, n: nat)
    requires |trace| == |events| + 1 && n < |trace| && Sized(L, store, txs)
    requires Stands(L, trace, events, p, store, txs, n)
    ensures Survives(L, store, txs, trace[n].dur, Settled(events, n))
  {}
}
