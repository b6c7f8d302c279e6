/** The buffer cache as a value: the contents of every struct buf and the recency order of the
    ring. These are the specification functions the pointer code of `Bio` is proved against and
    the ones `LogMachine` steps with. */
module CacheModel {
  import opened Blocks

  /** holder is the process owning the buffer's sleep-lock. */
  datatype Buf = Buf(valid: bool, dev: nat, blockno: nat, refcnt: nat, holder: Option<nat>, data: Block)

  /** order lists buffer indices, most recently released first. */
  datatype Cache = Cache(bufs: seq<Buf>, order: seq<nat>)

  const FRESH: Buf := Buf(false, 0, 0, 0, None, ZERO)

  /** The ring binit builds: each buffer is inserted at the front. */
  function FreshCache(n: nat): Cache {
    Cache(seq(n, _ => FRESH), seq(n, i requires 0 <= i < n => n - 1 - i))
  }

  ghost predicate Distinct<T(!new)>(s: seq<T>) {
    forall i, j :: 0 <= i < j < |s| ==> s[i] != s[j]
  }

  /** order is a permutation of the buffer indices. */
  ghost predicate RingOk(c: Cache) {
    && |c.order| == |c.bufs|
    && Distinct(c.order)
    && (forall k :: 0 <= k < |c.order| ==> c.order[k] < |c.bufs|)
    && (forall i :: 0 <= i < |c.bufs| ==> i in c.order)
  }

  predicate Holds(b: Buf, dev: nat, blockno: nat) {
    b.dev == dev && b.blockno == blockno
  }

  /** At most one buffer per block of a real device; binit leaves every buffer at (0, 0). */
  ghost predicate Unique(c: Cache) {
    forall i, j :: 0 <= i < j < |c.bufs| && c.bufs[i].dev != 0 ==>
      !Holds(c.bufs[j], c.bufs[i].dev, c.bufs[i].blockno)
  }

  /** First position of order at or after k holding the block: the forward scan of bget. */
  function Scan(c: Cache, k: nat, dev: nat, blockno: nat): Option<nat>
    requires k <= |c.order|
    requires forall k :: 0 <= k < |c.order| ==> c.order[k] < |c.bufs|
    decreases |c.order| - k
  {
    if k == |c.order| then None
    else if Holds(c.bufs[c.order[k]], dev, blockno) then Some(c.order[k])
    else Scan(c, k + 1, dev, blockno)
  }

  /** Last position of order before k that is unreferenced: the backward scan of bget. */
  function Victim(c: Cache, k: nat): Option<nat>
    requires k <= |c.order|
    requires forall k :: 0 <= k < |c.order| ==> c.order[k] < |c.bufs|
  {
    if k == 0 then None
    else if c.bufs[c.order[k - 1]].refcnt == 0 then Some(c.order[k - 1])
    else Victim(c, k - 1)
  }

  /** The buffer bget settles on, or None where it panics with "no buffers". */
  function Choose(c: Cache, dev: nat, blockno: nat): Option<nat>
    requires forall k :: 0 <= k < |c.order| ==> c.order[k] < |c.bufs|
  {
    var hit := Scan(c, 0, dev, blockno);
    if hit.Some? then hit else Victim(c, |c.order|)
  }

  /** bget up to the point where it drops bcache.lock: the buffer is referenced, not yet locked. */
  function Reference(c: Cache, dev: nat, blockno: nat): Cache
    requires forall k :: 0 <= k < |c.order| ==> c.order[k] < |c.bufs|
    requires Choose(c, dev, blockno).Some? && Choose(c, dev, blockno).value < |c.bufs|
  {
    var i := Choose(c, dev, blockno).value;
    var b := c.bufs[i];
    c.(bufs := c.bufs[i := if Scan(c, 0, dev, blockno).Some?
                           then b.(refcnt := b.refcnt + 1)
                           else b.(dev := dev, blockno := blockno, valid := false, refcnt := 1)])
  }

  /** bread by process pid when nobody else holds the buffer: reference, lock, read if invalid. */
  function Loaded(c: Cache, disk: seq<Block>, dev: nat, blockno: nat, pid: nat): Cache
    requires forall k :: 0 <= k < |c.order| ==> c.order[k] < |c.bufs|
    requires Choose(c, dev, blockno).Some? && Choose(c, dev, blockno).value < |c.bufs| && blockno < |disk|
  {
    var i := Choose(c, dev, blockno).value;
    var c1 := Reference(c, dev, blockno);
    var b := c1.bufs[i].(holder := Some(pid));
    c1.(bufs := c1.bufs[i := if b.valid then b else b.(valid := true, data := disk[blockno])])
  }

  function Without(s: seq<nat>, x: nat): seq<nat> {
    if s == [] then [] else if s[0] == x then s[1..] else [s[0]] + Without(s[1..], x)
  }

  /** brelse: unlock, drop the reference, and move a buffer nobody references to the front. */
  function Release(c: Cache, i: nat): Cache
    requires i < |c.bufs| && c.bufs[i].refcnt > 0
  {
    var b := c.bufs[i].(holder := None, refcnt := c.bufs[i].refcnt - 1);
    Cache(c.bufs[i := b], if b.refcnt == 0 then [i] + Without(c.order, i) else c.order)
  }

  /** From position k on, buffer i is the first in ring order to hold the block. */
  ghost predicate IsFirst(c: Cache, i: nat, k: nat, dev: nat, blockno: nat)
    requires RingOk(c)
  {
    exists m ::
      && k <= m < |c.order| && c.order[m] == i && Holds(c.bufs[i], dev, blockno)
      && (forall j :: k <= j < m ==> !Holds(c.bufs[c.order[j]], dev, blockno))
  }

  lemma {:induction false} ScanMeaning(c: Cache, k: nat, dev: nat, blockno: nat)
    requires RingOk(c) && k <= |c.order|
    ensures match Scan(c, k, dev, blockno)
            case Some(i) => i < |c.bufs| && IsFirst(c, i, k, dev, blockno)
            case None => forall m :: k <= m < |c.order| ==> !Holds(c.bufs[c.order[m]], dev, blockno)
    decreases |c.order| - k
  {
    if k < |c.order| {
      if Holds(c.bufs[c.order[k]], dev, blockno) {
        assert IsFirst(c, c.order[k], k, dev, blockno);
      } else {
        ScanMeaning(c, k + 1, dev, blockno);
        if Scan(c, k + 1, dev, blockno).Some? { FirstStill(c, Scan(c, k + 1, dev, blockno).value, k, dev, blockno); }
      }
    }
  }

  lemma FirstStill(c: Cache, i: nat, k: nat, dev: nat, blockno: nat)
    requires RingOk(c) && k < |c.order| && IsFirst(c, i, k + 1, dev, blockno)
    requires !Holds(c.bufs[c.order[k]], dev, blockno)
    ensures IsFirst(c, i, k, dev, blockno)
  {
    var m :| k + 1 <= m < |c.order| && c.order[m] == i && Holds(c.bufs[i], dev, blockno) &&
      (forall j :: k + 1 <= j < m ==> !Holds(c.bufs[c.order[j]], dev, blockno));
    assert k <= m < |c.order|;
  }

  /** Among order[..k], buffer i is unreferenced and every buffer used less recently than i is
      referenced. */
  ghost predicate IsLeastRecent(c: Cache, i: nat, k: nat)
    requires RingOk(c) && k <= |c.order|
  {
    exists m ::
      && 0 <= m < k && c.order[m] == i && c.bufs[i].refcnt == 0
      && (forall j :: m < j < k ==> c.bufs[c.order[j]].refcnt > 0)
  }

  /** The victim is unreferenced and everything less recently used than it is referenced. */
  lemma {:induction false} VictimMeaning(c: Cache, k: nat)
    requires RingOk(c) && k <= |c.order|
    ensures match Victim(c, k)
            case Some(i) => IsLeastRecent(c, i, k)
            case None => forall j :: 0 <= j < k ==> c.bufs[c.order[j]].refcnt > 0
  {
    if k > 0 {
      if c.bufs[c.order[k - 1]].refcnt > 0 {
        VictimMeaning(c, k - 1);
      }
    }
  }

  /** What bget chooses: a buffer already holding the block if there is one; otherwise the least
      recently used buffer with no references; and it fails only when every buffer is referenced. */
  lemma ChooseMeaning(c: Cache, dev: nat, blockno: nat)
    requires RingOk(c)
    ensures match Choose(c, dev, blockno)
            case Some(i) =>
              && i < |c.bufs|
              && (Scan(c, 0, dev, blockno).Some? ==> Holds(c.bufs[i], dev, blockno) && IsFirst(c, i, 0, dev, blockno))
              && (Scan(c, 0, dev, blockno).None? ==>
                    && (forall j :: 0 <= j < |c.bufs| ==> !Holds(c.bufs[j], dev, blockno))
                    && IsLeastRecent(c, i, |c.order|))
            case None =>
              forall j :: 0 <= j < |c.bufs| ==> c.bufs[j].refcnt > 0 && !Holds(c.bufs[j], dev, blockno)
  {
    ScanMeaning(c, 0, dev, blockno);
    VictimMeaning(c, |c.order|);
    if Scan(c, 0, dev, blockno).None? {
      forall j | 0 <= j < |c.bufs| ensures !Holds(c.bufs[j], dev, blockno) {
        assert j in c.order;
      }
      if Victim(c, |c.order|).None? {
        forall j | 0 <= j < |c.bufs| ensures c.bufs[j].refcnt > 0 {
          assert j in c.order;
        }
      }
    }
  }

  lemma {:induction false} WithoutMeaning(s: seq<nat>, x: nat)
    requires Distinct(s) && x in s
    ensures |Without(s, x)| == |s| - 1
    ensures Distinct(Without(s, x)) && x !in Without(s, x)
    ensures forall y :: y in s <==> y == x || y in Without(s, x)
  {
    if s[0] == x {
      assert s == [x] + s[1..];
    } else {
      assert x in s[1..];
      WithoutMeaning(s[1..], x);
      assert s == [s[0]] + s[1..];
      assert s[0] !in Without(s[1..], x);
    }
  }

  /** brelse keeps the ring a permutation of all the buffers. */
  lemma ReleaseKeepsRing(c: Cache, i: nat)
    requires RingOk(c) && i < |c.bufs| && c.bufs[i].refcnt > 0
    ensures RingOk(Release(c, i))
  {
    assert i in c.order;
    WithoutMeaning(c.order, i);
    var r := Without(c.order, i);
    forall k | 0 <= k < |r| ensures r[k] < |c.bufs| && r[k] != i {
      assert r[k] in r;
    }
  }

  /** bget keeps the ring and never gives a block of a real device a second buffer. */
  lemma ReferenceKeepsRing(c: Cache, dev: nat, blockno: nat)
    requires RingOk(c) && Unique(c) && Choose(c, dev, blockno).Some?
    ensures Choose(c, dev, blockno).value < |c.bufs|
    ensures RingOk(Reference(c, dev, blockno)) && Unique(Reference(c, dev, blockno))
  {
    ChooseMeaning(c, dev, blockno);
  }
}
