/** bio.c's ring of buffers: prev and next links threaded through the buffer array, updated in
    place, and proved to compute the functions of `CacheModel`. */
module Bio {
  import opened Blocks
  import opened CacheModel

  /** struct buf; links are indices into the array, the last index being bcache.head. */
  datatype Node = Node(valid: bool, dev: nat, blockno: nat, refcnt: nat, holder: Option<nat>, data: Block,
                       prev: nat, next: nat)

  function BufOf(n: Node): Buf {
    Buf(n.valid, n.dev, n.blockno, n.refcnt, n.holder, n.data)
  }

  function Cycle(order: seq<nat>, head: nat): seq<nat> {
    [head] + order + [head]
  }

  /** Following next from head visits order and returns to head; prev is the way back. */
  ghost predicate Linked(nodes: seq<Node>, order: seq<nat>, head: nat) {
    && |nodes| == head + 1
    && (forall k :: 0 <= k < |order| ==> order[k] < head)
    && var c := Cycle(order, head);
       forall k :: 0 <= k <= |order| ==> nodes[c[k]].next == c[k + 1] && nodes[c[k + 1]].prev == c[k]
  }

  ghost function Cut(order: seq<nat>, k: nat): seq<nat>
    requires k < |order|
  {
    order[..k] + order[k + 1..]
  }

  /** b->next->prev = b->prev; b->prev->next = b->next. */
  function Unlink(nodes: seq<Node>, b: nat): seq<Node>
    requires b < |nodes| && nodes[b].next < |nodes| && nodes[b].prev < |nodes|
  {
    var p, n := nodes[b].prev, nodes[b].next;
    var nodes1 := nodes[n := nodes[n].(prev := p)];
    nodes1[p := nodes1[p].(next := n)]
  }

  /** Insertion just after head. */
  function PushFront(nodes: seq<Node>, b: nat, head: nat): seq<Node>
    requires b < head < |nodes| && nodes[head].next < |nodes|
  {
    var f := nodes[head].next;
    var nodes1 := nodes[b := nodes[b].(next := f, prev := head)];
    var nodes2 := nodes1[f := nodes1[f].(prev := b)];
    nodes2[head := nodes2[head].(next := b)]
  }

  lemma NeighboursOf(nodes: seq<Node>, order: seq<nat>, head: nat, k: nat)
    requires Linked(nodes, order, head) && k < |order|
    ensures nodes[order[k]].next == Cycle(order, head)[k + 2] && nodes[order[k]].prev == Cycle(order, head)[k]
    ensures nodes[order[k]].next < |nodes| && nodes[order[k]].prev < |nodes|
  {
    var c := Cycle(order, head);
    assert c[k + 1] == order[k];
    assert nodes[c[k + 1]].next == c[k + 2] && nodes[c[k + 1]].prev == c[k];
  }

  lemma CutCycle(order: seq<nat>, head: nat, k: nat)
    requires k < |order|
    ensures var c, d := Cycle(order, head), Cycle(Cut(order, k), head);
            && |d| == |c| - 1
            && (forall j :: 0 <= j <= k ==> d[j] == c[j])
            && (forall j :: k + 1 <= j < |d| ==> d[j] == c[j + 1])
  {}

  lemma CycleDistinct(order: seq<nat>, head: nat, i: nat, j: nat)
    requires Distinct(order) && head !in order && i < j <= |order| + 1
    ensures Cycle(order, head)[i] == Cycle(order, head)[j] ==> i == 0 && j == |order| + 1
  {
    var c := Cycle(order, head);
    if 1 <= i && j <= |order| {
      assert c[i] == order[i - 1] && c[j] == order[j - 1];
    } else if i == 0 && j <= |order| {
      assert c[j] == order[j - 1];
    } else if 1 <= i && j == |order| + 1 {
      assert c[i] == order[i - 1];
    }
  }

  lemma UnlinkKeeps(nodes: seq<Node>, order: seq<nat>, head: nat, k: nat)
    requires Linked(nodes, order, head) && Distinct(order) && head !in order && k < |order|
    ensures nodes[order[k]].next < |nodes| && nodes[order[k]].prev < |nodes|
    ensures Linked(Unlink(nodes, order[k]), Cut(order, k), head)
  {
    NeighboursOf(nodes, order, head, k);
    var c, d := Cycle(order, head), Cycle(Cut(order, k), head);
    CutCycle(order, head, k);
    var nodes' := Unlink(nodes, order[k]);
    forall j | 0 <= j <= |order| - 1
      ensures nodes'[d[j]].next == d[j + 1] && nodes'[d[j + 1]].prev == d[j]
    {
      var i := if j <= k then j else j + 1;
      assert d[j] == c[i];
      assert nodes[c[i]].next == c[i + 1] && nodes[c[i + 1]].prev == c[i];
      if j != k {
        assert d[j + 1] == c[i + 1];
        if i < k { CycleDistinct(order, head, i, k); } else { CycleDistinct(order, head, k, i); }
        if i + 1 < k + 2 {
          CycleDistinct(order, head, i + 1, k + 2);
        } else if k + 2 < i + 1 {
          CycleDistinct(order, head, k + 2, i + 1);
        }
      } else {
        assert d[j + 1] == c[k + 2];
      }
    }
  }

  lemma PushFrontKeeps(nodes: seq<Node>, order: seq<nat>, head: nat, b: nat)
    requires Linked(nodes, order, head) && Distinct(order) && head !in order && b !in order && b < head
    ensures nodes[head].next < |nodes| && Linked(PushFront(nodes, b, head), [b] + order, head)
  {
    var c, d := Cycle(order, head), Cycle([b] + order, head);
    assert nodes[c[0]].next == c[1];
    var nodes' := PushFront(nodes, b, head);
    assert d[0] == head && d[1] == b && forall j :: 2 <= j < |d| ==> d[j] == c[j - 1];
    forall j | 0 <= j <= |order| + 1
      ensures nodes'[d[j]].next == d[j + 1] && nodes'[d[j + 1]].prev == d[j]
    {
      if j >= 2 {
        assert nodes[c[j - 1]].next == c[j] && nodes[c[j]].prev == c[j - 1];
        CycleDistinct(order, head, 0, j - 1);
        CycleDistinct(order, head, 1, j);
        assert c[j - 1] == order[j - 2];
        if j <= |order| { assert c[j] == order[j - 1]; }
      }
    }
  }

  lemma {:induction false} WithoutIsCut(order: seq<nat>, k: nat)
    requires Distinct(order) && k < |order|
    ensures Without(order, order[k]) == Cut(order, k)
  {
    if k > 0 {
      WithoutIsCut(order[1..], k - 1);
      assert order[0] != order[k];
      assert Cut(order, k) == [order[0]] + Cut(order[1..], k - 1);
    }
  }

  ghost function Bufs(nodes: seq<Node>): seq<Buf> {
    seq(|nodes|, i requires 0 <= i < |nodes| => BufOf(nodes[i]))
  }

  /** The disk after a list of block writes. */
  ghost function Written(image: seq<Block>, ws: seq<(nat, Block)>): seq<Block> {
    if ws == [] then image
    else
      var before, w := Written(image, ws[..|ws| - 1]), ws[|ws| - 1];
      if w.0 < |before| then before[w.0 := w.1] else before
  }

  /** The virtio disk, one whole block per transfer, with every write it was given in order. */
  class Device {
    ghost const image: seq<Block>
    var blocks: seq<Block>
    ghost var writes: seq<(nat, Block)>

    ghost predicate Valid()
      reads this
    {
      blocks == Written(image, writes)
    }

    constructor (contents: seq<Block>)
      ensures blocks == image == contents && writes == [] && Valid()
    {
      image := contents;
      blocks := contents;
      writes := [];
    }

    method Write(b: nat, data: Block)
      requires Valid() && b < |blocks|
      modifies this
      ensures Valid() && blocks == old(blocks)[b := data] && writes == old(writes) + [(b, data)]
    {
      blocks := blocks[b := data];
      writes := writes + [(b, data)];
      assert writes[..|writes| - 1] == old(writes);
    }
  }

  class Bcache {
    const nbuf: nat
    const buf: array<Node> // buf[nbuf] is bcache.head
    ghost var order: seq<nat>

    ghost function View(): Cache
      requires nbuf < buf.Length
      reads this, buf
    {
      Cache(Bufs(buf[..nbuf]), order)
    }

    ghost predicate Valid()
      reads this, buf
    {
      buf.Length == nbuf + 1 && Linked(buf[..], order, nbuf) && RingOk(View())
    }

    /** binit. */
    constructor (n: nat)
      ensures nbuf == n && fresh(buf) && Valid() && View() == FreshCache(n)
    {
      nbuf := n;
      buf := new Node[n + 1](_ => Node(false, 0, 0, 0, None, ZERO, n, n));
      order := [];
      new;
      for b := 0 to n
        invariant Linked(buf[..], order, n) && |order| == b
        invariant forall k :: 0 <= k < b ==> order[k] == b - 1 - k
        invariant forall i :: 0 <= i < n ==> BufOf(buf[i]) == FRESH
      {
        PushFrontKeeps(buf[..], order, n, b);
        LinkFront(b);
        order := [b] + order;
      }
      assert View() == FreshCache(n);
      FreshRing(n);
    }

    /** Walks forward from head.next: the buffer already caching the block, or nbuf. */
    method FindCached(dev: nat, blockno: nat) returns (b: nat)
      requires Valid()
      ensures match Scan(View(), 0, dev, blockno) case Some(i) => b == i case None => b == nbuf
    {
      ghost var c := Cycle(order, nbuf);
      ghost var k := 0;
      assert buf[c[0]].next == c[1];
      b := buf[nbuf].next;
      while b != nbuf
        invariant 0 <= k <= |order| && b == c[k + 1]
        invariant Scan(View(), 0, dev, blockno) == Scan(View(), k, dev, blockno)
        decreases |order| - k
      {
        assert b == order[k] && buf[..][b] == buf[b];
        if buf[b].dev == dev && buf[b].blockno == blockno {
          return;
        }
        assert buf[c[k + 1]].next == c[k + 2];
        b := buf[b].next;
        k := k + 1;
      }
    }

    /** Walks backward from head.prev: the least recently used unreferenced buffer, or nbuf. */
    method FindVictim() returns (b: nat)
      requires Valid()
      ensures match Victim(View(), |order|) case Some(i) => b == i case None => b == nbuf
    {
      ghost var c := Cycle(order, nbuf);
      ghost var k := |order|;
      assert buf[c[k + 1]].prev == c[k];
      b := buf[nbuf].prev;
      while b != nbuf
        invariant 0 <= k <= |order| && b == c[k]
        invariant Victim(View(), |order|) == Victim(View(), k)
        decreases k
      {
        assert b == order[k - 1];
        if buf[b].refcnt == 0 {
          return;
        }
        assert buf[c[k]].prev == c[k - 1];
        b := buf[b].prev;
        k := k - 1;
      }
    }

    /** bget under bcache.lock; None where the source panics with "no buffers". */
    method Bget(dev: nat, blockno: nat) returns (r: Option<nat>)
      requires Valid()
      modifies buf
      ensures Valid() && order == old(order) && r == Choose(old(View()), dev, blockno)
      ensures r.Some? ==> r.value < nbuf && View() == Reference(old(View()), dev, blockno)
      ensures r.None? ==> View() == old(View())
    {
      ChooseMeaning(View(), dev, blockno);
      var b := FindCached(dev, blockno);
      if b != nbuf {
        Update(b, BufOf(buf[b]).(refcnt := buf[b].refcnt + 1));
      } else {
        b := FindVictim();
        if b == nbuf {
          return None;
        }
        Update(b, BufOf(buf[b]).(dev := dev, blockno := blockno, valid := false, refcnt := 1));
      }
      r := Some(b);
    }

    /** Assigns the fields of buffer b other than its links. */
    method Update(b: nat, v: Buf)
      requires Valid() && b < nbuf
      modifies buf
      ensures Valid() && View() == old(View()).(bufs := old(View()).bufs[b := v])
    {
      ghost var nodes := buf[..];
      buf[b] := Node(v.valid, v.dev, v.blockno, v.refcnt, v.holder, v.data, buf[b].prev, buf[b].next);
      LinksOnly(nodes, buf[..], order, nbuf);
      assert View().bufs == old(View()).bufs[b := v];
    }

    /** bread by process pid. waits says that another process has the buffer: pid has referenced it and sleeps in
        acquiresleep. */
    method Bread(device: Device, dev: nat, blockno: nat, pid: nat) returns (r: Option<nat>, waits: bool)
      requires Valid() && blockno < |device.blocks|
      modifies buf
      ensures Valid() && order == old(order) && r == Choose(old(View()), dev, blockno)
      ensures r.None? ==> View() == old(View()) && !waits
      ensures r.Some? ==> r.value < nbuf && waits == old(View()).bufs[r.value].holder.Some?
      ensures r.Some? && waits ==> View() == Reference(old(View()), dev, blockno)
      ensures r.Some? && !waits ==> View() == Loaded(old(View()), device.blocks, dev, blockno, pid)
    {
      waits := false;
      r := Bget(dev, blockno);
      if r.Some? {
        var b := r.value;
        assert View().bufs[b] == BufOf(buf[b]);
        if buf[b].holder.Some? {
          return r, true;
        }
        Update(b, BufOf(buf[b]).(holder := Some(pid))); // acquiresleep
        assert View().bufs[b] == BufOf(buf[b]);
        if !buf[b].valid {
          Update(b, BufOf(buf[b]).(valid := true, data := device.blocks[blockno]));
        }
        assert View().bufs == Loaded(old(View()), device.blocks, dev, blockno, pid).bufs;
      }
    }

    /** bwrite; false where it panics because the caller does not have the buffer's lock. */
    method Bwrite(device: Device, b: nat, pid: nat) returns (ok: bool)
      requires Valid() && b < nbuf
      requires device.Valid() && View().bufs[b].blockno < |device.blocks|
      modifies device
      ensures ok == (View().bufs[b].holder == Some(pid))
      ensures !ok ==> device.blocks == old(device.blocks) && device.writes == old(device.writes)
      ensures ok ==>
        device.Valid() && device.blocks == old(device.blocks)[View().bufs[b].blockno := View().bufs[b].data]
      ensures ok ==> device.writes == old(device.writes) + [(View().bufs[b].blockno, View().bufs[b].data)]
    {
      if buf[b].holder != Some(pid) {
        return false;
      }
      device.Write(buf[b].blockno, buf[b].data);
      ok := true;
    }

    /** brelse; false where it panics because the caller does not have the buffer's lock. */
    method Brelse(b: nat, pid: nat) returns (ok: bool)
      requires Valid() && b < nbuf && View().bufs[b].refcnt > 0
      modifies this, buf
      ensures Valid() && ok == (old(View()).bufs[b].holder == Some(pid))
      ensures View() == if ok then Release(old(View()), b) else old(View())
    {
      assert View().bufs[b] == BufOf(buf[b]);
      if buf[b].holder != Some(pid) {
        return false;
      }
      Update(b, BufOf(buf[b]).(holder := None, refcnt := buf[b].refcnt - 1));
      assert View().bufs[b] == BufOf(buf[b]);
      if buf[b].refcnt == 0 {
        MoveToFront(b);
      }
      ReleaseKeepsRing(old(View()), b);
      assert View().bufs == Release(old(View()), b).bufs;
      ok := true;
    }

    /** Unlinks b and relinks it after head. */
    method MoveToFront(b: nat)
      requires Valid() && b < nbuf
      modifies this, buf
      ensures buf.Length == nbuf + 1 && order == [b] + Without(old(order), b) && Linked(buf[..], order, nbuf)
      ensures View().bufs == old(View()).bufs
    {
      assert |View().bufs| == nbuf && b in order;
      ghost var k: nat :| k < |order| && order[k] == b;
      UnlinkKeeps(buf[..], order, nbuf, k);
      WithoutIsCut(order, k);
      WithoutMeaning(order, b);
      UnlinkNode(b);
      InFront(buf[..], Without(order, b), nbuf, b);
      LinkFront(b);
      order := [b] + Without(order, b);
      assert forall i :: 0 <= i < nbuf ==> BufOf(buf[i]) == BufOf(old(buf[i]));
    }

    method UnlinkNode(b: nat)
      requires b < buf.Length && buf[b].next < buf.Length && buf[b].prev < buf.Length
      modifies buf
      ensures buf[..] == Unlink(old(buf[..]), b)
      ensures forall i :: 0 <= i < buf.Length ==> BufOf(buf[i]) == BufOf(old(buf[i]))
    {
      var p, n := buf[b].prev, buf[b].next;
      buf[n] := buf[n].(prev := p);
      buf[p] := buf[p].(next := n);
    }

    method LinkFront(b: nat)
      requires b < nbuf < buf.Length && buf[nbuf].next < buf.Length
      modifies buf
      ensures buf[..] == PushFront(old(buf[..]), b, nbuf)
      ensures forall i :: 0 <= i < buf.Length ==> BufOf(buf[i]) == BufOf(old(buf[i]))
    {
      var f := buf[nbuf].next;
      buf[b] := buf[b].(next := f, prev := nbuf);
      buf[f] := buf[f].(prev := b);
      buf[nbuf] := buf[nbuf].(next := b);
    }

    method Bpin(b: nat)
      requires Valid() && b < nbuf
      modifies buf
      ensures Valid()
      ensures var v := old(View());
              View() == v.(bufs := v.bufs[b := v.bufs[b].(refcnt := v.bufs[b].refcnt + 1)])
    {
      Update(b, BufOf(buf[b]).(refcnt := buf[b].refcnt + 1));
    }

    method Bunpin(b: nat)
      requires Valid() && b < nbuf && View().bufs[b].refcnt > 0
      modifies buf
      ensures Valid()
      ensures var v := old(View());
              View() == v.(bufs := v.bufs[b := v.bufs[b].(refcnt := v.bufs[b].refcnt - 1)])
    {
      Update(b, BufOf(buf[b]).(refcnt := buf[b].refcnt - 1));
    }
  }

  lemma LinksOnly(nodes: seq<Node>, nodes': seq<Node>, order: seq<nat>, head: nat)
    requires Linked(nodes, order, head) && |nodes'| == |nodes|
    requires forall i :: 0 <= i < |nodes| ==> nodes'[i].next == nodes[i].next && nodes'[i].prev == nodes[i].prev
    ensures Linked(nodes', order, head)
  {}

  lemma InFront(nodes: seq<Node>, order: seq<nat>, head: nat, b: nat)
    requires Linked(nodes, order, head) && Distinct(order) && b !in order && b < head
    ensures nodes[head].next < |nodes| && Linked(PushFront(nodes, b, head), [b] + order, head)
  {
    assert head !in order;
    PushFrontKeeps(nodes, order, head, b);
  }

  lemma FreshRing(n: nat)
    ensures RingOk(FreshCache(n))
  {
    var c := FreshCache(n);
    forall i | 0 <= i < n ensures i in c.order {
      assert c.order[n - 1 - i] == i;
    }
  }
}
