/** malloc, free and morecore of user/umalloc.c: headers linked in place. */
module Umalloc {
  import opened Blocks
  import opened FreeList

  /** sizeof(Header) */
  const HEADER: nat := 16

  // ----- the headers and the list they stand for

  /** Node i of the list: base, then the blocks. */
  ghost function Node(base: nat, fs: seq<Chunk>, i: int): nat
    requires 0 <= i <= |fs|
  {
    if i == 0 then base else fs[i - 1].addr
  }

  /** What node i points to. */
  ghost function Next(base: nat, fs: seq<Chunk>, i: int): nat
    requires 0 <= i <= |fs|
  {
    if i < |fs| then fs[i].addr else base
  }

  /** The headers form one cycle through base and the blocks in order. */
  ghost predicate Linked(base: nat, ptr: map<nat, nat>, fs: seq<Chunk>) {
    forall i :: 0 <= i <= |fs| ==> Node(base, fs, i) in ptr && ptr[Node(base, fs, i)] == Next(base, fs, i)
  }

  /** The headers hold the block sizes; base is empty and below every block. */
  ghost predicate Sized(base: nat, size: map<nat, nat>, fs: seq<Chunk>) {
    && base in size && size[base] == 0
    && (forall b :: b in fs ==> base < b.addr && b.addr in size && size[b.addr] == b.len)
  }

  lemma NodesDiffer(base: nat, size: map<nat, nat>, fs: seq<Chunk>)
    requires Sized(base, size, fs) && Ordered(fs)
    ensures forall i, j :: 0 <= i < j <= |fs| ==> Node(base, fs, i) < Node(base, fs, j)
  {
    assert forall i :: 0 <= i < |fs| ==> fs[i] in fs;
  }

  lemma LinkInsert(base: nat, ptr: map<nat, nat>, size: map<nat, nat>, fs: seq<Chunk>, t: nat, b: Chunk)
    requires Linked(base, ptr, fs) && Sized(base, size, fs) && Ordered(fs) && InGap(fs, t, b) && base < b.addr
    ensures Linked(base, ptr[b.addr := Next(base, fs, t)][Node(base, fs, t) := b.addr], Inserted(fs, t, b))
  {
    var gs := Inserted(fs, t, b);
    var ptr' := ptr[b.addr := Next(base, fs, t)][Node(base, fs, t) := b.addr];
    Around(fs, t, b);
    NodesDiffer(base, size, fs);
    assert forall i :: 0 <= i <= |fs| ==> Node(base, fs, i) != b.addr;
    assert |gs| == |fs| + 1;
    hide Ordered, InGap, Sized, Node, Next, Inserted;
    forall i | 0 <= i <= |gs| ensures Node(base, gs, i) in ptr' && ptr'[Node(base, gs, i)] == Next(base, gs, i) {
      InsertedNode(base, fs, t, b, i);
    }
  }

  lemma InsertedNode(base: nat, fs: seq<Chunk>, t: nat, b: Chunk, i: nat)
    requires t <= |fs| && i <= |fs| + 1
    ensures Node(base, Inserted(fs, t, b), i) == if i <= t then Node(base, fs, i) else if i == t + 1 then b.addr
            else Node(base, fs, i - 1)
    ensures Next(base, Inserted(fs, t, b), i) == if i < t then Next(base, fs, i) else if i == t then b.addr
            else Next(base, fs, i - 1)
  {}

  lemma SizeInsert(base: nat, size: map<nat, nat>, fs: seq<Chunk>, t: nat, b: Chunk)
    requires Sized(base, size, fs) && t <= |fs| && base < b.addr && b.addr in size && size[b.addr] == b.len
    ensures Sized(base, size, Inserted(fs, t, b))
  {}

  lemma LinkMerge(base: nat, ptr: map<nat, nat>, size: map<nat, nat>, fs: seq<Chunk>, i: nat)
    requires Linked(base, ptr, fs) && Sized(base, size, fs) && Ordered(fs) && Touch(fs, i)
    ensures fs[i + 1].addr in ptr && Linked(base, ptr[fs[i].addr := ptr[fs[i + 1].addr]], Merged(fs, i))
  {
    var gs := Merged(fs, i);
    NodesDiffer(base, size, fs);
    hide Ordered, Sized;
    assert Node(base, fs, i + 2) == fs[i + 1].addr;
    var ptr' := ptr[fs[i].addr := ptr[fs[i + 1].addr]];
    forall j | 0 <= j <= |gs| ensures Node(base, gs, j) in ptr' && ptr'[Node(base, gs, j)] == Next(base, gs, j) {
      var l := if j <= i + 1 then j else j + 1;
      assert Node(base, gs, j) == Node(base, fs, l);
      assert j == i + 1 || Next(base, gs, j) == Next(base, fs, l);
    }
  }

  lemma SizeMerge(base: nat, size: map<nat, nat>, fs: seq<Chunk>, i: nat)
    requires Sized(base, size, fs) && Ordered(fs) && Touch(fs, i)
    ensures Sized(base, size[fs[i].addr := fs[i].len + fs[i + 1].len], Merged(fs, i))
  {
    var gs := Merged(fs, i);
    assert fs[i] in fs && fs[i + 1] in fs;
    forall b | b in gs && b.addr != fs[i].addr ensures b in fs {}
    forall j | 0 <= j < |gs| && j != i ensures gs[j].addr != fs[i].addr {
      assert gs[j] == fs[if j < i then j else j + 1];
    }
  }

  // ----- free blocks, live blocks and the memory from sbrk

  /** Unit u is in an allocated block; live maps the header of each to its length. */
  ghost predicate IsLive(live: map<nat, nat>, u: int) {
    exists a :: a in live && a <= u < a + live[a]
  }

  /** Allocated blocks do not overlap and their headers hold their lengths. */
  ghost predicate LiveOk(base: nat, size: map<nat, nat>, live: map<nat, nat>) {
    && (forall a :: a in live ==> base < a && live[a] > 0 && a in size && size[a] == live[a])
    && (forall a, b :: a in live && b in live && a < b ==> a + live[a] <= b)
  }

  /** Every unit obtained from sbrk is in a free block or in an allocated one, and not in both. */
  ghost predicate Balanced(fs: seq<Chunk>, live: map<nat, nat>, arena: set<int>) {
    forall u :: (u in arena <==> IsFree(fs, u) || IsLive(live, u)) && !(IsFree(fs, u) && IsLive(live, u))
  }

  ghost predicate IsNode(base: nat, fs: seq<Chunk>, a: nat) {
    exists i :: 0 <= i <= |fs| && Node(base, fs, i) == a
  }

  ghost predicate Sound(base: nat, at: nat, ptr: map<nat, nat>, size: map<nat, nat>, fs: seq<Chunk>, live: map<nat,
                        nat>, arena: set<int>) {
    && Linked(base, ptr, fs) && Sized(base, size, fs) && Separated(fs) && IsNode(base, fs, at)
    && LiveOk(base, size, live) && Balanced(fs, live, arena)
  }

  /** A block none of whose units is free falls in a gap of the list. */
  lemma FindGap(fs: seq<Chunk>, b: Chunk) returns (t: nat)
    requires Ordered(fs) && b.len > 0 && forall u :: b.Has(u) ==> !IsFree(fs, u)
    ensures InGap(fs, t, b)
  {
    t := 0;
    while t < |fs| && fs[t].addr < b.addr
      invariant t <= |fs| && (t > 0 ==> fs[t - 1].addr < b.addr)
    {
      t := t + 1;
    }
    assert b.Has(b.addr);
    if t > 0 { assert fs[t - 1].Has(b.addr) ==> IsFree(fs, b.addr); }
    if t < |fs| { assert fs[t].Has(fs[t].addr) && IsFree(fs, fs[t].addr); }
  }

  lemma LiveGap(base: nat, at: nat, ptr: map<nat, nat>, size: map<nat, nat>, fs: seq<Chunk>, live: map<nat, nat>,
                arena: set<int>, bp: nat) returns (t: nat)
    requires Sound(base, at, ptr, size, fs, live, arena) && bp in live
    ensures InGap(fs, t, Chunk(bp, live[bp])) && base < bp
  {
    var b := Chunk(bp, live[bp]);
    forall u | b.Has(u) ensures !IsFree(fs, u) {
      assert IsLive(live, u);
    }
    t := FindGap(fs, b);
  }

  /** The block touches the next one exactly when the code's comparison says so; likewise the
      previous one. */
  lemma TouchNext(base: nat, size: map<nat, nat>, fs: seq<Chunk>, t: nat, b: Chunk)
    requires Sized(base, size, fs) && InGap(fs, t, b) && base < b.addr
    ensures Touch(Inserted(fs, t, b), t) <==> b.End() == Next(base, fs, t)
    ensures t < |fs| ==> Inserted(fs, t, b)[t + 1] == fs[t]
  {}

  lemma TouchPrev(base: nat, size: map<nat, nat>, fs: seq<Chunk>, t: nat, b: Chunk, f2: seq<Chunk>, size': map<nat,
                  nat>)
    requires Sized(base, size, fs) && InGap(fs, t, b) && base < b.addr && f2 == Joined(Inserted(fs, t, b), t)
    requires Sized(base, size', f2)
    ensures |f2| > t && f2[t].addr == b.addr && (t > 0 ==> f2[t - 1] == fs[t - 1])
    ensures Node(base, fs, t) in size' && (Touch(f2, t - 1) <==> Node(base, fs, t) + size'[Node(base, fs, t)] == b.addr)
  {
    if t > 0 { assert f2[t - 1] in f2; }
  }

  lemma FirstNode(base: nat, at: nat, ptr: map<nat, nat>, size: map<nat, nat>, fs: seq<Chunk>, live: map<nat, nat>,
                  arena: set<int>) returns (i: nat)
    requires Sound(base, at, ptr, size, fs, live, arena)
    ensures i <= |fs| && Node(base, fs, i) == at && Linked(base, ptr, fs) && Sized(base, size, fs) && Ordered(fs)
  {
    i :| i <= |fs| && Node(base, fs, i) == at;
  }

  lemma NodeAt(base: nat, ptr: map<nat, nat>, fs: seq<Chunk>, i: nat)
    requires Linked(base, ptr, fs) && i <= |fs|
    ensures Node(base, fs, i) in ptr && ptr[Node(base, fs, i)] == Next(base, fs, i)
  {}

  lemma NextNode(base: nat, fs: seq<Chunk>, i: nat)
    requires i <= |fs|
    ensures Next(base, fs, i) == Node(base, fs, if i < |fs| then i + 1 else 0)
  {}

  lemma GapBound(fs: seq<Chunk>, t: nat, b: Chunk)
    requires InGap(fs, t, b)
    ensures t <= |fs|
  {}

  /** free's search stops at a node exactly when the block belongs after it. */
  lemma SlotHere(base: nat, size: map<nat, nat>, fs: seq<Chunk>, t: nat, b: Chunk, i: nat)
    requires Sized(base, size, fs) && Ordered(fs) && InGap(fs, t, b) && base < b.addr && i <= |fs|
    ensures var p, q := Node(base, fs, i), Next(base, fs, i);
            t <= |fs| && (i == t <==> (b.addr > p && b.addr < q) || (p >= q && (b.addr > p || b.addr < q)))
  {
    Around(fs, t, b);
    NodesDiffer(base, size, fs);
    NextNode(base, fs, i);
    hide Ordered, InGap;
  }

  lemma LiveHead(base: nat, size: map<nat, nat>, live: map<nat, nat>, bp: nat)
    requires LiveOk(base, size, live) && bp in live
    ensures bp in size && size[bp] == live[bp] && base < bp
  {}

  lemma Opened(base: nat, ptr: map<nat, nat>, size: map<nat, nat>, fs: seq<Chunk>, t: nat, b: Chunk)
    requires Linked(base, ptr, fs) && Sized(base, size, fs) && Separated(fs) && InGap(fs, t, b)
    requires base < b.addr && b.addr in size && size[b.addr] == b.len
    ensures t <= |fs| && Ordered(fs) && Ordered(Inserted(fs, t, b)) && Sized(base, size, Inserted(fs, t, b))
    ensures Linked(base, ptr[b.addr := Next(base, fs, t)][Node(base, fs, t) := b.addr], Inserted(fs, t, b))
    ensures Node(base, fs, t) in ptr && ptr[Node(base, fs, t)] == Next(base, fs, t) && Node(base, fs, t) in size
    ensures Touch(Inserted(fs, t, b), t) <==> b.End() == Next(base, fs, t)
    ensures |Inserted(fs, t, b)| == |fs| + 1 && Inserted(fs, t, b)[t] == b
    ensures IsNode(base, fs, Node(base, fs, t))
  {
    InsertOrdered(fs, t, b);
    LinkInsert(base, ptr, size, fs, t, b);
    SizeInsert(base, size, fs, t, b);
    TouchNext(base, size, fs, t, b);
    NodeAt(base, ptr, fs, t);
    if t > 0 { assert fs[t - 1] in fs; }
  }

  /** The next block's header is not one that the insertion wrote. */
  lemma MergedPtr(base: nat, ptr: map<nat, nat>, size: map<nat, nat>, fs: seq<Chunk>, t: nat, b: Chunk)
    requires Linked(base, ptr, fs) && Sized(base, size, fs) && Ordered(fs) && InGap(fs, t, b) && base < b.addr
    requires b.End() == Next(base, fs, t)
    ensures t < |fs| && Inserted(fs, t, b)[t + 1] == fs[t] && Next(base, fs, t) == fs[t].addr && fs[t].addr in ptr
    ensures fs[t].addr != b.addr && fs[t].addr != Node(base, fs, t) && fs[t].addr in size
    ensures size[fs[t].addr] == fs[t].len
  {
    NodesDiffer(base, size, fs);
    assert t < |fs| && Node(base, fs, t + 1) == fs[t].addr && fs[t] in fs;
  }

  /** free's first if: the headers are those of the list with the block in, merged with the next one
      when they touch, but for the pointer to the block. */
  lemma NextStage(base: nat, ptr: map<nat, nat>, size: map<nat, nat>, fs: seq<Chunk>, t: nat, b: Chunk, ptr': map<nat,
                  nat>, size': map<nat, nat>)
    requires Linked(base, ptr, fs) && Sized(base, size, fs) && Separated(fs) && InGap(fs, t, b)
    requires base < b.addr && b.addr in size && size[b.addr] == b.len
    requires b.End() == Next(base, fs, t) ==> Next(base, fs, t) in ptr && Next(base, fs, t) in size
    requires ptr' == ptr[b.addr := if b.End() == Next(base, fs, t) then ptr[Next(base, fs, t)] else Next(base, fs, t)]
    requires size' == if b.End() == Next(base, fs, t) then size[b.addr := b.len + size[Next(base, fs, t)]] else size
    ensures t <= |fs| && Ordered(Joined(Inserted(fs, t, b), t)) && Sized(base, size', Joined(Inserted(fs, t, b), t))
    ensures Linked(base, ptr'[Node(base, fs, t) := b.addr], Joined(Inserted(fs, t, b), t)) && b.addr in ptr'
    ensures b.addr in size'
  {
    hide Separated, InGap, Linked, Sized, Next, Node, Inserted, Merged, Touch, Ordered;
    Opened(base, ptr, size, fs, t, b);
    var f1, p := Inserted(fs, t, b), Node(base, fs, t);
    JoinKeeps(f1, t);
    if b.End() == Next(base, fs, t) {
      var ptr1 := ptr[b.addr := Next(base, fs, t)][p := b.addr];
      MergedPtr(base, ptr, size, fs, t, b);
      LinkMerge(base, ptr1, size, f1, t);
      SizeMerge(base, size, f1, t);
      assert ptr'[p := b.addr] == ptr1[b.addr := ptr1[f1[t + 1].addr]]
        by { assert p != b.addr by { NotNode(base, size, fs, t, b, t); } }
    }
  }

  lemma NotNode(base: nat, size: map<nat, nat>, fs: seq<Chunk>, t: nat, b: Chunk, i: nat)
    requires Sized(base, size, fs) && Ordered(fs) && InGap(fs, t, b) && base < b.addr && i <= |fs|
    ensures Node(base, fs, i) != b.addr
  {
    Around(fs, t, b);
  }

  /** free's second if: merged with the previous block when they touch. */
  lemma PrevStage(base: nat, fs: seq<Chunk>, t: nat, b: Chunk, f2: seq<Chunk>, ptr: map<nat, nat>, size: map<nat, nat>,
                  ptr': map<nat, nat>, size': map<nat, nat>)
    requires t < |f2| && t <= |fs| && f2[t].addr == b.addr && (t > 0 ==> f2[t - 1] == fs[t - 1]) && b.addr in ptr
    requires b.addr in size
    requires Linked(base, ptr[Node(base, fs, t) := b.addr], f2) && Sized(base, size, f2) && Ordered(f2)
    requires Node(base, fs, t) in size
    requires Touch(f2, t - 1) <==> Node(base, fs, t) + size[Node(base, fs, t)] == b.addr
    requires ptr' == ptr[Node(base, fs, t) := if Touch(f2, t - 1) then ptr[b.addr] else b.addr]
    requires size' == if Touch(f2, t - 1) then size[Node(base, fs, t) := size[Node(base, fs, t)] + size[b.addr]]
             else size
    ensures Linked(base, ptr', Joined(f2, t - 1)) && Sized(base, size', Joined(f2, t - 1))
    ensures IsNode(base, Joined(f2, t - 1), Node(base, fs, t))
  {
    var p, f3 := Node(base, fs, t), Joined(f2, t - 1);
    assert Node(base, f2, t) == p && Node(base, f3, t) == p;
    if Touch(f2, t - 1) {
      var ptr1 := ptr[p := b.addr];
      assert f2[t - 1] in f2 && f2[t] in f2;
      LinkMerge(base, ptr1, size, f2, t - 1);
      SizeMerge(base, size, f2, t - 1);
      hide Linked, Sized, Ordered, Merged;
      assert f2[t - 1].addr == p && p != b.addr;
      assert ptr' == ptr1[f2[t - 1].addr := ptr1[f2[t].addr]];
    }
  }

  /** What free does to the accounts. */
  lemma FreeBalance(base: nat, size: map<nat, nat>, size': map<nat, nat>, fs: seq<Chunk>, live: map<nat, nat>,
                    arena: set<int>, t: nat, bp: nat, p: nat)
    requires Separated(fs) && Sized(base, size, fs) && LiveOk(base, size, live) && Balanced(fs, live, arena)
    requires bp in live
    requires InGap(fs, t, Chunk(bp, live[bp])) && IsNode(base, fs, p)
    requires forall a :: a in size && a != bp && a != p ==> a in size' && size'[a] == size[a]
    ensures LiveOk(base, size', live - {bp}) && Separated(Coalesced(fs, t, Chunk(bp, live[bp])))
    ensures Balanced(Coalesced(fs, t, Chunk(bp, live[bp])), live - {bp}, arena)
  {
    var b := Chunk(bp, live[bp]);
    Coalesce(fs, t, b);
    NodeNotLive(base, size, fs, live, arena, p);
    LiveWithout(base, size, live, bp);
    hide Separated, IsFree, IsLive, Sized, InGap, Coalesced, IsNode;
  }

  lemma NodeNotLive(base: nat, size: map<nat, nat>, fs: seq<Chunk>, live: map<nat, nat>, arena: set<int>, p: nat)
    requires Ordered(fs) && Sized(base, size, fs) && LiveOk(base, size, live) && Balanced(fs, live, arena)
    requires IsNode(base, fs, p)
    ensures p !in live
  {
    if p != base {
      var i :| 0 <= i <= |fs| && Node(base, fs, i) == p;
      assert fs[i - 1] in fs && fs[i - 1].Has(p);
      assert IsFree(fs, p);
    }
  }

  lemma LiveWithout(base: nat, size: map<nat, nat>, live: map<nat, nat>, bp: nat)
    requires LiveOk(base, size, live) && bp in live
    ensures forall u :: IsLive(live - {bp}, u) <==> IsLive(live, u) && !Chunk(bp, live[bp]).Has(u)
    ensures forall u :: Chunk(bp, live[bp]).Has(u) ==> IsLive(live, u)
  {
    forall u ensures IsLive(live - {bp}, u) <==> IsLive(live, u) && !Chunk(bp, live[bp]).Has(u) {
      if IsLive(live, u) && !Chunk(bp, live[bp]).Has(u) {
        var a :| a in live && a <= u < a + live[a];
        assert a in live - {bp};
      }
    }
  }

  // ----- malloc

  /** The units of a request: its bytes rounded up, and the header. */
  function Units(nbytes: nat): (n: nat)
    ensures n > 0 && (n - 1) * HEADER >= nbytes && (nbytes > 0 ==> (n - 2) * HEADER < nbytes)
    ensures (nbytes == 0 ==> n == 1)
  {
    (nbytes + HEADER - 1) / HEADER + 1
  }

  /** What morecore asks sbrk for. */
  function Grain(nu: nat): nat { if nu < 4096 then 4096 else nu }

  ghost predicate Fits(fs: seq<Chunk>, n: nat) {
    exists b :: b in fs && b.len >= n
  }

  ghost function UnitsOf(c: Chunk): set<int> {
    set u: int | c.addr <= u < c.End() && c.Has(u)
  }

  /** The node s steps after node f. */
  ghost function Cyc(n: nat, f: nat, s: nat): (i: nat)
    requires f <= n && s <= n + 1
    ensures i <= n
  {
    if f + s <= n then f + s else f + s - (n + 1)
  }

  /** The s nodes after node f are too small. */
  ghost predicate Small(fs: seq<Chunk>, f: nat, s: nat, n: nat) {
    && f <= |fs| && s <= |fs| + 1
    && forall j: nat :: 1 <= j <= s ==> Cyc(|fs|, f, j) == 0 || fs[Cyc(|fs|, f, j) - 1].len < n
  }

  /** Once round the list: nothing fits. */
  lemma AllSmall(fs: seq<Chunk>, f: nat, n: nat)
    requires f <= |fs| && Small(fs, f, |fs| + 1, n)
    ensures !Fits(fs, n)
  {
    forall b | b in fs ensures b.len < n {
      var k :| 0 <= k < |fs| && fs[k] == b;
      var j: nat := if k + 1 > f then k + 1 - f else k + 1 + |fs| + 1 - f;
      assert Cyc(|fs|, f, j) == k + 1;
    }
  }

  ghost function Removed(fs: seq<Chunk>, i: nat): seq<Chunk>
    requires i < |fs|
  {
    fs[..i] + fs[i + 1..]
  }

  lemma RemoveList(base: nat, ptr: map<nat, nat>, size: map<nat, nat>, fs: seq<Chunk>, i: nat)
    requires Linked(base, ptr, fs) && Sized(base, size, fs) && Separated(fs) && i < |fs|
    ensures fs[i].addr in ptr && Linked(base, ptr[Node(base, fs, i) := ptr[fs[i].addr]], Removed(fs, i))
    ensures Sized(base, size, Removed(fs, i)) && Separated(Removed(fs, i))
    ensures IsNode(base, Removed(fs, i), Node(base, fs, i))
  {
    var gs := Removed(fs, i);
    NodesDiffer(base, size, fs);
    RemoveSeparated(fs, i);
    RemovedNode(base, fs, i, i);
    assert Node(base, fs, i + 1) == fs[i].addr;
    RemoveLinks(base, ptr, fs, i);
  }

  lemma RemoveLinks(base: nat, ptr: map<nat, nat>, fs: seq<Chunk>, i: nat)
    requires Linked(base, ptr, fs) && i < |fs|
    requires forall j, l :: 0 <= j < l <= |fs| ==> Node(base, fs, j) < Node(base, fs, l)
    ensures fs[i].addr in ptr && Linked(base, ptr[Node(base, fs, i) := ptr[fs[i].addr]], Removed(fs, i))
  {
    var gs := Removed(fs, i);
    assert |gs| == |fs| - 1;
    assert Node(base, fs, i + 1) == fs[i].addr;
    hide Node, Next, Removed;
    var ptr' := ptr[Node(base, fs, i) := ptr[fs[i].addr]];
    forall j | 0 <= j <= |gs| ensures Node(base, gs, j) in ptr' && ptr'[Node(base, gs, j)] == Next(base, gs, j) {
      RemovedNode(base, fs, i, j);
    }
  }

  lemma RemovedNode(base: nat, fs: seq<Chunk>, i: nat, j: nat)
    requires i < |fs| && j < |fs|
    ensures Node(base, Removed(fs, i), j) == Node(base, fs, if j <= i then j else j + 1)
    ensures Next(base, Removed(fs, i), j) == Next(base, fs, if j < i then j else j + 1)
  {}

  lemma RemoveSeparated(fs: seq<Chunk>, i: nat)
    requires Separated(fs) && i < |fs|
    ensures Separated(Removed(fs, i))
  {
    var gs := Removed(fs, i);
    assert forall j :: 0 <= j < |gs| ==> gs[j] == fs[if j < i then j else j + 1];
    forall j ensures !Touch(gs, j) {
      assert !Touch(fs, if j < i then j else j + 1);
      if 0 <= j < |gs| - 1 && j == i - 1 {
        assert fs[i - 1].End() <= fs[i].addr && fs[i].End() <= fs[i + 1].addr;
      }
    }
  }

  lemma RemoveFree(fs: seq<Chunk>, i: nat)
    requires Ordered(fs) && i < |fs|
    ensures forall u :: IsFree(Removed(fs, i), u) <==> IsFree(fs, u) && !fs[i].Has(u)
    ensures forall u :: fs[i].Has(u) ==> IsFree(fs, u)
  {
    var gs := Removed(fs, i);
    assert fs == fs[..i] + [fs[i]] + fs[i + 1..];
    forall b | b in gs ensures b.End() <= fs[i].addr || fs[i].End() <= b.addr {
      var j :| 0 <= j < |gs| && gs[j] == b;
      assert b == fs[if j < i then j else j + 1];
    }
    forall u ensures IsFree(gs, u) <==> IsFree(fs, u) && !fs[i].Has(u) {
      if IsFree(gs, u) {
        var b :| b in gs && b.Has(u);
        assert b in fs;
      }
      if IsFree(fs, u) && !fs[i].Has(u) {
        var b :| b in fs && b.Has(u);
        assert b in gs;
      }
    }
    assert fs[i] in fs;
  }

  /** The block without its last n units. */
  ghost function Cut(fs: seq<Chunk>, i: nat, n: nat): seq<Chunk>
    requires i < |fs| && n < fs[i].len
  {
    fs[i := Chunk(fs[i].addr, fs[i].len - n)]
  }

  lemma CutList(base: nat, ptr: map<nat, nat>, size: map<nat, nat>, fs: seq<Chunk>, i: nat, n: nat)
    requires Linked(base, ptr, fs) && Sized(base, size, fs) && Separated(fs) && i < |fs| && 0 < n < fs[i].len
    ensures Linked(base, ptr, Cut(fs, i, n)) && Separated(Cut(fs, i, n))
    ensures forall j :: 0 <= j <= |fs| ==> Node(base, Cut(fs, i, n), j) == Node(base, fs, j)
    ensures Sized(base, size[fs[i].addr := fs[i].len - n][fs[i].End() - n := n], Cut(fs, i, n))
  {
    var gs := Cut(fs, i, n);
    forall j ensures !Touch(gs, j) { assert !Touch(fs, j); }
    assert forall j :: 0 <= j <= |fs| ==>
      Node(base, gs, j) == Node(base, fs, j) && Next(base, gs, j) == Next(base, fs, j);
    CutSized(base, size, fs, i, n);
  }

  lemma CutSized(base: nat, size: map<nat, nat>, fs: seq<Chunk>, i: nat, n: nat)
    requires Sized(base, size, fs) && Ordered(fs) && i < |fs| && 0 < n < fs[i].len
    ensures Sized(base, size[fs[i].addr := fs[i].len - n][fs[i].End() - n := n], Cut(fs, i, n))
  {
    var gs := Cut(fs, i, n);
    assert fs[i] in fs;
    forall b | b in gs ensures b.addr != fs[i].End() - n && base < b.addr && b.addr in size
      && (b.addr != fs[i].addr ==> size[b.addr] == b.len)
      && (b.addr == fs[i].addr ==> b.len == fs[i].len - n)
    {
      var j :| 0 <= j < |gs| && gs[j] == b;
      assert fs[j] in fs;
      if j < i { assert fs[j].End() <= fs[i].addr; }
      if j > i { assert fs[i].End() <= fs[j].addr; }
    }
  }

  lemma CutFree(fs: seq<Chunk>, i: nat, n: nat)
    requires Ordered(fs) && i < |fs| && 0 < n < fs[i].len
    ensures var h := Chunk(fs[i].End() - n, n);
            && (forall u :: IsFree(Cut(fs, i, n), u) <==> IsFree(fs, u) && !h.Has(u))
            && forall u :: h.Has(u) ==> IsFree(fs, u)
  {
    var gs, h, c := Cut(fs, i, n), Chunk(fs[i].End() - n, n), Chunk(fs[i].addr, fs[i].len - n);
    RemoveFree(fs, i);
    assert gs == fs[..i] + [c] + fs[i + 1..];
    assert Removed(fs, i) == fs[..i] + fs[i + 1..];
    forall u ensures IsFree(gs, u) <==> IsFree(Removed(fs, i), u) || c.Has(u) {
      assert c in gs;
    }
  }

  /** What malloc does to the accounts. */
  lemma TakeBalance(base: nat, size: map<nat, nat>, size': map<nat, nat>, fs: seq<Chunk>, gs: seq<Chunk>, live: map<nat,
                    nat>, arena: set<int>, p: nat, h: Chunk)
    requires Balanced(fs, live, arena) && LiveOk(base, size, live) && h.len > 0 && base < h.addr && IsFree(fs, p)
    requires forall u :: IsFree(gs, u) <==> IsFree(fs, u) && !h.Has(u)
    requires forall u :: h.Has(u) ==> IsFree(fs, u)
    requires h.addr in size' && size'[h.addr] == h.len
    requires forall a :: a in size && a != h.addr && a != p ==> a in size' && size'[a] == size[a]
    ensures h.addr !in live && LiveOk(base, size', live[h.addr := h.len]) && Balanced(gs, live[h.addr := h.len], arena)
  {
    TakeLive(base, size, fs, live, arena, p, h);
    LiveAdd(base, size, size', live, h, p);
    LiveWith(live, h);
    hide IsFree, IsLive, LiveOk;
  }

  lemma TakeLive(base: nat, size: map<nat, nat>, fs: seq<Chunk>, live: map<nat, nat>, arena: set<int>, p: nat, h: Chunk)
    requires Balanced(fs, live, arena) && LiveOk(base, size, live) && h.len > 0 && IsFree(fs, p)
    requires forall u :: h.Has(u) ==> IsFree(fs, u)
    ensures p !in live && Clear(live, h)
  {
    LiveIsLive(base, size, live);
    hide IsFree, LiveOk, IsLive;
    ClearOf(live, h);
  }

  /** No allocated block overlaps h. */
  ghost predicate Clear(live: map<nat, nat>, h: Chunk) {
    forall a :: a in live ==> a != h.addr && if a < h.addr then a + live[a] <= h.addr else h.End() <= a
  }

  lemma ClearOf(live: map<nat, nat>, h: Chunk)
    requires h.len > 0 && (forall a :: a in live ==> IsLive(live, a)) && forall u :: h.Has(u) ==> !IsLive(live, u)
    ensures Clear(live, h)
  {
    assert h.Has(h.addr);
    forall a | a in live ensures a != h.addr && if a < h.addr then a + live[a] <= h.addr else h.End() <= a {
      assert !h.Has(a) by { assert IsLive(live, a); }
      assert !(a <= h.addr < a + live[a]) by { assert !IsLive(live, h.addr); }
    }
  }

  lemma LiveAdd(base: nat, size: map<nat, nat>, size': map<nat, nat>, live: map<nat, nat>, h: Chunk, p: nat)
    requires LiveOk(base, size, live) && Clear(live, h) && p !in live && base < h.addr && h.len > 0
    requires h.addr in size' && size'[h.addr] == h.len
    requires forall a :: a in size && a != h.addr && a != p ==> a in size' && size'[a] == size[a]
    ensures LiveOk(base, size', live[h.addr := h.len])
  {}

  lemma LiveIsLive(base: nat, size: map<nat, nat>, live: map<nat, nat>)
    requires LiveOk(base, size, live)
    ensures forall a :: a in live ==> IsLive(live, a)
  {}

  lemma LiveWith(live: map<nat, nat>, h: Chunk)
    requires h.addr !in live
    ensures forall u :: IsLive(live[h.addr := h.len], u) <==> IsLive(live, u) || h.Has(u)
  {
    var l := live[h.addr := h.len];
    forall u ensures IsLive(l, u) <==> IsLive(live, u) || h.Has(u) {
      if IsLive(live, u) {
        var a :| a in live && a <= u < a + live[a];
        assert a in l && l[a] == live[a];
      }
      if h.Has(u) { assert h.addr in l; }
    }
  }

  /** A chunk from sbrk, seen as an allocated block about to be freed. */
  lemma NewBlock(base: nat, at: nat, ptr: map<nat, nat>, size: map<nat, nat>, fs: seq<Chunk>, live: map<nat, nat>,
                 arena: set<int>, c: Chunk)
    requires Sound(base, at, ptr, size, fs, live, arena) && base < c.addr && c.len > 0
    requires forall u :: c.addr <= u < c.End() ==> u !in arena
    ensures c.addr !in live
    ensures Sound(base, at, ptr, size[c.addr := c.len], fs, live[c.addr := c.len], arena + UnitsOf(c))
    ensures live[c.addr := c.len] - {c.addr} == live
  {
    assert c.Has(c.addr);
    NewSized(base, size, fs, arena, live, c);
    NewLive(base, size, live, arena, fs, c);
    LiveWith(live, c);
    hide IsFree, IsLive, LiveOk, Sized, Separated, Linked, IsNode;
    NewBalance(fs, live, arena, c);
    assert live[c.addr := c.len] - {c.addr} == live;
  }

  lemma NewBalance(fs: seq<Chunk>, live: map<nat, nat>, arena: set<int>, c: Chunk)
    requires Balanced(fs, live, arena) && c.addr !in live && forall u :: c.addr <= u < c.End() ==> u !in arena
    ensures Balanced(fs, live[c.addr := c.len], arena + UnitsOf(c))
  {
    LiveWith(live, c);
    hide IsFree, IsLive;
    forall u ensures u in UnitsOf(c) <==> c.Has(u) {}
  }

  lemma NewSized(base: nat, size: map<nat, nat>, fs: seq<Chunk>, arena: set<int>, live: map<nat, nat>, c: Chunk)
    requires Sized(base, size, fs) && Ordered(fs) && Balanced(fs, live, arena) && base < c.addr && c.addr !in arena
    ensures Sized(base, size[c.addr := c.len], fs)
  {
    forall b | b in fs ensures b.addr != c.addr {
      assert b.Has(b.addr);
      assert IsFree(fs, b.addr);
    }
  }

  lemma NewLive(base: nat, size: map<nat, nat>, live: map<nat, nat>, arena: set<int>, fs: seq<Chunk>, c: Chunk)
    requires LiveOk(base, size, live) && Balanced(fs, live, arena) && base < c.addr && c.len > 0
    requires forall u :: c.addr <= u < c.End() ==> u !in arena
    ensures c.addr !in live && LiveOk(base, size[c.addr := c.len], live[c.addr := c.len])
  {
    LiveIsLive(base, size, live);
    assert forall u :: c.Has(u) ==> !IsLive(live, u);
    ClearOf(live, c);
    LiveAdd(base, size, size[c.addr := c.len], live, c, c.addr);
  }

  lemma GrownFits(fs0: seq<Chunk>, fs: seq<Chunk>, live: map<nat, nat>, arena: set<int>, c: Chunk)
    requires Balanced(fs0, live, arena) && Separated(fs) && Balanced(fs, live, arena + UnitsOf(c)) && c.len > 0
    requires forall u :: c.addr <= u < c.End() ==> u !in arena
    ensures Fits(fs, c.len)
  {
    forall u | c.addr <= u < c.addr + c.len ensures IsFree(fs, u) {
      assert c.Has(u);
      assert u in arena + UnitsOf(c);
    }
    RunInBlock(fs, c.addr, c.len);
  }

  lemma BigEnough(fs: seq<Chunk>, n: nat, nu: nat)
    requires Fits(fs, n) && nu <= n
    ensures Fits(fs, nu)
  {}

  lemma TakeFacts(base: nat, at: nat, ptr: map<nat, nat>, size: map<nat, nat>, fs: seq<Chunk>, live: map<nat, nat>,
                  arena: set<int>, i: nat)
    requires Sound(base, at, ptr, size, fs, live, arena) && i < |fs|
    ensures Ordered(fs) && base < fs[i].addr && fs[i].addr in size && size[fs[i].addr] == fs[i].len && fs[i].len > 0
    ensures fs[i].addr in ptr
    ensures IsFree(fs, fs[i].addr)
  {
    assert fs[i] in fs && fs[i].Has(fs[i].addr);
    assert Node(base, fs, i + 1) == fs[i].addr;
  }

  lemma CutNode(base: nat, fs: seq<Chunk>, i: nat, n: nat)
    requires i < |fs| && n < fs[i].len
    ensures IsNode(base, Cut(fs, i, n), Node(base, fs, i))
  {
    assert Node(base, Cut(fs, i, n), i) == Node(base, fs, i);
  }

  // ----- malloc's search

  lemma FreshStart(base: nat, ptr: map<nat, nat>, size: map<nat, nat>)
    requires base in ptr && ptr[base] == base && base in size && size[base] == 0
    ensures Sound(base, base, ptr, size, [], map[], {})
  {
    assert Node(base, [], 0) == base;
  }

  lemma StartSearch(base: nat, at: nat, ptr: map<nat, nat>, size: map<nat, nat>, fs: seq<Chunk>, live: map<nat, nat>,
                    arena: set<int>, n: nat) returns (f: nat)
    requires Sound(base, at, ptr, size, fs, live, arena)
    ensures f <= |fs| && Node(base, fs, f) == at && Small(fs, f, 0, n) && at in ptr
    ensures at == Node(base, fs, Cyc(|fs|, f, 0)) && ptr[at] == Node(base, fs, Cyc(|fs|, f, 1)) && ptr[at] in ptr
    ensures ptr[at] in size
  {
    f := FirstNode(base, at, ptr, size, fs, live, arena);
    NextStep(base, at, ptr, size, fs, live, arena, f, 0);
  }

  /** One step along the list from a node. */
  lemma NextStep(base: nat, at: nat, ptr: map<nat, nat>, size: map<nat, nat>, fs: seq<Chunk>, live: map<nat, nat>,
                 arena: set<int>, f: nat, s: nat)
    requires Sound(base, at, ptr, size, fs, live, arena) && f <= |fs| && s <= |fs|
    ensures Node(base, fs, Cyc(|fs|, f, s)) in ptr
    ensures ptr[Node(base, fs, Cyc(|fs|, f, s))] == Node(base, fs, Cyc(|fs|, f, s + 1))
    ensures Node(base, fs, Cyc(|fs|, f, s + 1)) in ptr && Node(base, fs, Cyc(|fs|, f, s + 1)) in size
  {
    var i, j := Cyc(|fs|, f, s), Cyc(|fs|, f, s + 1);
    NodeAt(base, ptr, fs, i);
    NodeAt(base, ptr, fs, j);
    NextNode(base, fs, i);
    if j > 0 { assert fs[j - 1] in fs; }
  }

  /** A node with enough units is a block, and the node before it in the search is the one before it
      in the list. */
  lemma Found(base: nat, at: nat, ptr: map<nat, nat>, size: map<nat, nat>, fs: seq<Chunk>, live: map<nat, nat>,
              arena: set<int>, f: nat, s: nat, n: nat) returns (i: nat)
    requires Sound(base, at, ptr, size, fs, live, arena) && f <= |fs| && s <= |fs| && n > 0
    requires Node(base, fs, Cyc(|fs|, f, s + 1)) in size && size[Node(base, fs, Cyc(|fs|, f, s + 1))] >= n
    ensures i < |fs| && Node(base, fs, Cyc(|fs|, f, s + 1)) == fs[i].addr
    ensures Node(base, fs, Cyc(|fs|, f, s)) == Node(base, fs, i) && Fits(fs, n)
  {
    var j := Cyc(|fs|, f, s + 1);
    i := j - 1;
    assert fs[i] in fs;
  }

  lemma TooSmall(base: nat, at: nat, ptr: map<nat, nat>, size: map<nat, nat>, fs: seq<Chunk>, live: map<nat, nat>,
                 arena: set<int>, f: nat, s: nat, n: nat)
    requires Sound(base, at, ptr, size, fs, live, arena) && f <= |fs| && s <= |fs| && Small(fs, f, s, n)
    requires Node(base, fs, Cyc(|fs|, f, s + 1)) in size && size[Node(base, fs, Cyc(|fs|, f, s + 1))] < n
    ensures Small(fs, f, s + 1, n) && (s == |fs| ==> Node(base, fs, Cyc(|fs|, f, s + 1)) == Node(base, fs, f))
  {
    var j := Cyc(|fs|, f, s + 1);
    if j > 0 { assert fs[j - 1] in fs; }
  }

  /** Back at freep, everything has been seen. */
  lemma RoundTrip(base: nat, at: nat, ptr: map<nat, nat>, size: map<nat, nat>, fs: seq<Chunk>, live: map<nat, nat>,
                  arena: set<int>, f: nat, s: nat, n: nat)
    requires Sound(base, at, ptr, size, fs, live, arena) && f <= |fs| && s <= |fs| && Small(fs, f, s + 1, n)
    requires Node(base, fs, f) == Node(base, fs, Cyc(|fs|, f, s + 1))
    ensures !Fits(fs, n)
  {
    NodesDiffer(base, size, fs);
    assert Cyc(|fs|, f, s + 1) == f;
    AllSmall(fs, f, n);
  }

  class Allocator {
    const base: nat
    var freep: Option<nat>
    var ptr: map<nat, nat>
    var size: map<nat, nat>
    ghost var fs: seq<Chunk>
    ghost var live: map<nat, nat>
    ghost var arena: set<int>

    ghost predicate Ready()
      reads this
    {
      freep.Some? && Sound(base, freep.value, ptr, size, fs, live, arena)
    }

    /** Before the first call of malloc there is nothing. */
    ghost predicate Valid()
      reads this
    {
      Ready() || (freep.None? && fs == [] && live == map[] && arena == {})
    }

    constructor (b: nat)
      ensures base == b && Valid() && live == map[] && arena == {}
    {
      base, freep, ptr, size := b, None, map[], map[];
      fs, live, arena := [], map[], {};
    }

    /** The search loop of free: it ends, at the node before the gap. */
    method Slot(bp: nat, ghost t: nat, ghost b: Chunk) returns (p: nat)
      requires Ready() && InGap(fs, t, b) && b.addr == bp && base < bp
      ensures p == Node(base, fs, t)
    {
      hide Sound, InGap, Linked, Node, Next;
      ghost var i := FirstNode(base, freep.value, ptr, size, fs, live, arena);
      p := freep.value;
      NodeAt(base, ptr, fs, i);
      SlotHere(base, size, fs, t, b, i);
      while !(bp > p && bp < ptr[p])
        invariant 0 <= i <= |fs| && p == Node(base, fs, i) && p in ptr && ptr[p] == Next(base, fs, i)
        invariant i == t <==> (bp > p && bp < ptr[p]) || (p >= ptr[p] && (bp > p || bp < ptr[p]))
        decreases if i <= t then t - i else t + |fs| + 1 - i
      {
        if p >= ptr[p] && (bp > p || bp < ptr[p]) {
          break;
        }
        p := ptr[p];
        NextNode(base, fs, i);
        i := if i < |fs| then i + 1 else 0;
        NodeAt(base, ptr, fs, i);
        SlotHere(base, size, fs, t, b, i);
      }
      GapBound(fs, t, b);
    }

    /** free: the block's units join the free units, merged with the neighbours it touches. */
    method Free(ap: nat)
      requires Ready() && ap > 0 && ap - 1 in live
      modifies this
      ensures Ready() && live == old(live) - {ap - 1} && arena == old(arena)
    {
      hide Separated, Balanced, LiveOk, InGap, Linked, Sized, Node, Next, Inserted, Merged, Touch, IsNode;
      var bp := ap - 1;
      ghost var b := Chunk(bp, live[bp]);
      ghost var t := LiveGap(base, freep.value, ptr, size, fs, live, arena, bp);
      var p := Slot(bp, t, b);
      ghost var size0 := size;
      LiveHead(base, size, live, bp);
      Merge(bp, p, t, b);
      FreeBalance(base, size0, size, old(fs), live, arena, t, bp, p);
      live := live - {bp};
      freep := Some(p);
    }

    /** morecore, given where sbrk put the new memory: all of it becomes free. */
    method Morecore(nu: nat, a: nat)
      requires Ready() && base < a && forall u :: a <= u < a + Grain(nu) ==> u !in arena
      modifies this
      ensures Ready() && live == old(live) && arena == old(arena) + UnitsOf(Chunk(a, Grain(nu))) && Fits(fs, nu)
    {
      hide Separated, Balanced, LiveOk, Linked, Sized, IsNode, Fits;
      var n := Grain(nu);
      ghost var c := Chunk(a, n);
      NewBlock(base, freep.value, ptr, size, fs, live, arena, c);
      size := size[a := n];
      live := live[a := n];
      arena := arena + UnitsOf(c);
      Free(a + 1);
      assert live == old(live);
      GrownFits(old(fs), fs, live, old(arena), c);
      BigEnough(fs, n, nu);
    }

    /** The end of malloc's search: a block is unlinked, or loses its tail. */
    method Take(prevp: nat, p: nat, n: nat, ghost i: nat) returns (h: nat)
      requires Ready() && i < |fs| && p == fs[i].addr && prevp == Node(base, fs, i) && n > 0 && p in size
      requires size[p] >= n
      modifies this
      ensures Ready() && h !in old(live) && live == old(live)[h := n] && arena == old(arena)
    {
      hide Separated, Balanced, LiveOk, Linked, Sized, IsNode, Cut, Removed, Node;
      TakeFacts(base, freep.value, ptr, size, fs, live, arena, i);
      ghost var size0 := size;
      if size[p] == n {
        RemoveList(base, ptr, size, fs, i);
        RemoveFree(fs, i);
        TakeBalance(base, size0, size, fs, Removed(fs, i), live, arena, p, fs[i]);
        ptr := ptr[prevp := ptr[p]];
        h := p;
        fs := Removed(fs, i);
      } else {
        CutList(base, ptr, size, fs, i, n);
        CutFree(fs, i, n);
        size := size[p := size[p] - n];
        h := p + size[p];
        size := size[h := n];
        TakeBalance(base, size0, size, fs, Cut(fs, i, n), live, arena, p, Chunk(h, n));
        CutNode(base, fs, i, n);
        fs := Cut(fs, i, n);
      }
      live := live[h := n];
      freep := Some(prevp);
    }

    /** malloc, given where sbrk would put new memory, or None for its failure. The block is fresh and
        large enough; new memory is asked for at most once, and exactly when no free block fits; only
        when that fails does malloc fail, and then nothing changes. */
    method Malloc(nbytes: nat, grow: Option<nat>) returns (r: Option<nat>, ghost used: bool)
      requires Valid()
      requires (grow.Some? ==> base < grow.value && forall u :: grow.value <= u < grow.value + Grain(Units(nbytes)) ==>
                u !in arena)
      modifies this
      ensures Ready() && (used <==> !Fits(old(fs), Units(nbytes)) && grow.Some?)
      ensures r.Some? <==> Fits(old(fs), Units(nbytes)) || grow.Some?
      ensures arena == if used then old(arena) + UnitsOf(Chunk(grow.value, Grain(Units(nbytes)))) else old(arena)
      ensures r.Some? ==> r.value > 0 && r.value - 1 !in old(live) && live == old(live)[r.value - 1 := Units(nbytes)]
      ensures r.None? ==> live == old(live) && fs == old(fs)
    {
      hide Sound, Fits, Node, Small, Cyc, UnitsOf;
      var nunits := Units(nbytes);
      if freep.None? {
        ptr, size, freep := ptr[base := base], size[base := 0], Some(base);
        FreshStart(base, ptr, size);
      }
      var prevp := freep.value;
      ghost var f: nat, s: nat := 0, 0;
      f := StartSearch(base, freep.value, ptr, size, fs, live, arena, nunits);
      var p := ptr[prevp];
      used := false;
      while true
        invariant Ready() && f <= |fs| && Node(base, fs, f) == freep.value && s <= |fs| && Small(fs, f, s, nunits)
        invariant prevp == Node(base, fs, Cyc(|fs|, f, s)) && p == Node(base, fs, Cyc(|fs|, f, s + 1)) && p in size
        invariant p in ptr
        invariant live == old(live) && (used ==> grow.Some? && !Fits(old(fs), nunits) && Fits(fs, nunits))
        invariant if used then arena == old(arena) + UnitsOf(Chunk(grow.value, Grain(nunits)))
                  else arena == old(arena) && fs == old(fs)
        decreases !used, |fs| - s
      {
        if size[p] >= nunits {
          ghost var i := Found(base, freep.value, ptr, size, fs, live, arena, f, s, nunits);
          var h := Take(prevp, p, nunits, i);
          return Some(h + 1), used;
        }
        TooSmall(base, freep.value, ptr, size, fs, live, arena, f, s, nunits);
        if p == freep.value {
          RoundTrip(base, freep.value, ptr, size, fs, live, arena, f, s, nunits);
          if grow.None? {
            return None, false;
          }
          Morecore(nunits, grow.value);
          used := true;
          f := StartSearch(base, freep.value, ptr, size, fs, live, arena, nunits);
          p := freep.value;
          s := 0;
          prevp, p := p, ptr[p];
        } else {
          s := s + 1;
          NextStep(base, freep.value, ptr, size, fs, live, arena, f, s);
          prevp, p := p, ptr[p];
        }
      }
    }

    /** The relinking that free does once it has found the place. */
    method Merge(bp: nat, p: nat, ghost t: nat, ghost b: Chunk)
      requires Linked(base, ptr, fs) && Sized(base, size, fs) && Separated(fs) && InGap(fs, t, b)
      requires b.addr == bp && base < bp && bp in size && size[bp] == b.len && p == Node(base, fs, t)
      modifies this`ptr, this`size, this`fs
      ensures fs == Coalesced(old(fs), t, b) && Linked(base, ptr, fs) && Sized(base, size, fs) && IsNode(base, fs, p)
      ensures IsNode(base, old(fs), p)
      ensures forall a :: a in old(size) && a != bp && a != p ==> a in size && size[a] == old(size)[a]
    {
      hide Separated, InGap, Linked, Sized, Next, Node, Inserted, Joined, Touch, IsNode, Ordered;
      Opened(base, ptr, size, fs, t, b);
      ghost var ptr0, size0 := ptr, size;
      if bp + size[bp] == ptr[p] {
        MergedPtr(base, ptr, size, fs, t, b);
        size := size[bp := size[bp] + size[ptr[p]]];
        ptr := ptr[bp := ptr[ptr[p]]];
      } else {
        ptr := ptr[bp := ptr[p]];
      }
      ghost var ptr1, size1 := ptr, size;
      ghost var f2 := Joined(Inserted(fs, t, b), t);
      NextStage(base, ptr0, size0, fs, t, b, ptr1, size1);
      TouchPrev(base, size0, fs, t, b, f2, size1);
      if p + size[p] == bp {
        size := size[p := size[p] + size[bp]];
        ptr := ptr[p := ptr[bp]];
      } else {
        ptr := ptr[p := bp];
      }
      PrevStage(base, fs, t, b, f2, ptr1, size1, ptr, size);
      fs := Joined(f2, t - 1);
    }
  }
}
