/** The free list of user/umalloc.c as a sequence of blocks, on addresses in header units. */
module FreeList {
  /** len units from addr, the header included. */
  datatype Chunk = Chunk(addr: nat, len: nat) {
    function End(): nat { addr + len }

    predicate Has(u: int) { addr <= u < End() }
  }

  /** Non-empty blocks in address order that do not overlap. */
  ghost predicate Ordered(fs: seq<Chunk>) {
    && (forall i :: 0 <= i < |fs| ==> fs[i].len > 0)
    && (forall i, j :: 0 <= i < j < |fs| ==> fs[i].End() <= fs[j].addr)
  }

  /** Block i ends where the next one begins. */
  predicate Touch(fs: seq<Chunk>, i: int) {
    0 <= i < |fs| - 1 && fs[i].End() == fs[i + 1].addr
  }

  ghost predicate Separated(fs: seq<Chunk>) {
    Ordered(fs) && forall i :: !Touch(fs, i)
  }

  /** Unit u is in one of the blocks. */
  ghost predicate IsFree(fs: seq<Chunk>, u: int) {
    exists b :: b in fs && b.Has(u)
  }

  // ----- a separated list is determined by its units

  lemma {:induction false} Canonical(fs: seq<Chunk>, gs: seq<Chunk>)
    requires Separated(fs) && Separated(gs) && forall u :: IsFree(fs, u) <==> IsFree(gs, u)
    ensures fs == gs
  {
    if fs == [] || gs == [] {
      if fs != [] { FirstFree(fs); }
      if gs != [] { FirstFree(gs); }
    } else {
      SameFirst(fs, gs);
      forall u ensures IsFree(fs[1..], u) <==> IsFree(gs[1..], u) {
        RestFree(fs, u);
        RestFree(gs, u);
      }
      RestSeparated(fs);
      RestSeparated(gs);
      Canonical(fs[1..], gs[1..]);
      assert fs == [fs[0]] + fs[1..] && gs == [gs[0]] + gs[1..];
    }
  }

  lemma FirstFree(fs: seq<Chunk>)
    requires Ordered(fs) && fs != []
    ensures IsFree(fs, fs[0].addr) && forall u :: u < fs[0].addr ==> !IsFree(fs, u)
  {
    assert fs[0] in fs && fs[0].Has(fs[0].addr);
  }

  lemma RestSeparated(fs: seq<Chunk>)
    requires Separated(fs) && fs != []
    ensures Separated(fs[1..])
  {
    forall i ensures !Touch(fs[1..], i) {
      assert !Touch(fs, i + 1);
    }
  }

  lemma RestFree(fs: seq<Chunk>, u: int)
    requires Ordered(fs) && fs != []
    ensures IsFree(fs[1..], u) <==> IsFree(fs, u) && u >= fs[0].End()
  {
    assert fs == [fs[0]] + fs[1..];
    forall b | b in fs[1..] ensures b.addr >= fs[0].End() {}
  }

  /** The unit after a block is not free. */
  lemma PastEnd(fs: seq<Chunk>, i: nat)
    requires Separated(fs) && i < |fs|
    ensures !IsFree(fs, fs[i].End())
  {
    var n := i + 1;
    assert !Touch(fs, i);
    forall b | b in fs ensures !b.Has(fs[i].End()) {
      var j :| 0 <= j < |fs| && fs[j] == b;
      if j > n { assert fs[n].End() <= fs[j].addr; }
      if j < i { assert fs[j].End() <= fs[i].addr; }
    }
  }

  /** Consecutive free units lie in one block. */
  lemma RunInBlock(fs: seq<Chunk>, a: nat, n: nat)
    requires Separated(fs) && n > 0 && forall u :: a <= u < a + n ==> IsFree(fs, u)
    ensures exists i :: 0 <= i < |fs| && fs[i].addr <= a && a + n <= fs[i].End()
  {
    assert IsFree(fs, a);
    var b :| b in fs && b.Has(a);
    var i :| 0 <= i < |fs| && fs[i] == b;
    PastEnd(fs, i);
  }

  lemma SameFirst(fs: seq<Chunk>, gs: seq<Chunk>)
    requires Separated(fs) && Separated(gs) && fs != [] && gs != [] && forall u :: IsFree(fs, u) <==> IsFree(gs, u)
    ensures fs[0] == gs[0]
  {
    FirstFree(fs);
    FirstFree(gs);
    PastEnd(fs, 0);
    PastEnd(gs, 0);
    assert fs[0] in fs && gs[0] in gs;
    var e, f := fs[0].End(), gs[0].End();
    assert !fs[0].Has(f) && !gs[0].Has(e);
  }

  // ----- free: insert, then merge with the next block and with the previous one

  /** Block b falls in the gap before block t. */
  ghost predicate InGap(fs: seq<Chunk>, t: nat, b: Chunk) {
    b.len > 0 && t <= |fs| && (t > 0 ==> fs[t - 1].End() <= b.addr) && (t < |fs| ==> b.End() <= fs[t].addr)
  }

  ghost function Inserted(fs: seq<Chunk>, t: nat, b: Chunk): seq<Chunk>
    requires t <= |fs|
  {
    fs[..t] + [b] + fs[t..]
  }

  lemma InsertOrdered(fs: seq<Chunk>, t: nat, b: Chunk)
    requires Ordered(fs) && InGap(fs, t, b)
    ensures Ordered(Inserted(fs, t, b))
  {
    var gs := Inserted(fs, t, b);
    Around(fs, t, b);
    hide InGap;
    forall i, j | 0 <= i < j < |gs| ensures gs[i].End() <= gs[j].addr {
      assert gs[i] == if i < t then fs[i] else if i == t then b else fs[i - 1];
      assert gs[j] == if j < t then fs[j] else if j == t then b else fs[j - 1];
    }
  }

  lemma Around(fs: seq<Chunk>, t: nat, b: Chunk)
    requires Ordered(fs) && InGap(fs, t, b)
    ensures forall i :: 0 <= i < |fs| ==> if i < t then fs[i].End() <= b.addr else b.End() <= fs[i].addr
  {
    forall i | 0 <= i < |fs| ensures if i < t then fs[i].End() <= b.addr else b.End() <= fs[i].addr {
      if i < t - 1 { assert fs[i].End() <= fs[t - 1].addr; }
      if i > t { assert fs[t].End() <= fs[i].addr; }
    }
  }

  /** Only the new block can touch its neighbours. */
  lemma InsertTouch(fs: seq<Chunk>, t: nat, b: Chunk)
    requires Separated(fs) && InGap(fs, t, b)
    ensures forall i :: Touch(Inserted(fs, t, b), i) ==> i == t - 1 || i == t
  {
    forall i | i != t - 1 && i != t ensures !Touch(Inserted(fs, t, b), i) {
      assert !Touch(fs, if i < t then i else i - 1);
    }
  }

  lemma InsertFree(fs: seq<Chunk>, t: nat, b: Chunk, u: int)
    requires t <= |fs|
    ensures IsFree(Inserted(fs, t, b), u) <==> IsFree(fs, u) || b.Has(u)
  {
    assert fs == fs[..t] + fs[t..];
    assert b in Inserted(fs, t, b);
  }

  ghost function Merged(fs: seq<Chunk>, i: nat): seq<Chunk>
    requires i + 1 < |fs|
  {
    fs[..i] + [Chunk(fs[i].addr, fs[i].len + fs[i + 1].len)] + fs[i + 2..]
  }

  lemma MergeOrdered(fs: seq<Chunk>, i: nat)
    requires Ordered(fs) && Touch(fs, i)
    ensures Ordered(Merged(fs, i))
  {
    var gs := Merged(fs, i);
    forall j, l | 0 <= j < l < |gs| ensures gs[j].End() <= gs[l].addr {
      assert gs[j].End() == fs[if j < i then j else j + 1].End() && gs[l].addr == fs[if l <= i then l else l + 1].addr;
    }
  }

  lemma MergeTouch(fs: seq<Chunk>, i: nat, j: int)
    requires Touch(fs, i) && Touch(Merged(fs, i), j)
    ensures Touch(fs, if j < i then j else j + 1)
  {}

  lemma MergeFree(fs: seq<Chunk>, i: nat, u: int)
    requires Touch(fs, i)
    ensures IsFree(Merged(fs, i), u) <==> IsFree(fs, u)
  {
    var a, m := fs[i], Chunk(fs[i].addr, fs[i].len + fs[i + 1].len);
    assert fs == fs[..i] + [fs[i], fs[i + 1]] + fs[i + 2..];
    assert m.Has(u) <==> fs[i].Has(u) || fs[i + 1].Has(u);
    assert m in Merged(fs, i);
  }

  /** Merge block i with the next one if they touch. */
  ghost function Joined(fs: seq<Chunk>, i: int): seq<Chunk> {
    if Touch(fs, i) then Merged(fs, i) else fs
  }

  lemma JoinKeeps(fs: seq<Chunk>, i: int)
    requires Ordered(fs)
    ensures Ordered(Joined(fs, i)) && forall u :: IsFree(Joined(fs, i), u) <==> IsFree(fs, u)
    ensures forall j :: Touch(Joined(fs, i), j) ==> Touch(fs, if j < i then j else if Touch(fs, i) then j + 1 else j)
  {
    if Touch(fs, i) {
      MergeOrdered(fs, i);
      forall u ensures IsFree(Merged(fs, i), u) <==> IsFree(fs, u) { MergeFree(fs, i, u); }
      forall j | Touch(Merged(fs, i), j) ensures Touch(fs, if j < i then j else j + 1) { MergeTouch(fs, i, j); }
    }
  }

  /** The list after free(b), b in the gap before block t. */
  ghost function Coalesced(fs: seq<Chunk>, t: nat, b: Chunk): seq<Chunk>
    requires t <= |fs|
  {
    Joined(Joined(Inserted(fs, t, b), t), t - 1)
  }

  /** free keeps the list separated and adds exactly the units of the block. */
  lemma Coalesce(fs: seq<Chunk>, t: nat, b: Chunk)
    requires Separated(fs) && InGap(fs, t, b)
    ensures Separated(Coalesced(fs, t, b)) && forall u :: IsFree(Coalesced(fs, t, b), u) <==> IsFree(fs, u) || b.Has(u)
  {
    var f1 := Inserted(fs, t, b);
    InsertOrdered(fs, t, b);
    InsertTouch(fs, t, b);
    JoinKeeps(f1, t);
    JoinKeeps(Joined(f1, t), t - 1);
    hide Inserted, Joined, Ordered, Touch, InGap, IsFree;
    forall u ensures IsFree(Coalesced(fs, t, b), u) <==> IsFree(fs, u) || b.Has(u) { InsertFree(fs, t, b, u); }
  }
}
