/** The pages under a node of a page table, for freewalk. */
module VmFree {
  import opened Blocks
  import opened PageTable
  import opened VmState

  /** Node x is n or a descendant of n. */
  ghost predicate Below(x: Node, n: Node) {
    n.Root? || x == n || (n.Mid? && x.Low? && x.j2 == n.i2)
  }

  /** Page q serves n or a descendant of n. */
  ghost predicate Under(t: Tables, r: nat, n: Node, q: int) {
    exists x :: IsNode(t, r, x, q) && Below(x, n)
  }

  /** Page q is under one of the first i children of n. */
  ghost predicate UnderKids(t: Tables, r: nat, n: Node, i: int, q: int) {
    !n.Low? && exists x, j :: IsNode(t, r, x, q) && 0 <= j < i && Below(x, ChildNode(n, j))
  }

  /** Level-0 entries in use are leaves. */
  ghost predicate Leafy(t: Tables, r: nat)
    requires TreeOk(t, r)
  {
    forall v :: 0 <= v < MAXVPN && Leaf(t, r, v).Some? ==> IsLeafEntry(Leaf(t, r, v).value)
  }

  /** freewalk has run on node n: the pages under n are on the free list, each once, and no other
      page has moved. */
  ghost predicate FreedAll(k: Range, t0: Tables, m: Mem, m': Mem, r: nat, n: Node) {
    && FreeOk(k, m'.free)
    && (forall q :: q in m'.free <==> q in m.free || Under(t0, r, n, q))
    && (forall q :: Under(t0, r, n, q) ==> q !in m'.tables && q !in m'.data)
    && (forall q :: !Under(t0, r, n, q) ==> Untouched(m, m', q))
  }

  /** freewalk is at entry i of node n, whose page is p: the same for the first i children, with the
      entries of p from i on still to be read. */
  ghost predicate Freed(k: Range, t0: Tables, m: Mem, m': Mem, r: nat, n: Node, p: nat, i: nat) {
    && p in m'.tables && |m'.tables[p]| == PTES && p in t0 && |t0[p]| == PTES
    && (forall j :: i <= j < PTES ==> m'.tables[p][j] == t0[p][j])
    && FreeOk(k, m'.free)
    && (forall q :: q in m'.free <==> q in m.free || UnderKids(t0, r, n, i, q))
    && (forall q :: UnderKids(t0, r, n, i, q) ==> q !in m'.tables && q !in m'.data)
    && (forall q :: !UnderKids(t0, r, n, i, q) && q != p ==> Untouched(m, m', q))
  }

  /** No virtual page is mapped through node n. */
  ghost predicate Bare(t: Tables, r: nat, n: Node)
    requires TreeOk(t, r)
  {
    forall v :: 0 <= v < MAXVPN && Below(LowOf(v), n) ==> Leaf(t, r, v).None?
  }

  /** The pages under n are still to be freed. */
  ghost predicate ToFree(k: Range, t0: Tables, m: Mem, r: nat, n: Node) {
    && FreeOk(k, m.free)
    && forall q ::
      Under(t0, r, n, q) ==> Managed(k, q) && q !in m.free && q in t0 && q in m.tables && m.tables[q] == t0[q]
  }

  /** A page is under the whole tree when it is in it. */
  lemma UnderRoot(t: Tables, r: nat, q: int)
    ensures Under(t, r, Root, q) == InTree(t, r, q)
  {
    if InTree(t, r, q) {
      var x :| IsNode(t, r, x, q);
      assert Below(x, Root);
    }
    if Under(t, r, Root, q) {
      var x :| IsNode(t, r, x, q) && Below(x, Root);
    }
  }

  /** The pages under n are its own and those under its children. */
  lemma UnderSplit(t: Tables, r: nat, n: Node, p: nat, q: int)
    requires TreeOk(t, r) && IsNode(t, r, n, p)
    ensures Under(t, r, n, q) <==> q == p || UnderKids(t, r, n, PTES, q)
  {
    if Under(t, r, n, q) && q != p {
      var x :| IsNode(t, r, x, q) && Below(x, n);
      assert x != n;
      var j := if n.Root? then (if x.Mid? then x.i2 else x.j2) else x.j1;
      assert Below(x, ChildNode(n, j)) && 0 <= j < PTES;
    }
    if UnderKids(t, r, n, PTES, q) {
      var x, j :| IsNode(t, r, x, q) && 0 <= j < PTES && Below(x, ChildNode(n, j));
      assert Below(x, n);
    }
    if q == p { assert Below(n, n); }
  }

  lemma UnderKidsMore(t: Tables, r: nat, n: Node, i: nat, q: int)
    requires !n.Low?
    ensures UnderKids(t, r, n, i + 1, q) <==> UnderKids(t, r, n, i, q) || Under(t, r, ChildNode(n, i), q)
  {
    if UnderKids(t, r, n, i + 1, q) {
      var x, j :| IsNode(t, r, x, q) && 0 <= j < i + 1 && Below(x, ChildNode(n, j));
    }
    if UnderKids(t, r, n, i, q) {
      var x, j :| IsNode(t, r, x, q) && 0 <= j < i && Below(x, ChildNode(n, j));
      assert 0 <= j < i + 1;
    }
    if Under(t, r, ChildNode(n, i), q) {
      var x :| IsNode(t, r, x, q) && Below(x, ChildNode(n, i));
    }
  }

  /** The pages under a child are not the parent's page and not under an earlier child. */
  lemma UnderApart(t: Tables, r: nat, n: Node, p: nat, i: nat, q: int)
    requires TreeOk(t, r) && IsNode(t, r, n, p) && !n.Low? && Under(t, r, ChildNode(n, i), q)
    ensures q != p && !UnderKids(t, r, n, i, q) && Under(t, r, n, q)
  {
    var x :| IsNode(t, r, x, q) && Below(x, ChildNode(n, i));
    assert Below(x, n) && x != n;
  }

  /** No page is under a child that is not there. */
  lemma UnderNone(t: Tables, r: nat, n: Node, p: nat, i: nat, q: int)
    requires TreeOk(t, r) && IsNode(t, r, n, p) && !n.Low? && i < PTES && p in t && |t[p]| == PTES && !IsValid(t[p][i])
    ensures !Under(t, r, ChildNode(n, i), q)
  {
    if Under(t, r, ChildNode(n, i), q) {
      var x :| IsNode(t, r, x, q) && Below(x, ChildNode(n, i));
    }
  }

  /** A valid entry of an interior node leads to a child node. */
  lemma ChildThere(t: Tables, r: nat, n: Node, p: nat, i: nat)
    requires TreeOk(t, r) && IsNode(t, r, n, p) && !n.Low? && i < PTES && p in t && |t[p]| == PTES && IsValid(t[p][i])
    ensures IsNode(t, r, ChildNode(n, i), Ppn(t[p][i])) && !IsLeafEntry(t[p][i])
  {
    assert n.Root? && i >= TOP ==> Child(t, r, i).None?;
  }

  /** A valid level-0 entry is the mapping of some virtual page. */
  lemma EntryMapped(t: Tables, r: nat, n: Node, p: nat, i: nat)
    requires TreeOk(t, r) && IsNode(t, r, n, p) && n.Low? && i < PTES && p in t && |t[p]| == PTES && IsValid(t[p][i])
    ensures exists v :: 0 <= v < MAXVPN && Leaf(t, r, v) == Some(t[p][i])
  {
    var v := n.j2 * 0x4_0000 + n.j1 * 512 + i;
    assert v / 0x4_0000 == n.j2 && v / 512 == n.j2 * 512 + n.j1 && v % 512 == i;
    assert LowOf(v) == n && Px(0, v) == i && v < MAXVPN;
    assert Leaf(t, r, v) == Some(t[p][i]);
  }

  lemma FreedStart(k: Range, t0: Tables, m: Mem, r: nat, n: Node, p: nat)
    requires TreeOk(t0, r) && IsNode(t0, r, n, p) && ToFree(k, t0, m, r, n)
    ensures Freed(k, t0, m, m, r, n, p, 0)
  {
    assert Below(n, n);
    assert Under(t0, r, n, p);
  }

  /** The next child is as freewalk needs it. */
  lemma NextChild(k: Range, t0: Tables, m: Mem, m1: Mem, r: nat, n: Node, p: nat, i: nat)
    requires TreeOk(t0, r) && IsNode(t0, r, n, p) && !n.Low? && ToFree(k, t0, m, r, n)
    requires Freed(k, t0, m, m1, r, n, p, i)
    ensures ToFree(k, t0, m1, r, ChildNode(n, i))
  {
    forall q | Under(t0, r, ChildNode(n, i), q)
      ensures Managed(k, q) && q !in m1.free && q in t0 && q in m1.tables && m1.tables[q] == t0[q]
    {
      UnderApart(t0, r, n, p, i, q);
      assert Untouched(m, m1, q);
    }
  }

  /** A child has been freed and its entry cleared. */
  lemma FreedChild(k: Range, t0: Tables, m: Mem, m1: Mem, m2: Mem, r: nat, n: Node, p: nat, i: nat)
    requires TreeOk(t0, r) && IsNode(t0, r, n, p) && !n.Low? && i < PTES
    requires Freed(k, t0, m, m1, r, n, p, i) && FreedAll(k, t0, m1, m2, r, ChildNode(n, i))
    ensures p in m2.tables && |m2.tables[p]| == PTES
    ensures Freed(k, t0, m, m2.(tables := WithPte(m2.tables, p, i, 0)), r, n, p, i + 1)
  {
    hide TreeOk, IsNode, FreeOk, Under, UnderKids;
    assert !Under(t0, r, ChildNode(n, i), p) by {
      if Under(t0, r, ChildNode(n, i), p) { UnderApart(t0, r, n, p, i, p); }
    }
    assert Untouched(m1, m2, p);
    var m3 := m2.(tables := WithPte(m2.tables, p, i, 0));
    forall q ensures UnderKids(t0, r, n, i + 1, q) <==> UnderKids(t0, r, n, i, q) || Under(t0, r, ChildNode(n, i), q) {
      UnderKidsMore(t0, r, n, i, q);
    }
    UnderKidsOwn(t0, r, n, p, i + 1);
    forall q | UnderKids(t0, r, n, i + 1, q) ensures q !in m3.tables && q !in m3.data {
      if !Under(t0, r, ChildNode(n, i), q) { assert Untouched(m1, m2, q); }
    }
    forall q | !UnderKids(t0, r, n, i + 1, q) && q != p ensures Untouched(m, m3, q) {
      assert Untouched(m, m1, q) && Untouched(m1, m2, q);
    }
  }

  lemma UnderKidsOwn(t: Tables, r: nat, n: Node, p: nat, i: nat)
    requires TreeOk(t, r) && IsNode(t, r, n, p)
    ensures !UnderKids(t, r, n, i, p)
  {
    assert forall x :: IsNode(t, r, x, p) ==> x == n;
  }

  /** An unused entry has no pages under it. */
  lemma FreedSkip(k: Range, t0: Tables, m: Mem, m1: Mem, r: nat, n: Node, p: nat, i: nat)
    requires TreeOk(t0, r) && IsNode(t0, r, n, p) && i < PTES && Freed(k, t0, m, m1, r, n, p, i) && !IsValid(t0[p][i])
    ensures Freed(k, t0, m, m1, r, n, p, i + 1)
  {
    hide TreeOk, IsNode, FreeOk, Under, IsValid;
    if !n.Low? {
      forall q ensures UnderKids(t0, r, n, i + 1, q) <==> UnderKids(t0, r, n, i, q) {
        UnderKidsMore(t0, r, n, i, q);
        UnderNone(t0, r, n, p, i, q);
      }
    }
  }

  /** kfree of the node's own page finishes it. */
  lemma FreedEnd(k: Range, t0: Tables, m: Mem, m1: Mem, r: nat, n: Node, p: nat)
    requires TreeOk(t0, r) && IsNode(t0, r, n, p) && ToFree(k, t0, m, r, n) && Freed(k, t0, m, m1, r, n, p, PTES)
    ensures Managed(k, p) && FreedAll(k, t0, m, Mem(m1.tables - {p}, m1.data - {p}, [p] + m1.free), r, n)
  {
    hide TreeOk, IsNode, Under, UnderKids;
    forall q ensures Under(t0, r, n, q) <==> q == p || UnderKids(t0, r, n, PTES, q) {
      UnderSplit(t0, r, n, p, q);
    }
    UnderKidsOwn(t0, r, n, p, PTES);
    assert p !in m1.free;
  }

  // ----- what has been seen of the mappings

  /** Nothing is mapped through the entries of n below i. */
  ghost predicate BareBefore(t: Tables, r: nat, n: Node, p: nat, i: nat)
    requires TreeOk(t, r)
  {
    if n.Low? then p in t && |t[p]| == PTES && i <= PTES && forall j :: 0 <= j < i ==> !IsValid(t[p][j])
    else forall j :: 0 <= j < i ==> Bare(t, r, ChildNode(n, j))
  }

  lemma BareMore(t: Tables, r: nat, n: Node, p: nat, i: nat)
    requires TreeOk(t, r) && IsNode(t, r, n, p) && i < PTES && p in t && |t[p]| == PTES && BareBefore(t, r, n, p, i)
    requires !IsValid(t[p][i]) || (!n.Low? && Bare(t, r, ChildNode(n, i)))
    ensures BareBefore(t, r, n, p, i + 1)
  {
    if !n.Low? && !IsValid(t[p][i]) {
      forall v | 0 <= v < MAXVPN && Below(LowOf(v), ChildNode(n, i)) ensures Leaf(t, r, v).None? {
        PxRange(v);
      }
    }
  }

  lemma BareEnd(t: Tables, r: nat, n: Node, p: nat)
    requires TreeOk(t, r) && IsNode(t, r, n, p) && BareBefore(t, r, n, p, PTES)
    ensures Bare(t, r, n)
  {
    forall v | 0 <= v < MAXVPN && Below(LowOf(v), n) ensures Leaf(t, r, v).None? {
      PxRange(v);
      if !n.Low? {
        var j := if n.Root? then Px(2, v) else Px(1, v);
        assert Below(LowOf(v), ChildNode(n, j));
        assert Bare(t, r, ChildNode(n, j));
      }
    }
  }

  lemma BareStart(t: Tables, r: nat, n: Node, p: nat)
    requires TreeOk(t, r) && IsNode(t, r, n, p)
    ensures BareBefore(t, r, n, p, 0) && p in t && |t[p]| == PTES
  {}

  lemma FreedRow(k: Range, t0: Tables, m: Mem, m': Mem, r: nat, n: Node, p: nat, i: nat)
    requires Freed(k, t0, m, m', r, n, p, i) && i < PTES
    ensures p in m'.tables && |m'.tables[p]| == PTES && p in t0 && |t0[p]| == PTES && m'.tables[p][i] == t0[p][i]
  {}

  /** A valid entry that is no leaf is an interior one, and leads to a child. */
  lemma InteriorEntry(t: Tables, r: nat, n: Node, p: nat, i: nat)
    requires TreeOk(t, r) && Leafy(t, r) && IsNode(t, r, n, p) && i < PTES && p in t && |t[p]| == PTES
    requires IsValid(t[p][i]) && !IsLeafEntry(t[p][i])
    ensures !n.Low? && IsNode(t, r, ChildNode(n, i), Ppn(t[p][i])) && ChildLevel(n, i)
  {
    hide TreeOk, IsNode, IsValid, IsLeafEntry;
    if n.Low? {
      EntryMapped(t, r, n, p, i);
    } else {
      ChildThere(t, r, n, p, i);
    }
  }

  ghost predicate ChildLevel(n: Node, i: nat) {
    (n.Root? ==> ChildNode(n, i).Mid?) && (n.Mid? ==> ChildNode(n, i).Low?)
  }

  /** A leaf entry stands in a level-0 table. */
  lemma LeafInterior(t: Tables, r: nat, n: Node, p: nat, i: nat)
    requires TreeOk(t, r) && IsNode(t, r, n, p) && i < PTES && p in t && |t[p]| == PTES && IsValid(t[p][i])
    requires IsLeafEntry(t[p][i])
    ensures n.Low?
  {}
}
