/** Physical memory as kalloc.c and vm.c divide it: free pages, page-table pages, user pages. */
module VmState {
  import opened Blocks
  import opened PageTable

  type Bytes = b: seq<byte> | |b| == PGSIZE witness seq(PGSIZE, _ => 0)

  /** tables and data hold the contents of pages in use; free is kmem.freelist from its head. */
  datatype Mem = Mem(tables: Tables, data: map<nat, Bytes>, free: seq<nat>)

  /** The pages kinit hands to kfree: [lo, hi), never page 0. */
  datatype Range = Range(lo: nat, hi: nat)

  predicate Managed(k: Range, p: int) { 0 < k.lo <= p < k.hi }

  ghost predicate FreeOk(k: Range, free: seq<nat>) {
    && (forall i :: 0 <= i < |free| ==> Managed(k, free[i]))
    && (forall i, j :: 0 <= i < j < |free| ==> free[i] != free[j])
  }

  /** The tree at r is sound, its pages come from kalloc and none of them is free. */
  ghost predicate SpaceOk(k: Range, m: Mem, r: nat) {
    && FreeOk(k, m.free) && TreeOk(m.tables, r)
    && (forall p :: p in m.free ==> !InTree(m.tables, r, p) && p !in m.tables)
    && (forall p :: InTree(m.tables, r, p) ==> Managed(k, p))
  }

  /** Virtual page v is mapped to physical page p. */
  ghost predicate MapsTo(m: Mem, r: nat, v: int, p: int)
    requires TreeOk(m.tables, r)
  {
    0 <= v < MAXVPN && Leaf(m.tables, r, v).Some? && Ppn(Leaf(m.tables, r, v).value) == p
  }

  /** Each of the first n virtual pages has a physical page of its own, or none. */
  ghost predicate UserOk(k: Range, m: Mem, r: nat, n: nat)
    requires TreeOk(m.tables, r)
  {
    && (forall v, p :: MapsTo(m, r, v, p) && v < n ==>
        Managed(k, p) && p !in m.free && !InTree(m.tables, r, p) && p in m.data && p !in m.tables)
    && (forall v, w, p :: MapsTo(m, r, v, p) && MapsTo(m, r, w, p) && v < n && w < n ==> v == w)
  }

  /** A process: n pages of user memory below sz, in the tree at r. */
  ghost predicate ProcOk(k: Range, m: Mem, r: nat, n: nat) {
    SpaceOk(k, m, r) && UserOk(k, m, r, n)
  }

  /** Page p is accounted for: free, in the tree, or under one of the first n virtual pages. */
  ghost predicate Counted(m: Mem, r: nat, n: nat, p: int)
    requires TreeOk(m.tables, r)
  {
    p in m.free || InTree(m.tables, r, p) || exists v :: MapsTo(m, r, v, p) && v < n
  }

  /** The contents of page p are the same in both. */
  ghost predicate Untouched(m: Mem, m': Mem, p: int) {
    && (p in m'.tables <==> p in m.tables) && (p in m.tables ==> m'.tables[p] == m.tables[p])
    && (p in m'.data <==> p in m.data) && (p in m.data ==> m'.data[p] == m.data[p])
  }

  /** No page gained, none lost, and the pages that belong to others untouched. */
  ghost predicate Conserved(m: Mem, m': Mem, r: nat, n: nat, n': nat)
    requires TreeOk(m.tables, r) && TreeOk(m'.tables, r)
  {
    forall p :: (Counted(m', r, n', p) <==> Counted(m, r, n, p)) && (!Counted(m, r, n, p) ==> Untouched(m, m', p))
  }

  /** Tables outside the tree and the free list are untouched, so other page tables are as they were. */
  ghost predicate Elsewhere(m: Mem, m': Mem, r: nat) {
    forall p :: p !in m.free && !InTree(m.tables, r, p) ==>
      (p in m'.tables <==> p in m.tables) && (p in m.tables ==> m'.tables[p] == m.tables[p])
  }

  // ----- walk's allocation

  /** A free page becomes a table page. */
  lemma ExtendSpace(k: Range, m: Mem, m': Mem, r: nat, n: Node, p: nat, i: nat)
    requires SpaceOk(k, m, r) && |m.free| > 0 && m'.free == m.free[1..] && m'.data == m.data
    requires Extends(m.tables, m'.tables, r, n, p, i, m.free[0])
    ensures SpaceOk(k, m', r) && SameMap(m.tables, m'.tables, r) && Elsewhere(m, m', r)
    ensures forall c :: InTree(m'.tables, r, c) <==> InTree(m.tables, r, c) || c == m.free[0]
    ensures At(m'.tables, r, ChildNode(n, i)) == Some(m.free[0])
  {
    var q := m.free[0];
    ExtendTree(m.tables, m'.tables, r, n, p, i, q);
    ExtendMap(m.tables, m'.tables, r, n, p, i, q);
    ExtendAt(m.tables, m'.tables, r, n, p, i, q, ChildNode(n, i));
    ExtendIn(m.tables, m'.tables, r, n, p, i, q);
    forall c | c in m'.free ensures c in m.free && c != q {}
  }

  lemma ExtendIn(t: Tables, t': Tables, r: nat, n: Node, p: nat, i: nat, q: nat)
    requires TreeOk(t, r) && Extends(t, t', r, n, p, i, q)
    ensures forall c :: InTree(t', r, c) <==> InTree(t, r, c) || c == q
    ensures NodeOk(ChildNode(n, i))
    ensures forall c :: !InTree(t, r, c) && c != q ==> (c in t' <==> c in t) && (c in t ==> t'[c] == t[c])
  {
    ExtendTree(t, t', r, n, p, i, q);
    ExtendChild(t, t', r, n, p, i, q);
    assert IsNode(t', r, ChildNode(n, i), q);
    forall c ensures InTree(t', r, c) <==> InTree(t, r, c) || c == q {
      if InTree(t, r, c) {
        var x :| IsNode(t, r, x, c);
        assert IsNode(t', r, x, c);
      }
      if InTree(t', r, c) {
        var x :| IsNode(t', r, x, c);
        assert IsNode(t, r, x, c) || c == q;
      }
    }
    assert InTree(t, r, p);
  }

  /** Only table pages move, from the free list into the tree. */
  ghost predicate Tabled(k: Range, m: Mem, m': Mem, r: nat)
    requires SpaceOk(k, m, r)
  {
    && SpaceOk(k, m', r) && m'.data == m.data
    && (forall p :: p in m'.free ==> p in m.free)
    && (forall p :: InTree(m.tables, r, p) ==> InTree(m'.tables, r, p))
    && (forall p :: p in m.free || InTree(m.tables, r, p) <==> p in m'.free || InTree(m'.tables, r, p))
    && Elsewhere(m, m', r)
  }

  /** The effect of walk: the same map, perhaps with more tables. */
  ghost predicate Walked(k: Range, m: Mem, m': Mem, r: nat)
    requires SpaceOk(k, m, r)
  {
    Tabled(k, m, m', r) && SameMap(m.tables, m'.tables, r)
  }

  lemma WalkedNone(k: Range, m: Mem, r: nat)
    requires SpaceOk(k, m, r)
    ensures Walked(k, m, m, r)
  {}

  lemma WalkedStep(k: Range, m: Mem, m1: Mem, m2: Mem, r: nat)
    requires SpaceOk(k, m, r) && Walked(k, m, m1, r) && Walked(k, m1, m2, r)
    ensures Walked(k, m, m2, r)
  {
    TabledTrans(k, m, m1, m2, r);
    hide Tabled, TreeOk;
    forall vpn | 0 <= vpn < MAXVPN ensures Leaf(m2.tables, r, vpn) == Leaf(m.tables, r, vpn) {
      assert Leaf(m1.tables, r, vpn) == Leaf(m.tables, r, vpn);
    }
  }

  lemma WalkedExtend(k: Range, m: Mem, m': Mem, r: nat, n: Node, p: nat, i: nat)
    requires SpaceOk(k, m, r) && |m.free| > 0 && m'.free == m.free[1..] && m'.data == m.data
    requires Extends(m.tables, m'.tables, r, n, p, i, m.free[0])
    ensures Walked(k, m, m', r) && At(m'.tables, r, ChildNode(n, i)) == Some(m.free[0])
  {
    ExtendSpace(k, m, m', r, n, p, i);
    assert m.free == [m.free[0]] + m'.free;
  }

  /** walk keeps a process's user pages its own. */
  lemma WalkedProc(k: Range, m: Mem, m': Mem, r: nat, n: nat)
    requires ProcOk(k, m, r, n) && Walked(k, m, m', r)
    ensures ProcOk(k, m', r, n) && Conserved(m, m', r, n, n)
  {
    forall v, p ensures MapsTo(m', r, v, p) <==> MapsTo(m, r, v, p) {}
    forall p ensures Counted(m', r, n, p) <==> Counted(m, r, n, p) {
      if exists v :: MapsTo(m, r, v, p) && v < n {
        var v :| MapsTo(m, r, v, p) && v < n;
        assert MapsTo(m', r, v, p);
      }
      if exists v :: MapsTo(m', r, v, p) && v < n {
        var v :| MapsTo(m', r, v, p) && v < n;
        assert MapsTo(m, r, v, p);
      }
    }
  }

  // ----- mappings

  /** The map after count pages from ppn on were mapped at virtual page first. */
  ghost predicate Mapped(m: Mem, m': Mem, r: nat, first: nat, count: nat, ppn: nat, flags: nat)
    requires TreeOk(m.tables, r) && TreeOk(m'.tables, r) && flags < 1024
  {
    forall v :: 0 <= v < MAXVPN ==>
      Leaf(m'.tables, r, v) == if first <= v < first + count then Some(PteOf(ppn + (v - first), flags))
        else Leaf(m.tables, r, v)
  }

  /** *pte = e in the level-0 table of a virtual page. */
  lemma StoreEntry(k: Range, m: Mem, r: nat, vpn: nat, p: nat, e: nat)
    requires SpaceOk(k, m, r) && vpn < MAXVPN && At(m.tables, r, LowOf(vpn)) == Some(p)
    ensures p in m.tables && |m.tables[p]| == PTES
    ensures var m' := m.(tables := WithPte(m.tables, p, Px(0, vpn), e));
            && Tabled(k, m, m', r)
            && (forall q :: InTree(m'.tables, r, q) <==> InTree(m.tables, r, q))
            && (forall v :: 0 <= v < MAXVPN ==>
                 Leaf(m'.tables, r, v) == if v == vpn then (if IsValid(e) then Some(e) else None)
                   else Leaf(m.tables, r, v))
  {
    PxRange(vpn);
    assert IsNode(m.tables, r, LowOf(vpn), p);
    var m' := m.(tables := WithPte(m.tables, p, Px(0, vpn), e));
    StoreTree(m.tables, r, LowOf(vpn), p, Px(0, vpn), e);
    StoreMap(m.tables, r, vpn, p, e);
    SameNodes(m.tables, m'.tables, r);
    assert InTree(m.tables, r, p);
  }

  lemma SameNodes(t: Tables, t': Tables, r: nat)
    requires forall n, c :: IsNode(t', r, n, c) <==> IsNode(t, r, n, c)
    ensures forall q :: InTree(t', r, q) <==> InTree(t, r, q)
  {
    forall q ensures InTree(t', r, q) <==> InTree(t, r, q) {
      if InTree(t, r, q) {
        var n :| IsNode(t, r, n, q);
        assert IsNode(t', r, n, q);
      }
      if InTree(t', r, q) {
        var n :| IsNode(t', r, n, q);
        assert IsNode(t, r, n, q);
      }
    }
  }

  lemma TabledTrans(k: Range, m: Mem, m1: Mem, m2: Mem, r: nat)
    requires SpaceOk(k, m, r) && Tabled(k, m, m1, r) && Tabled(k, m1, m2, r)
    ensures Tabled(k, m, m2, r)
  {}

  /** One more page mapped. */
  lemma MappedMore(k: Range, m: Mem, m2: Mem, m3: Mem, r: nat, first: nat, i: nat, ppn: nat, flags: nat, p: nat)
    requires SpaceOk(k, m, r) && SpaceOk(k, m2, r) && flags < 1024 && flags % 2 == 1
    requires Mapped(m, m2, r, first, i, ppn, flags) && first + i < MAXVPN
    requires At(m2.tables, r, LowOf(first + i)) == Some(p)
    requires p in m2.tables && |m2.tables[p]| == PTES
    requires m3 == m2.(tables := WithPte(m2.tables, p, Px(0, first + i), PteOf(ppn + i, flags)))
    ensures Tabled(k, m2, m3, r) && SpaceOk(k, m3, r) && Mapped(m, m3, r, first, i + 1, ppn, flags)
  {
    hide TreeOk, Elsewhere, IsValid, PteOf, Leaf, At, WithPte;
    PteBits(ppn + i, flags);
    StoreEntry(k, m2, r, first + i, p, PteOf(ppn + i, flags));
  }

  // ----- user memory

  /** The map without the pages of a range; the tables themselves stay. */
  ghost predicate Unmapped(m: Mem, m': Mem, r: nat, first: nat, count: nat)
    requires TreeOk(m.tables, r) && TreeOk(m'.tables, r)
  {
    && (forall v :: 0 <= v < MAXVPN ==>
        Leaf(m'.tables, r, v) == if first <= v < first + count then None else Leaf(m.tables, r, v))
    && (forall v :: 0 <= v < MAXVPN ==> At(m'.tables, r, LowOf(v)) == At(m.tables, r, LowOf(v)))
    && (forall p :: p in m'.data ==> p in m.data && m'.data[p] == m.data[p])
  }

  /** *pte = 0 with kfree of the page it mapped. */
  ghost function Dropped(m: Mem, p: nat, i: nat, x: nat): Mem
    requires p in m.tables && i < |m.tables[p]|
  {
    Mem(WithPte(m.tables, p, i, 0), m.data - {x}, [x] + m.free)
  }

  lemma DropSpace(k: Range, m: Mem, r: nat, n: nat, v: nat, p: nat, x: nat)
    requires ProcOk(k, m, r, n) && v < n && MapsTo(m, r, v, x) && At(m.tables, r, LowOf(v)) == Some(p)
    ensures p in m.tables && |m.tables[p]| == PTES
    ensures SpaceOk(k, Dropped(m, p, Px(0, v), x), r) && Unmapped(m, Dropped(m, p, Px(0, v), x), r, v, 1)
    ensures forall q :: InTree(Dropped(m, p, Px(0, v), x).tables, r, q) <==> InTree(m.tables, r, q)
  {
    StoreEntry(k, m, r, v, p, 0);
    ZeroInvalid();
    PxRange(v);
    assert IsNode(m.tables, r, LowOf(v), p);
    forall w | 0 <= w < MAXVPN ensures At(Dropped(m, p, Px(0, v), x).tables, r, LowOf(w)) == At(m.tables, r, LowOf(w)) {
      PxRange(w);
      StoreAt(m.tables, r, LowOf(v), p, Px(0, v), 0, LowOf(w));
    }
  }

  lemma DropMaps(k: Range, m: Mem, m': Mem, r: nat, v: nat)
    requires TreeOk(m.tables, r) && TreeOk(m'.tables, r) && Unmapped(m, m', r, v, 1)
    ensures forall w, y :: MapsTo(m', r, w, y) <==> MapsTo(m, r, w, y) && w != v
  {}

  /** Unmapping a user page and freeing it keeps the process sound and every page accounted for. */
  lemma DropProc(k: Range, m: Mem, r: nat, n: nat, v: nat, p: nat, x: nat)
    requires ProcOk(k, m, r, n) && v < n && MapsTo(m, r, v, x) && At(m.tables, r, LowOf(v)) == Some(p)
    requires p in m.tables && |m.tables[p]| == PTES
    ensures var m' := Dropped(m, p, Px(0, v), x);
            ProcOk(k, m', r, n) && Unmapped(m, m', r, v, 1) && Conserved(m, m', r, n, n)
  {
    var m' := Dropped(m, p, Px(0, v), x);
    DropSpace(k, m, r, n, v, p, x);
    DropMaps(k, m, m', r, v);
    DropCounts(k, m, r, n, v, p, x);
    hide TreeOk, Leaf, Unmapped, MapsTo, Counted, Untouched, FreeOk;
    assert UserOk(k, m', r, n);
  }

  lemma DropCounts(k: Range, m: Mem, r: nat, n: nat, v: nat, p: nat, x: nat)
    requires ProcOk(k, m, r, n) && v < n && MapsTo(m, r, v, x) && At(m.tables, r, LowOf(v)) == Some(p)
    requires p in m.tables && |m.tables[p]| == PTES
    ensures var m' := Dropped(m, p, Px(0, v), x); TreeOk(m'.tables, r) && Conserved(m, m', r, n, n)
  {
    var m' := Dropped(m, p, Px(0, v), x);
    DropSpace(k, m, r, n, v, p, x);
    DropMaps(k, m, m', r, v);
    PxRange(v);
    assert IsNode(m.tables, r, LowOf(v), p);
    assert Counted(m, r, n, p) && Counted(m, r, n, x);
    hide TreeOk, Leaf, Unmapped, MapsTo, FreeOk, UserOk, SpaceOk;
    forall y ensures (Counted(m', r, n, y) <==> Counted(m, r, n, y)) && (!Counted(m, r, n, y) ==> Untouched(m, m', y)) {
      if exists w :: MapsTo(m, r, w, y) && w < n {
        var w :| MapsTo(m, r, w, y) && w < n;
        assert w == v || MapsTo(m', r, w, y);
      }
      if exists w :: MapsTo(m', r, w, y) && w < n {
        var w :| MapsTo(m', r, w, y) && w < n;
        assert MapsTo(m, r, w, y);
      }
    }
  }

  lemma ConservedTrans(m: Mem, m1: Mem, m2: Mem, r: nat, n: nat, n1: nat, n2: nat)
    requires TreeOk(m.tables, r) && TreeOk(m1.tables, r) && TreeOk(m2.tables, r)
    requires Conserved(m, m1, r, n, n1) && Conserved(m1, m2, r, n1, n2)
    ensures Conserved(m, m2, r, n, n2)
  {}

  lemma UnmappedMore(m: Mem, m1: Mem, m2: Mem, r: nat, first: nat, i: nat)
    requires TreeOk(m.tables, r) && TreeOk(m1.tables, r) && TreeOk(m2.tables, r)
    requires Unmapped(m, m1, r, first, i) && Unmapped(m1, m2, r, first + i, 1)
    ensures Unmapped(m, m2, r, first, i + 1)
  {}

  /** Pages with no mapping need not be counted. */
  lemma ShrinkProc(k: Range, m: Mem, r: nat, n: nat, n': nat)
    requires ProcOk(k, m, r, n) && n' <= n && forall v :: n' <= v < n && v < MAXVPN ==> Leaf(m.tables, r, v).None?
    ensures ProcOk(k, m, r, n') && Conserved(m, m, r, n, n')
  {
    forall p ensures Counted(m, r, n', p) <==> Counted(m, r, n, p) {
      if exists v :: MapsTo(m, r, v, p) && v < n {
        var v :| MapsTo(m, r, v, p) && v < n;
        assert v < n';
      }
    }
  }

  ghost predicate IsBlank(z: Bytes) {
    forall i :: 0 <= i < PGSIZE ==> z[i] == 0
  }

  /** Memory with page x taken off the free list and filled. */
  ghost function Taken(m: Mem, contents: Bytes): Mem
    requires |m.free| > 0
  {
    Mem(m.tables, m.data[m.free[0] := contents], m.free[1..])
  }

  lemma TakenSpace(k: Range, m: Mem, r: nat, n: nat, contents: Bytes)
    requires ProcOk(k, m, r, n) && |m.free| > 0
    ensures var m1, x := Taken(m, contents), m.free[0];
            && ProcOk(k, m1, r, n) && Managed(k, x) && x !in m1.free && !InTree(m1.tables, r, x) && x !in m1.tables
            && (forall v :: MapsTo(m1, r, v, x) ==> v >= n) && (forall y :: y in m.free <==> y == x || y in m1.free)
  {
    assert m.free == [m.free[0]] + m.free[1..];
    assert forall v, y :: MapsTo(Taken(m, contents), r, v, y) <==> MapsTo(m, r, v, y);
  }

  /** Giving the page back. */
  lemma ReturnedSpace(k: Range, m: Mem, m2: Mem, r: nat, n: nat, x: nat)
    requires ProcOk(k, m2, r, n) && Managed(k, x) && x !in m2.free && !InTree(m2.tables, r, x) && x !in m2.tables
    requires forall v :: MapsTo(m2, r, v, x) ==> v >= n
    ensures var m3 := m2.(free := [x] + m2.free, data := m2.data - {x});
            && ProcOk(k, m3, r, n) && SameMap(m2.tables, m3.tables, r)
            && forall p :: Counted(m3, r, n, p) <==> Counted(m2, r, n, p) || p == x
  {
    var m3 := m2.(free := [x] + m2.free, data := m2.data - {x});
    assert forall v, y :: MapsTo(m3, r, v, y) <==> MapsTo(m2, r, v, y);
    forall p ensures Counted(m3, r, n, p) <==> Counted(m2, r, n, p) || p == x {
      if exists v :: MapsTo(m2, r, v, p) && v < n {
        var v :| MapsTo(m2, r, v, p) && v < n;
        assert MapsTo(m3, r, v, p);
      }
      if exists v :: MapsTo(m3, r, v, p) && v < n {
        var v :| MapsTo(m3, r, v, p) && v < n;
        assert MapsTo(m2, r, v, p);
      }
    }
  }

  /** The page mapped as the next user page. */
  lemma GrownProc(k: Range, m2: Mem, m3: Mem, r: nat, n: nat, x: nat, flags: nat)
    requires ProcOk(k, m2, r, n) && n < MAXVPN && Managed(k, x) && x !in m2.free && !InTree(m2.tables, r, x)
    requires x in m2.data && x !in m2.tables
    requires forall v :: MapsTo(m2, r, v, x) ==> v >= n
    requires Tabled(k, m2, m3, r) && flags < 1024 && Mapped(m2, m3, r, n, 1, x, flags)
    requires !InTree(m3.tables, r, x)
    ensures ProcOk(k, m3, r, n + 1) && forall p :: Counted(m3, r, n + 1, p) <==> Counted(m2, r, n, p) || p == x
  {
    PteFields(x, flags);
    assert forall v, y :: v < n ==> (MapsTo(m3, r, v, y) <==> MapsTo(m2, r, v, y));
    assert MapsTo(m3, r, n, x) && forall y :: MapsTo(m3, r, n, y) ==> y == x;
    forall p ensures Counted(m3, r, n + 1, p) <==> Counted(m2, r, n, p) || p == x {
      if exists v :: MapsTo(m2, r, v, p) && v < n {
        var v :| MapsTo(m2, r, v, p) && v < n;
        assert MapsTo(m3, r, v, p);
      }
      if exists v :: MapsTo(m3, r, v, p) && v < n + 1 {
        var v :| MapsTo(m3, r, v, p) && v < n + 1;
        assert v == n || MapsTo(m2, r, v, p);
      }
    }
  }

  /** kalloc and a successful mappages of the page as user page n. */
  lemma GrowDone(k: Range, m: Mem, contents: Bytes, m2: Mem, r: nat, n: nat, flags: nat)
    requires ProcOk(k, m, r, n) && |m.free| > 0 && n < MAXVPN && flags < 1024
    requires SpaceOk(k, Taken(m, contents), r) && Tabled(k, Taken(m, contents), m2, r)
    requires Mapped(Taken(m, contents), m2, r, n, 1, m.free[0], flags)
    ensures ProcOk(k, m2, r, n + 1) && Conserved(m, m2, r, n, n + 1) && Mapped(m, m2, r, n, 1, m.free[0], flags)
    ensures m2.data == m.data[m.free[0] := contents]
  {
    hide Counted, TreeOk, FreeOk, Elsewhere, Leaf;
    var m1, x := Taken(m, contents), m.free[0];
    TakenSpace(k, m, r, n, contents);
    GrownProc(k, m1, m2, r, n, x, flags);
    TakenCount(k, m, r, n, contents);
    var n' := n + 1;
    forall p
      ensures (Counted(m2, r, n', p) <==> Counted(m, r, n, p)) && (!Counted(m, r, n, p) ==> Untouched(m, m2, p))
    {
      assert Counted(m2, r, n', p) <==> Counted(m1, r, n, p) || p == x;
      if !Counted(m, r, n, p) { TakenOthers(k, m, contents, m2, r, n, p); }
    }
    assert Conserved(m, m2, r, n, n');
  }

  lemma TakenCount(k: Range, m: Mem, r: nat, n: nat, contents: Bytes)
    requires ProcOk(k, m, r, n) && |m.free| > 0
    ensures forall p :: Counted(m, r, n, p) <==> Counted(Taken(m, contents), r, n, p) || p == m.free[0]
  {
    var m1 := Taken(m, contents);
    assert m.free == [m.free[0]] + m1.free;
    assert forall v, y :: MapsTo(m1, r, v, y) <==> MapsTo(m, r, v, y);
    forall p ensures Counted(m, r, n, p) <==> Counted(m1, r, n, p) || p == m.free[0] {
      if exists v :: MapsTo(m, r, v, p) && v < n {
        var v :| MapsTo(m, r, v, p) && v < n;
        assert MapsTo(m1, r, v, p);
      }
      if exists v :: MapsTo(m1, r, v, p) && v < n {
        var v :| MapsTo(m1, r, v, p) && v < n;
        assert MapsTo(m, r, v, p);
      }
    }
  }

  lemma TakenOthers(k: Range, m: Mem, contents: Bytes, m2: Mem, r: nat, n: nat, p: int)
    requires ProcOk(k, m, r, n) && |m.free| > 0 && !Counted(m, r, n, p)
    requires SpaceOk(k, Taken(m, contents), r) && Tabled(k, Taken(m, contents), m2, r)
    ensures Untouched(m, m2, p)
  {
    assert m.free == [m.free[0]] + m.free[1..];
  }

  /** kalloc, a mappages that ran out of memory, and kfree of the page. */
  lemma GrowFailed(k: Range, m: Mem, contents: Bytes, m2: Mem, m3: Mem, r: nat, n: nat, flags: nat)
    requires ProcOk(k, m, r, n) && |m.free| > 0 && flags < 1024
    requires SpaceOk(k, Taken(m, contents), r) && Tabled(k, Taken(m, contents), m2, r)
    requires Mapped(Taken(m, contents), m2, r, n, 0, m.free[0], flags)
    requires m3 == Mem(m2.tables - {m.free[0]}, m2.data - {m.free[0]}, [m.free[0]] + m2.free)
    ensures ProcOk(k, m3, r, n) && Conserved(m, m3, r, n, n) && SameMap(m.tables, m3.tables, r)
    ensures m3.tables == m2.tables
    ensures m.free[0] !in m.data ==> m3.data == m.data
  {
    hide Counted, TreeOk, FreeOk;
    var m1, x := Taken(m, contents), m.free[0];
    TakenSpace(k, m, r, n, contents);
    TakenCount(k, m, r, n, contents);
    assert Walked(k, m1, m2, r);
    WalkedProc(k, m1, m2, r, n);
    assert x !in m2.tables && !InTree(m2.tables, r, x);
    assert m2.tables - {x} == m2.tables;
    assert forall v :: MapsTo(m2, r, v, x) ==> MapsTo(m1, r, v, x);
    ReturnedSpace(k, m, m2, r, n, x);
  }

  // ----- the process's view of its memory

  datatype Page = Page(flags: nat, bytes: Bytes)

  /** What a process has at virtual page v: the flags and the contents. */
  ghost function PageAt(m: Mem, r: nat, v: int): Option<Page>
    requires TreeOk(m.tables, r) && 0 <= v < MAXVPN
  {
    var e := Leaf(m.tables, r, v);
    if e.Some? && Ppn(e.value) in m.data then Some(Page(Flags(e.value), m.data[Ppn(e.value)])) else None
  }

  /** The first n virtual pages are mapped as before and hold what they held. */
  ghost predicate Stable(m: Mem, m': Mem, r: nat, n: nat)
    requires TreeOk(m.tables, r) && TreeOk(m'.tables, r)
  {
    forall v :: 0 <= v < n && v < MAXVPN ==>
      Leaf(m'.tables, r, v) == Leaf(m.tables, r, v) && PageAt(m', r, v) == PageAt(m, r, v)
  }

  /** Nothing moved in the map from virtual page n up. */
  ghost predicate SameAbove(m: Mem, m': Mem, r: nat, n: nat)
    requires TreeOk(m.tables, r) && TreeOk(m'.tables, r)
  {
    forall v :: n <= v < MAXVPN ==> Leaf(m'.tables, r, v) == Leaf(m.tables, r, v)
  }

  /** Same map, and data that is not on the free list unchanged. */
  lemma StableData(k: Range, m: Mem, m': Mem, r: nat, n: nat)
    requires ProcOk(k, m, r, n) && TreeOk(m'.tables, r)
    requires forall v :: 0 <= v < n && v < MAXVPN ==> Leaf(m'.tables, r, v) == Leaf(m.tables, r, v)
    requires forall p :: p in m.data && p !in m.free ==> p in m'.data && m'.data[p] == m.data[p]
    ensures Stable(m, m', r, n)
  {
    forall v | 0 <= v < n && v < MAXVPN ensures PageAt(m', r, v) == PageAt(m, r, v) {
      if Leaf(m.tables, r, v).Some? {
        assert MapsTo(m, r, v, Ppn(Leaf(m.tables, r, v).value));
      }
    }
  }

  lemma StableTrans(m: Mem, m1: Mem, m2: Mem, r: nat, n: nat)
    requires TreeOk(m.tables, r) && TreeOk(m1.tables, r) && TreeOk(m2.tables, r) && Stable(m, m1, r, n)
    requires Stable(m1, m2, r, n)
    ensures Stable(m, m2, r, n)
  {}

  /** The pages that uvmunmap leaves are as they were. */
  lemma UnmappedStable(k: Range, m: Mem, m': Mem, r: nat, n: nat, first: nat, count: nat)
    requires TreeOk(m.tables, r) && ProcOk(k, m', r, n) && Unmapped(m, m', r, first, count) && first <= n
    ensures Stable(m, m', r, first)
  {
    forall v | 0 <= v < first && v < MAXVPN ensures PageAt(m', r, v) == PageAt(m, r, v) {
      if Leaf(m'.tables, r, v).Some? {
        assert MapsTo(m', r, v, Ppn(Leaf(m'.tables, r, v).value));
      }
    }
  }

  /** A user page has both an entry and contents. */
  lemma PageBacked(k: Range, m: Mem, r: nat, n: nat, v: nat)
    requires ProcOk(k, m, r, n) && v < n && v < MAXVPN
    ensures Leaf(m.tables, r, v).Some? == PageAt(m, r, v).Some?
  {
    if Leaf(m.tables, r, v).Some? {
      assert MapsTo(m, r, v, Ppn(Leaf(m.tables, r, v).value));
    }
  }
}
