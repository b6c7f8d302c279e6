/** Sv39 page tables as the three-level radix tree vm.c keeps in physical pages, and the flat map
    from virtual page to PTE that the tree stands for (section 4.4 of the RISC-V Privileged
    Architecture). */
module PageTable {
  import opened Blocks

  const PGSIZE: nat := 4096
  const PTES: nat := 512
  const MAXVPN: nat := 0x400_0000 // MAXVA / PGSIZE
  const TOP: nat := 256 // root entries below MAXVA

  const PTE_V: nat := 1

  /** Physical page number to the 512 entries of the page-table page there. */
  type Tables = map<nat, seq<nat>>

  // ----- addresses and entries

  /** PX(level, va), on the page number of va. */
  function Px(level: nat, vpn: nat): (i: nat)
    requires level <= 2
    ensures i < PTES
  {
    if level == 0 then vpn % 512 else if level == 1 then vpn / 512 % 512 else vpn / 0x4_0000 % 512
  }

  function PteOf(ppn: nat, flags: nat): nat
    requires flags < 1024
  {
    ppn * 1024 + flags
  }

  function Ppn(pte: nat): nat { pte / 1024 }

  function Flags(pte: nat): nat { pte % 1024 }

  predicate IsValid(pte: nat) { pte % 2 == 1 }

  /** R, W or X set. */
  predicate IsLeafEntry(pte: nat) { pte / 2 % 8 != 0 }

  lemma PxRange(vpn: nat)
    requires vpn < MAXVPN
    ensures Px(2, vpn) < TOP
  {}

  /** The three indices identify the page. */
  lemma PxInjective(v: nat, w: nat)
    requires v < MAXVPN && w < MAXVPN
    requires Px(0, v) == Px(0, w) && Px(1, v) == Px(1, w) && Px(2, v) == Px(2, w)
    ensures v == w
  {
    assert v / 0x4_0000 == v / 512 / 512 && w / 0x4_0000 == w / 512 / 512;
  }

  /** An entry gives back the page number and flags it was made of. */
  lemma PteFields(ppn: nat, flags: nat)
    requires flags < 1024
    ensures Ppn(PteOf(ppn, flags)) == ppn && Flags(PteOf(ppn, flags)) == flags
  {}

  lemma PteBits(ppn: nat, flags: nat)
    requires flags < 1024
    ensures IsValid(PteOf(ppn, flags)) == (flags % 2 == 1) && IsLeafEntry(PteOf(ppn, flags)) == (flags / 2 % 8 != 0)
  {
    var half, low := ppn * 512 + flags / 2, flags / 2 % 8;
    assert PteOf(ppn, flags) == half * 2 + flags % 2;
    assert PteOf(ppn, flags) / 2 == half;
    assert half == (ppn * 64 + flags / 16) * 8 + low;
  }

  // ----- the tree

  datatype Node = Root | Mid(i2: int) | Low(j2: int, j1: int)

  predicate NodeOk(n: Node) {
    match n
    case Root => true
    case Mid(i2) => 0 <= i2 < TOP
    case Low(j2, j1) => 0 <= j2 < TOP && 0 <= j1 < PTES
  }

  /** The page an entry of page p points to. */
  function Child(t: Tables, p: nat, i: int): Option<nat> {
    if p in t && 0 <= i < |t[p]| && IsValid(t[p][i]) then Some(Ppn(t[p][i])) else None
  }

  /** The page of a node of the tree rooted at r, if the tree has that node. */
  function At(t: Tables, r: nat, n: Node): Option<nat> {
    match n
    case Root => Some(r)
    case Mid(i2) => Child(t, r, i2)
    case Low(j2, j1) =>
      var m := Child(t, r, j2);
      if m.None? then None else Child(t, m.value, j1)
  }

  /** Page p is the page of node n. */
  ghost predicate IsNode(t: Tables, r: nat, n: Node, p: int) {
    NodeOk(n) && At(t, r, n) == Some(p)
  }

  /** Nodes are whole table pages, no page serves two nodes, interior entries are not leaves, and
      the root entries beyond MAXVA are unused. */
  ghost predicate TreeOk(t: Tables, r: nat) {
    && (forall n, p :: IsNode(t, r, n, p) ==> p in t && |t[p]| == PTES)
    && (forall n, n', p :: IsNode(t, r, n, p) && IsNode(t, r, n', p) ==> n == n')
    && (forall n, p, i :: IsNode(t, r, n, p) && !n.Low? && p in t && 0 <= i < |t[p]| && IsValid(t[p][i]) ==>
        !IsLeafEntry(t[p][i]))
    && (forall i :: TOP <= i < PTES ==> Child(t, r, i).None?)
  }

  function LowOf(vpn: int): Node
    requires 0 <= vpn
  {
    Low(Px(2, vpn), Px(1, vpn))
  }

  /** The flat map: the valid level-0 entry of a virtual page. */
  ghost function Leaf(t: Tables, r: nat, vpn: int): Option<nat>
    requires TreeOk(t, r) && 0 <= vpn < MAXVPN
  {
    var p := At(t, r, LowOf(vpn));
    if p.None? then None
    else
      assert IsNode(t, r, LowOf(vpn), p.value);
      var pte := t[p.value][Px(0, vpn)];
      if IsValid(pte) then Some(pte) else None
  }

  ghost predicate SameMap(t: Tables, t': Tables, r: nat)
    requires TreeOk(t, r) && TreeOk(t', r)
  {
    forall vpn :: 0 <= vpn < MAXVPN ==> Leaf(t', r, vpn) == Leaf(t, r, vpn)
  }

  /** Page p belongs to the tree. */
  ghost predicate InTree(t: Tables, r: nat, p: int) {
    exists n :: IsNode(t, r, n, p)
  }

  ghost function ChildNode(n: Node, i: int): Node
    requires !n.Low?
  {
    if n.Root? then Mid(i) else Low(n.i2, i)
  }

  /** One entry of one table page replaced. */
  function WithPte(t: Tables, p: nat, i: nat, pte: nat): Tables
    requires p in t && i < |t[p]|
  {
    var row: seq<nat> := t[p][i := pte];
    t[p := row]
  }

  // ----- adding a table page

  ghost predicate IsZeroTable(s: seq<nat>) {
    |s| == PTES && forall i :: 0 <= i < PTES ==> s[i] == 0
  }

  /** walk's extension: a cleared page q hung below entry i of node n. */
  ghost predicate Extends(t: Tables, t': Tables, r: nat, n: Node, p: nat, i: nat, q: nat) {
    && IsNode(t, r, n, p) && !n.Low? && i < PTES && NodeOk(ChildNode(n, i)) && p in t && |t[p]| == PTES
    && !IsValid(t[p][i])
    && !InTree(t, r, q) && q in t' && IsZeroTable(t'[q])
    && t' == WithPte(t, p, i, PteOf(q, PTE_V))[q := t'[q]]
  }

  /** Entries after the extension: the new one, none below q, the others as before. */
  lemma ExtendEntry(t: Tables, t': Tables, r: nat, n: Node, p: nat, i: nat, q: nat, x: nat, j: int)
    requires TreeOk(t, r) && Extends(t, t', r, n, p, i, q)
    ensures Child(t', x, j) == if x == q then None else if x == p && j == i then Some(q) else Child(t, x, j)
  {
    hide TreeOk, InTree;
    PteFields(q, PTE_V);
    PteBits(q, PTE_V);
    NotInTree(t, r, n, p, q);
  }

  lemma NotInTree(t: Tables, r: nat, n: Node, p: nat, q: nat)
    requires !InTree(t, r, q) && IsNode(t, r, n, p)
    ensures p != q && r != q
  {
    assert IsNode(t, r, Root, r);
  }

  lemma ExtendAt(t: Tables, t': Tables, r: nat, n: Node, p: nat, i: nat, q: nat, m: Node)
    requires TreeOk(t, r) && Extends(t, t', r, n, p, i, q) && NodeOk(m)
    ensures At(t', r, m) == if m == ChildNode(n, i) then Some(q) else At(t, r, m)
  {
    NotInTree(t, r, n, p, q);
    assert IsNode(t, r, Root, r);
    match m
    case Root =>
    case Mid(i2) =>
      ExtendEntry(t, t', r, n, p, i, q, r, i2);
      hide Child;
    case Low(j2, j1) =>
      ExtendEntry(t, t', r, n, p, i, q, r, j2);
      ChildEmpty(t, r, n, p, i);
      if At(t, r, Mid(j2)).Some? {
        var c := At(t, r, Mid(j2)).value;
        assert IsNode(t, r, Mid(j2), c);
        ExtendEntry(t, t', r, n, p, i, q, c, j1);
      }
      ExtendEntry(t, t', r, n, p, i, q, q, j1);
      hide Child;
  }

  lemma ExtendNodes(t: Tables, t': Tables, r: nat, n: Node, p: nat, i: nat, q: nat)
    requires TreeOk(t, r) && Extends(t, t', r, n, p, i, q)
    ensures forall m, c :: IsNode(t', r, m, c) <==> IsNode(t, r, m, c) || (m == ChildNode(n, i) && c == q)
  {
    hide Extends, TreeOk, At;
    ExtendChild(t, t', r, n, p, i, q);
    forall m, c ensures IsNode(t', r, m, c) <==> IsNode(t, r, m, c) || (m == ChildNode(n, i) && c == q) {
      if NodeOk(m) {
        ExtendAt(t, t', r, n, p, i, q, m);
      }
    }
  }

  lemma ExtendChild(t: Tables, t': Tables, r: nat, n: Node, p: nat, i: nat, q: nat)
    requires TreeOk(t, r) && Extends(t, t', r, n, p, i, q)
    ensures !n.Low? && At(t, r, ChildNode(n, i)).None? && NodeOk(ChildNode(n, i)) && IsNode(t, r, n, p)
  {
    ChildEmpty(t, r, n, p, i);
  }

  lemma ExtendTree(t: Tables, t': Tables, r: nat, n: Node, p: nat, i: nat, q: nat)
    requires TreeOk(t, r) && Extends(t, t', r, n, p, i, q)
    ensures TreeOk(t', r)
    ensures forall m, c :: IsNode(t', r, m, c) <==> IsNode(t, r, m, c) || (m == ChildNode(n, i) && c == q)
  {
    ExtendNodes(t, t', r, n, p, i, q);
    ExtendUpper(t, t', r, n, p, i, q);
    hide IsNode, IsValid, IsLeafEntry, PteOf, Child;
    PteFields(q, PTE_V);
    PteBits(q, PTE_V);
    ZeroInvalid();
    assert IsNode(t', r, n, p);
  }

  lemma ExtendUpper(t: Tables, t': Tables, r: nat, n: Node, p: nat, i: nat, q: nat)
    requires TreeOk(t, r) && Extends(t, t', r, n, p, i, q)
    ensures forall j :: TOP <= j < PTES ==> Child(t', r, j).None?
  {
    assert IsNode(t, r, Root, r);
    forall j | TOP <= j < PTES ensures Child(t', r, j).None? {
      assert Child(t, r, j).None?;
    }
  }

  lemma ZeroInvalid()
    ensures !IsValid(0)
  {}

  lemma ChildEmpty(t: Tables, r: nat, n: Node, p: nat, i: nat)
    requires TreeOk(t, r) && IsNode(t, r, n, p) && !n.Low? && i < PTES && p in t && |t[p]| == PTES && !IsValid(t[p][i])
    ensures At(t, r, ChildNode(n, i)).None?
  {}

  /** Extending the tree changes no mapping. */
  lemma ExtendMap(t: Tables, t': Tables, r: nat, n: Node, p: nat, i: nat, q: nat)
    requires TreeOk(t, r) && Extends(t, t', r, n, p, i, q)
    ensures TreeOk(t', r) && SameMap(t, t', r)
  {
    ExtendTree(t, t', r, n, p, i, q);
    forall vpn | 0 <= vpn < MAXVPN ensures Leaf(t', r, vpn) == Leaf(t, r, vpn) {
      var m := LowOf(vpn);
      ExtendAt(t, t', r, n, p, i, q, m);
      ChildEmpty(t, r, n, p, i);
      if At(t, r, m).Some? {
        assert IsNode(t, r, m, At(t, r, m).value);
      }
    }
  }

  // ----- writing a level-0 entry

  lemma StoreTree(t: Tables, r: nat, n: Node, p: nat, i: nat, pte: nat)
    requires TreeOk(t, r) && IsNode(t, r, n, p) && n.Low? && p in t && |t[p]| == PTES && i < PTES
    ensures TreeOk(WithPte(t, p, i, pte), r)
    ensures forall m, c :: IsNode(WithPte(t, p, i, pte), r, m, c) <==> IsNode(t, r, m, c)
  {
    hide IsValid, IsLeafEntry;
    var t' := WithPte(t, p, i, pte);
    forall m, c ensures IsNode(t', r, m, c) <==> IsNode(t, r, m, c) {
      if NodeOk(m) { StoreAt(t, r, n, p, i, pte, m); }
    }
    assert IsNode(t, r, Root, r);
    assert forall j :: TOP <= j < PTES ==> Child(t', r, j) == Child(t, r, j);
    StoreRows(t, t', r, n, p, i, pte);
  }

  lemma StoreRows(t: Tables, t': Tables, r: nat, n: Node, p: nat, i: nat, pte: nat)
    requires TreeOk(t, r) && IsNode(t, r, n, p) && n.Low? && p in t && |t[p]| == PTES && i < PTES
    requires t' == WithPte(t, p, i, pte)
    requires forall m, c :: IsNode(t', r, m, c) <==> IsNode(t, r, m, c)
    requires forall j :: TOP <= j < PTES ==> Child(t', r, j) == Child(t, r, j)
    ensures TreeOk(t', r)
  {
    hide IsValid, IsLeafEntry, IsNode;
  }

  lemma StoreAt(t: Tables, r: nat, n: Node, p: nat, i: nat, pte: nat, m: Node)
    requires TreeOk(t, r) && IsNode(t, r, n, p) && n.Low? && p in t && |t[p]| == PTES && i < PTES && NodeOk(m)
    ensures At(WithPte(t, p, i, pte), r, m) == At(t, r, m)
  {
    assert IsNode(t, r, Root, r);
    if m.Low? && At(t, r, Mid(m.j2)).Some? {
      assert IsNode(t, r, Mid(m.j2), At(t, r, Mid(m.j2)).value);
    }
  }

  /** Storing an entry of a virtual page's level-0 table changes the map at that page alone. */
  lemma StoreMap(t: Tables, r: nat, vpn: nat, p: nat, pte: nat)
    requires TreeOk(t, r) && vpn < MAXVPN && At(t, r, LowOf(vpn)) == Some(p) && p in t && |t[p]| == PTES
    ensures var t' := WithPte(t, p, Px(0, vpn), pte);
            && TreeOk(t', r)
            && forall v :: 0 <= v < MAXVPN ==>
                 Leaf(t', r, v) == if v == vpn then (if IsValid(pte) then Some(pte) else None) else Leaf(t, r, v)
  {
    var t' := WithPte(t, p, Px(0, vpn), pte);
    assert IsNode(t, r, LowOf(vpn), p);
    StoreTree(t, r, LowOf(vpn), p, Px(0, vpn), pte);
    forall v | 0 <= v < MAXVPN
      ensures Leaf(t', r, v) == if v == vpn then (if IsValid(pte) then Some(pte) else None) else Leaf(t, r, v)
    {
      if At(t, r, LowOf(v)).Some? {
        var c := At(t, r, LowOf(v)).value;
        assert IsNode(t, r, LowOf(v), c) && IsNode(t', r, LowOf(v), c);
        if c == p && Px(0, v) == Px(0, vpn) { PxInjective(v, vpn); }
      } else if At(t', r, LowOf(v)).Some? {
        assert IsNode(t', r, LowOf(v), At(t', r, LowOf(v)).value);
      }
    }
  }
}
