/** Which tables walk adds to a page table, how many free pages that takes, and what a whole uvmcopy needs. */
module VmNeed {
  import opened Blocks
  import opened PageTable
  import opened VmState

  /** The nodes that walk passes on its way to virtual page v. */
  predicate OnWay(x: Node, v: nat) {
    x == Root || x == Mid(Px(2, v)) || x == LowOf(v)
  }

  function Level(x: Node): nat { if x.Root? then 2 else if x.Mid? then 1 else 0 }

  /** The node walk has reached when its loop variable is level. */
  function NodeAt(level: nat, v: nat): Node
    requires level <= 2
  {
    if level == 2 then Root else if level == 1 then Mid(Px(2, v)) else LowOf(v)
  }

  /** Tables of this level and above that are missing on the way to v. */
  function MissingTo(t: Tables, r: nat, v: nat, level: nat): nat {
    (if level <= 1 && At(t, r, Mid(Px(2, v))).None? then 1 else 0) +
      (if level == 0 && At(t, r, LowOf(v)).None? then 1 else 0)
  }

  /** Tables that walk must add to reach v. */
  function Missing(t: Tables, r: nat, v: nat): (n: nat)
    ensures n <= 2
  {
    MissingTo(t, r, v, 0)
  }

  /** t' has the nodes of t and those on the way to v down to this level. */
  ghost predicate Reached(t: Tables, t': Tables, r: nat, v: nat, level: nat) {
    forall x :: NodeOk(x) ==> (At(t', r, x).Some? <==> At(t, r, x).Some? || (OnWay(x, v) && Level(x) >= level))
  }

  /** The two trees have the same level-0 tables. */
  ghost predicate SameLows(t: Tables, t': Tables, r: nat) {
    forall x :: NodeOk(x) && x.Low? ==> At(t', r, x).Some? == At(t, r, x).Some?
  }

  lemma ReachedStart(t: Tables, r: nat, v: nat)
    ensures Reached(t, t, r, v, 2) && MissingTo(t, r, v, 2) == 0
  {}

  /** walk follows an entry that is there. */
  lemma ReachedSkip(t: Tables, t': Tables, r: nat, v: nat, level: nat)
    requires 0 < level <= 2 && v < MAXVPN && Reached(t, t', r, v, level) && At(t', r, NodeAt(level - 1, v)).Some?
    ensures Reached(t, t', r, v, level - 1) && MissingTo(t, r, v, level - 1) == MissingTo(t, r, v, level)
  {
    PxRange(v);
    assert NodeOk(NodeAt(level - 1, v));
  }

  /** walk hangs a new table. */
  lemma ReachedAdd(t: Tables, t1: Tables, t2: Tables, r: nat, v: nat, level: nat)
    requires 0 < level <= 2 && v < MAXVPN && Reached(t, t1, r, v, level) && At(t1, r, NodeAt(level - 1, v)).None?
    requires forall x :: NodeOk(x) ==> At(t2, r, x).Some? == (x == NodeAt(level - 1, v) || At(t1, r, x).Some?)
    ensures Reached(t, t2, r, v, level - 1) && MissingTo(t, r, v, level - 1) == MissingTo(t, r, v, level) + 1
  {
    PxRange(v);
    assert NodeOk(NodeAt(level - 1, v));
    assert At(t, r, NodeAt(level - 1, v)).None?;
  }

  /** Where walk stops, more tables are missing than it has added. */
  lemma ReachedShort(t: Tables, t': Tables, r: nat, v: nat, level: nat)
    requires 0 < level <= 2 && v < MAXVPN && Reached(t, t', r, v, level) && At(t', r, NodeAt(level - 1, v)).None?
    ensures MissingTo(t, r, v, level) < Missing(t, r, v) && SameLows(t, t', r)
  {
    PxRange(v);
    assert NodeOk(NodeAt(level - 1, v));
    assert At(t, r, NodeAt(level - 1, v)).None?;
  }

  // ----- copying an address space

  /** The parent has a page at v. */
  ghost predicate HasPage(m: Mem, parent: nat, v: int)
    requires TreeOk(m.tables, parent)
  {
    0 <= v < MAXVPN && Leaf(m.tables, parent, v).Some?
  }

  /** The child has node x once the parent's pages below i are copied. */
  ghost predicate Gets(m: Mem, parent: nat, child: nat, i: nat, x: Node)
    requires TreeOk(m.tables, parent)
  {
    At(m.tables, child, x).Some? || exists v :: 0 <= v < i && HasPage(m, parent, v) && OnWay(x, v)
  }

  /** Tables to be added for page v of the parent, after those before it. */
  ghost function NewTables(m: Mem, parent: nat, child: nat, v: nat): nat
    requires TreeOk(m.tables, parent)
  {
    (if Gets(m, parent, child, v, Mid(Px(2, v))) then 0 else 1) + (if Gets(m, parent, child, v, LowOf(v)) then 0 else 1)
  }

  /** Free pages that copying the parent's pages below i takes: one for each, and the tables. */
  ghost function Need(m: Mem, parent: nat, child: nat, i: nat): nat
    requires TreeOk(m.tables, parent)
  {
    if i == 0 then 0
    else Need(m, parent, child, i - 1) + if HasPage(m, parent, i - 1) then 1 + NewTables(m, parent, child, i - 1) else 0
  }

  lemma {:induction false} NeedBound(m: Mem, parent: nat, child: nat, i: nat)
    requires TreeOk(m.tables, parent)
    ensures Need(m, parent, child, i) <= 3 * i
  {
    if i > 0 { NeedBound(m, parent, child, i - 1); }
  }

  /** The child's tree after i pages. */
  ghost predicate Grafted(m: Mem, t: Tables, parent: nat, child: nat, i: nat)
    requires TreeOk(m.tables, parent)
  {
    forall x :: NodeOk(x) ==> (At(t, child, x).Some? <==> Gets(m, parent, child, i, x))
  }

  /** The same of level-0 tables only. */
  ghost predicate GraftedLow(m: Mem, t: Tables, parent: nat, child: nat, i: nat)
    requires TreeOk(m.tables, parent)
  {
    forall x :: NodeOk(x) && x.Low? ==> (At(t, child, x).Some? <==> Gets(m, parent, child, i, x))
  }

  lemma GraftedLows(m: Mem, t: Tables, t': Tables, parent: nat, child: nat, i: nat)
    requires TreeOk(m.tables, parent) && Grafted(m, t, parent, child, i) && SameLows(t, t', child)
    ensures GraftedLow(m, t', parent, child, i)
  {
    hide Gets, At;
  }

  lemma GraftedStart(m: Mem, parent: nat, child: nat)
    requires TreeOk(m.tables, parent)
    ensures Grafted(m, m.tables, parent, child, 0)
  {}

  lemma GraftedMissing(m: Mem, t: Tables, parent: nat, child: nat, i: nat)
    requires TreeOk(m.tables, parent) && Grafted(m, t, parent, child, i) && i < MAXVPN
    ensures Missing(t, child, i) == NewTables(m, parent, child, i)
  {
    PxRange(i);
    assert NodeOk(Mid(Px(2, i))) && NodeOk(LowOf(i));
  }

  /** A page copied. */
  lemma GraftedMore(m: Mem, t: Tables, t': Tables, parent: nat, child: nat, i: nat)
    requires TreeOk(m.tables, parent) && Grafted(m, t, parent, child, i) && HasPage(m, parent, i)
    requires Reached(t, t', child, i, 0)
    ensures Grafted(m, t', parent, child, i + 1)
  {
    var i' := i + 1;
    forall x | NodeOk(x) ensures At(t', child, x).Some? <==> Gets(m, parent, child, i', x) {
      assert At(t', child, x).Some? <==> Gets(m, parent, child, i, x) || OnWay(x, i);
      GetsMore(m, parent, child, i, x);
    }
  }

  /** A hole skipped. */
  lemma GraftedHole(m: Mem, t: Tables, parent: nat, child: nat, i: nat)
    requires TreeOk(m.tables, parent) && Grafted(m, t, parent, child, i) && !HasPage(m, parent, i)
    ensures Grafted(m, t, parent, child, i + 1)
  {
    var i' := i + 1;
    forall x | NodeOk(x) ensures At(t, child, x).Some? <==> Gets(m, parent, child, i', x) {
      GetsMore(m, parent, child, i, x);
    }
  }

  lemma GetsMore(m: Mem, parent: nat, child: nat, i: nat, x: Node)
    requires TreeOk(m.tables, parent)
    ensures Gets(m, parent, child, i + 1, x) <==> Gets(m, parent, child, i, x) || (HasPage(m, parent, i) && OnWay(x, i))
  {
    if exists v :: 0 <= v < i && HasPage(m, parent, v) && OnWay(x, v) {
      var v :| 0 <= v < i && HasPage(m, parent, v) && OnWay(x, v);
      assert 0 <= v < i + 1;
    }
    if HasPage(m, parent, i) && OnWay(x, i) {
      assert 0 <= i < i + 1;
    }
    if exists v :: 0 <= v < i + 1 && HasPage(m, parent, v) && OnWay(x, v) {
      var v :| 0 <= v < i + 1 && HasPage(m, parent, v) && OnWay(x, v);
      assert v == i || 0 <= v < i;
    }
  }

  /** Virtual page v has no entry to look at: beyond MAXVA, or without a level-0 table. */
  ghost predicate NoTable(t: Tables, r: nat, v: int) {
    v < 0 || v >= MAXVPN || At(t, r, LowOf(v)).None?
  }

  /** uvmcopy goes no further than page v: it panics there, or memory runs out. */
  ghost predicate CopyStops(m: Mem, parent: nat, child: nat, v: nat)
    requires TreeOk(m.tables, parent)
  {
    NoTable(m.tables, parent, v) || |m.free| < Need(m, parent, child, v + 1)
  }

  /** With three free pages for each page of the parent, its own and two tables, memory does not run out. */
  lemma CopyFits(m: Mem, parent: nat, child: nat, n: nat, v: nat)
    requires TreeOk(m.tables, parent) && v < n && 3 * n <= |m.free| && CopyStops(m, parent, child, v)
    ensures NoTable(m.tables, parent, v)
  {
    NeedBound(m, parent, child, v + 1);
  }

  /** The error path of uvmcopy, at page `at`, cannot unmap page v of the child: no level-0 table was made for
      it, or its entry has no flag but V. */
  ghost predicate CopyStuck(m: Mem, parent: nat, child: nat, at: nat, v: int)
    requires TreeOk(m.tables, parent)
  {
    v < 0 || v >= MAXVPN || !Gets(m, parent, child, at, LowOf(v))
      || (HasPage(m, parent, v) && Flags(Leaf(m.tables, parent, v).value) == PTE_V)
  }

  /** uvmcopy panics: the parent has no level-0 table for the page it stops at, or memory ran out there and
      some page before it cannot be unmapped again. */
  ghost predicate CopyPanics(m: Mem, parent: nat, child: nat, at: nat)
    requires TreeOk(m.tables, parent)
  {
    NoTable(m.tables, parent, at) || exists v :: 0 <= v < at && CopyStuck(m, parent, child, at, v)
  }
}
