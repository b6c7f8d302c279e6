/** All processes at once: every page that kinit gave out is free, belongs to one process in one place, or is
    held by the rest of the kernel. */
module VmWorld {
  import opened Blocks
  import opened PageTable
  import opened VmCode
  import opened VmCopy
  import opened VmFree
  import opened VmNeed
  import opened VmState

  /** Page-table roots with the number of user pages of each. */
  type Roots = map<nat, nat>

  /** p is a page of one of the processes. */
  ghost predicate InSome(m: Mem, ps: Roots, p: int)
    requires forall r :: r in ps ==> TreeOk(m.tables, r)
  {
    exists r :: r in ps && Owned(m, r, ps[r], p)
  }

  /** The managed pages are divided into the free list, the processes, and the pages held: those that kalloc
      gave for something else, such as kernel stacks, trapframes and pipes. */
  ghost predicate WorldOk(k: Range, m: Mem, ps: Roots, held: set<nat>) {
    && FreeOk(k, m.free) && (forall p :: p in m.free ==> p !in m.tables)
    && (forall r :: r in ps ==> ProcOk(k, m, r, ps[r]))
    && (forall r, q, p :: r in ps && q in ps && Owned(m, r, ps[r], p) && Owned(m, q, ps[q], p) ==> r == q)
    && (forall p :: p in held ==> Managed(k, p) && p !in m.free && !InSome(m, ps, p))
    && (forall p :: Managed(k, p) ==> p in m.free || p in held || InSome(m, ps, p))
  }

  /** A page of a process is one of its tables, at one node, or one of its user pages, at one virtual page. */
  lemma OnePlace(k: Range, m: Mem, ps: Roots, held: set<nat>, r: nat, p: int)
    requires WorldOk(k, m, ps, held) && r in ps && Owned(m, r, ps[r], p)
    ensures p !in m.free && p !in held && Managed(k, p)
    ensures forall q :: q in ps && Owned(m, q, ps[q], p) ==> q == r
    ensures InTree(m.tables, r, p) ==> forall v :: MapsTo(m, r, v, p) ==> v >= ps[r]
    ensures forall n, n' :: IsNode(m.tables, r, n, p) && IsNode(m.tables, r, n', p) ==> n == n'
    ensures forall v, w :: MapsTo(m, r, v, p) && MapsTo(m, r, w, p) && v < ps[r] && w < ps[r] ==> v == w
  {
    assert InSome(m, ps, p);
    if !InTree(m.tables, r, p) {
      var v :| MapsTo(m, r, v, p) && v < ps[r];
    }
  }

  // ----- what a process keeps while others work

  lemma Unharmed(k: Range, m: Mem, m': Mem, q: nat, n: nat)
    requires ProcOk(k, m, q, n) && FreeOk(k, m'.free)
    requires forall p :: Owned(m, q, n, p) ==> Untouched(m, m', p) && p !in m'.free
    requires forall p :: p in m'.free ==> p !in m'.tables
    ensures ProcOk(k, m', q, n) && forall p :: Owned(m', q, n, p) <==> Owned(m, q, n, p)
  {
    forall p | InTree(m.tables, q, p) ensures Untouched(m, m', p) {
      assert Owned(m, q, n, p);
    }
    UntouchedTree(m, m', q);
    UntouchedMap(m, m', q);
    IsolatedPages(k, m, m', q, n);
    IsolatedOwned(m, m', q, n);
    hide TreeOk, Leaf, InTree, FreeOk, Untouched, SameTree, SameMap, MapsTo;
    assert forall p :: InTree(m'.tables, q, p) ==> Owned(m', q, n, p);
    assert SpaceOk(k, m', q);
    UserStays(k, m, m', q, n);
  }

  lemma UserStays(k: Range, m: Mem, m': Mem, q: nat, n: nat)
    requires ProcOk(k, m, q, n) && TreeOk(m'.tables, q)
    requires forall v, p :: MapsTo(m', q, v, p) && v < n ==> MapsTo(m, q, v, p) && p in m'.data && p !in m'.tables
    requires forall p :: InTree(m'.tables, q, p) <==> InTree(m.tables, q, p)
    requires forall p :: Owned(m, q, n, p) ==> p !in m'.free
    ensures UserOk(k, m', q, n)
  {
    hide TreeOk, InTree, MapsTo, FreeOk;
    forall v, p | MapsTo(m', q, v, p) && v < n ensures p !in m'.free {
      assert Owned(m, q, n, p);
    }
  }

  // ----- one process at work

  /** Work on one process that keeps its accounts keeps the whole. */
  lemma WorldStep(k: Range, m: Mem, m': Mem, ps: Roots, held: set<nat>, r: nat, n': nat)
    requires WorldOk(k, m, ps, held) && r in ps && ProcOk(k, m', r, n') && Conserved(m, m', r, ps[r], n')
    ensures WorldOk(k, m', ps[r := n'], held)
  {
    var ps' := ps[r := n'];
    forall q | q in ps && q != r
      ensures ProcOk(k, m', q, ps[q]) && forall p :: Owned(m', q, ps[q], p) <==> Owned(m, q, ps[q], p)
      ensures forall p :: Owned(m, q, ps[q], p) ==> !Counted(m', r, n', p)
    {
      StepOthers(k, m, m', ps, held, r, n', q);
    }
    StepParts(k, m, m', ps, held, r, n');
  }

  lemma StepOthers(k: Range, m: Mem, m': Mem, ps: Roots, held: set<nat>, r: nat, n': nat, q: nat)
    requires WorldOk(k, m, ps, held) && r in ps && ProcOk(k, m', r, n') && Conserved(m, m', r, ps[r], n')
    requires q in ps && q != r
    ensures ProcOk(k, m', q, ps[q]) && forall p :: Owned(m', q, ps[q], p) <==> Owned(m, q, ps[q], p)
    ensures forall p :: Owned(m, q, ps[q], p) ==> !Counted(m', r, n', p)
  {
    forall p | Owned(m, q, ps[q], p) ensures !Counted(m, r, ps[r], p) {
      OnePlace(k, m, ps, held, q, p);
      CountedOwned(m, r, ps[r], p);
    }
    hide TreeOk, Counted, InTree, Untouched, Owned;
    assert forall p :: p in m'.free ==> Counted(m', r, n', p);
    Unharmed(k, m, m', q, ps[q]);
  }

  lemma CountedOwned(m: Mem, r: nat, n: nat, p: int)
    requires TreeOk(m.tables, r)
    ensures Counted(m, r, n, p) <==> p in m.free || Owned(m, r, n, p)
  {}

  lemma StepParts(k: Range, m: Mem, m': Mem, ps: Roots, held: set<nat>, r: nat, n': nat)
    requires WorldOk(k, m, ps, held) && r in ps && ProcOk(k, m', r, n') && Conserved(m, m', r, ps[r], n')
    requires forall q :: q in ps && q != r ==> ProcOk(k, m', q, ps[q])
    requires forall q :: q in ps ==> TreeOk(m.tables, q) && TreeOk(m'.tables, q)
    requires forall q, p :: q in ps && q != r ==> (Owned(m', q, ps[q], p) <==> Owned(m, q, ps[q], p))
    requires forall q, p :: q in ps && q != r && Owned(m, q, ps[q], p) ==> !Counted(m', r, n', p)
    ensures WorldOk(k, m', ps[r := n'], held)
  {
    var ps' := ps[r := n'];
    forall p ensures Counted(m', r, n', p) <==> p in m'.free || Owned(m', r, n', p) { CountedOwned(m', r, n', p); }
    forall p ensures Counted(m, r, ps[r], p) <==> p in m.free || Owned(m, r, ps[r], p) { CountedOwned(m, r, ps[r], p); }
    forall p
      ensures InSome(m', ps', p) <==> Owned(m', r, n', p) || exists q :: q in ps && q != r && Owned(m, q, ps[q], p)
    {
      SomeOther(m, m', ps, r, n', p);
    }
    forall p
      ensures InSome(m, ps, p) <==> Owned(m, r, ps[r], p) || exists q :: q in ps && q != r && Owned(m, q, ps[q], p)
    {
      SomeOther(m, m, ps, r, ps[r], p);
    }
    hide TreeOk, Counted, InTree, Untouched, Owned, UserOk, FreeOk;
  }

  lemma SomeOther(m: Mem, m': Mem, ps: Roots, r: nat, n': nat, p: int)
    requires forall q :: q in ps ==> TreeOk(m.tables, q) && TreeOk(m'.tables, q)
    requires r in ps && forall q :: q in ps && q != r ==> (Owned(m', q, ps[q], p) <==> Owned(m, q, ps[q], p))
    ensures InSome(m', ps[r := n'], p)
       <==> Owned(m', r, n', p) || exists q :: q in ps && q != r && Owned(m, q, ps[q], p)
  {
    var ps' := ps[r := n'];
    hide TreeOk, Owned;
    if Owned(m', r, n', p) {
      assert r in ps' && Owned(m', r, ps'[r], p);
    }
    if exists q :: q in ps && q != r && Owned(m, q, ps[q], p) {
      var q :| q in ps && q != r && Owned(m, q, ps[q], p);
      assert q in ps' && Owned(m', q, ps'[q], p);
    }
    if InSome(m', ps', p) {
      var q :| q in ps' && Owned(m', q, ps'[q], p);
    }
  }

  // ----- a process more, a process less

  /** A free page becomes the root of an empty address space. */
  lemma WorldMore(k: Range, m: Mem, m': Mem, ps: Roots, held: set<nat>, r: nat)
    requires WorldOk(k, m, ps, held) && |m.free| > 0 && r == m.free[0] && m'.free == m.free[1..] && m'.data == m.data
    requires r in m'.tables && IsZeroTable(m'.tables[r]) && m'.tables == m.tables[r := m'.tables[r]]
    ensures r !in ps && WorldOk(k, m', ps[r := 0], held)
  {
    EmptyTree(m'.tables, r);
    assert m.free == [r] + m'.free;
    assert forall p :: p in m'.free ==> p in m.free && p != r;
    if r in ps { RootOwned(m, r, ps[r]); OnePlace(k, m, ps, held, r, r); }
    var ps' := ps[r := 0];
    forall q | q in ps
      ensures ProcOk(k, m', q, ps[q]) && forall p :: Owned(m', q, ps[q], p) <==> Owned(m, q, ps[q], p)
    {
      MoreOthers(k, m, m', ps, held, r, q);
    }
    forall p ensures Owned(m', r, 0, p) <==> p == r {}
    hide WorldOk, IsZeroTable, TreeOk, InTree;
    MoreParts(k, m, m', ps, held, r);
  }

  lemma MoreOthers(k: Range, m: Mem, m': Mem, ps: Roots, held: set<nat>, r: nat, q: nat)
    requires WorldOk(k, m, ps, held) && q in ps && r in m.free && m'.data == m.data && FreeOk(k, m'.free)
    requires (forall p :: p in m'.free ==> p in m.free && p != r) && r in m'.tables
    requires m'.tables == m.tables[r := m'.tables[r]]
    ensures ProcOk(k, m', q, ps[q]) && forall p :: Owned(m', q, ps[q], p) <==> Owned(m, q, ps[q], p)
  {
    forall p | Owned(m, q, ps[q], p) ensures p !in m.free { OnePlace(k, m, ps, held, q, p); }
    hide Owned, TreeOk, InTree;
    Unharmed(k, m, m', q, ps[q]);
  }

  lemma RootOwned(m: Mem, r: nat, n: nat)
    requires TreeOk(m.tables, r)
    ensures Owned(m, r, n, r)
  {
    assert IsNode(m.tables, r, Root, r);
  }

  lemma MoreParts(k: Range, m: Mem, m': Mem, ps: Roots, held: set<nat>, r: nat)
    requires WorldOk(k, m, ps, held) && r !in ps && FreeOk(k, m'.free) && (forall p :: p in m'.free ==> p !in m'.tables)
    requires (forall p :: p in m.free <==> p == r || p in m'.free) && r !in m'.free && Managed(k, r)
    requires ProcOk(k, m', r, 0)
    requires forall q :: q in ps ==> TreeOk(m.tables, q) && TreeOk(m'.tables, q) && ProcOk(k, m', q, ps[q])
    requires forall q, p :: q in ps ==> (Owned(m', q, ps[q], p) <==> Owned(m, q, ps[q], p))
    requires forall p :: Owned(m', r, 0, p) <==> p == r
    ensures WorldOk(k, m', ps[r := 0], held)
  {
    var ps' := ps[r := 0];
    forall q, p | q in ps && Owned(m, q, ps[q], p) ensures p !in m.free && p !in held && InSome(m, ps, p) {
      OnePlace(k, m, ps, held, q, p);
    }
    forall p ensures InSome(m', ps', p) <==> p == r || InSome(m, ps, p) {
      MoreSome(m, m', ps, r, p);
    }
    hide TreeOk, Owned, FreeOk, ProcOk, InSome;
  }

  lemma MoreSome(m: Mem, m': Mem, ps: Roots, r: nat, p: int)
    requires r !in ps && TreeOk(m'.tables, r) && forall q :: q in ps ==> TreeOk(m.tables, q) && TreeOk(m'.tables, q)
    requires forall q :: q in ps ==> (Owned(m', q, ps[q], p) <==> Owned(m, q, ps[q], p))
    requires Owned(m', r, 0, p) <==> p == r
    ensures InSome(m', ps[r := 0], p) <==> p == r || InSome(m, ps, p)
  {
    var ps' := ps[r := 0];
    hide TreeOk, Owned;
    if p == r { assert r in ps' && Owned(m', r, ps'[r], p); }
    if InSome(m, ps, p) {
      var q :| q in ps && Owned(m, q, ps[q], p);
      assert q in ps' && Owned(m', q, ps'[q], p);
    }
    if InSome(m', ps', p) {
      var q :| q in ps' && Owned(m', q, ps'[q], p);
      assert q == r || (q in ps && Owned(m, q, ps[q], p));
    }
  }

  /** Every page of a process goes back to the free list. */
  lemma WorldLess(k: Range, m: Mem, m': Mem, ps: Roots, held: set<nat>, r: nat)
    requires WorldOk(k, m, ps, held) && r in ps && AllReturned(k, m, m', r, ps[r])
    ensures WorldOk(k, m', ps - {r}, held)
  {
    forall p ensures Counted(m, r, ps[r], p) <==> p in m.free || Owned(m, r, ps[r], p) { CountedOwned(m, r, ps[r], p); }
    hide Counted, Owned;
    forall q | q in ps && q != r
      ensures ProcOk(k, m', q, ps[q]) && forall p :: Owned(m', q, ps[q], p) <==> Owned(m, q, ps[q], p)
    {
      forall p | Owned(m, q, ps[q], p) ensures !Counted(m, r, ps[r], p) { OnePlace(k, m, ps, held, q, p); }
      Unharmed(k, m, m', q, ps[q]);
    }
    LessParts(k, m, m', ps, held, r);
  }

  lemma LessParts(k: Range, m: Mem, m': Mem, ps: Roots, held: set<nat>, r: nat)
    requires WorldOk(k, m, ps, held) && r in ps && FreeOk(k, m'.free) && (forall p :: p in m'.free ==> p !in m'.tables)
    requires forall q :: q in ps ==> TreeOk(m.tables, q) && (q != r ==> TreeOk(m'.tables, q) && ProcOk(k, m', q, ps[q]))
    requires forall q, p :: q in ps && q != r ==> (Owned(m', q, ps[q], p) <==> Owned(m, q, ps[q], p))
    requires forall p :: p in m'.free <==> p in m.free || Owned(m, r, ps[r], p)
    ensures WorldOk(k, m', ps - {r}, held)
  {
    var ps' := ps - {r};
    hide TreeOk, Owned, FreeOk, ProcOk;
    forall q, p | q in ps && Owned(m, q, ps[q], p) ensures p !in m.free && p !in held && InSome(m, ps, p) {
      OnePlace(k, m, ps, held, q, p);
    }
    forall p ensures InSome(m, ps, p) <==> Owned(m, r, ps[r], p) || InSome(m', ps', p) {
      if InSome(m, ps, p) {
        var q :| q in ps && Owned(m, q, ps[q], p);
        if q != r { assert q in ps' && Owned(m', q, ps'[q], p); }
      }
      if InSome(m', ps', p) {
        var q :| q in ps' && Owned(m', q, ps'[q], p);
        assert q in ps && Owned(m, q, ps[q], p);
      }
    }
  }

  // ----- the calls that the kernel makes for its processes

  /** kinit: every page is free. */
  method Boot(range: Range) returns (vm: Vm)
    requires 0 < range.lo <= range.hi
    ensures fresh(vm) && vm.k == range && WorldOk(range, vm.M(), map[], {}) && |vm.free| == range.hi - range.lo
  {
    vm := new Vm(range);
  }

  method Create(vm: Vm, ghost ps: Roots, ghost held: set<nat>) returns (r: Option<nat>)
    requires WorldOk(vm.k, vm.M(), ps, held)
    modifies vm
    ensures r.None? <==> old(vm.free) == []
    ensures r.None? ==> vm.M() == old(vm.M())
    ensures r.Some? ==> r.value !in ps && WorldOk(vm.k, vm.M(), ps[r.value := 0], held)
    ensures r.Some? ==> old(vm.free) == [r.value] + vm.free && Empty(vm.M(), r.value) && RootOnly(vm.tables, r.value)
    ensures r.Some? ==> forall p :: Owned(vm.M(), r.value, 0, p) <==> p == r.value
    ensures r.Some? ==> forall q :: q in ps ==> KeepsAll(old(vm.M()), vm.M(), q, ps[q])
  {
    ghost var m := vm.M();
    r := vm.Uvmcreate();
    if r.Some? {
      WorldMore(vm.k, m, vm.M(), ps, held, r.value);
      forall q | q in ps ensures KeepsAll(m, vm.M(), q, ps[q]) { KeepsMore(vm.k, m, vm.M(), ps, held, q, r.value); }
      hide WorldOk;
      EmptyTree(vm.tables, r.value);
    }
  }

  /** Nothing is mapped in the address space at r. */
  ghost predicate Empty(m: Mem, r: nat) {
    TreeOk(m.tables, r) && forall v :: 0 <= v < MAXVPN ==> Leaf(m.tables, r, v).None?
  }

  /** The tree at r has no node but its root. */
  ghost predicate RootOnly(t: Tables, r: nat) {
    forall x :: NodeOk(x) && x != Root ==> At(t, r, x).None?
  }

  /** The process at q has the same tables, the same map and the same memory. */
  ghost predicate KeepsAll(m: Mem, m': Mem, q: nat, n: nat) {
    && TreeOk(m.tables, q) && TreeOk(m'.tables, q)
    && SameTree(m.tables, m'.tables, q) && SameMap(m.tables, m'.tables, q) && Stable(m, m', q, n)
  }

  lemma KeepsMore(k: Range, m: Mem, m': Mem, ps: Roots, held: set<nat>, q: nat, r: nat)
    requires WorldOk(k, m, ps, held) && q in ps && r in m.free && m'.data == m.data
    requires r in m'.tables && m'.tables == m.tables[r := m'.tables[r]]
    ensures KeepsAll(m, m', q, ps[q])
  {
    forall p | Owned(m, q, ps[q], p) ensures Untouched(m, m', p) { OnePlace(k, m, ps, held, q, p); }
    KeepsUntouched(k, m, m', q, ps[q]);
  }

  lemma KeepsUntouched(k: Range, m: Mem, m': Mem, q: nat, n: nat)
    requires ProcOk(k, m, q, n) && forall p :: Owned(m, q, n, p) ==> Untouched(m, m', p)
    ensures KeepsAll(m, m', q, n)
  {
    forall p | InTree(m.tables, q, p) ensures Untouched(m, m', p) {
      assert Owned(m, q, n, p);
    }
    UntouchedTree(m, m', q);
    UntouchedMap(m, m', q);
    IsolatedPages(k, m, m', q, n);
  }

  lemma KeepsStep(k: Range, m: Mem, m': Mem, ps: Roots, held: set<nat>, r: nat, n': nat, q: nat)
    requires WorldOk(k, m, ps, held) && r in ps && TreeOk(m'.tables, r) && Conserved(m, m', r, ps[r], n') && q in ps
    requires q != r
    ensures KeepsAll(m, m', q, ps[q])
  {
    forall p | Owned(m, q, ps[q], p) ensures Untouched(m, m', p) {
      OnePlace(k, m, ps, held, q, p);
      CountedOwned(m, r, ps[r], p);
    }
    KeepsUntouched(k, m, m', q, ps[q]);
  }

  lemma KeepsLess(k: Range, m: Mem, m': Mem, ps: Roots, held: set<nat>, r: nat, q: nat)
    requires WorldOk(k, m, ps, held) && r in ps && AllReturned(k, m, m', r, ps[r]) && q in ps && q != r
    ensures KeepsAll(m, m', q, ps[q])
  {
    forall p | Owned(m, q, ps[q], p) ensures Untouched(m, m', p) {
      OnePlace(k, m, ps, held, q, p);
      CountedOwned(m, r, ps[r], p);
    }
    KeepsUntouched(k, m, m', q, ps[q]);
  }

  lemma KeepsSelf(k: Range, m: Mem, ps: Roots, held: set<nat>, q: nat)
    requires WorldOk(k, m, ps, held) && q in ps
    ensures KeepsAll(m, m, q, ps[q])
  {}

  lemma KeepsTrans(m: Mem, m1: Mem, m2: Mem, q: nat, n: nat)
    requires KeepsAll(m, m1, q, n) && KeepsAll(m1, m2, q, n)
    ensures KeepsAll(m, m2, q, n)
  {
    hide TreeOk, Leaf;
  }

  /** growproc with a positive count: user memory grows. */
  method Grow(vm: Vm, r: nat, oldsz: nat, newsz: nat, ghost ps: Roots, ghost held: set<nat>) returns (s: Status,
              sz: nat)
    requires WorldOk(vm.k, vm.M(), ps, held) && r in ps && ps[r] == PageCount(oldsz)
    modifies vm
    ensures s == Done ==> sz == Max(oldsz, newsz) && WorldOk(vm.k, vm.M(), ps[r := PageCount(sz)], held)
    ensures s == NoMemory ==> WorldOk(vm.k, vm.M(), ps, held)
    ensures s != Panicked ==> forall q :: q in ps && q != r ==> KeepsAll(old(vm.M()), vm.M(), q, ps[q])
  {
    ghost var m := vm.M();
    s, sz := vm.Uvmalloc(r, oldsz, newsz);
    if s != Panicked {
      ghost var n := if s == Done then PageCount(sz) else ps[r];
      WorldStep(vm.k, m, vm.M(), ps, held, r, n);
      assert ps[r := ps[r]] == ps;
      forall q | q in ps && q != r
        ensures KeepsAll(m, vm.M(), q, ps[q])
      {
        KeepsStep(vm.k, m, vm.M(), ps, held, r, n, q);
      }
    }
  }

  /** growproc with a negative count: user memory shrinks. */
  method Shrink(vm: Vm, r: nat, oldsz: nat, newsz: nat, ghost ps: Roots, ghost held: set<nat>) returns (s: Status,
                sz: nat)
    requires WorldOk(vm.k, vm.M(), ps, held) && r in ps && ps[r] == PageCount(oldsz)
    modifies vm
    ensures s == Done ==> sz == Min(oldsz, newsz) && WorldOk(vm.k, vm.M(), ps[r := PageCount(sz)], held)
    ensures s == Done ==> forall q :: q in ps && q != r ==> KeepsAll(old(vm.M()), vm.M(), q, ps[q])
  {
    ghost var m := vm.M();
    s, sz := vm.Uvmdealloc(r, oldsz, newsz);
    if s == Done {
      WorldStep(vm.k, m, vm.M(), ps, held, r, PageCount(sz));
      forall q | q in ps && q != r
        ensures KeepsAll(m, vm.M(), q, ps[q])
      {
        KeepsStep(vm.k, m, vm.M(), ps, held, r, PageCount(sz), q);
      }
    }
  }

  /** freeproc: the process's memory and tables are returned. */
  method Exit(vm: Vm, r: nat, sz: nat, ghost ps: Roots, ghost held: set<nat>) returns (s: Status)
    requires WorldOk(vm.k, vm.M(), ps, held) && r in ps && ps[r] == PageCount(sz) && Leafy(vm.tables, r)
    modifies vm
    ensures s == Done ==> WorldOk(vm.k, vm.M(), ps - {r}, held)
    ensures s == NoMemory ==> false
    ensures s == Panicked ==> exists v :: v >= 0 && if v < ps[r] then Unfit(old(vm.tables), r, v)
            else v < MAXVPN && Leaf(old(vm.tables), r, v).Some?
    ensures s == Done ==> forall p :: p in vm.free <==> p in old(vm.free) || Owned(old(vm.M()), r, ps[r], p)
    ensures s == Done ==> forall q :: q in ps && q != r ==> KeepsAll(old(vm.M()), vm.M(), q, ps[q])
  {
    hide KeepsAll;
    ghost var m := vm.M();
    s := vm.Uvmfree(r, sz);
    if s == Done {
      forall q | q in ps && q != r ensures KeepsAll(m, vm.M(), q, ps[q]) {
        KeepsLess(vm.k, m, vm.M(), ps, held, r, q);
      }
      WorldLess(vm.k, m, vm.M(), ps, held, r);
      forall p ensures p in vm.free <==> p in m.free || Owned(m, r, ps[r], p) { CountedOwned(m, r, ps[r], p); }
    }
  }

  lemma WorldApart(k: Range, m: Mem, ps: Roots, held: set<nat>, r: nat, q: nat)
    requires WorldOk(k, m, ps, held) && r in ps && q in ps && r != q
    ensures ProcOk(k, m, r, ps[r]) && ProcOk(k, m, q, ps[q]) && Apart(m, r, ps[r], q, ps[q])
  {
    forall p | Owned(m, q, ps[q], p) ensures !Counted(m, r, ps[r], p) {
      OnePlace(k, m, ps, held, q, p);
      CountedOwned(m, r, ps[r], p);
    }
  }

  /** The memory part of fork: a new address space with a copy of the parent's memory. When memory runs out
      every page taken for it is free again. */
  method Fork(vm: Vm, parent: nat, sz: nat, ghost ps: Roots, ghost held: set<nat>) returns (s: Status, child: nat)
    requires WorldOk(vm.k, vm.M(), ps, held) && parent in ps && ps[parent] == PageCount(sz)
    modifies vm
    ensures s == Done ==> child !in ps && WorldOk(vm.k, vm.M(), ps[child := PageCount(sz)], held)
    ensures s == Done ==> CopyOf(old(vm.M()), vm.M(), parent, child, PageCount(sz))
    ensures s == NoMemory ==> WorldOk(vm.k, vm.M(), ps, held) && forall p :: p in vm.free <==> p in old(vm.free)
    ensures |old(vm.free)| > 3 * PageCount(sz) ==>
              (forall v :: 0 <= v < PageCount(sz) ==> !NoTable(old(vm.tables), parent, v)) ==> s == Done
    ensures s != Panicked ==> forall q :: q in ps ==> KeepsAll(old(vm.M()), vm.M(), q, ps[q])
  {
    hide WorldOk, KeepsAll, Apart, Copied, Conserved, SameMap, Stable, CopyPanics, CopyStops, CopyOf, NoTable;
    ghost var m := vm.M();
    var c := Create(vm, ps, held);
    if c.None? {
      forall q | q in ps ensures KeepsAll(m, m, q, ps[q]) { KeepsSelf(vm.k, m, ps, held, q); }
      return NoMemory, 0;
    }
    child := c.value;
    ghost var m1, ps1 := vm.M(), ps[child := 0];
    WorldApart(vm.k, m1, ps1, held, child, parent);
    ghost var at;
    s, at := vm.Uvmcopy(parent, child, sz);
    if at < PageCount(sz) && |m1.free| >= 3 * PageCount(sz) {
      CopyFits(m1, parent, child, PageCount(sz), at);
      SameNoTable(m, m1, parent, PageCount(sz), at);
    }
    if s == Panicked {
      return;
    }
    ghost var m2 := vm.M();
    WorldStep(vm.k, m1, m2, ps1, held, child, if s == Done then PageCount(sz) else 0);
    forall q | q in ps ensures KeepsAll(m, m2, q, ps[q]) {
      KeepsStep(vm.k, m1, m2, ps1, held, child, if s == Done then PageCount(sz) else 0, q);
      KeepsTrans(m, m1, m2, q, ps[q]);
    }
    if s == Done {
      assert ps1[child := PageCount(sz)] == ps[child := PageCount(sz)];
      CopyOfAll(m, m1, m2, parent, child, PageCount(sz));
    } else {
      assert ps1[child := 0] == ps1;
      StillEmpty(vm.k, m1, m2, child);
      assert ps1[child] == PageCount(0);
      s := Exit(vm, child, 0, ps1, held);
      assert ps1 - {child} == ps;
      forall q | q in ps ensures KeepsAll(m, vm.M(), q, ps[q]) { KeepsTrans(m, m2, vm.M(), q, ps[q]); }
      ForkUndone(m, m1, m2, vm.M(), child);
      s := NoMemory;
    }
  }

  lemma SameNoTable(m: Mem, m1: Mem, q: nat, n: nat, v: nat)
    requires KeepsAll(m, m1, q, n)
    ensures NoTable(m1.tables, q, v) == NoTable(m.tables, q, v)
  {
    if v < MAXVPN {
      PxRange(v);
      assert NodeOk(LowOf(v));
    }
  }

  /** The first n pages of the child are the parent's, flags and bytes. */
  ghost predicate CopyOf(m: Mem, m': Mem, parent: nat, child: nat, n: nat) {
    && TreeOk(m.tables, parent) && TreeOk(m'.tables, child)
    && forall v :: 0 <= v < n && v < MAXVPN ==> PageAt(m', child, v) == PageAt(m, parent, v)
  }

  lemma CopyOfAll(m: Mem, m1: Mem, m2: Mem, parent: nat, child: nat, n: nat)
    requires KeepsAll(m, m1, parent, n) && TreeOk(m1.tables, child) && TreeOk(m2.tables, child)
    requires Copied(m1, m2, parent, child, n)
    ensures CopyOf(m, m2, parent, child, n)
  {
    forall v | 0 <= v < n && v < MAXVPN ensures PageAt(m2, child, v) == PageAt(m, parent, v) {
      assert PageAt(m1, parent, v) == PageAt(m, parent, v);
    }
  }

  lemma StillEmpty(k: Range, m1: Mem, m2: Mem, child: nat)
    requires Empty(m1, child) && TreeOk(m2.tables, child) && SameMap(m1.tables, m2.tables, child)
    ensures Leafy(m2.tables, child) && Empty(m2, child) && PageCount(0) == 0
  {}

  lemma ForkUndone(m: Mem, m1: Mem, m2: Mem, m3: Mem, child: nat)
    requires m.free == [child] + m1.free && Empty(m1, child) && Empty(m2, child) && Conserved(m1, m2, child, 0, 0)
    requires forall p :: p in m3.free <==> p in m2.free || Owned(m2, child, 0, p)
    requires forall p :: Owned(m1, child, 0, p) <==> p == child
    ensures forall p :: p in m3.free <==> p in m.free
  {
    forall p ensures p in m3.free <==> p in m.free {
      CountedOwned(m1, child, 0, p);
      CountedOwned(m2, child, 0, p);
    }
  }

  // ----- the panic of a failed fork

  /** No page at 0, though there is a table for it, and a page at 1. */
  ghost predicate Holed(m: Mem, r: nat) {
    TreeOk(m.tables, r) && !NoTable(m.tables, r, 0) && !HasPage(m, r, 0) && HasPage(m, r, 1)
  }

  /** A process with a page at 1 alone, in a machine of five pages. */
  method HoledProcess() returns (vm: Vm, r: nat)
    ensures fresh(vm) && vm.k == Range(1, 6) && WorldOk(vm.k, vm.M(), map[r := 2], {})
    ensures |vm.free| == 1 && Holed(vm.M(), r)
  {
    hide WorldOk, Conserved, RootOnly, Reached, Holed, Stable, SameAbove, Leaf;
    vm := Boot(Range(1, 6));
    var c := Create(vm, map[], {});
    r := c.value;
    ghost var m1, ps1: Roots := vm.M(), map[r := 0];
    FirstPage(vm.k, m1, ps1, r);
    var zeros: Bytes := seq(PGSIZE, _ => 0);
    var s := vm.GrowOne(r, 1, zeros, USERPERM);
    GrownOne(vm.k, m1, vm.M(), ps1, r);
    NowHoled(m1, vm.M(), r);
  }

  /** It forks with no memory left: uvmcopy runs out at page 1 before it has made a level-0 table for the child,
      and its error path cannot unmap page 0. */
  method StuckFork() returns (ghost m: Mem, parent: nat, child: nat, s: Status)
    ensures WorldOk(Range(1, 6), m, map[parent := 2, child := 0], {}) && Holed(m, parent) && m.free == []
    ensures s == Panicked
  {
    hide WorldOk, KeepsAll, Conserved, Copied, RootOnly, CopyStops, CopyPanics, Holed;
    var vm;
    vm, parent := HoledProcess();
    ghost var m1 := vm.M();
    var r := Create(vm, map[parent := 2], {});
    child := r.value;
    m := vm.M();
    assert map[parent := 2][child := 0] == map[parent := 2, child := 0];
    WorldApart(vm.k, m, map[parent := 2, child := 0], {}, child, parent);
    TwoPages();
    StillHoled(m1, m, parent);
    StuckHere(m, parent, child);
    ghost var at;
    s, at := vm.Uvmcopy(parent, child, 2 * PGSIZE);
  }

  lemma TwoPages()
    ensures PageCount(2 * PGSIZE) == 2
  {}

  lemma FirstPage(k: Range, m: Mem, ps: Roots, r: nat)
    requires WorldOk(k, m, ps, {}) && r in ps && ps[r] == 0 && Empty(m, r) && RootOnly(m.tables, r)
    ensures ProcOk(k, m, r, 1) && TreeOk(m.tables, r) && Conserved(m, m, r, 0, 1) && !Occupied(m.tables, r, 1)
    ensures Missing(m.tables, r, 1) == 2
  {
    HoleProc(k, m, r, 0);
    PxRange(1);
    assert NodeOk(Mid(Px(2, 1))) && NodeOk(LowOf(1));
  }

  lemma GrownOne(k: Range, m1: Mem, m2: Mem, ps: Roots, r: nat)
    requires WorldOk(k, m1, ps, {}) && ps == map[r := 0] && TreeOk(m1.tables, r) && TreeOk(m2.tables, r)
    requires ProcOk(k, m2, r, 2) && Conserved(m1, m1, r, 0, 1) && Conserved(m1, m2, r, 1, 2)
    ensures WorldOk(k, m2, map[r := 2], {})
  {
    ConservedTrans(m1, m1, m2, r, 0, 1, 2);
    WorldStep(k, m1, m2, ps, {}, r, 2);
    assert ps[r := 2] == map[r := 2];
  }

  lemma NowHoled(m1: Mem, m2: Mem, r: nat)
    requires Empty(m1, r) && TreeOk(m2.tables, r) && Stable(m1, m2, r, 1) && PageAt(m2, r, 1).Some?
    requires Reached(m1.tables, m2.tables, r, 1, 0)
    ensures Holed(m2, r)
  {
    PxRange(1);
    assert LowOf(0) == LowOf(1) && NodeOk(LowOf(1));
    assert Leaf(m2.tables, r, 0) == Leaf(m1.tables, r, 0);
  }

  lemma StillHoled(m1: Mem, m: Mem, r: nat)
    requires Holed(m1, r) && KeepsAll(m1, m, r, 2)
    ensures Holed(m, r)
  {
    PxRange(0);
    assert NodeOk(LowOf(0));
    assert Leaf(m.tables, r, 0) == Leaf(m1.tables, r, 0) && Leaf(m.tables, r, 1) == Leaf(m1.tables, r, 1);
  }

  lemma StuckHere(m: Mem, parent: nat, child: nat)
    requires Holed(m, parent) && RootOnly(m.tables, child) && m.free == []
    ensures !CopyStops(m, parent, child, 0) && CopyStops(m, parent, child, 1) && CopyPanics(m, parent, child, 1)
  {
    assert Need(m, parent, child, 1) == 0;
    assert Need(m, parent, child, 2) >= 1;
    PxRange(0);
    assert NodeOk(LowOf(0));
    assert CopyStuck(m, parent, child, 1, 0);
  }
}
