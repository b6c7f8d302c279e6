/** vm.c and kalloc.c over physical pages. */
module VmCode {
  import opened Blocks
  import opened PageTable
  import opened VmBytes
  import opened VmCopy
  import opened VmFree
  import opened VmNeed
  import opened VmState

  /** Success, -1 for want of memory, or a kernel panic. */
  datatype Status = Done | NoMemory | Panicked

  class Vm {
    const k: Range
    var tables: Tables
    var data: map<nat, Bytes>
    var free: seq<nat>

    ghost function M(): Mem
      reads this
    {
      Mem(tables, data, free)
    }

    /** kinit: freerange over the managed pages, in ascending order. */
    constructor (range: Range)
      requires 0 < range.lo <= range.hi
      ensures k == range && tables == map[] && FreeOk(k, free)
      ensures |free| == k.hi - k.lo && forall p :: p in free <==> Managed(k, p)
    {
      k, tables, data := range, map[], map[];
      var list: seq<nat> := [];
      for p := range.lo to range.hi
        invariant |list| == p - range.lo && forall i :: 0 <= i < |list| ==> list[i] == p - 1 - i
      {
        list := [p] + list;
      }
      free := list;
      forall q | Managed(range, q) ensures q in list {
        assert list[range.hi - 1 - q] == q;
      }
    }

    /** kalloc; None for the null pointer. */
    method Kalloc() returns (r: Option<nat>)
      modifies this`free
      ensures if old(free) == [] then r == None && free == [] else r == Some(old(free)[0]) && free == old(free)[1..]
    {
      if free == [] {
        return None;
      }
      r := Some(free[0]);
      free := free[1..];
    }

    /** kfree; false where it panics on a page outside the managed range. Its contents are lost. */
    method Kfree(p: nat) returns (ok: bool)
      modifies this`free, this`data, this`tables
      ensures ok == Managed(k, p)
      ensures M() == if ok then Mem(old(tables) - {p}, old(data) - {p}, [p] + old(free)) else old(M())
    {
      if !Managed(k, p) {
        return false;
      }
      tables, data, free := tables - {p}, data - {p}, [p] + free;
      ok := true;
    }

    /** uvmcreate: an address space with nothing mapped, in the first free page; nothing else changes. */
    method Uvmcreate() returns (r: Option<nat>)
      requires FreeOk(k, free) && forall p :: p in free ==> p !in tables
      modifies this`tables, this`free
      ensures r.None? <==> old(free) == []
      ensures r.None? ==> M() == old(M())
      ensures r.Some? ==> r.value == old(free)[0] && free == old(free)[1..] && data == old(data)
      ensures r.Some? ==>
        r.value in tables && IsZeroTable(tables[r.value]) && tables == old(tables)[r.value := tables[r.value]]
      ensures r.Some? ==> ProcOk(k, M(), r.value, 0) && forall v :: 0 <= v < MAXVPN ==> Leaf(tables, r.value, v).None?
    {
      r := Kalloc();
      if r.Some? {
        tables := tables[r.value := seq(PTES, _ => 0)];
        EmptyTree(tables, r.value);
      }
    }

    /** walk: the page of the level-0 table for a virtual page, with the tables on the way created if
        alloc. The mappings do not change. */
    method Walk(r: nat, vpn: nat, alloc: bool) returns (res: Option<nat>)
      requires SpaceOk(k, M(), r) && vpn < MAXVPN
      modifies this`tables, this`free
      ensures Walked(k, old(M()), M(), r)
      ensures res.Some? ==> At(tables, r, LowOf(vpn)) == res
      ensures !alloc ==> M() == old(M()) && res == At(tables, r, LowOf(vpn))
      ensures alloc ==> (res.None? <==> |old(free)| < Missing(old(tables), r, vpn))
      ensures alloc && res.None? ==> free == [] && |old(free)| <= 1 && SameLows(old(tables), tables, r)
      ensures alloc && res.Some? ==>
        Reached(old(tables), tables, r, vpn, 0) && |old(free)| == |free| + Missing(old(tables), r, vpn)
    {
      hide Walked, TreeOk, SpaceOk, IsValid, Ppn, Reached, SameLows, Px;
      ghost var m := M();
      WalkedNone(k, m, r);
      ReachedStart(tables, r, vpn);
      PxRange(vpn);
      var p := r;
      var level := 2;
      while level > 0
        invariant 0 <= level <= 2 && Walked(k, m, M(), r) && SpaceOk(k, M(), r)
        invariant At(tables, r, NodeAt(level, vpn)) == Some(p) && (!alloc ==> M() == m)
        invariant alloc ==>
          Reached(m.tables, tables, r, vpn, level) && |m.free| == |free| + MissingTo(m.tables, r, vpn, level)
      {
        var i := Px(level, vpn);
        NodePage(k, M(), r, NodeAt(level, vpn), p);
        NextNode(tables, r, vpn, level, p);
        var pte := tables[p][i];
        if IsValid(pte) {
          if alloc { ReachedSkip(m.tables, tables, r, vpn, level); }
          p := Ppn(pte);
        } else {
          if !alloc {
            return None;
          }
          ghost var m1 := M();
          ReachedShort(m.tables, tables, r, vpn, level);
          var q := Kalloc();
          if q.None? {
            return None;
          }
          tables := WithPte(tables, p, i, PteOf(q.value, PTE_V))[q.value := seq(PTES, _ => 0)];
          Hang(k, m1, M(), r, NodeAt(level, vpn), p, i);
          WalkedStep(k, m, m1, M(), r);
          ReachedAdd(m.tables, m1.tables, tables, r, vpn, level);
          p := q.value;
        }
        level := level - 1;
      }
      res := Some(p);
    }

    /** mappages; done counts the pages mapped before it returned. A range that is empty and starts at a page
        boundary has no last page, and the loop goes on until it fails. */
    method Mappages(r: nat, va: nat, size: nat, pa: nat, perm: nat) returns (s: Status, ghost done: nat)
      requires SpaceOk(k, M(), r) && perm < 1024
      modifies this`tables, this`free
      ensures Tabled(k, old(M()), M(), r) && (PageSpan(va, size) > 0 ==> done <= PageSpan(va, size))
      ensures Mapped(old(M()), M(), r, va / PGSIZE, done, pa / PGSIZE, WithV(perm))
      ensures s == Done ==> done == PageSpan(va, size) > 0 && va / PGSIZE + done <= MAXVPN
      ensures s == Done ==> forall v :: va / PGSIZE <= v < va / PGSIZE + done ==> Leaf(old(tables), r, v).None?
      ensures s != Done ==> done < PageSpan(va, size) || PageSpan(va, size) == 0
      ensures s == NoMemory ==> free == [] && |old(free)| <= 2 * done + 1
      ensures PageSpan(va, size) == 1 && va / PGSIZE < MAXVPN ==>
        (s == NoMemory <==> |old(free)| < Missing(old(tables), r, va / PGSIZE))
      ensures PageSpan(va, size) == 1 && s == NoMemory ==> SameLows(old(tables), tables, r)
      ensures PageSpan(va, size) == 1 && s == Done ==>
        Reached(old(tables), tables, r, va / PGSIZE, 0) && |old(free)| == |free| + Missing(old(tables), r, va / PGSIZE)
      ensures s == Panicked ==> va / PGSIZE + done >= MAXVPN || Leaf(old(tables), r, va / PGSIZE + done).Some?
    {
      hide Tabled, FreeOk, InTree, Mapped, TreeOk, Walked, SpaceOk, Leaf, IsValid, At, Reached, SameLows, Missing;
      ghost var m := M();
      SpaceTree(k, m, r);
      var first, last, ppn := va / PGSIZE, (va + size - 1) / PGSIZE, pa / PGSIZE;
      SpanRange(va, size);
      var a := first;
      done := 0;
      MappedNone(k, m, r, first, ppn, WithV(perm));
      while true
        invariant first <= a && (first <= last ==> a <= last) && done == a - first && SpaceOk(k, M(), r)
        invariant TreeOk(tables, r) && Tabled(k, m, M(), r)
        invariant Mapped(m, M(), r, first, done, ppn, WithV(perm)) && |free| + 2 * done >= |m.free|
        invariant forall v :: first <= v < a ==> v < MAXVPN && Leaf(m.tables, r, v).None?
        invariant done == 0 ==> M() == m
        decreases MAXVPN - a
      {
        if a >= MAXVPN {
          return Panicked, done;
        }
        ghost var m1 := M();
        var p := Walk(r, a, true);
        ghost var m2 := M();
        WalkFacts(k, m, m1, m2, r, first, done, ppn, WithV(perm));
        if p.None? {
          return NoMemory, done;
        }
        PxRange(a);
        NodePage(k, m2, r, LowOf(a), p.value);
        LeafEntry(k, m2, r, a, p.value);
        MappedLeaf(m, m2, r, first, done, ppn, WithV(perm), a);
        if IsValid(tables[p.value][Px(0, a)]) {
          return Panicked, done; // remap
        }
        tables := WithPte(tables, p.value, Px(0, a), PteOf(ppn + (a - first), WithV(perm)));
        MappedMore(k, m, m2, M(), r, first, done, ppn, WithV(perm), p.value);
        if done == 0 { ReachedStore(k, m.tables, m2, r, a, p.value, PteOf(ppn + (a - first), WithV(perm))); }
        TabledTrans(k, m, m2, M(), r);
        done := done + 1;
        if a == last {
          break;
        }
        a := a + 1;
        StillSpace(k, m, M(), r);
        SpaceTree(k, M(), r);
      }
      s := Done;
    }

    /** uvmunmap with do_free of pages below n: exactly the range is unmapped, its pages are free, and
        no other page moved. It panics exactly on a missing table, an entry that is no leaf, or a bad va. */
    method Uvmunmap(r: nat, va: nat, npages: nat, ghost n: nat) returns (s: Status)
      requires ProcOk(k, M(), r, n) && va / PGSIZE + npages <= n
      modifies this`tables, this`free, this`data
      ensures s == Done ==>
        ProcOk(k, M(), r, n) && Conserved(old(M()), M(), r, n, n) && Unmapped(old(M()), M(), r, va / PGSIZE, npages)
      ensures s == NoMemory ==> false
      ensures s == Panicked
         <==> va % PGSIZE != 0 || exists v :: va / PGSIZE <= v < va / PGSIZE + npages && Unfit(old(tables), r, v)
    {
      hide ProcOk, Conserved, Unmapped, TreeOk, IsValid, Unfit;
      ghost var m := M();
      if va % PGSIZE != 0 {
        return Panicked;
      }
      var first, i := va / PGSIZE, 0;
      NothingDropped(k, m, r, n, first);
      while i < npages
        invariant 0 <= i <= npages && ProcOk(k, M(), r, n) && TreeOk(tables, r) && TreeOk(m.tables, r)
        invariant Conserved(m, M(), r, n, n) && Unmapped(m, M(), r, first, i)
        invariant forall v :: first <= v < first + i ==> !Unfit(m.tables, r, v)
      {
        ghost var m1 := M();
        var a := first + i;
        s := UnmapOne(r, a, n);
        StillUnfit(m, m1, r, first, i, a);
        if s != Done {
          return;
        }
        ConservedTrans(m, m1, M(), r, n, n, n);
        UnmappedMore(m, m1, M(), r, first, i);
        i := i + 1;
      }
      s := Done;
    }

    /** One iteration of uvmunmap's loop with do_free set. */
    method UnmapOne(r: nat, a: nat, ghost n: nat) returns (s: Status)
      requires ProcOk(k, M(), r, n) && a < n
      modifies this`tables, this`free, this`data
      ensures TreeOk(tables, r) && TreeOk(old(tables), r)
      ensures s == Done ==>
        ProcOk(k, M(), r, n) && Conserved(old(M()), M(), r, n, n) && Unmapped(old(M()), M(), r, a, 1)
      ensures s == NoMemory ==> false
      ensures s == Panicked <==> Unfit(old(tables), r, a)
    {
      hide Conserved, Unmapped, TreeOk, IsValid, FreeOk, InTree, UserOk;
      ghost var m := M();
      if a >= MAXVPN {
        return Panicked;
      }
      var p := Walk(r, a, false);
      if p.None? {
        return Panicked;
      }
      PxRange(a);
      NodePage(k, m, r, LowOf(a), p.value);
      LeafEntry(k, m, r, a, p.value);
      var pte := tables[p.value][Px(0, a)];
      if !IsValid(pte) {
        NothingThere(k, m, r, n, a);
        return Done;
      }
      if Flags(pte) == PTE_V {
        return Panicked;
      }
      DropProc(k, m, r, n, a, p.value, Ppn(pte));
      UserPage(k, m, r, n, a, Ppn(pte));
      var ok := Kfree(Ppn(pte));
      assert tables == m.tables;
      tables := WithPte(tables, p.value, Px(0, a), 0);
      s := Done;
    }

    /** A page from kalloc, filled and mapped as user page a, or given back when mappages fails: the
        loop bodies of uvmalloc and uvmcopy. */
    method GrowOne(r: nat, a: nat, contents: Bytes, perm: nat) returns (s: Status)
      requires ProcOk(k, M(), r, a) && perm < 1024
      modifies this`tables, this`free, this`data
      ensures s != Panicked ==>
        TreeOk(old(tables), r) && TreeOk(tables, r) && Stable(old(M()), M(), r, a) && SameAbove(old(M()), M(), r, a + 1)
      ensures s == Done ==> ProcOk(k, M(), r, a + 1) && Conserved(old(M()), M(), r, a, a + 1)
      ensures s == Done ==>
        a < MAXVPN && Leaf(old(tables), r, a).None? && PageAt(M(), r, a) == Some(Page(WithV(perm), contents))
      ensures s == NoMemory ==>
        ProcOk(k, M(), r, a) && Conserved(old(M()), M(), r, a, a) && SameMap(old(tables), tables, r)
      ensures s == Panicked ==> Occupied(old(tables), r, a)
      ensures !Occupied(old(tables), r, a) ==>
        s != Panicked && (s == NoMemory <==> |old(free)| < 1 + Missing(old(tables), r, a))
      ensures s == Done ==>
        Reached(old(tables), tables, r, a, 0) && |old(free)| == |free| + 1 + Missing(old(tables), r, a)
      ensures s == NoMemory ==> |old(free)| <= 2 && SameLows(old(tables), tables, r)
    {
      hide TreeOk, UserOk, Conserved, Mapped, Tabled, FreeOk, InTree, SameMap, Stable, SameAbove, PageAt, Reached;
      hide SameLows;
      ghost var m := M();
      var mem := Kalloc();
      if mem.None? {
        NothingGrown(k, m, r, a);
        return NoMemory;
      }
      var x := mem.value;
      data := data[x := contents];
      TakenSpace(k, m, r, a, contents);
      assert M() == Taken(m, contents);
      ghost var done;
      s, done := Mappages(r, a * PGSIZE, PGSIZE, x * PGSIZE, perm);
      PageArithmetic(a, x);
      if s == Done {
        GrowDone(k, m, contents, M(), r, a, WithV(perm));
        GrownStable(k, m, contents, M(), r, a, WithV(perm));
      } else if s == NoMemory {
        ghost var m2 := M();
        var ok := Kfree(x);
        GrowFailed(k, m, contents, m2, M(), r, a, WithV(perm));
        FailedStable(k, m, contents, m2, M(), r, a);
      }
    }

    /** uvmdealloc: the pages above newsz are unmapped and free, those below hold what they held. */
    method Uvmdealloc(r: nat, oldsz: nat, newsz: nat) returns (s: Status, sz: nat)
      requires ProcOk(k, M(), r, PageCount(oldsz))
      modifies this`tables, this`free, this`data
      ensures s == Done ==> sz == Min(oldsz, newsz) && ProcOk(k, M(), r, PageCount(sz))
      ensures s == Done ==>
        Conserved(old(M()), M(), r, PageCount(oldsz), PageCount(sz)) && Stable(old(M()), M(), r, PageCount(sz))
      ensures s == Done ==>
        PageCount(sz) <= PageCount(oldsz) && Unmapped(old(M()), M(), r, PageCount(sz), PageCount(oldsz) - PageCount(sz))
      ensures s == NoMemory ==> false
      ensures s == Panicked <==> exists v :: PageCount(newsz) <= v < PageCount(oldsz) && Unfit(old(tables), r, v)
    {
      hide ProcOk, Conserved, Unmapped, TreeOk, Unfit, Stable;
      ghost var m := M();
      ghost var n := PageCount(oldsz);
      PageCountMono(newsz, oldsz);
      NothingDropped(k, m, r, n, n);
      UnmappedProc(k, m, m, r, n, n);
      if newsz >= oldsz {
        return Done, oldsz;
      }
      sz := newsz;
      if PageCount(newsz) < PageCount(oldsz) {
        var npages := PageCount(oldsz) - PageCount(newsz);
        Aligned(PageCount(newsz));
        s := Uvmunmap(r, PageCount(newsz) * PGSIZE, npages, n);
        if s == Done {
          UnmappedProc(k, m, M(), r, n, PageCount(newsz));
        }
      } else {
        s := Done;
      }
    }

    /** uvmalloc: on success the process has the new pages, cleared, beside the pages it had; when memory
        runs out its map and its pages are as before the call. Three free pages for each new one, its
        own and two tables, are enough. */
    method Uvmalloc(r: nat, oldsz: nat, newsz: nat) returns (s: Status, sz: nat)
      requires ProcOk(k, M(), r, PageCount(oldsz))
      modifies this`tables, this`free, this`data
      ensures s == Done ==> sz == Max(oldsz, newsz) && ProcOk(k, M(), r, PageCount(sz))
      ensures s == Done ==> Conserved(old(M()), M(), r, PageCount(oldsz), PageCount(sz))
      ensures s == Done ==> Grown(old(M()), M(), r, PageCount(oldsz), PageCount(sz))
      ensures s == NoMemory ==> sz == 0 && ProcOk(k, M(), r, PageCount(oldsz)) && SameMap(old(tables), tables, r)
      ensures s == NoMemory ==>
        Stable(old(M()), M(), r, PageCount(oldsz)) && Conserved(old(M()), M(), r, PageCount(oldsz), PageCount(oldsz))
      ensures s == NoMemory ==> |old(free)| < 3 * (PageCount(newsz) - PageCount(oldsz))
      ensures s == Panicked ==> exists v :: PageCount(oldsz) <= v < PageCount(newsz) && Occupied(old(tables), r, v)
    {
      hide ProcOk, Conserved, Grown, TreeOk, Unmapped, SameMap, Stable, SameAbove, Unfit, Occupied, PageAt;
      ghost var m := M();
      var n := PageCount(oldsz);
      GrownNone(k, m, r, n);
      if newsz < oldsz {
        return Done, oldsz;
      }
      PageCountMono(oldsz, newsz);
      var zeros: Bytes := seq(PGSIZE, _ => 0);
      var a := n;
      while a * PGSIZE < newsz
        invariant n <= a <= PageCount(newsz) && ProcOk(k, M(), r, a) && TreeOk(tables, r) && TreeOk(m.tables, r)
        invariant Conserved(m, M(), r, n, a) && Grown(m, M(), r, n, a) && |free| + 3 * (a - n) >= |m.free|
        decreases newsz - a * PGSIZE
      {
        ghost var m1 := M();
        s := GrowOne(r, a, zeros, USERPERM);
        GrownLeaf(m, m1, r, n, a);
        if s == Panicked {
          return Panicked, 0;
        } else if s == NoMemory {
          ghost var m2 := M();
          GrownFailed(k, m, m1, m2, r, n, a);
          GrownFit(k, m, m2, r, n, a);
          var sz0;
          Aligned(a);
          Aligned(n);
          s, sz0 := Uvmdealloc(r, a * PGSIZE, n * PGSIZE);
          GrownUndone(k, m, m2, M(), r, n, a);
          return NoMemory, 0;
        }
        ConservedTrans(m, m1, M(), r, n, a, a + 1);
        GrownMore(m, m1, M(), r, n, a, zeros);
        a := a + 1;
      }
      s, sz := Done, newsz;
    }

    /** freewalk on the page p of node n of the tree that t0 held at r. It completes only when no virtual
        page is mapped through n, and panics only when some page is mapped. */
    method Freewalk(p: nat, ghost r: nat, ghost n: Node, ghost t0: Tables) returns (s: Status)
      requires TreeOk(t0, r) && Leafy(t0, r) && IsNode(t0, r, n, p) && ToFree(k, t0, M(), r, n)
      modifies this`tables, this`free, this`data
      ensures s == Done ==> FreedAll(k, t0, old(M()), M(), r, n) && Bare(t0, r, n)
      ensures s == NoMemory ==> false
      ensures s == Panicked ==> exists v :: 0 <= v < MAXVPN && Leaf(t0, r, v).Some?
      decreases if n.Root? then 2 else if n.Mid? then 1 else 0
    {
      hide FreedAll, Freed, Bare, BareBefore, ToFree, TreeOk, IsNode, Leafy, Leaf, IsValid, IsLeafEntry, Ppn;
      ghost var m := M();
      FreedStart(k, t0, m, r, n, p);
      BareStart(t0, r, n, p);
      var i := 0;
      while i < PTES
        invariant i <= PTES && Freed(k, t0, m, M(), r, n, p, i) && BareBefore(t0, r, n, p, i)
      {
        FreedRow(k, t0, m, M(), r, n, p, i);
        var pte := tables[p][i];
        if IsValid(pte) && !IsLeafEntry(pte) {
          InteriorEntry(t0, r, n, p, i);
          ghost var m1 := M();
          NextChild(k, t0, m, m1, r, n, p, i);
          s := Freewalk(Ppn(pte), r, ChildNode(n, i), t0);
          if s != Done {
            return;
          }
          FreedChild(k, t0, m, m1, M(), r, n, p, i);
          tables := WithPte(tables, p, i, 0);
        } else if IsValid(pte) {
          LeafInterior(t0, r, n, p, i);
          EntryMapped(t0, r, n, p, i);
          return Panicked;
        } else {
          FreedSkip(k, t0, m, M(), r, n, p, i);
        }
        BareMore(t0, r, n, p, i);
        i := i + 1;
      }
      FreedEnd(k, t0, m, M(), r, n, p);
      BareEnd(t0, r, n, p);
      var ok := Kfree(p);
      s := Done;
    }

    /** uvmfree: every user page and every table page of the process is returned, once. It panics
        exactly on a page uvmunmap cannot deal with, or when a page beyond sz is still mapped. */
    method Uvmfree(r: nat, sz: nat) returns (s: Status)
      requires ProcOk(k, M(), r, PageCount(sz)) && Leafy(tables, r)
      modifies this`tables, this`free, this`data
      ensures s == Done ==> AllReturned(k, old(M()), M(), r, PageCount(sz))
      ensures s == NoMemory ==> false
      ensures s == Panicked <==> exists v :: v >= 0 && if v < PageCount(sz) then Unfit(old(tables), r, v)
              else v < MAXVPN && Leaf(old(tables), r, v).Some?
    {
      hide ProcOk, Conserved, Unmapped, TreeOk, Unfit, Leafy, Leaf, FreedAll, AllReturned, Bare, ToFree, IsNode;
      hide SpaceOk;
      ghost var m := M();
      ghost var n := PageCount(sz);
      NothingDropped(k, m, r, n, 0);
      if sz > 0 {
        s := Uvmunmap(r, 0, PageCount(sz), n);
        if s != Done {
          return;
        }
      }
      ghost var m1 := M();
      ProcSpace(k, m1, r, n);
      UnmappedLeafy(m, m1, r, n);
      TreeToFree(k, m1, r);
      s := Freewalk(r, r, Root, m1.tables);
      if s == Done {
        FreedReturned(k, m, m1, M(), r, n);
        FreedBare(m, m1, r, n);
      }
    }

    /** uvmcopy of n pages into a child with no user pages. On success the child has the parent's pages,
        flags and bytes, in physical pages of its own; when memory runs out the child has none. The
        parent is untouched either way. The page at which it stops, if any, and whether it panics there,
        are fixed by the parent's pages and the number of free pages at the call. */
    method Uvmcopy(parent: nat, child: nat, sz: nat) returns (s: Status, ghost at: nat)
      requires ProcOk(k, M(), parent, PageCount(sz)) && ProcOk(k, M(), child, 0)
      requires Apart(M(), child, 0, parent, PageCount(sz))
      requires forall v :: 0 <= v < PageCount(sz) && v < MAXVPN ==> Leaf(tables, child, v).None?
      modifies this`tables, this`free, this`data
      ensures s != Panicked ==> ProcOk(k, M(), parent, PageCount(sz))
      ensures s != Panicked ==> SameMap(old(tables), tables, parent) && Stable(old(M()), M(), parent, PageCount(sz))
      ensures s == Done ==> ProcOk(k, M(), child, PageCount(sz)) && Conserved(old(M()), M(), child, 0, PageCount(sz))
      ensures s == Done ==>
        Copied(old(M()), M(), parent, child, PageCount(sz)) && Apart(M(), child, PageCount(sz), parent, PageCount(sz))
      ensures s == NoMemory ==>
        ProcOk(k, M(), child, 0) && Conserved(old(M()), M(), child, 0, 0) && SameMap(old(tables), tables, child)
      ensures s == NoMemory ==> Apart(M(), child, 0, parent, PageCount(sz))
      ensures at <= PageCount(sz) && (s == Done <==> at == PageCount(sz))
      ensures forall v :: 0 <= v < at ==> !CopyStops(old(M()), parent, child, v)
      ensures at < PageCount(sz) ==> CopyStops(old(M()), parent, child, at)
      ensures at < PageCount(sz) ==> (s == Panicked <==> CopyPanics(old(M()), parent, child, at))
    {
      hide ProcOk, Conserved, Copied, TreeOk, Unmapped, SameMap, Stable, Unfit, Apart, Leaf, Copying, Grafted;
      hide GraftedLow, SameLows, Need, CopyPanics;
      ghost var m := M();
      ghost var n := PageCount(sz);
      CopyStart(k, m, parent, child, n);
      GraftedStart(m, parent, child);
      PageCountMono(0, sz);
      NeedNone(m, parent, child);
      at := 0;
      var i := 0;
      while i * PGSIZE < sz
        invariant i == at <= n && TreeOk(m.tables, parent) && TreeOk(m.tables, child)
        invariant Copying(k, m, M(), parent, child, i, n)
        invariant Grafted(m, tables, parent, child, i) && |m.free| == |free| + Need(m, parent, child, i)
        invariant forall v :: 0 <= v < i ==> !CopyStops(m, parent, child, v)
        decreases sz - i * PGSIZE
      {
        ghost var t1 := tables;
        s := CopyOne(parent, child, i, m, n);
        if s == Panicked {
          PanicsAt(m, parent, child, i);
          return;
        } else if s == NoMemory {
          ghost var m2 := M();
          CopyOpen(k, m, m2, parent, child, i, n);
          GraftedLows(m, t1, tables, parent, child, i);
          CopyPanicsIff(k, m, m2, parent, child, i, n);
          s := Uvmunmap(child, 0, i, i);
          if s == Panicked {
            return;
          }
          CopyUndone(k, m, m2, M(), parent, child, i, n);
          return NoMemory, i;
        }
        i, at := i + 1, at + 1;
      }
      CopyOpen(k, m, M(), parent, child, i, n);
      s := Done;
    }

    /** One iteration of uvmcopy's loop. */
    method CopyOne(parent: nat, child: nat, i: nat, ghost m: Mem, ghost n: nat) returns (s: Status)
      requires i < n && ProcOk(k, m, parent, n) && TreeOk(m.tables, child) && TreeOk(m.tables, parent)
      requires Copying(k, m, M(), parent, child, i, n) && (i < MAXVPN ==> Leaf(m.tables, child, i).None?)
      requires Grafted(m, tables, parent, child, i) && |m.free| == |free| + Need(m, parent, child, i)
      modifies this`tables, this`free, this`data
      ensures s == Done ==> Copying(k, m, M(), parent, child, i + 1, n) && Grafted(m, tables, parent, child, i + 1)
      ensures s == Done ==> |m.free| == |free| + Need(m, parent, child, i + 1)
      ensures s == NoMemory ==> Copying(k, m, M(), parent, child, i, n) && SameLows(old(tables), tables, child)
      ensures s == Panicked <==> NoTable(m.tables, parent, i)
      ensures s == NoMemory ==> |m.free| < Need(m, parent, child, i + 1)
    {
      hide ProcOk, Conserved, Copying, TreeOk, SameMap, Stable, SameAbove, PageAt, Leaf, IsValid, Occupied, Walked, Ppn;
      hide Flags;
      hide Grafted, Reached, SameLows, NewTables, Missing, HasPage, NoTable, Need;
      ghost var m1 := M();
      CopyOpen(k, m, m1, parent, child, i, n);
      ProcSpace(k, m1, parent, n);
      CopyMissing(m, m1, parent, i);
      if i >= MAXVPN {
        return Panicked;
      }
      var p := Walk(parent, i, false);
      if p.None? {
        return Panicked;
      }
      PxRange(i);
      NodePage(k, m1, parent, LowOf(i), p.value);
      LeafEntry(k, m1, parent, i, p.value);
      var pte := tables[p.value][Px(0, i)];
      CopyNeeds(m, m1, parent, child, i);
      if !IsValid(pte) {
        CopyHole(k, m, m1, parent, child, i, n);
        GraftedHole(m, tables, parent, child, i);
        return Done;
      }
      CopySource(k, m, m1, parent, child, n, i, pte);
      var contents := data[Ppn(pte)];
      s := GrowOne(child, i, contents, Flags(pte));
      CopyStep(k, m, m1, M(), parent, child, i, if s == Done then i + 1 else i, n);
      if s == Done {
        GraftedMore(m, m1.tables, tables, parent, child, i);
      }
    }

    /** walkaddr: the physical page of a user-accessible page, or None. */
    method Walkaddr(r: nat, va: nat) returns (pa: Option<nat>)
      requires SpaceOk(k, M(), r)
      modifies this`tables, this`free
      ensures M() == old(M()) && pa == Accessible(tables, r, va / PGSIZE)
    {
      hide TreeOk, SpaceOk, Walked;
      SpaceTree(k, M(), r);
      var v := va / PGSIZE;
      if v >= MAXVPN {
        return None;
      }
      var p := Walk(r, v, false);
      if p.None? {
        AccessLeaf(k, M(), r, v);
        return None;
      }
      PxRange(v);
      NodePage(k, M(), r, LowOf(v), p.value);
      LeafEntry(k, M(), r, v, p.value);
      var pte := tables[p.value][Px(0, v)];
      if !IsValid(pte) || !IsUser(pte) || Ppn(pte) == 0 {
        return None;
      }
      pa := Some(Ppn(pte));
    }

    /** copyin: the bytes the process has at srcva, or a failure at the first that it cannot access. */
    method Copyin(r: nat, srcva: nat, len: nat, ghost n: nat) returns (ok: bool, dst: seq<byte>)
      requires ProcOk(k, M(), r, n) && UserBelow(tables, r, n)
      modifies this`tables, this`free
      ensures M() == old(M())
      ensures ok ==> |dst| == len
      ensures !ok ==> |dst| < len && UserByte(M(), r, srcva + |dst|).None?
      ensures forall j :: 0 <= j < |dst| ==> UserByte(M(), r, srcva + j) == Some(dst[j])
    {
      hide ProcOk, UserBelow, TreeOk, Accessible, UserByte;
      ProcSpace(k, M(), r, n);
      ghost var m := M();
      dst := [];
      var at := srcva;
      while |dst| < len
        invariant at == srcva + |dst| && |dst| <= len && M() == m
        invariant forall j :: 0 <= j < |dst| ==> UserByte(m, r, srcva + j) == Some(dst[j])
        decreases len - |dst|
      {
        var off := at % PGSIZE;
        var pa := Walkaddr(r, at);
        if pa.None? {
          NoByte(m, r, at);
          return false, dst;
        }
        AccessPage(k, m, r, n, at / PGSIZE, pa.value);
        var c := Min(PGSIZE - off, len - |dst|);
        BytesRead(k, m, r, at, pa.value, c);
        dst := dst + data[pa.value][off..off + c];
        at := at + c;
      }
      ok := true;
    }

    /** copyout: exactly the bytes from dstva on become those of src, up to the first page that the
        process cannot access. */
    method Copyout(r: nat, dstva: nat, src: seq<byte>, ghost n: nat) returns (ok: bool, ghost done: nat)
      requires ProcOk(k, M(), r, n) && UserBelow(tables, r, n)
      modifies this`tables, this`free, this`data
      ensures tables == old(tables) && free == old(free) && ProcOk(k, M(), r, n) && Conserved(old(M()), M(), r, n, n)
      ensures Overwritten(old(M()), M(), r, dstva, src, done)
      ensures if ok then done == |src| else done < |src| && UserByte(old(M()), r, dstva + done).None?
    {
      hide ProcOk, UserBelow, TreeOk, Accessible, UserByte, Overwritten, Conserved;
      ProcSpace(k, M(), r, n);
      ghost var m := M();
      var d := 0;
      OverwrittenNone(k, m, r, n, dstva, src);
      while d < |src|
        invariant d <= |src| && tables == m.tables && free == m.free && ProcOk(k, M(), r, n)
        invariant Conserved(m, M(), r, n, n)
        invariant Overwritten(m, M(), r, dstva, src, d)
        decreases |src| - d
      {
        var at := dstva + d;
        var off := at % PGSIZE;
        ghost var m1 := M();
        ProcSpace(k, m1, r, n);
        var pa := Walkaddr(r, at);
        if pa.None? {
          NoByte(m, r, at);
          return false, d;
        }
        AccessPage(k, m1, r, n, at / PGSIZE, pa.value);
        var c := Min(PGSIZE - off, |src| - d);
        var page: Bytes := data[pa.value][..off] + src[d..d + c] + data[pa.value][off + c..];
        data := data[pa.value := page];
        BytesWritten(k, m1, M(), r, n, at, pa.value, src[d..d + c]);
        OverwrittenMore(m, m1, M(), r, n, dstva, src, d, c);
        d := d + c;
      }
      ok, done := true, d;
    }

    /** copyinstr: the string at srcva up to and with its NUL, within max bytes; else dst is what was
        read before the first inaccessible byte or the limit. */
    method Copyinstr(r: nat, srcva: nat, max: nat, ghost n: nat) returns (ok: bool, dst: seq<byte>)
      requires ProcOk(k, M(), r, n) && UserBelow(tables, r, n)
      modifies this`tables, this`free
      ensures M() == old(M()) && |dst| <= max
      ensures forall j :: 0 <= j < |dst| ==> UserByte(M(), r, srcva + j) == Some(dst[j])
      ensures ok ==> |dst| > 0 && dst[|dst| - 1] == 0 && forall j :: 0 <= j < |dst| - 1 ==> dst[j] != 0
      ensures !ok ==>
        (forall j :: 0 <= j < |dst| ==> dst[j] != 0) && (|dst| == max || UserByte(M(), r, srcva + |dst|).None?)
    {
      hide ProcOk, UserBelow, TreeOk, Accessible, UserByte;
      ProcSpace(k, M(), r, n);
      ghost var m := M();
      dst := [];
      while |dst| < max
        invariant |dst| <= max && M() == m && forall j :: 0 <= j < |dst| ==> dst[j] != 0
        invariant forall j :: 0 <= j < |dst| ==> UserByte(m, r, srcva + j) == Some(dst[j])
        decreases max - |dst|
      {
        var at := srcva + |dst|;
        var off := at % PGSIZE;
        var pa := Walkaddr(r, at);
        if pa.None? {
          NoByte(m, r, at);
          return false, dst;
        }
        AccessPage(k, m, r, n, at / PGSIZE, pa.value);
        var c := Min(PGSIZE - off, max - |dst|);
        BytesRead(k, m, r, at, pa.value, c);
        ghost var start := |dst|;
        var i := 0;
        while i < c
          invariant i <= c && |dst| == start + i && M() == m && forall j :: 0 <= j < |dst| ==> dst[j] != 0
          invariant forall j :: 0 <= j < |dst| ==> UserByte(m, r, srcva + j) == Some(dst[j])
        {
          var b := data[pa.value][off + i];
          assert UserByte(m, r, at + i) == Some(b);
          dst := dst + [b];
          if b == 0 {
            return true, dst;
          }
          i := i + 1;
        }
      }
      ok := false;
    }
  }

  // ----- copying

  /** The child's first i pages are the parent's, flags and bytes; above them nothing was mapped. */
  ghost predicate Copied(m: Mem, m': Mem, parent: nat, child: nat, i: nat)
    requires TreeOk(m.tables, parent) && TreeOk(m.tables, child) && TreeOk(m'.tables, child)
  {
    && (forall v :: 0 <= v < i && v < MAXVPN ==> PageAt(m', child, v) == PageAt(m, parent, v))
    && SameAbove(m, m', child, i)
  }

  /** The state of uvmcopy after i pages, since it found memory as m. */
  ghost predicate Copying(k: Range, m: Mem, m': Mem, parent: nat, child: nat, i: nat, n: nat)
    requires TreeOk(m.tables, parent) && TreeOk(m.tables, child)
  {
    && ProcOk(k, m', child, i) && ProcOk(k, m', parent, n) && Apart(m', child, i, parent, n)
    && Conserved(m, m', child, 0, i) && Copied(m, m', parent, child, i)
    && SameMap(m.tables, m'.tables, parent) && Stable(m, m', parent, n) && SameTree(m.tables, m'.tables, parent)
  }

  lemma CopyOpen(k: Range, m: Mem, m': Mem, parent: nat, child: nat, i: nat, n: nat)
    requires TreeOk(m.tables, parent) && TreeOk(m.tables, child) && Copying(k, m, m', parent, child, i, n)
    ensures TreeOk(m'.tables, child) && TreeOk(m'.tables, parent)
    ensures ProcOk(k, m', child, i) && ProcOk(k, m', parent, n) && Apart(m', child, i, parent, n)
    ensures Conserved(m, m', child, 0, i) && Copied(m, m', parent, child, i)
    ensures SameMap(m.tables, m'.tables, parent) && Stable(m, m', parent, n) && SameTree(m.tables, m'.tables, parent)
  {}

  lemma CopyStart(k: Range, m: Mem, parent: nat, child: nat, n: nat)
    requires ProcOk(k, m, parent, n) && ProcOk(k, m, child, 0) && Apart(m, child, 0, parent, n)
    ensures TreeOk(m.tables, parent) && TreeOk(m.tables, child) && Copying(k, m, m, parent, child, 0, n)
  {}

  lemma CopyMissing(m: Mem, m1: Mem, parent: nat, i: nat)
    requires SameTree(m.tables, m1.tables, parent)
    ensures i >= MAXVPN || At(m1.tables, parent, LowOf(i)).None? <==> NoTable(m.tables, parent, i)
  {
    if i < MAXVPN {
      PxRange(i);
      assert NodeOk(LowOf(i));
    }
  }

  /** A page with no mapping may be counted in. */
  lemma HoleProc(k: Range, m: Mem, r: nat, i: nat)
    requires ProcOk(k, m, r, i) && (i < MAXVPN ==> Leaf(m.tables, r, i).None?)
    ensures ProcOk(k, m, r, i + 1) && Conserved(m, m, r, i, i + 1)
  {
    assert forall p :: !MapsTo(m, r, i, p);
    var i' := i + 1;
    forall p ensures Counted(m, r, i', p) <==> Counted(m, r, i, p) {
      if exists v :: MapsTo(m, r, v, p) && v < i' {
        var v :| MapsTo(m, r, v, p) && v < i';
        assert v < i;
      }
      if exists v :: MapsTo(m, r, v, p) && v < i {
        var v :| MapsTo(m, r, v, p) && v < i;
        assert v < i';
      }
    }
  }

  lemma CopyHole(k: Range, m: Mem, m1: Mem, parent: nat, child: nat, i: nat, n: nat)
    requires TreeOk(m.tables, child) && TreeOk(m.tables, parent) && Copying(k, m, m1, parent, child, i, n)
    requires i < n && i < MAXVPN && Leaf(m.tables, child, i).None? && TreeOk(m1.tables, parent)
    requires Leaf(m1.tables, parent, i).None?
    ensures Copying(k, m, m1, parent, child, i + 1, n)
  {
    CopyOpen(k, m, m1, parent, child, i, n);
    assert Leaf(m1.tables, child, i).None? && PageAt(m1, child, i) == PageAt(m, parent, i) by {
      assert Leaf(m.tables, parent, i) == Leaf(m1.tables, parent, i);
    }
    HoleProc(k, m1, child, i);
    hide TreeOk, Leaf, PageAt, ProcOk, Conserved, Apart, Stable, SameMap;
    CopyJoin(k, m, m1, m1, parent, child, i, i + 1, n);
    assert Copied(m, m1, parent, child, i + 1);
  }

  lemma CopySource(k: Range, m: Mem, m1: Mem, parent: nat, child: nat, n: nat, i: nat, pte: nat)
    requires TreeOk(m.tables, child) && TreeOk(m.tables, parent) && Copying(k, m, m1, parent, child, i, n)
    requires i < n && i < MAXVPN && TreeOk(m1.tables, parent) && Leaf(m1.tables, parent, i) == Some(pte) && IsValid(pte)
    requires Leaf(m.tables, child, i).None?
    ensures Ppn(pte) in m1.data && PageAt(m, parent, i) == Some(Page(Flags(pte), m1.data[Ppn(pte)]))
    ensures Flags(pte) < 1024 && WithV(Flags(pte)) == Flags(pte)
    ensures TreeOk(m1.tables, child) && !Occupied(m1.tables, child, i)
  {
    CopyOpen(k, m, m1, parent, child, i, n);
    hide Apart, Conserved, SpaceOk;
    assert MapsTo(m1, parent, i, Ppn(pte));
    assert PageAt(m1, parent, i) == PageAt(m, parent, i);
    assert pte == 1024 * (pte / 1024) + pte % 1024;
  }

  /** A step on the child's side leaves the parent as it was. */
  lemma CopyJoin(k: Range, m: Mem, m1: Mem, m2: Mem, parent: nat, child: nat, i: nat, i': nat, n: nat)
    requires ProcOk(k, m1, child, i) && ProcOk(k, m2, child, i') && ProcOk(k, m1, parent, n)
    requires Apart(m1, child, i, parent, n)
    requires TreeOk(m.tables, child) && TreeOk(m.tables, parent)
    requires Conserved(m, m1, child, 0, i) && Conserved(m1, m2, child, i, i')
    requires SameMap(m.tables, m1.tables, parent) && Stable(m, m1, parent, n) && SameTree(m.tables, m1.tables, parent)
    ensures ProcOk(k, m2, parent, n) && Apart(m2, child, i', parent, n) && Conserved(m, m2, child, 0, i')
    ensures SameMap(m.tables, m2.tables, parent) && Stable(m, m2, parent, n) && SameTree(m.tables, m2.tables, parent)
  {
    Isolated(k, m1, m2, child, i, i', parent, n);
    ConservedTrans(m, m1, m2, child, 0, i, i');
    StableTrans(m, m1, m2, parent, n);
    hide Conserved, Stable, Apart;
    forall v | 0 <= v < MAXVPN ensures Leaf(m2.tables, parent, v) == Leaf(m.tables, parent, v) {
      assert Leaf(m2.tables, parent, v) == Leaf(m1.tables, parent, v);
    }
  }

  lemma CopyStep(k: Range, m: Mem, m1: Mem, m2: Mem, parent: nat, child: nat, i: nat, i': nat, n: nat)
    requires TreeOk(m.tables, child) && TreeOk(m.tables, parent) && Copying(k, m, m1, parent, child, i, n) && i < MAXVPN
    requires TreeOk(m1.tables, child) && ProcOk(k, m2, child, i') && TreeOk(m2.tables, child)
    requires Stable(m1, m2, child, i)
    requires Conserved(m1, m2, child, i, i') && i <= i' <= i + 1
    requires if i' == i + 1 then SameAbove(m1, m2, child, i') && PageAt(m2, child, i) == PageAt(m, parent, i)
             else SameMap(m1.tables, m2.tables, child)
    ensures Copying(k, m, m2, parent, child, i', n)
  {
    CopyOpen(k, m, m1, parent, child, i, n);
    CopyJoin(k, m, m1, m2, parent, child, i, i', n);
    hide TreeOk, ProcOk, Leaf, PageAt, Apart, Conserved;
  }

  lemma NeedNone(m: Mem, parent: nat, child: nat)
    requires TreeOk(m.tables, parent)
    ensures Need(m, parent, child, 0) == 0
  {}

  /** What the entry read says about the need. */
  lemma CopyNeeds(m: Mem, m1: Mem, parent: nat, child: nat, i: nat)
    requires TreeOk(m.tables, parent) && TreeOk(m1.tables, parent) && SameMap(m.tables, m1.tables, parent) && i < MAXVPN
    requires Grafted(m, m1.tables, parent, child, i)
    ensures HasPage(m, parent, i) == Leaf(m1.tables, parent, i).Some?
    ensures Need(m, parent, child, i + 1) == Need(m, parent, child, i) + if HasPage(m, parent, i) then 1 +
            Missing(m1.tables, child, i) else 0
  {
    GraftedMissing(m, m1.tables, parent, child, i);
  }

  lemma PanicsAt(m: Mem, parent: nat, child: nat, i: nat)
    requires TreeOk(m.tables, parent) && NoTable(m.tables, parent, i)
    ensures CopyPanics(m, parent, child, i)
  {}

  /** The error path fails exactly on the pages that say so. */
  lemma CopyPanicsIff(k: Range, m: Mem, m2: Mem, parent: nat, child: nat, i: nat, n: nat)
    requires TreeOk(m.tables, parent) && TreeOk(m.tables, child) && Copying(k, m, m2, parent, child, i, n) && i < n
    requires ProcOk(k, m, parent, n) && TreeOk(m2.tables, child) && !NoTable(m.tables, parent, i)
    requires GraftedLow(m, m2.tables, parent, child, i)
    ensures CopyPanics(m, parent, child, i) <==> exists v :: 0 <= v < i && Unfit(m2.tables, child, v)
  {
    forall v | 0 <= v < i ensures Unfit(m2.tables, child, v) <==> CopyStuck(m, parent, child, i, v) {
      StuckIff(k, m, m2, parent, child, i, n, v);
    }
    hide *;
  }

  lemma StuckIff(k: Range, m: Mem, m2: Mem, parent: nat, child: nat, i: nat, n: nat, v: nat)
    requires TreeOk(m.tables, parent) && TreeOk(m.tables, child) && Copying(k, m, m2, parent, child, i, n) && i < n
    requires v < i
    requires ProcOk(k, m, parent, n) && TreeOk(m2.tables, child)
    requires GraftedLow(m, m2.tables, parent, child, i)
    ensures Unfit(m2.tables, child, v) <==> CopyStuck(m, parent, child, i, v)
  {
    if v < MAXVPN {
      PxRange(v);
      assert NodeOk(LowOf(v));
      PageBacked(k, m, parent, n, v);
      PageBacked(k, m2, child, i, v);
      hide ProcOk, Conserved, Stable, Apart;
      assert PageAt(m2, child, v) == PageAt(m, parent, v);
    }
  }

  lemma FewerApart(m: Mem, child: nat, n: nat, parent: nat, np: nat)
    requires TreeOk(m.tables, child) && TreeOk(m.tables, parent) && Apart(m, child, n, parent, np)
    ensures Apart(m, child, 0, parent, np)
  {}

  lemma CopyUndone(k: Range, m: Mem, m2: Mem, m3: Mem, parent: nat, child: nat, i: nat, n: nat)
    requires TreeOk(m.tables, child) && TreeOk(m.tables, parent) && Copying(k, m, m2, parent, child, i, n) && i <= n
    requires ProcOk(k, m3, child, i) && TreeOk(m2.tables, child) && Conserved(m2, m3, child, i, i)
    requires Unmapped(m2, m3, child, 0, i)
    requires forall v :: 0 <= v < n && v < MAXVPN ==> Leaf(m.tables, child, v).None?
    ensures ProcOk(k, m3, child, 0) && Conserved(m, m3, child, 0, 0) && SameMap(m.tables, m3.tables, child)
    ensures ProcOk(k, m3, parent, n) && SameMap(m.tables, m3.tables, parent) && Stable(m, m3, parent, n)
    ensures Apart(m3, child, 0, parent, n)
  {
    CopyOpen(k, m, m2, parent, child, i, n);
    CopyJoin(k, m, m2, m3, parent, child, i, i, n);
    FewerApart(m3, child, i, parent, n);
    hide Conserved, Apart, Stable;
    ShrinkProc(k, m3, child, i, 0);
    ConservedTrans(m, m3, m3, child, 0, i, 0);
    forall v | 0 <= v < MAXVPN ensures Leaf(m3.tables, child, v) == Leaf(m.tables, child, v) {
      assert Leaf(m3.tables, child, v) == if v < i then None else Leaf(m2.tables, child, v);
    }
  }

  // ----- freeing

  /** Every page the process accounted for is on the free list, and nobody else's page was touched. */
  ghost predicate AllReturned(k: Range, m: Mem, m': Mem, r: nat, n: nat)
    requires TreeOk(m.tables, r)
  {
    && FreeOk(k, m'.free) && (forall p :: p in m'.free ==> p !in m'.tables)
    && forall p :: (p in m'.free <==> Counted(m, r, n, p)) && (!Counted(m, r, n, p) ==> Untouched(m, m', p))
  }

  lemma UnmappedLeafy(m: Mem, m1: Mem, r: nat, n: nat)
    requires TreeOk(m.tables, r) && TreeOk(m1.tables, r) && Leafy(m.tables, r) && Unmapped(m, m1, r, 0, n)
    ensures Leafy(m1.tables, r)
    ensures forall v :: 0 <= v < MAXVPN && Leaf(m1.tables, r, v).Some? ==> v >= n && Leaf(m.tables, r, v).Some?
  {}

  lemma FreedBare(m: Mem, m1: Mem, r: nat, n: nat)
    requires TreeOk(m.tables, r) && TreeOk(m1.tables, r) && Unmapped(m, m1, r, 0, n) && Bare(m1.tables, r, Root)
    ensures forall v :: n <= v < MAXVPN ==> Leaf(m.tables, r, v).None?
  {
    hide TreeOk, Leaf;
  }

  lemma TreeToFree(k: Range, m: Mem, r: nat)
    requires SpaceOk(k, m, r)
    ensures ToFree(k, m.tables, m, r, Root) && IsNode(m.tables, r, Root, r)
  {
    hide TreeOk, IsNode, Under, InTree;
    forall q ensures Under(m.tables, r, Root, q) == InTree(m.tables, r, q) { UnderRoot(m.tables, r, q); }
    InTreeTable(m, r);
    assert IsNode(m.tables, r, Root, r) by { RootNode(m.tables, r); }
  }

  lemma RootNode(t: Tables, r: nat)
    ensures IsNode(t, r, Root, r)
  {}

  lemma InTreeTable(m: Mem, r: nat)
    requires TreeOk(m.tables, r)
    ensures forall q :: InTree(m.tables, r, q) ==> q in m.tables
  {}

  /** With no user page mapped, the tree and the free list are all there is to account for. */
  lemma FreedReturned(k: Range, m: Mem, m1: Mem, m2: Mem, r: nat, n: nat)
    requires TreeOk(m.tables, r) && SpaceOk(k, m1, r) && Conserved(m, m1, r, n, n)
    requires FreedAll(k, m1.tables, m1, m2, r, Root)
    requires forall v :: 0 <= v < MAXVPN && v < n ==> Leaf(m1.tables, r, v).None?
    ensures AllReturned(k, m, m2, r, n)
  {
    hide TreeOk, FreeOk, Under, InTree, Leaf, Untouched;
    forall q ensures Under(m1.tables, r, Root, q) == InTree(m1.tables, r, q) { UnderRoot(m1.tables, r, q); }
    forall p | p in m2.free ensures p !in m2.tables {
      if p in m1.free { assert Untouched(m1, m2, p); StillNoTable(m1, m2, p); }
    }
    forall p ensures (p in m2.free <==> Counted(m, r, n, p)) && (!Counted(m, r, n, p) ==> Untouched(m, m2, p)) {
      assert Counted(m1, r, n, p) <==> Counted(m, r, n, p);
      if !Counted(m, r, n, p) {
        assert Untouched(m, m1, p) && Untouched(m1, m2, p);
        UntouchedTrans(m, m1, m2, p);
      }
    }
  }

  lemma StillNoTable(m: Mem, m': Mem, p: int)
    requires Untouched(m, m', p) && p !in m.tables
    ensures p !in m'.tables
  {}

  lemma UntouchedTrans(m: Mem, m1: Mem, m2: Mem, p: int)
    requires Untouched(m, m1, p) && Untouched(m1, m2, p)
    ensures Untouched(m, m2, p)
  {}

  // ----- growing


  /** PGROUNDUP(sz) / PGSIZE */
  function PageCount(sz: nat): nat { (sz + PGSIZE - 1) / PGSIZE }

  lemma PageCountMono(a: nat, b: nat)
    ensures a <= b ==> PageCount(a) <= PageCount(b)
    ensures forall x: nat :: x * PGSIZE < b <==> x < PageCount(b)
  {}

  lemma Aligned(n: nat)
    ensures n * PGSIZE % PGSIZE == 0 && n * PGSIZE / PGSIZE == n && PageCount(n * PGSIZE) == n
  {}

  lemma UnmappedProc(k: Range, m: Mem, m': Mem, r: nat, n: nat, n': nat)
    requires ProcOk(k, m, r, n) && ProcOk(k, m', r, n) && n' <= n && Conserved(m, m', r, n, n)
    requires Unmapped(m, m', r, n', n - n')
    ensures ProcOk(k, m', r, n') && Conserved(m, m', r, n, n') && Stable(m, m', r, n')
  {
    UnmappedStable(k, m, m', r, n, n', n - n');
    ShrinkProc(k, m', r, n, n');
    ConservedTrans(m, m', m', r, n, n, n');
  }

  lemma GrownStable(k: Range, m: Mem, contents: Bytes, m2: Mem, r: nat, a: nat, flags: nat)
    requires ProcOk(k, m, r, a) && |m.free| > 0 && flags < 1024 && TreeOk(m2.tables, r) && a < MAXVPN
    requires Mapped(m, m2, r, a, 1, m.free[0], flags) && m2.data == m.data[m.free[0] := contents]
    ensures Stable(m, m2, r, a) && SameAbove(m, m2, r, a + 1) && PageAt(m2, r, a) == Some(Page(flags, contents))
  {
    PteFields(m.free[0], flags);
    StableData(k, m, m2, r, a);
  }

  lemma FailedStable(k: Range, m: Mem, contents: Bytes, m2: Mem, m3: Mem, r: nat, a: nat)
    requires ProcOk(k, m, r, a) && |m.free| > 0 && TreeOk(m3.tables, r) && SameMap(m.tables, m3.tables, r)
    requires SpaceOk(k, Taken(m, contents), r) && Tabled(k, Taken(m, contents), m2, r)
    requires m3 == Mem(m2.tables - {m.free[0]}, m2.data - {m.free[0]}, [m.free[0]] + m2.free)
    ensures Stable(m, m3, r, a) && SameAbove(m, m3, r, a + 1) && forall p :: p in m3.free ==> p in m.free
  {
    hide TreeOk, SpaceOk;
    StableData(k, m, m3, r, a);
  }

  /** User memory has grown from n to n' pages: the new ones hold zeros, the others are as they were. */
  ghost predicate Grown(m: Mem, m': Mem, r: nat, n: nat, n': nat)
    requires TreeOk(m.tables, r) && TreeOk(m'.tables, r)
  {
    && n <= n' && (n < n' ==> n' <= MAXVPN) && Stable(m, m', r, n) && SameAbove(m, m', r, n')
    && forall v :: n <= v < n' && v < MAXVPN ==>
         && Leaf(m.tables, r, v).None? && PageAt(m', r, v).Some? && PageAt(m', r, v).value.flags == USERFLAGS
         && IsBlank(PageAt(m', r, v).value.bytes)
  }

  lemma GrownNone(k: Range, m: Mem, r: nat, n: nat)
    requires ProcOk(k, m, r, n)
    ensures TreeOk(m.tables, r) && Grown(m, m, r, n, n) && Conserved(m, m, r, n, n)
  {}

  lemma GrownLeaf(m: Mem, m1: Mem, r: nat, n: nat, a: nat)
    requires TreeOk(m.tables, r) && TreeOk(m1.tables, r) && Grown(m, m1, r, n, a)
    ensures Occupied(m1.tables, r, a) == Occupied(m.tables, r, a)
  {}

  lemma GrownMore(m: Mem, m1: Mem, m2: Mem, r: nat, n: nat, a: nat, zeros: Bytes)
    requires TreeOk(m.tables, r) && TreeOk(m1.tables, r) && TreeOk(m2.tables, r) && Grown(m, m1, r, n, a)
    requires Stable(m1, m2, r, a) && SameAbove(m1, m2, r, a + 1) && a < MAXVPN && Leaf(m1.tables, r, a).None?
    requires PageAt(m2, r, a) == Some(Page(USERFLAGS, zeros)) && IsBlank(zeros)
    ensures Grown(m, m2, r, n, a + 1)
  {
    hide TreeOk, Leaf, PageAt, IsBlank;
  }

  lemma GrownFailed(k: Range, m: Mem, m1: Mem, m2: Mem, r: nat, n: nat, a: nat)
    requires TreeOk(m.tables, r) && TreeOk(m1.tables, r) && TreeOk(m2.tables, r) && Grown(m, m1, r, n, a)
    requires Stable(m1, m2, r, a) && SameMap(m1.tables, m2.tables, r) && Conserved(m, m1, r, n, a)
    requires Conserved(m1, m2, r, a, a)
    ensures Grown(m, m2, r, n, a) && Conserved(m, m2, r, n, a)
  {
    ConservedTrans(m, m1, m2, r, n, a, a);
    hide TreeOk, Leaf, PageAt, IsBlank, Conserved;
  }

  /** The pages just added are ones uvmunmap can take away. */
  lemma GrownFit(k: Range, m: Mem, m': Mem, r: nat, n: nat, a: nat)
    requires TreeOk(m.tables, r) && TreeOk(m'.tables, r) && Grown(m, m', r, n, a)
    ensures forall v :: n <= v < a ==> !Unfit(m'.tables, r, v)
  {
    forall v | n <= v < a ensures !Unfit(m'.tables, r, v) {
      assert PageAt(m', r, v).Some?;
    }
  }

  /** Undoing the growth gives the old map and the old pages back. */
  lemma GrownUndone(k: Range, m: Mem, m2: Mem, m3: Mem, r: nat, n: nat, a: nat)
    requires TreeOk(m.tables, r) && TreeOk(m2.tables, r) && ProcOk(k, m3, r, n) && n <= a
    requires Grown(m, m2, r, n, a) && Unmapped(m2, m3, r, n, a - n) && Stable(m2, m3, r, n)
    requires Conserved(m, m2, r, n, a) && Conserved(m2, m3, r, a, n)
    ensures SameMap(m.tables, m3.tables, r) && Stable(m, m3, r, n) && Conserved(m, m3, r, n, n)
  {
    StableTrans(m, m2, m3, r, n);
    ConservedTrans(m, m2, m3, r, n, a, n);
    hide Conserved;
    forall v | 0 <= v < MAXVPN ensures Leaf(m3.tables, r, v) == Leaf(m.tables, r, v) {
      assert Leaf(m3.tables, r, v) == if n <= v < a then None else Leaf(m2.tables, r, v);
    }
  }

  const USERPERM: nat := 30 // PTE_W | PTE_X | PTE_R | PTE_U
  const USERFLAGS: nat := 31 // with PTE_V

  lemma PageArithmetic(a: nat, x: nat)
    ensures a * PGSIZE / PGSIZE == a && x * PGSIZE / PGSIZE == x && PageSpan(a * PGSIZE, PGSIZE) == 1
    ensures WithV(USERPERM) == USERFLAGS
  {}

  lemma NothingGrown(k: Range, m: Mem, r: nat, n: nat)
    requires ProcOk(k, m, r, n)
    ensures TreeOk(m.tables, r) && Conserved(m, m, r, n, n) && SameMap(m.tables, m.tables, r) && Stable(m, m, r, n)
    ensures SameAbove(m, m, r, n + 1)
    ensures SameLows(m.tables, m.tables, r)
  {}

  /** uvmunmap cannot deal with virtual page v: beyond MAXVA, no level-0 table, or not a leaf. */
  ghost predicate Unfit(t: Tables, r: nat, v: int)
    requires TreeOk(t, r)
  {
    v < 0 || v >= MAXVPN || At(t, r, LowOf(v)).None? || (Leaf(t, r, v).Some? && Flags(Leaf(t, r, v).value) == PTE_V)
  }

  /** mappages cannot put anything at virtual page v: beyond MAXVA, or already mapped. */
  ghost predicate Occupied(t: Tables, r: nat, v: int)
    requires TreeOk(t, r)
  {
    v < 0 || v >= MAXVPN || Leaf(t, r, v).Some?
  }

  /** perm | PTE_V */
  function WithV(perm: nat): (f: nat)
    requires perm < 1024
    ensures f < 1024 && f % 2 == 1
  {
    if perm % 2 == 1 then perm else perm + 1
  }

  /** Pages from PGROUNDDOWN(va) to PGROUNDDOWN(va + size - 1). */
  function PageSpan(va: nat, size: nat): int {
    (va + size - 1) / PGSIZE - va / PGSIZE + 1
  }

  lemma SpanRange(va: nat, size: nat)
    ensures PageSpan(va, size) >= 0 && (PageSpan(va, size) == 0 <==> size == 0 && va % PGSIZE == 0)
  {}

  lemma NodePage(k: Range, m: Mem, r: nat, n: Node, p: nat)
    requires SpaceOk(k, m, r) && NodeOk(n) && At(m.tables, r, n) == Some(p)
    ensures p in m.tables && |m.tables[p]| == PTES
  {
    assert IsNode(m.tables, r, n, p);
  }

  lemma EmptyTree(t: Tables, r: nat)
    requires r in t && IsZeroTable(t[r])
    ensures TreeOk(t, r) && (forall p :: InTree(t, r, p) <==> p == r)
    ensures forall v :: 0 <= v < MAXVPN ==> Leaf(t, r, v).None?
  {
    assert forall i :: Child(t, r, i).None?;
    assert forall n, p :: IsNode(t, r, n, p) ==> n == Root && p == r;
    assert IsNode(t, r, Root, r);
  }

  /** A page from the free list, cleared and hung in the tree. */
  lemma Hang(k: Range, m: Mem, m': Mem, r: nat, n: Node, p: nat, i: nat)
    requires SpaceOk(k, m, r) && |m.free| > 0 && m'.free == m.free[1..] && m'.data == m.data
    requires NodeOk(n) && !n.Low? && NodeOk(ChildNode(n, i)) && At(m.tables, r, n) == Some(p) && i < PTES
    requires p in m.tables && |m.tables[p]| == PTES && !IsValid(m.tables[p][i])
    requires m.free[0] in m'.tables && IsZeroTable(m'.tables[m.free[0]])
    requires m'.tables == WithPte(m.tables, p, i, PteOf(m.free[0], PTE_V))[m.free[0] := m'.tables[m.free[0]]]
    ensures SpaceOk(k, m', r) && Walked(k, m, m', r) && At(m'.tables, r, ChildNode(n, i)) == Some(m.free[0])
    ensures forall x :: NodeOk(x) ==> At(m'.tables, r, x).Some? == (x == ChildNode(n, i) || At(m.tables, r, x).Some?)
  {
    assert IsNode(m.tables, r, n, p);
    WalkedExtend(k, m, m', r, n, p, i);
    forall x | NodeOk(x) ensures At(m'.tables, r, x).Some? == (x == ChildNode(n, i) || At(m.tables, r, x).Some?) {
      ExtendAt(m.tables, m'.tables, r, n, p, i, m.free[0], x);
    }
  }

  lemma NextNode(t: Tables, r: nat, vpn: nat, level: nat, p: nat)
    requires 0 < level <= 2 && At(t, r, NodeAt(level, vpn)) == Some(p) && p in t && |t[p]| == PTES
    ensures NodeAt(level - 1, vpn) == ChildNode(NodeAt(level, vpn), Px(level, vpn))
    ensures At(t, r, NodeAt(level - 1, vpn)) == if IsValid(t[p][Px(level, vpn)]) then Some(Ppn(t[p][Px(level, vpn)]))
            else None
  {}

  lemma MappedNone(k: Range, m: Mem, r: nat, first: nat, ppn: nat, flags: nat)
    requires SpaceOk(k, m, r) && flags < 1024
    ensures Tabled(k, m, m, r) && Mapped(m, m, r, first, 0, ppn, flags) && TreeOk(m.tables, r)
  {}

  lemma ReachedStore(k: Range, t: Tables, m: Mem, r: nat, v: nat, p: nat, e: nat)
    requires SpaceOk(k, m, r) && v < MAXVPN && At(m.tables, r, LowOf(v)) == Some(p) && p in m.tables
    requires |m.tables[p]| == PTES
    requires Reached(t, m.tables, r, v, 0)
    ensures Reached(t, WithPte(m.tables, p, Px(0, v), e), r, v, 0)
  {
    PxRange(v);
    assert IsNode(m.tables, r, LowOf(v), p);
    forall x | NodeOk(x) ensures At(WithPte(m.tables, p, Px(0, v), e), r, x) == At(m.tables, r, x) {
      StoreAt(m.tables, r, LowOf(v), p, Px(0, v), e, x);
    }
  }

  lemma StillSpace(k: Range, m: Mem, m': Mem, r: nat)
    requires SpaceOk(k, m, r) && Tabled(k, m, m', r)
    ensures SpaceOk(k, m', r)
  {}

  lemma WalkFacts(k: Range, m: Mem, m1: Mem, m2: Mem, r: nat, first: nat, count: nat, ppn: nat, flags: nat)
    requires SpaceOk(k, m, r) && SpaceOk(k, m1, r) && Tabled(k, m, m1, r) && Walked(k, m1, m2, r) && flags < 1024
    requires Mapped(m, m1, r, first, count, ppn, flags)
    ensures SpaceOk(k, m2, r) && TreeOk(m2.tables, r) && Tabled(k, m, m2, r)
    ensures Mapped(m, m2, r, first, count, ppn, flags) && Walked(k, m2, m2, r)
  {
    TabledTrans(k, m, m1, m2, r);
    WalkedNone(k, m2, r);
    forall v | 0 <= v < MAXVPN ensures Leaf(m2.tables, r, v) == Leaf(m1.tables, r, v) {}
  }

  lemma LeafEntry(k: Range, m: Mem, r: nat, v: nat, p: nat)
    requires SpaceOk(k, m, r) && v < MAXVPN && At(m.tables, r, LowOf(v)) == Some(p) && p in m.tables
    requires |m.tables[p]| == PTES
    ensures Leaf(m.tables, r, v) == if IsValid(m.tables[p][Px(0, v)]) then Some(m.tables[p][Px(0, v)]) else None
  {}

  lemma MappedLeaf(m: Mem, m': Mem, r: nat, first: nat, count: nat, ppn: nat, flags: nat, v: nat)
    requires TreeOk(m.tables, r) && TreeOk(m'.tables, r) && flags < 1024 && v < MAXVPN
    requires Mapped(m, m', r, first, count, ppn, flags)
    ensures !(first <= v < first + count) ==> Leaf(m'.tables, r, v) == Leaf(m.tables, r, v)
  {}

  lemma ProcSpace(k: Range, m: Mem, r: nat, n: nat)
    requires ProcOk(k, m, r, n)
    ensures SpaceOk(k, m, r) && TreeOk(m.tables, r)
  {}

  lemma NothingDropped(k: Range, m: Mem, r: nat, n: nat, first: nat)
    requires ProcOk(k, m, r, n)
    ensures TreeOk(m.tables, r) && Conserved(m, m, r, n, n) && Unmapped(m, m, r, first, 0)
  {}

  lemma NothingThere(k: Range, m: Mem, r: nat, n: nat, a: nat)
    requires ProcOk(k, m, r, n) && a < MAXVPN && Leaf(m.tables, r, a).None?
    ensures Conserved(m, m, r, n, n) && Unmapped(m, m, r, a, 1)
  {}

  lemma UserPage(k: Range, m: Mem, r: nat, n: nat, v: nat, x: nat)
    requires ProcOk(k, m, r, n) && v < n && MapsTo(m, r, v, x)
    ensures Managed(k, x) && x !in m.tables && x in m.data
  {}

  /** The pages not yet reached are as they were at the start. */
  lemma StillUnfit(m: Mem, m1: Mem, r: nat, first: nat, i: nat, a: nat)
    requires TreeOk(m.tables, r) && TreeOk(m1.tables, r) && Unmapped(m, m1, r, first, i) && a >= first + i
    ensures Unfit(m1.tables, r, a) == Unfit(m.tables, r, a)
  {
  }
}
