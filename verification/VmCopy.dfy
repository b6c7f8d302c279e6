/** Two address spaces side by side: work on one leaves the other alone. */
module VmCopy {
  import opened Blocks
  import opened PageTable
  import opened VmState

  /** Page p belongs to the process at r: a table or one of its first n pages. */
  ghost predicate Owned(m: Mem, r: nat, n: nat, p: int)
    requires TreeOk(m.tables, r)
  {
    InTree(m.tables, r, p) || exists v :: MapsTo(m, r, v, p) && v < n
  }

  /** No page of the process at q is accounted for at r. */
  ghost predicate Apart(m: Mem, r: nat, n: nat, q: nat, nq: nat)
    requires TreeOk(m.tables, r) && TreeOk(m.tables, q)
  {
    forall p :: Owned(m, q, nq, p) ==> !Counted(m, r, n, p)
  }

  ghost predicate SameTree(t: Tables, t': Tables, q: nat) {
    forall x :: NodeOk(x) ==> At(t', q, x) == At(t, q, x)
  }

  lemma UntouchedAt(m: Mem, m': Mem, q: nat, x: Node)
    requires TreeOk(m.tables, q) && NodeOk(x) && forall p :: InTree(m.tables, q, p) ==> Untouched(m, m', p)
    ensures At(m'.tables, q, x) == At(m.tables, q, x)
  {
    assert IsNode(m.tables, q, Root, q);
    assert InTree(m.tables, q, q);
    if x.Low? && At(m.tables, q, Mid(x.j2)).Some? {
      var p := At(m.tables, q, Mid(x.j2)).value;
      assert IsNode(m.tables, q, Mid(x.j2), p);
      assert InTree(m.tables, q, p);
    }
  }

  /** A tree whose pages are untouched is the same tree with the same map. */
  lemma UntouchedTree(m: Mem, m': Mem, q: nat)
    requires TreeOk(m.tables, q) && forall p :: InTree(m.tables, q, p) ==> Untouched(m, m', p)
    ensures TreeOk(m'.tables, q) && SameTree(m.tables, m'.tables, q)
    ensures forall p :: InTree(m'.tables, q, p) <==> InTree(m.tables, q, p)
  {
    forall x | NodeOk(x) ensures At(m'.tables, q, x) == At(m.tables, q, x) { UntouchedAt(m, m', q, x); }
    SameNodes(m.tables, m'.tables, q);
    assert IsNode(m.tables, q, Root, q);
    hide IsNode, At, IsValid, IsLeafEntry;
    assert forall n, p :: IsNode(m'.tables, q, n, p) ==> InTree(m.tables, q, p);
    assert forall i :: TOP <= i < PTES ==> Child(m'.tables, q, i) == Child(m.tables, q, i);
  }

  lemma UntouchedMap(m: Mem, m': Mem, q: nat)
    requires TreeOk(m.tables, q) && forall p :: InTree(m.tables, q, p) ==> Untouched(m, m', p)
    ensures TreeOk(m'.tables, q) && SameMap(m.tables, m'.tables, q)
  {
    UntouchedTree(m, m', q);
    forall v | 0 <= v < MAXVPN ensures Leaf(m'.tables, q, v) == Leaf(m.tables, q, v) {
      PxRange(v);
      if At(m.tables, q, LowOf(v)).Some? {
        var p := At(m.tables, q, LowOf(v)).value;
        assert IsNode(m.tables, q, LowOf(v), p);
        assert InTree(m.tables, q, p);
      }
    }
  }

  /** Whatever keeps the accounts of the process at r leaves a process apart from it exactly as it
      was: tables, mappings and memory. */
  lemma Isolated(k: Range, m: Mem, m': Mem, r: nat, n: nat, n': nat, q: nat, nq: nat)
    requires ProcOk(k, m, r, n) && ProcOk(k, m', r, n') && ProcOk(k, m, q, nq)
    requires Apart(m, r, n, q, nq) && Conserved(m, m', r, n, n')
    ensures ProcOk(k, m', q, nq) && Apart(m', r, n', q, nq) && SameTree(m.tables, m'.tables, q)
    ensures SameMap(m.tables, m'.tables, q) && Stable(m, m', q, nq)
  {
    OwnedUntouched(m, m', r, n, n', q, nq);
    UntouchedTree(m, m', q);
    UntouchedMap(m, m', q);
    IsolatedPages(k, m, m', q, nq);
    IsolatedOwned(m, m', q, nq);
    IsolatedFree(k, m, m', r, n, n', q, nq);
    hide TreeOk, Leaf, Counted, InTree, FreeOk, Untouched, Stable, SameTree, SameMap, Owned, MapsTo;
    assert SpaceOk(k, m', q);
    assert UserOk(k, m', q, nq);
  }

  lemma OwnedUntouched(m: Mem, m': Mem, r: nat, n: nat, n': nat, q: nat, nq: nat)
    requires TreeOk(m.tables, r) && TreeOk(m'.tables, r) && TreeOk(m.tables, q)
    requires Apart(m, r, n, q, nq) && Conserved(m, m', r, n, n')
    ensures forall p :: Owned(m, q, nq, p) ==> Untouched(m, m', p)
    ensures forall p :: InTree(m.tables, q, p) ==> Untouched(m, m', p)
    ensures forall p :: Owned(m, q, nq, p) ==> !Counted(m', r, n', p)
  {
    hide TreeOk, Counted, InTree, Untouched;
    forall p | InTree(m.tables, q, p) ensures Untouched(m, m', p) {
      assert Owned(m, q, nq, p);
    }
  }

  lemma IsolatedPages(k: Range, m: Mem, m': Mem, q: nat, nq: nat)
    requires ProcOk(k, m, q, nq) && TreeOk(m'.tables, q) && SameMap(m.tables, m'.tables, q)
    requires forall p :: Owned(m, q, nq, p) ==> Untouched(m, m', p)
    ensures Stable(m, m', q, nq)
    ensures forall v, p :: MapsTo(m', q, v, p) && v < nq ==> MapsTo(m, q, v, p) && p in m'.data && p !in m'.tables
  {
    hide TreeOk, InTree;
    forall v, p | MapsTo(m, q, v, p) && v < nq ensures Untouched(m, m', p) {
      assert Owned(m, q, nq, p);
    }
    assert forall v, p :: MapsTo(m', q, v, p) ==> MapsTo(m, q, v, p);
    forall v | 0 <= v < nq && v < MAXVPN ensures PageAt(m', q, v) == PageAt(m, q, v) {
      if Leaf(m.tables, q, v).Some? {
        assert MapsTo(m, q, v, Ppn(Leaf(m.tables, q, v).value));
      }
    }
  }

  lemma IsolatedOwned(m: Mem, m': Mem, q: nat, nq: nat)
    requires TreeOk(m.tables, q) && TreeOk(m'.tables, q) && SameMap(m.tables, m'.tables, q)
    requires forall p :: InTree(m'.tables, q, p) <==> InTree(m.tables, q, p)
    ensures forall p :: Owned(m', q, nq, p) <==> Owned(m, q, nq, p)
  {
    hide TreeOk, InTree;
    assert forall v, p :: MapsTo(m', q, v, p) <==> MapsTo(m, q, v, p);
    forall p ensures Owned(m', q, nq, p) <==> Owned(m, q, nq, p) {
      if exists v :: MapsTo(m, q, v, p) && v < nq {
        var v :| MapsTo(m, q, v, p) && v < nq;
        assert MapsTo(m', q, v, p);
      }
      if exists v :: MapsTo(m', q, v, p) && v < nq {
        var v :| MapsTo(m', q, v, p) && v < nq;
        assert MapsTo(m, q, v, p);
      }
    }
  }

  lemma IsolatedFree(k: Range, m: Mem, m': Mem, r: nat, n: nat, n': nat, q: nat, nq: nat)
    requires TreeOk(m'.tables, r) && TreeOk(m'.tables, q) && TreeOk(m.tables, q)
    requires forall p :: Owned(m, q, nq, p) ==> !Counted(m', r, n', p)
    requires forall p :: Owned(m', q, nq, p) <==> Owned(m, q, nq, p)
    ensures forall p :: p in m'.free ==> !InTree(m'.tables, q, p)
    ensures forall v, p :: MapsTo(m', q, v, p) && v < nq ==> p !in m'.free
    ensures Apart(m', r, n', q, nq)
  {
    hide TreeOk, InTree;
    forall p | p in m'.free ensures !InTree(m'.tables, q, p) {
      assert Counted(m', r, n', p);
      assert !Owned(m', q, nq, p);
    }
    forall v, p | MapsTo(m', q, v, p) && v < nq ensures p !in m'.free {
      assert Owned(m', q, nq, p);
      assert !Counted(m', r, n', p);
    }
  }
}
