/** User memory byte by byte, through the page table. */
module VmBytes {
  import opened Blocks
  import opened PageTable
  import opened VmState

  /** PTE_U */
  predicate IsUser(pte: nat) { pte / 16 % 2 == 1 }

  /** The physical page of virtual page v when user code may access it. */
  ghost function Accessible(t: Tables, r: nat, v: int): Option<nat>
    requires TreeOk(t, r)
  {
    if 0 <= v < MAXVPN && Leaf(t, r, v).Some? && IsUser(Leaf(t, r, v).value) && Ppn(Leaf(t, r, v).value) != 0
    then Some(Ppn(Leaf(t, r, v).value)) else None
  }

  /** The byte user code reads at virtual address va. */
  ghost function UserByte(m: Mem, r: nat, va: int): Option<byte>
    requires TreeOk(m.tables, r)
  {
    var x := Accessible(m.tables, r, va / PGSIZE);
    if x.Some? && x.value in m.data then Some(m.data[x.value][va % PGSIZE]) else None
  }

  /** User-accessible pages lie below page n. */
  ghost predicate UserBelow(t: Tables, r: nat, n: nat)
    requires TreeOk(t, r)
  {
    forall v :: Accessible(t, r, v).Some? ==> v < n
  }

  /** done bytes of src at dstva, every other byte as it was. */
  ghost predicate Overwritten(m: Mem, m': Mem, r: nat, dstva: nat, src: seq<byte>, done: nat)
    requires TreeOk(m.tables, r) && TreeOk(m'.tables, r)
  {
    done <= |src| && forall va ::
      UserByte(m', r, va) == if dstva <= va < dstva + done then Some(src[va - dstva]) else UserByte(m, r, va)
  }

  lemma SpaceTree(k: Range, m: Mem, r: nat)
    requires SpaceOk(k, m, r)
    ensures TreeOk(m.tables, r)
  {}

  lemma AccessLeaf(k: Range, m: Mem, r: nat, v: nat)
    requires TreeOk(m.tables, r) && v < MAXVPN && At(m.tables, r, LowOf(v)).None?
    ensures Accessible(m.tables, r, v).None?
  {}

  lemma NoByte(m: Mem, r: nat, va: nat)
    requires TreeOk(m.tables, r) && Accessible(m.tables, r, va / PGSIZE).None?
    ensures UserByte(m, r, va).None?
  {}

  lemma AccessPage(k: Range, m: Mem, r: nat, n: nat, v: nat, x: nat)
    requires ProcOk(k, m, r, n) && UserBelow(m.tables, r, n) && Accessible(m.tables, r, v) == Some(x)
    ensures x in m.data && v < n && MapsTo(m, r, v, x)
  {
    assert MapsTo(m, r, v, x);
  }

  lemma SamePage(at: nat, i: nat)
    requires at % PGSIZE + i < PGSIZE
    ensures (at + i) / PGSIZE == at / PGSIZE && (at + i) % PGSIZE == at % PGSIZE + i
  {}

  lemma BytesRead(k: Range, m: Mem, r: nat, at: nat, x: nat, c: nat)
    requires TreeOk(m.tables, r) && Accessible(m.tables, r, at / PGSIZE) == Some(x) && x in m.data
    requires at % PGSIZE + c <= PGSIZE
    ensures forall va :: at <= va < at + c ==> UserByte(m, r, va) == Some(m.data[x][at % PGSIZE + (va - at)])
  {
    hide TreeOk, Accessible;
    forall va | at <= va < at + c ensures UserByte(m, r, va) == Some(m.data[x][at % PGSIZE + (va - at)]) {
      SamePage(at, va - at);
    }
  }

  /** A store within one page changes the bytes at those virtual addresses and no others. */
  lemma BytesWritten(k: Range, m: Mem, m': Mem, r: nat, n: nat, at: nat, x: nat, s: seq<byte>)
    requires ProcOk(k, m, r, n) && UserBelow(m.tables, r, n) && Accessible(m.tables, r, at / PGSIZE) == Some(x)
    requires x in m.data
    requires at % PGSIZE + |s| <= PGSIZE && at / PGSIZE < n && MapsTo(m, r, at / PGSIZE, x)
    requires m'.tables == m.tables && m'.free == m.free && x in m'.data
    requires m'.data == m.data[x := m'.data[x]]
    requires m'.data[x] == m.data[x][..at % PGSIZE] + s + m.data[x][at % PGSIZE + |s|..]
    ensures ProcOk(k, m', r, n) && Conserved(m, m', r, n, n) && Overwritten(m, m', r, at, s, |s|)
  {
    WrittenProc(k, m, m', r, n, at / PGSIZE, x);
    hide ProcOk, TreeOk, Accessible, UserBelow, Conserved;
    forall va ensures UserByte(m', r, va) == if at <= va < at + |s| then Some(s[va - at]) else UserByte(m, r, va) {
      ByteWritten(k, m, m', r, n, at, x, s, va);
    }
  }

  lemma WrittenProc(k: Range, m: Mem, m': Mem, r: nat, n: nat, v: nat, x: nat)
    requires ProcOk(k, m, r, n) && MapsTo(m, r, v, x) && v < n && x in m'.data && x in m.data
    requires m'.tables == m.tables && m'.free == m.free && m'.data == m.data[x := m'.data[x]]
    ensures ProcOk(k, m', r, n) && Conserved(m, m', r, n, n)
  {
    assert forall w, y :: MapsTo(m', r, w, y) <==> MapsTo(m, r, w, y);
    assert Counted(m, r, n, x);
    forall p ensures Counted(m', r, n, p) <==> Counted(m, r, n, p) {
      if exists w :: MapsTo(m, r, w, p) && w < n {
        var w :| MapsTo(m, r, w, p) && w < n;
        assert MapsTo(m', r, w, p);
      }
      if exists w :: MapsTo(m', r, w, p) && w < n {
        var w :| MapsTo(m', r, w, p) && w < n;
        assert MapsTo(m, r, w, p);
      }
    }
  }

  lemma ByteWritten(k: Range, m: Mem, m': Mem, r: nat, n: nat, at: nat, x: nat, s: seq<byte>, va: int)
    requires ProcOk(k, m, r, n) && UserBelow(m.tables, r, n) && Accessible(m.tables, r, at / PGSIZE) == Some(x)
    requires x in m.data
    requires at % PGSIZE + |s| <= PGSIZE && at / PGSIZE < n && MapsTo(m, r, at / PGSIZE, x)
    requires m'.tables == m.tables && x in m'.data && m'.data == m.data[x := m'.data[x]]
    requires m'.data[x] == m.data[x][..at % PGSIZE] + s + m.data[x][at % PGSIZE + |s|..]
    ensures UserByte(m', r, va) == if at <= va < at + |s| then Some(s[va - at]) else UserByte(m, r, va)
  {
    if at <= va < at + |s| {
      SamePage(at, va - at);
    } else if Accessible(m.tables, r, va / PGSIZE) == Some(x) {
      OnePage(k, m, r, n, at / PGSIZE, va / PGSIZE, x);
    }
  }

  lemma OnePage(k: Range, m: Mem, r: nat, n: nat, v: nat, w: int, x: nat)
    requires ProcOk(k, m, r, n) && UserBelow(m.tables, r, n) && MapsTo(m, r, v, x) && v < n
    requires Accessible(m.tables, r, w) == Some(x)
    ensures w == v
  {
    assert MapsTo(m, r, w, x) && w < n;
  }

  lemma OverwrittenNone(k: Range, m: Mem, r: nat, n: nat, dstva: nat, src: seq<byte>)
    requires ProcOk(k, m, r, n)
    ensures TreeOk(m.tables, r) && Overwritten(m, m, r, dstva, src, 0) && Conserved(m, m, r, n, n)
  {}

  lemma OverwrittenMore(m: Mem, m1: Mem, m2: Mem, r: nat, n: nat, dstva: nat, src: seq<byte>, d: nat, c: nat)
    requires TreeOk(m.tables, r) && m1.tables == m.tables && m2.tables == m.tables && d + c <= |src|
    requires Overwritten(m, m1, r, dstva, src, d) && Overwritten(m1, m2, r, dstva + d, src[d..d + c], c)
    requires Conserved(m, m1, r, n, n) && Conserved(m1, m2, r, n, n)
    ensures Overwritten(m, m2, r, dstva, src, d + c) && Conserved(m, m2, r, n, n)
  {
    ConservedTrans(m, m1, m2, r, n, n, n);
    hide TreeOk, UserByte, Conserved;
  }
}
