/** itrunc: every block of the inode goes back to the bitmap, and nothing else moves. */
module FsTrunc {
  import opened Blocks
  import opened FsFormat
  import opened FsState

  /** Every inode but i is as it was, in its fields, its slots and its bytes. */
  ghost predicate Others(sb: Superblock, f: Fs, f': Fs, i: nat)
    requires Shape(sb, f) && Shape(sb, f')
  {
    && (forall j :: 0 <= j < sb.ninodes && j != i ==> f'.ino[j] == f.ino[j])
    && (forall j, k :: 0 <= j < sb.ninodes && j != i && 0 <= k < NSLOTS ==> Slot(sb, f', j, k) == Slot(sb, f, j, k))
    && (forall j, o :: 0 <= j < sb.ninodes && j != i && 0 <= o < MAXFILE * BSIZE ==>
        ByteAt(sb, f', j, o) == ByteAt(sb, f, j, o))
  }

  lemma OthersTrans(sb: Superblock, f: Fs, f1: Fs, f2: Fs, i: nat)
    requires Shape(sb, f) && Shape(sb, f1) && Shape(sb, f2) && Others(sb, f, f1, i) && Others(sb, f1, f2, i)
    ensures Others(sb, f, f2, i)
  {
    forall j, k | 0 <= j < sb.ninodes && j != i && 0 <= k < NSLOTS ensures Slot(sb, f2, j, k) == Slot(sb, f, j, k) {
      assert Slot(sb, f1, j, k) == Slot(sb, f, j, k);
    }
    forall j, o | 0 <= j < sb.ninodes && j != i && 0 <= o < MAXFILE * BSIZE
      ensures ByteAt(sb, f2, j, o) == ByteAt(sb, f, j, o)
    {
      assert ByteAt(sb, f1, j, o) == ByteAt(sb, f, j, o);
    }
  }

  /** An address of inode i changes: the other inodes do not notice. */
  lemma OthersAddr(sb: Superblock, f: Fs, i: nat, k: nat)
    requires Shape(sb, f) && i < sb.ninodes && k <= INDIRECT
    ensures Shape(sb, WithAddr(f, i, k, 0)) && Others(sb, f, WithAddr(f, i, k, 0), i)
  {
    var f' := WithAddr(f, i, k, 0);
    assert Shape(sb, f');
    forall j, o | 0 <= j < sb.ninodes && j != i && 0 <= o < MAXFILE * BSIZE
      ensures ByteAt(sb, f', j, o) == ByteAt(sb, f, j, o)
    {
      assert Slot(sb, f', j, SlotOf(o / BSIZE)) == Slot(sb, f, j, SlotOf(o / BSIZE));
    }
  }

  lemma OthersSame(sb: Superblock, f: Fs, f': Fs, i: nat)
    requires Shape(sb, f) && Shape(sb, f') && f'.ino == f.ino && SameSlots(sb, f, f') && SameBytes(sb, f, f')
    ensures Others(sb, f, f', i)
  {}

  /** bfree(addrs[k]) and addrs[k] = 0 for a direct block. */
  lemma DropDirect(sb: Superblock, f: Fs, i: nat, k: nat)
    requires Owning(sb, f, {}) && i < sb.ninodes && k < NDIRECT && f.ino[i].addrs[k] != 0
    ensures var b := f.ino[i].addrs[k];
            b < sb.size && Bit(sb, f.store, b) &&
            var f' := WithAddr(f.(store := WithBit(sb, f.store, b, false)), i, k, 0);
            Owning(sb, f', {}) && Others(sb, f, f', i)
  {
    var b := f.ino[i].addrs[k];
    assert Uses(sb, f, i, k, b);
    var f1 := WithAddr(f, i, k, 0);
    EmptyDirect(sb, f, i, k, {});
    assert {} + {b} == {b} && {b} - {b} == {};
    FreeKeeps(sb, f1, b, {b});
    var f2 := f1.(store := WithBit(sb, f1.store, b, false));
    OthersAddr(sb, f, i, k);
    OthersSame(sb, f1, f2, i);
    OthersTrans(sb, f, f1, f2, i);
    assert f2 == WithAddr(f.(store := WithBit(sb, f.store, b, false)), i, k, 0);
  }

  /** The indirect block and the entries from e on: what itrunc's second loop has still to free. */
  ghost function Remaining(sb: Superblock, f: Fs, i: nat, e: nat): set<nat>
    requires Shape(sb, f) && i < sb.ninodes && e <= NINDIRECT
  {
    set k | 0 <= k < NSLOTS && (k == INDIRECT || k > INDIRECT + e) && Slot(sb, f, i, k) != 0 :: Slot(sb, f, i, k)
  }

  lemma RemainingStart(sb: Superblock, f: Fs, i: nat)
    requires Shape(sb, f) && i < sb.ninodes
    ensures Remaining(sb, f, i, 0) == IndirectBlocks(sb, f, i)
  {}

  lemma RemainingNext(sb: Superblock, f: Fs, i: nat, e: nat)
    requires Shape(sb, f) && SlotsOk(sb, f) && i < sb.ninodes && e < NINDIRECT
    ensures var b := Slot(sb, f, i, INDIRECT + 1 + e);
            if b == 0 then Remaining(sb, f, i, e + 1) == Remaining(sb, f, i, e)
            else b in Remaining(sb, f, i, e) && Remaining(sb, f, i, e + 1) == Remaining(sb, f, i, e) - {b}
  {
    var k0 := INDIRECT + 1 + e;
    var b := Slot(sb, f, i, k0);
    var r, r' := Remaining(sb, f, i, e), Remaining(sb, f, i, e + 1);
    forall c | c in r' ensures c in r && (b != 0 ==> c != b) {
      var k :| 0 <= k < NSLOTS && (k == INDIRECT || k > INDIRECT + e + 1) && Slot(sb, f, i, k) != 0
        && Slot(sb, f, i, k) == c;
      assert Uses(sb, f, i, k, c);
      if b != 0 && c == b { assert Uses(sb, f, i, k0, b); }
    }
    forall c | c in r && c != b ensures c in r' {
      var k :| 0 <= k < NSLOTS && (k == INDIRECT || k > INDIRECT + e) && Slot(sb, f, i, k) != 0
        && Slot(sb, f, i, k) == c;
      assert k != k0;
    }
  }

  lemma RemainingLast(sb: Superblock, f: Fs, i: nat)
    requires Shape(sb, f) && i < sb.ninodes && f.ino[i].addrs[INDIRECT] != 0
    ensures Remaining(sb, f, i, NINDIRECT) == {f.ino[i].addrs[INDIRECT]}
  {
    assert Slot(sb, f, i, INDIRECT) == f.ino[i].addrs[INDIRECT];
  }
}
