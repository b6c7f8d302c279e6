/** Files as byte strings over block addresses, and who owns which block. */
module FsState {
  import opened Blocks
  import opened FsFormat

  /** The block map the log layer provides, and the in-memory inodes. */
  datatype Fs = Fs(store: seq<Block>, ino: seq<Ino>)

  const INDIRECT: nat := 12 // the slot of the indirect block
  const NSLOTS: nat := 269 // direct, indirect, and the indirect block's entries

  ghost predicate Shape(sb: Superblock, f: Fs) {
    && LayoutOk(sb) && |f.store| == sb.size && |f.ino| == sb.ninodes
    && forall i :: 0 <= i < |f.ino| ==> InoOk(f.ino[i]) && f.ino[i].addrs[INDIRECT] < sb.size
  }

  /** Every place an inode can hold a block number: its addresses, then the indirect entries. */
  ghost function Slot(sb: Superblock, f: Fs, i: int, k: int): nat
    requires Shape(sb, f) && 0 <= i < sb.ninodes && 0 <= k < NSLOTS
  {
    if k <= INDIRECT then f.ino[i].addrs[k]
    else if f.ino[i].addrs[INDIRECT] == 0 then 0
    else WordAt(f.store[f.ino[i].addrs[INDIRECT]], k - INDIRECT - 1)
  }

  /** Block b is in use as slot k of inode i. */
  ghost predicate Uses(sb: Superblock, f: Fs, i: int, k: int, b: int)
    requires Shape(sb, f)
  {
    0 <= i < sb.ninodes && 0 <= k < NSLOTS && b != 0 && Slot(sb, f, i, k) == b
  }

  ghost predicate Owned(sb: Superblock, f: Fs, b: int)
    requires Shape(sb, f)
  {
    exists i, k :: Uses(sb, f, i, k, b)
  }

  /** Owned blocks are data blocks and have one owner. */
  ghost predicate SlotsOk(sb: Superblock, f: Fs)
    requires Shape(sb, f)
  {
    && (forall i, k, b :: Uses(sb, f, i, k, b) ==> sb.datastart <= b < sb.size)
    && (forall i, k, i', k', b :: Uses(sb, f, i, k, b) && Uses(sb, f, i', k', b) ==> i == i' && k == k')
  }

  /** The bitmap marks metadata, owned blocks, and the loose blocks (allocated, in nobody's slot). */
  ghost predicate BitmapOk(sb: Superblock, f: Fs, loose: set<nat>)
    requires Shape(sb, f)
  {
    && (forall b :: 0 <= b < sb.size ==> (Bit(sb, f.store, b) <==> b < sb.datastart || Owned(sb, f, b) || b in loose))
    && (forall b :: b in loose ==> sb.datastart <= b < sb.size && !Owned(sb, f, b))
  }

  /** Block ownership while the blocks of loose are on their way into or out of a slot. */
  ghost predicate Owning(sb: Superblock, f: Fs, loose: set<nat>) {
    Shape(sb, f) && SlotsOk(sb, f) && BitmapOk(sb, f, loose)
  }

  /** The slot bmap looks up for block bn of a file. */
  function SlotOf(bn: nat): nat { if bn < NDIRECT then bn else bn + 1 }

  ghost function AddrAt(sb: Superblock, f: Fs, i: int, bn: nat): nat
    requires Shape(sb, f) && 0 <= i < sb.ninodes && bn < MAXFILE
  {
    Slot(sb, f, i, SlotOf(bn))
  }

  /** Byte o of inode i's storage; a block not allocated reads as zeros. */
  ghost function ByteAt(sb: Superblock, f: Fs, i: int, o: nat): byte
    requires Shape(sb, f) && 0 <= i < sb.ninodes && o < MAXFILE * BSIZE
  {
    var a := AddrAt(sb, f, i, o / BSIZE);
    if a == 0 || a >= sb.size then 0 else f.store[a][o % BSIZE]
  }

  ghost predicate SameBytes(sb: Superblock, f: Fs, f': Fs)
    requires Shape(sb, f) && Shape(sb, f')
  {
    forall i, o :: 0 <= i < sb.ninodes && 0 <= o < MAXFILE * BSIZE ==> ByteAt(sb, f', i, o) == ByteAt(sb, f, i, o)
  }

  ghost predicate SameSlots(sb: Superblock, f: Fs, f': Fs)
    requires Shape(sb, f) && Shape(sb, f')
  {
    forall i, k :: 0 <= i < sb.ninodes && 0 <= k < NSLOTS ==> Slot(sb, f', i, k) == Slot(sb, f, i, k)
  }

  /** The file proper. */
  ghost function Content(sb: Superblock, f: Fs, i: int): seq<byte>
    requires Shape(sb, f) && 0 <= i < sb.ninodes && f.ino[i].size <= MAXFILE * BSIZE
  {
    seq(f.ino[i].size, o requires 0 <= o < f.ino[i].size => ByteAt(sb, f, i, o))
  }

  /** Every block below the size is allocated. */
  ghost predicate NoHoles(sb: Superblock, f: Fs, i: int)
    requires Shape(sb, f) && 0 <= i < sb.ninodes
  {
    && f.ino[i].size <= MAXFILE * BSIZE
    && forall bn :: 0 <= bn < MAXFILE && bn * BSIZE < f.ino[i].size ==> AddrAt(sb, f, i, bn) != 0
  }

  ghost predicate Healthy(sb: Superblock, f: Fs) {
    && Owning(sb, f, {})
    && (forall i :: 0 <= i < sb.ninodes ==> f.ino[i].size <= MAXFILE * BSIZE)
    && (forall i :: 0 <= i < sb.ninodes ==> NoHoles(sb, f, i))
  }

  // ----- changes outside the data blocks

  lemma SlotsFrame(sb: Superblock, f: Fs, f': Fs)
    requires Shape(sb, f) && Shape(sb, f') && SlotsOk(sb, f) && f'.ino == f.ino
    requires forall i :: 0 <= i < sb.ninodes && f.ino[i].addrs[INDIRECT] != 0 ==>
               f'.store[f.ino[i].addrs[INDIRECT]] == f.store[f.ino[i].addrs[INDIRECT]]
    ensures SameSlots(sb, f, f')
  {}

  lemma UsesFrame(sb: Superblock, f: Fs, f': Fs)
    requires Shape(sb, f) && Shape(sb, f') && SameSlots(sb, f, f')
    ensures forall i, k, b :: Uses(sb, f', i, k, b) <==> Uses(sb, f, i, k, b)
    ensures forall b :: Owned(sb, f', b) <==> Owned(sb, f, b)
    ensures SlotsOk(sb, f) ==> SlotsOk(sb, f')
  {
    forall b ensures Owned(sb, f', b) <==> Owned(sb, f, b) {
      if Owned(sb, f, b) {
        var i, k :| Uses(sb, f, i, k, b);
        assert Uses(sb, f', i, k, b);
      }
      if Owned(sb, f', b) {
        var i, k :| Uses(sb, f', i, k, b);
        assert Uses(sb, f, i, k, b);
      }
    }
  }

  lemma BytesFrame(sb: Superblock, f: Fs, f': Fs)
    requires Shape(sb, f) && Shape(sb, f') && SameSlots(sb, f, f')
    requires forall i, k, b :: Uses(sb, f, i, k, b) && b < sb.size ==> f'.store[b] == f.store[b]
    ensures SameBytes(sb, f, f')
  {
    forall i, o | 0 <= i < sb.ninodes && 0 <= o < MAXFILE * BSIZE
      ensures ByteAt(sb, f', i, o) == ByteAt(sb, f, i, o)
    {
      var a := AddrAt(sb, f, i, o / BSIZE);
      assert Slot(sb, f', i, SlotOf(o / BSIZE)) == a;
      if a != 0 && a < sb.size { assert Uses(sb, f, i, SlotOf(o / BSIZE), a); }
    }
  }

  /** Changing blocks nobody owns changes no slot and no byte of any file. */
  lemma UnownedFrame(sb: Superblock, f: Fs, f': Fs)
    requires Shape(sb, f) && SlotsOk(sb, f) && f'.ino == f.ino && |f'.store| == |f.store|
    requires forall i, k, b :: Uses(sb, f, i, k, b) && b < sb.size ==> f'.store[b] == f.store[b]
    ensures Shape(sb, f') && SameSlots(sb, f, f') && SameBytes(sb, f, f') && SlotsOk(sb, f')
    ensures forall b :: Owned(sb, f', b) <==> Owned(sb, f, b)
  {
    forall i | 0 <= i < sb.ninodes && f.ino[i].addrs[INDIRECT] != 0
      ensures f'.store[f.ino[i].addrs[INDIRECT]] == f.store[f.ino[i].addrs[INDIRECT]]
    {
      assert Uses(sb, f, i, INDIRECT, f.ino[i].addrs[INDIRECT]);
    }
    SlotsFrame(sb, f, f');
    UsesFrame(sb, f, f');
    BytesFrame(sb, f, f');
  }

  // ----- allocation and freeing of one block

  /** The bitmap moves by one bit: block b joins or leaves the loose blocks. */
  lemma BitmapMoves(sb: Superblock, f: Fs, f': Fs, b: nat, on: bool, loose: set<nat>, loose': set<nat>)
    requires Shape(sb, f) && Shape(sb, f') && BitmapOk(sb, f, loose) && sb.datastart <= b < sb.size && !Owned(sb, f, b)
    requires forall c :: 0 <= c < sb.size ==> (Bit(sb, f'.store, c) <==> if c == b then on else Bit(sb, f.store, c))
    requires forall c :: Owned(sb, f', c) <==> Owned(sb, f, c)
    requires loose' == if on then loose + {b} else loose - {b}
    ensures BitmapOk(sb, f', loose')
  {}

  ghost predicate IsZero(z: Block) {
    forall k :: 0 <= k < BSIZE ==> z[k] == 0
  }

  /** balloc's effect on the store: the bit is set and the block cleared. */
  ghost predicate Allocates(sb: Superblock, store: seq<Block>, store': seq<Block>, b: nat)
    requires LayoutOk(sb) && |store| == sb.size
  {
    && b < sb.size && |store'| == sb.size
    && IsZero(store'[b]) && store' == WithBit(sb, store, b, true)[b := store'[b]]
  }

  /** Allocating a free block disturbs no file; the block is loose until it gets a slot. */
  lemma AllocateKeeps(sb: Superblock, f: Fs, f': Fs, b: nat, loose: set<nat>)
    requires Owning(sb, f, loose) && Allocates(sb, f.store, f'.store, b) && !Bit(sb, f.store, b) && f'.ino == f.ino
    ensures Owning(sb, f', loose + {b}) && SameSlots(sb, f, f') && SameBytes(sb, f, f') && b !in loose
    ensures !Owned(sb, f, b)
  {
    BBlockRange(sb, b);
    UnownedFrame(sb, f, f');
    forall c | 0 <= c < sb.size ensures Bit(sb, f'.store, c) <==> if c == b then true else Bit(sb, f.store, c) {
      BBlockRange(sb, c);
      WithBitTests(sb, f.store, b, true, c);
    }
    BitmapMoves(sb, f, f', b, true, loose, loose + {b});
  }

  /** bfree of a loose block. */
  lemma FreeKeeps(sb: Superblock, f: Fs, b: nat, loose: set<nat>)
    requires Owning(sb, f, loose) && b in loose
    ensures Bit(sb, f.store, b)
    ensures var f' := f.(store := WithBit(sb, f.store, b, false));
            Owning(sb, f', loose - {b}) && SameSlots(sb, f, f') && SameBytes(sb, f, f')
  {
    var f' := f.(store := WithBit(sb, f.store, b, false));
    BBlockRange(sb, b);
    UnownedFrame(sb, f, f');
    forall c | 0 <= c < sb.size ensures Bit(sb, f'.store, c) <==> if c == b then false else Bit(sb, f.store, c) {
      WithBitTests(sb, f.store, b, false, c);
    }
    BitmapMoves(sb, f, f', b, false, loose, loose - {b});
  }

  // ----- giving a loose block a slot

  /** f' has loose block b in slot (i, k), which was empty, and is otherwise as f. */
  ghost predicate Fills(sb: Superblock, f: Fs, f': Fs, i: int, k: int, b: nat)
    requires Shape(sb, f) && Shape(sb, f')
  {
    && 0 <= i < sb.ninodes && 0 <= k < NSLOTS && Slot(sb, f, i, k) == 0 && Slot(sb, f', i, k) == b
    && forall j, m ::
      0 <= j < sb.ninodes && 0 <= m < NSLOTS && (j != i || m != k) ==> Slot(sb, f', j, m) == Slot(sb, f, j, m)
  }

  lemma FillUses(sb: Superblock, f: Fs, f': Fs, i: int, k: int, b: nat)
    requires Shape(sb, f) && Shape(sb, f') && Fills(sb, f, f', i, k, b) && b != 0 && SlotsOk(sb, f)
    requires !Owned(sb, f, b) && sb.datastart <= b < sb.size
    ensures SlotsOk(sb, f') && forall c :: Owned(sb, f', c) <==> Owned(sb, f, c) || c == b
  {
    assert Uses(sb, f', i, k, b);
    forall j, m, c ensures Uses(sb, f', j, m, c) <==> Uses(sb, f, j, m, c) || (j == i && m == k && c == b) {}
    forall c ensures Owned(sb, f', c) <==> Owned(sb, f, c) || c == b {
      if Owned(sb, f, c) {
        var j, m :| Uses(sb, f, j, m, c);
        assert Uses(sb, f', j, m, c);
      }
      if Owned(sb, f', c) {
        var j, m :| Uses(sb, f', j, m, c);
        assert Uses(sb, f, j, m, c) || (j == i && m == k && c == b);
      }
    }
  }

  lemma FillKeeps(sb: Superblock, f: Fs, f': Fs, i: int, k: int, b: nat, loose: set<nat>)
    requires Owning(sb, f, loose) && b in loose && Shape(sb, f') && Fills(sb, f, f', i, k, b)
    requires forall c :: 0 <= c < sb.size ==> (Bit(sb, f'.store, c) <==> Bit(sb, f.store, c))
    ensures Owning(sb, f', loose - {b})
  {
    FillUses(sb, f, f', i, k, b);
  }

  ghost function WithAddr(f: Fs, i: nat, k: nat, b: nat): Fs
    requires i < |f.ino| && k < |f.ino[i].addrs|
  {
    f.(ino := f.ino[i := f.ino[i].(addrs := f.ino[i].addrs[k := b])])
  }

  lemma ZeroWords(z: Block, e: nat)
    requires IsZero(z) && e < WORDS
    ensures WordAt(z, e) == 0
  {}

  /** A cleared block put where there was none reads as before. */
  lemma FillBytes(sb: Superblock, f: Fs, f': Fs, i: int, k: int, b: nat)
    requires Shape(sb, f) && Shape(sb, f') && Fills(sb, f, f', i, k, b)
    requires b < sb.size && IsZero(f.store[b]) && f'.store[b] == f.store[b]
    requires forall j, m, c :: Uses(sb, f, j, m, c) && m != INDIRECT && c < sb.size ==> f'.store[c] == f.store[c]
    ensures SameBytes(sb, f, f')
  {
    forall j, o | 0 <= j < sb.ninodes && 0 <= o < MAXFILE * BSIZE
      ensures ByteAt(sb, f', j, o) == ByteAt(sb, f, j, o)
    {
      var m := SlotOf(o / BSIZE);
      var a := Slot(sb, f, j, m);
      if (j != i || m != k) && a != 0 && a < sb.size {
        assert Uses(sb, f, j, m, a);
      }
    }
  }

  /** ip->addrs[bn] = b. */
  lemma FillDirect(sb: Superblock, f: Fs, i: nat, k: nat, b: nat, loose: set<nat>)
    requires Owning(sb, f, loose) && i < sb.ninodes && k < NDIRECT && b in loose
    requires f.ino[i].addrs[k] == 0 && IsZero(f.store[b])
    ensures var f' := WithAddr(f, i, k, b);
            Owning(sb, f', loose - {b}) && SameBytes(sb, f, f') && Fills(sb, f, f', i, k, b)
  {
    var f' := WithAddr(f, i, k, b);
    assert Shape(sb, f');
    assert Fills(sb, f, f', i, k, b);
    FillKeeps(sb, f, f', i, k, b, loose);
    FillBytes(sb, f, f', i, k, b);
  }

  /** ip->addrs[NDIRECT] = b: a cleared indirect block has no entries. */
  lemma FillIndirect(sb: Superblock, f: Fs, i: nat, b: nat, loose: set<nat>)
    requires Owning(sb, f, loose) && i < sb.ninodes && b in loose
    requires f.ino[i].addrs[INDIRECT] == 0 && IsZero(f.store[b])
    ensures var f' := WithAddr(f, i, INDIRECT, b);
            Owning(sb, f', loose - {b}) && SameBytes(sb, f, f') && Fills(sb, f, f', i, INDIRECT, b)
  {
    var f' := WithAddr(f, i, INDIRECT, b);
    forall e | 0 <= e < NINDIRECT ensures WordAt(f.store[b], e) == 0 {
      ZeroWords(f.store[b], e);
    }
    assert Shape(sb, f');
    assert Fills(sb, f, f', i, INDIRECT, b);
    FillKeeps(sb, f, f', i, INDIRECT, b, loose);
    FillBytes(sb, f, f', i, INDIRECT, b);
  }

  ghost function WithEntry(f: Fs, ind: nat, e: nat, b: nat): Fs
    requires ind < |f.store| && e < NINDIRECT && b < TWO32
  {
    f.(store := f.store[ind := PutWord(f.store[ind], e, b)])
  }

  /** a[bn] = b in the indirect block. */
  lemma FillEntry(sb: Superblock, f: Fs, i: nat, e: nat, b: nat, loose: set<nat>)
    requires Owning(sb, f, loose) && i < sb.ninodes && e < NINDIRECT && b in loose && IsZero(f.store[b])
    requires f.ino[i].addrs[INDIRECT] != 0 && Slot(sb, f, i, INDIRECT + 1 + e) == 0
    ensures var f' := WithEntry(f, f.ino[i].addrs[INDIRECT], e, b);
            Owning(sb, f', loose - {b}) && SameBytes(sb, f, f') && Fills(sb, f, f', i, INDIRECT + 1 + e, b)
  {
    var ind := f.ino[i].addrs[INDIRECT];
    var f' := WithEntry(f, ind, e, b);
    assert Uses(sb, f, i, INDIRECT, ind);
    assert Shape(sb, f');
    EntryFills(sb, f, f', i, e, b);
    forall c | 0 <= c < sb.size ensures Bit(sb, f'.store, c) <==> Bit(sb, f.store, c) {
      BBlockRange(sb, c);
    }
    FillKeeps(sb, f, f', i, INDIRECT + 1 + e, b, loose);
    FillBytes(sb, f, f', i, INDIRECT + 1 + e, b);
  }

  lemma EntryFills(sb: Superblock, f: Fs, f': Fs, i: nat, e: nat, b: nat)
    requires Shape(sb, f) && SlotsOk(sb, f) && i < sb.ninodes && e < NINDIRECT && b < TWO32
    requires f.ino[i].addrs[INDIRECT] != 0 && Slot(sb, f, i, INDIRECT + 1 + e) == 0
    requires Shape(sb, f') && f' == WithEntry(f, f.ino[i].addrs[INDIRECT], e, b)
    ensures Fills(sb, f, f', i, INDIRECT + 1 + e, b)
  {
    hide WordAt, PutWord;
    var ind := f.ino[i].addrs[INDIRECT];
    assert Uses(sb, f, i, INDIRECT, ind);
    forall j, m | 0 <= j < sb.ninodes && 0 <= m < NSLOTS
      ensures Slot(sb, f', j, m) == if j == i && m == INDIRECT + 1 + e then b else Slot(sb, f, j, m)
    {
      if m > INDIRECT && f.ino[j].addrs[INDIRECT] != 0 {
        assert Uses(sb, f, j, INDIRECT, f.ino[j].addrs[INDIRECT]);
        if j == i {
          WordPut(f.store[ind], e, b, m - INDIRECT - 1);
        }
      }
    }
  }

  // ----- taking blocks out of their slots

  /** ip->addrs[k] = 0 for a direct block. */
  lemma EmptyDirect(sb: Superblock, f: Fs, i: nat, k: nat, loose: set<nat>)
    requires Owning(sb, f, loose) && i < sb.ninodes && k < NDIRECT && f.ino[i].addrs[k] != 0
    ensures Owning(sb, WithAddr(f, i, k, 0), loose + {f.ino[i].addrs[k]})
    ensures f.ino[i].addrs[k] !in loose
  {
    var b := f.ino[i].addrs[k];
    var f' := WithAddr(f, i, k, 0);
    assert Shape(sb, f');
    assert Uses(sb, f, i, k, b);
    assert forall j, m :: 0 <= j < sb.ninodes && 0 <= m < NSLOTS ==>
      Slot(sb, f', j, m) == if j == i && m == k then 0 else Slot(sb, f, j, m);
    EmptyUses(sb, f, f', {b}, loose);
  }

  /** Blocks leave their slots and become loose. */
  lemma EmptyUses(sb: Superblock, f: Fs, f': Fs, gone: set<nat>, loose: set<nat>)
    requires Owning(sb, f, loose) && Shape(sb, f') && f'.store == f.store
    requires forall b :: b in gone ==> Owned(sb, f, b)
    requires forall j, m, c :: Uses(sb, f', j, m, c) <==> Uses(sb, f, j, m, c) && c !in gone
    ensures Owning(sb, f', loose + gone)
  {
    forall c ensures Owned(sb, f', c) <==> Owned(sb, f, c) && c !in gone {
      if Owned(sb, f, c) && c !in gone {
        var j, m :| Uses(sb, f, j, m, c);
        assert Uses(sb, f', j, m, c);
      }
      if Owned(sb, f', c) {
        var j, m :| Uses(sb, f', j, m, c);
        assert Uses(sb, f, j, m, c);
      }
    }
  }

  /** The indirect block of inode i and the blocks its entries name. */
  ghost function IndirectBlocks(sb: Superblock, f: Fs, i: nat): set<nat>
    requires Shape(sb, f) && i < sb.ninodes
  {
    set k | INDIRECT <= k < NSLOTS && Slot(sb, f, i, k) != 0 :: Slot(sb, f, i, k)
  }

  /** ip->addrs[NDIRECT] = 0. */
  lemma EmptyIndirect(sb: Superblock, f: Fs, i: nat, loose: set<nat>)
    requires Owning(sb, f, loose) && i < sb.ninodes
    ensures Owning(sb, WithAddr(f, i, INDIRECT, 0), loose + IndirectBlocks(sb, f, i))
  {
    var gone := IndirectBlocks(sb, f, i);
    var f' := WithAddr(f, i, INDIRECT, 0);
    assert Shape(sb, f');
    assert forall j, m :: 0 <= j < sb.ninodes && 0 <= m < NSLOTS ==>
      Slot(sb, f', j, m) == if j == i && m >= INDIRECT then 0 else Slot(sb, f, j, m);
    forall b | b in gone ensures Owned(sb, f, b) {
      var k :| INDIRECT <= k < NSLOTS && Slot(sb, f, i, k) != 0 && Slot(sb, f, i, k) == b;
      assert Uses(sb, f, i, k, b);
    }
    forall j, m, c ensures Uses(sb, f', j, m, c) <==> Uses(sb, f, j, m, c) && c !in gone {
      if Uses(sb, f, j, m, c) {
        if j == i && m >= INDIRECT {
          assert c == Slot(sb, f, i, m);
        } else if c in gone {
          var k :| INDIRECT <= k < NSLOTS && Slot(sb, f, i, k) != 0 && Slot(sb, f, i, k) == c;
          assert Uses(sb, f, i, k, c);
        }
      }
    }
    EmptyUses(sb, f, f', gone, loose);
  }

  // ----- writes that allocate nothing

  /** Overwriting block bn of file i changes the bytes of that block of that file and no others. */
  lemma StoreBytes(sb: Superblock, f: Fs, i: nat, bn: nat, data: Block)
    requires Owning(sb, f, {}) && i < sb.ninodes && bn < MAXFILE && AddrAt(sb, f, i, bn) != 0
    ensures AddrAt(sb, f, i, bn) < sb.size
    ensures var f' := f.(store := f.store[AddrAt(sb, f, i, bn) := data]);
            && Owning(sb, f', {}) && SameSlots(sb, f, f')
            && forall j, o :: 0 <= j < sb.ninodes && 0 <= o < MAXFILE * BSIZE ==>
                 ByteAt(sb, f', j, o) == if j == i && o / BSIZE == bn then data[o % BSIZE] else ByteAt(sb, f, j, o)
  {
    var a := AddrAt(sb, f, i, bn);
    assert Uses(sb, f, i, SlotOf(bn), a);
    var f' := f.(store := f.store[a := data]);
    assert Shape(sb, f');
    forall j | 0 <= j < sb.ninodes && f.ino[j].addrs[INDIRECT] != 0 ensures f.ino[j].addrs[INDIRECT] != a {
      assert Uses(sb, f, j, INDIRECT, f.ino[j].addrs[INDIRECT]);
    }
    SlotsFrame(sb, f, f');
    UsesFrame(sb, f, f');
    SameBitmap(sb, f, f');
    forall j, o | 0 <= j < sb.ninodes && 0 <= o < MAXFILE * BSIZE
      ensures ByteAt(sb, f', j, o) == if j == i && o / BSIZE == bn then data[o % BSIZE] else ByteAt(sb, f, j, o)
    {
      var c := AddrAt(sb, f, j, o / BSIZE);
      assert Slot(sb, f', j, SlotOf(o / BSIZE)) == c;
      if c != 0 { assert Uses(sb, f, j, SlotOf(o / BSIZE), c); }
    }
  }

  lemma SameBitmap(sb: Superblock, f: Fs, f': Fs)
    requires Owning(sb, f, {}) && Shape(sb, f') && SameSlots(sb, f, f') && SlotsOk(sb, f')
    requires forall c :: sb.bmapstart <= c < sb.datastart ==> f'.store[c] == f.store[c]
    ensures Owning(sb, f', {})
  {
    UsesFrame(sb, f, f');
    forall c | 0 <= c < sb.size ensures Bit(sb, f'.store, c) <==> Bit(sb, f.store, c) {
      BBlockRange(sb, c);
    }
  }

  /** Writing a block of the inode area concerns no file's storage. */
  lemma InodeAreaWrite(sb: Superblock, f: Fs, b: nat, data: Block)
    requires Owning(sb, f, {}) && b < sb.bmapstart
    ensures var f' := f.(store := f.store[b := data]);
            Owning(sb, f', {}) && SameSlots(sb, f, f') && SameBytes(sb, f, f')
  {
    var f' := f.(store := f.store[b := data]);
    UnownedFrame(sb, f, f');
    SameBitmap(sb, f, f');
  }

  /** Changing an inode's fields other than its addresses. */
  lemma FieldsOnly(sb: Superblock, f: Fs, f': Fs)
    requires Owning(sb, f, {}) && Shape(sb, f') && f'.store == f.store
    requires forall i :: 0 <= i < sb.ninodes ==> f'.ino[i].addrs == f.ino[i].addrs
    ensures Owning(sb, f', {}) && SameSlots(sb, f, f') && SameBytes(sb, f, f')
  {
    assert SameSlots(sb, f, f');
    UsesFrame(sb, f, f');
    BytesFrame(sb, f, f');
    SameBitmap(sb, f, f');
  }
}
