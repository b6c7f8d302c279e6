/** mkfs/mkfs.c: the file-system image, built front to back with a counter of blocks and one of inodes, and its
    bitmap written last. */
module Mkfs {
  import opened Blocks
  import opened FsFormat
  import opened FsState
  import opened FsCode
  import opened DirFormat

  // ----- the bitmap that balloc writes

  function Blank(): Block { seq(BSIZE, _ => 0) }

  /** Block z with its first n bits set, one at a time. */
  function FirstBits(z: Block, n: nat): Block
    requires n <= BPB
    decreases n
  {
    if n == 0 then z else SetBlockBit(FirstBits(z, n - 1), n - 1, true)
  }

  lemma ZeroBit(z: Block, c: nat)
    requires IsZero(z) && c < BPB
    ensures !BlockBit(z, c)
  {
    NoBits(c % 8);
  }

  lemma {:induction false} NoBits(k: nat)
    ensures !TestBit(0, k)
  {
    if k > 0 { NoBits(k - 1); }
  }

  lemma {:induction false} BitsTest(n: nat, c: nat)
    requires n <= BPB && c < BPB
    ensures BlockBit(FirstBits(Blank(), n), c) <==> c < n
  {
    if n == 0 {
      ZeroBit(Blank(), c);
    } else {
      BitsTest(n - 1, c);
      SetBlockBitTests(FirstBits(Blank(), n - 1), n - 1, true, c);
    }
  }

  /** The image as it will be: the first n blocks marked. */
  ghost function Marked(sb: Superblock, store: seq<Block>, n: nat): seq<Block>
    requires sb.bmapstart < |store| && n <= BPB
  {
    store[sb.bmapstart := FirstBits(Blank(), n)]
  }

  /** The superblock for a disk of size blocks: boot block, superblock, log, inodes, bitmap, data. */
  function Super(size: nat, ninodes: nat, nlog: nat): Superblock {
    var inodestart := 2 + nlog;
    var bmapstart := inodestart + ninodes / IPB + 1;
    Superblock(size, ninodes, inodestart, bmapstart, bmapstart + size / BPB + 1)
  }

  lemma ZeroIno(data: Block, slot: nat)
    requires IsZero(data) && slot < IPB
    ensures Bare(GetIno(data, slot)) && GetIno(data, slot).typ == 0 && InoOk(GetIno(data, slot))
  {
    hide WordAt, SlotWord, IsZero;
    forall k | 0 <= k < 16 ensures SlotWord(data, slot, k) == 0 {
      ZeroSlot(data, slot, k);
    }
  }

  lemma ZeroSlot(data: Block, slot: nat, k: nat)
    requires IsZero(data) && slot < IPB && k < 16
    ensures SlotWord(data, slot, k) == 0
  {
    hide WordAt, IsZero;
    ZeroWords(data, 16 * slot + k);
  }

  /** An image with no block in use but those before the data. */
  lemma EmptyHealthy(sb: Superblock, f: Fs)
    requires LayoutOk(sb) && |f.store| == sb.size && |f.ino| == sb.ninodes
    requires forall i :: 0 <= i < sb.ninodes ==> Bare(f.ino[i]) && InoOk(f.ino[i])
    requires forall b :: 0 <= b < sb.size ==> (Bit(sb, f.store, b) <==> b < sb.datastart)
    ensures Healthy(sb, f) && AllTight(sb, f) && AllPadded(sb, f)
  {
    assert Shape(sb, f);
    forall i, k | 0 <= i < sb.ninodes && 0 <= k < NSLOTS ensures Slot(sb, f, i, k) == 0 {}
    hide Slot;
    assert forall i, k, b :: !Uses(sb, f, i, k, b);
  }

  lemma MarkedBit(sb: Superblock, store: seq<Block>, n: nat, b: nat)
    requires LayoutOk(sb) && |store| == sb.size && n < BPB && b < sb.size
    requires forall c :: sb.bmapstart < c < sb.datastart ==> IsZero(store[c])
    ensures Bit(sb, Marked(sb, store, n), b) <==> b < n
  {
    BBlockRange(sb, b);
    if b < BPB {
      BitsTest(n, b);
    } else {
      assert b / BPB >= 1;
      ZeroBit(store[BBlock(sb, b)], b % BPB);
    }
  }

  // ----- blocks handed out in order

  lemma FreshImage(sb: Superblock, store: seq<Block>)
    requires LayoutOk(sb) && |store| == sb.size && sb.datastart < BPB && 2 <= sb.inodestart
    requires forall b :: 2 <= b < sb.size ==> IsZero(store[b])
    ensures Building(sb, store, sb.datastart) && Healthy(sb, View(sb, store, sb.datastart, Inos(sb, store)))
    ensures forall i :: 0 <= i < sb.ninodes ==> Bare(DiskIno(sb, store, i)) && DiskIno(sb, store, i).typ == 0
    ensures AllTight(sb, View(sb, store, sb.datastart, Inos(sb, store)))
    ensures AllPadded(sb, View(sb, store, sb.datastart, Inos(sb, store)))
  {
    hide IsZero, GetIno, Healthy, FirstBits;
    forall i | 0 <= i < sb.ninodes
      ensures Bare(DiskIno(sb, store, i)) && DiskIno(sb, store, i).typ == 0 && InoOk(DiskIno(sb, store, i))
    {
      IBlockRange(sb, i);
      ZeroIno(store[IBlock(sb, i)], i % IPB);
    }
    forall b | 0 <= b < sb.size ensures Bit(sb, Marked(sb, store, sb.datastart), b) <==> b < sb.datastart {
      MarkedBit(sb, store, sb.datastart, b);
    }
    hide Bare, InoOk, Bit, DiskIno, AllTight, AllPadded;
    EmptyHealthy(sb, View(sb, store, sb.datastart, Inos(sb, store)));
  }

  /** The state of the builder: blocks from n on are unused, and the bitmap is still to be written. */
  ghost predicate Building(sb: Superblock, store: seq<Block>, n: nat) {
    && LayoutOk(sb) && |store| == sb.size && sb.datastart <= n <= sb.size && n < BPB
    && (forall b :: n <= b < sb.size ==> IsZero(store[b]))
    && (forall b :: sb.bmapstart <= b < sb.datastart ==> IsZero(store[b]))
  }

  /** The image, with these inodes in memory. */
  ghost function View(sb: Superblock, store: seq<Block>, n: nat, ino: seq<Ino>): Fs
    requires Building(sb, store, n)
  {
    Fs(Marked(sb, store, n), ino)
  }

  /** freeblock++ is an allocation. */
  lemma TakeKeeps(sb: Superblock, store: seq<Block>, n: nat, ino: seq<Ino>)
    requires Building(sb, store, n) && n < sb.size && n + 1 < BPB && Owning(sb, View(sb, store, n, ino), {})
    ensures Building(sb, store, n + 1)
    ensures var f, f' := View(sb, store, n, ino), View(sb, store, n + 1, ino);
            && Owning(sb, f', {n}) && IsZero(f'.store[n]) && SameSlots(sb, f, f') && SameBytes(sb, f, f')
            && SameInodes(sb, f, f')
  {
    var f, f' := View(sb, store, n, ino), View(sb, store, n + 1, ino);
    MarkedBit(sb, store, n, n);
    assert BBlock(sb, n) == sb.bmapstart && n % BPB == n;
    hide Owning, FirstBits;
    assert f'.store == WithBit(sb, f.store, n, true)[n := f'.store[n]] by { MarkMore(sb, store, n); }
    AllocateKeeps(sb, f, f', n, {});
    assert {} + {n} == {n};
  }

  lemma MarkMore(sb: Superblock, store: seq<Block>, n: nat)
    requires Building(sb, store, n) && n < sb.size && n + 1 < BPB && BBlock(sb, n) == sb.bmapstart && n % BPB == n
    ensures Marked(sb, store, n + 1) == WithBit(sb, Marked(sb, store, n), n, true)[n := Marked(sb, store, n + 1)[n]]
  {}

  /** Blocks in use are below n. */
  lemma UsedBelow(sb: Superblock, store: seq<Block>, n: nat, ino: seq<Ino>, i: nat, k: nat, b: nat)
    requires Building(sb, store, n) && Owning(sb, View(sb, store, n, ino), {})
    requires Uses(sb, View(sb, store, n, ino), i, k, b)
    ensures sb.datastart <= b < n
  {
    assert Owned(sb, View(sb, store, n, ino), b);
    MarkedBit(sb, store, n, b);
  }

  /** Writing such a block. */
  lemma PutKeeps(sb: Superblock, store: seq<Block>, n: nat, b: nat, data: Block)
    requires Building(sb, store, n) && sb.datastart <= b < n
    ensures Building(sb, store[b := data], n) && Marked(sb, store[b := data], n) == Marked(sb, store, n)[b := data]
  {}

  lemma InosSame(sb: Superblock, store: seq<Block>, store': seq<Block>)
    requires LayoutOk(sb) && |store| == |store'| == sb.size
    requires forall b :: 0 <= b < sb.bmapstart ==> store'[b] == store[b]
    ensures Inos(sb, store') == Inos(sb, store)
  {
    forall i | 0 <= i < sb.ninodes ensures DiskIno(sb, store', i) == DiskIno(sb, store, i) { IBlockRange(sb, i); }
  }

  /** Inode 0 and the inodes from n on are unused. */
  predicate UnusedFrom(ino: seq<Ino>, n: nat) {
    forall i :: 0 <= i < |ino| && (i == 0 || n <= i) ==> ino[i].typ == 0 && Bare(ino[i])
  }

  lemma UnusedStill(ino: seq<Ino>, n: nat, i: nat, x: Ino)
    requires UnusedFrom(ino, n) && 0 < i < |ino|
    ensures UnusedFrom(ino[i := x], if i < n then n else i + 1)
  {}

  class Image {
    const sb: Superblock
    var store: seq<Block>
    var freeinode: nat
    var freeblock: nat

    ghost predicate Ready()
      reads this
    {
      Building(sb, store, freeblock)
    }

    /** The image so far, with its bitmap as it will be. */
    ghost function G(ino: seq<Ino>): Fs
      requires Ready()
      reads this
    {
      View(sb, store, freeblock, ino)
    }

    ghost predicate Valid()
      reads this
    {
      && Ready() && Healthy(sb, G(Inos(sb, store))) && AllTight(sb, G(Inos(sb, store))) && 0 < freeinode
      && AllPadded(sb, G(Inos(sb, store)))
      && UnusedFrom(Inos(sb, store), freeinode)
    }

    /** main up to its first ialloc: every block zero but the superblock. */
    constructor (size: nat, ninodes: nat, nlog: nat, super: Block)
      requires var s := Super(size, ninodes, nlog); s.datastart < BPB && s.datastart <= size < TWO32
      ensures sb == Super(size, ninodes, nlog) && Valid() && freeinode == 1 && freeblock == sb.datastart
    {
      sb := Super(size, ninodes, nlog);
      var blocks: seq<Block> := [];
      for b := 0 to size
        invariant |blocks| == b && forall c :: 0 <= c < b ==> IsZero(blocks[c])
      {
        blocks := blocks + [Blank()];
      }
      store := if 1 < size then blocks[1 := super] else blocks;
      freeinode, freeblock := 1, Super(size, ninodes, nlog).datastart;
      new;
      FreshImage(sb, store);
    }

    /** freeblock++; None when the disk is full, or the bitmap block that balloc writes. */
    method Take(ghost ino: seq<Ino>) returns (r: Option<nat>)
      requires Ready() && Owning(sb, G(ino), {})
      modifies this`freeblock
      ensures Ready() && (r.None? <==> old(freeblock) == Limit(sb)) && freeblock <= Limit(sb)
      ensures r.None? ==> freeblock == old(freeblock)
      ensures r.Some? ==>
        && r.value == old(freeblock) && freeblock == r.value + 1 && 0 < r.value < sb.size
        && Owning(sb, G(ino), {r.value})
        && IsZero(G(ino).store[r.value]) && SameSlots(sb, old(G(ino)), G(ino)) && SameBytes(sb, old(G(ino)), G(ino))
        && SameInodes(sb, old(G(ino)), G(ino))
    {
      if freeblock == sb.size || freeblock + 1 == BPB {
        return None;
      }
      TakeKeeps(sb, store, freeblock, ino);
      r := Some(freeblock);
      freeblock := freeblock + 1;
    }

    /** The block for file block fbn of an inode, taken if it has none. */
    method BlockFor(din: Ino, fbn: nat, ghost inum: nat, ghost ino: seq<Ino>) returns (r: Option<nat>, din': Ino)
      requires Ready() && inum < sb.ninodes == |ino| && ino[inum] == din && Owning(sb, G(ino), {}) && fbn < MAXFILE
      modifies this`store, this`freeblock
      ensures Ready() && (r.None? <==> old(freeblock) + Lacks(sb, old(G(ino)), inum, fbn) > Limit(sb))
      ensures r.Some? ==> freeblock == old(freeblock) + Lacks(sb, old(G(ino)), inum, fbn)
      ensures r.Some? ==> Mapped(sb, old(G(ino)), G(ino[inum := din']), inum, fbn, r.value)
      ensures r.Some? ==> OnlyAt(sb, old(G(ino)), G(ino[inum := din']), inum, fbn)
    {
      hide Building, SlotsOk, BitmapOk, SameBytes, IsZero, Fills, Grows, OnlyAt, Limit;
      BelowLimit(sb, store, freeblock);
      din' := din;
      ghost var f := G(ino);
      if fbn < NDIRECT {
        if din.addrs[fbn] != 0 {
          assert ino[inum := din] == ino;
          SameMapped(sb, f, inum, fbn);
          return Some(din.addrs[fbn]), din;
        }
        r := Take(ino);
        if r.Some? {
          FillDirect(sb, G(ino), inum, fbn, r.value, {r.value});
          din' := din.(addrs := din.addrs[fbn := r.value]);
          assert {r.value} - {r.value} == {};
          MappedBy(sb, f, G(ino), G(ino[inum := din']), inum, fbn, fbn, r.value);
          OnlyBy(sb, f, G(ino), G(ino[inum := din']), inum, fbn, fbn, r.value);
        }
      } else {
        var ind;
        ind, din' := IndirectFor(din, inum, ino);
        if ind.None? {
          return None, din';
        }
        ghost var f1 := G(ino[inum := din']);
        r := EntryFor(din', fbn, inum, ino[inum := din']);
        if r.Some? {
          MappedThen(sb, f, f1, G(ino[inum := din']), inum, fbn, r.value);
          OnlyThen(sb, f, f1, G(ino[inum := din']), inum, fbn);
        }
      }
    }

    /** The indirect block, taken if there is none. */
    method IndirectFor(din: Ino, ghost inum: nat, ghost ino: seq<Ino>) returns (r: Option<nat>, din': Ino)
      requires Ready() && |din.addrs| == NDIRECT + 1 && inum < sb.ninodes == |ino| && ino[inum] == din
      requires Owning(sb, G(ino), {})
      modifies this`freeblock
      ensures Ready() && (r.None? ==> din.addrs[INDIRECT] == 0 && old(freeblock) == Limit(sb)) && freeblock <= Limit(sb)
      ensures r.Some? ==> freeblock == old(freeblock) + if din.addrs[INDIRECT] == 0 then 1 else 0
      ensures r.Some? ==>
        && din' == din.(addrs := din'.addrs) && |din'.addrs| == NDIRECT + 1 && din'.addrs[INDIRECT] == r.value != 0
        && Owning(sb, G(ino[inum := din']), {}) && SameBytes(sb, old(G(ino)), G(ino[inum := din']))
        && Grows(sb, old(G(ino)), G(ino[inum := din']), inum) && SameInodes(sb, old(G(ino)), G(ino[inum := din']))
        && SameBlocks(sb, old(G(ino)), G(ino[inum := din']), inum)
    {
      hide Building, SlotsOk, BitmapOk, SameBytes, IsZero, Limit;
      BelowLimit(sb, store, freeblock);
      din' := din;
      if din.addrs[INDIRECT] != 0 {
        assert ino[inum := din] == ino;
        BytesSelf(sb, G(ino));
        return Some(din.addrs[INDIRECT]), din;
      }
      ghost var f := G(ino);
      r := Take(ino);
      if r.Some? {
        FillIndirect(sb, G(ino), inum, r.value, {r.value});
        din' := din.(addrs := din.addrs[INDIRECT := r.value]);
        assert {r.value} - {r.value} == {};
        BytesTrans(sb, f, G(ino), G(ino[inum := din']));
        SameBy(sb, f, G(ino), G(ino[inum := din']), inum, r.value);
      }
    }

    /** The entry for file block fbn in an indirect block that exists. */
    method EntryFor(din: Ino, fbn: nat, ghost inum: nat, ghost ino: seq<Ino>) returns (r: Option<nat>)
      requires Ready() && inum < sb.ninodes == |ino| && ino[inum] == din && Owning(sb, G(ino), {})
      requires NDIRECT <= fbn < MAXFILE && |din.addrs| == NDIRECT + 1 && din.addrs[INDIRECT] != 0
      modifies this`store, this`freeblock
      ensures Ready() && freeblock <= Limit(sb)
      ensures r.None? ==> AddrAt(sb, old(G(ino)), inum, fbn) == 0 && old(freeblock) == Limit(sb)
      ensures r.Some? ==> freeblock == old(freeblock) + if AddrAt(sb, old(G(ino)), inum, fbn) == 0 then 1 else 0
      ensures r.Some? ==>
        Mapped(sb, old(G(ino)), G(ino), inum, fbn, r.value) && OnlyAt(sb, old(G(ino)), G(ino), inum, fbn)
    {
      hide Building, SlotsOk, BitmapOk, SameBytes, IsZero, WordAt, PutWord, Marked, Grows, OnlyAt, Limit;
      BelowLimit(sb, store, freeblock);
      ghost var f := G(ino);
      var ind, e := din.addrs[INDIRECT], fbn - NDIRECT;
      IndirectAt(sb, store, freeblock, ino, inum);
      var addr := WordAt(store[ind], e);
      if addr != 0 {
        SameMapped(sb, f, inum, fbn);
        return Some(addr);
      }
      r := Take(ino);
      if r.Some? {
        ghost var f1 := G(ino);
        IndirectStill(sb, store, freeblock, f, f1, ino, inum, r.value);
        FillEntry(sb, f1, inum, e, r.value, {r.value});
        PutKeeps(sb, store, freeblock, ind, PutWord(store[ind], e, r.value));
        store := store[ind := PutWord(store[ind], e, r.value)];
        assert {r.value} - {r.value} == {};
        MappedBy(sb, f, f1, G(ino), inum, fbn, SlotOf(fbn), r.value);
        OnlyBy(sb, f, f1, G(ino), inum, fbn, SlotOf(fbn), r.value);
      }
    }

    /** One iteration of iappend's loop. */
    method AppendPiece(din: Ino, o: nat, bytes: seq<byte>, ghost inum: nat, ghost ino: seq<Ino>) returns (ok: bool,
                       din': Ino)
      requires Ready() && inum < sb.ninodes == |ino| && ino[inum] == din && Owning(sb, G(ino), {})
      requires 0 < |bytes| <= BSIZE - o % BSIZE && o + |bytes| <= MAXFILE * BSIZE && o / BSIZE < MAXFILE
      modifies this`store, this`freeblock
      ensures Ready() && (!ok <==> old(freeblock) + Lacks(sb, old(G(ino)), inum, o / BSIZE) > Limit(sb))
      ensures ok ==> freeblock == old(freeblock) + Lacks(sb, old(G(ino)), inum, o / BSIZE)
      ensures ok ==>
        && Wrote(sb, old(G(ino)), G(ino[inum := din']), inum, o, bytes)
        && AddrAt(sb, G(ino[inum := din']), inum, o / BSIZE) != 0
      ensures ok && Tight(sb, old(G(ino)), inum, o) ==> Tight(sb, G(ino[inum := din']), inum, o + |bytes|)
    {
      hide Building, SlotsOk, BitmapOk, SameBytes, IsZero, Marked, Grows, OnlyAt, Tight;
      ghost var f := G(ino);
      var x;
      x, din' := BlockFor(din, o / BSIZE, inum, ino);
      if x.None? {
        return false, din';
      }
      var b := x.value;
      ghost var ino' := ino[inum := din'];
      ghost var f1 := G(ino');
      DataAt(sb, store, freeblock, ino', inum, o / BSIZE);
      var data := Spliced(store[b], o % BSIZE, bytes);
      PutKeeps(sb, store, freeblock, b, data);
      store := store[b := data];
      StoreBytes(sb, f1, inum, o / BSIZE, data);
      ChunkBytes(sb, f, f1, G(ino'), inum, o, bytes, data);
      if Tight(sb, f, inum, o) {
        TightMore(sb, f, f1, inum, o, |bytes|);
        TightSame(sb, f1, G(ino'), inum, o + |bytes|);
      }
      ok := true;
    }

    /** winode */
    method Winode(inum: nat, din: Ino)
      requires Ready() && inum < sb.ninodes && InoOk(din)
      modifies this`store
      ensures Ready() && Inos(sb, store) == Inos(sb, old(store))[inum := din]
      ensures IBlock(sb, inum) < sb.bmapstart && |store| == |old(store)| == sb.size
      ensures store == old(store)[IBlock(sb, inum) := store[IBlock(sb, inum)]]
    {
      hide IsZero, PutInoWords, GetIno;
      IBlockRange(sb, inum);
      var bn := IBlock(sb, inum);
      var store' := store[bn := PutInoWords(store[bn], inum % IPB, din, 16)];
      forall j | 0 <= j < sb.ninodes
        ensures DiskIno(sb, store', j) == if j == inum then din else DiskIno(sb, store, j)
      {
        InodeStored(sb, store, inum, din, j);
      }
      hide DiskIno;
      assert Inos(sb, store') == Inos(sb, store)[inum := din];
      store := store';
    }

    /** iappend: the bytes are added at the end of the file, and no other file changes. False where its assertion
        fails on a file too long, or the disk is full. */
    method Iappend(inum: nat, bytes: seq<byte>) returns (ok: bool)
      requires Valid() && 0 < inum < freeinode && inum < sb.ninodes
      modifies this`store, this`freeblock
      ensures ok ==>
        && Valid()
        && Written(sb, old(G(Inos(sb, store))), G(Inos(sb, store)), inum, old(DiskIno(sb, store, inum).size), bytes)
      ensures var off := old(DiskIno(sb, store, inum).size); var more := BlocksOf(off + |bytes|) - BlocksOf(off);
              && (ok <==> off + |bytes| <= MAXFILE * BSIZE && old(freeblock) + more <= Limit(sb))
              && (ok ==> freeblock == old(freeblock) + more)
    {
      hide IsZero, Healthy, Wrote, Covers, SlotsOk, BitmapOk, GetIno, Written, WrittenTo, Bare, Marked, AddrAt, Tight;
      hide AllTight, AllPadded, BlocksOf, Lacks, Limit, UnusedFrom;
      BelowLimit(sb, store, freeblock);
      ghost var ino := Inos(sb, store);
      ghost var f := G(ino);
      HealthyOwns(sb, f);
      var din := DiskIno(sb, store, inum);
      var off := din.size;
      WroteNothing(sb, f, inum, off);
      TightAt(sb, f, inum);
      assert ino[inum := din] == ino;
      var tot := 0;
      assert bytes[..0] == [];
      ghost var store0, n0 := store, freeblock;
      while tot < |bytes|
        invariant 0 <= tot <= |bytes| && off + tot <= MAXFILE * BSIZE && Ready()
        invariant Owning(sb, G(ino[inum := din]), {}) && Wrote(sb, f, G(ino[inum := din]), inum, off, bytes[..tot])
        invariant Covers(sb, G(ino[inum := din]), inum, off + tot) && Inos(sb, store) == ino && din.size == off
        invariant Tight(sb, G(ino[inum := din]), inum, off + tot)
        invariant freeblock == n0 + BlocksOf(off + tot) - BlocksOf(off) <= Limit(sb)
      {
        var fbn := (off + tot) / BSIZE;
        if fbn >= MAXFILE {
          return false;
        }
        ghost var ino1 := ino[inum := din];
        ghost var f1 := G(ino1);
        var n1 := Min(|bytes| - tot, (fbn + 1) * BSIZE - (off + tot));
        PieceFits(off + tot, |bytes| - tot);
        LacksAtEnd(sb, f1, inum, off + tot, n1);
        BlocksMono(off + tot + n1, off + |bytes|);
        ok, din := AppendPiece(din, off + tot, bytes[tot..tot + n1], inum, ino1);
        if !ok {
          return false;
        }
        assert ino1[inum := din] == ino[inum := din];
        AppendStep(sb, store0, n0, f1, store, freeblock, ino, din, inum, off, bytes, tot, n1);
        tot := tot + n1;
      }
      assert bytes[..tot] == bytes;
      ghost var store1 := store;
      AppendSize(sb, f, G(ino[inum := din]), inum, off, bytes);
      assert ino[inum := din][inum := din.(size := off + tot)] == ino[inum := din.(size := off + tot)];
      Winode(inum, din.(size := off + tot));
      AppendDone(sb, f, store1, store, freeblock, ino, din, inum, off, bytes);
      UnusedStill(ino, freeinode, inum, din.(size := off + tot));
      ok := true;
    }

    /** ialloc; None when every inode is in use. */
    method Ialloc(typ: nat) returns (r: Option<nat>)
      requires Valid() && typ < SHORT
      modifies this`store, this`freeinode
      ensures r.None? <==> old(freeinode) >= sb.ninodes
      ensures r.None? ==> store == old(store) && freeinode == old(freeinode)
      ensures r.Some? ==> Valid() && r.value == old(freeinode) && freeinode == r.value + 1
      ensures r.Some? ==> Created(sb, old(G(Inos(sb, store))), G(Inos(sb, store)), r.value, typ)
    {
      if freeinode >= sb.ninodes {
        return None;
      }
      var inum := freeinode;
      assert Bare(Inos(sb, store)[inum]);
      freeinode := freeinode + 1;
      ghost var ino, store0 := Inos(sb, store), store;
      hide Building, Healthy, AllTight, GetIno, Created;
      BuildingSizes(sb, store, freeblock);
      var din := Ino(typ, 0, 0, 1, 0, seq<nat>(NDIRECT + 1, _ => 0));
      Winode(inum, din);
      CreatedNow(sb, store0, store, freeblock, inum, din);
      UnusedStill(ino, inum, inum, din);
      r := Some(inum);
    }

    /** The end of main: the root directory's size goes up to the next block boundary, and the bitmap is written.
        The image is sound exactly when that size was not on a boundary already: then the root directory gets
        a block that it does not have. */
    method Finish()
      requires Valid() && ROOTINO < sb.ninodes
      modifies this`store
      ensures LayoutOk(sb) && |store| == sb.size && Owning(sb, Fs(store, Inos(sb, store)), {})
      ensures Healthy(sb, Fs(store, Inos(sb, store))) <==> old(DiskIno(sb, store, ROOTINO).size) % BSIZE != 0
      ensures var x := old(DiskIno(sb, store, ROOTINO));
              Inos(sb, store) == old(Inos(sb, store))[ROOTINO := x.(size := (x.size / BSIZE + 1) * BSIZE)]
      ensures SameBytes(sb, old(G(Inos(sb, store))), Fs(store, Inos(sb, store)))
      ensures forall j :: 0 <= j < sb.ninodes && j != ROOTINO ==>
        SameFile(sb, old(G(Inos(sb, store))), Fs(store, Inos(sb, store)), j)
    {
      ghost var store0 := store;
      hide Building, Healthy, AllTight, GetIno, SameFile, FirstBits, SlotsOk, BitmapOk, IsZero, SameBytes;
      BuildingSizes(sb, store, freeblock);
      var din := DiskIno(sb, store, ROOTINO);
      var off := (din.size / BSIZE + 1) * BSIZE;
      RootFits(sb, G(Inos(sb, store)), ROOTINO);
      Winode(ROOTINO, din.(size := off));
      RootGrown(sb, store0, store, freeblock, off);
      Balloc();
    }

    /** balloc: one bit for each block handed out. */
    method Balloc()
      requires Ready()
      modifies this`store
      ensures |old(store)| == sb.size && sb.bmapstart < sb.size && store == Marked(sb, old(store), freeblock)
      ensures Inos(sb, store) == Inos(sb, old(store))
    {
      var buf := Blank();
      var i := 0;
      while i < freeblock
        invariant 0 <= i <= freeblock && buf == FirstBits(Blank(), i)
      {
        buf := buf[i / 8 := PutBit(buf[i / 8], 8, i % 8, true)];
        i := i + 1;
      }
      ghost var store0 := store;
      store := store[sb.bmapstart := buf];
      InosSame(sb, store0, store);
    }

    /** iappend to a file that is known, beside the others. */
    method Append(inum: nat, more: seq<byte>, ghost typ: nat, ghost bytes: seq<byte>) returns (ok: bool)
      requires Valid() && 0 < inum < freeinode && inum < sb.ninodes && Has(sb, G(Inos(sb, store)), inum, typ, bytes)
      modifies this`store, this`freeblock
      ensures ok ==> Valid() && Has(sb, G(Inos(sb, store)), inum, typ, bytes + more)
      ensures ok ==> Kept(sb, old(G(Inos(sb, store))), G(Inos(sb, store)), inum)
      ensures var n := BlocksOf(|bytes| + |more|) - BlocksOf(|bytes|);
              && (ok <==> |bytes| + |more| <= MAXFILE * BSIZE && old(freeblock) + n <= Limit(sb))
              && (ok ==> freeblock == old(freeblock) + n)
    {
      ghost var f := G(Inos(sb, store));
      hide Building, Healthy, AllTight, AllPadded, Bare, GetIno, BlocksOf;
      BuildingSizes(sb, store, freeblock);
      ok := Iappend(inum, more);
      if ok {
        hide Written;
        HasAppended(sb, f, G(Inos(sb, store)), inum, typ, bytes, more);
        KeptBy(sb, f, G(Inos(sb, store)), inum, more);
      }
    }

    /** main: the root directory with its dots, the files one after another, and the end. The image holds them,
        and is sound exactly when the root directory's entries do not fill whole blocks. */
    method Build(files: seq<(seq<byte>, seq<byte>)>) returns (ok: bool)
      requires Valid() && freeinode == 1
      modifies this
      ensures ok ==> LayoutOk(sb) && |store| == sb.size && Owning(sb, Fs(store, Inos(sb, store)), {})
      ensures ok ==> (Healthy(sb, Fs(store, Inos(sb, store))) <==> 16 * (|files| + 2) % BSIZE != 0)
      ensures ok ==> forall j :: 0 <= j < |files| ==>
        Has(sb, Fs(store, Inos(sb, store)), ROOTINO + 1 + j, T_FILE, files[j].1)
      ensures ok ==> RootHas(sb, Fs(store, Inos(sb, store)), files) && UnusedFrom(Inos(sb, store), |files| + 2)
      ensures ok <==> Fits(sb, files, old(freeblock))
      ensures ok ==> freeblock == old(freeblock) + Total(files, |files|)
    {
      hide IsZero, Marked, Healthy, AllTight, AllPadded, Bare, GetIno, Has, Created, Kept, SameFile, Total;
      hide SameBytes, RootHas, Content, Limit, Holds, UnusedFrom;
      TotalGrows(files, 0);
      ok := MakeRoot(files);
      if !ok {
        return false;
      }
      var i := 0;
      while i < |files|
        invariant 0 <= i <= |files| && Valid() && freeinode == i + 2 && ROOTINO < sb.ninodes
        invariant Holds(sb, G(Inos(sb, store)), files, i)
        invariant freeblock == old(freeblock) + Total(files, i) <= Limit(sb) && i + 2 <= sb.ninodes
        invariant 16 * (i + 2) <= MAXFILE * BSIZE && forall j :: 0 <= j < i ==> |files[j].1| <= MAXFILE * BSIZE
      {
        TotalGrows(files, i + 1);
        ok := AddFile(files, i);
        if !ok {
          return false;
        }
        i := i + 1;
      }
      ghost var f := G(Inos(sb, store));
      RootSize(sb, f, files);
      ghost var ino := Inos(sb, store);
      Finish();
      UnusedStill(ino, freeinode, ROOTINO, Inos(sb, store)[ROOTINO]);
      FinishHas(sb, f, Fs(store, Inos(sb, store)), files);
      FinishRoot(sb, f, Fs(store, Inos(sb, store)), files);
      ok := true;
    }

    /** The root directory and its dots. */
    method MakeRoot(ghost files: seq<(seq<byte>, seq<byte>)>) returns (ok: bool)
      requires Valid() && freeinode == 1
      modifies this
      ensures ok ==> Valid() && freeinode == 2 && ROOTINO < sb.ninodes && Holds(sb, G(Inos(sb, store)), files, 0)
      ensures ok <==> sb.ninodes >= 2 && old(freeblock) + Total(files, 0) <= Limit(sb)
      ensures ok ==> freeblock == old(freeblock) + Total(files, 0)
    {
      hide IsZero, Marked, Healthy, AllTight, AllPadded, Bare, GetIno, Has, Created, Kept, SameFile;
      var root := Ialloc(T_DIR);
      if root.None? {
        return false;
      }
      HasCreated(sb, old(G(Inos(sb, store))), G(Inos(sb, store)), ROOTINO, T_DIR);
      ok := Append(ROOTINO, Dirent(ROOTINO, [DOT]), T_DIR, []);
      if !ok {
        return false;
      }
      assert [] + Dirent(ROOTINO, [DOT]) == Dirent(ROOTINO, [DOT]);
      ok := Append(ROOTINO, Dirent(ROOTINO, [DOT, DOT]), T_DIR, Dirent(ROOTINO, [DOT]));
    }

    /** One file of main's loop. */
    method AddFile(files: seq<(seq<byte>, seq<byte>)>, i: nat) returns (ok: bool)
      requires Valid() && freeinode == i + 2 && i < |files| && ROOTINO < sb.ninodes
      requires Holds(sb, G(Inos(sb, store)), files, i)
      modifies this
      ensures ok ==> Valid() && freeinode == i + 3 && Holds(sb, G(Inos(sb, store)), files, i + 1)
      requires freeblock <= Limit(sb)
      ensures var n := Total(files, i + 1) - Total(files, i);
              && (ok <==> i + 2 < sb.ninodes && 16 * (i + 3) <= MAXFILE * BSIZE && |files[i].1| <= MAXFILE * BSIZE &&
                          old(freeblock) + n <= Limit(sb))
              && (ok ==> freeblock == old(freeblock) + n)
    {
      hide IsZero, Marked, Healthy, AllTight, AllPadded, Bare, GetIno, Has, Created, Kept, BlocksOf;
      TotalMore(files, i);
      ghost var f := G(Inos(sb, store));
      var inum := Ialloc(T_FILE);
      if inum.None? {
        return false;
      }
      ghost var f1 := G(Inos(sb, store));
      HasCreated(sb, f, f1, inum.value, T_FILE);
      ok := Append(ROOTINO, Dirent(inum.value, files[i].0), T_DIR, RootBytes(files, i));
      if !ok {
        return false;
      }
      ghost var f2 := G(Inos(sb, store));
      KeptHas(sb, f1, f2, ROOTINO);
      ok := Append(inum.value, files[i].1, T_FILE, []);
      if ok {
        assert [] + files[i].1 == files[i].1;
        KeptHas(sb, f2, G(Inos(sb, store)), inum.value);
      }
    }
  }

  lemma IndirectAt(sb: Superblock, store: seq<Block>, n: nat, ino: seq<Ino>, i: nat)
    requires Building(sb, store, n) && Owning(sb, View(sb, store, n, ino), {}) && i < sb.ninodes
    requires ino[i].addrs[INDIRECT] != 0
    ensures sb.datastart <= ino[i].addrs[INDIRECT] < n && |store| == sb.size && n <= sb.size
    ensures sb.bmapstart < sb.datastart
    ensures Marked(sb, store, n)[ino[i].addrs[INDIRECT]] == store[ino[i].addrs[INDIRECT]]
  {
    var ind := ino[i].addrs[INDIRECT];
    assert Uses(sb, View(sb, store, n, ino), i, INDIRECT, ind);
    UsedBelow(sb, store, n, ino, i, INDIRECT, ind);
  }

  lemma IndirectStill(sb: Superblock, store: seq<Block>, n: nat, f: Fs, f1: Fs, ino: seq<Ino>, i: nat, b: nat)
    requires Building(sb, store, n) && f1 == View(sb, store, n, ino) && Owning(sb, f1, {b}) && Shape(sb, f)
    requires SameSlots(sb, f, f1)
    requires i < sb.ninodes && f.ino == ino && ino[i].addrs[INDIRECT] != 0
    ensures sb.datastart <= ino[i].addrs[INDIRECT] < n
    ensures Marked(sb, store, n)[ino[i].addrs[INDIRECT]] == store[ino[i].addrs[INDIRECT]]
  {
    var ind := ino[i].addrs[INDIRECT];
    assert Uses(sb, f1, i, INDIRECT, ind);
    assert Owned(sb, f1, ind);
    MarkedBit(sb, store, n, ind);
  }

  lemma BytesSelf(sb: Superblock, f: Fs)
    requires Shape(sb, f)
    ensures SameBytes(sb, f, f)
  {}

  lemma BytesTrans(sb: Superblock, f: Fs, f1: Fs, f2: Fs)
    requires Shape(sb, f) && Shape(sb, f1) && Shape(sb, f2) && SameBytes(sb, f, f1) && SameBytes(sb, f1, f2)
    ensures SameBytes(sb, f, f2)
  {
    forall j, o | 0 <= j < sb.ninodes && 0 <= o < MAXFILE * BSIZE ensures ByteAt(sb, f2, j, o) == ByteAt(sb, f, j, o) {
      assert ByteAt(sb, f1, j, o) == ByteAt(sb, f, j, o);
    }
  }

  lemma SameMapped(sb: Superblock, f: Fs, i: nat, bn: nat)
    requires Owning(sb, f, {}) && i < sb.ninodes && bn < MAXFILE && AddrAt(sb, f, i, bn) != 0
    ensures Mapped(sb, f, f, i, bn, AddrAt(sb, f, i, bn)) && OnlyAt(sb, f, f, i, bn)
  {}

  /** Of inode i's file blocks only bn has a new address. */
  ghost predicate OnlyAt(sb: Superblock, f: Fs, f': Fs, i: nat, bn: nat)
    requires Shape(sb, f) && Shape(sb, f') && i < sb.ninodes
  {
    && (forall c :: 0 <= c < MAXFILE && c != bn ==> AddrAt(sb, f', i, c) == AddrAt(sb, f, i, c))
    && (bn < NDIRECT ==> f'.ino[i].addrs[INDIRECT] == f.ino[i].addrs[INDIRECT])
  }

  ghost predicate SameBlocks(sb: Superblock, f: Fs, f': Fs, i: nat)
    requires Shape(sb, f) && Shape(sb, f') && i < sb.ninodes
  {
    forall c :: 0 <= c < MAXFILE ==> AddrAt(sb, f', i, c) == AddrAt(sb, f, i, c)
  }

  lemma OnlyBy(sb: Superblock, f: Fs, f1: Fs, f': Fs, i: nat, bn: nat, k: nat, a: nat)
    requires Shape(sb, f) && Shape(sb, f1) && Shape(sb, f') && i < sb.ninodes && bn < MAXFILE && k == SlotOf(bn)
    requires SameSlots(sb, f, f1) && Fills(sb, f1, f', i, k, a)
    ensures OnlyAt(sb, f, f', i, bn)
  {
    forall c | 0 <= c < MAXFILE && c != bn ensures AddrAt(sb, f', i, c) == AddrAt(sb, f, i, c) {
      assert Slot(sb, f', i, SlotOf(c)) == Slot(sb, f1, i, SlotOf(c)) == Slot(sb, f, i, SlotOf(c));
    }
    assert bn < NDIRECT ==> Slot(sb, f', i, INDIRECT) == Slot(sb, f1, i, INDIRECT) == Slot(sb, f, i, INDIRECT);
  }

  lemma SameBy(sb: Superblock, f: Fs, f1: Fs, f': Fs, i: nat, a: nat)
    requires Shape(sb, f) && Shape(sb, f1) && Shape(sb, f') && i < sb.ninodes
    requires SameSlots(sb, f, f1) && Fills(sb, f1, f', i, INDIRECT, a)
    ensures SameBlocks(sb, f, f', i)
  {
    forall c | 0 <= c < MAXFILE ensures AddrAt(sb, f', i, c) == AddrAt(sb, f, i, c) {
      assert Slot(sb, f', i, SlotOf(c)) == Slot(sb, f1, i, SlotOf(c)) == Slot(sb, f, i, SlotOf(c));
    }
  }

  lemma OnlyThen(sb: Superblock, f: Fs, f1: Fs, f': Fs, i: nat, bn: nat)
    requires Shape(sb, f) && Shape(sb, f1) && Shape(sb, f') && i < sb.ninodes && SameBlocks(sb, f, f1, i)
    requires OnlyAt(sb, f1, f', i, bn) && bn >= NDIRECT
    ensures OnlyAt(sb, f, f', i, bn)
  {
    forall c | 0 <= c < MAXFILE && c != bn ensures AddrAt(sb, f', i, c) == AddrAt(sb, f, i, c) {
      assert AddrAt(sb, f1, i, c) == AddrAt(sb, f, i, c);
    }
  }

  /** Inode i has no block that a file of n bytes does not need. */
  ghost predicate Tight(sb: Superblock, f: Fs, i: nat, n: nat)
    requires Shape(sb, f) && i < sb.ninodes
  {
    && (forall c :: 0 <= c < MAXFILE && AddrAt(sb, f, i, c) != 0 ==> c * BSIZE < n)
    && (f.ino[i].addrs[INDIRECT] != 0 ==> NDIRECT * BSIZE < n)
  }

  /** Blocks that inode i lacks for file block bn: the block itself and perhaps the indirect block. */
  ghost function Lacks(sb: Superblock, f: Fs, i: nat, bn: nat): nat
    requires Shape(sb, f) && i < sb.ninodes && bn < MAXFILE
  {
    if AddrAt(sb, f, i, bn) != 0 then 0
    else if bn >= NDIRECT && f.ino[i].addrs[INDIRECT] == 0 then 2
    else 1
  }

  /** Blocks of a file of n bytes, the indirect block included. */
  function BlocksOf(n: nat): nat {
    (n + BSIZE - 1) / BSIZE + if n > NDIRECT * BSIZE then 1 else 0
  }

  /** The end of the disk, or of the part that one bitmap block describes. */
  function Limit(sb: Superblock): nat { Min(sb.size, BPB - 1) }

  lemma BelowLimit(sb: Superblock, store: seq<Block>, n: nat)
    requires Building(sb, store, n)
    ensures n <= Limit(sb)
  {}

  lemma LacksAtEnd(sb: Superblock, f: Fs, i: nat, o: nat, m: nat)
    requires Shape(sb, f) && i < sb.ninodes && Tight(sb, f, i, o) && Covers(sb, f, i, o) && o / BSIZE < MAXFILE
    requires 0 < m <= BSIZE - o % BSIZE
    ensures Lacks(sb, f, i, o / BSIZE) == BlocksOf(o + m) - BlocksOf(o)
  {
    hide AddrAt;
    var bn := o / BSIZE;
    if o % BSIZE == 0 {
      assert AddrAt(sb, f, i, bn) == 0;
      if bn > NDIRECT { assert AddrAt(sb, f, i, NDIRECT) != 0; IndirectThere(sb, f, i); }
    } else {
      assert bn * BSIZE < o;
      assert AddrAt(sb, f, i, bn) != 0;
    }
  }

  lemma IndirectThere(sb: Superblock, f: Fs, i: nat)
    requires Shape(sb, f) && i < sb.ninodes && AddrAt(sb, f, i, NDIRECT) != 0
    ensures f.ino[i].addrs[INDIRECT] != 0
  {}

  lemma BlocksMono(a: nat, b: nat)
    requires a <= b
    ensures BlocksOf(a) <= BlocksOf(b)
  {}

  /** Beyond the end of each file its blocks are zero. */
  ghost predicate AllPadded(sb: Superblock, f: Fs)
    requires Shape(sb, f)
  {
    forall i, o :: 0 <= i < sb.ninodes && f.ino[i].size <= o < MAXFILE * BSIZE ==> ByteAt(sb, f, i, o) == 0
  }

  lemma PaddedGrown(sb: Superblock, f: Fs, f1: Fs, i: nat, off: nat, bytes: seq<byte>)
    requires Owning(sb, f, {}) && i < sb.ninodes && off == f.ino[i].size && off + |bytes| <= MAXFILE * BSIZE
    requires Wrote(sb, f, f1, i, off, bytes) && AllPadded(sb, f) && InoOk(f1.ino[i].(size := off + |bytes|))
    ensures var f2 := f1.(ino := f1.ino[i := f1.ino[i].(size := off + |bytes|)]); Shape(sb, f2) && AllPadded(sb, f2)
  {
    hide SlotsOk, BitmapOk, Grows;
    var f2 := f1.(ino := f1.ino[i := f1.ino[i].(size := off + |bytes|)]);
    forall j, o | 0 <= j < sb.ninodes && f2.ino[j].size <= o < MAXFILE * BSIZE ensures ByteAt(sb, f2, j, o) == 0 {
      assert Slot(sb, f2, j, SlotOf(o / BSIZE)) == Slot(sb, f1, j, SlotOf(o / BSIZE));
      assert ByteAt(sb, f2, j, o) == ByteAt(sb, f1, j, o) == ByteAt(sb, f, j, o);
    }
  }

  lemma PaddedSame(sb: Superblock, f: Fs, f': Fs)
    requires Shape(sb, f) && Shape(sb, f') && SameBytes(sb, f, f') && AllPadded(sb, f)
    requires forall j :: 0 <= j < sb.ninodes ==> f'.ino[j].size == f.ino[j].size
    ensures AllPadded(sb, f')
  {
    hide ByteAt;
  }

  ghost predicate AllTight(sb: Superblock, f: Fs)
    requires Shape(sb, f)
  {
    forall i :: 0 <= i < sb.ninodes ==> Tight(sb, f, i, f.ino[i].size)
  }

  lemma TightMore(sb: Superblock, f: Fs, f': Fs, i: nat, o: nat, m: nat)
    requires Shape(sb, f) && Shape(sb, f') && i < sb.ninodes && Tight(sb, f, i, o) && OnlyAt(sb, f, f', i, o / BSIZE)
    requires m > 0
    ensures Tight(sb, f', i, o + m)
  {
    forall c | 0 <= c < MAXFILE && AddrAt(sb, f', i, c) != 0 ensures c * BSIZE < o + m {
      if c != o / BSIZE { assert AddrAt(sb, f, i, c) != 0; }
    }
  }

  lemma TightSame(sb: Superblock, f: Fs, f': Fs, i: nat, n: nat)
    requires Shape(sb, f) && Shape(sb, f') && i < sb.ninodes && SameSlots(sb, f, f') && Tight(sb, f, i, n)
    ensures Tight(sb, f', i, n)
  {
    forall c | 0 <= c < MAXFILE && AddrAt(sb, f', i, c) != 0 ensures c * BSIZE < n {
      assert Slot(sb, f', i, SlotOf(c)) == Slot(sb, f, i, SlotOf(c));
      assert AddrAt(sb, f, i, c) != 0;
    }
    assert Slot(sb, f', i, INDIRECT) == Slot(sb, f, i, INDIRECT);
  }

  lemma TightAt(sb: Superblock, f: Fs, i: nat)
    requires Shape(sb, f) && i < sb.ninodes && AllTight(sb, f)
    ensures Tight(sb, f, i, f.ino[i].size)
  {}

  lemma TightAll(sb: Superblock, f: Fs, f1: Fs, f2: Fs, i: nat)
    requires Shape(sb, f) && Shape(sb, f1) && Shape(sb, f2) && i < sb.ninodes && AllTight(sb, f) && Grows(sb, f, f1, i)
    requires SameSlots(sb, f1, f2)
    requires Tight(sb, f1, i, f2.ino[i].size)
    requires forall j :: 0 <= j < sb.ninodes && j != i ==> f2.ino[j].size == f.ino[j].size
    ensures AllTight(sb, f2)
  {
    forall j | 0 <= j < sb.ninodes ensures Tight(sb, f2, j, f2.ino[j].size) {
      assert Slot(sb, f2, j, INDIRECT) == Slot(sb, f1, j, INDIRECT);
      if j != i { assert Tight(sb, f, j, f.ino[j].size) && Slot(sb, f1, j, INDIRECT) == Slot(sb, f, j, INDIRECT); }
      forall c | 0 <= c < MAXFILE && AddrAt(sb, f2, j, c) != 0 ensures c * BSIZE < f2.ino[j].size {
        assert Slot(sb, f2, j, SlotOf(c)) == Slot(sb, f1, j, SlotOf(c));
        if j == i {
          assert AddrAt(sb, f1, i, c) != 0;
        } else {
          assert Slot(sb, f1, j, SlotOf(c)) == Slot(sb, f, j, SlotOf(c));
          assert Tight(sb, f, j, f.ino[j].size) && AddrAt(sb, f, j, c) != 0;
        }
      }
    }
  }

  lemma DataAt(sb: Superblock, store: seq<Block>, n: nat, ino: seq<Ino>, i: nat, bn: nat)
    requires Building(sb, store, n) && Owning(sb, View(sb, store, n, ino), {}) && i < sb.ninodes && bn < MAXFILE
    requires AddrAt(sb, View(sb, store, n, ino), i, bn) != 0
    ensures var b := AddrAt(sb, View(sb, store, n, ino), i, bn);
            sb.datastart <= b < n && |store| == sb.size && n <= sb.size && Marked(sb, store, n)[b] == store[b]
  {
    var b := AddrAt(sb, View(sb, store, n, ino), i, bn);
    assert Uses(sb, View(sb, store, n, ino), i, SlotOf(bn), b);
    UsedBelow(sb, store, n, ino, i, SlotOf(bn), b);
  }

  lemma PieceFits(o: nat, n: nat)
    requires n > 0 && o / BSIZE < MAXFILE
    ensures var m := Min(n, (o / BSIZE + 1) * BSIZE - o);
            0 < m <= BSIZE - o % BSIZE && m == Min(n, BSIZE - o % BSIZE) && o + m <= MAXFILE * BSIZE
  {}

  lemma AppendStep(sb: Superblock, store0: seq<Block>, n0: nat, f1: Fs, store: seq<Block>, n: nat, ino: seq<Ino>,
                   din: Ino,
                   i: nat, off: nat, bytes: seq<byte>, tot: nat, m: nat)
    requires Building(sb, store0, n0) && Building(sb, store, n) && ino == Inos(sb, store0) && i < sb.ninodes
    requires ino[i].size == off
    requires tot < tot + m <= |bytes| && off + tot + m <= MAXFILE * BSIZE && (off + tot) / BSIZE < MAXFILE
    requires m <= BSIZE - (off + tot) % BSIZE
    requires var f, f2 := View(sb, store0, n0, ino), View(sb, store, n, ino[i := din]);
             && Owning(sb, f, {}) && Owning(sb, f1, {}) && Wrote(sb, f, f1, i, off, bytes[..tot])
             && Covers(sb, f1, i, off + tot)
             && Wrote(sb, f1, f2, i, off + tot, bytes[tot..tot + m]) && AddrAt(sb, f2, i, (off + tot) / BSIZE) != 0
    ensures var f, f2 := View(sb, store0, n0, ino), View(sb, store, n, ino[i := din]);
            && Owning(sb, f2, {}) && Wrote(sb, f, f2, i, off, bytes[..tot + m]) && Covers(sb, f2, i, off + tot + m)
            && Inos(sb, store) == ino && din.size == off
  {
    hide SlotsOk, BitmapOk, Covers, IsZero, ByteAt, FirstBits, Slot, Grows;
    var f, f2, src := View(sb, store0, n0, ino), View(sb, store, n, ino[i := din]), bytes[..tot + m];
    assert src[..tot] == bytes[..tot] && src[tot..tot + m] == bytes[tot..tot + m];
    WroteMore(sb, f, f1, f2, i, off, src, tot, m);
    assert src[..tot + m] == src;
    forall b | 0 <= b < sb.bmapstart ensures store[b] == store0[b] {
      assert f2.store[b] == f.store[b];
    }
    InosSame(sb, store0, store);
  }

  lemma AppendSize(sb: Superblock, f: Fs, f1: Fs, i: nat, off: nat, bytes: seq<byte>)
    requires Healthy(sb, f) && Owning(sb, f, {}) && i < sb.ninodes && off == f.ino[i].size
    requires off + |bytes| <= MAXFILE * BSIZE
    requires Wrote(sb, f, f1, i, off, bytes) && Covers(sb, f1, i, off + |bytes|)
    requires AllTight(sb, f) && AllPadded(sb, f) && Shape(sb, f1) && Tight(sb, f1, i, off + |bytes|)
    ensures Shape(sb, f1) && InoOk(f1.ino[i].(size := off + |bytes|))
    ensures var f2 := f1.(ino := f1.ino[i := f1.ino[i].(size := off + |bytes|)]);
            && Owning(sb, f2, {}) && WrittenTo(sb, f, f2, i, off, bytes, |bytes|) && AllTight(sb, f2)
            && AllPadded(sb, f2)
  {
    hide Healthy, SlotsOk, BitmapOk, Covers, WrittenTo, AllTight, Tight, AllPadded;
    var f2 := f1.(ino := f1.ino[i := f1.ino[i].(size := off + |bytes|)]);
    WrittenSize(sb, f, f1, f2, i, off, bytes, |bytes|);
    TightAll(sb, f, f1, f2, i);
    PaddedGrown(sb, f, f1, i, off, bytes);
  }

  lemma AppendDone(sb: Superblock, f: Fs, store: seq<Block>, store': seq<Block>, n: nat, ino: seq<Ino>, din: Ino,
                   i: nat, off: nat, bytes: seq<byte>)
    requires Building(sb, store, n) && Building(sb, store', n) && i < sb.ninodes && Inos(sb, store) == ino
    requires Healthy(sb, f) && off <= f.ino[i].size
    requires var f2 := View(sb, store, n, ino[i := din.(size := off + |bytes|)]);
             && Owning(sb, f2, {}) && WrittenTo(sb, f, f2, i, off, bytes, |bytes|) && AllTight(sb, f2)
             && AllPadded(sb, f2)
    requires IBlock(sb, i) < sb.bmapstart && store' == store[IBlock(sb, i) := store'[IBlock(sb, i)]]
    requires Inos(sb, store') == ino[i := din.(size := off + |bytes|)]
    ensures Written(sb, f, View(sb, store', n, Inos(sb, store')), i, off, bytes)
    ensures Healthy(sb, View(sb, store', n, Inos(sb, store')))
    ensures AllTight(sb, View(sb, store', n, Inos(sb, store'))) && AllPadded(sb, View(sb, store', n, Inos(sb, store')))
  {
    hide AllPadded, AllTight, Tight, Healthy, SlotsOk, BitmapOk, WrittenTo, Written, IsZero, FirstBits, DiskIno;
    var bn := IBlock(sb, i);
    var f2, f3 := View(sb, store, n, ino[i := din.(size := off + |bytes|)]), View(sb, store', n, Inos(sb, store'));
    assert f3 == f2.(store := f2.store[bn := store'[bn]]);
    InodeAreaWrite(sb, f2, bn, store'[bn]);
    WrittenStored(sb, f, f2, f3, i, off, bytes, |bytes|);
    WrittenWhole(sb, f, f3, i, off, bytes);
    WrittenHealthy(sb, f, f3, i, off, bytes);
    TightStored(sb, f2, f3);
    PaddedSame(sb, f2, f3);
  }

  lemma TightStored(sb: Superblock, f: Fs, f': Fs)
    requires Shape(sb, f) && Shape(sb, f') && SameSlots(sb, f, f') && AllTight(sb, f) && f'.ino == f.ino
    ensures AllTight(sb, f')
  {
    forall j | 0 <= j < sb.ninodes ensures Tight(sb, f', j, f'.ino[j].size) { TightSame(sb, f, f', j, f.ino[j].size); }
  }

  lemma WrittenHealthy(sb: Superblock, f: Fs, f': Fs, i: nat, off: nat, bytes: seq<byte>)
    requires Healthy(sb, f) && i < sb.ninodes && off <= f.ino[i].size && Written(sb, f, f', i, off, bytes)
    ensures Healthy(sb, f')
  {}

  lemma BuildingSizes(sb: Superblock, store: seq<Block>, n: nat)
    requires Building(sb, store, n)
    ensures LayoutOk(sb) && |store| == sb.size && sb.bmapstart < sb.size
  {}

  /** File j is the same in both. */
  ghost predicate SameFile(sb: Superblock, f: Fs, f': Fs, j: nat) {
    && Shape(sb, f) && Shape(sb, f') && j < sb.ninodes && f.ino[j].size == f'.ino[j].size <= MAXFILE * BSIZE
    && Content(sb, f', j) == Content(sb, f, j) && f'.ino[j].typ == f.ino[j].typ && f'.ino[j].nlink == f.ino[j].nlink
  }

  /** Inode i is a new one of the given type, with one link and nothing in it. */
  ghost predicate Created(sb: Superblock, f: Fs, f': Fs, i: nat, typ: nat) {
    && Shape(sb, f) && Shape(sb, f') && i < sb.ninodes
    && f'.ino[i] == Ino(typ, 0, 0, 1, 0, f'.ino[i].addrs)
    && forall j :: 0 <= j < sb.ninodes && j != i ==> f'.ino[j] == f.ino[j] && SameFile(sb, f, f', j)
  }

  lemma CreatedNow(sb: Superblock, store: seq<Block>, store': seq<Block>, n: nat, i: nat, din: Ino)
    requires Building(sb, store, n) && Building(sb, store', n) && i < sb.ninodes && Bare(DiskIno(sb, store, i))
    requires Bare(din) && InoOk(din)
    requires din == Ino(din.typ, 0, 0, 1, 0, din.addrs)
    requires IBlock(sb, i) < sb.bmapstart && store' == store[IBlock(sb, i) := store'[IBlock(sb, i)]]
    requires Inos(sb, store') == Inos(sb, store)[i := din]
    requires Healthy(sb, View(sb, store, n, Inos(sb, store))) && AllTight(sb, View(sb, store, n, Inos(sb, store)))
    requires AllPadded(sb, View(sb, store, n, Inos(sb, store)))
    ensures var f' := View(sb, store', n, Inos(sb, store'));
            && Healthy(sb, f') && AllTight(sb, f') && Created(sb, View(sb, store, n, Inos(sb, store)), f', i, din.typ)
            && AllPadded(sb, f')
  {
    var f, f' := View(sb, store, n, Inos(sb, store)), View(sb, store', n, Inos(sb, store'));
    InodeChanged(sb, store, store', n, i, din);
    hide Healthy, SlotsOk, BitmapOk, GetIno, IsZero, Tight, FirstBits, AllPadded;
    assert f'.ino[i].size == f.ino[i].size == 0;
    PaddedSame(sb, f, f');
    HealthyFrame(sb, f, f');
    HealthySizes(sb, f);
    forall j | 0 <= j < sb.ninodes ensures Tight(sb, f', j, f'.ino[j].size) { TightSame(sb, f, f', j, f.ino[j].size); }
  }

  lemma HealthySizes(sb: Superblock, f: Fs)
    requires Healthy(sb, f)
    ensures Owning(sb, f, {}) && forall j :: 0 <= j < sb.ninodes ==> f.ino[j].size <= MAXFILE * BSIZE
  {}

  /** winode of an inode with the same addresses. */
  lemma InodeWritten(sb: Superblock, f: Fs, f': Fs, i: nat, din: Ino, bn: nat, data: Block)
    requires Owning(sb, f, {}) && i < sb.ninodes && InoOk(din) && din.addrs == f.ino[i].addrs && bn < sb.bmapstart
    requires f' == Fs(f.store[bn := data], f.ino[i := din])
    ensures Owning(sb, f', {}) && SameSlots(sb, f, f') && SameBytes(sb, f, f')
  {
    var f1 := f.(ino := f'.ino);
    hide SlotsOk, BitmapOk, Slot, ByteAt, InoOk;
    assert Shape(sb, f1);
    FieldsOnly(sb, f, f1);
    hide SameSlots, SameBytes;
    assert f' == f1.(store := f1.store[bn := data]);
    InodeAreaWrite(sb, f1, bn, data);
    BytesTrans(sb, f, f1, f');
    SlotsTrans(sb, f, f1, f');
  }

  lemma InodeChanged(sb: Superblock, store: seq<Block>, store': seq<Block>, n: nat, i: nat, din: Ino)
    requires Building(sb, store, n) && Building(sb, store', n) && i < sb.ninodes && InoOk(din)
    requires din.addrs == DiskIno(sb, store, i).addrs
    requires IBlock(sb, i) < sb.bmapstart && store' == store[IBlock(sb, i) := store'[IBlock(sb, i)]]
    requires Inos(sb, store') == Inos(sb, store)[i := din]
    requires Owning(sb, View(sb, store, n, Inos(sb, store)), {})
    ensures var f, f' := View(sb, store, n, Inos(sb, store)), View(sb, store', n, Inos(sb, store'));
            Owning(sb, f', {}) && SameSlots(sb, f, f') && SameBytes(sb, f, f')
  {
    var f, f' := View(sb, store, n, Inos(sb, store)), View(sb, store', n, Inos(sb, store'));
    var bn := IBlock(sb, i);
    MarkedInode(sb, store, store', n, bn);
    hide Marked, Owning, SameSlots, SameBytes, IsZero, GetIno, InoOk;
    InodeWritten(sb, f, f', i, din, bn, store'[bn]);
  }

  lemma MarkedInode(sb: Superblock, store: seq<Block>, store': seq<Block>, n: nat, bn: nat)
    requires Building(sb, store, n) && bn < sb.bmapstart && |store'| == sb.size && store' == store[bn := store'[bn]]
    ensures |Marked(sb, store, n)| == sb.size && Marked(sb, store', n) == Marked(sb, store, n)[bn := store'[bn]]
  {
    hide FirstBits, IsZero;
  }

  lemma SlotsTrans(sb: Superblock, f: Fs, f1: Fs, f2: Fs)
    requires Shape(sb, f) && Shape(sb, f1) && Shape(sb, f2) && SameSlots(sb, f, f1) && SameSlots(sb, f1, f2)
    ensures SameSlots(sb, f, f2)
  {
    hide Slot;
    forall j, k | 0 <= j < sb.ninodes && 0 <= k < NSLOTS ensures Slot(sb, f2, j, k) == Slot(sb, f, j, k) {
      assert Slot(sb, f1, j, k) == Slot(sb, f, j, k);
    }
  }

  lemma RootFits(sb: Superblock, f: Fs, i: nat)
    requires Healthy(sb, f) && i < sb.ninodes
    ensures InoOk(f.ino[i].(size := (f.ino[i].size / BSIZE + 1) * BSIZE)) && f.ino[i].size <= MAXFILE * BSIZE
  {}

  /** Rounding the root directory's size up to the next boundary. */
  lemma RootGrown(sb: Superblock, store: seq<Block>, store': seq<Block>, n: nat, off: nat)
    requires Building(sb, store, n) && Building(sb, store', n) && ROOTINO < sb.ninodes
    requires var x := DiskIno(sb, store, ROOTINO);
             off == (x.size / BSIZE + 1) * BSIZE && Inos(sb, store') == Inos(sb, store)[ROOTINO := x.(size := off)]
    requires IBlock(sb, ROOTINO) < sb.bmapstart && store' == store[IBlock(sb, ROOTINO) := store'[IBlock(sb, ROOTINO)]]
    requires Healthy(sb, View(sb, store, n, Inos(sb, store))) && AllTight(sb, View(sb, store, n, Inos(sb, store)))
    ensures var f, f' := View(sb, store, n, Inos(sb, store)), View(sb, store', n, Inos(sb, store'));
            && Owning(sb, f', {}) && SameBytes(sb, f, f') && (Healthy(sb, f') <==> f.ino[ROOTINO].size % BSIZE != 0)
            && forall j :: 0 <= j < sb.ninodes && j != ROOTINO ==> SameFile(sb, f, f', j)
  {
    var f, f' := View(sb, store, n, Inos(sb, store)), View(sb, store', n, Inos(sb, store'));
    HealthySizes(sb, f);
    RootFits(sb, f, ROOTINO);
    InodeChanged(sb, store, store', n, ROOTINO, f'.ino[ROOTINO]);
    hide SlotsOk, BitmapOk, GetIno, IsZero, FirstBits;
    forall j | 0 <= j < sb.ninodes && j != ROOTINO
      ensures SameFile(sb, f, f', j) && NoHoles(sb, f', j)
    {
      OtherFile(sb, f, f', j);
    }
    RootHoles(sb, f, f', ROOTINO);
  }

  lemma OtherFile(sb: Superblock, f: Fs, f': Fs, j: nat)
    requires Healthy(sb, f) && Shape(sb, f') && SameSlots(sb, f, f') && SameBytes(sb, f, f') && j < sb.ninodes
    requires f'.ino[j] == f.ino[j]
    ensures SameFile(sb, f, f', j) && NoHoles(sb, f', j)
  {
    hide SlotsOk, BitmapOk;
    assert NoHoles(sb, f, j);
    forall bn | 0 <= bn < MAXFILE && bn * BSIZE < f'.ino[j].size ensures AddrAt(sb, f', j, bn) != 0 {
      assert AddrAt(sb, f, j, bn) != 0;
      assert Slot(sb, f', j, SlotOf(bn)) == Slot(sb, f, j, SlotOf(bn));
    }
  }

  /** The last block of the rounded size is there exactly when the size was not a multiple. */
  lemma RootHoles(sb: Superblock, f: Fs, f': Fs, i: nat)
    requires Healthy(sb, f) && AllTight(sb, f) && Shape(sb, f') && SameSlots(sb, f, f') && i < sb.ninodes
    requires f'.ino[i].size == (f.ino[i].size / BSIZE + 1) * BSIZE
    ensures NoHoles(sb, f', i) <==> f.ino[i].size % BSIZE != 0
  {
    hide SlotsOk, BitmapOk;
    var size := f.ino[i].size;
    var last := size / BSIZE;
    assert NoHoles(sb, f, i) && Tight(sb, f, i, size);
    forall bn | 0 <= bn < MAXFILE ensures AddrAt(sb, f', i, bn) == AddrAt(sb, f, i, bn) {
      assert Slot(sb, f', i, SlotOf(bn)) == Slot(sb, f, i, SlotOf(bn));
    }
    if size % BSIZE != 0 {
      forall bn | 0 <= bn < MAXFILE && bn * BSIZE < f'.ino[i].size ensures AddrAt(sb, f', i, bn) != 0 {
        assert bn * BSIZE < size;
      }
    } else if last < MAXFILE {
      assert AddrAt(sb, f', i, last) == 0 && last * BSIZE < f'.ino[i].size;
    }
  }

  // ----- main

  const DOT: byte := 46

  /** The root directory with the first k files. */
  function RootBytes(files: seq<(seq<byte>, seq<byte>)>, k: nat): (d: seq<byte>)
    requires k <= |files|
    ensures |d| == 16 * (k + 2)
    decreases k
  {
    if k == 0 then Dirent(ROOTINO, [DOT]) + Dirent(ROOTINO, [DOT, DOT])
    else RootBytes(files, k - 1) + Dirent(ROOTINO + k, files[k - 1].0)
  }

  /** Blocks of the root directory and of the first k files. */
  function Total(files: seq<(seq<byte>, seq<byte>)>, k: nat): nat
    requires k <= |files|
  {
    BlocksOf(16 * (k + 2)) + FileBlocks(files, k)
  }

  function FileBlocks(files: seq<(seq<byte>, seq<byte>)>, k: nat): nat
    requires k <= |files|
  {
    if k == 0 then 0 else FileBlocks(files, k - 1) + BlocksOf(|files[k - 1].1|)
  }

  lemma {:induction false} TotalGrows(files: seq<(seq<byte>, seq<byte>)>, k: nat)
    requires k <= |files|
    ensures Total(files, k) <= Total(files, |files|)
    decreases |files| - k
  {
    if k < |files| { TotalGrows(files, k + 1); TotalMore(files, k); }
  }

  lemma TotalMore(files: seq<(seq<byte>, seq<byte>)>, k: nat)
    requires k < |files|
    ensures Total(files, k + 1) == Total(files, k) + BlocksOf(16 * (k + 3)) - BlocksOf(16 * (k + 2)) +
            BlocksOf(|files[k].1|)
    ensures BlocksOf(16 * (k + 2)) <= BlocksOf(16 * (k + 3)) && BlocksOf(0) == 0
  {
    BlocksMono(16 * (k + 2), 16 * (k + 3));
  }

  /** Room for the files: inodes, sizes, and blocks. */
  ghost predicate Fits(sb: Superblock, files: seq<(seq<byte>, seq<byte>)>, n: nat) {
    && |files| + 2 <= sb.ninodes && 16 * (|files| + 2) <= MAXFILE * BSIZE
    && (forall j :: 0 <= j < |files| ==> |files[j].1| <= MAXFILE * BSIZE)
    && n + Total(files, |files|) <= Limit(sb)
  }

  /** The root directory has the dots and the names of the files, in this order, and zeros up to its last block. */
  ghost predicate RootHas(sb: Superblock, f: Fs, files: seq<(seq<byte>, seq<byte>)>) {
    var root := RootBytes(files, |files|);
    && Shape(sb, f) && ROOTINO < sb.ninodes && f.ino[ROOTINO].size == (|root| / BSIZE + 1) * BSIZE
    && f.ino[ROOTINO].typ == T_DIR && f.ino[ROOTINO].nlink == 1
    && forall o :: 0 <= o < MAXFILE * BSIZE ==>
         ByteAt(sb, f, ROOTINO, o) == if o < |root| then root[o] else 0
  }

  /** Inode i has this type, one link and these bytes. */
  ghost predicate Has(sb: Superblock, f: Fs, i: nat, typ: nat, bytes: seq<byte>) {
    && Shape(sb, f) && i < sb.ninodes && f.ino[i].size == |bytes| <= MAXFILE * BSIZE && Content(sb, f, i) == bytes
    && f.ino[i].typ == typ && f.ino[i].nlink == 1
  }

  /** The root directory and the first k files are in the image. */
  ghost predicate Holds(sb: Superblock, f: Fs, files: seq<(seq<byte>, seq<byte>)>, k: nat)
    requires k <= |files|
  {
    && Has(sb, f, ROOTINO, T_DIR, RootBytes(files, k))
    && forall j :: 0 <= j < k ==> Has(sb, f, ROOTINO + 1 + j, T_FILE, files[j].1)
  }

  lemma HasAppended(sb: Superblock, f: Fs, f': Fs, i: nat, typ: nat, bytes: seq<byte>, more: seq<byte>)
    requires Healthy(sb, f) && i < sb.ninodes && Has(sb, f, i, typ, bytes) && Written(sb, f, f', i, f.ino[i].size, more)
    ensures Has(sb, f', i, typ, bytes + more)
  {
    hide SlotsOk, BitmapOk;
    assert Content(sb, f', i) == bytes + more;
    assert |Content(sb, f', i)| == f'.ino[i].size;
  }

  lemma HasOther(sb: Superblock, f: Fs, f': Fs, i: nat, off: nat, more: seq<byte>, j: nat, typ: nat, bytes: seq<byte>)
    requires Healthy(sb, f) && i < sb.ninodes && off <= f.ino[i].size && Written(sb, f, f', i, off, more) && j != i
    requires Has(sb, f, j, typ, bytes)
    ensures Has(sb, f', j, typ, bytes)
  {}

  lemma HasCreated(sb: Superblock, f: Fs, f': Fs, i: nat, typ: nat)
    requires Created(sb, f, f', i, typ)
    ensures Has(sb, f', i, typ, [])
    ensures forall j, t, bytes :: j != i && Has(sb, f, j, t, bytes) ==> Has(sb, f', j, t, bytes)
  {
    forall j, t, bytes | j != i && Has(sb, f, j, t, bytes) ensures Has(sb, f', j, t, bytes) {
      assert SameFile(sb, f, f', j);
    }
  }

  /** Files other than i are as they were. */
  ghost predicate Kept(sb: Superblock, f: Fs, f': Fs, i: nat) {
    forall j, typ, bytes :: j != i && Has(sb, f, j, typ, bytes) ==> Has(sb, f', j, typ, bytes)
  }

  lemma KeptBy(sb: Superblock, f: Fs, f': Fs, i: nat, more: seq<byte>)
    requires Healthy(sb, f) && i < sb.ninodes && Written(sb, f, f', i, f.ino[i].size, more)
    ensures Kept(sb, f, f', i)
  {
    forall j, t, bytes | j != i && Has(sb, f, j, t, bytes) ensures Has(sb, f', j, t, bytes) {
      HasOther(sb, f, f', i, f.ino[i].size, more, j, t, bytes);
    }
  }

  lemma KeptHas(sb: Superblock, f: Fs, f': Fs, i: nat)
    requires Kept(sb, f, f', i)
    ensures forall j, typ, bytes :: j != i && Has(sb, f, j, typ, bytes) ==> Has(sb, f', j, typ, bytes)
  {}

  lemma RootSize(sb: Superblock, f: Fs, files: seq<(seq<byte>, seq<byte>)>)
    requires Holds(sb, f, files, |files|)
    ensures Shape(sb, f) && ROOTINO < sb.ninodes && f.ino[ROOTINO].size == 16 * (|files| + 2)
  {}

  lemma FinishHas(sb: Superblock, f: Fs, f': Fs, files: seq<(seq<byte>, seq<byte>)>)
    requires Holds(sb, f, files, |files|) && forall j :: 0 <= j < sb.ninodes && j != ROOTINO ==> SameFile(sb, f, f', j)
    ensures forall j :: 0 <= j < |files| ==> Has(sb, f', ROOTINO + 1 + j, T_FILE, files[j].1)
  {
    forall j | 0 <= j < |files| ensures Has(sb, f', ROOTINO + 1 + j, T_FILE, files[j].1) {
      assert Has(sb, f, ROOTINO + 1 + j, T_FILE, files[j].1);
      assert SameFile(sb, f, f', ROOTINO + 1 + j);
    }
  }

  lemma FinishRoot(sb: Superblock, f: Fs, f': Fs, files: seq<(seq<byte>, seq<byte>)>)
    requires Holds(sb, f, files, |files|) && Shape(sb, f') && SameBytes(sb, f, f') && AllPadded(sb, f)
    requires ROOTINO < sb.ninodes
    requires f'.ino[ROOTINO] == f.ino[ROOTINO].(size := (f.ino[ROOTINO].size / BSIZE + 1) * BSIZE)
    ensures RootHas(sb, f', files)
  {
    var root := RootBytes(files, |files|);
    forall o | 0 <= o < MAXFILE * BSIZE
      ensures ByteAt(sb, f', ROOTINO, o) == if o < |root| then root[o] else 0
    {
      assert ByteAt(sb, f', ROOTINO, o) == ByteAt(sb, f, ROOTINO, o);
      if o < |root| { assert Content(sb, f, ROOTINO)[o] == root[o]; }
    }
  }

  // ----- an image in use

  /** A file of one byte on a new disk of FSSIZE blocks. A write of two bytes over it, of which the user can give
      only the first, changes a block that the transaction does not log. */
  method TornInstance() returns (fs: FileSystem, r: Outcome)
    ensures fresh(fs) && r == Ret(0) && !fs.AllLogged()
  {
    hide Healthy, Owning, Image.Valid, Has;
    var img := new Image(1000, 200, 30, Blank());
    var files := [([102], [1])];
    OneFile(files, img.sb);
    var ok := img.Build(files);
    assert 16 * (|files| + 2) % BSIZE != 0;
    ghost var f := Fs(img.store, Inos(img.sb, img.store));
    assert Has(img.sb, f, 2, T_FILE, [1]) by { assert files[0].1 == [1]; }
    FirstByte(img.sb, f);
    fs := new FileSystem(img.sb, img.store);
    assert fs.ino == f.ino;
    r := fs.TornWrite(2, 0, [2, 2], 1, 0);
  }

  lemma OneFile(files: seq<(seq<byte>, seq<byte>)>, sb: Superblock)
    requires files == [([102], [1])] && sb == Super(1000, 200, 30)
    ensures sb.datastart == 46 && Fits(sb, files, sb.datastart)
  {
    assert FileBlocks(files, 1) == FileBlocks(files, 0) + 1;
  }

  lemma FirstByte(sb: Superblock, f: Fs)
    requires Healthy(sb, f) && Has(sb, f, 2, T_FILE, [1])
    ensures Shape(sb, f) && 2 < sb.ninodes && f.ino[2].size == 1 && ByteAt(sb, f, 2, 0) == 1
  {
    hide SlotsOk, BitmapOk;
    assert Content(sb, f, 2)[0] == 1;
  }
}
