/** fs.c's block and inode code, over the block map that `LogRefinement` shows the log and the
    buffer cache to be. log_write(bp) is the point where a block's new contents enter that map. */
module FsCode {
  import opened Blocks
  import opened FsFormat
  import opened FsState
  import opened FsTrunc

  const MAXOPBLOCKS: nat := 10

  /** What a call returns, or the kernel panic that ended it. */
  datatype Outcome = Panic | Ret(n: int)

  class FileSystem {
    const sb: Superblock
    var store: seq<Block>
    var ino: seq<Ino> // in-memory inodes
    ghost var logged: set<nat> // blocks given to log_write in this transaction
    ghost var start: seq<Block> // the store when the transaction began

    ghost function F(): Fs
      reads this
    {
      Fs(store, ino)
    }

    /** The inodes in memory are those on the disk. */
    ghost predicate Stored()
      reads this
    {
      LayoutOk(sb) && |store| == sb.size && ino == Inos(sb, store)
    }

    /** Every block changed in this transaction was given to log_write. */
    ghost predicate AllLogged()
      reads this`store, this`logged, this`start
    {
      |start| == |store| && forall b :: 0 <= b < |store| && store[b] != start[b] ==> b in logged
    }

    /** The same with the exception of block a. */
    ghost predicate LoggedBut(a: nat)
      reads this`store, this`logged, this`start
    {
      |start| == |store| && forall b :: 0 <= b < |store| && b != a && store[b] != start[b] ==> b in logged
    }

    /** The data block of inode i at offset o is such a block. */
    ghost predicate TornAt(i: nat, o: nat)
      reads this
    {
      TornIn(sb, F(), i, o, logged, start)
    }

    /** The inode's own block is not one of its data blocks. */
    lemma TornStays(i: nat, o: nat, f1: Fs, logged1: set<nat>)
      requires TornIn(sb, f1, i, o, logged1, start) && Shape(sb, F()) && SameSlots(sb, f1, F())
      requires forall b :: 0 <= b < |store| && b != IBlock(sb, i) ==> store[b] == f1.store[b]
      requires logged == logged1 + {IBlock(sb, i)}
      ensures !AllLogged()
    {
      IBlockRange(sb, i);
      SameAddr(sb, f1, F(), i, o / BSIZE);
      var a := AddrAt(sb, F(), i, o / BSIZE);
      assert store[a] != start[a] && a !in logged;
    }

    lemma StartSize()
      requires AllLogged()
      ensures |start| == |store|
    {}

    constructor (layout: Superblock, image: seq<Block>)
      requires LayoutOk(layout) && |image| == layout.size
      requires Shape(layout, Fs(image, Inos(layout, image)))
      ensures sb == layout && store == image == start && logged == {}
      ensures ino == Inos(sb, store)
    {
      sb, store, logged, start := layout, image, {}, image;
      var inodes: seq<Ino> := [];
      for i := 0 to layout.ninodes
        invariant |inodes| == i && forall j :: 0 <= j < i ==> inodes[j] == DiskIno(layout, image, j)
      {
        inodes := inodes + [DiskIno(layout, image, i)];
      }
      ino := inodes;
    }

    method LogWrite(b: nat, data: Block)
      requires b < |store|
      modifies this`store, this`logged
      ensures store == old(store)[b := data] && logged == old(logged) + {b}
      ensures old(AllLogged()) ==> AllLogged()
      ensures forall a: nat :: old(LoggedBut(a)) ==> LoggedBut(a)
    {
      store := store[b := data];
      logged := logged + {b};
    }

    method Bzero(b: nat)
      requires b < |store|
      modifies this`store, this`logged
      ensures |store| == |old(store)| && store == old(store)[b := store[b]] && IsZero(store[b])
      ensures logged == old(logged) + {b}
      ensures old(AllLogged()) ==> AllLogged()
    {
      LogWrite(b, seq(BSIZE, _ => 0));
    }

    /** The inner loop of balloc: the first clear bit of bitmap block number g, or BPB. */
    method ScanBitmapBlock(g: nat) returns (bi: nat)
      requires Shape(sb, F()) && g * BPB < sb.size
      ensures bi <= BPB && (bi < BPB ==> g * BPB + bi < sb.size && !Bit(sb, store, g * BPB + bi))
      ensures forall c :: g * BPB <= c < g * BPB + bi && c < sb.size ==> Bit(sb, store, c)
    {
      var data := store[sb.bmapstart + g];
      bi := 0;
      while bi < BPB && g * BPB + bi < sb.size
        invariant 0 <= bi <= BPB && g * BPB + bi <= sb.size
        invariant forall c :: g * BPB <= c < g * BPB + bi ==> Bit(sb, store, c)
      {
        assert (g * BPB + bi) / BPB == g && (g * BPB + bi) % BPB == bi;
        if !BlockBit(data, bi) {
          return;
        }
        bi := bi + 1;
      }
      bi := BPB;
    }

    /** balloc: the lowest free block, marked in use and cleared; None where it panics. */
    method Balloc() returns (r: Option<nat>)
      requires Shape(sb, F())
      modifies this`store, this`logged
      ensures match r
              case Some(b) =>
                && Allocates(sb, old(store), store, b) && !Bit(sb, old(store), b)
                && (forall c :: 0 <= c < b ==> Bit(sb, old(store), c))
                && logged == old(logged) + {BBlock(sb, b), b}
              case None => store == old(store) && logged == old(logged) && NoneFree(sb, store)
      ensures old(AllLogged()) ==> AllLogged()
    {
      var g := 0;
      while g * BPB < sb.size
        invariant store == old(store) && logged == old(logged)
        invariant forall c :: 0 <= c < g * BPB && c < sb.size ==> Bit(sb, store, c)
        decreases sb.size - g * BPB
      {
        var bi := ScanBitmapBlock(g);
        if bi < BPB {
          var b := g * BPB + bi;
          BBlockRange(sb, b);
          assert b / BPB == g && b % BPB == bi;
          LogWrite(sb.bmapstart + g, SetBlockBit(store[sb.bmapstart + g], bi, true));
          assert store == WithBit(sb, old(store), b, true);
          Bzero(b);
          return Some(b);
        }
        g := g + 1;
      }
      r := None;
    }

    /** bfree; false where it panics with "freeing free block". */
    method Bfree(b: nat) returns (ok: bool)
      requires Shape(sb, F()) && b < sb.size
      modifies this`store, this`logged
      ensures ok == Bit(sb, old(store), b)
      ensures store == (if ok then WithBit(sb, old(store), b, false) else old(store))
      ensures logged == old(logged) + (if ok then {BBlock(sb, b)} else {})
      ensures old(AllLogged()) ==> AllLogged()
    {
      BBlockRange(sb, b);
      var data := store[BBlock(sb, b)];
      if !BlockBit(data, b % BPB) {
        return false;
      }
      LogWrite(BBlock(sb, b), SetBlockBit(data, b % BPB, false));
      ok := true;
    }

    /** Allocates a block for slot k of inode i, which is empty; None where balloc panics. The block
        is loose until the caller stores its number. */
    method BallocFor(ghost i: nat, ghost k: nat) returns (r: Option<nat>)
      requires Owning(sb, F(), {}) && i < sb.ninodes && k < NSLOTS && Slot(sb, F(), i, k) == 0
      modifies this`store, this`logged
      ensures r.Some? ==>
        && 0 < r.value < sb.size && Owning(sb, F(), {r.value}) && IsZero(store[r.value])
        && SameSlots(sb, old(F()), F()) && SameBytes(sb, old(F()), F()) && SameInodes(sb, old(F()), F())
        && logged == old(logged) + {BBlock(sb, r.value), r.value}
      ensures r.None? ==> NoneFree(sb, store) && logged == old(logged)
      ensures old(AllLogged()) ==> AllLogged()
    {
      ghost var f := F();
      r := Balloc();
      if r.Some? {
        AllocateKeeps(sb, f, F(), r.value, {});
        BBlockRange(sb, r.value);
        assert {} + {r.value} == {r.value};
      }
    }

    /** bmap: the disk block of block bn of inode i, allocated if there is none. None where it panics: out of
        range, or no block left. */
    method Bmap(i: nat, bn: nat) returns (r: Option<nat>)
      requires Owning(sb, F(), {}) && i < sb.ninodes
      modifies this`store, this`ino, this`logged
      ensures r.Some? ==> bn < MAXFILE && Mapped(sb, old(F()), F(), i, bn, r.value)
      ensures r.Some? ==> logged <= old(logged) + MapLog(sb, old(F()), F(), i, bn, r.value)
      ensures old(logged) <= logged && (r.Some? ==> NewLogged(sb, old(F()), F(), i, logged))
      ensures bn < MAXFILE && AddrAt(sb, old(F()), i, bn) != 0 ==> r.Some? && F() == old(F()) && logged == old(logged)
      ensures r.None? ==> if bn < MAXFILE then NoneFree(sb, store) else F() == old(F()) && logged == old(logged)
      ensures old(AllLogged()) ==> AllLogged()
    {
      hide AllLogged, NoneFree, IsZero;
      ghost var f := F();
      if bn < NDIRECT {
        var addr := ino[i].addrs[bn];
        if addr != 0 {
          return Some(addr);
        }
        r := BallocFor(i, bn);
        if r.Some? {
          ghost var f1 := F();
          FillDirect(sb, f1, i, bn, r.value, {r.value});
          ino := ino[i := ino[i].(addrs := ino[i].addrs[bn := r.value])];
          assert {r.value} - {r.value} == {};
          MappedBy(sb, f, f1, F(), i, bn, bn, r.value);
          NewBy(sb, f, f1, F(), i, bn, r.value, logged);
        }
      } else if bn - NDIRECT < NINDIRECT {
        r := BmapIndirect(i, bn);
      } else {
        r := None;
      }
    }

    /** The indirect block of inode i, allocated if there is none. */
    method EnsureIndirect(i: nat) returns (r: Option<nat>)
      requires Owning(sb, F(), {}) && i < sb.ninodes
      modifies this`store, this`ino, this`logged
      ensures r.Some? ==>
        && Owning(sb, F(), {}) && SameBytes(sb, old(F()), F()) && Grows(sb, old(F()), F(), i)
        && SameInodes(sb, old(F()), F())
        && 0 < r.value < sb.size && ino == old(ino)[i := old(ino)[i].(addrs := old(ino)[i].addrs[INDIRECT := r.value])]
        && logged <= old(logged) + {r.value, BBlock(sb, r.value)}
      ensures old(logged) <= logged && (r.Some? ==> NewLogged(sb, old(F()), F(), i, logged))
      ensures old(ino)[i].addrs[INDIRECT] != 0 ==> r.Some? && F() == old(F()) && logged == old(logged)
      ensures r.None? ==> NoneFree(sb, store)
      ensures old(AllLogged()) ==> AllLogged()
    {
      var ind := ino[i].addrs[INDIRECT];
      if ind != 0 {
        assert Uses(sb, F(), i, INDIRECT, ind);
        assert ino[i].addrs[INDIRECT := ind] == ino[i].addrs;
        return Some(ind);
      }
      r := BallocFor(i, INDIRECT);
      if r.Some? {
        ghost var f1 := F();
        FillIndirect(sb, f1, i, r.value, {r.value});
        ino := ino[i := ino[i].(addrs := ino[i].addrs[INDIRECT := r.value])];
        assert {r.value} - {r.value} == {};
        NewBy(sb, old(F()), f1, F(), i, INDIRECT, r.value, logged);
      }
    }

    /** The indirect half of bmap. */
    method BmapIndirect(i: nat, bn: nat) returns (r: Option<nat>)
      requires Owning(sb, F(), {}) && i < sb.ninodes && NDIRECT <= bn < MAXFILE
      modifies this`store, this`ino, this`logged
      ensures r.Some? ==> Mapped(sb, old(F()), F(), i, bn, r.value)
      ensures r.Some? ==> logged <= old(logged) + MapLog(sb, old(F()), F(), i, bn, r.value)
      ensures old(logged) <= logged && (r.Some? ==> NewLogged(sb, old(F()), F(), i, logged))
      ensures AddrAt(sb, old(F()), i, bn) != 0 ==> r.Some? && F() == old(F()) && logged == old(logged)
      ensures r.None? ==> NoneFree(sb, store)
      ensures old(AllLogged()) ==> AllLogged()
    {
      hide SlotsOk, BitmapOk, SameBytes, Grows, Mapped, NewLogged, NoneFree, AllLogged, MapLog;
      ghost var f := F();
      var ind := EnsureIndirect(i);
      if ind.None? {
        return None;
      }
      ghost var f1, logged1 := F(), logged;
      r := BmapEntry(i, bn);
      if r.Some? {
        NewMapped(sb, f, f1, F(), i, bn, r.value, logged1, logged);
        MappedThen(sb, f, f1, F(), i, bn, r.value);
        LogThen(sb, f, f1, F(), i, bn, r.value, ind.value);
      }
    }

    /** The entry of block bn in an indirect block that exists. */
    method BmapEntry(i: nat, bn: nat) returns (r: Option<nat>)
      requires Owning(sb, F(), {}) && i < sb.ninodes && NDIRECT <= bn < MAXFILE && ino[i].addrs[INDIRECT] != 0
      modifies this`store, this`logged
      ensures r.Some? ==> Mapped(sb, old(F()), F(), i, bn, r.value)
      ensures r.Some? ==> logged <= old(logged) + MapLog(sb, old(F()), F(), i, bn, r.value)
      ensures old(logged) <= logged && (r.Some? ==> NewLogged(sb, old(F()), F(), i, logged))
      ensures AddrAt(sb, old(F()), i, bn) != 0 ==> r.Some? && F() == old(F()) && logged == old(logged)
      ensures r.None? ==> NoneFree(sb, store)
      ensures old(AllLogged()) ==> AllLogged()
    {
      hide WordAt, PutWord;
      ghost var f := F();
      var e := bn - NDIRECT;
      var ind := ino[i].addrs[INDIRECT];
      assert Uses(sb, f, i, INDIRECT, ind);
      var addr := WordAt(store[ind], e);
      if addr != 0 {
        return Some(addr);
      }
      r := BallocFor(i, INDIRECT + 1 + e);
      if r.Some? {
        ghost var f1 := F();
        FillEntry(sb, f1, i, e, r.value, {r.value});
        LogWrite(ind, PutWord(store[ind], e, r.value));
        assert {r.value} - {r.value} == {};
        MappedBy(sb, f, f1, F(), i, bn, SlotOf(bn), r.value);
        NewBy(sb, f, f1, F(), i, SlotOf(bn), r.value, logged);
      }
    }

    /** iupdate: the in-memory inode copied into its block. */
    method Iupdate(i: nat)
      requires Owning(sb, F(), {}) && i < sb.ninodes
      modifies this`store, this`logged
      ensures Owning(sb, F(), {}) && SameSlots(sb, old(F()), F()) && SameBytes(sb, old(F()), F())
      ensures forall j :: 0 <= j < sb.ninodes ==> DiskIno(sb, store, j) == if j == i then ino[i]
              else DiskIno(sb, old(store), j)
      ensures logged == old(logged) + {IBlock(sb, i)}
      ensures old(AllLogged()) ==> AllLogged()
      ensures forall a: nat :: old(LoggedBut(a)) ==> LoggedBut(a)
      ensures |store| == |old(store)|
      ensures forall b :: 0 <= b < |store| && b != IBlock(sb, i) ==> store[b] == old(store)[b]
    {
      hide SlotsOk, BitmapOk, PutInoWords, GetIno;
      ghost var f := F();
      IBlockRange(sb, i);
      var data := PutInoWords(store[IBlock(sb, i)], i % IPB, ino[i], 16);
      InodeAreaWrite(sb, f, IBlock(sb, i), data);
      LogWrite(IBlock(sb, i), data);
      forall j | 0 <= j < sb.ninodes
        ensures DiskIno(sb, store, j) == if j == i then ino[i] else DiskIno(sb, f.store, j)
      {
        InodeStored(sb, f.store, i, ino[i], j);
      }
    }

    /** The bread of one iteration of readi's loop: m bytes at offset o, in one block. */
    method ReadPiece(i: nat, o: nat, m: nat) returns (piece: seq<byte>)
      requires Owning(sb, F(), {}) && i < sb.ninodes && o + m <= MAXFILE * BSIZE && 0 < m <= BSIZE - o % BSIZE
      requires o / BSIZE < MAXFILE && AddrAt(sb, F(), i, o / BSIZE) != 0
      modifies this`store, this`ino, this`logged
      ensures F() == old(F()) && logged == old(logged) && |piece| == m && IsRead(sb, F(), i, o, piece)
    {
      hide SlotsOk, BitmapOk, ByteAt, MapLog, NoneFree, AllLogged;
      var addr := Bmap(i, o / BSIZE);
      ReadChunk(sb, F(), i, o, m);
      piece := store[addr.value][o % BSIZE..o % BSIZE + m];
    }

    /** readi to a place that takes room bytes before copyout fails: the bytes asked for, cut at the size, or -1
        when they do not all fit there, and then those that do have been delivered. Nothing is allocated or
        logged. */
    method Readi(i: nat, off: nat, n: nat, room: nat) returns (r: int, dst: seq<byte>)
      requires Owning(sb, F(), {}) && i < sb.ninodes && NoHoles(sb, F(), i) && off < TWO32 && n < TWO32
      modifies this`store, this`ino, this`logged
      ensures F() == old(F()) && logged == old(logged)
      ensures var c := Content(sb, F(), i);
              var want := if off > |c| || off + n >= TWO32 then [] else c[off..Min(off + n, |c|)];
              dst == want[..Min(room, |want|)] && r == if room >= |want| then |want| else -1
    {
      hide SlotsOk, BitmapOk, IsRead, NoHoles, AddrAt, Content, ByteAt, Mapped, MapLog, NoneFree, AllLogged;
      SizeFits(sb, F(), i);
      dst := [];
      if off > ino[i].size || (off + n) % TWO32 < off {
        return 0, [];
      }
      var count := if off + n > ino[i].size then ino[i].size - off else n;
      ghost var f := F();
      ReadNone(sb, f, i, off);
      var tot := 0;
      while tot < count
        invariant 0 <= tot <= count && tot <= room && |dst| == tot && F() == f && logged == old(logged)
        invariant IsRead(sb, f, i, off, dst)
      {
        var o := off + tot;
        NoHoleAt(sb, f, i, o);
        var m := Min(count - tot, BSIZE - o % BSIZE);
        var piece := ReadPiece(i, o, m);
        var d := Min(m, room - tot);
        ReadMore(sb, f, i, off, dst, piece, d);
        dst := dst + piece[..d];
        if d < m {
          ReadAll(sb, f, i, off, dst);
          Prefix(Content(sb, f, i), off, count, room);
          return -1, dst;
        }
        tot := tot + m;
      }
      ReadAll(sb, f, i, off, dst);
      r := tot;
    }

    /** One iteration of writei's loop; None where balloc panics. */
    method WriteChunk(i: nat, o: nat, bytes: seq<byte>) returns (r: Option<nat>)
      requires Owning(sb, F(), {}) && i < sb.ninodes && o + |bytes| <= MAXFILE * BSIZE
      requires 0 < |bytes| <= BSIZE - o % BSIZE
      modifies this`store, this`ino, this`logged
      ensures r.Some? ==> Wrote(sb, old(F()), F(), i, o, bytes) && AddrAt(sb, F(), i, o / BSIZE) == r.value != 0
      ensures r.Some? ==> logged <= old(logged) + MapLog(sb, old(F()), F(), i, o / BSIZE, r.value)
      ensures old(logged) <= logged && (r.Some? ==> NewLogged(sb, old(F()), F(), i, logged))
      ensures r.None? ==> NoneFree(sb, store)
      ensures old(AllLogged()) ==> AllLogged()
    {
      hide SlotsOk, BitmapOk, NewLogged;
      FileBlock(o);
      var bn := o / BSIZE;
      ghost var f := F();
      r := Bmap(i, bn);
      if r.Some? {
        var a := r.value;
        ghost var f1 := F();
        AddrInRange(sb, f1, i, bn);
        var data := Spliced(store[a], o % BSIZE, bytes);
        ghost var logged1 := logged;
        LogWrite(a, data);
        StoreBytes(sb, f1, i, bn, data);
        ChunkBytes(sb, f, f1, F(), i, o, bytes, data);
        NewSame(sb, f, f1, F(), i, logged1, logged);
      }
    }

    /** The last iteration of writei's loop when either_copyin fails after giving bytes, which are fewer than
        the piece: they are in the buffer, and log_write is not called. */
    method FaultChunk(i: nat, o: nat, bytes: seq<byte>) returns (r: Option<nat>)
      requires Owning(sb, F(), {}) && i < sb.ninodes && o + |bytes| < MAXFILE * BSIZE && |bytes| < BSIZE - o % BSIZE
      modifies this`store, this`ino, this`logged
      ensures r.Some? ==> Wrote(sb, old(F()), F(), i, o, bytes) && AddrAt(sb, F(), i, o / BSIZE) == r.value != 0
      ensures r.Some? ==> logged <= old(logged) + MapLog(sb, old(F()), F(), i, o / BSIZE, r.value)
      ensures AddrAt(sb, old(F()), i, o / BSIZE) != 0 ==> r.Some? && logged == old(logged)
      ensures r.None? ==> NoneFree(sb, store)
      ensures old(logged) <= logged && (r.Some? ==> r.value in logged || AddrAt(sb, old(F()), i, o / BSIZE) != 0)
      ensures r.Some? && old(AllLogged()) ==> LoggedBut(r.value) && (bytes == [] ==> AllLogged())
      ensures r.Some? && old(AllLogged()) ==> (AllLogged() <==> FaultOk(sb, old(F()), i, o, bytes, old(logged), start))
      ensures r.Some? && old(AllLogged()) && !AllLogged() ==> TornAt(i, o)
    {
      hide SlotsOk, BitmapOk;
      FileBlock(o);
      var bn := o / BSIZE;
      ghost var f := F();
      r := Bmap(i, bn);
      if r.Some? {
        var a := r.value;
        ghost var f1 := F();
        AddrInRange(sb, f1, i, bn);
        if bytes == [] {
          MappedWrote(sb, f, f1, i, o);
        } else {
          var data := Spliced(store[a], o % BSIZE, bytes);
          store := store[a := data];
          StoreBytes(sb, f1, i, bn, data);
          ChunkBytes(sb, f, f1, F(), i, o, bytes, data);
        }
      }
    }

    /** The end of writei's loop when the user cannot give the whole of the next piece. */
    method FaultBytes(i: nat, off: nat, src: seq<byte>, avail: nat, tot: nat, ghost f: Fs, ghost it: nat,
                      ghost data: set<nat>, ghost bits: set<nat>, ghost earlier: set<nat>) returns (ok: bool)
      requires Owning(sb, f, {}) && Owning(sb, F(), {}) && i < sb.ninodes && off + |src| <= MAXFILE * BSIZE
      requires tot <= avail < |src|
      requires avail < tot + Min(|src| - tot, BSIZE - (off + tot) % BSIZE)
      requires Progress(sb, f, F(), i, off, src, tot, logged - earlier, it, data, bits)
      requires Marks(sb, f, F(), i, (off + tot) / BSIZE, earlier, logged)
      modifies this`store, this`ino, this`logged
      ensures ok ==> StopsAt(off, |src|, avail, tot)
      ensures ok ==> Owning(sb, F(), {}) && Wrote(sb, f, F(), i, off, src[..avail]) && Covers(sb, F(), i, off + tot)
      ensures ok && earlier == {} ==> InArea(sb, logged) && (|src| <= 3 * BSIZE ==> |logged| <= MAXOPBLOCKS - 1)
      ensures !ok ==> NoneFree(sb, store)
      ensures ok && old(AllLogged()) && tot == avail ==> AllLogged()
      ensures ok && old(AllLogged()) ==>
        (off + tot) / BSIZE < MAXFILE && LoggedBut(AddrAt(sb, F(), i, (off + tot) / BSIZE))
      ensures ok && old(AllLogged()) ==>
        (AllLogged() <==> FaultOk(sb, f, i, off + tot, src[tot..avail], earlier, start))
      ensures ok && old(AllLogged()) && !AllLogged() ==> TornAt(i, off + tot)
      ensures (off + tot) / BSIZE < MAXFILE && AddrAt(sb, old(F()), i, (off + tot) / BSIZE) != 0 ==> ok
    {
      hide Wrote, Progress, SlotsOk, BitmapOk, Covers, AllLogged, LoggedBut, MapLog, StopsAt, Marks, FaultOk, AddrAt;
      ghost var o, bytes := off + tot, src[tot..avail];
      ghost var f1, booked := F(), logged - earlier;
      FileBlock(off + tot);
      if AllLogged() { StartSize(); }
      var b := FaultChunk(i, off + tot, src[tot..avail]);
      if b.None? {
        return false;
      }
      FaultProgress(sb, f, f1, F(), i, off, src, tot, avail, it, data, bits, b.value, booked, logged - earlier);
      if old(AllLogged()) {
        FaultSame(sb, f, f1, i, off, src, tot, avail, earlier, old(logged), it, data, bits, booked, start);
      }
      assert earlier == {} ==> logged - earlier == logged;
      assert src[tot..avail] == [] <==> tot == avail;
      ok := true;
    }

    /** writei's loop, after its checks, with avail bytes to be had from the user; false where balloc panics. */
    method WriteBytes(i: nat, off: nat, src: seq<byte>, avail: nat) returns (ok: bool, tot: nat)
      requires Healthy(sb, F()) && i < sb.ninodes && off <= ino[i].size && off + |src| <= MAXFILE * BSIZE
      modifies this`store, this`ino, this`logged
      ensures ok ==> StopsAt(off, |src|, avail, tot)
      ensures ok ==>
        && Owning(sb, F(), {}) && Wrote(sb, old(F()), F(), i, off, src[..Min(avail, |src|)])
        && Covers(sb, F(), i, off + tot)
      ensures ok && old(logged) == {} ==> InArea(sb, logged) && (|src| <= 3 * BSIZE ==> |logged| <= MAXOPBLOCKS - 1)
      ensures ok && tot == |src| ==> LogsChunk(sb, old(F()), F(), i, off, src, old(logged), logged)
      ensures !ok ==> NoneFree(sb, store)
      ensures ok && old(AllLogged()) && (avail >= |src| || tot == avail) ==> AllLogged()
      ensures ok && old(AllLogged()) && tot < |src| ==>
        (off + tot) / BSIZE < MAXFILE && LoggedBut(AddrAt(sb, F(), i, (off + tot) / BSIZE))
      ensures ok && old(AllLogged()) && tot < |src| ==>
        (AllLogged() <==> FaultOk(sb, old(F()), i, off + tot, src[tot..avail], old(logged), start))
      ensures ok && old(AllLogged()) && !AllLogged() ==> tot < |src| && TornAt(i, off + tot)
      ensures avail < Min(|src|, BSIZE - off % BSIZE) && off / BSIZE < MAXFILE ==>
        AddrAt(sb, old(F()), i, off / BSIZE) != 0 ==> ok
    {
      hide Wrote, Healthy, Progress, SlotsOk, BitmapOk, Covers, AllLogged, LoggedBut, MapLog, StopsAt, NoneFree, AddrAt;
      hide LayoutOk, InoOk;
      hide Marks, FaultOk, NewLogged, TornAt, LogsChunk;
      ghost var f := F();
      ghost var it, data, bits := 0, {}, {};
      NoProgress(sb, f, i, off, src, logged);
      NoChunk(sb, f, i, off, src, logged);
      NoMarks(sb, f, i, off / BSIZE, logged);
      tot := 0;
      while tot < |src|
        invariant 0 <= tot <= |src| && tot <= avail && Owning(sb, F(), {}) && (old(AllLogged()) ==> AllLogged())
        invariant Progress(sb, f, F(), i, off, src, tot, logged - old(logged), it, data, bits)
        invariant tot == 0 ==> F() == f
        invariant tot > 0 ==> Min(|src|, BSIZE - off % BSIZE) <= avail
        invariant tot < |src| ==> Marks(sb, f, F(), i, (off + tot) / BSIZE, old(logged), logged)
        invariant if tot == 0 then logged == old(logged)
                  else tot < |src| || LogsChunk(sb, f, F(), i, off, src, old(logged), logged)
        invariant tot == 0 || off % BSIZE + tot >= BSIZE || tot == |src|
      {
        ghost var f1, booked, logged1 := F(), logged - old(logged), logged;
        var m := Min(|src| - tot, BSIZE - (off + tot) % BSIZE);
        FileBlock(off + tot);
        if tot + m > avail {
          ok := FaultBytes(i, off, src, avail, tot, f, it, data, bits, old(logged));
          return ok, tot;
        }
        var a := WriteChunk(i, off + tot, src[tot..tot + m]);
        if a.None? {
          return false, tot;
        }
        MarksNext(sb, f, f1, F(), i, off, src, tot, m, it, data, bits, a.value, booked, old(logged), logged1, logged);
        data, bits := MoreProgress(sb, f, f1, F(), i, off, src, tot, m, it, data, bits, a.value, booked,
                                   logged - old(logged));
        FirstChunk(sb, f, f1, F(), i, off, src, tot, m, a.value, old(logged), logged1, logged);
        tot, it := tot + m, it + 1;
      }
      AllProgress(sb, f, F(), i, off, src, logged - old(logged), it, data, bits);
      assert old(logged) == {} ==> logged - old(logged) == logged;
      assert src[..Min(avail, |src|)] == src;
      NoStop(off, |src|, avail);
      ok := true;
    }

    /** writei of bytes of which avail can be copied from the user: up to the last piece copied whole they
        replace those of the file, extending it if needed; no other file changes, and the inode is stored. As
        filewrite calls it, with at most three blocks of data in an empty transaction, it logs at most
        MAXOPBLOCKS blocks. Bytes of a piece that is cut off are visible as far as the file reaches, and are
        the one thing that is not logged. */
    method Writei(i: nat, off: nat, src: seq<byte>, avail: nat) returns (r: Outcome)
      requires Healthy(sb, F()) && i < sb.ninodes && off < TWO32 && |src| < TWO32
      modifies this`store, this`ino, this`logged
      ensures r == Ret(-1) <==> off > old(ino)[i].size || off + |src| >= TWO32 || off + |src| > MAXFILE * BSIZE
      ensures r == Ret(-1) ==> F() == old(F()) && logged == old(logged)
      ensures r.Ret? && r.n != -1 ==> r.n >= 0 && StopsAt(off, |src|, avail, r.n) && off <= old(ino)[i].size
      ensures r.Ret? && r.n != -1 ==> WrittenTo(sb, old(F()), F(), i, off, src[..Min(avail, |src|)], r.n)
      ensures r == Ret(|src|) ==> Written(sb, old(F()), F(), i, off, src)
      ensures r.Ret? && r.n != -1 ==>
        forall j :: 0 <= j < sb.ninodes ==>
          DiskIno(sb, store, j) == if j == i then ino[i] else DiskIno(sb, old(store), j)
      ensures r.Ret? && old(logged) == {} ==> InArea(sb, logged) && (|src| <= 3 * BSIZE ==> |logged| <= MAXOPBLOCKS)
      ensures r == Ret(|src|) ==> LogsInChunk(sb, old(F()), F(), i, off, src, old(logged), logged)
      ensures r.Ret? && r.n != -1 ==> IBlock(sb, i) in logged
      ensures r.Panic? ==> NoneFree(sb, store)
      ensures r.Ret? && old(AllLogged()) && (r.n == -1 || r.n == Min(avail, |src|)) ==> AllLogged()
      ensures r.Ret? && old(AllLogged()) && 0 <= r.n < |src| ==>
        (off + r.n) / BSIZE < MAXFILE && Owning(sb, F(), {}) && LoggedBut(AddrAt(sb, F(), i, (off + r.n) / BSIZE))
      ensures r.Ret? && old(AllLogged()) && 0 <= r.n < |src| ==>
        (AllLogged() <==> FaultOk(sb, old(F()), i, off + r.n, src[r.n..avail], old(logged), start))
      ensures avail < Min(|src|, BSIZE - off % BSIZE) && off < old(ino)[i].size ==> r.Ret?
    {
      hide Written, WrittenTo, Wrote, Covers, Healthy, SlotsOk, BitmapOk, AllLogged, LoggedBut, AddrAt, TornIn, FaultOk;
      ghost var f := F();
      HealthyOwns(sb, f);
      if off < ino[i].size { InsideMapped(sb, f, i, off); }
      if off > ino[i].size || (off + |src|) % TWO32 < off {
        return Ret(-1);
      }
      if off + |src| > MAXFILE * BSIZE {
        return Ret(-1);
      }
      var ok, tot := WriteBytes(i, off, src, avail);
      if !ok {
        return Panic;
      }
      ghost var before, f1 := logged, F();
      ghost var torn := TornAt(i, off + tot);
      FinishWrite(i, off, src[..Min(avail, |src|)], tot, f);
      if tot < |src| {
        FileBlock(off + tot);
        SameAddr(sb, f1, F(), i, (off + tot) / BSIZE);
        if torn { TornStays(i, off + tot, f1, before); }
      }
      UnionSize(before, {IBlock(sb, i)});
      IBlockRange(sb, i);
      r := Ret(tot);
      if tot == |src| {
        assert src[..Min(avail, |src|)] == src;
        ChunkStored(sb, f, f1, F(), i, off, src, old(logged), before, logged);
        WrittenWhole(sb, f, F(), i, off, src);
      }
    }

    /** A first write of a transaction, inside the file, for which the user gives some bytes of the first piece
        but not all: if one of them differs from what the file has there, the transaction will not hold the
        block that now differs, though every reader sees it. */
    method TornWrite(i: nat, off: nat, src: seq<byte>, avail: nat, ghost k: nat) returns (r: Outcome)
      requires Healthy(sb, F()) && i < sb.ninodes && off < ino[i].size && off + |src| <= MAXFILE * BSIZE
      requires logged == {} && start == store
      requires k < avail < Min(|src|, BSIZE - off % BSIZE) && ByteAt(sb, F(), i, off + k) != src[k]
      modifies this`store, this`ino, this`logged
      ensures r == Ret(0) && !AllLogged()
    {
      hide Healthy, Written, WrittenTo, ByteAt, FaultOk, SlotsOk, BitmapOk, LoggedBut;
      ghost var f := F();
      TornCase(sb, f, i, off, src, avail, k);
      r := Writei(i, off, src, avail);
    }

    /** The end of writei: the size, and the inode stored whether or not the size changed. */
    method FinishWrite(i: nat, off: nat, bytes: seq<byte>, tot: nat, ghost f: Fs)
      requires Healthy(sb, f) && i < sb.ninodes && off <= f.ino[i].size && off + |bytes| <= MAXFILE * BSIZE
      requires tot <= |bytes|
      requires Owning(sb, f, {}) && Owning(sb, F(), {}) && Wrote(sb, f, F(), i, off, bytes)
      requires Covers(sb, F(), i, off + tot)
      modifies this`store, this`ino, this`logged
      ensures WrittenTo(sb, f, F(), i, off, bytes, tot) && Owning(sb, F(), {}) && SameSlots(sb, old(F()), F())
      ensures |f.store| == sb.size == |store| && |ino| == sb.ninodes
      ensures forall j :: 0 <= j < sb.ninodes ==> DiskIno(sb, store, j) == if j == i then ino[i]
              else DiskIno(sb, f.store, j)
      ensures logged == old(logged) + {IBlock(sb, i)}
      ensures old(AllLogged()) ==> AllLogged()
      ensures forall a: nat :: old(LoggedBut(a)) ==> LoggedBut(a)
      ensures |store| == |old(store)|
      ensures forall b :: 0 <= b < |store| && b != IBlock(sb, i) ==> store[b] == old(store)[b]
    {
      hide WrittenTo, Wrote, Covers, Healthy, SlotsOk, BitmapOk, AllLogged, LoggedBut;
      ghost var f1 := F();
      if off + tot > ino[i].size {
        ino := ino[i := ino[i].(size := off + tot)];
      }
      WrittenSize(sb, f, f1, F(), i, off, bytes, tot);
      ghost var f2 := F();
      Iupdate(i);
      WrittenStored(sb, f, f2, F(), i, off, bytes, tot);
      SameDisk(sb, f, f1, i, off, bytes);
    }

    /** The first loop of itrunc; "freeing free block" cannot happen. */
    method FreeDirect(i: nat) returns (ok: bool)
      requires Owning(sb, F(), {}) && i < sb.ninodes
      modifies this`store, this`ino, this`logged
      ensures ok && Owning(sb, F(), {}) && Others(sb, old(F()), F(), i)
      ensures ino[i] == old(ino)[i].(addrs := ino[i].addrs) && ino[i].addrs[INDIRECT] == old(ino)[i].addrs[INDIRECT]
      ensures forall k :: 0 <= k < NDIRECT ==> ino[i].addrs[k] == 0
      ensures old(AllLogged()) ==> AllLogged()
      ensures logged <= old(logged) + BitmapBlocks(sb) && SameInodes(sb, old(F()), F())
    {
      hide SlotsOk, BitmapOk, Others;
      ghost var f := F();
      OthersSelf(sb, f, i);
      var k := 0;
      while k < NDIRECT
        invariant 0 <= k <= NDIRECT && Owning(sb, F(), {}) && Others(sb, f, F(), i)
        invariant ino[i] == f.ino[i].(addrs := ino[i].addrs) && ino[i].addrs[INDIRECT] == f.ino[i].addrs[INDIRECT]
        invariant (forall m :: 0 <= m < k ==> ino[i].addrs[m] == 0) && (old(AllLogged()) ==> AllLogged())
        invariant logged <= old(logged) + BitmapBlocks(sb)
        invariant forall b :: 0 <= b < sb.bmapstart ==> store[b] == f.store[b]
      {
        if ino[i].addrs[k] != 0 {
          ghost var f1 := F();
          DropDirect(sb, f1, i, k);
          InBitmap(sb, ino[i].addrs[k]);
          BBlockRange(sb, ino[i].addrs[k]);
          ok := Bfree(ino[i].addrs[k]);
          ino := ino[i := ino[i].(addrs := ino[i].addrs[k := 0])];
          OthersTrans(sb, f, f1, F(), i);
        }
        k := k + 1;
      }
      ok := true;
    }

    /** The second half of itrunc: the entries of the indirect block, then the block. */
    method FreeIndirect(i: nat) returns (ok: bool)
      requires Owning(sb, F(), {}) && i < sb.ninodes && ino[i].addrs[INDIRECT] != 0
      modifies this`store, this`ino, this`logged
      ensures ok && Owning(sb, F(), {}) && Others(sb, old(F()), F(), i)
      ensures ino == old(ino)[i := old(ino)[i].(addrs := old(ino)[i].addrs[INDIRECT := 0])]
      ensures old(AllLogged()) ==> AllLogged()
      ensures logged <= old(logged) + BitmapBlocks(sb) && SameInodes(sb, old(F()), F())
    {
      hide SlotsOk, BitmapOk, Others, Remaining, WordAt, BitmapBlocks;
      ghost var f := F();
      var ind := ino[i].addrs[INDIRECT];
      EmptyIndirect(sb, f, i, {});
      OthersAddr(sb, f, i, INDIRECT);
      RemainingStart(sb, f, i);
      assert {} + IndirectBlocks(sb, f, i) == Remaining(sb, f, i, 0);
      IndirectInRange(sb, f, i);
      var e := 0;
      while e < NINDIRECT
        invariant 0 <= e <= NINDIRECT && ino == f.ino && |store| == sb.size && store[ind] == f.store[ind]
        invariant Owning(sb, WithAddr(F(), i, INDIRECT, 0), Remaining(sb, f, i, e))
        invariant Others(sb, f, WithAddr(F(), i, INDIRECT, 0), i) && (old(AllLogged()) ==> AllLogged())
        invariant logged <= old(logged) + BitmapBlocks(sb)
        invariant forall b :: 0 <= b < sb.bmapstart ==> store[b] == f.store[b]
      {
        var b := WordAt(store[ind], e);
        assert b == Slot(sb, f, i, INDIRECT + 1 + e);
        OwningSlots(sb, f);
        RemainingNext(sb, f, i, e);
        if b != 0 {
          ghost var g := WithAddr(F(), i, INDIRECT, 0);
          FreeLoose(sb, g, b, Remaining(sb, f, i, e));
          ok := Bfree(b);
          BBlockRange(sb, b);
          InBitmap(sb, b);
          assert WithAddr(F(), i, INDIRECT, 0) == g.(store := WithBit(sb, g.store, b, false));
          OthersSame(sb, g, WithAddr(F(), i, INDIRECT, 0), i);
          OthersTrans(sb, f, g, WithAddr(F(), i, INDIRECT, 0), i);
        }
        e := e + 1;
      }
      RemainingLast(sb, f, i);
      ghost var g := WithAddr(F(), i, INDIRECT, 0);
      FreeLoose(sb, g, ind, {ind});
      InBitmap(sb, ind);
      BBlockRange(sb, ind);
      ok := Bfree(ind);
      ino := ino[i := ino[i].(addrs := ino[i].addrs[INDIRECT := 0])];
      assert {ind} - {ind} == {} && F() == g.(store := WithBit(sb, g.store, ind, false));
      OthersSame(sb, g, F(), i);
      OthersTrans(sb, f, g, F(), i);
    }

    /** The end of itrunc: size 0, stored. */
    method FinishTrunc(i: nat)
      requires Owning(sb, F(), {}) && i < sb.ninodes
      modifies this`store, this`ino, this`logged
      ensures Owning(sb, F(), {}) && Others(sb, old(F()), F(), i)
      ensures ino == old(ino)[i := old(ino)[i].(size := 0)]
      ensures forall j :: 0 <= j < sb.ninodes ==> DiskIno(sb, store, j) == if j == i then ino[i]
              else DiskIno(sb, old(store), j)
      ensures old(AllLogged()) ==> AllLogged()
      ensures logged == old(logged) + {IBlock(sb, i)}
    {
      hide SlotsOk, BitmapOk, Others, AllLogged, LoggedBut;
      ghost var f := F();
      ino := ino[i := ino[i].(size := 0)];
      FieldsOnly(sb, f, F());
      OthersFields(sb, f, F(), i);
      ghost var f1 := F();
      Iupdate(i);
      OthersSame(sb, f1, F(), i);
      OthersTrans(sb, f, f1, F(), i);
    }

    /** itrunc: the inode owns nothing afterwards, every other inode keeps its fields, blocks and
        contents, and the bitmap stays exact, so exactly the inode's blocks became free. Beside the inode's own
        block it logs only bitmap blocks. */
    method Itrunc(i: nat) returns (ok: bool)
      requires Owning(sb, F(), {}) && i < sb.ninodes
      modifies this`store, this`ino, this`logged
      ensures ok && Owning(sb, F(), {}) && Others(sb, old(F()), F(), i)
      ensures ino[i] == old(ino)[i].(size := 0, addrs := ino[i].addrs)
      ensures forall k :: 0 <= k <= INDIRECT ==> ino[i].addrs[k] == 0
      ensures DiskIno(sb, store, i) == ino[i]
      ensures forall b ::
        0 <= b < sb.size ==> (Bit(sb, store, b) <==> Bit(sb, old(store), b) && !UsedBy(sb, old(F()), i, b))
      ensures Healthy(sb, old(F())) ==> Healthy(sb, F()) && SameContents(sb, old(F()), F(), i)
      ensures old(AllLogged()) ==> AllLogged()
      ensures logged <= old(logged) + BitmapBlocks(sb) + {IBlock(sb, i)} && IBlock(sb, i) in logged
      ensures old(logged) == {} ==> |logged| <= sb.size / BPB + 2
      ensures old(Stored()) ==> Stored()
    {
      hide SlotsOk, BitmapOk, Others, Healthy, AllLogged, LoggedBut, BitmapBlocks;
      ghost var f := F();
      ok := FreeDirect(i);
      ghost var f1 := F();
      if ino[i].addrs[INDIRECT] != 0 {
        ok := FreeIndirect(i);
        OthersTrans(sb, f, f1, F(), i);
      }
      f1 := F();
      if old(Stored()) { StoredStill(sb, f, f1); }
      FinishTrunc(i);
      OthersTrans(sb, f, f1, F(), i);
      if old(Stored()) { TruncStored(sb, f, f1, F(), i); }
      TruncFrees(sb, f, F(), i);
      if Healthy(sb, f) { TruncHealthy(sb, f, F(), i); }
      TruncLogs(sb, old(logged), logged, IBlock(sb, i));
    }

    /** filewrite on an inode: the buffer in pieces of at most ((MAXOPBLOCKS-1-1-2)/2) blocks, each in
        a transaction of its own that stays within MAXOPBLOCKS and logs every block it changes, but for
        bytes of a block that the user could give only in part. What was written is a prefix of the
        buffer, all of it exactly when the call returns its length; it fails exactly on a write that
        starts beyond the end of the file, would exceed the largest file or asks for bytes that the user
        does not have, at the first piece that does. seen counts the bytes that reached the cache. */
    method Filewrite(i: nat, from: nat, src: seq<byte>, avail: nat) returns (r: Outcome, off: nat, ghost seen: nat,
                     ghost txs: seq<Tx>)
      requires Healthy(sb, F()) && i < sb.ninodes && from < TWO32
      modifies this`store, this`ino, this`logged, this`start
      ensures forall t :: 0 <= t < |txs| ==> |txs[t].logged| <= MAXOPBLOCKS
      ensures r.Ret? ==> Chained(old(store), txs, store)
      ensures r.Ret? ==>
        from <= off <= from + |src| && (r == Ret(|src|) <==> off == from + |src|) && (r != Ret(|src|) ==> r == Ret(-1))
      ensures r.Ret? ==> off - from <= seen <= |src| && (seen == off - from || (seen == avail && txs != []))
      ensures r.Ret? ==>
        var whole := if seen == off - from then txs else txs[..|txs| - 1];
        Pieces(sb, old(F()), i, from, src, off - from, whole, old(Stored()))
      ensures r.Ret? && off > from ==>
        from <= old(ino)[i].size && WrittenTo(sb, old(F()), F(), i, from, src[..seen], off - from)
      ensures r.Ret? && off == from ==>
        F() == old(F()) || (from <= old(ino)[i].size && WrittenTo(sb, old(F()), F(), i, from, src[..seen], 0))
      ensures r == Ret(|src|) && src != [] ==> from <= old(ino)[i].size && Written(sb, old(F()), F(), i, from, src)
      ensures r.Ret? ==>
        (r == Ret(-1) <==> src != [] && (from > old(ino)[i].size || from + |src| > MAXFILE * BSIZE || avail < |src|))
      ensures r == Ret(-1) && from <= old(ino)[i].size ==>
        off + Min(3 * BSIZE, from + |src| - off) > MAXFILE * BSIZE || off - from <= avail < off - from + BSIZE
      ensures r.Panic? ==> NoneFree(sb, store)
      ensures r.Ret? && old(Stored()) ==> Stored() && AllSound(sb, txs)
    {
      hide Stored, Sound, AllSound, Written, WrittenTo, SlotsOk, BitmapOk, NoHoles, Chained, NoneFree, Pieces;
      ghost var f, stored := F(), Stored();
      GoingNone(i, from, src);
      var max := (MAXOPBLOCKS - 1 - 1 - 2) / 2 * BSIZE;
      off, seen, txs := from, 0, [];
      var k := 0;
      while k < |src|
        invariant 0 <= k <= |src| && k <= avail && off == from + k < TWO32 && seen == k
        invariant Going(f, i, from, src, k, txs, stored) && (k < |src| ==> k == |txs| * PIECE)
      {
        var n1 := Min(|src| - k, max);
        ghost var txs';
        r, seen, txs' := WriteNext(i, from, src, avail, k, n1, f, txs, stored);
        if r.Panic? {
          PiecesBound(sb, f, i, from, src, k, txs, stored);
          return;
        }
        txs := txs';
        if r.n > 0 {
          off := off + r.n;
        }
        if r.n != n1 {
          r := Ret(-1);
          return;
        }
        k := k + r.n;
      }
      assert src[..k] == src;
      if k > 0 { WrittenEven(sb, f, F(), i, from, src); }
      PiecesBound(sb, f, i, from, src, k, txs, stored);
      r := Ret(|src|);
    }

    /** filewrite's loop: k bytes of src are in the file, in the transactions txs. */
    ghost predicate Going(f: Fs, i: nat, from: nat, src: seq<byte>, k: nat, txs: seq<Tx>, stored: bool)
      reads this
    {
      && Healthy(sb, f) && Healthy(sb, F()) && i < sb.ninodes && k <= |src|
      && Chained(f.store, txs, store) && Pieces(sb, f, i, from, src, k, txs, stored)
      && (stored ==> Stored() && AllSound(sb, txs))
      && (if k == 0 then F() == f
          else from <= f.ino[i].size && from + k <= MAXFILE * BSIZE && Written(sb, f, F(), i, from, src[..k]))
    }

    lemma GoingNone(i: nat, from: nat, src: seq<byte>)
      requires Healthy(sb, F()) && i < sb.ninodes
      ensures Going(F(), i, from, src, 0, [], Stored())
    {
      PiecesNone(sb, F(), i, from, src, Stored());
    }

    /** The loop has ended early: n bytes count as written, those up to seen are visible. */
    ghost predicate Ended(f: Fs, i: nat, from: nat, src: seq<byte>, n: nat, seen: nat, txs: seq<Tx>, stored: bool)
      reads this
    {
      && Healthy(sb, f) && i < sb.ninodes && n <= seen <= |src| && txs != []
      && Chained(f.store, txs, store) && (stored ==> Stored() && AllSound(sb, txs))
      && (forall t :: 0 <= t < |txs| ==> |txs[t].logged| <= MAXOPBLOCKS)
      && Pieces(sb, f, i, from, src, n, if seen == n then txs else txs[..|txs| - 1], stored)
      && ((n == 0 && F() == f) || (from <= f.ino[i].size && WrittenTo(sb, f, F(), i, from, src[..seen], n)))
    }

    /** One iteration of filewrite's loop. */
    method WriteNext(i: nat, from: nat, src: seq<byte>, avail: nat, k: nat, n1: nat, ghost f: Fs, ghost txs: seq<Tx>,
                     ghost stored: bool) returns (r: Outcome, ghost seen: nat, ghost txs': seq<Tx>)
      requires Going(f, i, from, src, k, txs, stored) && k < |src| && k <= avail && k == |txs| * PIECE
      requires from + k < TWO32 && n1 == Min(|src| - k, PIECE)
      modifies this`store, this`ino, this`logged, this`start
      ensures r.Panic? ==> NoneFree(sb, store)
      ensures r.Ret? ==> -1 <= r.n <= n1 && |txs'| == |txs| + 1
      ensures r == Ret(n1) ==> Going(f, i, from, src, k + n1, txs', stored) && seen == k + n1 <= avail
      ensures r.Ret? && r.n != n1 ==> Ended(f, i, from, src, if r.n < 0 then k else k + r.n, seen, txs', stored)
      ensures r == Ret(-1) <==> from + k > old(ino)[i].size || from + k + n1 > MAXFILE * BSIZE
      ensures r.Ret? && k > 0 ==> from + k <= old(ino)[i].size
      ensures r == Ret(-1) ==> seen == k
      ensures r.Ret? && 0 <= r.n < n1 ==> seen == avail && k + r.n <= avail < k + r.n + BSIZE && avail < k + n1
    {
      hide Stored, Sound, AllSound, Written, WrittenTo, SlotsOk, BitmapOk, NoHoles, Complete, Chained, StopsAt;
      hide NoneFree, FaultOk, Pieces, InArea, PrefixIn;
      ghost var f1 := F();
      ghost var tx;
      seen, txs' := k, txs;
      if k > 0 { WrittenReach(sb, f, f1, i, from, src[..k]); WrittenEven(sb, f, f1, i, from, src[..k]); }
      r, tx := Piece(i, from + k, src[k..k + n1], avail - k);
      if r.Panic? {
        return;
      }
      if stored { SoundMore(sb, txs, tx); }
      PiecesBound(sb, f, i, from, src, k, txs, stored);
      txs' := txs + [tx];
      assert txs'[..|txs'| - 1] == txs;
      ChainedMore(f.store, txs');
      if r.n >= 0 { StopFacts(from + k, n1, avail - k, r.n); }
      if r.n == n1 {
        seen := k + n1;
        WrittenNext(sb, f, f1, F(), i, from, src, k, n1);
        PieceDone(f, i, from, src, k, txs, tx, n1, stored);
      } else {
        if r.n >= 0 {
          seen := avail;
          Prefix(src, k, n1, avail - k);
          WrittenEnd(sb, f, f1, F(), i, from, src, k, avail, r.n);
        }
        PieceCut(f, i, from, src, k, txs, tx, r.n < 0, if r.n < 0 then 0 else r.n, seen, stored);
      }
    }

    /** Another piece of n bytes. */
    lemma PieceDone(f: Fs, i: nat, from: nat, src: seq<byte>, k: nat, txs: seq<Tx>, tx: Tx, n: nat, stored: bool)
      requires Healthy(sb, f) && i < sb.ninodes && Pieces(sb, f, i, from, src, k, txs, stored) && k == |txs| * PIECE
      requires 0 < n <= PIECE && k + n <= |src| && (k + n < |src| ==> n == PIECE) && tx.after == store
      requires |tx.logged| <= MAXOPBLOCKS && InArea(sb, tx.logged) && Complete(tx)
      requires stored ==> Stored() && Sound(sb, tx.before) && Sound(sb, tx.after)
      requires from <= f.ino[i].size && Written(sb, f, F(), i, from, src[..k + n])
      ensures Pieces(sb, f, i, from, src, k + n, txs + [tx], stored)
    {
      hide Written, SlotsOk, BitmapOk, NoHoles, Content, Sound, Complete, InArea, WrittenTo;
      WrittenEven(sb, f, F(), i, from, src[..k + n]);
      PiecesMore(sb, f, i, from, src, k, txs, tx, k + n, stored);
    }

    /** A piece that was cut off after m bytes, or refused; if no byte of it stays unlogged it is whole. */
    lemma PieceCut(f: Fs, i: nat, from: nat, src: seq<byte>, k: nat, txs: seq<Tx>, tx: Tx, refused: bool, m: nat,
                   seen: nat, stored: bool)
      requires Healthy(sb, f) && i < sb.ninodes && Pieces(sb, f, i, from, src, k, txs, stored) && k == |txs| * PIECE
      requires m < PIECE && k + m <= seen <= |src| && tx.after == store && (refused ==> m == 0 && seen == k)
      requires |tx.logged| <= MAXOPBLOCKS && InArea(sb, tx.logged) && (seen == k + m ==> Complete(tx))
      requires stored ==> Stored() && Sound(sb, tx.before) && Sound(sb, tx.after)
      requires if !refused then from <= f.ino[i].size && WrittenTo(sb, f, F(), i, from, src[..seen], k + m)
               else if k > 0 then from <= f.ino[i].size && Written(sb, f, F(), i, from, src[..k])
               else F() == f
      ensures Pieces(sb, f, i, from, src, k + m, if seen == k + m then txs + [tx] else txs, stored)
    {
      hide Written, SlotsOk, BitmapOk, NoHoles, Content, Sound, Complete, InArea, WrittenTo;
      if refused && k > 0 { WrittenEven(sb, f, F(), i, from, src[..k]); }
      if seen == k + m {
        PiecesMore(sb, f, i, from, src, k, txs, tx, seen, stored);
      } else {
        PiecesSame(sb, f, i, from, src, k, txs, k + m, stored);
      }
    }

    /** begin_op, writei and end_op for one piece. */
    method Piece(i: nat, off: nat, src: seq<byte>, avail: nat) returns (r: Outcome, ghost tx: Tx)
      requires Healthy(sb, F()) && i < sb.ninodes && off < TWO32 && |src| <= 3 * BSIZE
      modifies this`store, this`ino, this`logged, this`start
      ensures r == Ret(-1) <==> off > old(ino)[i].size || off + |src| >= TWO32 || off + |src| > MAXFILE * BSIZE
      ensures r == Ret(-1) ==> F() == old(F())
      ensures r.Ret? && r.n != -1 ==> r.n >= 0 && StopsAt(off, |src|, avail, r.n) && off <= old(ino)[i].size
      ensures r.Ret? && r.n != -1 ==> WrittenTo(sb, old(F()), F(), i, off, src[..Min(avail, |src|)], r.n)
      ensures r == Ret(|src|) ==> Written(sb, old(F()), F(), i, off, src)
      ensures r.Panic? ==> NoneFree(sb, store)
      ensures r.Ret? ==> tx.before == old(store) && tx.after == store && |tx.logged| <= MAXOPBLOCKS
      ensures r.Ret? ==> InArea(sb, tx.logged)
      ensures r.Ret? && (r.n == -1 || r.n == Min(avail, |src|)) ==> Complete(tx)
      ensures r.Ret? && old(Stored()) ==> Stored() && Sound(sb, tx.before) && Sound(sb, tx.after)
      ensures r.Ret? && 0 <= r.n < |src| ==> r.n <= avail < |src|
      ensures r.Ret? && 0 <= r.n < |src| ==>
        (Complete(tx) <==> FaultOk(sb, old(F()), i, off + r.n, src[r.n..avail], {}, old(store)))
    {
      hide Written, WrittenTo, SlotsOk, BitmapOk, NoHoles, Healthy, FaultOk;
      logged, start := {}, store;
      ghost var f := F();
      r := Writei(i, off, src, avail);
      tx := Tx(start, store, logged);
      if r.Ret? && old(Stored()) && r.n != -1 {
        WrittenSound(sb, f, F(), i, off, src[..Min(avail, |src|)], r.n);
      }
    }
  }

  /** A disk that the file system could be started from: its inodes own their blocks, each once, without holes,
      and its bitmap says so. */
  ghost predicate Sound(sb: Superblock, store: seq<Block>) {
    LayoutOk(sb) && |store| == sb.size && Healthy(sb, Fs(store, Inos(sb, store)))
  }

  lemma WrittenSound(sb: Superblock, f: Fs, f': Fs, i: nat, off: nat, bytes: seq<byte>, tot: nat)
    requires Healthy(sb, f) && i < sb.ninodes && off <= f.ino[i].size && tot <= |bytes|
    requires WrittenTo(sb, f, f', i, off, bytes, tot)
    requires f.ino == Inos(sb, f.store)
    requires forall j :: 0 <= j < sb.ninodes ==> DiskIno(sb, f'.store, j) == if j == i then f'.ino[i]
             else DiskIno(sb, f.store, j)
    ensures f'.ino == Inos(sb, f'.store) && Sound(sb, f'.store)
  {
    hide DiskIno, Content, NoHoles, SlotsOk, BitmapOk;
    forall j | 0 <= j < sb.ninodes ensures f'.ino[j] == Inos(sb, f'.store)[j] {}
  }

  /** n blocks from lo on. */
  ghost function Range(lo: nat, n: nat): set<nat> {
    if n == 0 then {} else Range(lo, n - 1) + {lo + n - 1}
  }

  lemma {:induction false} RangeHas(lo: nat, n: nat, b: nat)
    ensures b in Range(lo, n) <==> lo <= b < lo + n
  {
    if n > 0 { RangeHas(lo, n - 1, b); }
  }

  lemma {:induction false} RangeSize(lo: nat, n: nat)
    ensures |Range(lo, n)| <= n
  {
    if n > 0 { RangeSize(lo, n - 1); }
  }

  /** The blocks of the free bitmap. */
  ghost function BitmapBlocks(sb: Superblock): set<nat> {
    Range(sb.bmapstart, sb.size / BPB + 1)
  }

  lemma InBitmap(sb: Superblock, b: nat)
    requires b < sb.size
    ensures BBlock(sb, b) in BitmapBlocks(sb)
  {
    assert b / BPB <= sb.size / BPB;
    RangeHas(sb.bmapstart, sb.size / BPB + 1, BBlock(sb, b));
  }

  lemma TruncLogs(sb: Superblock, before: set<nat>, after: set<nat>, x: nat)
    requires after <= before + BitmapBlocks(sb) + {x}
    ensures before == {} ==> |after| <= sb.size / BPB + 2
  {
    if before == {} {
      RangeSize(sb.bmapstart, sb.size / BPB + 1);
      UnionSize(BitmapBlocks(sb), {x});
      SubsetSize(after, BitmapBlocks(sb) + {x});
    }
  }

  /** A transaction: the store before and after it, and the blocks given to log_write. */
  datatype Tx = Tx(before: seq<Block>, after: seq<Block>, logged: set<nat>)

  /** Every transaction begins and ends with a sound disk. */
  ghost predicate AllSound(sb: Superblock, txs: seq<Tx>) {
    forall t :: 0 <= t < |txs| ==> Sound(sb, txs[t].before) && Sound(sb, txs[t].after)
  }

  /** The most that filewrite writes in one transaction. */
  const PIECE: nat := 3 * BSIZE

  /** The disk holds the first k bytes of src in file i from offset `from` on, and is otherwise as in f. */
  ghost predicate PrefixIn(sb: Superblock, f: Fs, store: seq<Block>, i: nat, from: nat, src: seq<byte>, k: nat)
    requires Healthy(sb, f) && i < sb.ninodes
  {
    && k <= |src| && |store| == sb.size
    && var f' := Fs(store, Inos(sb, store));
       (k == 0 && f' == f) || (from <= f.ino[i].size && WrittenTo(sb, f, f', i, from, src[..k], k))
  }

  /** The transactions of a filewrite that has written k bytes: each within MAXOPBLOCKS and with every change
      logged, the t-th leaving the first t pieces on the disk. */
  ghost predicate Pieces(sb: Superblock, f: Fs, i: nat, from: nat, src: seq<byte>, k: nat, txs: seq<Tx>, stored: bool)
    requires Healthy(sb, f) && i < sb.ninodes
  {
    && (forall t :: 0 <= t < |txs| ==>
          |txs[t].logged| <= MAXOPBLOCKS && InArea(sb, txs[t].logged) && Complete(txs[t]))
    && (stored ==> AllSound(sb, txs))
    && (stored ==> forall t :: 0 <= t < |txs| ==>
          PrefixIn(sb, f, txs[t].after, i, from, src, Min((t + 1) * PIECE, k)))
  }

  lemma PiecesNone(sb: Superblock, f: Fs, i: nat, from: nat, src: seq<byte>, stored: bool)
    requires Healthy(sb, f) && i < sb.ninodes
    ensures Pieces(sb, f, i, from, src, 0, [], stored)
  {}

  lemma PiecesBound(sb: Superblock, f: Fs, i: nat, from: nat, src: seq<byte>, k: nat, txs: seq<Tx>, stored: bool)
    requires Healthy(sb, f) && i < sb.ninodes && Pieces(sb, f, i, from, src, k, txs, stored)
    ensures forall t :: 0 <= t < |txs| ==> |txs[t].logged| <= MAXOPBLOCKS
  {}

  lemma PiecesMore(sb: Superblock, f: Fs, i: nat, from: nat, src: seq<byte>, k: nat, txs: seq<Tx>, tx: Tx, n: nat,
                   stored: bool)
    requires Healthy(sb, f) && i < sb.ninodes && Pieces(sb, f, i, from, src, k, txs, stored) && k == |txs| * PIECE
    requires k <= n <= k + PIECE && |tx.logged| <= MAXOPBLOCKS && InArea(sb, tx.logged) && Complete(tx)
    requires stored ==> Sound(sb, tx.before) && Sound(sb, tx.after) && PrefixIn(sb, f, tx.after, i, from, src, n)
    ensures Pieces(sb, f, i, from, src, n, txs + [tx], stored)
  {
    hide PrefixIn, Sound, Complete, InArea, Healthy;
    PiecesSame(sb, f, i, from, src, k, txs, n, stored);
  }

  lemma PiecesSame(sb: Superblock, f: Fs, i: nat, from: nat, src: seq<byte>, k: nat, txs: seq<Tx>, n: nat,
                   stored: bool)
    requires Healthy(sb, f) && i < sb.ninodes && Pieces(sb, f, i, from, src, k, txs, stored) && k == |txs| * PIECE <= n
    ensures Pieces(sb, f, i, from, src, n, txs, stored)
  {
    hide PrefixIn, Sound, Complete, InArea, Healthy;
    forall t | 0 <= t < |txs| && stored ensures PrefixIn(sb, f, txs[t].after, i, from, src, Min((t + 1) * PIECE, n)) {
      assert (t + 1) * PIECE <= |txs| * PIECE;
    }
  }

  lemma SoundMore(sb: Superblock, txs: seq<Tx>, tx: Tx)
    requires AllSound(sb, txs) && Sound(sb, tx.before) && Sound(sb, tx.after)
    ensures AllSound(sb, txs + [tx])
  {
    hide Sound;
  }

  ghost predicate Complete(t: Tx) {
    |t.before| == |t.after| && forall b :: 0 <= b < |t.after| && t.after[b] != t.before[b] ==> b in t.logged
  }

  /** The transactions lead from one store to the other. */
  ghost predicate Chained(s: seq<Block>, txs: seq<Tx>, s': seq<Block>) {
    if txs == [] then s' == s else s' == txs[|txs| - 1].after && Chained(s, txs[..|txs| - 1], txs[|txs| - 1].before)
  }

  lemma ChainedMore(s: seq<Block>, txs: seq<Tx>)
    requires txs != [] && Chained(s, txs[..|txs| - 1], txs[|txs| - 1].before)
    ensures Chained(s, txs, txs[|txs| - 1].after)
  {}

  lemma WrittenEven(sb: Superblock, f: Fs, f': Fs, i: nat, off: nat, src: seq<byte>)
    requires Healthy(sb, f) && i < sb.ninodes && off <= f.ino[i].size && Written(sb, f, f', i, off, src)
    ensures WrittenTo(sb, f, f', i, off, src, |src|)
  {
    hide SlotsOk, BitmapOk, NoHoles;
    var c := Splice(Content(sb, f, i), off, src);
    assert c[..|c|] == c;
  }

  /** The last piece, of which only the bytes before have could be had. */
  lemma WrittenEnd(sb: Superblock, f: Fs, f1: Fs, f2: Fs, i: nat, start: nat, src: seq<byte>, k: nat, have: nat,
                   tot: nat)
    requires Healthy(sb, f) && Healthy(sb, f1) && i < sb.ninodes && k + tot <= have <= |src|
    requires start + k <= f1.ino[i].size && WrittenTo(sb, f1, f2, i, start + k, src[k..have], tot)
    requires if k > 0 then start <= f.ino[i].size && Written(sb, f, f1, i, start, src[..k]) else f1 == f
    ensures start <= f.ino[i].size && WrittenTo(sb, f, f2, i, start, src[..have], k + tot)
  {
    hide SlotsOk, BitmapOk, NoHoles, Splice, Content;
    if k > 0 {
      ContentSize(sb, f, i);
      ContentSize(sb, f1, i);
      SpliceCut(Content(sb, f, i), start, src, k, have, tot);
    } else {
      assert src[k..have] == src[..have];
    }
  }

  lemma ContentSize(sb: Superblock, f: Fs, i: nat)
    requires Shape(sb, f) && i < sb.ninodes && f.ino[i].size <= MAXFILE * BSIZE
    ensures |Content(sb, f, i)| == f.ino[i].size
  {}

  lemma SpliceCut(c: seq<byte>, start: nat, src: seq<byte>, k: nat, have: nat, tot: nat)
    requires start <= |c| && k + tot <= have <= |src|
    ensures start + k <= |Splice(c, start, src[..k])|
    ensures var d := Splice(c, start, src[..k]);
            Splice(d, start + k, src[k..have])[..Max(|d|, start + k + tot)] ==
              Splice(c, start, src[..have])[..Max(|c|, start + k + tot)]
  {
    SpliceTwice(c, start, src[..k], src[k..have]);
    assert src[..k] + src[k..have] == src[..have];
  }

  /** Every block's bit is set: balloc finds nothing. */
  ghost predicate NoneFree(sb: Superblock, store: seq<Block>) {
    LayoutOk(sb) && |store| == sb.size && forall c :: 0 <= c < sb.size ==> Bit(sb, store, c)
  }

  /** A write ends inside the file. */
  lemma WrittenReach(sb: Superblock, f: Fs, f': Fs, i: nat, off: nat, src: seq<byte>)
    requires Healthy(sb, f) && i < sb.ninodes && off <= f.ino[i].size && Written(sb, f, f', i, off, src)
    ensures |f'.ino| == sb.ninodes && off + |src| <= f'.ino[i].size
  {
    hide SlotsOk, BitmapOk, NoHoles;
  }

  /** Block b is in one of inode i's slots. */
  ghost predicate UsedBy(sb: Superblock, f: Fs, i: nat, b: int)
    requires Shape(sb, f)
  {
    exists k :: Uses(sb, f, i, k, b)
  }

  ghost predicate SameContents(sb: Superblock, f: Fs, f': Fs, i: nat)
    requires Healthy(sb, f) && Healthy(sb, f')
  {
    forall j :: 0 <= j < sb.ninodes && j != i ==> Content(sb, f', j) == Content(sb, f, j)
  }

  lemma StoredStill(sb: Superblock, f: Fs, f': Fs)
    requires Shape(sb, f) && Shape(sb, f') && SameInodes(sb, f, f')
    ensures Inos(sb, f'.store) == Inos(sb, f.store)
  {
    hide GetIno;
    forall j | 0 <= j < sb.ninodes ensures DiskIno(sb, f'.store, j) == DiskIno(sb, f.store, j) { IBlockRange(sb, j); }
  }

  lemma TruncStored(sb: Superblock, f: Fs, f1: Fs, f2: Fs, i: nat)
    requires Shape(sb, f) && Shape(sb, f1) && Shape(sb, f2) && i < sb.ninodes && f.ino == Inos(sb, f.store)
    requires Inos(sb, f1.store) == Inos(sb, f.store) && Others(sb, f, f2, i)
    requires forall j :: 0 <= j < sb.ninodes ==> DiskIno(sb, f2.store, j) == if j == i then f2.ino[i]
             else DiskIno(sb, f1.store, j)
    ensures f2.ino == Inos(sb, f2.store)
  {
    hide DiskIno;
    forall j | 0 <= j < sb.ninodes ensures f2.ino[j] == Inos(sb, f2.store)[j] {
      assert Inos(sb, f1.store)[j] == Inos(sb, f.store)[j];
    }
  }

  lemma TruncFrees(sb: Superblock, f: Fs, f': Fs, i: nat)
    requires Owning(sb, f, {}) && Owning(sb, f', {}) && i < sb.ninodes && Others(sb, f, f', i)
    requires forall k :: 0 <= k <= INDIRECT ==> f'.ino[i].addrs[k] == 0
    ensures forall b :: 0 <= b < sb.size ==> (Bit(sb, f'.store, b) <==> Bit(sb, f.store, b) && !UsedBy(sb, f, i, b))
  {
    assert forall k, b :: !Uses(sb, f', i, k, b);
    forall b | 0 <= b < sb.size ensures Owned(sb, f', b) <==> Owned(sb, f, b) && !UsedBy(sb, f, i, b) {
      if Owned(sb, f', b) {
        var j, k :| Uses(sb, f', j, k, b);
        assert Uses(sb, f, j, k, b);
      }
      if Owned(sb, f, b) && !UsedBy(sb, f, i, b) {
        var j, k :| Uses(sb, f, j, k, b);
        assert Uses(sb, f', j, k, b);
      }
    }
    forall b | 0 <= b < sb.datastart ensures !UsedBy(sb, f, i, b) {}
  }

  lemma TruncHealthy(sb: Superblock, f: Fs, f': Fs, i: nat)
    requires Healthy(sb, f) && Owning(sb, f', {}) && i < sb.ninodes && Others(sb, f, f', i) && f'.ino[i].size == 0
    ensures Healthy(sb, f') && SameContents(sb, f, f', i)
  {
    hide SlotsOk, BitmapOk;
    forall j | 0 <= j < sb.ninodes ensures NoHoles(sb, f', j) {
      if j != i {
        assert NoHoles(sb, f, j);
        forall bn | 0 <= bn < MAXFILE && bn * BSIZE < f'.ino[j].size ensures AddrAt(sb, f', j, bn) != 0 {
          assert AddrAt(sb, f, j, bn) != 0;
          assert Slot(sb, f', j, SlotOf(bn)) == Slot(sb, f, j, SlotOf(bn));
        }
      }
    }
  }

  /** Two adjacent writes are one. */
  lemma WrittenNext(sb: Superblock, f: Fs, f1: Fs, f2: Fs, i: nat, start: nat, src: seq<byte>, k: nat, m: nat)
    requires Healthy(sb, f) && Healthy(sb, f1) && i < sb.ninodes && k + m <= |src|
    requires start + k <= f1.ino[i].size && Written(sb, f1, f2, i, start + k, src[k..k + m])
    requires if k > 0 then start <= f.ino[i].size && Written(sb, f, f1, i, start, src[..k]) else f1 == f
    ensures start <= f.ino[i].size && Written(sb, f, f2, i, start, src[..k + m]) && Healthy(sb, f2)
  {
    hide SlotsOk, BitmapOk, NoHoles;
    if k > 0 {
      var c := Content(sb, f, i);
      SpliceTwice(c, start, src[..k], src[k..k + m]);
      assert src[..k] + src[k..k + m] == src[..k + m];
    } else {
      assert src[k..k + m] == src[..k + m];
    }
  }

  lemma SpliceTwice(c: seq<byte>, off: nat, a: seq<byte>, b: seq<byte>)
    requires off <= |c|
    ensures off + |a| <= |Splice(c, off, a)| && Splice(Splice(c, off, a), off + |a|, b) == Splice(c, off, a + b)
  {
    var x, y := Splice(Splice(c, off, a), off + |a|, b), Splice(c, off, a + b);
    assert Splice(c, off, a)[..off + |a|] == c[..off] + a;
    if off + |a| + |b| < |c| {
      assert Splice(c, off, a)[off + |a| + |b|..] == c[off + |a| + |b|..];
    }
  }

  lemma OthersSelf(sb: Superblock, f: Fs, i: nat)
    requires Shape(sb, f)
    ensures Others(sb, f, f, i)
  {}

  lemma OthersFields(sb: Superblock, f: Fs, f': Fs, i: nat)
    requires Shape(sb, f) && Shape(sb, f') && i < sb.ninodes && f'.store == f.store && SameSlots(sb, f, f')
    requires SameBytes(sb, f, f')
    requires forall j :: 0 <= j < sb.ninodes && j != i ==> f'.ino[j] == f.ino[j]
    ensures Others(sb, f, f', i)
  {}

  lemma OwningSlots(sb: Superblock, f: Fs)
    requires Owning(sb, f, {})
    ensures SlotsOk(sb, f)
  {}

  lemma IndirectInRange(sb: Superblock, f: Fs, i: nat)
    requires Owning(sb, f, {}) && i < sb.ninodes && f.ino[i].addrs[INDIRECT] != 0
    ensures sb.datastart <= f.ino[i].addrs[INDIRECT] < sb.size
  {
    assert Uses(sb, f, i, INDIRECT, f.ino[i].addrs[INDIRECT]);
  }

  lemma FreeLoose(sb: Superblock, f: Fs, b: nat, loose: set<nat>)
    requires Owning(sb, f, loose) && b in loose
    ensures sb.datastart <= b < sb.size && Bit(sb, f.store, b)
    ensures var f' := f.(store := WithBit(sb, f.store, b, false));
            Owning(sb, f', loose - {b}) && SameSlots(sb, f, f') && SameBytes(sb, f, f')
  {
    FreeKeeps(sb, f, b, loose);
  }

  lemma SameDisk(sb: Superblock, f: Fs, f1: Fs, i: nat, off: nat, src: seq<byte>)
    requires Owning(sb, f, {}) && i < sb.ninodes && off + |src| <= MAXFILE * BSIZE && Wrote(sb, f, f1, i, off, src)
    ensures |f1.store| == sb.size
    ensures forall j :: 0 <= j < sb.ninodes ==> DiskIno(sb, f1.store, j) == DiskIno(sb, f.store, j)
  {
    forall j | 0 <= j < sb.ninodes ensures DiskIno(sb, f1.store, j) == DiskIno(sb, f.store, j) {
      IBlockRange(sb, j);
    }
  }

  /** The contents of file c with the bytes of src from off on, longer if need be. */
  function Splice(c: seq<byte>, off: nat, src: seq<byte>): seq<byte>
    requires off <= |c|
  {
    c[..off] + src + (if off + |src| < |c| then c[off + |src|..] else [])
  }

  ghost predicate Written(sb: Superblock, f: Fs, f': Fs, i: nat, off: nat, src: seq<byte>)
    requires Healthy(sb, f) && i < sb.ninodes && off <= f.ino[i].size
  {
    && Healthy(sb, f')
    && Content(sb, f', i) == Splice(Content(sb, f, i), off, src)
    && (forall j :: 0 <= j < sb.ninodes && j != i ==> f'.ino[j] == f.ino[j] && Content(sb, f', j) == Content(sb, f, j))
    && f'.ino[i] == f.ino[i].(addrs := f'.ino[i].addrs, size := f'.ino[i].size)
  }

  /** The bytes are in place but the file ends after the first tot of them, or where it did. */
  ghost predicate WrittenTo(sb: Superblock, f: Fs, f': Fs, i: nat, off: nat, bytes: seq<byte>, tot: nat)
    requires Healthy(sb, f) && i < sb.ninodes && off <= f.ino[i].size && tot <= |bytes|
  {
    && Healthy(sb, f')
    && Content(sb, f', i) == Splice(Content(sb, f, i), off, bytes)[..Max(f.ino[i].size, off + tot)]
    && (forall j :: 0 <= j < sb.ninodes && j != i ==> f'.ino[j] == f.ino[j] && Content(sb, f', j) == Content(sb, f, j))
    && f'.ino[i] == f.ino[i].(addrs := f'.ino[i].addrs, size := f'.ino[i].size)
  }

  lemma WrittenWhole(sb: Superblock, f: Fs, f': Fs, i: nat, off: nat, src: seq<byte>)
    requires Healthy(sb, f) && i < sb.ninodes && off <= f.ino[i].size && WrittenTo(sb, f, f', i, off, src, |src|)
    ensures Written(sb, f, f', i, off, src)
  {
    hide SlotsOk, BitmapOk, NoHoles;
    var c := Splice(Content(sb, f, i), off, src);
    assert c[..|c|] == c;
  }

  /** Setting the size after the bytes are in place. */
  lemma WrittenSize(sb: Superblock, f: Fs, f1: Fs, f2: Fs, i: nat, off: nat, src: seq<byte>, tot: nat)
    requires Healthy(sb, f) && i < sb.ninodes && off <= f.ino[i].size && off + |src| <= MAXFILE * BSIZE && tot <= |src|
    requires Wrote(sb, f, f1, i, off, src) && Covers(sb, f1, i, off + tot)
    requires f2 == f1.(ino := f1.ino[i := f1.ino[i].(size := if off + tot > f1.ino[i].size then off + tot
                                                     else f1.ino[i].size)])
    ensures Owning(sb, f2, {}) && SameSlots(sb, f1, f2) && WrittenTo(sb, f, f2, i, off, src, tot)
  {
    assert NoHoles(sb, f, i);
    assert Shape(sb, f2);
    FieldsOnly(sb, f1, f2);
    forall j | 0 <= j < sb.ninodes ensures NoHoles(sb, f2, j) {
      StillNoHoles(sb, f, f1, f2, i, off + tot, j);
    }
    WrittenContent(sb, f, f1, f2, i, off, src, tot);
  }

  lemma StillNoHoles(sb: Superblock, f: Fs, f1: Fs, f2: Fs, i: nat, n: nat, j: nat)
    requires Healthy(sb, f) && Shape(sb, f1) && Shape(sb, f2) && i < sb.ninodes && j < sb.ninodes
    requires n <= MAXFILE * BSIZE
    requires Grows(sb, f, f1, i) && SameSlots(sb, f1, f2) && Covers(sb, f1, i, n)
    requires f2.ino[j].size <= (if j == i && f.ino[i].size < n then n else f.ino[j].size)
    ensures NoHoles(sb, f2, j)
  {
    assert NoHoles(sb, f, j);
    forall bn | 0 <= bn < MAXFILE && bn * BSIZE < f2.ino[j].size ensures AddrAt(sb, f2, j, bn) != 0 {
      assert Slot(sb, f2, j, SlotOf(bn)) == Slot(sb, f1, j, SlotOf(bn));
      if bn * BSIZE < f.ino[j].size {
        assert AddrAt(sb, f, j, bn) != 0;
        assert Slot(sb, f1, j, SlotOf(bn)) == Slot(sb, f, j, SlotOf(bn));
      } else {
        assert AddrAt(sb, f1, i, bn) != 0;
      }
    }
  }

  lemma WrittenContent(sb: Superblock, f: Fs, f1: Fs, f2: Fs, i: nat, off: nat, src: seq<byte>, tot: nat)
    requires Healthy(sb, f) && Healthy(sb, f2) && i < sb.ninodes && off <= f.ino[i].size
    requires off + |src| <= MAXFILE * BSIZE && tot <= |src|
    requires Wrote(sb, f, f1, i, off, src) && SameBytes(sb, f1, f2)
    requires f2.ino == f1.ino[i := f1.ino[i].(size := if off + tot > f.ino[i].size then off + tot else f.ino[i].size)]
    ensures WrittenTo(sb, f, f2, i, off, src, tot)
  {
    hide SlotsOk, BitmapOk, NoHoles, ByteAt;
    forall j, x | 0 <= j < sb.ninodes && 0 <= x < MAXFILE * BSIZE
      ensures ByteAt(sb, f2, j, x) == ByteAt(sb, f1, j, x)
    {}
    SplicedContent(sb, f, f2, i, off, src, tot);
    forall j | 0 <= j < sb.ninodes && j != i ensures f2.ino[j] == f.ino[j] && Content(sb, f2, j) == Content(sb, f, j) {}
  }

  lemma SplicedContent(sb: Superblock, f: Fs, f2: Fs, i: nat, off: nat, src: seq<byte>, tot: nat)
    requires Shape(sb, f) && Shape(sb, f2) && i < sb.ninodes && off <= f.ino[i].size <= MAXFILE * BSIZE
    requires off + |src| <= MAXFILE * BSIZE && tot <= |src|
    requires f2.ino[i].size == if off + tot > f.ino[i].size then off + tot else f.ino[i].size
    requires forall x :: 0 <= x < MAXFILE * BSIZE ==>
      ByteAt(sb, f2, i, x) == if off <= x < off + |src| then src[x - off] else ByteAt(sb, f, i, x)
    ensures Content(sb, f2, i) == Splice(Content(sb, f, i), off, src)[..Max(f.ino[i].size, off + tot)]
  {
    hide ByteAt;
  }

  /** Health and contents depend on slots, bytes and sizes alone. */
  lemma HealthyFrame(sb: Superblock, f: Fs, f': Fs)
    requires Healthy(sb, f) && Owning(sb, f', {}) && SameSlots(sb, f, f') && SameBytes(sb, f, f')
    requires forall j :: 0 <= j < sb.ninodes ==> f'.ino[j].size == f.ino[j].size
    ensures Healthy(sb, f') && forall j :: 0 <= j < sb.ninodes ==> Content(sb, f', j) == Content(sb, f, j)
  {
    hide SlotsOk, BitmapOk;
    forall j | 0 <= j < sb.ninodes ensures NoHoles(sb, f', j) {
      assert NoHoles(sb, f, j);
      forall bn | 0 <= bn < MAXFILE && bn * BSIZE < f'.ino[j].size ensures AddrAt(sb, f', j, bn) != 0 {
        assert AddrAt(sb, f, j, bn) != 0;
        assert Slot(sb, f', j, SlotOf(bn)) == Slot(sb, f, j, SlotOf(bn));
      }
    }
  }

  /** Storing the inode leaves the result as it is. */
  lemma WrittenStored(sb: Superblock, f: Fs, f2: Fs, f3: Fs, i: nat, off: nat, src: seq<byte>, tot: nat)
    requires Healthy(sb, f) && i < sb.ninodes && off <= f.ino[i].size && tot <= |src|
    requires WrittenTo(sb, f, f2, i, off, src, tot)
    requires Owning(sb, f2, {}) && Owning(sb, f3, {}) && f3.ino == f2.ino && SameSlots(sb, f2, f3)
    requires SameBytes(sb, f2, f3)
    ensures WrittenTo(sb, f, f3, i, off, src, tot)
  {
    hide SlotsOk, BitmapOk, SameSlots, SameBytes, Content, NoHoles;
    HealthyFrame(sb, f2, f3);
  }

  lemma HealthyOwns(sb: Superblock, f: Fs)
    requires Healthy(sb, f)
    ensures Owning(sb, f, {})
  {}
  /** The state of writei's loop after tot bytes. */
  ghost predicate Progress(sb: Superblock, f: Fs, f': Fs, i: nat, off: nat, src: seq<byte>, tot: nat,
                           logged: set<nat>, it: nat, data: set<nat>, bits: set<nat>)
    requires Owning(sb, f, {}) && Owning(sb, f', {}) && i < sb.ninodes && off + |src| <= MAXFILE * BSIZE && tot <= |src|
  {
    && Wrote(sb, f, f', i, off, src[..tot]) && Covers(sb, f', i, off + tot)
    && Aligned(off, tot, |src|, it) && Booked(sb, f, f', i, off, logged, it, data, bits)
  }

  /** A write within one block logs that block, and what it takes to allocate it. */
  ghost predicate LogsChunk(sb: Superblock, f: Fs, f': Fs, i: nat, off: nat, src: seq<byte>, before: set<nat>,
                            after: set<nat>)
    requires Shape(sb, f) && i < sb.ninodes
  {
    && Shape(sb, f')
    && (src == [] ==> after == before)
    && (off % BSIZE + |src| <= BSIZE && src != [] && off / BSIZE < MAXFILE ==>
          after <= before + MapLog(sb, f, f', i, off / BSIZE, AddrAt(sb, f', i, off / BSIZE)))
  }

  /** And then the inode; no block that is in use goes. */
  ghost predicate LogsInChunk(sb: Superblock, f: Fs, f': Fs, i: nat, off: nat, src: seq<byte>, before: set<nat>,
                              after: set<nat>)
    requires Shape(sb, f) && i < sb.ninodes
  {
    LogsChunk(sb, f, f', i, off, src, before + {IBlock(sb, i)}, after) && Grows(sb, f, f', i)
  }

  lemma NoChunk(sb: Superblock, f: Fs, i: nat, off: nat, src: seq<byte>, logged: set<nat>)
    requires Shape(sb, f) && i < sb.ninodes
    ensures src == [] ==> LogsChunk(sb, f, f, i, off, src, logged, logged)
  {}

  lemma FirstChunk(sb: Superblock, f: Fs, f1: Fs, f2: Fs, i: nat, off: nat, src: seq<byte>, tot: nat, m: nat, a: nat,
                   before: set<nat>, logged1: set<nat>, logged: set<nat>)
    requires Shape(sb, f) && Shape(sb, f1) && Shape(sb, f2) && i < sb.ninodes && tot < |src| && tot + m <= |src|
    requires m == Min(|src| - tot, BSIZE - (off + tot) % BSIZE) && (tot == 0 ==> f1 == f && logged1 == before)
    requires tot == 0 || off % BSIZE + tot >= BSIZE
    requires (off + tot) / BSIZE < MAXFILE && AddrAt(sb, f2, i, (off + tot) / BSIZE) == a
    requires logged <= logged1 + MapLog(sb, f1, f2, i, (off + tot) / BSIZE, a)
    ensures tot + m == |src| ==> LogsChunk(sb, f, f2, i, off, src, before, logged)
    ensures off % BSIZE + tot + m >= BSIZE || tot + m == |src|
  {
    hide MapLog, AddrAt;
    assert (off + tot) % BSIZE == (off % BSIZE + tot) % BSIZE;
  }

  lemma ChunkStored(sb: Superblock, f: Fs, f1: Fs, f2: Fs, i: nat, off: nat, src: seq<byte>, before: set<nat>,
                    logged1: set<nat>, logged: set<nat>)
    requires Shape(sb, f) && Shape(sb, f2) && i < sb.ninodes && LogsChunk(sb, f, f1, i, off, src, before, logged1)
    requires SameSlots(sb, f1, f2) && logged == logged1 + {IBlock(sb, i)}
    requires Owning(sb, f, {}) && off + |src| <= MAXFILE * BSIZE && Wrote(sb, f, f1, i, off, src)
    ensures LogsInChunk(sb, f, f2, i, off, src, before, logged)
  {
    assert Slot(sb, f2, i, INDIRECT) == Slot(sb, f1, i, INDIRECT);
    if off / BSIZE < MAXFILE { SameAddr(sb, f1, f2, i, off / BSIZE); }
    hide Slot, ByteAt, MapLog;
    forall j, k | 0 <= j < sb.ninodes && 0 <= k < NSLOTS && (j != i || Slot(sb, f, j, k) != 0)
      ensures Slot(sb, f2, j, k) == Slot(sb, f, j, k)
    {
      assert Slot(sb, f1, j, k) == Slot(sb, f, j, k);
    }
  }

  lemma NoProgress(sb: Superblock, f: Fs, i: nat, off: nat, src: seq<byte>, logged: set<nat>)
    requires Healthy(sb, f) && i < sb.ninodes && off <= f.ino[i].size && off + |src| <= MAXFILE * BSIZE
    ensures Owning(sb, f, {}) && Progress(sb, f, f, i, off, src, 0, logged - logged, 0, {}, {})
  {
    WroteNothing(sb, f, i, off);
    BookedNothing(sb, f, i, logged);
    assert src[..0] == [];
  }

  lemma MoreProgress(sb: Superblock, f: Fs, f1: Fs, f2: Fs, i: nat, off: nat, src: seq<byte>, tot: nat, m: nat, it: nat,
                     data: set<nat>, bits: set<nat>, a: nat, before: set<nat>, after: set<nat>)
                       returns (data': set<nat>, bits': set<nat>)
    requires Owning(sb, f, {}) && Owning(sb, f1, {}) && i < sb.ninodes && off + |src| <= MAXFILE * BSIZE && tot < |src|
    requires Progress(sb, f, f1, i, off, src, tot, before, it, data, bits)
    requires m == Min(|src| - tot, BSIZE - (off + tot) % BSIZE) && (off + tot) / BSIZE < MAXFILE
    requires Wrote(sb, f1, f2, i, off + tot, src[tot..tot + m]) && AddrAt(sb, f2, i, (off + tot) / BSIZE) == a != 0
    requires after <= before + MapLog(sb, f1, f2, i, (off + tot) / BSIZE, a)
    ensures Owning(sb, f2, {}) && Progress(sb, f, f2, i, off, src, tot + m, after, it + 1, data', bits')
  {
    hide Booked, Covers, Aligned, MapLog, SlotsOk, BitmapOk, AddrAt;
    WroteMore(sb, f, f1, f2, i, off, src, tot, m);
    AlignedMore(off, tot, |src|, it, m);
    AtStart(off, tot, |src|, it);
    AddrInArea(sb, f2, i, (off + tot) / BSIZE);
    data', bits' := BookedMore(sb, f, f1, f2, i, off, tot, it, data, bits, a, before, after);
  }

  lemma AtStart(off: nat, tot: nat, n: nat, it: nat)
    requires Aligned(off, tot, n, it)
    ensures it == 0 ==> tot == 0
  {}

  lemma AllProgress(sb: Superblock, f: Fs, f': Fs, i: nat, off: nat, src: seq<byte>, logged: set<nat>, it: nat,
                    data: set<nat>, bits: set<nat>)
    requires Owning(sb, f, {}) && Owning(sb, f', {}) && i < sb.ninodes && off + |src| <= MAXFILE * BSIZE
    requires Progress(sb, f, f', i, off, src, |src|, logged, it, data, bits)
    ensures Wrote(sb, f, f', i, off, src) && Covers(sb, f', i, off + |src|)
    ensures InArea(sb, logged) && (|src| <= 3 * BSIZE ==> |logged| <= MAXOPBLOCKS - 1)
  {
    hide Booked, Wrote, Covers, Aligned;
    assert src[..|src|] == src;
    BookedTotal(sb, f, f', i, off, |src|, |src|, logged, it, data, bits);
    BookedArea(sb, f, f', i, off, logged, it, data, bits);
  }

  /** Where a copy of n bytes to offset off stops when the user can give only avail of them: before the
      first piece that cannot be copied whole. */
  predicate StopsAt(off: nat, n: nat, avail: nat, tot: nat) {
    && tot <= n && (avail >= n ==> tot == n)
    && (avail < n ==>
        tot <= avail < tot + Min(n - tot, BSIZE - (off + tot) % BSIZE) && (tot == 0 || (off + tot) % BSIZE == 0))
  }

  lemma NoStop(off: nat, n: nat, avail: nat)
    requires n <= avail
    ensures StopsAt(off, n, avail, n)
  {}

  lemma StopFacts(off: nat, n: nat, avail: nat, tot: nat)
    requires StopsAt(off, n, avail, tot)
    ensures tot <= n && (tot == n <==> avail >= n) && (tot < n ==> tot <= avail < tot + BSIZE)
  {}

  lemma FaultProgress(sb: Superblock, f: Fs, f1: Fs, f2: Fs, i: nat, off: nat, src: seq<byte>, tot: nat, avail: nat,
                      it: nat,
                      data: set<nat>, bits: set<nat>, a: nat, before: set<nat>, after: set<nat>)
    requires Owning(sb, f, {}) && Owning(sb, f1, {}) && i < sb.ninodes && off + |src| <= MAXFILE * BSIZE
    requires tot <= avail < |src|
    requires Progress(sb, f, f1, i, off, src, tot, before, it, data, bits)
    requires avail < tot + Min(|src| - tot, BSIZE - (off + tot) % BSIZE) && (off + tot) / BSIZE < MAXFILE
    requires Wrote(sb, f1, f2, i, off + tot, src[tot..avail]) && AddrAt(sb, f2, i, (off + tot) / BSIZE) == a != 0
    requires after <= before + MapLog(sb, f1, f2, i, (off + tot) / BSIZE, a)
    ensures StopsAt(off, |src|, avail, tot) && Owning(sb, f2, {}) && Wrote(sb, f, f2, i, off, src[..avail])
    ensures Covers(sb, f2, i, off + tot)
    ensures InArea(sb, after) && (|src| <= 3 * BSIZE ==> |after| <= MAXOPBLOCKS - 1)
  {
    hide Booked, MapLog, SlotsOk, BitmapOk, AddrAt;
    WroteTwice(sb, f, f1, f2, i, off, src, tot, avail - tot);
    CoversStill(sb, f1, f2, i, off + tot);
    StopAligned(off, tot, |src|, it);
    var m := Min(|src| - tot, BSIZE - (off + tot) % BSIZE);
    AlignedMore(off, tot, |src|, it, m);
    AtStart(off, tot, |src|, it);
    AddrInArea(sb, f2, i, (off + tot) / BSIZE);
    var data', bits' := BookedMore(sb, f, f1, f2, i, off, tot, it, data, bits, a, before, after);
    BookedTotal(sb, f, f2, i, off, tot + m, |src|, after, it + 1, data', bits');
    BookedArea(sb, f, f2, i, off, after, it + 1, data', bits');
  }

  lemma StopAligned(off: nat, tot: nat, n: nat, it: nat)
    requires Aligned(off, tot, n, it) && tot < n
    ensures tot == 0 || (off + tot) % BSIZE == 0
  {
    if it > 0 {
      assert (off + tot) % BSIZE == (off % BSIZE + tot) % BSIZE;
    }
  }

  lemma CoversStill(sb: Superblock, f1: Fs, f2: Fs, i: nat, n: nat)
    requires Shape(sb, f1) && Shape(sb, f2) && i < sb.ninodes && Grows(sb, f1, f2, i) && Covers(sb, f1, i, n)
    ensures Covers(sb, f2, i, n)
  {
    forall bn | 0 <= bn < MAXFILE && bn * BSIZE < n ensures AddrAt(sb, f2, i, bn) != 0 {
      assert AddrAt(sb, f1, i, bn) != 0;
      assert Slot(sb, f2, i, SlotOf(bn)) == Slot(sb, f1, i, SlotOf(bn));
    }
  }

  lemma SameAddr(sb: Superblock, f: Fs, f': Fs, i: nat, bn: nat)
    requires Shape(sb, f) && Shape(sb, f') && i < sb.ninodes && bn < MAXFILE && SameSlots(sb, f, f')
    ensures AddrAt(sb, f', i, bn) == AddrAt(sb, f, i, bn)
  {
    assert Slot(sb, f', i, SlotOf(bn)) == Slot(sb, f, i, SlotOf(bn));
  }

  /** bmap alone writes no bytes. */
  lemma MappedWrote(sb: Superblock, f: Fs, f1: Fs, i: nat, o: nat)
    requires Owning(sb, f, {}) && i < sb.ninodes && o / BSIZE < MAXFILE && o <= MAXFILE * BSIZE && Shape(sb, f1)
    requires Mapped(sb, f, f1, i, o / BSIZE, AddrAt(sb, f1, i, o / BSIZE))
    ensures Wrote(sb, f, f1, i, o, [])
  {
    hide SlotsOk, BitmapOk;
  }

  /** Every block that holds one of the first n bytes is allocated. */
  ghost predicate Covers(sb: Superblock, f: Fs, i: nat, n: nat)
    requires Shape(sb, f) && i < sb.ninodes
  {
    forall bn :: 0 <= bn < MAXFILE && bn * BSIZE < n ==> AddrAt(sb, f, i, bn) != 0
  }

  lemma WroteNothing(sb: Superblock, f: Fs, i: nat, off: nat)
    requires Healthy(sb, f) && i < sb.ninodes && off <= f.ino[i].size
    ensures off <= MAXFILE * BSIZE && Owning(sb, f, {}) && Wrote(sb, f, f, i, off, []) && Covers(sb, f, i, off)
  {
    assert NoHoles(sb, f, i);
  }

  lemma WroteMore(sb: Superblock, f: Fs, f1: Fs, f2: Fs, i: nat, off: nat, src: seq<byte>, tot: nat, m: nat)
    requires Owning(sb, f, {}) && Owning(sb, f1, {}) && i < sb.ninodes && off + |src| <= MAXFILE * BSIZE
    requires tot < tot + m <= |src| && m <= BSIZE - (off + tot) % BSIZE && (off + tot) / BSIZE < MAXFILE
    requires Wrote(sb, f, f1, i, off, src[..tot]) && Wrote(sb, f1, f2, i, off + tot, src[tot..tot + m])
    requires Covers(sb, f1, i, off + tot) && AddrAt(sb, f2, i, (off + tot) / BSIZE) != 0
    ensures Wrote(sb, f, f2, i, off, src[..tot + m]) && Covers(sb, f2, i, off + tot + m)
  {
    WroteTwice(sb, f, f1, f2, i, off, src, tot, m);
    forall bn | 0 <= bn < MAXFILE && bn * BSIZE < off + tot + m ensures AddrAt(sb, f2, i, bn) != 0 {
      if bn * BSIZE < off + tot {
        assert AddrAt(sb, f1, i, bn) != 0;
        assert Slot(sb, f2, i, SlotOf(bn)) == Slot(sb, f1, i, SlotOf(bn));
      } else {
        assert bn == (off + tot) / BSIZE;
      }
    }
  }

  lemma WroteTwice(sb: Superblock, f: Fs, f1: Fs, f2: Fs, i: nat, off: nat, src: seq<byte>, tot: nat, m: nat)
    requires Owning(sb, f, {}) && Owning(sb, f1, {}) && i < sb.ninodes && off + |src| <= MAXFILE * BSIZE
    requires tot + m <= |src|
    requires Wrote(sb, f, f1, i, off, src[..tot]) && Wrote(sb, f1, f2, i, off + tot, src[tot..tot + m])
    ensures Wrote(sb, f, f2, i, off, src[..tot + m])
  {
    forall j, x | 0 <= j < sb.ninodes && 0 <= x < MAXFILE * BSIZE
      ensures ByteAt(sb, f2, j, x) == if j == i && off <= x < off + tot + m then src[..tot + m][x - off]
              else ByteAt(sb, f, j, x)
    {
      assert ByteAt(sb, f1, j, x) == if j == i && off <= x < off + tot then src[..tot][x - off] else ByteAt(sb, f, j,
                    x);
    }
    forall j, k | 0 <= j < sb.ninodes && 0 <= k < NSLOTS && (j != i || Slot(sb, f, j, k) != 0)
      ensures Slot(sb, f2, j, k) == Slot(sb, f, j, k)
    {
      assert Slot(sb, f1, j, k) == Slot(sb, f, j, k);
    }
  }

  // ----- counting the blocks of a transaction

  /** After it iterations that did not finish the copy, the next byte starts a block. */
  predicate Aligned(off: nat, tot: nat, n: nat, it: nat) {
    && (it == 0 ==> tot == 0)
    && (it > 0 && tot < n ==> off % BSIZE + tot == it * BSIZE)
    && (it > 0 ==> (it - 1) * BSIZE < off % BSIZE + tot && tot <= n)
  }

  lemma AlignedMore(off: nat, tot: nat, n: nat, it: nat, m: nat)
    requires Aligned(off, tot, n, it) && tot < n && m == Min(n - tot, BSIZE - (off + tot) % BSIZE)
    ensures Aligned(off, tot + m, n, it + 1)
  {
    if it > 0 {
      assert (off + tot) % BSIZE == (off % BSIZE + tot) % BSIZE;
    }
  }

  /** Logged so far: the data blocks written, a bitmap block for each one newly allocated, and the
      indirect block with its bitmap block. A write that starts inside a block finds that block
      allocated. */
  ghost predicate Booked(sb: Superblock, f: Fs, f': Fs, i: nat, off: nat, logged: set<nat>, it: nat, data: set<nat>,
                         bits: set<nat>)
    requires Shape(sb, f) && Shape(sb, f') && i < sb.ninodes
  {
    && logged <= data + bits + IndirectLog(sb, f', i) && InArea(sb, data) && InArea(sb, bits)
    && |data| <= it && |bits| <= it
    && (off % BSIZE != 0 && it > 0 ==> |bits| <= it - 1)
  }

  /** Blocks after the log: of inodes, of the bitmap, or of data. */
  ghost predicate InArea(sb: Superblock, blocks: set<nat>) {
    forall b :: b in blocks ==> sb.inodestart <= b < sb.size
  }

  lemma AddrInArea(sb: Superblock, f: Fs, i: nat, bn: nat)
    requires Owning(sb, f, {}) && i < sb.ninodes && bn < MAXFILE && AddrAt(sb, f, i, bn) != 0
    ensures var a := AddrAt(sb, f, i, bn); sb.inodestart <= a < sb.size && sb.inodestart <= BBlock(sb, a) < sb.size
  {
    assert Uses(sb, f, i, SlotOf(bn), AddrAt(sb, f, i, bn));
    BBlockRange(sb, AddrAt(sb, f, i, bn));
  }

  lemma BookedArea(sb: Superblock, f: Fs, f': Fs, i: nat, off: nat, logged: set<nat>, it: nat, data: set<nat>,
                   bits: set<nat>)
    requires Owning(sb, f, {}) && Owning(sb, f', {}) && i < sb.ninodes
    requires Booked(sb, f, f', i, off, logged, it, data, bits)
    ensures InArea(sb, logged)
  {
    var ind := f'.ino[i].addrs[INDIRECT];
    if ind != 0 {
      assert Uses(sb, f', i, INDIRECT, ind);
      BBlockRange(sb, ind);
    }
  }

  ghost function IndirectLog(sb: Superblock, f: Fs, i: nat): set<nat>
    requires Shape(sb, f) && i < sb.ninodes
  {
    var ind := f.ino[i].addrs[INDIRECT];
    if ind == 0 then {} else {ind, BBlock(sb, ind)}
  }

  lemma BookedNothing(sb: Superblock, f: Fs, i: nat, logged: set<nat>)
    requires Shape(sb, f) && i < sb.ninodes
    ensures forall off: nat :: Booked(sb, f, f, i, off, logged - logged, 0, {}, {})
  {}

  lemma BookedMore(sb: Superblock, f: Fs, f1: Fs, f2: Fs, i: nat, off: nat, tot: nat, it: nat, data: set<nat>,
                   bits: set<nat>, a: nat,
                   before: set<nat>, after: set<nat>) returns (data': set<nat>, bits': set<nat>)
    requires Shape(sb, f) && Shape(sb, f1) && Shape(sb, f2) && i < sb.ninodes && off + tot < MAXFILE * BSIZE
    requires (it == 0 ==> tot == 0)
    requires (off + tot) / BSIZE < MAXFILE && Grows(sb, f1, f2, i) && AddrAt(sb, f2, i, (off + tot) / BSIZE) == a != 0
    requires Covers(sb, f1, i, off + tot) && Booked(sb, f, f1, i, off, before, it, data, bits)
    requires after <= before + MapLog(sb, f1, f2, i, (off + tot) / BSIZE, a)
    requires sb.inodestart <= a < sb.size && sb.inodestart <= BBlock(sb, a) < sb.size
    ensures Booked(sb, f, f2, i, off, after, it + 1, data', bits')
  {
    hide *;
    var bn := (off + tot) / BSIZE;
    BookedOpen(sb, f, f1, i, off, before, it, data, bits);
    if it == 0 && off % BSIZE != 0 {
      StartsInside(sb, f1, i, off);
    }
    IndirectMore(sb, f1, f2, i, bn);
    MapLogSplit(sb, f1, f2, i, bn, a);
    var added := if AddrAt(sb, f1, i, bn) == 0 then {BBlock(sb, a)} else {};
    SetsMore(before, after, data, bits, {a}, added, IndirectLog(sb, f1, i), IndirectLog(sb, f2, i),
             MapLog(sb, f1, f2, i, bn, a));
    OneMore(data, a);
    OneMore(bits, BBlock(sb, a));
    NoneMore(bits);
    data', bits' := data + {a}, bits + added;
    AreaMore(sb, data, {a});
    AreaMore(sb, bits, added);
    BookedClose(sb, f, f2, i, off, after, it + 1, data', bits');
  }

  lemma AreaMore(sb: Superblock, a: set<nat>, b: set<nat>)
    requires InArea(sb, a) && forall x :: x in b ==> sb.inodestart <= x < sb.size
    ensures InArea(sb, a + b)
  {}

  lemma BookedOpen(sb: Superblock, f: Fs, f': Fs, i: nat, off: nat, logged: set<nat>, it: nat, data: set<nat>,
                   bits: set<nat>)
    requires Shape(sb, f) && Shape(sb, f') && i < sb.ninodes && Booked(sb, f, f', i, off, logged, it, data, bits)
    ensures logged <= data + bits + IndirectLog(sb, f', i) && |data| <= it && |bits| <= it
    ensures InArea(sb, data) && InArea(sb, bits)
    ensures (off % BSIZE != 0 && it > 0 ==> |bits| <= it - 1)
  {
    hide IndirectLog;
  }

  lemma BookedClose(sb: Superblock, f: Fs, f': Fs, i: nat, off: nat, logged: set<nat>, it: nat, data: set<nat>,
                    bits: set<nat>)
    requires Shape(sb, f) && Shape(sb, f') && i < sb.ninodes
    requires logged <= data + bits + IndirectLog(sb, f', i) && |data| <= it && |bits| <= it
    requires InArea(sb, data) && InArea(sb, bits)
    requires (off % BSIZE != 0 && it > 0 ==> |bits| <= it - 1)
    ensures Booked(sb, f, f', i, off, logged, it, data, bits)
  {
    hide IndirectLog;
  }

  lemma NoneMore(s: set<nat>)
    ensures s + {} == s
  {}

  lemma OneMore(s: set<nat>, x: nat)
    ensures |s + {x}| <= |s| + 1
  {}

  lemma MapLogSplit(sb: Superblock, f: Fs, f': Fs, i: nat, bn: nat, a: nat)
    requires Shape(sb, f) && Shape(sb, f') && i < sb.ninodes && bn < MAXFILE && Grows(sb, f, f', i)
    requires AddrAt(sb, f', i, bn) == a != 0
    ensures MapLog(sb, f, f', i, bn, a) <= {a} + (if AddrAt(sb, f, i, bn) == 0 then {BBlock(sb, a)} else {}) +
            IndirectLog(sb, f', i)
  {
    hide Grows;
  }

  lemma SetsMore(before: set<nat>, after: set<nat>, data: set<nat>, bits: set<nat>, a: set<nat>, b: set<nat>,
                 ind: set<nat>, ind': set<nat>, more: set<nat>)
    requires before <= data + bits + ind && ind <= ind' && after <= before + more && more <= a + b + ind'
    ensures after <= (data + a) + (bits + b) + ind'
  {}

  /** A write that starts inside a block finds that block allocated. */
  lemma StartsInside(sb: Superblock, f: Fs, i: nat, off: nat)
    requires Shape(sb, f) && i < sb.ninodes && Covers(sb, f, i, off) && off % BSIZE != 0 && off / BSIZE < MAXFILE
    ensures AddrAt(sb, f, i, off / BSIZE) != 0
  {
    assert off / BSIZE * BSIZE < off;
  }

  lemma IndirectMore(sb: Superblock, f: Fs, f': Fs, i: nat, bn: nat)
    requires Shape(sb, f) && Shape(sb, f') && i < sb.ninodes && Grows(sb, f, f', i) && bn < MAXFILE
    ensures IndirectLog(sb, f, i) <= IndirectLog(sb, f', i)
    ensures bn >= NDIRECT && AddrAt(sb, f', i, bn) != 0 ==> f'.ino[i].addrs[INDIRECT] != 0
  {
    assert Slot(sb, f, i, INDIRECT) != 0 ==> Slot(sb, f', i, INDIRECT) == Slot(sb, f, i, INDIRECT);
  }

  /** At most MAXOPBLOCKS - 1 blocks, which leaves one for the inode. */
  lemma BookedTotal(sb: Superblock, f: Fs, f': Fs, i: nat, off: nat, tot: nat, n: nat, logged: set<nat>, it: nat,
                    data: set<nat>, bits: set<nat>)
    requires Shape(sb, f) && Shape(sb, f') && i < sb.ninodes && Aligned(off, tot, n, it)
    requires Booked(sb, f, f', i, off, logged, it, data, bits)
    ensures n <= 3 * BSIZE ==> |logged| <= MAXOPBLOCKS - 1
  {
    var all := data + bits + IndirectLog(sb, f', i);
    SubsetSize(logged, all);
    UnionSize(data, bits);
    UnionSize(data + bits, IndirectLog(sb, f', i));
    assert |IndirectLog(sb, f', i)| <= 2;
  }

  lemma SubsetSize(a: set<nat>, b: set<nat>)
    requires a <= b
    ensures |a| <= |b|
  {
    assert b == a + (b - a);
  }

  lemma UnionSize(a: set<nat>, b: set<nat>)
    ensures |a + b| <= |a| + |b|
  {
    assert a + b == a + (b - a);
    SubsetSize(b - a, b);
  }

  /** f' is f with the given bytes at offset o of file i, blocks added to i as needed. */
  ghost predicate Wrote(sb: Superblock, f: Fs, f': Fs, i: nat, o: nat, bytes: seq<byte>)
    requires Owning(sb, f, {}) && i < sb.ninodes && o + |bytes| <= MAXFILE * BSIZE
  {
    && Owning(sb, f', {}) && Grows(sb, f, f', i) && SameInodes(sb, f, f')
    && f'.ino == f.ino[i := f.ino[i].(addrs := f'.ino[i].addrs)]
    && forall j, x :: 0 <= j < sb.ninodes && 0 <= x < MAXFILE * BSIZE ==>
         ByteAt(sb, f', j, x) == if j == i && o <= x < o + |bytes| then bytes[x - o] else ByteAt(sb, f, j, x)
  }

  lemma AddrInRange(sb: Superblock, f: Fs, i: nat, bn: nat)
    requires Owning(sb, f, {}) && i < sb.ninodes && bn < MAXFILE && AddrAt(sb, f, i, bn) != 0
    ensures sb.datastart <= AddrAt(sb, f, i, bn) < sb.size
  {
    assert Uses(sb, f, i, SlotOf(bn), AddrAt(sb, f, i, bn));
  }

  lemma ChunkBytes(sb: Superblock, f: Fs, f1: Fs, f': Fs, i: nat, o: nat, bytes: seq<byte>, data: Block)
    requires Owning(sb, f, {}) && i < sb.ninodes && o + |bytes| <= MAXFILE * BSIZE && 0 < |bytes| <= BSIZE - o % BSIZE
    requires o / BSIZE < MAXFILE && Shape(sb, f1) && Mapped(sb, f, f1, i, o / BSIZE, AddrAt(sb, f1, i, o / BSIZE))
    requires AddrAt(sb, f1, i, o / BSIZE) < sb.size
    requires var old' := f1.store[AddrAt(sb, f1, i, o / BSIZE)];
             data == old'[..o % BSIZE] + bytes + old'[o % BSIZE + |bytes|..]
    requires Owning(sb, f', {}) && SameSlots(sb, f1, f') && f'.ino == f1.ino && SameInodes(sb, f1, f')
    requires forall j, x :: 0 <= j < sb.ninodes && 0 <= x < MAXFILE * BSIZE ==>
               ByteAt(sb, f', j, x) ==
                 if j == i && x / BSIZE == o / BSIZE then data[x % BSIZE] else ByteAt(sb, f1, j, x)
    ensures Wrote(sb, f, f', i, o, bytes) && AddrAt(sb, f', i, o / BSIZE) == AddrAt(sb, f1, i, o / BSIZE)
  {
    hide SlotsOk, BitmapOk;
    forall j, x | 0 <= j < sb.ninodes && 0 <= x < MAXFILE * BSIZE
      ensures ByteAt(sb, f', j, x) == if j == i && o <= x < o + |bytes| then bytes[x - o] else ByteAt(sb, f, j, x)
    {
      assert ByteAt(sb, f1, j, x) == ByteAt(sb, f, j, x);
      if j == i {
        ChunkByte(sb, f1, i, o, |bytes|, x);
      }
    }
  }

  /** Where byte x of a file falls relative to a run of m bytes at o inside one block. */
  lemma ChunkByte(sb: Superblock, f1: Fs, i: nat, o: nat, m: nat, x: nat)
    requires Shape(sb, f1) && i < sb.ninodes && o < MAXFILE * BSIZE && x < MAXFILE * BSIZE && 0 < m <= BSIZE - o % BSIZE
    requires 0 < AddrAt(sb, f1, i, o / BSIZE) < sb.size
    ensures o <= x < o + m ==> x / BSIZE == o / BSIZE && x % BSIZE == o % BSIZE + (x - o)
    ensures x / BSIZE == o / BSIZE && !(o <= x < o + m) ==> x % BSIZE < o % BSIZE || x % BSIZE >= o % BSIZE + m
    ensures x / BSIZE == o / BSIZE ==> ByteAt(sb, f1, i, x) == f1.store[AddrAt(sb, f1, i, o / BSIZE)][x % BSIZE]
  {}

  lemma InodeStored(sb: Superblock, store: seq<Block>, i: nat, x: Ino, j: nat)
    requires LayoutOk(sb) && |store| == sb.size && i < sb.ninodes && j < sb.ninodes && InoOk(x)
    ensures var store' := store[IBlock(sb, i) := PutInoWords(store[IBlock(sb, i)], i % IPB, x, 16)];
            DiskIno(sb, store', j) == if j == i then x else DiskIno(sb, store, j)
  {
    hide GetIno, PutInoWords;
    IBlockRange(sb, i);
    IBlockRange(sb, j);
    if j / IPB == i / IPB {
      InoRoundTrip(store[IBlock(sb, i)], i % IPB, x, j % IPB);
      assert j % IPB == i % IPB ==> j == i;
    }
  }


  /** off / BSIZE is in bmap's range whenever off is inside the largest file. */
  lemma FileBlock(o: nat)
    requires o < MAXFILE * BSIZE
    ensures o / BSIZE < MAXFILE && o / BSIZE * BSIZE <= o < o / BSIZE * BSIZE + BSIZE
    ensures o % BSIZE == o - o / BSIZE * BSIZE
  {}

  /** dst holds the bytes of file i from off on. */
  ghost predicate IsRead(sb: Superblock, f: Fs, i: nat, off: nat, dst: seq<byte>)
    requires Shape(sb, f) && i < sb.ninodes && off + |dst| <= MAXFILE * BSIZE
  {
    forall y :: off <= y < off + |dst| ==> dst[y - off] == ByteAt(sb, f, i, y)
  }

  lemma SizeFits(sb: Superblock, f: Fs, i: nat)
    requires Shape(sb, f) && i < sb.ninodes && NoHoles(sb, f, i)
    ensures f.ino[i].size <= MAXFILE * BSIZE && |Content(sb, f, i)| == f.ino[i].size
  {}

  lemma NoHoleAt(sb: Superblock, f: Fs, i: nat, o: nat)
    requires Shape(sb, f) && i < sb.ninodes && NoHoles(sb, f, i) && o < f.ino[i].size
    ensures o / BSIZE < MAXFILE && AddrAt(sb, f, i, o / BSIZE) != 0
  {
    FileBlock(o);
  }

  lemma Prefix(c: seq<byte>, off: nat, n: nat, k: nat)
    requires off + n <= |c| && k <= n
    ensures c[off..off + n][..k] == c[off..off + k]
  {}

  lemma ReadNone(sb: Superblock, f: Fs, i: nat, off: nat)
    requires Shape(sb, f) && i < sb.ninodes && off <= MAXFILE * BSIZE
    ensures IsRead(sb, f, i, off, [])
  {}

  lemma ReadMore(sb: Superblock, f: Fs, i: nat, off: nat, dst: seq<byte>, piece: seq<byte>, d: nat)
    requires Shape(sb, f) && i < sb.ninodes && off + |dst| + |piece| <= MAXFILE * BSIZE && d <= |piece|
    requires IsRead(sb, f, i, off, dst) && IsRead(sb, f, i, off + |dst|, piece)
    ensures IsRead(sb, f, i, off, dst + piece[..d])
  {
    hide ByteAt;
  }

  lemma ReadAll(sb: Superblock, f: Fs, i: nat, off: nat, dst: seq<byte>)
    requires Shape(sb, f) && i < sb.ninodes && off + |dst| <= f.ino[i].size <= MAXFILE * BSIZE
    requires IsRead(sb, f, i, off, dst)
    ensures dst == Content(sb, f, i)[off..off + |dst|]
  {
    hide ByteAt;
  }

  /** A run of bytes inside one block of a file is a slice of that block. */
  lemma ReadChunk(sb: Superblock, f: Fs, i: nat, o: nat, m: nat)
    requires Owning(sb, f, {}) && i < sb.ninodes && o + m <= MAXFILE * BSIZE && 0 < m <= BSIZE - o % BSIZE
    requires AddrAt(sb, f, i, o / BSIZE) != 0
    ensures AddrAt(sb, f, i, o / BSIZE) < sb.size
    ensures forall y ::
      o <= y < o + m ==> ByteAt(sb, f, i, y) == f.store[AddrAt(sb, f, i, o / BSIZE)][y - o + o % BSIZE]
  {
    assert Uses(sb, f, i, SlotOf(o / BSIZE), AddrAt(sb, f, i, o / BSIZE));
    forall y | o <= y < o + m
      ensures ByteAt(sb, f, i, y) == f.store[AddrAt(sb, f, i, o / BSIZE)][y - o + o % BSIZE]
    {
      assert y / BSIZE == o / BSIZE && y % BSIZE == y - o + o % BSIZE;
    }
  }

  lemma LogThen(sb: Superblock, f: Fs, f1: Fs, f': Fs, i: nat, bn: nat, a: nat, ind: nat)
    requires Owning(sb, f, {}) && Owning(sb, f1, {}) && i < sb.ninodes && NDIRECT <= bn < MAXFILE
    requires Grows(sb, f, f1, i) && Mapped(sb, f1, f', i, bn, a) && f1.ino[i].addrs[INDIRECT] == ind && ind != 0
    requires AddrAt(sb, f, i, bn) != 0 ==> AddrAt(sb, f1, i, bn) != 0
    ensures Shape(sb, f') && MapLog(sb, f1, f', i, bn, a) + {ind, BBlock(sb, ind)} <= MapLog(sb, f, f', i, bn, a)
  {
    assert Slot(sb, f1, i, INDIRECT) == ind;
    assert Slot(sb, f', i, INDIRECT) == ind;
    assert AddrAt(sb, f1, i, bn) == 0 ==> AddrAt(sb, f, i, bn) == 0;
  }

  /** What bmap leaves: block bn of i is at address a, no byte of any file has changed, nobody lost
      a block, and only inode i's addresses may have. */
  ghost predicate Mapped(sb: Superblock, f: Fs, f': Fs, i: nat, bn: nat, a: nat)
    requires Owning(sb, f, {}) && i < sb.ninodes && bn < MAXFILE
  {
    && Owning(sb, f', {}) && AddrAt(sb, f', i, bn) == a && a != 0 && SameBytes(sb, f, f')
    && Grows(sb, f, f', i) && SameInodes(sb, f, f')
    && f'.ino == f.ino[i := f.ino[i].(addrs := f'.ino[i].addrs)]
  }

  /** The blocks before the bitmap, which hold the inodes on disk, are as they were. */
  ghost predicate SameInodes(sb: Superblock, f: Fs, f': Fs)
    requires Shape(sb, f) && Shape(sb, f')
  {
    forall b :: 0 <= b < sb.bmapstart ==> f'.store[b] == f.store[b]
  }

  /** No slot in use changed, and only slots of inode i were filled. */
  ghost predicate Grows(sb: Superblock, f: Fs, f': Fs, i: nat)
    requires Shape(sb, f) && Shape(sb, f')
  {
    forall j, k :: 0 <= j < sb.ninodes && 0 <= k < NSLOTS && (j != i || Slot(sb, f, j, k) != 0) ==>
      Slot(sb, f', j, k) == Slot(sb, f, j, k)
  }

  /** Blocks bmap may pass to log_write: the new block and its bitmap block, the indirect block and
      its bitmap block. */
  ghost function MapLog(sb: Superblock, f: Fs, f': Fs, i: nat, bn: nat, a: nat): set<nat>
    requires Shape(sb, f) && Shape(sb, f') && i < sb.ninodes && bn < MAXFILE
  {
    var ind := f'.ino[i].addrs[INDIRECT];
    {a} + (if AddrAt(sb, f, i, bn) == 0 then {BBlock(sb, a)} else {})
    + (if bn >= NDIRECT then {ind, BBlock(sb, ind)} else {})
  }

  /** Filling an empty slot after an allocation. */
  lemma MappedBy(sb: Superblock, f: Fs, f1: Fs, f': Fs, i: nat, bn: nat, k: nat, a: nat)
    requires Owning(sb, f, {}) && Shape(sb, f1) && Owning(sb, f', {}) && i < sb.ninodes && bn < MAXFILE
    requires k == SlotOf(bn)
    requires SameSlots(sb, f, f1) && SameBytes(sb, f, f1) && SameBytes(sb, f1, f') && Fills(sb, f1, f', i, k, a)
    requires a != 0
    requires SameInodes(sb, f, f1) && SameInodes(sb, f1, f')
    requires f'.ino == f.ino[i := f.ino[i].(addrs := f'.ino[i].addrs)]
    ensures Mapped(sb, f, f', i, bn, a)
  {}

  lemma MappedThen(sb: Superblock, f: Fs, f1: Fs, f': Fs, i: nat, bn: nat, a: nat)
    requires Owning(sb, f, {}) && Owning(sb, f1, {}) && i < sb.ninodes && bn < MAXFILE
    requires SameBytes(sb, f, f1) && Grows(sb, f, f1, i) && SameInodes(sb, f, f1) && Mapped(sb, f1, f', i, bn, a)
    requires f1.ino == f.ino[i := f.ino[i].(addrs := f1.ino[i].addrs)]
    ensures Mapped(sb, f, f', i, bn, a)
  {
    forall j, o | 0 <= j < sb.ninodes && 0 <= o < MAXFILE * BSIZE ensures ByteAt(sb, f', j, o) == ByteAt(sb, f, j, o) {
      assert ByteAt(sb, f1, j, o) == ByteAt(sb, f, j, o);
    }
    forall j, k | 0 <= j < sb.ninodes && 0 <= k < NSLOTS && (j != i || Slot(sb, f, j, k) != 0)
      ensures Slot(sb, f', j, k) == Slot(sb, f, j, k)
    {
      assert Slot(sb, f1, j, k) == Slot(sb, f, j, k);
    }
  }

  // ----- which of a file's blocks a transaction has logged

  /** A block with some of its bytes replaced. */
  function Spliced(data: Block, at: nat, bytes: seq<byte>): Block
    requires at + |bytes| <= BSIZE
  {
    data[..at] + bytes + data[at + |bytes|..]
  }

  /** Every block that inode i has gained was given to log_write. */
  ghost predicate NewLogged(sb: Superblock, f: Fs, f': Fs, i: nat, logged: set<nat>)
    requires Shape(sb, f) && Shape(sb, f') && i < sb.ninodes
  {
    forall k :: 0 <= k < NSLOTS && Slot(sb, f, i, k) == 0 && Slot(sb, f', i, k) != 0 ==> Slot(sb, f', i, k) in logged
  }

  lemma NewBy(sb: Superblock, f: Fs, f1: Fs, f': Fs, i: nat, k: nat, a: nat, logged: set<nat>)
    requires Shape(sb, f) && Shape(sb, f1) && Shape(sb, f') && i < sb.ninodes
    requires SameSlots(sb, f, f1) && Fills(sb, f1, f', i, k, a) && a in logged
    ensures NewLogged(sb, f, f', i, logged)
  {
    forall m | 0 <= m < NSLOTS && m != k ensures Slot(sb, f', i, m) == Slot(sb, f, i, m) {
      assert Slot(sb, f1, i, m) == Slot(sb, f, i, m);
    }
  }

  lemma NewThen(sb: Superblock, f: Fs, f1: Fs, f': Fs, i: nat, logged1: set<nat>, logged: set<nat>)
    requires Shape(sb, f) && Shape(sb, f1) && Shape(sb, f') && i < sb.ninodes
    requires NewLogged(sb, f, f1, i, logged1) && NewLogged(sb, f1, f', i, logged) && logged1 <= logged
    requires Grows(sb, f1, f', i)
    ensures NewLogged(sb, f, f', i, logged)
  {
    forall k | 0 <= k < NSLOTS && Slot(sb, f, i, k) == 0 && Slot(sb, f', i, k) != 0
      ensures Slot(sb, f', i, k) in logged
    {
      if Slot(sb, f1, i, k) != 0 { assert Slot(sb, f', i, k) == Slot(sb, f1, i, k); }
    }
  }

  lemma NewMapped(sb: Superblock, f: Fs, f1: Fs, f': Fs, i: nat, bn: nat, a: nat, logged1: set<nat>, logged: set<nat>)
    requires Shape(sb, f) && Owning(sb, f1, {}) && i < sb.ninodes && bn < MAXFILE && Mapped(sb, f1, f', i, bn, a)
    requires NewLogged(sb, f, f1, i, logged1) && NewLogged(sb, f1, f', i, logged) && logged1 <= logged
    ensures NewLogged(sb, f, f', i, logged)
  {
    NewThen(sb, f, f1, f', i, logged1, logged);
  }

  lemma NewSame(sb: Superblock, f: Fs, f1: Fs, f': Fs, i: nat, logged1: set<nat>, logged: set<nat>)
    requires Shape(sb, f) && Shape(sb, f1) && Shape(sb, f') && i < sb.ninodes
    requires NewLogged(sb, f, f1, i, logged1) && logged1 <= logged && SameSlots(sb, f1, f')
    ensures NewLogged(sb, f, f', i, logged)
  {
    forall k | 0 <= k < NSLOTS && Slot(sb, f, i, k) == 0 && Slot(sb, f', i, k) != 0
      ensures Slot(sb, f', i, k) in logged
    {
      assert Slot(sb, f', i, k) == Slot(sb, f1, i, k);
    }
  }

  /** Blocks that inode i has gained since f are logged, and of the blocks that it had in f for block number
      `from` and beyond, none but those of earlier. */
  ghost predicate Marks(sb: Superblock, f: Fs, f': Fs, i: nat, from: nat, earlier: set<nat>, logged: set<nat>)
    requires Shape(sb, f) && Shape(sb, f') && i < sb.ninodes
  {
    && earlier <= logged && NewLogged(sb, f, f', i, logged)
    && forall bn :: from <= bn < MAXFILE && AddrAt(sb, f, i, bn) != 0 && AddrAt(sb, f, i, bn) in logged ==>
         AddrAt(sb, f, i, bn) in earlier
  }

  lemma NoMarks(sb: Superblock, f: Fs, i: nat, from: nat, logged: set<nat>)
    requires Shape(sb, f) && i < sb.ninodes
    ensures Marks(sb, f, f, i, from, logged, logged)
  {}

  /** What bmap and log_write of block bn0 log is no other block of the file. */
  lemma MarksMore(sb: Superblock, f: Fs, f1: Fs, f2: Fs, i: nat, bn0: nat, a: nat, earlier: set<nat>, before: set<nat>,
                  after: set<nat>)
    requires Owning(sb, f, {}) && Owning(sb, f1, {}) && Owning(sb, f2, {}) && i < sb.ninodes && bn0 < MAXFILE
    requires Grows(sb, f, f1, i) && Grows(sb, f1, f2, i) && AddrAt(sb, f2, i, bn0) == a != 0
    requires Marks(sb, f, f1, i, bn0, earlier, before) && NewLogged(sb, f1, f2, i, after)
    requires before <= after <= before + MapLog(sb, f1, f2, i, bn0, a)
    ensures Marks(sb, f, f2, i, bn0 + 1, earlier, after)
  {
    NewThen(sb, f, f1, f2, i, before, after);
    forall bn | bn0 < bn < MAXFILE && AddrAt(sb, f, i, bn) != 0 && AddrAt(sb, f, i, bn) in after
      ensures AddrAt(sb, f, i, bn) in earlier
    {
      OtherBlock(sb, f, f1, f2, i, bn0, a, bn);
    }
  }

  lemma OtherBlock(sb: Superblock, f: Fs, f1: Fs, f2: Fs, i: nat, bn0: nat, a: nat, bn: nat)
    requires Owning(sb, f, {}) && Owning(sb, f1, {}) && Owning(sb, f2, {}) && i < sb.ninodes && bn0 < bn < MAXFILE
    requires Grows(sb, f, f1, i) && Grows(sb, f1, f2, i) && AddrAt(sb, f2, i, bn0) == a != 0
    requires AddrAt(sb, f, i, bn) != 0
    ensures AddrAt(sb, f, i, bn) !in MapLog(sb, f1, f2, i, bn0, a)
  {
    var c := AddrAt(sb, f, i, bn);
    assert Slot(sb, f1, i, SlotOf(bn)) == c;
    assert Slot(sb, f2, i, SlotOf(bn)) == c;
    assert Uses(sb, f2, i, SlotOf(bn), c) && Uses(sb, f2, i, SlotOf(bn0), a);
    BBlockRange(sb, a);
    if bn0 >= NDIRECT {
      var ind := f2.ino[i].addrs[INDIRECT];
      assert ind != 0 && Slot(sb, f2, i, INDIRECT) == ind;
      assert Uses(sb, f2, i, INDIRECT, ind);
      BBlockRange(sb, ind);
    }
  }

  /** One more piece, if another follows it. */
  lemma MarksNext(sb: Superblock, f: Fs, f1: Fs, f2: Fs, i: nat, off: nat, src: seq<byte>, tot: nat, m: nat, it: nat,
                  data: set<nat>, bits: set<nat>, a: nat, booked: set<nat>, earlier: set<nat>, before: set<nat>,
                    after: set<nat>)
    requires Owning(sb, f, {}) && Owning(sb, f1, {}) && i < sb.ninodes && off + |src| <= MAXFILE * BSIZE && tot < |src|
    requires Progress(sb, f, f1, i, off, src, tot, booked, it, data, bits)
    requires m == Min(|src| - tot, BSIZE - (off + tot) % BSIZE) && (off + tot) / BSIZE < MAXFILE
    requires Wrote(sb, f1, f2, i, off + tot, src[tot..tot + m]) && AddrAt(sb, f2, i, (off + tot) / BSIZE) == a != 0
    requires Marks(sb, f, f1, i, (off + tot) / BSIZE, earlier, before) && NewLogged(sb, f1, f2, i, after)
    requires before <= after <= before + MapLog(sb, f1, f2, i, (off + tot) / BSIZE, a)
    ensures Shape(sb, f2) && (tot + m < |src| ==> Marks(sb, f, f2, i, (off + tot + m) / BSIZE, earlier, after))
  {
    hide Marks, MapLog, Booked, Covers, Aligned, SlotsOk, BitmapOk, AddrAt, NewLogged, Grows;
    MarksMore(sb, f, f1, f2, i, (off + tot) / BSIZE, a, earlier, before, after);
    if tot + m < |src| {
      NextBlock(off + tot);
    }
  }

  lemma OffsetIn(o: nat, k: nat)
    requires k < BSIZE - o % BSIZE
    ensures (o + k) / BSIZE == o / BSIZE && (o + k) % BSIZE == o % BSIZE + k
  {}

  lemma NextBlock(o: nat)
    ensures (o + (BSIZE - o % BSIZE)) / BSIZE == o / BSIZE + 1
  {}

  /** The fault leaves nothing unlogged: no byte came, the block is new or already logged in this transaction,
      or the bytes make it what it was when the transaction began. */
  ghost predicate FaultOk(sb: Superblock, f: Fs, i: nat, o: nat, bytes: seq<byte>, logged: set<nat>, start: seq<Block>)
  {
    && Shape(sb, f) && i < sb.ninodes && o / BSIZE < MAXFILE && o % BSIZE + |bytes| <= BSIZE && |start| == sb.size
    && var a := AddrAt(sb, f, i, o / BSIZE);
       bytes == [] || a == 0 || a in logged || (a < sb.size && Spliced(f.store[a], o % BSIZE, bytes) == start[a])
  }

  lemma InsideMapped(sb: Superblock, f: Fs, i: nat, o: nat)
    requires Healthy(sb, f) && i < sb.ninodes && o < f.ino[i].size
    ensures o / BSIZE < MAXFILE && sb.datastart <= AddrAt(sb, f, i, o / BSIZE) < sb.size
  {
    NoHoleAt(sb, f, i, o);
    AddrInRange(sb, f, i, o / BSIZE);
  }

  lemma TornCase(sb: Superblock, f: Fs, i: nat, off: nat, src: seq<byte>, avail: nat, k: nat)
    requires Healthy(sb, f) && i < sb.ninodes && off < f.ino[i].size && off + |src| <= MAXFILE * BSIZE
    requires k < avail < Min(|src|, BSIZE - off % BSIZE) && ByteAt(sb, f, i, off + k) != src[k]
    ensures !FaultOk(sb, f, i, off, src[0..avail], {}, f.store)
  {
    hide NoHoles, SlotsOk, BitmapOk;
    InsideMapped(sb, f, i, off);
    OffsetIn(off, k);
    var a := AddrAt(sb, f, i, off / BSIZE);
    assert f.store[a][off % BSIZE + k] != src[k];
    assert Spliced(f.store[a], off % BSIZE, src[0..avail])[off % BSIZE + k] == src[k];
  }

  /** The data block of inode i at offset o was changed since start and not given to log_write. */
  ghost predicate TornIn(sb: Superblock, f: Fs, i: nat, o: nat, logged: set<nat>, start: seq<Block>) {
    && Shape(sb, f) && i < sb.ninodes && o / BSIZE < MAXFILE && |start| == sb.size
    && var a := AddrAt(sb, f, i, o / BSIZE);
       sb.datastart <= a < sb.size && f.store[a] != start[a] && a !in logged
  }

  /** The pieces written before it make no difference to that. */
  lemma FaultSame(sb: Superblock, f: Fs, f1: Fs, i: nat, off: nat, src: seq<byte>, tot: nat, avail: nat,
                  earlier: set<nat>, logged: set<nat>,
                  it: nat, data: set<nat>, bits: set<nat>, booked: set<nat>, start: seq<Block>)
    requires Owning(sb, f, {}) && Owning(sb, f1, {}) && i < sb.ninodes && off + |src| <= MAXFILE * BSIZE
    requires tot <= avail < |src|
    requires Progress(sb, f, f1, i, off, src, tot, booked, it, data, bits)
    requires avail < tot + Min(|src| - tot, BSIZE - (off + tot) % BSIZE) && (off + tot) / BSIZE < MAXFILE
    requires |start| == sb.size
    requires Marks(sb, f, f1, i, (off + tot) / BSIZE, earlier, logged)
    ensures FaultOk(sb, f1, i, off + tot, src[tot..avail], logged, start)
       <==> FaultOk(sb, f, i, off + tot, src[tot..avail], earlier, start)
  {
    var bn := (off + tot) / BSIZE;
    var a := AddrAt(sb, f, i, bn);
    StopAligned(off, tot, |src|, it);
    assert AddrAt(sb, f1, i, bn) == Slot(sb, f1, i, SlotOf(bn));
    if a != 0 {
      assert AddrAt(sb, f1, i, bn) == a;
      SameBlock(sb, f, f1, i, off, src[..tot], bn);
    }
  }

  lemma SameBlock(sb: Superblock, f: Fs, f1: Fs, i: nat, off: nat, bytes: seq<byte>, bn: nat)
    requires Owning(sb, f, {}) && i < sb.ninodes && bn < MAXFILE && off + |bytes| <= MAXFILE * BSIZE
    requires Wrote(sb, f, f1, i, off, bytes)
    requires AddrAt(sb, f, i, bn) != 0 && (bytes == [] || off + |bytes| <= bn * BSIZE)
    ensures AddrAt(sb, f, i, bn) < sb.size && f1.store[AddrAt(sb, f, i, bn)] == f.store[AddrAt(sb, f, i, bn)]
  {
    var a := AddrAt(sb, f, i, bn);
    AddrInRange(sb, f, i, bn);
    assert AddrAt(sb, f1, i, bn) == a by { assert Slot(sb, f1, i, SlotOf(bn)) == a; }
    forall x | 0 <= x < BSIZE ensures f1.store[a][x] == f.store[a][x] {
      var o := bn * BSIZE + x;
      assert o / BSIZE == bn && o % BSIZE == x;
      assert ByteAt(sb, f1, i, o) == ByteAt(sb, f, i, o);
    }
  }
}
