/** The on-disk format of the file system: where things are, the free bitmap, and inodes packed
    into the words of their blocks. */
module FsFormat {
  import opened Blocks

  const NDIRECT: nat := 12
  const NINDIRECT: nat := 256
  const MAXFILE: nat := 268
  const BPB: nat := 8192 // bitmap bits per block
  const IPB: nat := 16 // inodes per block

  /** datastart is the number of metadata blocks mkfs sets aside (nmeta). */
  datatype Superblock = Superblock(size: nat, ninodes: nat, inodestart: nat, bmapstart: nat, datastart: nat)

  /** Boot block, superblock, log, inodes, bitmap and data, in that order. */
  predicate LayoutOk(sb: Superblock) {
    && 0 < sb.inodestart
    && sb.inodestart + sb.ninodes / IPB < sb.bmapstart
    && sb.bmapstart + sb.size / BPB < sb.datastart <= sb.size < TWO32
  }

  function IBlock(sb: Superblock, inum: nat): nat { inum / IPB + sb.inodestart }

  function BBlock(sb: Superblock, b: nat): nat { b / BPB + sb.bmapstart }

  // ----- bits

  /** x & (1 << k) != 0 */
  predicate TestBit(x: nat, k: nat) {
    if k == 0 then x % 2 == 1 else TestBit(x / 2, k - 1)
  }

  function Pow2(n: nat): nat { if n == 0 then 1 else 2 * Pow2(n - 1) }

  /** On an n-bit x: x | (1 << k) if on, x & ~(1 << k) otherwise. */
  function PutBit(x: nat, n: nat, k: nat, on: bool): (r: nat)
    requires x < Pow2(n) && k < n
    ensures r < Pow2(n)
  {
    if k == 0 then x / 2 * 2 + (if on then 1 else 0) else PutBit(x / 2, n - 1, k - 1, on) * 2 + x % 2
  }

  lemma {:induction false} PutBitTests(x: nat, n: nat, k: nat, on: bool, j: nat)
    requires x < Pow2(n) && k < n
    ensures TestBit(PutBit(x, n, k, on), j) == if j == k then on else TestBit(x, j)
  {
    if k > 0 && j > 0 {
      assert PutBit(x, n, k, on) / 2 == PutBit(x / 2, n - 1, k - 1, on);
      PutBitTests(x / 2, n - 1, k - 1, on, j - 1);
    }
  }

  /** Setting a clear bit adds its weight and clearing a set one takes it away, as | and & ~ do. */
  lemma {:induction false} PutBitValue(x: nat, n: nat, k: nat, on: bool)
    requires x < Pow2(n) && k < n
    ensures PutBit(x, n, k, on) == x +
            (if on && !TestBit(x, k) then Pow2(k) else if !on && TestBit(x, k) then 0 - Pow2(k) else 0)
  {
    if k > 0 { PutBitValue(x / 2, n - 1, k - 1, on); }
  }

  predicate BlockBit(data: Block, bi: nat)
    requires bi < BPB
  {
    TestBit(data[bi / 8], bi % 8)
  }

  function SetBlockBit(data: Block, bi: nat, on: bool): Block
    requires bi < BPB
  {
    data[bi / 8 := PutBit(data[bi / 8], 8, bi % 8, on)]
  }

  lemma SetBlockBitTests(data: Block, bi: nat, on: bool, c: nat)
    requires bi < BPB && c < BPB
    ensures BlockBit(SetBlockBit(data, bi, on), c) == if c == bi then on else BlockBit(data, c)
  {
    if c / 8 == bi / 8 {
      PutBitTests(data[bi / 8], 8, bi % 8, on, c % 8);
    }
  }

  /** The bitmap's bit for block b. */
  ghost predicate Bit(sb: Superblock, store: seq<Block>, b: nat)
    requires LayoutOk(sb) && |store| == sb.size && b < sb.size
  {
    BlockBit(store[BBlock(sb, b)], b % BPB)
  }

  ghost function WithBit(sb: Superblock, store: seq<Block>, b: nat, on: bool): seq<Block>
    requires LayoutOk(sb) && |store| == sb.size && b < sb.size
  {
    store[BBlock(sb, b) := SetBlockBit(store[BBlock(sb, b)], b % BPB, on)]
  }

  lemma BBlockRange(sb: Superblock, b: nat)
    requires LayoutOk(sb) && b < sb.size
    ensures sb.bmapstart <= BBlock(sb, b) < sb.datastart
  {
    assert b / BPB <= sb.size / BPB;
  }

  /** Writing one bit changes that bit alone. */
  lemma WithBitTests(sb: Superblock, store: seq<Block>, b: nat, on: bool, c: nat)
    requires LayoutOk(sb) && |store| == sb.size && b < sb.size && c < sb.size
    ensures Bit(sb, WithBit(sb, store, b, on), c) == if c == b then on else Bit(sb, store, c)
  {
    BBlockRange(sb, b);
    BBlockRange(sb, c);
    if BBlock(sb, b) == BBlock(sb, c) {
      SetBlockBitTests(store[BBlock(sb, b)], b % BPB, on, c % BPB);
      assert c % BPB == b % BPB ==> c == b;
    }
  }

  // ----- inodes

  const SHORT: nat := 0x1_0000

  /** struct dinode: four shorts, the size, NDIRECT direct addresses and one indirect. */
  datatype Ino = Ino(typ: nat, major: nat, minor: nat, nlink: nat, size: nat, addrs: seq<nat>)

  predicate InoOk(x: Ino) {
    && x.typ < SHORT && x.major < SHORT && x.minor < SHORT && x.nlink < SHORT && x.size < TWO32
    && |x.addrs| == NDIRECT + 1
    && forall k :: 0 <= k < |x.addrs| ==> x.addrs[k] < TWO32
  }

  /** An inode with no size and no blocks. */
  predicate Bare(x: Ino) {
    x.size == 0 && |x.addrs| == NDIRECT + 1 && forall k :: 0 <= k < |x.addrs| ==> x.addrs[k] == 0
  }

  /** The k-th of the sixteen words a dinode occupies. */
  function InoWord(x: Ino, k: nat): nat
    requires InoOk(x) && k < 16
  {
    if k == 0 then x.typ + SHORT * x.major
    else if k == 1 then x.minor + SHORT * x.nlink
    else if k == 2 then x.size
    else x.addrs[k - 3]
  }

  function PutInoWords(data: Block, slot: nat, x: Ino, n: nat): Block
    requires InoOk(x) && slot < IPB && n <= 16
    decreases n
  {
    if n == 0 then data else PutWord(PutInoWords(data, slot, x, n - 1), 16 * slot + n - 1, InoWord(x, n - 1))
  }

  /** Word k of the dinode in the given slot of a block. */
  function SlotWord(data: Block, slot: nat, k: nat): nat
    requires slot < IPB && k < 16
  {
    WordAt(data, 16 * slot + k)
  }

  function GetIno(data: Block, slot: nat): Ino
    requires slot < IPB
  {
    var w0, w1 := SlotWord(data, slot, 0), SlotWord(data, slot, 1);
    Ino(w0 % SHORT, w0 / SHORT, w1 % SHORT, w1 / SHORT, SlotWord(data, slot, 2),
        seq<nat>(NDIRECT + 1, k requires 0 <= k < NDIRECT + 1 => SlotWord(data, slot, k + 3)))
  }

  lemma {:induction false} PutInoWordsAt(data: Block, slot: nat, x: Ino, n: nat, j: nat)
    requires InoOk(x) && slot < IPB && n <= 16 && j < WORDS
    ensures WordAt(PutInoWords(data, slot, x, n), j)
         == if 16 * slot <= j < 16 * slot + n then InoWord(x, j - 16 * slot) else WordAt(data, j)
    decreases n
  {
    if n > 0 {
      PutInoWordsAt(data, slot, x, n - 1, j);
      WordPut(PutInoWords(data, slot, x, n - 1), 16 * slot + n - 1, InoWord(x, n - 1), j);
    }
  }

  /** ilock reads back what iupdate stored, and iupdate leaves the block's other inodes alone. */
  lemma InoRoundTrip(data: Block, slot: nat, x: Ino, other: nat)
    requires InoOk(x) && slot < IPB && other < IPB
    ensures GetIno(PutInoWords(data, slot, x, 16), other) == if other == slot then x else GetIno(data, other)
  {
    hide WordAt, PutWord, PutInoWords;
    var data' := PutInoWords(data, slot, x, 16);
    forall k | 0 <= k < 16
      ensures SlotWord(data', other, k) == if other == slot then InoWord(x, k) else SlotWord(data, other, k)
    {
      PutInoWordsAt(data, slot, x, 16, 16 * other + k);
    }
    var y, z := GetIno(data', other), if other == slot then x else GetIno(data, other);
    assert y.addrs == z.addrs;
  }

  function DiskIno(sb: Superblock, store: seq<Block>, inum: nat): Ino
    requires LayoutOk(sb) && |store| == sb.size && inum < sb.ninodes
  {
    GetIno(store[IBlock(sb, inum)], inum % IPB)
  }

  /** All the inodes as the disk has them. */
  ghost function Inos(sb: Superblock, store: seq<Block>): seq<Ino>
    requires LayoutOk(sb) && |store| == sb.size
  {
    seq(sb.ninodes, i requires 0 <= i < sb.ninodes => DiskIno(sb, store, i))
  }

  lemma IBlockRange(sb: Superblock, inum: nat)
    requires LayoutOk(sb) && inum < sb.ninodes
    ensures sb.inodestart <= IBlock(sb, inum) < sb.bmapstart
  {
    assert inum / IPB <= sb.ninodes / IPB;
  }
}
