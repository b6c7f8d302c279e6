/** Disk blocks as byte strings, the little-endian 32-bit words the kernel lays over them, and
    the on-disk log header written in those words. */
module Blocks {

  const BSIZE: nat := 1024

  const WORDS: nat := 256 // words in a block

  const TWO32: nat := 0x1_0000_0000

  const ROOTINO: nat := 1 // the root directory's inode number

  type byte = x: int | 0 <= x < 256

  type Block = b: seq<byte> | |b| == BSIZE witness seq(BSIZE, _ => 0)

  function Min(a: nat, b: nat): nat { if a < b then a else b }

  function Max(a: nat, b: nat): nat { if a < b then b else a }

  datatype Option<+T> = None | Some(value: T)

  const ZERO: Block := seq(BSIZE, _ => 0)

  function FromBytes(b0: int, b1: int, b2: int, b3: int): int {
    b0 + 0x100 * b1 + 0x1_0000 * b2 + 0x100_0000 * b3
  }

  lemma BytesOfWord(w: nat)
    requires w < TWO32
    ensures FromBytes(w % 0x100, w / 0x100 % 0x100, w / 0x1_0000 % 0x100, w / 0x100_0000) == w
  {
    var q := w / 0x100;
    assert w / 0x1_0000 == q / 0x100 && w / 0x100_0000 == q / 0x1_0000;
    var q2 := q / 0x100;
    assert q / 0x1_0000 == q2 / 0x100;
  }

  /** The word at index i of a block, read as a little-endian unsigned integer. */
  function WordAt(b: Block, i: nat): (w: nat)
    requires i < WORDS
    ensures w < TWO32
  {
    FromBytes(b[4 * i], b[4 * i + 1], b[4 * i + 2], b[4 * i + 3])
  }

  function PutWord(b: Block, i: nat, w: nat): Block
    requires i < WORDS && w < TWO32
  {
    b[4 * i := w % 0x100]
     [4 * i + 1 := w / 0x100 % 0x100]
     [4 * i + 2 := w / 0x1_0000 % 0x100]
     [4 * i + 3 := w / 0x100_0000]
  }

  /** Storing a word changes exactly that word. */
  lemma WordPut(b: Block, i: nat, w: nat, j: nat)
    requires i < WORDS && j < WORDS && w < TWO32
    ensures WordAt(PutWord(b, i, w), j) == if i == j then w else WordAt(b, j)
  {
    BytesOfWord(w);
  }

  /** Stores entries[..k] in the words that follow the count. */
  function PutEntries(b: Block, entries: seq<nat>, k: nat): Block
    requires k <= |entries| < WORDS
    requires forall i :: 0 <= i < |entries| ==> entries[i] < TWO32
    decreases k
  {
    if k == 0 then b else PutWord(PutEntries(b, entries, k - 1), k, entries[k - 1])
  }

  /** The header block write_head builds: only the count and the first n entries are stored,
      the rest of the buffer keeps its bytes. */
  function EncodeHead(b: Block, entries: seq<nat>): Block
    requires |entries| < WORDS
    requires forall i :: 0 <= i < |entries| ==> entries[i] < TWO32
  {
    PutEntries(PutWord(b, 0, |entries|), entries, |entries|)
  }

  /** The list of block numbers read_head finds in a header block. */
  function DecodeHead(b: Block): seq<nat>
    requires WordAt(b, 0) < WORDS
  {
    seq(WordAt(b, 0), i requires 0 <= i < WordAt(b, 0) => WordAt(b, i + 1))
  }

  lemma {:induction false} PutEntriesWords(b: Block, entries: seq<nat>, k: nat, j: nat)
    requires k <= |entries| < WORDS && j < WORDS
    requires forall i :: 0 <= i < |entries| ==> entries[i] < TWO32
    ensures WordAt(PutEntries(b, entries, k), j) == if 1 <= j <= k then entries[j - 1] else WordAt(b, j)
    decreases k
  {
    hide WordAt, PutWord;
    if k > 0 {
      PutEntriesWords(b, entries, k - 1, j);
      WordPut(PutEntries(b, entries, k - 1), k, entries[k - 1], j);
    }
  }

  /** read_head undoes write_head, whatever the buffer held before. */
  lemma HeadRoundTrip(b: Block, entries: seq<nat>)
    requires |entries| < WORDS
    requires forall i :: 0 <= i < |entries| ==> entries[i] < TWO32
    ensures WordAt(EncodeHead(b, entries), 0) == |entries|
    ensures DecodeHead(EncodeHead(b, entries)) == entries
  {
    hide WordAt, PutWord, PutEntries;
    var b0 := PutWord(b, 0, |entries|);
    WordPut(b, 0, |entries|, 0);
    PutEntriesWords(b0, entries, |entries|, 0);
    forall i | 0 <= i < |entries|
      ensures WordAt(EncodeHead(b, entries), i + 1) == entries[i]
    {
      PutEntriesWords(b0, entries, |entries|, i + 1);
    }
  }
}
