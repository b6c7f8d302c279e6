/** The tree of a new image: what mkfs's root directory reads back as, and when the link counts are right. */
module FreshTree {
  import opened Blocks
  import opened FsFormat
  import opened FsState
  import opened DirFormat
  import opened DirTree
  import DirCode
  import Links
  import Mkfs
  import Paths

  /** The name of a file as its entry has it: at most DIRSIZ of its bytes. */
  function Short(b: seq<byte>): string {
    var n := Min(Paths.DIRSIZ, |b|);
    seq(n, k requires 0 <= k < n => b[k] as char)
  }

  /** A C string. */
  predicate NoNul(b: seq<byte>) { forall k :: 0 <= k < |b| ==> b[k] != 0 }

  /** Entry k of a new root directory. */
  function RootEntry(files: seq<(seq<byte>, seq<byte>)>, k: nat): Paths.Entry {
    if k == 0 then Paths.Entry(ROOTINO, ".")
    else if k == 1 then Paths.Entry(ROOTINO, "..")
    else if k < |files| + 2 then Paths.Entry(k, Short(files[k - 2].0))
    else Paths.Entry(0, "")
  }

  lemma DirentReads(inum: nat, b: seq<byte>)
    requires inum < 65536 && NoNul(b)
    ensures Decode(Dirent(inum, b)) == Paths.Entry(inum, Short(b))
  {
    var s := Short(b);
    assert BytesOf(s) == b[..Min(Paths.DIRSIZ, |b|)];
    assert Dirent(inum, BytesOf(s)) == Dirent(inum, b);
    EntryRound(inum, s);
  }

  lemma {:induction false} RootSlice(files: seq<(seq<byte>, seq<byte>)>, n: nat, k: nat)
    requires n <= |files| < 65534 && k < n + 2 && forall j :: 0 <= j < |files| ==> NoNul(files[j].0)
    ensures Decode(Mkfs.RootBytes(files, n)[16 * k..16 * (k + 1)]) == RootEntry(files, k)
    decreases n
  {
    var root := Mkfs.RootBytes(files, n);
    hide Decode, Dirent;
    if n == 0 {
      var dot, dots := [Mkfs.DOT], [Mkfs.DOT, Mkfs.DOT];
      assert Short(dot) == "." && Short(dots) == "..";
      DirentReads(ROOTINO, dot);
      DirentReads(ROOTINO, dots);
      assert root[0..16] == Dirent(ROOTINO, dot) && root[16..32] == Dirent(ROOTINO, dots);
    } else if k == n + 1 {
      DirentReads(ROOTINO + n, files[n - 1].0);
      assert root[16 * k..16 * (k + 1)] == Dirent(ROOTINO + n, files[n - 1].0);
    } else {
      RootSlice(files, n - 1, k);
      assert root[16 * k..16 * (k + 1)] == Mkfs.RootBytes(files, n - 1)[16 * k..16 * (k + 1)];
    }
  }

  /** The root directory's bytes, then zeros. */
  ghost predicate Padded(c: seq<byte>, root: seq<byte>) {
    forall o :: 0 <= o < |c| ==> c[o] == if o < |root| then root[o] else 0
  }

  lemma PaddedHead(c: seq<byte>, root: seq<byte>, a: nat, b: nat)
    requires Padded(c, root) && a <= b <= |c| && b <= |root|
    ensures c[a..b] == root[a..b]
  {}

  lemma PaddedTail(c: seq<byte>, root: seq<byte>, a: nat)
    requires Padded(c, root) && |root| <= a && a + 16 <= |c|
    ensures Decode(c[a..a + 16]) == Paths.Entry(0, "")
  {
    ZeroEntry(c[a..a + 16]);
  }

  lemma PaddedEntry(c: seq<byte>, files: seq<(seq<byte>, seq<byte>)>, k: nat)
    requires Padded(c, Mkfs.RootBytes(files, |files|)) && 16 * (k + 1) <= |c|
    requires |files| < 65534 && forall j :: 0 <= j < |files| ==> NoNul(files[j].0)
    ensures Decode(c[16 * k..16 * (k + 1)]) == RootEntry(files, k)
  {
    hide *;
    var root := Mkfs.RootBytes(files, |files|);
    if k < |files| + 2 {
      PaddedHead(c, root, 16 * k, 16 * (k + 1));
      RootSlice(files, |files|, k);
    } else {
      PaddedTail(c, root, 16 * k);
      FreeRoot(files, k);
    }
  }

  lemma FreeRoot(files: seq<(seq<byte>, seq<byte>)>, k: nat)
    requires k >= |files| + 2
    ensures RootEntry(files, k) == Paths.Entry(0, "")
  {}

  lemma RootContent(sb: Superblock, f: Fs, files: seq<(seq<byte>, seq<byte>)>)
    requires Healthy(sb, f) && Mkfs.RootHas(sb, f, files)
    ensures Padded(Content(sb, f, ROOTINO), Mkfs.RootBytes(files, |files|))
  {
    hide SlotsOk, BitmapOk, NoHoles, Mkfs.RootBytes;
  }

  /** The root directory of a new image: the dots, the files in order, and free entries. */
  lemma RootEntries(sb: Superblock, f: Fs, files: seq<(seq<byte>, seq<byte>)>, k: nat)
    requires Healthy(sb, f) && Mkfs.RootHas(sb, f, files) && k < |DirCode.Dir(sb, f, ROOTINO)|
    requires |files| < 65534 && forall j :: 0 <= j < |files| ==> NoNul(files[j].0)
    ensures DirCode.Dir(sb, f, ROOTINO)[k] == RootEntry(files, k)
  {
    var c := Content(sb, f, ROOTINO);
    hide Healthy, Decode, NoNul, Content, Mkfs.RootHas, Mkfs.RootBytes, Padded, RootEntry;
    RootContent(sb, f, files);
    PaddedEntry(c, files, k);
    EntryAt(c, k);
  }

  /** What mkfs leaves on the disk. */
  ghost predicate Fresh(sb: Superblock, f: Fs, files: seq<(seq<byte>, seq<byte>)>) {
    && Healthy(sb, f) && Mkfs.RootHas(sb, f, files) && |files| + 2 <= sb.ninodes && Mkfs.UnusedFrom(f.ino, |files| + 2)
    && forall j :: 0 <= j < |files| ==> Mkfs.Has(sb, f, ROOTINO + 1 + j, T_FILE, files[j].1)
  }

  /** The names in the root directory differ from each other and from the dots. */
  predicate Apart(files: seq<(seq<byte>, seq<byte>)>) {
    forall j, k :: 0 <= j < k < |files| + 2 ==> RootEntry(files, j).name != RootEntry(files, k).name
  }

  /** The tree of a new image. */
  ghost predicate IsFresh(t: Paths.Tree, files: seq<(seq<byte>, seq<byte>)>) {
    && (forall i :: i in t <==> 0 < i < |files| + 2)
    && t[ROOTINO].kind == Paths.Dir && t[ROOTINO].nlink == 1 && |t[ROOTINO].entries| >= |files| + 2
    && (forall k :: 0 <= k < |t[ROOTINO].entries| ==> t[ROOTINO].entries[k] == RootEntry(files, k))
    && (forall i :: 2 <= i < |files| + 2 ==> t[i] == Paths.Ino(Paths.Reg, 1, []))
  }

  lemma FreshTyp(sb: Superblock, f: Fs, files: seq<(seq<byte>, seq<byte>)>, i: nat)
    requires Fresh(sb, f, files) && i < sb.ninodes
    ensures |f.ino| == sb.ninodes
    ensures f.ino[i].typ == if i == ROOTINO then T_DIR else if 2 <= i < |files| + 2 then T_FILE else 0
    ensures 0 < i < |files| + 2 ==> f.ino[i].nlink == 1
  {
    hide Content, SlotsOk, BitmapOk, NoHoles;
    if 2 <= i < |files| + 2 { assert Mkfs.Has(sb, f, ROOTINO + 1 + (i - 2), T_FILE, files[i - 2].1); }
  }

  lemma FreshNodes(sb: Superblock, f: Fs, files: seq<(seq<byte>, seq<byte>)>, i: nat)
    requires Fresh(sb, f, files)
    ensures i in TreeOf(sb, f) <==> 0 < i < |files| + 2
    ensures 0 < i < |files| + 2 ==>
              && i < sb.ninodes && TreeOf(sb, f)[i].nlink == 1
              && TreeOf(sb, f)[i].kind == (if i == ROOTINO then Paths.Dir else Paths.Reg)
              && TreeOf(sb, f)[i].entries == if i == ROOTINO then DirCode.Dir(sb, f, i) else []
  {
    if i < sb.ninodes {
      FreshTyp(sb, f, files, i);
      hide Healthy, Mkfs.RootHas, Mkfs.Has, DirCode.Dir, Mkfs.UnusedFrom, Fresh;
      NodeAt(sb, f, i);
    }
  }

  lemma FreshIs(sb: Superblock, f: Fs, files: seq<(seq<byte>, seq<byte>)>)
    requires Fresh(sb, f, files) && |files| < 65534 && forall j :: 0 <= j < |files| ==> NoNul(files[j].0)
    ensures IsFresh(TreeOf(sb, f), files)
  {
    hide Healthy, NoNul, RootEntry, Mkfs.RootHas, Mkfs.Has, TreeOf, DirCode.Dir;
    var t := TreeOf(sb, f);
    forall i ensures i in t <==> 0 < i < |files| + 2 { if i >= 0 { FreshNodes(sb, f, files, i); } }
    FreshNodes(sb, f, files, ROOTINO);
    RootLength(sb, f, files);
    forall k | 0 <= k < |t[ROOTINO].entries| ensures t[ROOTINO].entries[k] == RootEntry(files, k) {
      RootEntries(sb, f, files, k);
    }
    forall i: nat | 2 <= i < |files| + 2 ensures t[i] == Paths.Ino(Paths.Reg, 1, []) {
      FreshNodes(sb, f, files, i);
    }
  }

  lemma RootLength(sb: Superblock, f: Fs, files: seq<(seq<byte>, seq<byte>)>)
    requires Healthy(sb, f) && Mkfs.RootHas(sb, f, files)
    ensures |DirCode.Dir(sb, f, ROOTINO)| >= |files| + 2 && f.ino[ROOTINO].size % 16 == 0
  {
    assert |Content(sb, f, ROOTINO)| == f.ino[ROOTINO].size;
    hide Healthy, Content, Decode, Mkfs.RootBytes;
    RoundUp(16 * (|files| + 2));
  }

  lemma RoundUp(n: nat)
    ensures (n / BSIZE + 1) * BSIZE >= n && (n / BSIZE + 1) * BSIZE % 16 == 0
  {
    assert (n / BSIZE + 1) * BSIZE == 16 * (64 * (n / BSIZE + 1));
  }

  lemma FreshNames(t: Paths.Tree, files: seq<(seq<byte>, seq<byte>)>, d: nat, k: nat, i: nat)
    requires IsFresh(t, files) && i != 0
    ensures Links.Names(t, d, k, i) <==> d == ROOTINO && 1 <= k < |files| + 2 && i == k
  {}

  lemma FreshBalanced(t: Paths.Tree, files: seq<(seq<byte>, seq<byte>)>)
    requires IsFresh(t, files)
    ensures Links.Balanced(t)
  {
    hide IsFresh, Links.Names;
    forall i | i in t ensures t[i].nlink == |Links.Refs(t, i)| {
      FreshLinks(t, files, i);
      forall d: nat, k: nat ensures (d, k) in Links.Refs(t, i) <==> d == ROOTINO && k == i {
        Links.RefsIn(t, i, d, k);
        FreshNames(t, files, d, k, i);
      }
      assert Links.Refs(t, i) == {(ROOTINO, i)};
    }
  }

  lemma FreshLinks(t: Paths.Tree, files: seq<(seq<byte>, seq<byte>)>, i: nat)
    requires IsFresh(t, files) && i in t
    ensures t[i].nlink == 1 && 0 < i < |files| + 2
  {}

  lemma FreshFormed(t: Paths.Tree, files: seq<(seq<byte>, seq<byte>)>)
    requires IsFresh(t, files)
    ensures Links.Formed(t) <==> Apart(files)
  {
    forall d, k, i | Links.Names(t, d, k, i) && i != 0 ensures i in t { FreshNames(t, files, d, k, i); }
    var es := t[ROOTINO].entries;
    assert Links.DirFormed(t, ROOTINO) <==> Apart(files) by {
      if Links.DirFormed(t, ROOTINO) {
        forall j, k | 0 <= j < k < |files| + 2 ensures RootEntry(files, j).name != RootEntry(files, k).name {
          assert es[j].name != es[k].name;
        }
      }
      if Apart(files) {
        forall j, k | 0 <= j < k < |es| && es[j].inum != 0 && es[k].inum != 0 ensures es[j].name != es[k].name {
          assert RootEntry(files, j).name != RootEntry(files, k).name;
        }
      }
    }
    assert Links.IsDir(t, ROOTINO);
  }

  lemma FreshHung(t: Paths.Tree, files: seq<(seq<byte>, seq<byte>)>)
    requires IsFresh(t, files)
    ensures Links.Hung(t)
  {
    assert Links.Linked(t, ROOTINO);
    hide Links.Names;
    forall d, k | k >= 2 ensures !Links.Names(t, d, k, ROOTINO) { FreshNames(t, files, d, k, ROOTINO); }
    forall c, d, k | Links.Linked(t, c) && k >= 2 ensures !Links.Names(t, d, k, c) {}
  }

  /** The tree of a new image is sound exactly when the names, cut to DIRSIZ, differ from each other and from the
      dots; mkfs does not test that. */
  lemma FreshSound(sb: Superblock, f: Fs, files: seq<(seq<byte>, seq<byte>)>)
    requires Fresh(sb, f, files) && |files| < 65534 && forall j :: 0 <= j < |files| ==> NoNul(files[j].0)
    ensures TreeSound(sb, f) <==> Apart(files)
  {
    hide NoNul, TreeOf, Apart, IsFresh, Links.Formed, Links.Hung, Links.Balanced, Mkfs.Has;
    FreshIs(sb, f, files);
    FreshBalanced(TreeOf(sb, f), files);
    FreshFormed(TreeOf(sb, f), files);
    FreshHung(TreeOf(sb, f), files);
    RootLength(sb, f, files);
    hide Mkfs.RootHas, Healthy;
    forall i | 0 <= i < sb.ninodes
      ensures (f.ino[i].typ == 0 ==> Bare(f.ino[i])) && (f.ino[i].typ == T_DIR ==> f.ino[i].size % 16 == 0)
    {
      FreshTyp(sb, f, files, i);
    }
  }

  /** mkfs: the image that it makes has a sound tree exactly when the root directory's entries do not fill whole blocks
      and its names are apart. */
  method Make(img: Mkfs.Image, files: seq<(seq<byte>, seq<byte>)>) returns (ok: bool)
    requires img.Valid() && img.freeinode == 1 && forall j :: 0 <= j < |files| ==> NoNul(files[j].0)
    modifies img
    ensures ok <==> Mkfs.Fits(img.sb, files, old(img.freeblock))
    ensures ok ==> LayoutOk(img.sb) && |img.store| == img.sb.size
    ensures ok ==>
              (TreeSound(img.sb, Fs(img.store, Inos(img.sb, img.store))) <==>
               16 * (|files| + 2) % BSIZE != 0 && Apart(files))
  {
    hide Healthy, Owning, Mkfs.Image.Valid, Mkfs.Has, Mkfs.RootHas, NoNul, Apart, Mkfs.UnusedFrom, TreeOf;
    ok := img.Build(files);
    if ok && 16 * (|files| + 2) % BSIZE != 0 {
      FreshSound(img.sb, Fs(img.store, Inos(img.sb, img.store)), files);
    }
  }
}
