/** The tree that a disk's directories stand for, and what the transactions of `DirCode` do to it. */
module DirTree {
  import opened Blocks
  import opened FsFormat
  import opened FsState
  import opened FsCode
  import opened DirFormat
  import opened DirCode
  import Paths
  import Links

  function KindOf(typ: nat): Paths.Kind {
    if typ == T_DIR then Paths.Dir else if typ == T_FILE then Paths.Reg else Paths.Dev
  }

  ghost function Node(sb: Superblock, f: Fs, i: nat): Paths.Ino
    requires Healthy(sb, f) && i < sb.ninodes
  {
    Paths.Ino(KindOf(f.ino[i].typ), f.ino[i].nlink, if f.ino[i].typ == T_DIR then Dir(sb, f, i) else [])
  }

  /** The inodes in use, with the entries of the directories. */
  ghost function TreeOf(sb: Superblock, f: Fs): Paths.Tree
    requires Healthy(sb, f)
  {
    map i: nat | 0 <= i < sb.ninodes && f.ino[i].typ != 0 :: Node(sb, f, i)
  }

  lemma OtherNodes(sb: Superblock, f: Fs, f': Fs, i: nat, d: nat)
    requires Healthy(sb, f) && Healthy(sb, f')
    requires forall j :: 0 <= j < sb.ninodes && j != d && j != i ==>
               && f'.ino[j].typ == f.ino[j].typ && f'.ino[j].nlink == f.ino[j].nlink
               && Content(sb, f', j) == Content(sb, f, j)
    ensures TreeOf(sb, f') - {i, d} == TreeOf(sb, f) - {i, d}
  {
    hide EntriesOf, Content, SlotsOk, BitmapOk, NoHoles;
    var t, t' := TreeOf(sb, f) - {i, d}, TreeOf(sb, f') - {i, d};
    forall j: nat ensures j in t' <==> j in t {}
    forall j: nat | j in t' ensures t'[j] == t[j] {}
  }

  /** A tree is determined by two of its nodes and the rest. */
  lemma SameTree(t: Paths.Tree, u: Paths.Tree, i: nat, d: nat)
    requires t - {i, d} == u - {i, d} && (i in t <==> i in u) && (d in t <==> d in u)
    requires (i in t ==> t[i] == u[i]) && (d in t ==> t[d] == u[d])
    ensures t == u
  {
    forall j | j in t ensures j in u && t[j] == u[j] {
      if j != i && j != d { assert j in t - {i, d} && (u - {i, d})[j] == u[j]; }
    }
    forall j | j in u ensures j in t {
      if j != i && j != d { assert j in u - {i, d}; }
    }
  }

  lemma NodeAt(sb: Superblock, f: Fs, i: nat)
    requires Healthy(sb, f) && i < sb.ninodes
    ensures |f.ino| == sb.ninodes && (i in TreeOf(sb, f) <==> f.ino[i].typ != 0)
    ensures f.ino[i].typ != 0 ==> TreeOf(sb, f)[i] == Node(sb, f, i)
  {
    hide EntriesOf, Content;
  }

  lemma LinkNodes(sb: Superblock, f: Fs, f': Fs, i: nat, d: nat, k: nat, e: Paths.Entry)
    requires Healthy(sb, f) && i < sb.ninodes && d < sb.ninodes && LinkMade(sb, f, f', i, d, k, e)
    requires f.ino[i].typ != T_DIR && f.ino[d].typ == T_DIR
    ensures Healthy(sb, f') && i != d && k <= |Node(sb, f, d).entries| && f'.ino[i].typ == f.ino[i].typ
    ensures f'.ino[d].typ == T_DIR && TreeOf(sb, f') - {i, d} == TreeOf(sb, f) - {i, d}
    ensures Node(sb, f', i) == Node(sb, f, i).(nlink := f.ino[i].nlink + 1)
    ensures Node(sb, f', d) == Node(sb, f, d).(entries := Links.Put(Dir(sb, f, d), k, e))
  {
    hide EntriesOf, SlotsOk, BitmapOk, NoHoles, Content;
    OtherNodes(sb, f, f', i, d);
  }

  /** sys_link on the disk is sys_link on the tree. */
  lemma LinkTree(sb: Superblock, f: Fs, f': Fs, i: nat, d: nat, k: nat, e: Paths.Entry)
    requires Healthy(sb, f) && i < sb.ninodes && d < sb.ninodes && LinkMade(sb, f, f', i, d, k, e)
    requires f.ino[i].typ != 0 && f.ino[i].typ != T_DIR && f.ino[d].typ == T_DIR
    ensures Healthy(sb, f') && i in TreeOf(sb, f) && d in TreeOf(sb, f) && k <= |TreeOf(sb, f)[d].entries|
    ensures TreeOf(sb, f') ==
            Links.WithEntry(Links.WithLinks(TreeOf(sb, f), i, TreeOf(sb, f)[i].nlink + 1), d, k, e)
  {
    hide Healthy, TreeOf, Dir, LinkMade;
    LinkNodes(sb, f, f', i, d, k, e);
    NodeAt(sb, f, i);
    NodeAt(sb, f, d);
    NodeAt(sb, f', i);
    NodeAt(sb, f', d);
    var t := TreeOf(sb, f);
    var u := Links.WithEntry(Links.WithLinks(t, i, t[i].nlink + 1), d, k, e);
    assert u - {i, d} == t - {i, d};
    SameTree(TreeOf(sb, f'), u, i, d);
  }

  // ----- unlink

  /** sys_unlink on a tree; freed says that nobody else has the inode and its last link goes. */
  function Cut(t: Paths.Tree, d: nat, k: nat, i: nat, freed: bool): Paths.Tree
    requires d in t && i in t && k <= |t[d].entries|
  {
    var u := if t[i].kind == Paths.Dir then Links.Removed(t, d, k, i)
             else Links.WithLinks(Links.WithEntry(t, d, k, Links.NOENTRY), i, t[i].nlink - 1);
    if freed then u - {i} else u
  }

  lemma UnlinkNodes(sb: Superblock, f: Fs, f': Fs, d: nat, k: nat, i: nat, freed: bool)
    requires Healthy(sb, f) && i < sb.ninodes && d < sb.ninodes && i != d && Unlinked(sb, f, f', d, k, i, freed)
    requires f.ino[i].typ != 0 && f.ino[d].typ == T_DIR
    ensures Healthy(sb, f') && k < |Node(sb, f, d).entries| && TreeOf(sb, f') - {i, d} == TreeOf(sb, f) - {i, d}
    ensures if freed then f'.ino[i].typ == 0
            else f'.ino[i].typ == f.ino[i].typ && Node(sb, f', i) == Node(sb, f, i).(nlink := f.ino[i].nlink - 1)
    ensures f'.ino[d].typ == T_DIR
    ensures Node(sb, f', d) ==
            Paths.Ino(Paths.Dir, f.ino[d].nlink - (if f.ino[i].typ == T_DIR then 1 else 0),
                      Links.Put(Dir(sb, f, d), k, Paths.Entry(0, "")))
  {
    hide EntriesOf, SlotsOk, BitmapOk, NoHoles, Content;
    OtherNodes(sb, f, f', i, d);
  }

  lemma UnlinkTree(sb: Superblock, f: Fs, f': Fs, d: nat, k: nat, i: nat, freed: bool)
    requires Healthy(sb, f) && i < sb.ninodes && d < sb.ninodes && i != d && Unlinked(sb, f, f', d, k, i, freed)
    requires f.ino[i].typ != 0 && f.ino[d].typ == T_DIR
    ensures Healthy(sb, f') && i in TreeOf(sb, f) && d in TreeOf(sb, f) && k < |TreeOf(sb, f)[d].entries|
    ensures TreeOf(sb, f') == Cut(TreeOf(sb, f), d, k, i, freed)
  {
    hide Healthy, TreeOf, Dir, Unlinked;
    UnlinkNodes(sb, f, f', d, k, i, freed);
    NodeAt(sb, f, i);
    NodeAt(sb, f, d);
    NodeAt(sb, f', i);
    NodeAt(sb, f', d);
    var t := TreeOf(sb, f);
    var u := Cut(t, d, k, i, freed);
    assert u - {i, d} == t - {i, d};
    SameTree(TreeOf(sb, f'), u, i, d);
  }

  // ----- create

  function Planted(t: Paths.Tree, d: nat, k: nat, i: nat, name: string, kind: Paths.Kind): Paths.Tree
    requires d in t && i !in t && k <= |t[d].entries|
  {
    if kind == Paths.Dir then Links.NewDirTree(t, d, k, name, i)
    else Links.WithEntry(t[i := Paths.Ino(kind, 1, [])], d, k, Paths.Entry(i, name))
  }

  lemma CreateNodes(sb: Superblock, f: Fs, f': Fs, i: nat, d: nat, k: nat, name: string, x: Ino)
    requires Healthy(sb, f) && i < sb.ninodes && d < sb.ninodes && Made(sb, f, f', i, d, k, name, x) && x.typ != 0
    requires f.ino[d].typ == T_DIR
    ensures Healthy(sb, f') && i != d && f.ino[i].typ == 0 && f'.ino[i].typ != 0 && f'.ino[d].typ == T_DIR
    ensures k <= |Node(sb, f, d).entries| && TreeOf(sb, f') - {i, d} == TreeOf(sb, f) - {i, d}
    ensures Node(sb, f', i) ==
            Paths.Ino(KindOf(x.typ), 1, if x.typ == T_DIR then [Paths.Entry(i, "."), Paths.Entry(d, "..")] else [])
    ensures Node(sb, f', d) ==
            Paths.Ino(Paths.Dir, f.ino[d].nlink + (if x.typ == T_DIR then 1 else 0),
                      Links.Put(Dir(sb, f, d), k, Paths.Entry(i, name)))
  {
    hide EntriesOf, SlotsOk, BitmapOk, NoHoles, Content;
    OtherNodes(sb, f, f', i, d);
  }

  lemma CreateTree(sb: Superblock, f: Fs, f': Fs, i: nat, d: nat, k: nat, name: string, x: Ino)
    requires Healthy(sb, f) && i < sb.ninodes && d < sb.ninodes && Made(sb, f, f', i, d, k, name, x) && x.typ != 0
    requires f.ino[d].typ == T_DIR
    ensures Healthy(sb, f') && i !in TreeOf(sb, f) && d in TreeOf(sb, f) && k <= |TreeOf(sb, f)[d].entries|
    ensures TreeOf(sb, f') == Planted(TreeOf(sb, f), d, k, i, name, KindOf(x.typ))
  {
    hide Healthy, TreeOf, Dir, Made;
    CreateNodes(sb, f, f', i, d, k, name, x);
    NodeAt(sb, f, i);
    NodeAt(sb, f, d);
    NodeAt(sb, f', i);
    NodeAt(sb, f', d);
    var t := TreeOf(sb, f);
    var u := Planted(t, d, k, i, name, KindOf(x.typ));
    assert u - {i, d} == t - {i, d};
    SameTree(TreeOf(sb, f'), u, i, d);
  }

  // ----- the link counts on the disk

  /** Directories are made of whole entries. */
  ghost predicate Aligned(sb: Superblock, f: Fs) {
    |f.ino| == sb.ninodes && forall j :: 0 <= j < sb.ninodes && f.ino[j].typ == T_DIR ==> f.ino[j].size % 16 == 0
  }

  /** The disk's tree has the right link counts and shape, its directories are made of whole entries, and its unused
      inodes have nothing in them. */
  ghost predicate TreeSound(sb: Superblock, f: Fs) {
    Healthy(sb, f) && UnusedBare(sb, f) && Aligned(sb, f) && Links.LinkOk(TreeOf(sb, f))
  }

  lemma LinkRest(sb: Superblock, f: Fs, f': Fs, i: nat, d: nat, k: nat, e: Paths.Entry)
    requires Healthy(sb, f) && i < sb.ninodes && d < sb.ninodes && LinkMade(sb, f, f', i, d, k, e)
    requires f.ino[i].typ != 0 && f.ino[d].typ != 0 && UnusedBare(sb, f) && Aligned(sb, f)
    ensures UnusedBare(sb, f') && Aligned(sb, f')
  {
    hide SlotsOk, BitmapOk, NoHoles, Content, EntriesOf;
  }

  lemma UnlinkRest(sb: Superblock, f: Fs, f': Fs, d: nat, k: nat, i: nat, freed: bool)
    requires Healthy(sb, f) && i < sb.ninodes && d < sb.ninodes && i != d && Unlinked(sb, f, f', d, k, i, freed)
    requires f.ino[i].typ != 0 && f.ino[d].typ != 0 && UnusedBare(sb, f) && Aligned(sb, f)
    ensures UnusedBare(sb, f') && Aligned(sb, f')
  {
    hide SlotsOk, BitmapOk, NoHoles, Content, EntriesOf;
  }

  lemma CreateRest(sb: Superblock, f: Fs, f': Fs, i: nat, d: nat, k: nat, name: string, x: Ino)
    requires Healthy(sb, f) && i < sb.ninodes && d < sb.ninodes && Made(sb, f, f', i, d, k, name, x) && x.typ != 0
    requires f.ino[d].typ != 0 && UnusedBare(sb, f) && Aligned(sb, f)
    ensures UnusedBare(sb, f') && Aligned(sb, f')
  {
    hide SlotsOk, BitmapOk, NoHoles, Content, EntriesOf;
  }

  lemma AfterDots(t: Paths.Tree, d: nat, k: nat)
    requires Links.LinkOk(t) && Links.IsDir(t, d) && Paths.FirstFree(t[d].entries, k)
    ensures 2 <= k
  {
    assert Links.DirFormed(t, d);
  }

  /** A further name in a linked directory keeps the disk's tree sound. */
  lemma LinkKeeps(sb: Superblock, f: Fs, f': Fs, i: nat, d: nat, k: nat, name: string)
    requires TreeSound(sb, f) && i < sb.ninodes && d < sb.ninodes
    requires LinkMade(sb, f, f', i, d, k, Paths.Entry(i, name)) && Paths.FirstFree(Dir(sb, f, d), k)
    requires f.ino[i].typ != 0 && f.ino[i].typ != T_DIR && Links.Linked(TreeOf(sb, f), d)
    requires Paths.Find(Dir(sb, f, d), name).None?
    ensures TreeSound(sb, f')
  {
    hide Healthy, Dir, LinkMade, Links.LinkOk, Paths.FindFrom, Paths.FirstFree, UnusedBare, Aligned;
    var t := TreeOf(sb, f);
    NodeAt(sb, f, d);
    LinkRest(sb, f, f', i, d, k, Paths.Entry(i, name));
    LinkTree(sb, f, f', i, d, k, Paths.Entry(i, name));
    AfterDots(t, d, k);
    FreeAt(t[d].entries, k);
    Links.AddName(t, d, k, name, i);
  }

  lemma FreeAt(es: seq<Paths.Entry>, k: nat)
    requires Paths.FirstFree(es, k)
    ensures k <= |es| && (k < |es| ==> es[k].inum == 0)
  {}

  /** So does taking away the name of a file, or of an empty directory, and freeing the inode with its last link. */
  lemma UnlinkKeeps(sb: Superblock, f: Fs, f': Fs, d: nat, k: nat, i: nat, freed: bool)
    requires TreeSound(sb, f) && i < sb.ninodes && d < sb.ninodes && i != d && Unlinked(sb, f, f', d, k, i, freed)
    requires f.ino[i].typ != 0 && k >= 2 && Links.Names(TreeOf(sb, f), d, k, i)
    requires f.ino[i].typ == T_DIR ==> Links.IsEmpty(TreeOf(sb, f), i)
    requires freed ==> f.ino[i].nlink == 1
    ensures TreeSound(sb, f')
  {
    hide Healthy, Dir, Unlinked, Links.LinkOk, Links.IsEmpty, UnusedBare, Aligned;
    var t := TreeOf(sb, f);
    NodeAt(sb, f, d);
    NodeAt(sb, f, i);
    UnlinkRest(sb, f, f', d, k, i, freed);
    UnlinkTree(sb, f, f', d, k, i, freed);
    if t[i].kind == Paths.Dir { Links.DropDir(t, d, k, i); } else { Links.DropName(t, d, k, i); }
    if freed { Links.FreeInode(Cut(t, d, k, i, false), i); }
  }

  /** And so does a new inode in a linked directory. */
  lemma CreateKeeps(sb: Superblock, f: Fs, f': Fs, i: nat, d: nat, k: nat, name: string, x: Ino)
    requires TreeSound(sb, f) && 0 < i < sb.ninodes && d < sb.ninodes && Made(sb, f, f', i, d, k, name, x) && x.typ != 0
    requires Links.Linked(TreeOf(sb, f), d) && Paths.Find(Dir(sb, f, d), name).None?
    ensures TreeSound(sb, f')
  {
    hide Healthy, Links.LinkOk, Paths.FindFrom, UnusedBare, Aligned;
    var t := TreeOf(sb, f);
    NodeAt(sb, f, d);
    CreateRest(sb, f, f', i, d, k, name, x);
    CreateTree(sb, f, f', i, d, k, name, x);
    hide Dir;
    AfterDots(t, d, k);
    FreeAt(t[d].entries, k);
    if x.typ == T_DIR { Links.NewDir(t, d, k, name, i); } else { Links.NewFile(t, d, k, name, i, KindOf(x.typ)); }
  }

  // ----- any run of the calls

  /** A write to file i, or its truncation: i is not a directory, and no other inode or file changes. */
  ghost predicate FileChanged(sb: Superblock, f: Fs, f': Fs, i: nat)
    requires Healthy(sb, f) && i < sb.ninodes
  {
    && Healthy(sb, f') && f.ino[i].typ != 0 && f.ino[i].typ != T_DIR
    && f'.ino == f.ino[i := f.ino[i].(addrs := f'.ino[i].addrs, size := f'.ino[i].size)]
    && forall j :: 0 <= j < sb.ninodes && j != i ==> Content(sb, f', j) == Content(sb, f, j)
  }

  lemma WriteChanges(sb: Superblock, f: Fs, f': Fs, i: nat, off: nat, src: seq<byte>)
    requires Healthy(sb, f) && i < sb.ninodes && off <= f.ino[i].size && Written(sb, f, f', i, off, src)
    requires f.ino[i].typ != 0 && f.ino[i].typ != T_DIR
    ensures FileChanged(sb, f, f', i)
  {
    hide SlotsOk, BitmapOk, NoHoles, Content;
  }

  lemma TruncChanges(sb: Superblock, f: Fs, f': Fs, i: nat)
    requires Healthy(sb, f) && i < sb.ninodes && Emptied(sb, f, f', i) && f.ino[i].typ != 0 && f.ino[i].typ != T_DIR
    ensures FileChanged(sb, f, f', i)
  {}

  /** What is in the files does not touch the tree. */
  lemma FileKeeps(sb: Superblock, f: Fs, f': Fs, i: nat)
    requires TreeSound(sb, f) && i < sb.ninodes && FileChanged(sb, f, f', i)
    ensures TreeOf(sb, f') == TreeOf(sb, f) && TreeSound(sb, f')
  {
    hide SlotsOk, BitmapOk, NoHoles, Content, EntriesOf, Links.LinkOk;
    OtherNodes(sb, f, f', i, i);
    NodeAt(sb, f, i);
    NodeAt(sb, f', i);
    hide TreeOf;
    SameTree(TreeOf(sb, f'), TreeOf(sb, f), i, i);
  }

  /** A call, with what its lookups found. */
  datatype Call =
    | Linking(i: nat, d: nat, k: nat, name: string)
    | Unlinking(d: nat, k: nat, i: nat, freed: bool)
    | Creating(i: nat, d: nat, k: nat, name: string, x: Ino)
    | Writing(i: nat)

  /** The call takes disk f to disk f'. The conditions are the tests that its code makes, and that the directory of a
      new name has not been removed, which the code does not test. */
  ghost predicate Does(sb: Superblock, f: Fs, f': Fs, c: Call)
    requires Healthy(sb, f)
  {
    var t := TreeOf(sb, f);
    match c
    case Linking(i, d, k, name) =>
      && i < sb.ninodes && d < sb.ninodes && f.ino[i].typ != 0 && f.ino[i].typ != T_DIR && Links.Linked(t, d)
      && Paths.Find(Dir(sb, f, d), name).None? && Paths.FirstFree(Dir(sb, f, d), k)
      && LinkMade(sb, f, f', i, d, k, Paths.Entry(i, name))
    case Unlinking(d, k, i, freed) =>
      && i < sb.ninodes && d < sb.ninodes && i != d && f.ino[i].typ != 0 && k >= 2 && Links.Names(t, d, k, i)
      && (f.ino[i].typ == T_DIR ==> Links.IsEmpty(t, i)) && (freed ==> f.ino[i].nlink == 1)
      && Unlinked(sb, f, f', d, k, i, freed)
    case Creating(i, d, k, name, x) =>
      && 0 < i < sb.ninodes && d < sb.ninodes && x.typ != 0 && Links.Linked(t, d)
      && Paths.Find(Dir(sb, f, d), name).None? && Made(sb, f, f', i, d, k, name, x)
    case Writing(i) => i < sb.ninodes && FileChanged(sb, f, f', i)
  }

  lemma CallKeeps(sb: Superblock, f: Fs, f': Fs, c: Call)
    requires TreeSound(sb, f) && Does(sb, f, f', c)
    ensures TreeSound(sb, f')
  {
    hide Healthy, Dir, TreeOf, Links.LinkOk, LinkMade, Unlinked, Made, FileChanged, UnusedBare, Aligned;
    hide Paths.FindFrom;
    match c
    case Linking(i, d, k, name) => LinkKeeps(sb, f, f', i, d, k, name);
    case Unlinking(d, k, i, freed) => UnlinkKeeps(sb, f, f', d, k, i, freed);
    case Creating(i, d, k, name, x) => CreateKeeps(sb, f, f', i, d, k, name, x);
    case Writing(i) => FileKeeps(sb, f, f', i);
  }

  /** The disks that a run of calls goes through. */
  ghost predicate Calls(sb: Superblock, disks: seq<Fs>, calls: seq<Call>) {
    && |disks| == |calls| + 1
    && forall n :: 0 <= n < |calls| ==> Healthy(sb, disks[n]) && Does(sb, disks[n], disks[n + 1], calls[n])
  }

  /** Every disk of every run has a sound tree if the first has. */
  lemma {:induction false} CallsKeep(sb: Superblock, disks: seq<Fs>, calls: seq<Call>, n: nat)
    requires Calls(sb, disks, calls) && n < |disks| && TreeSound(sb, disks[0])
    ensures TreeSound(sb, disks[n])
    decreases n
  {
    hide TreeSound, Does, Healthy;
    if n > 0 {
      CallsKeep(sb, disks, calls, n - 1);
      CallKeeps(sb, disks[n - 1], disks[n], calls[n - 1]);
    }
  }
}
