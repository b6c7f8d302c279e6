/** dirlookup and dirlink of kernel/fs.c on the bytes of a directory, and the changes that link, unlink and create
    of kernel/sysfile.c make, each as a transaction. */
module DirCode {
  import opened Blocks
  import opened FsFormat
  import opened FsState
  import opened FsTrunc
  import opened FsCode
  import opened DirFormat
  import Paths
  import Links

  /** The entries of directory d. */
  ghost function Dir(sb: Superblock, f: Fs, d: nat): seq<Paths.Entry>
    requires Healthy(sb, f) && d < sb.ninodes
  {
    EntriesOf(Content(sb, f, d))
  }

  /** strncmp(name, d, DIRSIZ) == 0 */
  method Namecmp(name: string, d: seq<byte>) returns (same: bool)
    requires Plain(name) && |d| == Paths.DIRSIZ
    ensures same == (NameOf(d) == name)
  {
    var k := 0;
    assert d[0..] == d && name[0..] == name;
    while k < Paths.DIRSIZ && k < |name| && d[k] != 0 && d[k] as char == name[k]
      invariant 0 <= k <= Paths.DIRSIZ && k <= |name|
      invariant NameOf(d) == name <==> NameOf(d[k..]) == name[k..]
    {
      assert d[k..][1..] == d[k + 1..] && name[k..][1..] == name[k + 1..] && d[k..][0] == d[k];
      assert name[k..] == [name[k]] + name[k + 1..];
      k := k + 1;
    }
    same := if k == Paths.DIRSIZ then true else if k == |name| then d[k] == 0 else false;
  }

  /** readi of one entry; None where fewer bytes than an entry are left. */
  method ReadEntry(fs: FileSystem, d: nat, k: nat) returns (e: Option<seq<byte>>)
    requires Healthy(fs.sb, fs.F()) && d < fs.sb.ninodes && 16 * k < fs.ino[d].size
    modifies fs`store, fs`ino, fs`logged
    ensures fs.F() == old(fs.F()) && fs.logged == old(fs.logged)
    ensures e.None? <==> 16 * (k + 1) > fs.ino[d].size
    ensures e.Some? ==> |e.value| == 16 && k < |Dir(fs.sb, fs.F(), d)|
    ensures e.Some? ==> Decode(e.value) == Dir(fs.sb, fs.F(), d)[k]
  {
    hide SlotsOk, BitmapOk, Content;
    ghost var f := fs.F();
    ReadReady(fs.sb, f, d);
    var n, dst := fs.Readi(d, 16 * k, 16, 16);
    if n != 16 {
      return None;
    }
    EntryAt(Content(fs.sb, f, d), k);
    assert dst == Content(fs.sb, f, d)[16 * k..16 * (k + 1)];
    e := Some(dst);
  }

  lemma ReadReady(sb: Superblock, f: Fs, d: nat)
    requires Healthy(sb, f) && d < sb.ninodes
    ensures Owning(sb, f, {}) && NoHoles(sb, f, d) && |Content(sb, f, d)| == f.ino[d].size <= MAXFILE * BSIZE
  {}

  /** What dirlookup finds; Unreadable where it panics. */
  datatype Looked = Found(inum: nat, off: nat) | Absent | Unreadable

  method Dirlookup(fs: FileSystem, d: nat, name: string) returns (r: Looked)
    requires Healthy(fs.sb, fs.F()) && d < fs.sb.ninodes && Plain(name)
    modifies fs`store, fs`ino, fs`logged
    ensures fs.F() == old(fs.F()) && fs.logged == old(fs.logged)
    ensures fs.ino[d].typ != T_DIR ==> r == Unreadable
    ensures fs.ino[d].typ == T_DIR ==>
              match Paths.Find(Dir(fs.sb, fs.F(), d), name)
              case Some(k) => r == Found(Dir(fs.sb, fs.F(), d)[k].inum, 16 * k)
              case None => r == if fs.ino[d].size % 16 == 0 then Absent else Unreadable
  {
    assert |fs.ino| == fs.sb.ninodes;
    hide Healthy, Content, Decode, EntriesOf;
    if fs.ino[d].typ != T_DIR {
      return Unreadable;
    }
    ghost var f := fs.F();
    ghost var es := Dir(fs.sb, f, d);
    DirSize(fs.sb, f, d);
    var k := 0;
    while 16 * k < fs.ino[d].size
      invariant fs.F() == f && fs.logged == old(fs.logged) && 0 <= k && 16 * k <= fs.ino[d].size + 16
      invariant k <= |es| && Paths.Find(es, name) == Paths.FindFrom(es, name, k)
      decreases fs.ino[d].size + 16 - 16 * k
    {
      var e := ReadEntry(fs, d, k);
      if e.None? {
        return Unreadable;
      }
      Fields(e.value);
      var inum := e.value[0] as int + 256 * (e.value[1] as int);
      if inum != 0 {
        var same := Namecmp(name, e.value[2..]);
        if same {
          return Found(inum, 16 * k);
        }
      }
      k := k + 1;
    }
    r := Absent;
  }

  lemma Fields(e: seq<byte>)
    requires |e| == 16
    ensures Decode(e).inum == e[0] as int + 256 * (e[1] as int) && Decode(e).name == NameOf(e[2..])
  {}

  lemma DirSize(sb: Superblock, f: Fs, d: nat)
    requires Healthy(sb, f) && d < sb.ninodes
    ensures |Dir(sb, f, d)| == f.ino[d].size / 16 && f.ino[d].size <= MAXFILE * BSIZE
  {
    ReadReady(sb, f, d);
  }

  lemma InDir(sb: Superblock, f: Fs, d: nat, k: nat)
    requires Healthy(sb, f) && d < sb.ninodes && 16 * (k + 1) <= f.ino[d].size
    ensures k < |Dir(sb, f, d)|
  {
    DirSize(sb, f, d);
  }

  // ----- dirlink

  lemma OtherEntry(c: seq<byte>, k: nat, e: seq<byte>, j: nat)
    requires |e| == 16 && 16 * k <= |c| && j != k && 16 * (j + 1) <= |c|
    ensures 16 * (j + 1) <= |Splice(c, 16 * k, e)|
    ensures Splice(c, 16 * k, e)[16 * j..16 * (j + 1)] == c[16 * j..16 * (j + 1)]
  {
    if j < k {
      assert 16 * (j + 1) <= 16 * k;
    } else {
      assert 16 * (k + 1) <= 16 * j;
    }
  }

  lemma WholeEntries(c: seq<byte>, n: nat)
    requires |c| == 16 * n
    ensures |EntriesOf(c)| == n
  {}

  /** A write of one entry changes that entry of the directory, or adds it. */
  lemma EntriesPut(c: seq<byte>, n: nat, k: nat, e: seq<byte>)
    requires |e| == 16 && |c| == 16 * n && k <= n
    ensures |EntriesOf(c)| == n && EntriesOf(Splice(c, 16 * k, e)) == Links.Put(EntriesOf(c), k, Decode(e))
  {
    var c' := Splice(c, 16 * k, e);
    var n' := if k < n then n else n + 1;
    SpliceSize(c, n, k, e);
    hide Decode, EntriesOf, Splice;
    WholeEntries(c, n);
    WholeEntries(c', n');
    var es, es' := EntriesOf(c), EntriesOf(c');
    EntryAt(c', k);
    forall j | 0 <= j < n' && j != k ensures es'[j] == es[j] {
      OtherEntry(c, k, e, j);
      EntryAt(c', j);
      EntryAt(c, j);
    }
    assert es' == Links.Put(es, k, Decode(e));
  }

  lemma SpliceSize(c: seq<byte>, n: nat, k: nat, e: seq<byte>)
    requires |e| == 16 && |c| == 16 * n && k <= n
    ensures |Splice(c, 16 * k, e)| == 16 * if k < n then n else n + 1
    ensures Splice(c, 16 * k, e)[16 * k..16 * (k + 1)] == e
  {
    if k < n { assert 16 * (k + 1) <= 16 * n; }
  }

  lemma Entire(size: nat, k: nat)
    requires 16 * k < size
    ensures k < (size + 16 - 1) / 16 && (16 * (k + 1) > size ==> size % 16 != 0)
    ensures 16 * (k + 1) <= size ==> k + 1 <= size / 16
  {}

  /** The loop of dirlink over the entries; None where it panics. */
  method FreeEntry(fs: FileSystem, d: nat) returns (k: Option<nat>)
    requires Healthy(fs.sb, fs.F()) && d < fs.sb.ninodes
    modifies fs`store, fs`ino, fs`logged
    ensures fs.F() == old(fs.F()) && fs.logged == old(fs.logged)
    ensures k.Some? ==> Paths.FirstFree(Dir(fs.sb, fs.F(), d), k.value)
    ensures k.None? ==> fs.ino[d].size % 16 != 0
  {
    assert |fs.ino| == fs.sb.ninodes;
    hide Healthy, Content, Decode, EntriesOf, Dir, NameOf;
    ghost var f := fs.F();
    ghost var es := Dir(fs.sb, f, d);
    DirSize(fs.sb, f, d);
    var i := 0;
    while 16 * i < fs.ino[d].size
      invariant fs.F() == f && fs.logged == old(fs.logged) && 0 <= i <= |es|
      invariant forall j :: 0 <= j < i ==> es[j].inum != 0
      decreases |es| - i
    {
      Entire(fs.ino[d].size, i);
      var e := ReadEntry(fs, d, i);
      if e.None? {
        return None;
      }
      Fields(e.value);
      if e.value[0] == 0 && e.value[1] == 0 {
        return Some(i);
      }
      i := i + 1;
    }
    k := Some(i);
  }

  /** writei of entry k of a directory; false where it does not write the whole of it. */
  method WriteEntry(fs: FileSystem, d: nat, k: nat, e: seq<byte>) returns (ok: bool)
    requires Healthy(fs.sb, fs.F()) && d < fs.sb.ninodes && |e| == 16 && 16 * k <= fs.ino[d].size
    requires fs.ino[d].size % 16 == 0
    modifies fs`store, fs`ino, fs`logged
    ensures ok ==> Changed(fs.sb, old(fs.F()), fs.F(), d, k, Decode(e))
    ensures ok ==> Logs(fs.sb, old(fs.F()), fs.F(), d, 16 * k, old(fs.logged), fs.logged)
    ensures ok ==> IBlock(fs.sb, d) in fs.logged
    ensures ok && old(fs.AllLogged()) ==> fs.AllLogged()
    ensures ok && old(fs.Stored()) ==> fs.Stored()
    ensures !ok ==> NoneFree(fs.sb, fs.store) || (fs.F() == old(fs.F()) && 16 * (k + 1) > MAXFILE * BSIZE)
  {
    hide Healthy, Content, Decode, EntriesOf, Written, WrittenTo, NoneFree, LogsInChunk;
    ghost var f := fs.F();
    DirSize(fs.sb, f, d);
    HealthyOwns(fs.sb, f);
    var r := fs.Writei(d, 16 * k, e, 16);
    ok := r == Ret(16);
    if ok {
      EntryWritten(fs.sb, f, fs.F(), d, k, e);
      EntryLogs(fs.sb, f, fs.F(), d, k, e, old(fs.logged), fs.logged);
    }
  }

  /** Directory d has entry k set to e; nothing else of the file system changed but the blocks and perhaps the
      size of d. */
  ghost predicate Changed(sb: Superblock, f: Fs, f': Fs, d: nat, k: nat, e: Paths.Entry)
    requires Healthy(sb, f) && d < sb.ninodes
  {
    && Healthy(sb, f') && k <= |Dir(sb, f, d)| && Dir(sb, f', d) == Links.Put(Dir(sb, f, d), k, e)
    && f'.ino[d].size % 16 == 0
    && f'.ino == f.ino[d := f.ino[d].(addrs := f'.ino[d].addrs, size := f'.ino[d].size)]
    && forall j :: 0 <= j < sb.ninodes && j != d ==> Content(sb, f', j) == Content(sb, f, j)
  }

  lemma EntryWritten(sb: Superblock, f: Fs, f': Fs, d: nat, k: nat, e: seq<byte>)
    requires Healthy(sb, f) && d < sb.ninodes && |e| == 16 && 16 * k <= f.ino[d].size
    requires f.ino[d].size % 16 == 0 && Written(sb, f, f', d, 16 * k, e)
    ensures Changed(sb, f, f', d, k, Decode(e))
  {
    hide SlotsOk, BitmapOk, NoHoles, EntriesOf, Decode;
    var c, c' := Content(sb, f, d), Content(sb, f', d);
    EntriesPut(c, |c| / 16, k, e);
    DirSize(sb, f, d);
    SpliceSize(c, |c| / 16, k, e);
    assert |c'| == f'.ino[d].size && |c| == f.ino[d].size;
    assert f'.ino == f.ino[d := f.ino[d].(addrs := f'.ino[d].addrs, size := f'.ino[d].size)];
  }

  /** One entry's write logs the block of the entry, what it takes to allocate that, and the inode. No block goes. */
  ghost predicate Logs(sb: Superblock, f: Fs, f': Fs, d: nat, off: nat, before: set<nat>, after: set<nat>)
    requires Shape(sb, f) && d < sb.ninodes
  {
    && Shape(sb, f') && off / BSIZE < MAXFILE && Grows(sb, f, f', d)
    && after <= before + {IBlock(sb, d)} + MapLog(sb, f, f', d, off / BSIZE, AddrAt(sb, f', d, off / BSIZE))
  }

  lemma EntryLogs(sb: Superblock, f: Fs, f': Fs, d: nat, k: nat, e: seq<byte>, before: set<nat>, after: set<nat>)
    requires Shape(sb, f) && d < sb.ninodes && |e| == 16 && 16 * (k + 1) <= MAXFILE * BSIZE
    requires LogsInChunk(sb, f, f', d, 16 * k, e, before, after)
    ensures Logs(sb, f, f', d, 16 * k, before, after)
  {
    InBlock(k);
  }

  lemma InBlock(k: nat)
    ensures 16 * k % BSIZE + 16 <= BSIZE
  {
    var q, r := k / 64, k % 64;
    assert k == 64 * q + r;
    assert 16 * k == 1024 * q + 16 * r;
    assert 16 * k % 1024 == 16 * r;
  }

  /** dirlink: -1 exactly when the name is taken. Otherwise the first free entry, or a new one at the end, names
      the inode; it panics only for want of a block, on a directory of the largest size, or on what is not a
      directory. */
  method Dirlink(fs: FileSystem, d: nat, name: string, inum: nat) returns (r: Outcome, ghost k: nat)
    requires Healthy(fs.sb, fs.F()) && d < fs.sb.ninodes && Plain(name) && inum < SHORT
    modifies fs`store, fs`ino, fs`logged
    ensures r == Ret(-1) <==> old(fs.ino)[d].typ == T_DIR && Paths.Find(Dir(fs.sb, old(fs.F()), d), name).Some?
    ensures r == Ret(-1) ==> fs.F() == old(fs.F()) && fs.logged == old(fs.logged)
    ensures r.Ret? ==> r.n == -1 || r.n == 0
    ensures r == Ret(0) ==>
              && Paths.FirstFree(Dir(fs.sb, old(fs.F()), d), k) && old(fs.ino)[d].typ == T_DIR
              && Changed(fs.sb, old(fs.F()), fs.F(), d, k, Paths.Entry(inum, name))
              && Logs(fs.sb, old(fs.F()), fs.F(), d, 16 * k, old(fs.logged), fs.logged)
    ensures r.Ret? && old(fs.AllLogged()) ==> fs.AllLogged()
    ensures r.Ret? && old(fs.Stored()) ==> fs.Stored()
    ensures r.Panic? ==>
              || NoneFree(fs.sb, fs.store)
              || (fs.F() == old(fs.F()) && old(fs.ino)[d].typ != T_DIR)
              || (fs.F() == old(fs.F()) && (old(fs.ino)[d].size % 16 != 0 || old(fs.ino)[d].size == MAXFILE * BSIZE))
  {
    assert |fs.ino| == fs.sb.ninodes;
    hide Healthy, Content, Decode, EntriesOf, NoneFree, Changed, Logs, Dirent, Dir, Plain;
    hide Paths.FindFrom, Paths.FirstFree;
    k := 0;
    ghost var f := fs.F();
    DirSize(fs.sb, f, d);
    var got := Dirlookup(fs, d, name);
    if got == Unreadable {
      return Panic, k;
    }
    if got.Found? {
      return Ret(-1), k;
    }
    var at := FreeEntry(fs, d);
    k := at.value;
    EntryRound(inum, name);
    var ok := WriteEntry(fs, d, at.value, Dirent(inum, BytesOf(name)));
    r := if ok then Ret(0) else Panic;
  }

  // ----- inodes

  /** Fields of inode i other than its size and blocks set, in memory and by iupdate on disk. */
  method SetFields(fs: FileSystem, i: nat, x: Ino)
    requires Healthy(fs.sb, fs.F()) && i < fs.sb.ninodes && InoOk(x)
    requires x == fs.ino[i].(typ := x.typ, major := x.major, minor := x.minor, nlink := x.nlink)
    modifies fs`store, fs`ino, fs`logged
    ensures FieldsSet(fs.sb, old(fs.F()), fs.F(), i, x)
    ensures fs.logged == old(fs.logged) + {IBlock(fs.sb, i)}
    ensures old(fs.AllLogged()) ==> fs.AllLogged()
    ensures old(fs.Stored()) ==> fs.Stored()
  {
    ghost var f := fs.F();
    HealthyOwns(fs.sb, f);
    hide Healthy, SlotsOk, BitmapOk, SameSlots, SameBytes, DiskIno;
    fs.ino := fs.ino[i := x];
    ghost var f1 := fs.F();
    FieldsOnly(fs.sb, f, f1);
    HealthyFrame(fs.sb, f, f1);
    fs.Iupdate(i);
    HealthyFrame(fs.sb, f1, fs.F());
    SlotsKept(fs.sb, f, f1, fs.F());
  }

  /** Inode i is x; all blocks and contents are as they were. */
  ghost predicate FieldsSet(sb: Superblock, f: Fs, f': Fs, i: nat, x: Ino)
    requires Healthy(sb, f) && i < sb.ninodes
  {
    && Healthy(sb, f') && f'.ino == f.ino[i := x] && SameSlots(sb, f, f')
    && forall j :: 0 <= j < sb.ninodes ==> Content(sb, f', j) == Content(sb, f, j)
  }

  lemma SlotsKept(sb: Superblock, f: Fs, f1: Fs, f2: Fs)
    requires Shape(sb, f) && Shape(sb, f1) && Shape(sb, f2) && SameSlots(sb, f, f1) && SameSlots(sb, f1, f2)
    ensures SameSlots(sb, f, f2)
  {
    hide Slot;
    forall i, k | 0 <= i < sb.ninodes && 0 <= k < NSLOTS ensures Slot(sb, f2, i, k) == Slot(sb, f, i, k) {
      assert Slot(sb, f1, i, k) == Slot(sb, f, i, k);
    }
  }

  // ----- what a call may log

  lemma MapLogFew(sb: Superblock, f: Fs, f': Fs, d: nat, bn: nat)
    requires Shape(sb, f) && Owning(sb, f', {}) && d < sb.ninodes && bn < MAXFILE && AddrAt(sb, f', d, bn) != 0
    ensures var log := MapLog(sb, f, f', d, bn, AddrAt(sb, f', d, bn)); InArea(sb, log) && |log| <= 4
  {
    hide SlotsOk, BitmapOk, AddrAt;
    var a, ind := AddrAt(sb, f', d, bn), f'.ino[d].addrs[INDIRECT];
    AddrInArea(sb, f', d, bn);
    if bn >= NDIRECT { IndirectInArea(sb, f', d, bn); }
    SubsetSize(MapLog(sb, f, f', d, bn, a), {a, BBlock(sb, a), ind, BBlock(sb, ind)});
  }

  lemma LogsFew(sb: Superblock, f: Fs, f': Fs, d: nat, off: nat, before: set<nat>, after: set<nat>)
    requires Healthy(sb, f) && Healthy(sb, f') && d < sb.ninodes && off < f'.ino[d].size
    requires Logs(sb, f, f', d, off, before, after) && InArea(sb, before)
    ensures InArea(sb, after) && |after| <= |before + {IBlock(sb, d)}| + 4
  {
    hide SlotsOk, BitmapOk, AddrAt, MapLog;
    var bn := off / BSIZE;
    assert NoHoles(sb, f', d) && bn * BSIZE <= off;
    IBlockRange(sb, d);
    MapLogFew(sb, f, f', d, bn);
    hide Healthy;
    var log := MapLog(sb, f, f', d, bn, AddrAt(sb, f', d, bn));
    SubsetSize(after, before + {IBlock(sb, d)} + log);
    UnionSize(before + {IBlock(sb, d)}, log);
  }

  lemma IndirectInArea(sb: Superblock, f: Fs, d: nat, bn: nat)
    requires Owning(sb, f, {}) && d < sb.ninodes && NDIRECT <= bn < MAXFILE && AddrAt(sb, f, d, bn) != 0
    ensures var ind := f.ino[d].addrs[INDIRECT];
            sb.inodestart <= ind < sb.size && sb.inodestart <= BBlock(sb, ind) < sb.size
  {
    var ind := f.ino[d].addrs[INDIRECT];
    assert Uses(sb, f, d, INDIRECT, ind);
    BBlockRange(sb, ind);
  }

  /** A transaction on a sound disk: every change logged, at most `most` blocks of it, sound before and after. */
  ghost predicate Whole(sb: Superblock, tx: Tx, before: seq<Block>, after: seq<Block>, most: nat) {
    && tx.before == before && tx.after == after && Complete(tx) && |tx.logged| <= most && InArea(sb, tx.logged)
    && Sound(sb, before) && Sound(sb, after)
  }

  /** Such a transaction that began with `before` is under way. */
  ghost predicate Doing(fs: FileSystem, before: seq<Block>, most: nat)
    reads fs
  {
    && Healthy(fs.sb, fs.F()) && fs.Stored() && fs.AllLogged() && fs.start == before && Sound(fs.sb, before)
    && InArea(fs.sb, fs.logged) && |fs.logged| <= most
  }

  lemma DoingHealthy(fs: FileSystem, before: seq<Block>, most: nat)
    requires Doing(fs, before, most)
    ensures Healthy(fs.sb, fs.F()) && |fs.ino| == fs.sb.ninodes
  {}

  lemma NlinkOk(sb: Superblock, f: Fs, i: nat, n: nat)
    requires Healthy(sb, f) && i < sb.ninodes && n < SHORT
    ensures |f.ino| == sb.ninodes && InoOk(f.ino[i].(nlink := n)) && f.ino[i].nlink < SHORT
  {}

  lemma DoingMore(fs: FileSystem, before: seq<Block>, most: nat, more: nat)
    requires Doing(fs, before, most) && most <= more
    ensures Doing(fs, before, more)
  {}

  lemma DoingIn(fs: FileSystem, before: seq<Block>, most: nat, all: set<nat>, n: nat)
    requires Doing(fs, before, most) && fs.logged <= all && |all| <= n
    ensures Doing(fs, before, n)
  {
    hide Healthy, Sound;
    SubsetSize(fs.logged, all);
  }

  lemma DoneWhole(fs: FileSystem, before: seq<Block>, most: nat)
    requires Doing(fs, before, most)
    ensures Whole(fs.sb, Tx(fs.start, fs.store, fs.logged), before, fs.store, most)
  {
    hide Healthy;
  }

  /** begin_op */
  method Begin(fs: FileSystem)
    requires Healthy(fs.sb, fs.F()) && fs.Stored()
    modifies fs`logged, fs`start
    ensures Doing(fs, old(fs.store), 0) && fs.logged == {}
  {
    fs.logged, fs.start := {}, fs.store;
  }

  /** SetFields in a transaction. */
  method Update(fs: FileSystem, i: nat, x: Ino, ghost before: seq<Block>, ghost most: nat)
    requires Doing(fs, before, most) && i < fs.sb.ninodes && InoOk(x)
    requires x == fs.ino[i].(typ := x.typ, major := x.major, minor := x.minor, nlink := x.nlink)
    modifies fs`store, fs`ino, fs`logged
    ensures Healthy(fs.sb, old(fs.F())) && FieldsSet(fs.sb, old(fs.F()), fs.F(), i, x)
    ensures Doing(fs, before, if IBlock(fs.sb, i) in old(fs.logged) then most else most + 1)
    ensures fs.logged == old(fs.logged) + {IBlock(fs.sb, i)}
  {
    hide Healthy, Content, SlotsOk, BitmapOk, SameSlots;
    HealthyOwns(fs.sb, fs.F());
    IBlockRange(fs.sb, i);
    SetFields(fs, i, x);
    assert old(fs.logged) + {IBlock(fs.sb, i)} == fs.logged;
  }

  /** dirlink in a transaction. */
  method Enter(fs: FileSystem, d: nat, name: string, inum: nat, ghost before: seq<Block>, ghost most: nat)
      returns (r: Outcome, ghost k: nat)
    requires Doing(fs, before, most) && d < fs.sb.ninodes && Plain(name) && inum < SHORT
    modifies fs`store, fs`ino, fs`logged
    ensures Healthy(fs.sb, old(fs.F())) && (r.Ret? ==> r.n == -1 || r.n == 0)
    ensures r == Ret(-1) <==> old(fs.ino)[d].typ == T_DIR && Paths.Find(Dir(fs.sb, old(fs.F()), d), name).Some?
    ensures r == Ret(-1) ==> fs.F() == old(fs.F()) && fs.logged == old(fs.logged) && Doing(fs, before, most)
    ensures r == Ret(0) ==>
              && Paths.FirstFree(Dir(fs.sb, old(fs.F()), d), k) && old(fs.ino)[d].typ == T_DIR
              && Changed(fs.sb, old(fs.F()), fs.F(), d, k, Paths.Entry(inum, name))
              && Logs(fs.sb, old(fs.F()), fs.F(), d, 16 * k, old(fs.logged), fs.logged)
              && Doing(fs, before, most + if IBlock(fs.sb, d) in old(fs.logged) then 4 else 5)
    ensures r.Panic? ==>
              || NoneFree(fs.sb, fs.store)
              || (fs.F() == old(fs.F()) && old(fs.ino)[d].typ != T_DIR)
              || (fs.F() == old(fs.F()) && (old(fs.ino)[d].size % 16 != 0 || old(fs.ino)[d].size == MAXFILE * BSIZE))
  {
    hide Healthy, Content, EntriesOf, Logs, Complete, Paths.FindFrom, NoneFree;
    ghost var f, logged := fs.F(), fs.logged;
    HealthyOwns(fs.sb, f);
    r, k := Dirlink(fs, d, name, inum);
    if r == Ret(0) {
      PutSize(fs.sb, f, fs.F(), d, k, Paths.Entry(inum, name));
      LogsFew(fs.sb, f, fs.F(), d, 16 * k, logged, fs.logged);
      assert IBlock(fs.sb, d) in logged ==> logged + {IBlock(fs.sb, d)} == logged;
    }
  }

  lemma PutSize(sb: Superblock, f: Fs, f': Fs, d: nat, k: nat, e: Paths.Entry)
    requires Healthy(sb, f) && d < sb.ninodes && Changed(sb, f, f', d, k, e)
    ensures 16 * k < f'.ino[d].size
  {
    hide EntriesOf;
    DirSize(sb, f', d);
  }

  // ----- link

  /** Inode i has one more link, and entry k of directory d is e. */
  ghost predicate LinkMade(sb: Superblock, f: Fs, f': Fs, i: nat, d: nat, k: nat, e: Paths.Entry)
    requires Healthy(sb, f) && i < sb.ninodes && d < sb.ninodes
  {
    && Healthy(sb, f') && i != d && k <= |Dir(sb, f, d)| && Dir(sb, f', d) == Links.Put(Dir(sb, f, d), k, e)
    && f'.ino == f.ino[i := f.ino[i].(nlink := f.ino[i].nlink + 1)]
                      [d := f.ino[d].(addrs := f'.ino[d].addrs, size := f'.ino[d].size)]
    && f'.ino[d].size % 16 == 0
    && forall j :: 0 <= j < sb.ninodes && j != d ==> Content(sb, f', j) == Content(sb, f, j)
  }

  lemma LinkDone(sb: Superblock, f: Fs, f1: Fs, f2: Fs, i: nat, d: nat, k: nat, e: Paths.Entry)
    requires Healthy(sb, f) && Healthy(sb, f1) && i < sb.ninodes && d < sb.ninodes && i != d
    requires FieldsSet(sb, f, f1, i, f.ino[i].(nlink := f.ino[i].nlink + 1)) && Changed(sb, f1, f2, d, k, e)
    ensures LinkMade(sb, f, f2, i, d, k, e) && Dir(sb, f1, d) == Dir(sb, f, d)
  {
    hide SlotsOk, BitmapOk, NoHoles, EntriesOf, SameSlots;
  }

  lemma FieldsDir(sb: Superblock, f: Fs, f': Fs, i: nat, x: Ino, d: nat)
    requires Healthy(sb, f) && i < sb.ninodes && d < sb.ninodes && FieldsSet(sb, f, f', i, x)
    ensures Healthy(sb, f') && f'.ino == f.ino[i := x] && Dir(sb, f', d) == Dir(sb, f, d)
  {
    hide EntriesOf;
  }

  lemma FieldsTwice(sb: Superblock, f: Fs, f1: Fs, f2: Fs, i: nat, x: Ino, y: Ino)
    requires Healthy(sb, f) && Healthy(sb, f1) && i < sb.ninodes
    requires FieldsSet(sb, f, f1, i, x) && FieldsSet(sb, f1, f2, i, y)
    ensures FieldsSet(sb, f, f2, i, y)
  {
    hide SlotsOk, BitmapOk, NoHoles, SameSlots, Content;
    SlotsKept(sb, f, f1, f2);
  }

  /** sys_link between its lookups: one more link and the name, or the link taken back when the name is taken. A
      transaction of at most six blocks. */
  method Link(fs: FileSystem, i: nat, d: nat, name: string) returns (r: Outcome, ghost k: nat, ghost tx: Tx)
    requires Healthy(fs.sb, fs.F()) && fs.Stored() && i < fs.sb.ninodes && d < fs.sb.ninodes && i < SHORT
    requires fs.ino[i].typ != T_DIR && fs.ino[i].nlink + 1 < SHORT && Plain(name)
    modifies fs`store, fs`ino, fs`logged, fs`start
    ensures r.Ret? ==> (r.n == 0 || r.n == -1) && fs.Stored() && Whole(fs.sb, tx, old(fs.store), fs.store, 6)
    ensures r.Ret? ==> (r == Ret(-1) <==> Paths.Find(Dir(fs.sb, old(fs.F()), d), name).Some?)
    ensures r == Ret(-1) ==> FieldsSet(fs.sb, old(fs.F()), fs.F(), i, old(fs.ino)[i])
    ensures r == Ret(0) ==>
              && Paths.FirstFree(Dir(fs.sb, old(fs.F()), d), k)
              && LinkMade(fs.sb, old(fs.F()), fs.F(), i, d, k, Paths.Entry(i, name))
  {
    hide Healthy, Changed, Logs, Whole, LinkMade, FieldsSet, Paths.FindFrom, Doing, Dir, Paths.FirstFree, Plain, InoOk;
    ghost var f := fs.F();
    NlinkOk(fs.sb, f, i, 0);
    NlinkOk(fs.sb, f, i, f.ino[i].nlink);
    NlinkOk(fs.sb, f, i, f.ino[i].nlink + 1);
    Begin(fs);
    Update(fs, i, fs.ino[i].(nlink := fs.ino[i].nlink + 1), f.store, 0);
    ghost var f1 := fs.F();
    FieldsDir(fs.sb, f, f1, i, f.ino[i].(nlink := f.ino[i].nlink + 1), d);
    ghost var most := 1 + if IBlock(fs.sb, d) in fs.logged then 4 else 5;
    r, k := Enter(fs, d, name, i, f.store, 1);
    if r.Ret? && r.n < 0 {
      Update(fs, i, fs.ino[i].(nlink := fs.ino[i].nlink - 1), f.store, 1);
      FieldsTwice(fs.sb, f, f1, fs.F(), i, f1.ino[i], f.ino[i]);
    }
    if r == Ret(0) { LinkDone(fs.sb, f, f1, fs.F(), i, d, k, Paths.Entry(i, name)); }
    if r.Ret? {
      DoingMore(fs, f.store, if r == Ret(0) then most else 1, 6);
      DoneWhole(fs, f.store, 6);
    }
    tx := Tx(fs.start, fs.store, fs.logged);
  }

  // ----- unlink

  /** writei of a free entry in a transaction. */
  method Clear(fs: FileSystem, d: nat, k: nat, ghost before: seq<Block>) returns (ok: bool)
    requires Doing(fs, before, 0) && d < fs.sb.ninodes && fs.ino[d].size % 16 == 0 && 16 * (k + 1) <= fs.ino[d].size
    modifies fs`store, fs`ino, fs`logged
    ensures Healthy(fs.sb, old(fs.F()))
    ensures ok ==> Changed(fs.sb, old(fs.F()), fs.F(), d, k, Paths.Entry(0, "")) && Doing(fs, before, 5)
    ensures ok ==> IBlock(fs.sb, d) in fs.logged
    ensures !ok ==> NoneFree(fs.sb, fs.store)
  {
    hide Healthy, Content, EntriesOf, Logs, NoneFree, Decode, Sound, SlotsOk, BitmapOk;
    ghost var f := fs.F();
    assert fs.logged == {};
    DirSize(fs.sb, f, d);
    ok := WriteEntry(fs, d, k, Zeros());
    if ok {
      ClearLogs(fs.sb, f, fs.F(), d, k, fs.logged);
    }
  }

  function Zeros(): (e: seq<byte>)
    ensures |e| == 16 && Decode(e) == Paths.Entry(0, "")
  {
    var e: seq<byte> := seq(16, _ => 0);
    ZeroEntry(e);
    e
  }

  lemma ClearLogs(sb: Superblock, f: Fs, f': Fs, d: nat, k: nat, logged: set<nat>)
    requires Healthy(sb, f) && d < sb.ninodes && Changed(sb, f, f', d, k, Paths.Entry(0, ""))
    requires Logs(sb, f, f', d, 16 * k, {}, logged)
    ensures Healthy(sb, f') && InArea(sb, logged) && |logged| <= 5
  {
    hide Logs, EntriesOf, Content;
    PutSize(sb, f, f', d, k, Paths.Entry(0, ""));
    LogsFew(sb, f, f', d, 16 * k, {}, logged);
  }

  /** itrunc in a transaction that has logged the inode. */
  method Truncate(fs: FileSystem, i: nat, ghost before: seq<Block>, ghost most: nat)
    requires Doing(fs, before, most) && i < fs.sb.ninodes && IBlock(fs.sb, i) in fs.logged
    modifies fs`store, fs`ino, fs`logged
    ensures Healthy(fs.sb, old(fs.F())) && Emptied(fs.sb, old(fs.F()), fs.F(), i)
    ensures Doing(fs, before, most + fs.sb.size / BPB + 1) && IBlock(fs.sb, i) in fs.logged
  {
    hide Healthy, Content, SlotsOk, BitmapOk, Others, UsedBy, BitmapBlocks, Sound, Bit;
    ghost var f, logged := fs.F(), fs.logged;
    HealthyOwns(fs.sb, f);
    var ok := fs.Itrunc(i);
    OthersIno(fs.sb, f, fs.F(), i);
    assert fs.ino == f.ino[i := f.ino[i].(size := 0, addrs := fs.ino[i].addrs)];
    TruncCount(fs.sb, logged, fs.logged, i);
  }

  lemma OthersIno(sb: Superblock, f: Fs, f': Fs, i: nat)
    requires Shape(sb, f) && Shape(sb, f') && i < sb.ninodes && Others(sb, f, f', i)
    ensures forall j :: 0 <= j < sb.ninodes && j != i ==> f'.ino[j] == f.ino[j]
  {}

  lemma TruncCount(sb: Superblock, before: set<nat>, after: set<nat>, i: nat)
    requires LayoutOk(sb) && InArea(sb, before) && IBlock(sb, i) in before
    requires after <= before + BitmapBlocks(sb) + {IBlock(sb, i)}
    ensures InArea(sb, after) && |after| <= |before| + sb.size / BPB + 1
  {
    var n := sb.size / BPB + 1;
    forall b | b in BitmapBlocks(sb) ensures sb.inodestart <= b < sb.size { RangeHas(sb.bmapstart, n, b); }
    RangeSize(sb.bmapstart, n);
    UnionSize(before, BitmapBlocks(sb));
    SubsetSize(after, before + BitmapBlocks(sb));
  }

  /** File i is empty and owns no block; all other files are as they were. */
  ghost predicate Emptied(sb: Superblock, f: Fs, f': Fs, i: nat)
    requires Healthy(sb, f) && i < sb.ninodes
  {
    && Healthy(sb, f') && f'.ino == f.ino[i := f.ino[i].(size := 0, addrs := f'.ino[i].addrs)] && Bare(f'.ino[i])
    && forall j :: 0 <= j < sb.ninodes && j != i ==> Content(sb, f', j) == Content(sb, f, j)
  }

  /** Entry k of directory d is free, inode i has one link less, and d too if i was a directory; freed says that i
      is an unused inode then. Every other inode and file is as it was. */
  ghost predicate Unlinked(sb: Superblock, f: Fs, f': Fs, d: nat, k: nat, i: nat, freed: bool)
    requires Healthy(sb, f) && d < sb.ninodes && i < sb.ninodes
  {
    && Healthy(sb, f') && k < |Dir(sb, f, d)| && Dir(sb, f', d) == Dir(sb, f, d)[k := Paths.Entry(0, "")]
    && f'.ino[i].nlink == f.ino[i].nlink - 1
    && (if freed then f'.ino[i].typ == 0 && Bare(f'.ino[i])
        else f'.ino[i] == f.ino[i].(nlink := f'.ino[i].nlink) && Content(sb, f', i) == Content(sb, f, i))
    && f'.ino[d] == f.ino[d].(nlink := f'.ino[d].nlink, addrs := f'.ino[d].addrs, size := f'.ino[d].size)
    && f'.ino[d].nlink == f.ino[d].nlink - (if f.ino[i].typ == T_DIR then 1 else 0) && f'.ino[d].size % 16 == 0
    && forall j :: 0 <= j < sb.ninodes && j != d && j != i ==>
         f'.ino[j] == f.ino[j] && Content(sb, f', j) == Content(sb, f, j)
  }

  lemma UnlinkDone(sb: Superblock, f: Fs, f1: Fs, f2: Fs, f3: Fs, d: nat, k: nat, i: nat)
    requires Healthy(sb, f) && Healthy(sb, f1) && Healthy(sb, f2) && d < sb.ninodes && i < sb.ninodes && d != i
    requires Changed(sb, f, f1, d, k, Paths.Entry(0, "")) && k < |Dir(sb, f, d)|
    requires f.ino[i].nlink >= 1 && (f.ino[i].typ == T_DIR ==> f.ino[d].nlink >= 1)
    requires if f.ino[i].typ == T_DIR then FieldsSet(sb, f1, f2, d, f1.ino[d].(nlink := f1.ino[d].nlink - 1))
             else f2 == f1
    requires FieldsSet(sb, f2, f3, i, f.ino[i].(nlink := f.ino[i].nlink - 1))
    ensures Unlinked(sb, f, f3, d, k, i, false)
  {
    hide SlotsOk, BitmapOk, NoHoles, EntriesOf, SameSlots, Content;
    assert |Dir(sb, f1, d)| == |Dir(sb, f, d)|;
  }

  lemma ChangedInos(sb: Superblock, f: Fs, f': Fs, d: nat, k: nat, e: Paths.Entry)
    requires Healthy(sb, f) && d < sb.ninodes && Changed(sb, f, f', d, k, e)
    ensures Healthy(sb, f') && |f'.ino| == |f.ino| == sb.ninodes && f'.ino == f.ino[d := f'.ino[d]]
    ensures f'.ino[d].nlink == f.ino[d].nlink
  {}

  lemma FieldsInos(sb: Superblock, f: Fs, f': Fs, i: nat, x: Ino)
    requires Healthy(sb, f) && i < sb.ninodes && FieldsSet(sb, f, f', i, x)
    ensures Healthy(sb, f') && f'.ino == f.ino[i := x]
  {}

  /** One link less for the inode, and for the directory if the inode was one. */
  method DropLinks(fs: FileSystem, d: nat, i: nat, ghost before: seq<Block>) returns (ghost f2: Fs)
    requires Doing(fs, before, 5) && d < fs.sb.ninodes && i < fs.sb.ninodes && d != i && IBlock(fs.sb, d) in fs.logged
    requires fs.ino[i].nlink >= 1 && (fs.ino[i].typ == T_DIR ==> fs.ino[d].nlink >= 1)
    modifies fs`store, fs`ino, fs`logged
    ensures Healthy(fs.sb, old(fs.F())) && Healthy(fs.sb, f2) && Doing(fs, before, 6) && IBlock(fs.sb, i) in fs.logged
    ensures if old(fs.ino)[i].typ == T_DIR
            then FieldsSet(fs.sb, old(fs.F()), f2, d, old(fs.ino)[d].(nlink := old(fs.ino)[d].nlink - 1))
            else f2 == old(fs.F())
    ensures FieldsSet(fs.sb, f2, fs.F(), i, old(fs.ino)[i].(nlink := old(fs.ino)[i].nlink - 1))
  {
    hide Healthy, FieldsSet, Doing, InoOk;
    DoingHealthy(fs, before, 5);
    f2 := fs.F();
    NlinkOk(fs.sb, f2, i, 0);
    if fs.ino[i].typ == T_DIR {
      NlinkOk(fs.sb, f2, d, 0);
      NlinkOk(fs.sb, f2, d, fs.ino[d].nlink - 1);
      Update(fs, d, fs.ino[d].(nlink := fs.ino[d].nlink - 1), before, 5);
      FieldsInos(fs.sb, f2, fs.F(), d, f2.ino[d].(nlink := f2.ino[d].nlink - 1));
      f2 := fs.F();
    }
    NlinkOk(fs.sb, f2, i, fs.ino[i].nlink - 1);
    ghost var most := if IBlock(fs.sb, i) in fs.logged then 5 else 6;
    Update(fs, i, fs.ino[i].(nlink := fs.ino[i].nlink - 1), before, 5);
    DoingMore(fs, before, most, 6);
  }

  /** The entry, the links of the directory, the links of the inode. */
  method UnlinkFields(fs: FileSystem, d: nat, k: nat, i: nat, ghost before: seq<Block>) returns (ok: bool)
    requires Doing(fs, before, 0) && d < fs.sb.ninodes && i < fs.sb.ninodes && d != i
    requires fs.ino[d].size % 16 == 0 && 16 * (k + 1) <= fs.ino[d].size
    requires fs.ino[i].nlink >= 1 && (fs.ino[i].typ == T_DIR ==> fs.ino[d].nlink >= 1)
    modifies fs`store, fs`ino, fs`logged
    ensures Healthy(fs.sb, old(fs.F()))
    ensures !ok ==> NoneFree(fs.sb, fs.store)
    ensures ok ==> Unlinked(fs.sb, old(fs.F()), fs.F(), d, k, i, false) && Doing(fs, before, 6)
    ensures ok ==> IBlock(fs.sb, i) in fs.logged
  {
    hide Healthy, Changed, FieldsSet, Unlinked, NoneFree, Doing, Dir, InoOk;
    DoingHealthy(fs, before, 0);
    ghost var f := fs.F();
    InDir(fs.sb, f, d, k);
    ok := Clear(fs, d, k, before);
    if !ok {
      return;
    }
    ghost var f1 := fs.F();
    ChangedInos(fs.sb, f, f1, d, k, Paths.Entry(0, ""));
    ghost var f2 := DropLinks(fs, d, i, before);
    UnlinkDone(fs.sb, f, f1, f2, fs.F(), d, k, i);
  }

  lemma FreedDone(sb: Superblock, f: Fs, f3: Fs, f4: Fs, f5: Fs, d: nat, k: nat, i: nat)
    requires Healthy(sb, f) && Healthy(sb, f3) && Healthy(sb, f4) && d < sb.ninodes && i < sb.ninodes && d != i
    requires Unlinked(sb, f, f3, d, k, i, false) && Emptied(sb, f3, f4, i)
    requires FieldsSet(sb, f4, f5, i, f4.ino[i].(typ := 0))
    ensures Unlinked(sb, f, f5, d, k, i, true)
  {
    hide SlotsOk, BitmapOk, NoHoles, EntriesOf, SameSlots, Content;
  }

  /** sys_unlink from the write of the entry on, with iput at the end: last says that nobody else has the inode. A
      transaction of at most six blocks, and those of the bitmap when the inode goes. */
  method Unlink(fs: FileSystem, d: nat, k: nat, i: nat, last: bool) returns (ok: bool, ghost tx: Tx)
    requires Healthy(fs.sb, fs.F()) && fs.Stored() && d < fs.sb.ninodes && i < fs.sb.ninodes && d != i
    requires fs.ino[d].size % 16 == 0 && 16 * (k + 1) <= fs.ino[d].size
    requires fs.ino[i].nlink >= 1 && (fs.ino[i].typ == T_DIR ==> fs.ino[d].nlink >= 1)
    modifies fs`store, fs`ino, fs`logged, fs`start
    ensures !ok ==> NoneFree(fs.sb, fs.store)
    ensures ok ==> Unlinked(fs.sb, old(fs.F()), fs.F(), d, k, i, last && old(fs.ino)[i].nlink == 1) && fs.Stored()
    ensures ok ==> Whole(fs.sb, tx, old(fs.store), fs.store,
                         6 + if last && old(fs.ino)[i].nlink == 1 then fs.sb.size / BPB + 1 else 0)
  {
    hide Healthy, Whole, FieldsSet, Unlinked, Emptied, NoneFree, InoOk;
    ghost var f := fs.F();
    NlinkOk(fs.sb, f, i, 0);
    Begin(fs);
    ok := UnlinkFields(fs, d, k, i, f.store);
    tx := Tx(fs.start, fs.store, fs.logged);
    if ok {
      ghost var f3, most := fs.F(), 6;
      UnlinkedInos(fs.sb, f, f3, d, k, i);
      if last && fs.ino[i].nlink == 0 {
        Truncate(fs, i, f.store, 6);
        ghost var f4 := fs.F();
        EmptiedInos(fs.sb, f3, f4, i);
        most := 6 + fs.sb.size / BPB + 1;
        Update(fs, i, fs.ino[i].(typ := 0), f.store, most);
        FreedDone(fs.sb, f, f3, f4, fs.F(), d, k, i);
      }
      DoneWhole(fs, f.store, most);
      tx := Tx(fs.start, fs.store, fs.logged);
    }
  }

  lemma UnlinkedInos(sb: Superblock, f: Fs, f': Fs, d: nat, k: nat, i: nat)
    requires Healthy(sb, f) && d < sb.ninodes && i < sb.ninodes && Unlinked(sb, f, f', d, k, i, false)
    ensures Healthy(sb, f') && |f'.ino| == |f.ino| == sb.ninodes && f'.ino[i].nlink == f.ino[i].nlink - 1
  {}

  lemma EmptiedInos(sb: Superblock, f: Fs, f': Fs, i: nat)
    requires Healthy(sb, f) && i < sb.ninodes && Emptied(sb, f, f', i)
    ensures Healthy(sb, f') && |f'.ino| == sb.ninodes && InoOk(f'.ino[i].(typ := 0))
  {}

  // ----- create

  /** An unused inode has nothing in it. */
  ghost predicate UnusedBare(sb: Superblock, f: Fs) {
    |f.ino| == sb.ninodes && forall j :: 0 <= j < sb.ninodes && f.ino[j].typ == 0 ==> Bare(f.ino[j])
  }

  /** The search of ialloc: the lowest-numbered unused inode from 1 on, or ninodes. */
  method FindUnused(fs: FileSystem) returns (i: nat)
    requires Shape(fs.sb, fs.F()) && fs.Stored()
    ensures i <= Max(fs.sb.ninodes, 1) && 1 <= i
    ensures forall j :: 0 < j < i && j < fs.sb.ninodes ==> fs.ino[j].typ != 0
    ensures i < fs.sb.ninodes ==> fs.ino[i].typ == 0
  {
    hide InoOk;
    i := 1;
    while i < fs.sb.ninodes
      invariant 1 <= i <= Max(fs.sb.ninodes, 1)
      invariant forall j :: 0 < j < i && j < fs.sb.ninodes ==> fs.ino[j].typ != 0
    {
      assert fs.ino[i] == Inos(fs.sb, fs.store)[i];
      if DiskIno(fs.sb, fs.store, i).typ == 0 {
        return;
      }
      i := i + 1;
    }
  }

  /** Inode i was the lowest-numbered unused one. */
  ghost predicate LowestUnused(sb: Superblock, f: Fs, i: nat) {
    0 < i < sb.ninodes == |f.ino| && f.ino[i].typ == 0 && forall j :: 0 < j < i ==> f.ino[j].typ != 0
  }

  /** ialloc: the lowest-numbered unused inode; None where it panics because there is none. */
  method Ialloc(fs: FileSystem, typ: nat, ghost before: seq<Block>) returns (r: Option<nat>)
    requires Doing(fs, before, 0) && UnusedBare(fs.sb, fs.F()) && 0 < typ < SHORT
    modifies fs`store, fs`ino, fs`logged
    ensures Healthy(fs.sb, old(fs.F()))
    ensures r.None? ==> fs.F() == old(fs.F()) && forall j :: 0 < j < fs.sb.ninodes ==> fs.ino[j].typ != 0
    ensures r.Some? ==>
              && LowestUnused(fs.sb, old(fs.F()), r.value)
              && FieldsSet(fs.sb, old(fs.F()), fs.F(), r.value, Ino(typ, 0, 0, 0, 0, old(fs.ino)[r.value].addrs))
              && Doing(fs, before, 1) && fs.logged == {IBlock(fs.sb, r.value)}
  {
    assert fs.logged == {} && fs.Stored();
    DoingHealthy(fs, before, 0);
    HealthyOwns(fs.sb, fs.F());
    hide Healthy, FieldsSet, Doing;
    var i := FindUnused(fs);
    if i >= fs.sb.ninodes {
      return None;
    }
    assert Bare(fs.ino[i]);
    Update(fs, i, fs.ino[i].(typ := typ, major := 0, minor := 0, nlink := 0), before, 0);
    r := Some(i);
  }

  lemma FreshEmpty(sb: Superblock, f: Fs, i: nat)
    requires Healthy(sb, f) && i < sb.ninodes && Bare(f.ino[i])
    ensures Dir(sb, f, i) == [] && AddrAt(sb, f, i, 0) == 0
  {
    DirSize(sb, f, i);
  }

  /** The log of the first entry of an empty directory: its block, the bitmap block and the inode. */
  lemma FirstLogs(sb: Superblock, f: Fs, f': Fs, i: nat, before: set<nat>, after: set<nat>)
    requires Healthy(sb, f) && i < sb.ninodes && Logs(sb, f, f', i, 0, before, after) && AddrAt(sb, f, i, 0) == 0
    ensures Shape(sb, f')
    ensures var a := AddrAt(sb, f', i, 0); after <= before + {IBlock(sb, i), a, BBlock(sb, a)}
  {}

  /** That of the second: nothing more. */
  lemma SecondLogs(sb: Superblock, f: Fs, f': Fs, i: nat, before: set<nat>, after: set<nat>)
    requires Healthy(sb, f) && i < sb.ninodes && Logs(sb, f, f', i, 16, before, after) && f.ino[i].size > 0
    ensures after <= before + {IBlock(sb, i), AddrAt(sb, f, i, 0)}
  {
    assert NoHoles(sb, f, i) && AddrAt(sb, f, i, 0) != 0;
    assert Slot(sb, f', i, SlotOf(0)) == Slot(sb, f, i, SlotOf(0));
  }

  /** The dots of a new directory. */
  method Dots(fs: FileSystem, i: nat, d: nat, ghost before: seq<Block>) returns (ok: bool)
    requires Doing(fs, before, 2) && 0 < i < fs.sb.ninodes && d < fs.sb.ninodes && i < SHORT && d < SHORT
    requires Bare(fs.ino[i]) && fs.ino[i].typ == T_DIR && fs.logged == {IBlock(fs.sb, i), IBlock(fs.sb, d)}
    modifies fs`store, fs`ino, fs`logged
    ensures Healthy(fs.sb, old(fs.F()))
    ensures ok ==> Dotted(fs.sb, old(fs.F()), fs.F(), i, d) && Doing(fs, before, 4)
    ensures !ok ==> NoneFree(fs.sb, fs.store)
  {
    hide Healthy, Changed, Logs, Doing, Dir, InoOk, NoneFree, Dotted;
    DoingHealthy(fs, before, 2);
    ghost var f := fs.F();
    FreshEmpty(fs.sb, f, i);
    var r, k := Enter(fs, i, ".", i, before, 2);
    if r.Panic? {
      return false;
    }
    ghost var f1, logged1 := fs.F(), fs.logged;
    FirstDot(fs.sb, f, f1, i, k);
    FirstLogs(fs.sb, f, f1, i, old(fs.logged), logged1);
    ghost var most := 6 + if IBlock(fs.sb, i) in fs.logged then 4 else 5;
    var r1, k1 := Enter(fs, i, "..", d, before, 6);
    if r1.Panic? {
      return false;
    }
    SecondDot(fs.sb, f, f1, fs.F(), i, d, k1);
    SecondLogs(fs.sb, f1, fs.F(), i, logged1, fs.logged);
    ghost var a := AddrAt(fs.sb, f1, i, 0);
    DoingIn(fs, before, most, {IBlock(fs.sb, i), IBlock(fs.sb, d), a, BBlock(fs.sb, a)}, 4);
    ok := true;
  }

  lemma FirstDot(sb: Superblock, f: Fs, f': Fs, i: nat, k: nat)
    requires Healthy(sb, f) && 0 < i < sb.ninodes && Dir(sb, f, i) == [] && Paths.FirstFree([], k)
    requires Changed(sb, f, f', i, k, Paths.Entry(i, "."))
    ensures Healthy(sb, f') && k == 0 && Dir(sb, f', i) == [Paths.Entry(i, ".")] && f'.ino[i].size == 16
    ensures |f'.ino| == sb.ninodes && f'.ino[i].typ == f.ino[i].typ && Paths.Find(Dir(sb, f', i), "..").None?
  {
    hide EntriesOf;
    DirSize(sb, f', i);
  }

  lemma SecondDot(sb: Superblock, f: Fs, f1: Fs, f2: Fs, i: nat, d: nat, k: nat)
    requires Healthy(sb, f) && Healthy(sb, f1) && 0 < i < sb.ninodes && Dir(sb, f, i) == []
    requires Changed(sb, f, f1, i, 0, Paths.Entry(i, ".")) && Dir(sb, f1, i) == [Paths.Entry(i, ".")]
    requires Paths.FirstFree(Dir(sb, f1, i), k) && Changed(sb, f1, f2, i, k, Paths.Entry(d, ".."))
    ensures k == 1 && Dotted(sb, f, f2, i, d)
  {
    hide EntriesOf, Content, SlotsOk, BitmapOk, NoHoles;
  }

  /** Inode i has become a directory with its dots. */
  ghost predicate Dotted(sb: Superblock, f: Fs, f': Fs, i: nat, d: nat)
    requires Healthy(sb, f) && i < sb.ninodes
  {
    && Healthy(sb, f') && Dir(sb, f', i) == [Paths.Entry(i, "."), Paths.Entry(d, "..")] && f'.ino[i].size % 16 == 0
    && f'.ino == f.ino[i := f.ino[i].(addrs := f'.ino[i].addrs, size := f'.ino[i].size)]
    && forall j :: 0 <= j < sb.ninodes && j != i ==> Content(sb, f', j) == Content(sb, f, j)
  }

  /** A new inode i with these fields and one link, named by entry k of directory d; a directory has its dots and
      gives d one link more. Every other inode and file is as it was. */
  ghost predicate Made(sb: Superblock, f: Fs, f': Fs, i: nat, d: nat, k: nat, name: string, x: Ino)
    requires Healthy(sb, f) && i < sb.ninodes && d < sb.ninodes
  {
    && Healthy(sb, f') && i != d && LowestUnused(sb, f, i) && Paths.FirstFree(Dir(sb, f, d), k)
    && Dir(sb, f', d) == Links.Put(Dir(sb, f, d), k, Paths.Entry(i, name))
    && f'.ino[i] == Ino(x.typ, x.major, x.minor, 1, f'.ino[i].size, f'.ino[i].addrs)
    && Dir(sb, f', i) == (if x.typ == T_DIR then [Paths.Entry(i, "."), Paths.Entry(d, "..")] else [])
    && (x.typ != T_DIR ==> Bare(f'.ino[i])) && f'.ino[i].size % 16 == 0 && f'.ino[d].size % 16 == 0
    && f'.ino[d] == f.ino[d].(nlink := f'.ino[d].nlink, addrs := f'.ino[d].addrs, size := f'.ino[d].size)
    && f'.ino[d].nlink == f.ino[d].nlink + (if x.typ == T_DIR then 1 else 0)
    && forall j :: 0 <= j < sb.ninodes && j != d && j != i ==>
         f'.ino[j] == f.ino[j] && Content(sb, f', j) == Content(sb, f, j)
  }

  /** The inode of create: found, and its fields set. */
  method NewInode(fs: FileSystem, typ: nat, major: nat, minor: nat, ghost before: seq<Block>) returns (r: Option<nat>)
    requires Doing(fs, before, 0) && UnusedBare(fs.sb, fs.F()) && 0 < typ < SHORT && major < SHORT && minor < SHORT
    modifies fs`store, fs`ino, fs`logged
    ensures Healthy(fs.sb, old(fs.F()))
    ensures r.None? ==> fs.F() == old(fs.F()) && forall j :: 0 < j < fs.sb.ninodes ==> fs.ino[j].typ != 0
    ensures r.Some? ==>
              && LowestUnused(fs.sb, old(fs.F()), r.value) && Bare(old(fs.ino)[r.value])
              && FieldsSet(fs.sb, old(fs.F()), fs.F(), r.value,
                           Ino(typ, major, minor, 1, 0, old(fs.ino)[r.value].addrs))
              && Doing(fs, before, 1) && fs.logged == {IBlock(fs.sb, r.value)}
  {
    hide Healthy, FieldsSet, Doing;
    DoingHealthy(fs, before, 0);
    ghost var f := fs.F();
    r := Ialloc(fs, typ, before);
    if r.Some? {
      ghost var f1, x := fs.F(), Ino(typ, 0, 0, 0, 0, f.ino[r.value].addrs);
      FieldsInos(fs.sb, f, f1, r.value, x);
      NlinkOk(fs.sb, f1, r.value, 1);
      Update(fs, r.value, fs.ino[r.value].(major := major, minor := minor, nlink := 1), before, 1);
      FieldsTwice(fs.sb, f, f1, fs.F(), r.value, x, Ino(typ, major, minor, 1, 0, f.ino[r.value].addrs));
    }
  }

  /** The link for ".." and the dots, if the new inode is a directory. */
  method Furnish(fs: FileSystem, i: nat, d: nat, ghost before: seq<Block>) returns (ok: bool, ghost f2: Fs)
    requires Doing(fs, before, 1) && 0 < i < fs.sb.ninodes && d < fs.sb.ninodes && i < SHORT && d < SHORT && i != d
    requires Bare(fs.ino[i]) && fs.ino[d].nlink + 1 < SHORT && fs.logged == {IBlock(fs.sb, i)}
    modifies fs`store, fs`ino, fs`logged
    ensures Healthy(fs.sb, old(fs.F())) && Healthy(fs.sb, f2)
    ensures ok && old(fs.ino)[i].typ == T_DIR ==>
              && FieldsSet(fs.sb, old(fs.F()), f2, d, old(fs.ino)[d].(nlink := old(fs.ino)[d].nlink + 1))
              && Dotted(fs.sb, f2, fs.F(), i, d)
    ensures ok && old(fs.ino)[i].typ != T_DIR ==> fs.F() == old(fs.F())
    ensures ok ==> Doing(fs, before, 4)
    ensures !ok ==> NoneFree(fs.sb, fs.store)
  {
    hide Healthy, FieldsSet, Doing, InoOk, NoneFree, Dotted;
    DoingHealthy(fs, before, 1);
    f2 := fs.F();
    ok := true;
    if fs.ino[i].typ == T_DIR {
      NlinkOk(fs.sb, f2, d, fs.ino[d].nlink + 1);
      ghost var most := if IBlock(fs.sb, d) in fs.logged then 1 else 2;
      Update(fs, d, fs.ino[d].(nlink := fs.ino[d].nlink + 1), before, 1);
      FieldsInos(fs.sb, f2, fs.F(), d, f2.ino[d].(nlink := f2.ino[d].nlink + 1));
      f2 := fs.F();
      DoingMore(fs, before, most, 2);
      ok := Dots(fs, i, d, before);
    } else {
      DoingMore(fs, before, 1, 4);
    }
  }

  lemma MadeDone(sb: Superblock, f: Fs, f1: Fs, f2: Fs, f3: Fs, f4: Fs, i: nat, d: nat, k: nat, name: string, x: Ino)
    requires Healthy(sb, f) && Healthy(sb, f1) && Healthy(sb, f2) && Healthy(sb, f3)
    requires LowestUnused(sb, f, i) && Bare(f.ino[i]) && d < sb.ninodes && i != d && x.typ != 0
    requires FieldsSet(sb, f, f1, i, Ino(x.typ, x.major, x.minor, 1, 0, f.ino[i].addrs))
    requires if x.typ == T_DIR
             then FieldsSet(sb, f1, f2, d, f1.ino[d].(nlink := f1.ino[d].nlink + 1)) && Dotted(sb, f2, f3, i, d)
             else f3 == f1
    requires Dir(sb, f3, d) == Dir(sb, f, d) && Paths.FirstFree(Dir(sb, f, d), k)
    requires Changed(sb, f3, f4, d, k, Paths.Entry(i, name))
    ensures Made(sb, f, f4, i, d, k, name, x)
  {
    FreshEmpty(sb, f, i);
    hide EntriesOf, Content, SlotsOk, BitmapOk, NoHoles, SameSlots, Healthy;
  }

  lemma SameParent(sb: Superblock, f: Fs, f1: Fs, f2: Fs, f3: Fs, i: nat, d: nat, x: Ino)
    requires Healthy(sb, f) && Healthy(sb, f1) && Healthy(sb, f2) && i < sb.ninodes && d < sb.ninodes && i != d
    requires FieldsSet(sb, f, f1, i, x)
    requires if x.typ == T_DIR
             then FieldsSet(sb, f1, f2, d, f1.ino[d].(nlink := f1.ino[d].nlink + 1)) && Dotted(sb, f2, f3, i, d)
             else f3 == f1
    ensures Healthy(sb, f3) && Dir(sb, f3, d) == Dir(sb, f, d) && |f3.ino| == |f.ino| == sb.ninodes
    ensures f3.ino[d].typ == f.ino[d].typ && f3.ino[d].size == f.ino[d].size
  {
    hide EntriesOf, SlotsOk, BitmapOk, NoHoles, SameSlots;
  }

  /** create after its lookup, which found nothing: an inode, its dots if it is a directory, and its name. It panics
      when no inode or block is left, or the parent cannot take an entry; "create dots" and "create: dirlink" do not
      happen otherwise. A transaction of at most nine blocks. */
  method Create(fs: FileSystem, d: nat, name: string, typ: nat, major: nat, minor: nat)
      returns (r: Option<nat>, ghost k: nat, ghost tx: Tx)
    requires Healthy(fs.sb, fs.F()) && fs.Stored() && UnusedBare(fs.sb, fs.F()) && d < fs.sb.ninodes <= SHORT
    requires fs.ino[d].typ == T_DIR && fs.ino[d].nlink + 1 < SHORT && Plain(name)
    requires Paths.Find(Dir(fs.sb, fs.F(), d), name).None?
    requires 0 < typ < SHORT && major < SHORT && minor < SHORT
    modifies fs`store, fs`ino, fs`logged, fs`start
    ensures r.Some? ==>
              && r.value < fs.sb.ninodes && fs.Stored() && Whole(fs.sb, tx, old(fs.store), fs.store, 9)
              && Made(fs.sb, old(fs.F()), fs.F(), r.value, d, k, name, Ino(typ, major, minor, 1, 0, []))
    ensures r.None? ==>
              || NoneFree(fs.sb, fs.store) || old(fs.ino)[d].size % 16 != 0 || old(fs.ino)[d].size == MAXFILE * BSIZE
              || forall j :: 0 < j < fs.sb.ninodes ==> old(fs.ino)[j].typ != 0
  {
    hide Healthy, Changed, Logs, Whole, Made, FieldsSet, Doing, Dir, Plain, InoOk, NoneFree;
    hide Dotted, UnusedBare, Paths.FindFrom, Paths.FirstFree;
    ghost var f := fs.F();
    NlinkOk(fs.sb, f, d, 0);
    k, tx := 0, Tx(fs.start, fs.store, fs.logged);
    Begin(fs);
    r := NewInode(fs, typ, major, minor, f.store);
    if r.None? {
      return;
    }
    var i := r.value;
    ghost var f1, x := fs.F(), Ino(typ, major, minor, 1, 0, f.ino[i].addrs);
    FieldsInos(fs.sb, f, f1, i, x);
    var ok;
    ghost var f2;
    ok, f2 := Furnish(fs, i, d, f.store);
    if !ok {
      return None, k, tx;
    }
    ghost var f3, most := fs.F(), 4 + if IBlock(fs.sb, d) in fs.logged then 4 else 5;
    SameParent(fs.sb, f, f1, f2, f3, i, d, x);
    var e;
    e, k := Enter(fs, d, name, i, f.store, 4);
    if e.Panic? {
      return None, k, tx;
    }
    MadeDone(fs.sb, f, f1, f2, f3, fs.F(), i, d, k, name, Ino(typ, major, minor, 1, 0, []));
    DoingMore(fs, f.store, most, 9);
    DoneWhole(fs, f.store, 9);
    tx := Tx(fs.start, fs.store, fs.logged);
  }
}
