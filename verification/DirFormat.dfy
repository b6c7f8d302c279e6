/** Directories as files: entries of sixteen bytes, an inode number and a name of at most DIRSIZ characters. */
module DirFormat {
  import opened Blocks
  import opened Paths

  const T_DIR: nat := 1
  const T_FILE: nat := 2

  /** struct dirent: the inode number and the name, cut or padded to DIRSIZ bytes. */
  function Dirent(inum: nat, name: seq<byte>): (d: seq<byte>)
    ensures |d| == 16
  {
    var cut := name[..Min(DIRSIZ, |name|)];
    [inum % 256, inum / 256 % 256] + cut + seq(DIRSIZ - |cut|, _ => 0)
  }

  /** The characters up to the first NUL. */
  function NameOf(d: seq<byte>): string {
    if d == [] || d[0] == 0 then "" else [d[0] as char] + NameOf(d[1..])
  }

  /** A name that skipelem can give: no NUL, and no longer than DIRSIZ. */
  predicate Plain(name: string) {
    |name| <= DIRSIZ && forall k :: 0 <= k < |name| ==> 0 < name[k] as int < 256
  }

  function BytesOf(name: string): seq<byte>
    requires Plain(name)
  {
    seq(|name|, k requires 0 <= k < |name| => name[k] as int)
  }

  function Decode(d: seq<byte>): Entry
    requires |d| == 16
  {
    Entry(d[0] as int + 256 * (d[1] as int), NameOf(d[2..]))
  }

  /** The whole entries of a directory's bytes. */
  function EntriesOf(c: seq<byte>): seq<Entry> {
    seq(|c| / 16, k requires 0 <= k < |c| / 16 => Decode(c[16 * k..16 * (k + 1)]))
  }

  lemma {:induction false} NameRound(name: string, pad: seq<byte>)
    requires Plain(name) && forall k :: 0 <= k < |pad| ==> pad[k] == 0
    ensures NameOf(BytesOf(name) + pad) == name
  {
    var d := BytesOf(name) + pad;
    if name == "" {
      assert d == pad;
    } else {
      NameRound(name[1..], pad);
      assert d[1..] == BytesOf(name[1..]) + pad;
      assert name == [name[0]] + name[1..];
    }
  }

  /** What dirlink stores, dirlookup reads. */
  lemma EntryRound(inum: nat, name: string)
    requires Plain(name) && inum < 65536
    ensures Decode(Dirent(inum, BytesOf(name))) == Entry(inum, name)
  {
    var b := BytesOf(name);
    var pad: seq<byte> := seq(DIRSIZ - |b|, _ => 0);
    assert b[..Min(DIRSIZ, |b|)] == b;
    assert Dirent(inum, b)[2..] == b + pad;
    NameRound(name, pad);
  }

  /** A free entry. */
  lemma ZeroEntry(d: seq<byte>)
    requires |d| == 16 && forall k :: 0 <= k < |d| ==> d[k] == 0
    ensures Decode(d) == Entry(0, "")
  {
    assert d[2..] != [] && d[2..][0] == 0;
  }

  lemma EntryAt(c: seq<byte>, k: nat)
    requires 16 * (k + 1) <= |c|
    ensures k < |EntriesOf(c)| == |c| / 16 && EntriesOf(c)[k] == Decode(c[16 * k..16 * (k + 1)])
  {}
}
