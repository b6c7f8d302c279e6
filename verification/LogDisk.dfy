/** The on-disk redo log: what a disk image means once recovery has run over it, and how each
    kind of block write that commit() and recover_from_log() issue changes that meaning. */
module LogDisk {
  import opened Blocks
  import opened CacheModel

  type Disk = seq<Block>

  /** The superblock fields the log uses, with the two compile-time bounds of param.h. */
  datatype Layout = Layout(size: nat, logstart: nat, nlog: nat, logSize: nat, maxOp: nat)

  /** initlog's check on the header size, and a log region that lies on the disk. */
  ghost predicate LayoutOk(L: Layout) {
    && 4 * (L.logSize + 1) < BSIZE
    && 0 < L.nlog
    && L.logstart + L.nlog <= L.size <= TWO32
  }

  /** Blocks outside the log region. */
  predicate Home(L: Layout, b: nat) {
    b < L.size && !(L.logstart <= b < L.logstart + L.nlog)
  }

  function LogBlock(L: Layout, k: nat): nat {
    L.logstart + 1 + k
  }

  /** Different blocks outside the log region, no more than a header has room for. */
  ghost predicate ListOk(L: Layout, lh: seq<nat>) {
    |lh| <= L.logSize && Distinct(lh) && forall k :: 0 <= k < |lh| ==> Home(L, lh[k])
  }

  /** Such a list whose log blocks lie inside the log region. */
  ghost predicate EntriesOk(L: Layout, lh: seq<nat>) {
    ListOk(L, lh) && |lh| < L.nlog
  }

  ghost predicate HeadReadable(L: Layout, disk: Disk)
    requires LayoutOk(L)
  {
    |disk| == L.size && WordAt(disk[L.logstart], 0) < WORDS
  }

  ghost function Header(L: Layout, disk: Disk): seq<nat>
    requires LayoutOk(L) && HeadReadable(L, disk)
  {
    DecodeHead(disk[L.logstart])
  }

  ghost predicate HeadOk(L: Layout, disk: Disk)
    requires LayoutOk(L)
  {
    HeadReadable(L, disk) && ListOk(L, Header(L, disk))
  }

  ghost predicate DiskOk(L: Layout, disk: Disk)
    requires LayoutOk(L)
  {
    HeadReadable(L, disk) && EntriesOk(L, Header(L, disk))
  }

  ghost function IndexOf(s: seq<nat>, x: nat): (k: nat)
    requires x in s
    ensures k < |s| && s[k] == x
  {
    if s[0] == x then 0 else 1 + IndexOf(s[1..], x)
  }

  /** Contents of home block b after a completed recovery from this disk image. */
  ghost function RecoveredAt(L: Layout, disk: Disk, b: nat): Block
    requires LayoutOk(L) && DiskOk(L, disk) && Home(L, b)
  {
    var lh := Header(L, disk);
    if b in lh then disk[LogBlock(L, IndexOf(lh, b))] else disk[b]
  }

  /** The durable block map: every home block as recovery would leave it. */
  ghost function Durable(L: Layout, disk: Disk): map<nat, Block>
    requires LayoutOk(L) && DiskOk(L, disk)
  {
    map b | 0 <= b < L.size && Home(L, b) :: RecoveredAt(L, disk, b)
  }

  /** write_log: with an empty header on disk, log blocks carry no meaning. */
  lemma LogBlockWrite(L: Layout, disk: Disk, k: nat, data: Block)
    requires LayoutOk(L) && DiskOk(L, disk) && Header(L, disk) == []
    requires LogBlock(L, k) < L.logstart + L.nlog
    ensures var disk' := disk[LogBlock(L, k) := data];
            DiskOk(L, disk') && Header(L, disk') == [] && Durable(L, disk') == Durable(L, disk)
  {
    var disk' := disk[LogBlock(L, k) := data];
    assert disk'[L.logstart] == disk[L.logstart];
  }

  lemma HeadWrite(L: Layout, disk: Disk, buf: Block, lh: seq<nat>)
    requires LayoutOk(L) && |disk| == L.size && EntriesOk(L, lh)
    ensures var disk' := disk[L.logstart := EncodeHead(buf, lh)];
            DiskOk(L, disk') && Header(L, disk') == lh
  {
    HeadRoundTrip(buf, lh);
  }

  /** write_head: the one write that makes every logged block durable together. */
  lemma HeadWriteCommits(L: Layout, disk: Disk, buf: Block, lh: seq<nat>, vol: map<nat, Block>)
    requires LayoutOk(L) && |disk| == L.size && EntriesOk(L, lh)
    requires forall b :: b in vol <==> 0 <= b < L.size && Home(L, b)
    requires forall k :: 0 <= k < |lh| ==> disk[LogBlock(L, k)] == vol[lh[k]]
    requires forall b :: b in vol && b !in lh ==> disk[b] == vol[b]
    ensures var disk' := disk[L.logstart := EncodeHead(buf, lh)];
            DiskOk(L, disk') && Header(L, disk') == lh && Durable(L, disk') == vol
  {
    var disk' := disk[L.logstart := EncodeHead(buf, lh)];
    HeadWrite(L, disk, buf, lh);
    forall b | 0 <= b < L.size && Home(L, b) ensures RecoveredAt(L, disk', b) == vol[b] {
      if b in lh {
        var k := IndexOf(lh, b);
        assert disk'[LogBlock(L, k)] == disk[LogBlock(L, k)] == vol[lh[k]];
      }
    }
  }

  /** install_trans: copying a logged block home changes nothing recovery would not change. */
  lemma InstallWrite(L: Layout, disk: Disk, t: nat)
    requires LayoutOk(L) && DiskOk(L, disk) && t < |Header(L, disk)|
    ensures var disk' := disk[Header(L, disk)[t] := disk[LogBlock(L, t)]];
            DiskOk(L, disk') && Header(L, disk') == Header(L, disk) && Durable(L, disk') == Durable(L, disk)
  {
    var lh := Header(L, disk);
    var disk' := disk[lh[t] := disk[LogBlock(L, t)]];
    assert disk'[L.logstart] == disk[L.logstart];
    forall b | 0 <= b < L.size && Home(L, b) ensures RecoveredAt(L, disk', b) == RecoveredAt(L, disk, b) {
      if b in lh {
        assert LogBlock(L, IndexOf(lh, b)) != lh[t];
      } else {
        assert b != lh[t];
      }
    }
  }

  /** Clearing the header is harmless once every logged block has reached its home. */
  lemma EraseWrite(L: Layout, disk: Disk, buf: Block)
    requires LayoutOk(L) && DiskOk(L, disk)
    requires forall k :: 0 <= k < |Header(L, disk)| ==> disk[LogBlock(L, k)] == disk[Header(L, disk)[k]]
    ensures var disk' := disk[L.logstart := EncodeHead(buf, [])];
            DiskOk(L, disk') && Header(L, disk') == [] && Durable(L, disk') == Durable(L, disk)
  {
    var lh := Header(L, disk);
    forall b | 0 <= b < L.size && Home(L, b) ensures RecoveredAt(L, disk, b) == disk[b] {
      if b in lh {
        assert disk[LogBlock(L, IndexOf(lh, b))] == disk[lh[IndexOf(lh, b)]];
      }
    }
    HeadWriteCommits(L, disk, buf, [], Durable(L, disk));
  }
}
