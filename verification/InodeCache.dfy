/** The in-memory inode table of kernel/fs.c: slots with reference counts. */
module InodeCache {
  import opened Blocks
  import opened Paths

  datatype Slot = Slot(ref: nat, inum: nat, valid: bool)

  /** References to inode i, over all slots. */
  function Count(slots: seq<Slot>, i: nat): nat {
    if slots == [] then 0
    else Count(slots[..|slots| - 1], i) + (if slots[|slots| - 1].inum == i then slots[|slots| - 1].ref else 0)
  }

  function Share(t: Slot, i: nat): nat { if t.inum == i then t.ref else 0 }

  lemma {:induction false} CountSet(slots: seq<Slot>, s: nat, t: Slot, i: nat)
    requires s < |slots|
    ensures Count(slots[s := t], i) + Share(slots[s], i) == Count(slots, i) + Share(t, i)
  {
    var n := |slots| - 1;
    if s == n {
      assert slots[s := t][..n] == slots[..n];
    } else {
      assert slots[s := t][..n] == slots[..n][s := t];
      CountSet(slots[..n], s, t, i);
    }
  }

  /** At most one slot in use per inode. */
  ghost predicate Unique(slots: seq<Slot>) {
    forall s, t :: 0 <= s < |slots| && 0 <= t < |slots| && slots[s].ref > 0 && slots[t].ref > 0 ==>
      slots[s].inum == slots[t].inum ==> s == t
  }

  /** So the slot's count is the inode's. */
  lemma {:induction false} CountIs(slots: seq<Slot>, s: nat)
    requires Unique(slots) && s < |slots| && slots[s].ref > 0
    ensures Count(slots, slots[s].inum) == slots[s].ref
  {
    var n, i := |slots| - 1, slots[s].inum;
    if s == n {
      NoneLeft(slots[..n], i);
    } else {
      assert slots[..n][s] == slots[s];
      CountIs(slots[..n], s);
    }
  }

  lemma {:induction false} NoneLeft(slots: seq<Slot>, i: nat)
    requires forall s :: 0 <= s < |slots| && slots[s].ref > 0 ==> slots[s].inum != i
    ensures Count(slots, i) == 0
  {
    if slots != [] { NoneLeft(slots[..|slots| - 1], i); }
  }

  /** An inode with no links left is in use by somebody, or it would have been freed. */
  ghost predicate NoOrphan(tree: Tree, slots: seq<Slot>) {
    forall i :: i in tree && tree[i].nlink == 0 ==> Count(slots, i) > 0
  }

  /** A slot that has been read is that of an inode in use. */
  ghost predicate Backed(tree: Tree, slots: seq<Slot>) {
    forall s :: 0 <= s < |slots| && slots[s].ref > 0 && slots[s].valid ==> slots[s].inum in tree
  }

  /** Slots in use stay in use, for the same inodes. */
  ghost predicate Held(before: seq<Slot>, slots: seq<Slot>) {
    && |slots| == |before|
    && forall t :: 0 <= t < |before| && before[t].ref > 0 ==> slots[t].inum == before[t].inum && slots[t].ref > 0
  }

  /** At least the references of before, and one to i. */
  ghost predicate AtLeast(before: seq<Slot>, slots: seq<Slot>, i: nat) {
    forall x: nat :: Count(slots, x) >= Count(before, x) + if x == i then 1 else 0
  }

  /** Giving up a reference that came on top of those in before. */
  lemma StillHeld(before: seq<Slot>, mid: seq<Slot>, slots: seq<Slot>, s: nat)
    requires Held(before, mid) && |slots| == |mid| && s < |slots| && slots[s].inum == mid[s].inum && Unique(before)
    requires forall t :: 0 <= t < |slots| && t != s ==> slots[t] == mid[t]
    requires AtLeast(before, mid, mid[s].inum) && (Count(mid, mid[s].inum) >= 2 ==> slots[s].ref > 0)
    ensures Held(before, slots)
  {
    if before[s].ref > 0 {
      CountIs(before, s);
    }
  }

  lemma HeldTrans(a: seq<Slot>, b: seq<Slot>, c: seq<Slot>)
    requires Held(a, b) && Held(b, c)
    ensures Held(a, c)
  {}

  /** The counts of slots are those of before, plus one for inode i if there is one. */
  ghost predicate Plus(before: seq<Slot>, slots: seq<Slot>, i: Option<nat>) {
    forall x: nat :: Count(slots, x) == Count(before, x) + if i == Some(x) then 1 else 0
  }

  lemma PlusOrphan(tree: Tree, before: seq<Slot>, slots: seq<Slot>, i: Option<nat>)
    requires NoOrphan(tree, before) && Plus(before, slots, i)
    ensures NoOrphan(tree, slots)
  {}

  // ----- the operations on slots

  lemma Taken(slots: seq<Slot>, s: nat, t: Slot)
    requires s < |slots| && t.ref > 0 && Unique(slots)
    requires if slots[s].ref > 0 then t.inum == slots[s].inum && t.ref == slots[s].ref + 1
             else t.ref == 1 && forall x :: 0 <= x < |slots| && slots[x].ref > 0 ==> slots[x].inum != t.inum
    ensures Unique(slots[s := t]) && Plus(slots, slots[s := t], Some(t.inum))
  {
    forall x: nat ensures Count(slots[s := t], x) == Count(slots, x) + if Some(t.inum) == Some(x) then 1 else 0 {
      CountSet(slots, s, t, x);
    }
  }

  lemma Dropped(slots: seq<Slot>, s: nat, t: Slot)
    requires s < |slots| && Unique(slots) && slots[s].ref > 0 && t.inum == slots[s].inum && t.ref == slots[s].ref - 1
    ensures Unique(slots[s := t]) && Plus(slots[s := t], slots, Some(t.inum))
  {
    forall x: nat ensures Count(slots, x) == Count(slots[s := t], x) + if Some(t.inum) == Some(x) then 1 else 0 {
      CountSet(slots, s, t, x);
    }
  }

  lemma Marked(slots: seq<Slot>, s: nat, v: bool)
    requires s < |slots| && Unique(slots)
    ensures Unique(slots[s := slots[s].(valid := v)]) && Plus(slots, slots[s := slots[s].(valid := v)], None)
  {
    forall x: nat ensures Count(slots[s := slots[s].(valid := v)], x) == Count(slots, x) {
      CountSet(slots, s, slots[s].(valid := v), x);
    }
  }

  // ----- references held on top of those at the start of a call

  /** The counts of before, and the references in m. */
  ghost predicate Holds(before: seq<Slot>, slots: seq<Slot>, m: multiset<nat>) {
    forall x: nat :: Count(slots, x) == Count(before, x) + m[x]
  }

  lemma HoldsNone(slots: seq<Slot>)
    ensures Holds(slots, slots, multiset{}) && Held(slots, slots)
  {}

  lemma HoldsMore(before: seq<Slot>, a: seq<Slot>, b: seq<Slot>, m: multiset<nat>, i: nat)
    requires Holds(before, a, m) && Plus(a, b, Some(i))
    ensures Holds(before, b, m + multiset{i})
  {
    forall x: nat ensures Count(b, x) == Count(before, x) + (m + multiset{i})[x] {
      assert Count(b, x) == Count(a, x) + if Some(i) == Some(x) then 1 else 0;
    }
  }

  lemma HoldsLess(before: seq<Slot>, a: seq<Slot>, b: seq<Slot>, m: multiset<nat>, i: nat)
    requires Holds(before, a, m) && Plus(b, a, Some(i)) && i in m
    ensures Holds(before, b, m - multiset{i})
  {
    forall x: nat ensures Count(b, x) == Count(before, x) + (m - multiset{i})[x] {
      assert Count(a, x) == Count(b, x) + if Some(i) == Some(x) then 1 else 0;
    }
  }

  lemma HoldsStill(before: seq<Slot>, a: seq<Slot>, b: seq<Slot>, m: multiset<nat>)
    requires Holds(before, a, m) && Plus(a, b, None)
    ensures Holds(before, b, m)
  {
    forall x: nat ensures Count(b, x) == Count(before, x) + m[x] {
      assert Count(b, x) == Count(a, x);
    }
  }

  lemma HoldsFacts(tree: Tree, before: seq<Slot>, slots: seq<Slot>, m: multiset<nat>, i: nat)
    requires Holds(before, slots, m)
    ensures i in m ==> AtLeast(before, slots, i)
    ensures NoOrphan(tree, before) ==> NoOrphan(tree, slots)
    ensures m == multiset{} ==> Plus(before, slots, None)
    ensures m == multiset{i} ==> Plus(before, slots, Some(i))
  {}
}
