/** Link counts: what sys_link, sys_unlink and create keep true of the directory tree. */
module Links {
  import opened Blocks
  import opened Paths

  predicate IsDir(tree: Tree, d: nat) { d in tree && tree[d].kind == Dir }

  /** A directory that is still in the tree, not one that was removed while in use. */
  predicate Linked(tree: Tree, d: nat) { IsDir(tree, d) && tree[d].nlink > 0 }

  /** Entry k of directory d, other than ".", names inode i. */
  predicate Names(tree: Tree, d: nat, k: nat, i: nat) {
    Linked(tree, d) && 1 <= k < |tree[d].entries| && tree[d].entries[k].inum == i
  }

  /** The entries, other than ".", that name inode i in linked directories. */
  ghost function Refs(tree: Tree, i: nat): set<(nat, nat)> {
    set d, k | d in tree && 1 <= k < |tree[d].entries| && Names(tree, d, k, i) :: (d, k)
  }

  /** Every link count is the number of entries naming the inode. */
  ghost predicate Balanced(tree: Tree) {
    forall i {:trigger Refs(tree, i)} :: i in tree ==> tree[i].nlink == |Refs(tree, i)|
  }

  /** "." and ".." come first, names in a directory differ, entries lead to inodes in use, and a removed
      directory has nothing but its dots. */
  ghost predicate Formed(tree: Tree) {
    && 0 !in tree
    && (forall i :: i in tree && tree[i].kind != Dir ==> tree[i].entries == [])
    && (forall d {:trigger DirFormed(tree, d)} :: IsDir(tree, d) ==> DirFormed(tree, d))
    && (forall d, k, i :: Names(tree, d, k, i) && i != 0 ==> i in tree)
  }

  ghost predicate DirFormed(tree: Tree, d: nat)
    requires d in tree
  {
    var es := tree[d].entries;
    && |es| >= 2 && es[0] == Entry(d, ".") && es[1].name == ".." && es[1].inum != 0
    && (forall j, k :: 0 <= j < k < |es| && es[j].inum != 0 && es[k].inum != 0 ==> es[j].name != es[k].name)
    && (tree[d].nlink == 0 ==> forall k :: 2 <= k < |es| ==> es[k].inum == 0)
  }

  /** The root, and every other linked directory, hang in the tree by exactly one name, in the directory
      that their ".." names. */
  ghost predicate Hung(tree: Tree) {
    && Linked(tree, ROOTINO) && |tree[ROOTINO].entries| >= 2 && tree[ROOTINO].entries[1].inum == ROOTINO
    && (forall d, k :: k >= 2 ==> !Names(tree, d, k, ROOTINO))
    && (forall c {:trigger IsHung(tree, c)} :: Linked(tree, c) && c != ROOTINO ==> IsHung(tree, c))
    && (forall c, d, k, d', k' :: Linked(tree, c) && k >= 2 && k' >= 2 && Names(tree, d, k, c) ==>
        Names(tree, d', k', c) ==> d == d' && k == k')
  }

  ghost predicate IsHung(tree: Tree, c: nat) { exists k :: k >= 2 && HasHome(tree, c, k) }

  /** Entry k of the directory that c's ".." names is c's name. */
  predicate HasHome(tree: Tree, c: nat, k: nat) {
    IsDir(tree, c) && |tree[c].entries| >= 2 && Names(tree, tree[c].entries[1].inum, k, c)
  }

  ghost predicate LinkOk(tree: Tree) { Balanced(tree) && Formed(tree) && Hung(tree) }

  // ----- changing one entry

  /** Entry k of a directory, or a new last entry, set to e. */
  function Put(es: seq<Entry>, k: nat, e: Entry): seq<Entry>
    requires k <= |es|
  {
    if k < |es| then es[k := e] else es + [e]
  }

  function WithEntry(tree: Tree, d: nat, k: nat, e: Entry): Tree
    requires d in tree && k <= |tree[d].entries|
  {
    tree[d := tree[d].(entries := Put(tree[d].entries, k, e))]
  }

  function WithLinks(tree: Tree, i: nat, n: int): Tree
    requires i in tree
  {
    tree[i := tree[i].(nlink := n)]
  }

  lemma RefsIn(tree: Tree, i: nat, d: nat, k: nat)
    ensures (d, k) in Refs(tree, i) <==> Names(tree, d, k, i)
  {}

  // ----- what a change means for the counts

  /** Entry (d, k) now names i, and that is the only change in what is named. */
  ghost predicate Gains(tree: Tree, tree': Tree, d: nat, k: nat, i: nat) {
    && !Names(tree, d, k, i) && i != 0
    && forall x, y, z :: z != 0 ==> (Names(tree', x, y, z) <==> Names(tree, x, y, z) || (x == d && y == k && z == i))
  }

  lemma RefsGain(tree: Tree, tree': Tree, d: nat, k: nat, i: nat, x: nat)
    requires Gains(tree, tree', d, k, i) && x != 0
    ensures |Refs(tree', x)| == |Refs(tree, x)| + if x == i then 1 else 0
  {
    hide Names;
    forall a, b ensures (a, b) in Refs(tree', x) <==> (a, b) in Refs(tree, x) || (x == i && a == d && b == k) {
      RefsIn(tree, x, a, b);
      RefsIn(tree', x, a, b);
    }
    RefsIn(tree, i, d, k);
    if x == i {
      assert Refs(tree', x) == Refs(tree, x) + {(d, k)};
    } else {
      assert Refs(tree', x) == Refs(tree, x);
    }
  }

  /** Counts that follow the entries keep the balance. */
  lemma GainBalanced(tree: Tree, tree': Tree, d: nat, k: nat, i: nat)
    requires Balanced(tree) && 0 !in tree && Gains(tree, tree', d, k, i) && tree'.Keys == tree.Keys
    requires forall x :: x in tree ==> tree'[x].nlink == tree[x].nlink + if x == i then 1 else 0
    ensures Balanced(tree')
  {
    hide Gains, Refs;
    forall x | x in tree' ensures tree'[x].nlink == |Refs(tree', x)| {
      RefsGain(tree, tree', d, k, i, x);
    }
  }

  // ----- a new name for a file: sys_link

  lemma AddName(tree: Tree, d: nat, k: nat, name: string, i: nat)
    requires LinkOk(tree) && Linked(tree, d) && i in tree && tree[i].kind != Dir
    requires 2 <= k <= |tree[d].entries| && (k < |tree[d].entries| ==> tree[d].entries[k].inum == 0)
    requires Find(tree[d].entries, name).None?
    ensures LinkOk(WithEntry(WithLinks(tree, i, tree[i].nlink + 1), d, k, Entry(i, name)))
  {
    hide Balanced, Hung, Formed, Names, Gains;
    var tree' := WithEntry(WithLinks(tree, i, tree[i].nlink + 1), d, k, Entry(i, name));
    NoZero(tree);
    AddNames(tree, tree', d, k, name, i);
    GainBalanced(tree, tree', d, k, i);
    AddFormed(tree, tree', d, k, name, i);
    AddHung(tree, tree', d, k, name, i);
  }

  lemma NoZero(tree: Tree)
    requires Formed(tree)
    ensures 0 !in tree
  {}

  lemma AddNames(tree: Tree, tree': Tree, d: nat, k: nat, name: string, i: nat)
    requires Linked(tree, d) && i in tree && i != d && i != 0 && 2 <= k <= |tree[d].entries|
    requires (k < |tree[d].entries| ==> tree[d].entries[k].inum == 0)
    requires tree[i].kind != Dir && tree' == WithEntry(WithLinks(tree, i, tree[i].nlink + 1), d, k, Entry(i, name))
    ensures Gains(tree, tree', d, k, i)
  {}

  lemma AddFormed(tree: Tree, tree': Tree, d: nat, k: nat, name: string, i: nat)
    requires Formed(tree) && Linked(tree, d) && i in tree && tree[i].kind != Dir && i != d
    requires Gains(tree, tree', d, k, i)
    requires 2 <= k <= |tree[d].entries| && (k < |tree[d].entries| ==> tree[d].entries[k].inum == 0)
    requires Find(tree[d].entries, name).None?
    requires tree' == WithEntry(WithLinks(tree, i, tree[i].nlink + 1), d, k, Entry(i, name))
    ensures Formed(tree')
  {
    forall x | IsDir(tree', x) ensures DirFormed(tree', x) {
      assert DirFormed(tree, x);
    }
    hide Names;
  }

  lemma AddHung(tree: Tree, tree': Tree, d: nat, k: nat, name: string, i: nat)
    requires Hung(tree) && Formed(tree) && Linked(tree, d) && i in tree && tree[i].kind != Dir && i != d
    requires Gains(tree, tree', d, k, i)
    requires 2 <= k <= |tree[d].entries| && (k < |tree[d].entries| ==> tree[d].entries[k].inum == 0)
    requires tree' == WithEntry(WithLinks(tree, i, tree[i].nlink + 1), d, k, Entry(i, name))
    ensures Hung(tree')
  {
    forall c | Linked(tree', c) && c != ROOTINO ensures IsHung(tree', c) {
      assert Linked(tree, c) && IsHung(tree, c);
      var h :| h >= 2 && HasHome(tree, c, h);
      assert HasHome(tree', c, h);
    }
    hide Names, Formed;
  }

  // ----- a name less for a file: sys_unlink

  /** Entry (d, k) no longer names i, and that is the only change in what is named. */
  ghost predicate Loses(tree: Tree, tree': Tree, d: nat, k: nat, i: nat) {
    && Names(tree, d, k, i) && i != 0
    && forall x, y, z :: z != 0 ==> (Names(tree', x, y, z) <==> Names(tree, x, y, z) && !(x == d && y == k && z == i))
  }

  lemma RefsLose(tree: Tree, tree': Tree, d: nat, k: nat, i: nat, x: nat)
    requires Loses(tree, tree', d, k, i) && x != 0
    ensures |Refs(tree', x)| == |Refs(tree, x)| - if x == i then 1 else 0
  {
    hide Names;
    forall a, b ensures (a, b) in Refs(tree', x) <==> (a, b) in Refs(tree, x) && !(x == i && a == d && b == k) {
      RefsIn(tree, x, a, b);
      RefsIn(tree', x, a, b);
    }
    RefsIn(tree, i, d, k);
    if x == i {
      assert Refs(tree', x) == Refs(tree, x) - {(d, k)};
    } else {
      assert Refs(tree', x) == Refs(tree, x);
    }
  }

  lemma LoseBalanced(tree: Tree, tree': Tree, d: nat, k: nat, i: nat)
    requires Balanced(tree) && 0 !in tree && Loses(tree, tree', d, k, i) && tree'.Keys == tree.Keys
    requires forall x :: x in tree ==> tree'[x].nlink == tree[x].nlink - if x == i then 1 else 0
    ensures Balanced(tree')
  {
    hide Loses, Refs;
    forall x | x in tree' ensures tree'[x].nlink == |Refs(tree', x)| {
      RefsLose(tree, tree', d, k, i, x);
    }
  }

  const NOENTRY: Entry := Entry(0, "")

  lemma DropName(tree: Tree, d: nat, k: nat, i: nat)
    requires LinkOk(tree) && i in tree && tree[i].kind != Dir && k >= 2 && Names(tree, d, k, i)
    ensures i != d && LinkOk(WithLinks(WithEntry(tree, d, k, NOENTRY), i, tree[i].nlink - 1))
  {
    hide Balanced, Hung, Formed, Loses;
    var tree' := WithLinks(WithEntry(tree, d, k, NOENTRY), i, tree[i].nlink - 1);
    NoZero(tree);
    DropNames(tree, tree', d, k, i);
    LoseBalanced(tree, tree', d, k, i);
    DropFormed(tree, tree', d, k, i);
    DropHung(tree, tree', d, k, i);
  }

  lemma DropNames(tree: Tree, tree': Tree, d: nat, k: nat, i: nat)
    requires i in tree && i != 0 && tree[i].kind != Dir && k >= 2 && Names(tree, d, k, i) && i != d
    requires tree' == WithLinks(WithEntry(tree, d, k, NOENTRY), i, tree[i].nlink - 1)
    ensures Loses(tree, tree', d, k, i)
  {}

  lemma DropFormed(tree: Tree, tree': Tree, d: nat, k: nat, i: nat)
    requires Formed(tree) && i in tree && tree[i].kind != Dir && k >= 2 && Names(tree, d, k, i) && i != d
    requires Loses(tree, tree', d, k, i)
    requires tree' == WithLinks(WithEntry(tree, d, k, NOENTRY), i, tree[i].nlink - 1)
    ensures Formed(tree')
  {
    forall x | IsDir(tree', x) ensures DirFormed(tree', x) {
      assert DirFormed(tree, x);
    }
    hide Names;
  }

  lemma DropHung(tree: Tree, tree': Tree, d: nat, k: nat, i: nat)
    requires Hung(tree) && Formed(tree) && i in tree && tree[i].kind != Dir && k >= 2 && Names(tree, d, k, i) && i != d
    requires Loses(tree, tree', d, k, i)
    requires tree' == WithLinks(WithEntry(tree, d, k, NOENTRY), i, tree[i].nlink - 1)
    ensures Hung(tree')
  {
    forall c | Linked(tree', c) && c != ROOTINO ensures IsHung(tree', c) {
      assert Linked(tree, c) && IsHung(tree, c);
      var h :| h >= 2 && HasHome(tree, c, h);
      assert c != i;
      assert HasHome(tree', c, h);
    }
    hide Names, Formed;
  }

  // ----- an inode freed: iput

  lemma FreeInode(tree: Tree, i: nat)
    requires LinkOk(tree) && i in tree && tree[i].nlink == 0
    ensures LinkOk(tree - {i}) && forall d, k :: !Names(tree, d, k, i)
  {
    hide Balanced, Hung, Formed, Names;
    var tree' := tree - {i};
    FreeNames(tree, i);
    Unnamed(tree, i);
    FreeBalanced(tree, tree', i);
    FreeFormed(tree, tree', i);
    FreeHung(tree, tree', i);
  }

  lemma FreeNames(tree: Tree, i: nat)
    requires i in tree && tree[i].nlink == 0
    ensures forall x, y, z :: Names(tree - {i}, x, y, z) <==> Names(tree, x, y, z)
  {}

  lemma FreeFormed(tree: Tree, tree': Tree, i: nat)
    requires Formed(tree) && tree' == tree - {i} && (forall x, y, z :: Names(tree', x, y, z) <==> Names(tree, x, y, z))
    requires forall d, k :: !Names(tree, d, k, i)
    ensures Formed(tree')
  {
    hide Names;
    forall x | IsDir(tree', x) ensures DirFormed(tree', x) {
      assert DirFormed(tree, x);
    }
  }

  lemma Unnamed(tree: Tree, i: nat)
    requires Balanced(tree) && i in tree && tree[i].nlink == 0
    ensures forall d, k :: !Names(tree, d, k, i)
  {
    forall d, k ensures !Names(tree, d, k, i) {
      RefsIn(tree, i, d, k);
      assert |Refs(tree, i)| == 0;
    }
  }

  lemma FreeBalanced(tree: Tree, tree': Tree, i: nat)
    requires Balanced(tree) && tree' == tree - {i} && forall x, y, z :: Names(tree', x, y, z) <==> Names(tree, x, y, z)
    ensures Balanced(tree')
  {
    hide Names;
    forall x | x in tree' ensures tree'[x].nlink == |Refs(tree', x)| {
      SameRefs(tree, tree', x);
    }
  }

  lemma SameRefs(tree: Tree, tree': Tree, x: nat)
    requires forall a, b :: Names(tree', a, b, x) <==> Names(tree, a, b, x)
    ensures Refs(tree', x) == Refs(tree, x)
  {
    hide Names;
    forall a: nat, b: nat ensures (a, b) in Refs(tree', x) <==> (a, b) in Refs(tree, x) {
      RefsIn(tree, x, a, b);
      RefsIn(tree', x, a, b);
    }
  }

  lemma FreeHung(tree: Tree, tree': Tree, i: nat)
    requires Hung(tree) && i in tree && tree[i].nlink == 0 && tree' == tree - {i}
    requires forall x, y, z :: Names(tree', x, y, z) <==> Names(tree, x, y, z)
    ensures Hung(tree')
  {
    forall c | Linked(tree', c) && c != ROOTINO ensures IsHung(tree', c) {
      assert Linked(tree, c) && IsHung(tree, c);
      var h :| h >= 2 && HasHome(tree, c, h);
      assert HasHome(tree', c, h);
    }
    hide Names;
  }

  // ----- a directory removed: sys_unlink

  /** Nothing but the dots. */
  predicate IsEmpty(tree: Tree, c: nat) {
    c in tree && forall k :: 2 <= k < |tree[c].entries| ==> tree[c].entries[k].inum == 0
  }

  function Removed(tree: Tree, d: nat, k: nat, c: nat): Tree
    requires d in tree && c in tree && k <= |tree[d].entries|
  {
    WithLinks(WithLinks(WithEntry(tree, d, k, NOENTRY), d, tree[d].nlink - 1), c, tree[c].nlink - 1)
  }

  /** An empty directory has one link, its name; its parent has at least one more than its "..". */
  lemma EmptyDirLinks(tree: Tree, d: nat, k: nat, c: nat)
    requires LinkOk(tree) && IsDir(tree, c) && IsEmpty(tree, c) && k >= 2 && Names(tree, d, k, c)
    ensures c != ROOTINO && c != d && tree[c].nlink == 1 && |tree[c].entries| >= 2 && tree[c].entries[1].inum == d
    ensures tree[d].nlink >= 2
  {
    OnlyName(tree, d, k, c);
    assert Refs(tree, c) == {(d, k)};
    ParentLinks(tree, d, c);
  }

  lemma OnlyName(tree: Tree, d: nat, k: nat, c: nat)
    requires LinkOk(tree) && IsDir(tree, c) && IsEmpty(tree, c) && k >= 2 && Names(tree, d, k, c)
    ensures c != ROOTINO && Linked(tree, c) && |tree[c].entries| >= 2 && tree[c].entries[1].inum == d && c != d
    ensures forall x, y :: (x, y) in Refs(tree, c) <==> x == d && y == k
  {
    HasLink(tree, d, k, c);
    assert IsHung(tree, c);
    var h :| h >= 2 && HasHome(tree, c, h);
    forall x, y ensures (x, y) in Refs(tree, c) <==> x == d && y == k {
      RefsIn(tree, c, x, y);
      if Names(tree, x, y, c) && y == 1 { NoChild(tree, c, x); }
    }
  }

  lemma HasLink(tree: Tree, d: nat, k: nat, c: nat)
    requires Balanced(tree) && c in tree && Names(tree, d, k, c)
    ensures tree[c].nlink >= 1
  {
    RefsIn(tree, c, d, k);
    assert Refs(tree, c) != {};
  }

  /** No linked directory has an empty directory, other than the root, for its parent. */
  lemma NoChild(tree: Tree, c: nat, x: nat)
    requires Formed(tree) && Hung(tree) && IsEmpty(tree, c) && c != ROOTINO
    ensures !Names(tree, x, 1, c)
  {
    if Linked(tree, x) && x != ROOTINO {
      ParentNotEmpty(tree, x);
    }
  }

  lemma ParentNotEmpty(tree: Tree, x: nat)
    requires Formed(tree) && Hung(tree) && Linked(tree, x) && x != ROOTINO
    ensures |tree[x].entries| >= 2 && !IsEmpty(tree, tree[x].entries[1].inum)
  {
    assert IsHung(tree, x);
    var h :| h >= 2 && HasHome(tree, x, h);
    NoZero(tree);
  }

  lemma ParentLinks(tree: Tree, d: nat, c: nat)
    requires LinkOk(tree) && Linked(tree, c) && c != d && Linked(tree, d) && |tree[c].entries| >= 2
    requires tree[c].entries[1].inum == d
    ensures tree[d].nlink >= 2
  {
    RefsIn(tree, d, c, 1);
    assert d != ROOTINO ==> IsHung(tree, d);
    if d == ROOTINO {
      RefsIn(tree, d, d, 1);
      TwoRefs(Refs(tree, d), (c, 1), (d, 1));
    } else {
      var h :| h >= 2 && HasHome(tree, d, h);
      RefsIn(tree, d, tree[d].entries[1].inum, h);
      TwoRefs(Refs(tree, d), (c, 1), (tree[d].entries[1].inum, h));
    }
  }

  lemma TwoRefs(s: set<(nat, nat)>, a: (nat, nat), b: (nat, nat))
    requires a in s && b in s && a != b
    ensures |s| >= 2
  {
    assert {a, b} <= s;
    assert |s - {a, b}| == |s| - 2;
  }

  /** Directory c leaves: its name in d goes, and with it the ".." that named d. */
  ghost predicate LosesDir(tree: Tree, tree': Tree, d: nat, k: nat, c: nat) {
    && Names(tree, d, k, c) && Names(tree, c, 1, d) && c != 0 && d != 0 && c != d
    && forall x, y, z :: z != 0 ==>
         (Names(tree', x, y, z)
          <==> Names(tree, x, y, z) && !(x == d && y == k && z == c) && !(x == c && y == 1 && z == d))
  }

  lemma DropDir(tree: Tree, d: nat, k: nat, c: nat)
    requires LinkOk(tree) && IsDir(tree, c) && IsEmpty(tree, c) && k >= 2 && Names(tree, d, k, c)
    ensures LinkOk(Removed(tree, d, k, c))
  {
    EmptyDirLinks(tree, d, k, c);
    hide Balanced, Hung, Formed;
    var tree' := Removed(tree, d, k, c);
    NoZero(tree);
    DropDirNames(tree, tree', d, k, c);
    hide Names, LosesDir;
    DropDirBalanced(tree, tree', d, k, c);
    DropDirFormed(tree, tree', d, k, c);
    DropDirHung(tree, tree', d, k, c);
  }

  lemma DropDirNames(tree: Tree, tree': Tree, d: nat, k: nat, c: nat)
    requires Formed(tree) && IsDir(tree, c) && IsEmpty(tree, c) && k >= 2 && Names(tree, d, k, c) && c != d
    requires tree[c].nlink == 1 && tree[d].nlink >= 2
    requires |tree[c].entries| >= 2 && tree[c].entries[1].inum == d && tree' == Removed(tree, d, k, c)
    ensures LosesDir(tree, tree', d, k, c)
  {}

  lemma DropDirBalanced(tree: Tree, tree': Tree, d: nat, k: nat, c: nat)
    requires Balanced(tree) && 0 !in tree && d in tree && c in tree && k <= |tree[d].entries|
    requires LosesDir(tree, tree', d, k, c) && tree' == Removed(tree, d, k, c)
    ensures Balanced(tree')
  {
    hide Names;
    forall x | x in tree' ensures tree'[x].nlink == |Refs(tree', x)| {
      forall r: (nat, nat)
        ensures r in Refs(tree', x) <==> r in Refs(tree, x) && !(r == (d, k) && x == c) && !(r == (c, 1) && x == d)
      {
        RefsIn(tree, x, r.0, r.1);
        RefsIn(tree', x, r.0, r.1);
      }
      RefsIn(tree, c, d, k);
      RefsIn(tree, d, c, 1);
      DropDirRefs(Refs(tree, x), Refs(tree', x), x, d, k, c);
    }
  }

  lemma DropDirRefs(s: set<(nat, nat)>, s': set<(nat, nat)>, x: nat, d: nat, k: nat, c: nat)
    requires c != d && (x == c ==> (d, k) in s) && (x == d ==> (c, 1) in s)
    requires forall r :: r in s' <==> r in s && !(r == (d, k) && x == c) && !(r == (c, 1) && x == d)
    ensures |s'| == |s| - if x == c || x == d then 1 else 0
  {
    if x == c {
      assert s' == s - {(d, k)};
    } else if x == d {
      assert s' == s - {(c, 1)};
    } else {
      assert s' == s;
    }
  }

  lemma DropDirFormed(tree: Tree, tree': Tree, d: nat, k: nat, c: nat)
    requires Formed(tree) && d in tree && c in tree && 2 <= k < |tree[d].entries| && c != d && IsEmpty(tree, c)
    requires tree[d].nlink >= 2 && LosesDir(tree, tree', d, k, c)
    requires tree[c].kind == Dir && tree[d].kind == Dir && tree' == Removed(tree, d, k, c)
    ensures Formed(tree')
  {
    forall x | IsDir(tree', x) ensures DirFormed(tree', x) {
      assert DirFormed(tree, x);
    }
    hide Names;
  }

  lemma DropDirHung(tree: Tree, tree': Tree, d: nat, k: nat, c: nat)
    requires Hung(tree) && Formed(tree) && IsDir(tree, c) && IsDir(tree, d) && 2 <= k < |tree[d].entries| && c != d
    requires c != ROOTINO && tree[c].nlink == 1 && tree[d].nlink >= 2
    requires LosesDir(tree, tree', d, k, c) && tree' == Removed(tree, d, k, c)
    ensures Hung(tree')
  {
    forall x | Linked(tree', x) && x != ROOTINO ensures IsHung(tree', x) {
      assert Linked(tree, x) && x != c && IsHung(tree, x);
      var h :| h >= 2 && HasHome(tree, x, h);
      DropDirHome(tree, tree', d, k, c, x, h);
    }
    assert DirFormed(tree, ROOTINO);
    hide Names, Formed;
    assert Linked(tree', ROOTINO);
  }

  lemma DropDirHome(tree: Tree, tree': Tree, d: nat, k: nat, c: nat, x: nat, h: nat)
    requires Formed(tree) && Linked(tree', x) && x != c && h >= 2 && HasHome(tree, x, h) && IsDir(tree, c)
    requires IsDir(tree, d) && 2 <= k < |tree[d].entries| && c != d
    requires LosesDir(tree, tree', d, k, c) && tree' == Removed(tree, d, k, c)
    ensures HasHome(tree', x, h)
  {
    NoZero(tree);
    assert DirFormed(tree, x);
    assert tree'[x].entries[1] == tree[x].entries[1];
    hide Names, Formed;
  }

  // ----- a new file or device: create

  lemma NewFile(tree: Tree, d: nat, k: nat, name: string, i: nat, kind: Kind)
    requires LinkOk(tree) && Linked(tree, d) && i !in tree && i != 0 && kind != Dir
    requires 2 <= k <= |tree[d].entries| && (k < |tree[d].entries| ==> tree[d].entries[k].inum == 0)
    requires Find(tree[d].entries, name).None?
    ensures LinkOk(WithEntry(tree[i := Ino(kind, 1, [])], d, k, Entry(i, name)))
  {
    hide LinkOk, Find;
    var mid := tree[i := Ino(kind, 0, [])];
    FreshInode(tree, i, kind);
    AddName(mid, d, k, name, i);
    assert WithLinks(mid, i, 1) == tree[i := Ino(kind, 1, [])];
  }

  /** An inode nobody names may as well be there. */
  lemma FreshInode(tree: Tree, i: nat, kind: Kind)
    requires LinkOk(tree) && i !in tree && i != 0 && kind != Dir
    ensures LinkOk(tree[i := Ino(kind, 0, [])])
  {
    hide Balanced, Hung, Formed, Names;
    var tree' := tree[i := Ino(kind, 0, [])];
    FreshNames(tree, tree', i, kind);
    FreshBalanced(tree, tree', i);
    FreshFormed(tree, tree', i);
    FreshHung(tree, tree', i);
  }

  lemma FreshNames(tree: Tree, tree': Tree, i: nat, kind: Kind)
    requires Formed(tree) && i !in tree && kind != Dir && tree' == tree[i := Ino(kind, 0, [])] && i != 0
    ensures (forall x, y, z :: Names(tree', x, y, z) <==> Names(tree, x, y, z)) && forall d, k :: !Names(tree, d, k, i)
  {}

  lemma FreshBalanced(tree: Tree, tree': Tree, i: nat)
    requires Balanced(tree) && i in tree' && tree' == tree[i := tree'[i]] && tree'[i].nlink == 0 && i !in tree
    requires (forall x, y, z :: Names(tree', x, y, z) <==> Names(tree, x, y, z)) && forall d, k :: !Names(tree, d, k, i)
    ensures Balanced(tree')
  {
    hide Names;
    forall x | x in tree' ensures tree'[x].nlink == |Refs(tree', x)| {
      SameRefs(tree, tree', x);
      if x == i {
        forall a: nat, b: nat ensures (a, b) !in Refs(tree, i) { RefsIn(tree, i, a, b); }
        assert Refs(tree, i) == {};
      }
    }
  }

  lemma FreshFormed(tree: Tree, tree': Tree, i: nat)
    requires Formed(tree) && i in tree' && i != 0 && i !in tree && tree' == tree[i := tree'[i]] && tree'[i].kind != Dir
    requires tree'[i].entries == []
    requires forall x, y, z :: Names(tree', x, y, z) <==> Names(tree, x, y, z)
    ensures Formed(tree')
  {
    hide Names;
    forall x | IsDir(tree', x) ensures DirFormed(tree', x) {
      assert DirFormed(tree, x);
    }
  }

  lemma FreshHung(tree: Tree, tree': Tree, i: nat)
    requires Hung(tree) && i in tree' && i !in tree && tree' == tree[i := tree'[i]] && tree'[i].kind != Dir
    requires forall x, y, z :: Names(tree', x, y, z) <==> Names(tree, x, y, z)
    ensures Hung(tree')
  {
    forall c | Linked(tree', c) && c != ROOTINO ensures IsHung(tree', c) {
      assert Linked(tree, c) && IsHung(tree, c);
      var h :| h >= 2 && HasHome(tree, c, h);
      assert HasHome(tree', c, h);
    }
    hide Names;
  }

  // ----- a new directory: create

  function NewDirTree(tree: Tree, d: nat, k: nat, name: string, i: nat): Tree
    requires d in tree && i !in tree && k <= |tree[d].entries|
  {
    WithEntry(WithLinks(tree, d, tree[d].nlink + 1)[i := Ino(Dir, 1, [Entry(i, "."), Entry(d, "..")])], d, k,
              Entry(i, name))
  }

  /** Directory i arrives: it is named in d, and its ".." names d. */
  ghost predicate GainsDir(tree: Tree, tree': Tree, d: nat, k: nat, i: nat) {
    && !Names(tree, d, k, i) && !Names(tree, i, 1, d) && i != 0 && d != 0 && i != d
    && (forall x, y :: !Names(tree, x, y, i))
    && forall x, y, z :: z != 0 ==>
      (Names(tree', x, y, z) <==> Names(tree, x, y, z) || (x == d && y == k && z == i) || (x == i && y == 1 && z == d))
  }

  lemma NewDir(tree: Tree, d: nat, k: nat, name: string, i: nat)
    requires LinkOk(tree) && Linked(tree, d) && i !in tree && i != 0
    requires 2 <= k <= |tree[d].entries| && (k < |tree[d].entries| ==> tree[d].entries[k].inum == 0)
    requires Find(tree[d].entries, name).None?
    ensures LinkOk(NewDirTree(tree, d, k, name, i))
  {
    hide Balanced, Hung, Formed, Names, GainsDir, Find;
    var tree' := NewDirTree(tree, d, k, name, i);
    NoZero(tree);
    NewDirNames(tree, tree', d, k, name, i);
    NewDirBalanced(tree, tree', d, k, name, i);
    NewDirFormed(tree, tree', d, k, name, i);
    NewDirHung(tree, tree', d, k, name, i);
  }

  lemma NewDirNames(tree: Tree, tree': Tree, d: nat, k: nat, name: string, i: nat)
    requires Formed(tree) && Linked(tree, d) && i !in tree && i != 0 && 2 <= k <= |tree[d].entries|
    requires (k < |tree[d].entries| ==> tree[d].entries[k].inum == 0)
    requires tree' == NewDirTree(tree, d, k, name, i)
    ensures GainsDir(tree, tree', d, k, i)
  {}

  lemma NewDirBalanced(tree: Tree, tree': Tree, d: nat, k: nat, name: string, i: nat)
    requires Balanced(tree) && 0 !in tree && d in tree && i !in tree && k <= |tree[d].entries|
    requires tree' == NewDirTree(tree, d, k, name, i) && GainsDir(tree, tree', d, k, i)
    ensures Balanced(tree')
  {
    hide Names;
    forall x | x in tree' ensures tree'[x].nlink == |Refs(tree', x)| {
      forall r: (nat, nat)
        ensures r in Refs(tree', x) <==> r in Refs(tree, x) || (r == (d, k) && x == i) || (r == (i, 1) && x == d)
      {
        RefsIn(tree, x, r.0, r.1);
        RefsIn(tree', x, r.0, r.1);
      }
      RefsIn(tree, d, i, 1);
      forall r: (nat, nat) ensures r !in Refs(tree, i) { RefsIn(tree, i, r.0, r.1); }
      NewDirRefs(Refs(tree, x), Refs(tree', x), x, d, k, i);
    }
  }

  lemma NewDirRefs(s: set<(nat, nat)>, s': set<(nat, nat)>, x: nat, d: nat, k: nat, i: nat)
    requires i != d && (x == d ==> (i, 1) !in s) && (x == i ==> forall r: (nat, nat) :: r !in s)
    requires forall r :: r in s' <==> r in s || (r == (d, k) && x == i) || (r == (i, 1) && x == d)
    ensures |s'| == (if x == i then 1 else if x == d then |s| + 1 else |s|)
  {
    if x == i {
      assert s' == {(d, k)};
    } else if x == d {
      assert s' == s + {(i, 1)};
    } else {
      assert s' == s;
    }
  }

  lemma NewDirFormed(tree: Tree, tree': Tree, d: nat, k: nat, name: string, i: nat)
    requires Formed(tree) && Linked(tree, d) && i !in tree && i != 0 && 2 <= k <= |tree[d].entries|
    requires (k < |tree[d].entries| ==> tree[d].entries[k].inum == 0)
    requires Find(tree[d].entries, name).None? && tree' == NewDirTree(tree, d, k, name, i)
    requires GainsDir(tree, tree', d, k, i)
    ensures Formed(tree')
  {
    forall x | IsDir(tree', x) ensures DirFormed(tree', x) {
      if x != i { assert DirFormed(tree, x); }
    }
    hide Names;
  }

  lemma NewDirHung(tree: Tree, tree': Tree, d: nat, k: nat, name: string, i: nat)
    requires Hung(tree) && Formed(tree) && Linked(tree, d) && i !in tree && i != 0 && 2 <= k <= |tree[d].entries|
    requires (k < |tree[d].entries| ==> tree[d].entries[k].inum == 0)
    requires tree' == NewDirTree(tree, d, k, name, i) && GainsDir(tree, tree', d, k, i)
    ensures Hung(tree')
  {
    forall c | Linked(tree', c) && c != ROOTINO ensures IsHung(tree', c) {
      NewDirHome(tree, tree', d, k, name, i, c);
    }
    assert DirFormed(tree, ROOTINO);
    assert i != ROOTINO && Linked(tree', ROOTINO) && tree'[ROOTINO].entries[1] == tree[ROOTINO].entries[1];
    assert forall c :: Linked(tree', c) && c != i ==> Linked(tree, c);
    hide Names, Formed, NewDirTree, Linked;
  }

  lemma NewDirHome(tree: Tree, tree': Tree, d: nat, k: nat, name: string, i: nat, c: nat)
    requires Hung(tree) && Formed(tree) && Linked(tree, d) && i !in tree && i != 0 && 2 <= k <= |tree[d].entries|
    requires (k < |tree[d].entries| ==> tree[d].entries[k].inum == 0)
    requires tree' == NewDirTree(tree, d, k, name, i) && GainsDir(tree, tree', d, k, i) && Linked(tree', c)
    requires c != ROOTINO
    ensures IsHung(tree', c)
  {
    if c == i {
      assert HasHome(tree', c, k);
    } else {
      assert Linked(tree, c) && IsHung(tree, c);
      assert DirFormed(tree, c);
      var h :| h >= 2 && HasHome(tree, c, h);
      assert tree'[c].entries[1] == tree[c].entries[1];
      hide Names, Formed;
      assert HasHome(tree', c, h);
    }
  }

  // ----- in a removed directory

  /** Making a file keeps the tree in order exactly when the directory has not been removed: an entry in a
      removed directory is a link that the count promises and the tree does not have. */
  lemma CreateNeedsLinked(tree: Tree, d: nat, k: nat, name: string, i: nat, kind: Kind)
    requires LinkOk(tree) && IsDir(tree, d) && i !in tree && i != 0 && kind != Dir
    requires 2 <= k <= |tree[d].entries| && (k < |tree[d].entries| ==> tree[d].entries[k].inum == 0)
    requires Find(tree[d].entries, name).None?
    ensures LinkOk(WithEntry(tree[i := Ino(kind, 1, [])], d, k, Entry(i, name))) <==> Linked(tree, d)
  {
    if Linked(tree, d) {
      NewFile(tree, d, k, name, i, kind);
    } else {
      var tree' := WithEntry(tree[i := Ino(kind, 1, [])], d, k, Entry(i, name));
      RemovedNames(tree, tree', d, k, name, i);
      forall r: (nat, nat) ensures r !in Refs(tree', i) { RefsIn(tree', i, r.0, r.1); }
      assert Refs(tree', i) == {};
      hide Formed, Hung;
    }
  }

  lemma RemovedNames(tree: Tree, tree': Tree, d: nat, k: nat, name: string, i: nat)
    requires Formed(tree) && IsDir(tree, d) && !Linked(tree, d) && i !in tree && i != 0 && k <= |tree[d].entries|
    requires i in tree' && tree'[i].kind != Dir && tree' == WithEntry(tree[i := tree'[i]], d, k, Entry(i, name))
    ensures forall x, y :: !Names(tree', x, y, i)
  {
    forall x, y ensures !Names(tree', x, y, i) {
      assert Names(tree', x, y, i) ==> Names(tree, x, y, i);
    }
  }

  /** The same for a further name of a file. */
  lemma LinkNeedsLinked(tree: Tree, d: nat, k: nat, name: string, i: nat)
    requires LinkOk(tree) && IsDir(tree, d) && i in tree && tree[i].kind != Dir
    requires 2 <= k <= |tree[d].entries| && (k < |tree[d].entries| ==> tree[d].entries[k].inum == 0)
    requires Find(tree[d].entries, name).None?
    ensures LinkOk(WithEntry(WithLinks(tree, i, tree[i].nlink + 1), d, k, Entry(i, name))) <==> Linked(tree, d)
  {
    if Linked(tree, d) {
      AddName(tree, d, k, name, i);
    } else {
      var tree' := WithEntry(WithLinks(tree, i, tree[i].nlink + 1), d, k, Entry(i, name));
      RemovedKeeps(tree, tree', d, k, name, i);
      forall r: (nat, nat) ensures r in Refs(tree', i) <==> r in Refs(tree, i) {
        RefsIn(tree, i, r.0, r.1);
        RefsIn(tree', i, r.0, r.1);
      }
      assert Refs(tree', i) == Refs(tree, i);
      hide Formed, Hung;
    }
  }

  lemma RemovedKeeps(tree: Tree, tree': Tree, d: nat, k: nat, name: string, i: nat)
    requires IsDir(tree, d) && !Linked(tree, d) && i in tree && tree[i].kind != Dir && k <= |tree[d].entries|
    requires tree' == WithEntry(WithLinks(tree, i, tree[i].nlink + 1), d, k, Entry(i, name))
    requires (forall x :: x in tree && tree[x].kind != Dir ==> tree[x].entries == [])
    ensures forall x, y :: Names(tree', x, y, i) <==> Names(tree, x, y, i)
  {}

  /** The same for a new directory: its ".." brings the removed directory back, which hangs nowhere. */
  lemma DirNeedsLinked(tree: Tree, d: nat, k: nat, name: string, i: nat)
    requires LinkOk(tree) && IsDir(tree, d) && i !in tree && i != 0
    requires 2 <= k <= |tree[d].entries| && (k < |tree[d].entries| ==> tree[d].entries[k].inum == 0)
    requires Find(tree[d].entries, name).None?
    ensures LinkOk(NewDirTree(tree, d, k, name, i)) <==> Linked(tree, d)
  {
    if Linked(tree, d) {
      NewDir(tree, d, k, name, i);
    } else {
      var tree' := NewDirTree(tree, d, k, name, i);
      assert DirFormed(tree, d) && tree[d].nlink == |Refs(tree, d)|;
      assert Refs(tree, d) == {};
      RemovedHangs(tree, tree', d, k, name, i);
      assert Linked(tree', d) && d != ROOTINO;
      hide Balanced, Formed, Names;
    }
  }

  lemma RemovedHangs(tree: Tree, tree': Tree, d: nat, k: nat, name: string, i: nat)
    requires Formed(tree) && Refs(tree, d) == {} && IsDir(tree, d) && tree[d].nlink == 0 && i !in tree && i != 0
    requires 2 <= k <= |tree[d].entries| && tree' == NewDirTree(tree, d, k, name, i)
    ensures !IsHung(tree', d)
  {
    assert DirFormed(tree, d);
    forall x, y: nat | y >= 2 ensures !Names(tree', x, y, d) {
      RefsIn(tree, d, x, y);
    }
  }

  /** A directory removed while a process is in it, say. */
  const REMOVED: Tree := map[1 := Ino(Dir, 1, [Entry(1, "."), Entry(1, "..")]),
                             2 := Ino(Dir, 0, [Entry(2, "."), Entry(1, "..")])]

  lemma CreateInRemoved()
    ensures LinkOk(REMOVED) && !LinkOk(WithEntry(REMOVED[3 := Ino(Reg, 1, [])], 2, 2, Entry(3, "f")))
  {
    assert forall d, k, i :: Names(REMOVED, d, k, i) <==> d == 1 && k == 1 && i == 1;
    forall r: (nat, nat), x: nat
      ensures r in Refs(REMOVED, x) <==> r == (1, 1) && x == 1
    {
      RefsIn(REMOVED, x, r.0, r.1);
    }
    assert Refs(REMOVED, 1) == {(1, 1)} && Refs(REMOVED, 2) == {};
    assert Balanced(REMOVED);
    assert Formed(REMOVED) by { assert DirFormed(REMOVED, 1) && DirFormed(REMOVED, 2); }
    assert Hung(REMOVED);
    hide Balanced, Formed, Hung;
    CreateNeedsLinked(REMOVED, 2, 2, "f", 3, Reg);
  }
}
