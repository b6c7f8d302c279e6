/** iget, iput, dirlookup, dirlink, skipelem and namex of kernel/fs.c, and the system calls of
    kernel/sysfile.c that change names. */
module NameCode {
  import opened Blocks
  import opened InodeCache
  import opened Links
  import opened Paths

  /** skipelem: the first component and what follows it, or None. */
  method Skipelem(path: string) returns (rest: Option<string>, name: string)
    ensures rest.None? <==> Components(path) == []
    ensures rest.Some? ==>
      Components(path) == [name] + Components(rest.value) && (rest.value == "" <==> Components(rest.value) == [])
    ensures rest.Some? ==> |rest.value| < |path|
  {
    name := "";
    var i := SkipSlashes(path, 0);
    if i == |path| {
      assert path[i..] == "";
      return None, name;
    }
    var s := i;
    assert path[s..][0] == path[s];
    while i < |path| && path[i] != '/'
      invariant s <= i <= |path| && forall j :: s <= j < i ==> path[j] != '/'
    {
      i := i + 1;
    }
    var len := i - s;
    name := if len >= DIRSIZ then path[s..s + DIRSIZ] else path[s..i];
    FirstComponent(path, s, i);
    var e := SkipSlashes(path, i);
    AfterSlashes(path, i, e);
    rest := Some(path[e..]);
  }

  /** while(*path == '/') path++ */
  method SkipSlashes(path: string, start: nat) returns (i: nat)
    requires start <= |path|
    ensures start <= i <= |path| && SlashLen(path[start..]) == i - start && (i < |path| ==> path[i] != '/')
  {
    i := start;
    while i < |path| && path[i] == '/'
      invariant start <= i <= |path| && forall j :: start <= j < i ==> path[j] == '/'
    {
      i := i + 1;
    }
    SlashRun(path[start..], i - start);
  }

  lemma {:induction false} SlashRun(s: string, n: nat)
    requires n <= |s| && (forall j :: 0 <= j < n ==> s[j] == '/') && (n < |s| ==> s[n] != '/')
    ensures SlashLen(s) == n
  {
    if n > 0 { SlashRun(s[1..], n - 1); }
  }

  lemma {:induction false} NameRun(s: string, n: nat)
    requires n <= |s| && (forall j :: 0 <= j < n ==> s[j] != '/') && (n < |s| ==> s[n] == '/')
    ensures NameLen(s) == n
  {
    if n > 0 { NameRun(s[1..], n - 1); }
  }

  lemma FirstComponent(path: string, s: nat, i: nat)
    requires s < i <= |path| && SlashLen(path) == s && (forall j :: s <= j < i ==> path[j] != '/')
    requires (i < |path| ==> path[i] == '/')
    ensures Components(path) == [if i - s >= DIRSIZ then path[s..s + DIRSIZ] else path[s..i]] + Components(path[i..])
  {
    hide Components, SlashLen, NameLen;
    var t := path[s..];
    NameRun(t, i - s);
    OneStep(path);
    assert t[..i - s] == path[s..i] && t[i - s..] == path[i..];
    assert i - s >= DIRSIZ ==> path[s..i][..DIRSIZ] == path[s..s + DIRSIZ];
  }

  lemma OneStep(path: string)
    requires SlashLen(path) < |path|
    ensures var t := path[SlashLen(path)..];
            Components(path) == [Truncated(t[..NameLen(t)])] + Components(t[NameLen(t)..])
  {}

  lemma WithoutSlashes(path: string, rest: string)
    requires rest == path[SlashLen(path)..] && SlashLen(rest) == 0
    ensures Components(path) == Components(rest)
  {
    assert rest[0..] == rest;
  }

  lemma NoName(path: string)
    requires SlashLen(path) == 0
    ensures path == "" <==> Components(path) == []
  {}

  lemma AfterSlashes(path: string, i: nat, e: nat)
    requires i <= e <= |path| && SlashLen(path[i..]) == e - i && (e < |path| ==> path[e] != '/')
    ensures Components(path[i..]) == Components(path[e..]) && (path[e..] == "" <==> Components(path[e..]) == [])
  {
    hide Components;
    assert path[i..][e - i..] == path[e..];
    SlashRun(path[e..], 0);
    WithoutSlashes(path[i..], path[e..]);
    NoName(path[e..]);
  }

  /** The inode in slot s, nothing (a null pointer), or a kernel panic. */
  datatype Got = Ip(s: nat) | Nil | Panic

  class Inodes {
    const ninodes: nat // sb.ninodes
    var tree: Tree
    var slots: seq<Slot>

    ghost predicate CacheOk()
      reads this
    {
      Unique(slots) && NoOrphan(tree, slots) && Backed(tree, slots)
    }

    /** iget; None where it panics. */
    method Iget(inum: nat) returns (r: Option<nat>)
      requires Unique(slots)
      modifies this`slots
      ensures r.None? ==> slots == old(slots) && forall t :: 0 <= t < |slots| ==> slots[t].ref > 0
      ensures r.Some? ==> r.value < |slots| == |old(slots)| && slots[r.value].ref > 0 && slots[r.value].inum == inum
      ensures r.Some? ==>
        Unique(slots) && Plus(old(slots), slots, Some(inum)) && (Backed(tree, old(slots)) ==> Backed(tree, slots))
      ensures r.Some? ==> Held(old(slots), slots)
    {
      var empty: Option<nat> := None;
      var s := 0;
      while s < |slots|
        invariant 0 <= s <= |slots| && slots == old(slots)
        invariant forall t :: 0 <= t < s && slots[t].ref > 0 ==> slots[t].inum != inum
        invariant if empty.Some? then empty.value < s && slots[empty.value].ref == 0
                  else forall t :: 0 <= t < s ==> slots[t].ref > 0
      {
        if slots[s].ref > 0 && slots[s].inum == inum {
          Taken(slots, s, slots[s].(ref := slots[s].ref + 1));
          slots := slots[s := slots[s].(ref := slots[s].ref + 1)];
          return Some(s);
        }
        if empty.None? && slots[s].ref == 0 {
          empty := Some(s);
        }
        s := s + 1;
      }
      if empty.None? {
        return None;
      }
      Taken(slots, empty.value, Slot(1, inum, false));
      slots := slots[empty.value := Slot(1, inum, false)];
      r := empty;
    }

    /** idup */
    method Idup(s: nat)
      requires Unique(slots) && s < |slots| && slots[s].ref > 0
      modifies this`slots
      ensures Unique(slots) && |slots| == |old(slots)| && slots[s].inum == old(slots)[s].inum && slots[s].ref > 0
      ensures Plus(old(slots), slots, Some(slots[s].inum))
      ensures forall t :: 0 <= t < |slots| ==> slots[t] == if t == s then old(slots)[s].(ref := old(slots)[s].ref + 1)
              else old(slots)[t]
    {
      Taken(slots, s, slots[s].(ref := slots[s].ref + 1));
      slots := slots[s := slots[s].(ref := slots[s].ref + 1)];
    }

    /** ilock, for its reading of the inode; false where it panics. */
    method Ilock(s: nat) returns (ok: bool)
      requires Unique(slots) && s < |slots| && slots[s].ref > 0
      modifies this`slots
      ensures !ok ==> slots == old(slots) && slots[s].inum !in tree && !slots[s].valid
      ensures ok ==>
        Unique(slots) && slots == old(slots)[s := old(slots)[s].(valid := true)] && Plus(old(slots), slots, None)
      ensures ok ==> old(slots)[s].valid || slots[s].inum in tree
    {
      Marked(slots, s, true);
      if !slots[s].valid {
        if slots[s].inum !in tree {
          return false;
        }
        slots := slots[s := slots[s].(valid := true)];
      }
      assert slots == old(slots)[s := old(slots)[s].(valid := true)];
      ok := true;
    }

    /** iput: the inode is freed when the last reference to it goes and nothing names it. */
    method Iput(s: nat)
      requires Unique(slots) && s < |slots| && slots[s].ref > 0 && (slots[s].valid ==> slots[s].inum in tree)
      modifies this
      ensures Unique(slots) && |slots| == |old(slots)| && Plus(slots, old(slots), Some(old(slots)[s].inum))
      ensures forall t :: 0 <= t < |slots| && t != s ==> slots[t] == old(slots)[t]
      ensures var i := old(slots)[s].inum;
              tree == if Count(old(slots), i) == 1 && old(slots)[s].valid && old(tree)[i].nlink == 0
                      then old(tree) - {i} else old(tree)
      ensures slots[s].ref == old(slots)[s].ref - 1 && slots[s].inum == old(slots)[s].inum
      ensures (slots[s].valid ==> old(slots)[s].valid && tree == old(tree))
    {
      var i := slots[s].inum;
      CountIs(slots, s);
      ghost var before := slots;
      var v := slots[s].valid;
      if slots[s].ref == 1 && slots[s].valid && tree[i].nlink == 0 {
        tree := tree - {i};
        v := false;
      }
      Dropped(slots, s, Slot(slots[s].ref - 1, i, v));
      slots := slots[s := Slot(slots[s].ref - 1, i, v)];
    }

    /** dirlookup: the slot of the inode with a name, or Nil; off is the position of its entry. It panics on an
        inode that is not a directory. */
    method Dirlookup(s: nat, name: string) returns (r: Got, off: nat)
      requires CacheOk() && s < |slots| && slots[s].ref > 0 && slots[s].inum in tree
      modifies this`slots
      ensures Held(old(slots), slots)
      ensures !IsDir(tree, old(slots)[s].inum) ==> r == Panic && slots == old(slots)
      ensures IsDir(tree, old(slots)[s].inum) ==>
              var k := Find(tree[old(slots)[s].inum].entries, name);
              match r
              case Nil => k.None? && slots == old(slots)
              case Ip(t) => k == Some(off) && t < |slots| && slots[t].ref > 0
                && slots[t].inum == tree[old(slots)[s].inum].entries[off].inum
                            && CacheOk() && Plus(old(slots), slots, Some(slots[t].inum))
              case Panic => k.Some? && slots == old(slots) && Full(slots)
    {
      off := 0;
      if tree[slots[s].inum].kind != Dir {
        return Panic, off;
      }
      var es := tree[slots[s].inum].entries;
      while off < |es|
        invariant 0 <= off <= |es| && slots == old(slots) && Find(es, name) == FindFrom(es, name, off)
      {
        if es[off].inum != 0 && es[off].name == name {
          var t := Iget(es[off].inum);
          if t.None? {
            return Panic, off;
          }
          PlusOrphan(tree, old(slots), slots, Some(es[off].inum));
          return Ip(t.value), off;
        }
        off := off + 1;
      }
      r := Nil;
    }

    /** iput of a reference on top of those in before: nothing is freed. */
    method Unhold(s: nat, ghost before: seq<Slot>)
      requires CacheOk() && s < |slots| && slots[s].ref > 0 && NoOrphan(tree, before)
      requires AtLeast(before, slots, slots[s].inum)
      modifies this
      ensures tree == old(tree) && CacheOk() && |slots| == |old(slots)|
      ensures Plus(slots, old(slots), Some(old(slots)[s].inum))
      ensures forall t :: 0 <= t < |slots| && t != s ==> slots[t] == old(slots)[t]
      ensures slots[s].inum == old(slots)[s].inum && (Count(old(slots), slots[s].inum) >= 2 ==> slots[s].ref > 0)
      ensures Unique(before) && Held(before, old(slots)) ==> Held(before, slots)
    {
      ghost var i := slots[s].inum;
      CountIs(slots, s);
      Iput(s);
      UnheldOrphan(tree, before, old(slots), slots, i);
      if Unique(before) && Held(before, old(slots)) {
        StillHeld(before, old(slots), slots, s);
      }
    }

    /** namex: the inode that the path leads to, or with parent the directory of its last component, whose
        name is returned too. Reference counts change by one for the inode returned and not otherwise,
        and no inode is freed on the way. */
    method Namex(path: string, parent: bool, cwd: nat) returns (r: Got, name: string)
      requires CacheOk() && cwd < |slots| && slots[cwd].ref > 0
      modifies this
      ensures tree == old(tree) && Held(old(slots), slots)
      ensures var start := if path != "" && path[0] == '/' then ROOTINO else old(slots)[cwd].inum;
              var w := if parent then WalkParent(tree, start, Components(path)) else Walk(tree, start,
                                                 Components(path));
              match r
              case Ip(s) => s < |slots| && slots[s].ref > 0 && w == At(slots[s].inum) && CacheOk()
                && Plus(old(slots), slots, Some(slots[s].inum))
                && (parent ==>
                      && Components(path) != [] && name == Components(path)[|Components(path)| - 1]
                      && IsDir(tree, slots[s].inum))
              case Nil => w == Nowhere && CacheOk() && Plus(old(slots), slots, None)
              case Panic => w == Broken || Full(slots)
    {
      hide Unique, NoOrphan, Backed, Plus, Walk, WalkParent, Find, Components, Full, Held;
      HeldSame(slots);
      ghost var comps := Components(path);
      ghost var start := if path != "" && path[0] == '/' then ROOTINO else slots[cwd].inum;
      name := "";
      var s: nat := cwd;
      if path != "" && path[0] == '/' {
        var t := Iget(ROOTINO);
        if t.None? {
          FullMeans(slots);
          return Panic, name;
        }
        s := t.value;
      } else {
        Idup(cwd);
        DupBacked(tree, old(slots), slots, cwd);
      }
      PlusOrphan(tree, old(slots), slots, Some(slots[s].inum));
      var rest := path;
      ghost var left := comps;
      while true
        invariant tree == old(tree) && Held(old(slots), slots) && 0 <= s < |slots| && slots[s].ref > 0 && CacheOk()
        invariant Plus(old(slots), slots, Some(slots[s].inum))
        invariant left == Components(rest) && |left| <= |comps|
        invariant (left != [] ==> left[|left| - 1] == comps[|comps| - 1]) && (parent && left == [] ==> comps == [])
        invariant Walk(tree, start, comps) == Walk(tree, slots[s].inum, left)
        invariant parent ==> WalkParent(tree, start, comps) == WalkParent(tree, slots[s].inum, left)
        decreases |rest|
      {
        var next, elem := Skipelem(rest);
        if next.None? {
          WalkDone(tree, slots[s].inum);
          if parent {
            ghost var held, i := slots, slots[s].inum;
            PlusAtLeast(old(slots), slots, i);
            Unhold(s, old(slots));
            PlusBack(old(slots), held, slots, i);
            return Nil, name;
          }
          return Ip(s), name;
        }
        name := elem;
        ghost var i := slots[s].inum;
        var step := Descend(s, elem, parent && next.value == "", old(slots));
        WalkStep(tree, i, left);
        if step.Stop? {
          return step.r, name;
        }
        s := step.t;
        rest := next.value;
        left := left[1..];
      }
    }

    /** One turn of namex's loop, for component elem of the directory in slot s; last says that this is the
        last one and the parent is wanted. */
    method Descend(s: nat, elem: string, last: bool, ghost before: seq<Slot>) returns (step: Turn)
      requires CacheOk() && s < |slots| && slots[s].ref > 0 && NoOrphan(tree, before)
      requires Plus(before, slots, Some(slots[s].inum))
      requires Unique(before) && Held(before, slots)
      modifies this
      ensures tree == old(tree) && Held(before, slots)
      ensures var i := old(slots)[s].inum;
              match step
              case Go(t) => !last && IsDir(tree, i) && Find(tree[i].entries, elem).Some? && t < |slots|
                && slots[t].ref > 0
                            && slots[t].inum == tree[i].entries[Find(tree[i].entries, elem).value].inum && CacheOk()
                            && Plus(before, slots, Some(slots[t].inum))
              case Stop(Ip(t)) =>
                && last && IsDir(tree, i) && t < |slots| && slots[t].ref > 0 && slots[t].inum == i && CacheOk()
                && Plus(before, slots, Some(i))
              case Stop(Nil) =>
                && i in tree && (tree[i].kind != Dir || (!last && Find(tree[i].entries, elem).None?)) && CacheOk()
                && Plus(before, slots, None)
              case Stop(Panic) =>
                i !in tree || (!last && IsDir(tree, i) && Find(tree[i].entries, elem).Some? && Full(slots))
    {
      hide Unique, NoOrphan, Plus, Find, Full;
      ghost var i := slots[s].inum;
      ghost var s0 := slots;
      var ok := Ilock(s);
      if !ok {
        return Stop(Panic);
      }
      LockedOk(tree, before, s0, slots, s);
      HeldLocked(before, s0, slots, s);
      if tree[slots[s].inum].kind != Dir {
        ghost var held := slots;
        PlusAtLeast(before, slots, i);
        Unhold(s, before);
        PlusBack(before, held, slots, i);
        return Stop(Nil);
      }
      if last {
        return Stop(Ip(s));
      }
      ghost var s1 := slots;
      var r, off := Dirlookup(s, elem);
      HeldTrans(before, s1, slots);
      if r == Panic {
        return Stop(Panic);
      }
      if r == Nil {
        ghost var held := slots;
        PlusAtLeast(before, slots, i);
        Unhold(s, before);
        PlusBack(before, held, slots, i);
        return Stop(Nil);
      }
      ghost var j := slots[r.s].inum;
      PlusTwice(before, s1, slots, i, j);
      ghost var s2 := slots;
      Unhold(s, before);
      PlusSwap(before, s1, s2, slots, i, j);
      step := Go(r.s);
    }

    /** dirlink: the name is added in the first free entry, unless it is there already. Like dirlookup it panics
        on an inode that is not a directory. */
    method Dirlink(s: nat, name: string, inum: nat) returns (r: Done, ghost k: nat)
      requires CacheOk() && s < |slots| && slots[s].ref > 0 && slots[s].inum in tree
      modifies this
      ensures Held(old(slots), slots)
      ensures !IsDir(old(tree), old(slots)[s].inum) ==> r == Oops && tree == old(tree) && slots == old(slots)
      ensures IsDir(old(tree), old(slots)[s].inum) ==>
              var d := old(slots)[s].inum;
              match r
              case Ok => Find(old(tree)[d].entries, name).None? && slots == old(slots) && k <= |old(tree)[d].entries|
                && FirstFree(old(tree)[d].entries, k)
                         && tree == WithEntry(old(tree), d, k, Entry(inum, name))
              case Fail =>
                && Find(old(tree)[d].entries, name).Some? && tree == old(tree) && CacheOk()
                && Plus(old(slots), slots, None)
              case Oops => Find(old(tree)[d].entries, name).Some? && Full(slots)
    {
      hide Unique, NoOrphan, Plus, Find, Full;
      k := 0;
      ghost var before := slots;
      var got, at := Dirlookup(s, name);
      if got == Panic {
        return Oops, k;
      }
      if got.Ip? {
        ghost var held, i := slots, slots[got.s].inum;
        PlusAtLeast(before, slots, i);
        Unhold(got.s, before);
        PlusBack(before, held, slots, i);
        return Fail, k;
      }
      var d := slots[s].inum;
      var es := tree[d].entries;
      var off := 0;
      while off < |es| && es[off].inum != 0
        invariant 0 <= off <= |es| && forall j :: 0 <= j < off ==> es[j].inum != 0
      {
        off := off + 1;
      }
      tree := WithEntry(tree, d, off, Entry(inum, name));
      k := off;
      r := Ok;
    }

    /** isdirempty */
    method Isdirempty(d: nat) returns (r: bool)
      requires IsDir(tree, d)
      ensures r == IsEmpty(tree, d)
    {
      var es := tree[d].entries;
      var off := 2;
      while off < |es|
        invariant 2 <= off && forall k :: 2 <= k < off && k < |es| ==> es[k].inum == 0
      {
        if es[off].inum != 0 {
          return false;
        }
        off := off + 1;
      }
      r := true;
    }

    ghost predicate Good()
      reads this
    {
      LinkOk(tree) && CacheOk()
    }

    /** sys_link: inode i gets the name in directory d, and one link more, which keeps the link counts right
        exactly when d has not been removed; or, on the conditions of LinkRefused, nothing changes. */
    method SysLink(cwd: nat, oldpath: string, newpath: string) returns (r: Done, ghost i: nat, ghost d: nat,
                   ghost k: nat)
      requires Good() && cwd < |slots| && slots[cwd].ref > 0
      modifies this
      ensures r != Oops ==> CacheOk() && Held(old(slots), slots) && Plus(old(slots), slots, None)
      ensures r == Oops ==>
        Full(slots)
        || LinkBroken(old(tree), Origin(oldpath, old(slots), cwd), oldpath, Origin(newpath, old(slots), cwd), newpath)
      ensures r == Fail ==>
        && tree == old(tree)
        && LinkRefused(tree, Origin(oldpath, old(slots), cwd), oldpath, Origin(newpath, old(slots), cwd), newpath)
      ensures r == Ok ==>
        !LinkRefused(old(tree), Origin(oldpath, old(slots), cwd), oldpath, Origin(newpath, old(slots), cwd), newpath)
      ensures r == Ok ==> (LinkOk(tree) <==> Linked(old(tree), d))
      ensures r == Ok ==> Walk(old(tree), Origin(oldpath, old(slots), cwd), Components(oldpath)) == At(i)
      ensures r == Ok ==> NewName(old(tree), tree, Origin(newpath, old(slots), cwd), newpath, i, d, k)
    {
      hide LinkOk, Unique, NoOrphan, Backed, Plus, Holds, Held, Walk, WalkParent, Components, Find, Full, AtLeast;
      hide NewName, Target, Linked;
      i, d, k := 0, 0, 0;
      ghost var before := slots;
      HoldsNone(before);
      var got, n0 := Namex(oldpath, false, cwd);
      if got == Panic {
        return Oops, i, d, k;
      }
      if got == Nil {
        return Fail, i, d, k;
      }
      var s := got.s;
      i := slots[s].inum;
      HoldsMore(before, before, slots, multiset{}, i);
      assert multiset{} + multiset{i} == multiset{i};
      ghost var s1 := slots;
      var ok := Ilock(s);
      if !ok {
        return Oops, i, d, k;
      }
      Locked(tree, before, s1, slots, multiset{i}, s);
      if tree[slots[s].inum].kind == Dir {
        ReleaseOne(s, before, multiset{i});
        assert multiset{i} - multiset{i} == multiset{};
        HoldsFacts(tree, before, slots, multiset{}, i);
        return Fail, i, d, k;
      }
      r, d, k := LinkNew(s, cwd, newpath, before);
      if r == Ok { NewNameFree(old(tree), tree, Origin(newpath, before, cwd), newpath, i, d, k); }
    }

    /** sys_link from nlink++ on, for the inode in slot s. */
    method LinkNew(s: nat, cwd: nat, newpath: string, ghost before: seq<Slot>) returns (r: Done, ghost d: nat,
                   ghost k: nat)
      requires Good() && s < |slots| && slots[s].ref > 0 && slots[s].inum in tree && tree[slots[s].inum].kind != Dir
      requires cwd < |before| && before[cwd].ref > 0 && Unique(before) && NoOrphan(tree, before) && Held(before, slots)
      requires Holds(before, slots, multiset{slots[s].inum})
      modifies this
      ensures r != Oops ==> CacheOk() && Held(before, slots) && Plus(before, slots, None)
      ensures r == Oops ==>
        Full(slots) || WalkParent(old(tree), Origin(newpath, before, cwd), Components(newpath)) == Broken
      ensures r == Fail ==> tree == old(tree) && NameRefused(tree, Origin(newpath, before, cwd), newpath)
      ensures r == Ok ==> (LinkOk(tree) <==> Linked(old(tree), d))
      ensures r == Ok ==> NewName(old(tree), tree, Origin(newpath, before, cwd), newpath, old(slots)[s].inum, d, k)
    {
      hide LinkOk, Unique, NoOrphan, Backed, Plus, Holds, Held, Walk, WalkParent, Components, Find, Full, AtLeast;
      hide NewName, Target;
      d, k := 0, 0;
      var i := slots[s].inum;
      ghost var tree0 := tree;
      LinkCounts(tree, before, slots, i);
      tree := WithLinks(tree, i, tree[i].nlink + 1);
      ghost var s2 := slots;
      HeldAt(before, slots, cwd);
      SameWalk(tree0, tree, Origin(newpath, before, cwd), Components(newpath));
      var dir, name := Namex(newpath, true, cwd);
      HeldTrans(before, s2, slots);
      HeldAt(s2, slots, s);
      if dir == Panic {
        return Oops, d, k;
      }
      if dir == Nil {
        HoldsStill(before, s2, slots, multiset{i});
        Undo(s, before, tree0, multiset{i});
        return Fail, d, k;
      }
      d := slots[dir.s].inum;
      HoldsMore(before, s2, slots, multiset{i}, d);
      assert multiset{i} + multiset{d} == multiset{i, d};
      TargetIs(tree0, Origin(newpath, before, cwd), newpath, d, name);
      r, k := LinkEntry(s, dir.s, name, before, tree0);
      if r == Ok {
        NewNameIs(tree0, tree, Origin(newpath, before, cwd), newpath, i, d, k, name);
      }
    }

    /** The dirlink in sys_link, of the inode in slot s in the directory in slot e. */
    method LinkEntry(s: nat, e: nat, name: string, ghost before: seq<Slot>, ghost tree0: Tree) returns (r: Done,
                     ghost k: nat)
      requires CacheOk() && s < |slots| && e < |slots| && slots[s].ref > 0 && slots[e].ref > 0 && s != e
      requires Unique(before) && NoOrphan(tree0, before) && NoOrphan(tree, before) && Held(before, slots)
      requires Holds(before, slots, multiset{slots[s].inum, slots[e].inum})
      requires LinkOk(tree0) && slots[s].inum in tree0 && tree0[slots[s].inum].kind != Dir
      requires IsDir(tree0, slots[e].inum)
      requires tree == WithLinks(tree0, slots[s].inum, tree0[slots[s].inum].nlink + 1)
      modifies this
      ensures r != Oops ==> CacheOk() && Held(before, slots) && Plus(before, slots, None)
      ensures r == Oops ==> Full(slots)
      ensures r == Fail ==> tree == tree0 && Find(tree0[old(slots)[e].inum].entries, name).Some?
      ensures r == Ok ==> (LinkOk(tree) <==> Linked(tree0, old(slots)[e].inum))
      ensures r == Ok ==> var i, d := old(slots)[s].inum, old(slots)[e].inum;
                          && k <= |tree0[d].entries| && FirstFree(tree0[d].entries, k)
                          && Find(tree0[d].entries, name).None?
                          && tree == WithEntry(WithLinks(tree0, i, tree0[i].nlink + 1), d, k, Entry(i, name))
    {
      hide LinkOk, Unique, NoOrphan, Backed, Plus, Holds, Held, Find, Full, AtLeast;
      k := 0;
      var i := slots[s].inum;
      ghost var d := slots[e].inum;
      ghost var s3 := slots;
      var ok := Ilock(e);
      if !ok {
        return Oops, k;
      }
      Locked(tree, before, s3, slots, multiset{i, d}, e);
      ghost var s4 := slots;
      r, k := Dirlink(e, name, i);
      HeldTrans(before, s4, slots);
      HeldAt(s4, slots, s);
      HeldAt(s4, slots, e);
      assert multiset{i, d} - multiset{d} == multiset{i} && multiset{i} - multiset{i} == multiset{};
      if r == Fail {
        HoldsStill(before, s4, slots, multiset{i, d});
        ReleaseOne(e, before, multiset{i, d});
        Undo(s, before, tree0, multiset{i});
      } else if r == Ok {
        LinkEnd(tree0, tree, before, slots, i, d, k, name);
        ReleaseOne(e, before, multiset{i, d});
        ReleaseOne(s, before, multiset{i});
        HoldsFacts(tree, before, slots, multiset{}, i);
      }
    }

    /** sys_unlink: the name goes and with it a link, for a directory also the link of its ".."; the inode is
        freed when that was its last link and nobody uses it; or nothing changes. The panic on a link count
        below one cannot happen. */
    method SysUnlink(cwd: nat, path: string) returns (r: Done, ghost d: nat, ghost k: nat, ghost i: nat)
      requires Good() && cwd < |slots| && slots[cwd].ref > 0
      modifies this
      ensures r == Oops ==>
        WalkParent(old(tree), Origin(path, old(slots), cwd), Components(path)) == Broken || Full(slots)
      ensures r != Oops ==> Good() && Plus(old(slots), slots, None) && Held(old(slots), slots)
      ensures r == Fail ==> tree == old(tree) && UnlinkRefused(tree, Origin(path, old(slots), cwd), path)
      ensures r == Ok ==>
        && OldName(old(tree), Origin(path, old(slots), cwd), path, d, k, i)
        && !UnlinkRefused(old(tree), Origin(path, old(slots), cwd), path)
      ensures r == Ok ==>
        var t := Unlinked(old(tree), d, k, i);
        tree == if t[i].nlink == 0 && Count(old(slots), i) == 0 then t - {i} else t
    {
      hide LinkOk, Unique, NoOrphan, Backed, Plus, Holds, Held, Walk, WalkParent, Components, Find, Full, AtLeast;
      hide OldName, Unlinked, Target, Removable;
      d, k, i := 0, 0, 0;
      ghost var before := slots;
      HoldsNone(before);
      var dir, name := Namex(path, true, cwd);
      if dir == Panic {
        return Oops, d, k, i;
      }
      if dir == Nil {
        NoTarget(tree, Origin(path, before, cwd), path);
        return Fail, d, k, i;
      }
      d := slots[dir.s].inum;
      TargetIs(tree, Origin(path, before, cwd), path, d, name);
      HoldsMore(before, before, slots, multiset{}, d);
      assert multiset{} + multiset{d} == multiset{d};
      ghost var s1 := slots;
      var ok := Ilock(dir.s);
      Locked(tree, before, s1, slots, multiset{d}, dir.s);
      r, k, i := UnlinkEntry(dir.s, name, before);
      if r == Ok {
        OldNameIs(old(tree), Origin(path, before, cwd), path, d, k, i, name);
        OldNameFound(old(tree), Origin(path, before, cwd), path, d, k, i);
      }
    }

    /** sys_unlink with the parent directory in slot e. */
    method UnlinkEntry(e: nat, name: string, ghost before: seq<Slot>) returns (r: Done, ghost k: nat, ghost i: nat)
      requires Good() && e < |slots| && slots[e].ref > 0 && IsDir(tree, slots[e].inum)
      requires Unique(before) && NoOrphan(tree, before) && Held(before, slots)
      requires Holds(before, slots, multiset{slots[e].inum})
      modifies this
      ensures r == Oops ==> Full(slots)
      ensures r != Oops ==> Good() && Plus(before, slots, None) && Held(before, slots)
      ensures r == Fail ==> tree == old(tree) && EntryRefused(tree, old(slots)[e].inum, name)
      ensures r == Ok ==>
        var d := old(slots)[e].inum;
        && k >= 2 && Names(old(tree), d, k, i) && i in old(tree) && old(tree)[d].entries[k].name == name
        && Find(old(tree)[d].entries, name) == Some(k)
      ensures r == Ok ==> Removable(old(tree), i) && name != "." && name != ".."
      ensures r == Ok ==>
        var t := Unlinked(old(tree), old(slots)[e].inum, k, i);
        tree == if t[i].nlink == 0 && Count(before, i) == 0 then t - {i} else t
    {
      hide LinkOk, Unique, NoOrphan, Backed, Plus, Holds, Held, Find, Full, AtLeast, Unlinked;
      k, i := 0, 0;
      ghost var d := slots[e].inum;
      assert multiset{d} - multiset{d} == multiset{};
      if name == "." || name == ".." {
        ReleaseOne(e, before, multiset{d});
        HoldsFacts(tree, before, slots, multiset{}, d);
        return Fail, k, i;
      }
      ghost var s1 := slots;
      var got, off := Dirlookup(e, name);
      if got == Panic {
        return Oops, k, i;
      }
      if got == Nil {
        ReleaseOne(e, before, multiset{d});
        HoldsFacts(tree, before, slots, multiset{}, d);
        return Fail, k, i;
      }
      var t := got.s;
      k, i := off, slots[t].inum;
      HeldTrans(before, s1, slots);
      HeldAt(s1, slots, e);
      HoldsMore(before, s1, slots, multiset{d}, i);
      assert multiset{d} + multiset{i} == multiset{d, i} && multiset{d, i} - multiset{i} == multiset{d};
      assert multiset{d, i} - multiset{d} == multiset{i};
      NamedIsLinked(tree, d, name, off);
      r := UnlinkFound(e, t, off, before);
    }

    /** sys_unlink once dirlookup has found entry k, for the inode in slot t. */
    method UnlinkFound(e: nat, t: nat, k: nat, ghost before: seq<Slot>) returns (r: Done)
      requires Good() && e < |slots| && t < |slots| && slots[e].ref > 0 && slots[t].ref > 0
      requires Unique(before) && NoOrphan(tree, before) && Held(before, slots)
      requires Holds(before, slots, multiset{slots[e].inum, slots[t].inum})
      requires k >= 2 && Names(tree, slots[e].inum, k, slots[t].inum) && slots[t].inum in tree
      requires tree[slots[t].inum].nlink >= 1
      modifies this
      ensures r != Oops && Good() && Plus(before, slots, None) && Held(before, slots)
      ensures r == Fail ==> tree == old(tree) && !Removable(tree, old(slots)[t].inum)
      ensures r == Ok ==> Removable(old(tree), old(slots)[t].inum)
      ensures r == Ok ==> var i := old(slots)[t].inum;
                          var u := Unlinked(old(tree), old(slots)[e].inum, k, i);
                            tree == if u[i].nlink == 0 && Count(before, i) == 0 then u - {i} else u
    {
      hide LinkOk, Unique, NoOrphan, Backed, Plus, Holds, Held, AtLeast, Unlinked;
      ghost var d, i := slots[e].inum, slots[t].inum;
      assert multiset{d, i} - multiset{i} == multiset{d} && multiset{d} - multiset{d} == multiset{};
      ghost var s2 := slots;
      var ok := Ilock(t);
      Locked(tree, before, s2, slots, multiset{d, i}, t);
      if tree[slots[t].inum].nlink < 1 {
        return Oops;
      }
      if tree[slots[t].inum].kind == Dir {
        var empty := Isdirempty(slots[t].inum);
        if !empty {
          ReleaseOne(t, before, multiset{d, i});
          ReleaseOne(e, before, multiset{d});
          HoldsFacts(tree, before, slots, multiset{}, d);
          return Fail;
        }
      }
      RemoveEntry(e, t, k, before);
      r := Ok;
    }

    /** The end of sys_unlink: entry k of the directory in slot e, for the inode in slot t. */
    method RemoveEntry(e: nat, t: nat, k: nat, ghost before: seq<Slot>)
      requires Good() && e < |slots| && t < |slots| && slots[e].ref > 0 && slots[t].ref > 0 && slots[t].valid
      requires Unique(before) && NoOrphan(tree, before) && Held(before, slots)
      requires Holds(before, slots, multiset{slots[e].inum, slots[t].inum})
      requires k >= 2 && Names(tree, slots[e].inum, k, slots[t].inum) && slots[t].inum in tree
      requires Removable(tree, slots[t].inum)
      modifies this
      ensures Good() && Plus(before, slots, None) && Held(before, slots)
      ensures var d, i := old(slots)[e].inum, old(slots)[t].inum;
              var u := Unlinked(old(tree), d, k, i);
              tree == if u[i].nlink == 0 && Count(before, i) == 0 then u - {i} else u
    {
      hide LinkOk, Unique, NoOrphan, Backed, Plus, Holds, Held, AtLeast;
      var d, i := slots[e].inum, slots[t].inum;
      ghost var tree0 := tree;
      UnlinkOk(tree, before, slots, d, k, i);
      SlotsApart(slots, e, t);
      assert multiset{d, i} - multiset{d} == multiset{i} && multiset{i} - multiset{i} == multiset{};
      tree := WithEntry(tree, d, k, NOENTRY);
      if tree[i].kind == Dir {
        tree := WithLinks(tree, d, tree[d].nlink - 1);
      }
      ReleaseOne(e, before, multiset{d, i});
      tree := WithLinks(tree, i, tree[i].nlink - 1);
      assert tree == Unlinked(tree0, d, k, i);
      ghost var s3, u := slots, tree;
      BackedKeys(Middle(tree0, d, k, i), u, s3);
      OthersKept(Middle(tree0, d, k, i), u, before, i);
      CountIs(s3, t);
      Iput(t);
      LastPut(u, tree, before, s3, slots, i, t);
    }

    /** create: the inode with the name, when there is one of a kind that open accepts; else a new inode of
        the given kind, with that name and one link, a directory also with its dots. The link counts stay
        right exactly when the directory it goes in has not been removed. The inode is the lowest-numbered
        that is not in use. Of create's panics only the one for want of an inode can happen. */
    method Create(cwd: nat, path: string, kind: Kind) returns (r: Got, ghost k: nat, ghost isNew: bool)
      requires Good() && cwd < |slots| && slots[cwd].ref > 0
      modifies this
      ensures r == Panic ==> Full(slots) || CreateBroken(old(tree), Origin(path, old(slots), cwd), path, ninodes)
      ensures r.Ip? ==> !CreateRefused(old(tree), Origin(path, old(slots), cwd), path, kind)
      ensures r == Nil ==>
        && Good() && tree == old(tree) && Plus(old(slots), slots, None)
        && CreateRefused(tree, Origin(path, old(slots), cwd), path, kind)
      ensures r.Ip? ==>
        CacheOk() && r.s < |slots| && slots[r.s].ref > 0 && Plus(old(slots), slots, Some(slots[r.s].inum))
      ensures r.Ip? && !isNew ==>
        tree == old(tree) && kind == Reg && slots[r.s].inum in tree && tree[slots[r.s].inum].kind != Dir
      ensures r.Ip? && !isNew ==> Target(tree, Origin(path, old(slots), cwd), path) == Some(slots[r.s].inum)
      ensures r.Ip? && isNew ==> Target(old(tree), Origin(path, old(slots), cwd), path).None?
      ensures r.Ip? && isNew ==> (LinkOk(tree) <==> ParentLinked(old(tree), Origin(path, old(slots), cwd), path))
      ensures r.Ip? && isNew ==>
        && IsSpare(old(tree), ninodes, slots[r.s].inum)
        && MadeAt(old(tree), tree, Origin(path, old(slots), cwd), path, slots[r.s].inum, kind, k)
    {
      hide LinkOk, Unique, NoOrphan, Backed, Plus, Holds, Held, Walk, WalkParent, Components, Find, Full, AtLeast;
      hide MadeAt, ParentLinked, Made, Target, Linked;
      k, isNew := 0, false;
      ghost var before := slots;
      HoldsNone(before);
      var dir, name := Namex(path, true, cwd);
      if dir == Panic {
        return Panic, k, isNew;
      }
      if dir == Nil {
        return Nil, k, isNew;
      }
      ghost var d := slots[dir.s].inum;
      TargetIs(tree, Origin(path, before, cwd), path, d, name);
      HoldsMore(before, before, slots, multiset{}, d);
      assert multiset{} + multiset{d} == multiset{d};
      ghost var s1 := slots;
      var ok := Ilock(dir.s);
      Locked(tree, before, s1, slots, multiset{d}, dir.s);
      ghost var s2 := slots;
      var got, off := Dirlookup(dir.s, name);
      if got == Panic {
        return Panic, k, isNew;
      }
      if got.Ip? {
        HeldTrans(before, s2, slots);
        HeldAt(s2, slots, dir.s);
        HoldsMore(before, s2, slots, multiset{d}, slots[got.s].inum);
        r := CreateFound(dir.s, got.s, kind, before);
        return r, k, isNew;
      }
      var spare := Ialloc();
      if spare.None? {
        return Panic, k, isNew;
      }
      r, k := CreateNew(dir.s, name, kind, spare.value, before);
      isNew := true;
      if r.Ip? {
        ParentIs(old(tree), Origin(path, before, cwd), path, d);
        MadeIs(old(tree), tree, Origin(path, before, cwd), path, spare.value, kind, k, d, name);
      }
    }

    /** The scan of ialloc; None where it panics. */
    method Ialloc() returns (r: Option<nat>)
      ensures match r
              case Some(i) => IsSpare(tree, ninodes, i)
              case None => forall i :: 0 < i < ninodes ==> i in tree
    {
      var i := 1;
      while i < ninodes
        invariant 1 <= i && forall j :: 0 < j < i && j < ninodes ==> j in tree
      {
        if i !in tree {
          return Some(i);
        }
        i := i + 1;
      }
      r := None;
    }

    /** create when dirlookup has found the inode in slot t; e is the directory's slot. */
    method CreateFound(e: nat, t: nat, kind: Kind, ghost before: seq<Slot>) returns (r: Got)
      requires Good() && e < |slots| && t < |slots| && slots[e].ref > 0 && slots[t].ref > 0
      requires Unique(before) && NoOrphan(tree, before) && Held(before, slots)
      requires Holds(before, slots, multiset{slots[e].inum} + multiset{slots[t].inum})
      modifies this
      ensures tree == old(tree) && (r == Panic ==> old(slots)[t].inum !in tree) && (r != Panic ==> Good())
      ensures r == Nil ==> Plus(before, slots, None) && (kind != Reg || IsDir(tree, old(slots)[t].inum))
      ensures r.Ip? ==>
        && r.s < |slots| && slots[r.s].ref > 0 && Plus(before, slots, Some(slots[r.s].inum))
        && slots[r.s].inum == old(slots)[t].inum
      ensures r.Ip? ==> kind == Reg && slots[r.s].inum in tree && tree[slots[r.s].inum].kind != Dir
    {
      hide LinkOk, Unique, NoOrphan, Backed, Plus, Holds, Held, Find, Full, AtLeast;
      ghost var d, j := slots[e].inum, slots[t].inum;
      ghost var m := multiset{d} + multiset{j};
      SameSlot(slots, e, t);
      assert m - multiset{d} == multiset{j} && multiset{j} - multiset{j} == multiset{};
      ReleaseOne(e, before, m);
      ghost var s1 := slots;
      var ok := Ilock(t);
      if !ok {
        return Panic;
      }
      Locked(tree, before, s1, slots, multiset{j}, t);
      if kind == Reg && tree[slots[t].inum].kind != Dir {
        HoldsFacts(tree, before, slots, multiset{j}, j);
        return Ip(t);
      }
      ReleaseOne(t, before, multiset{j});
      HoldsFacts(tree, before, slots, multiset{}, j);
      r := Nil;
    }

    /** create of a new inode i, in the directory in slot e. */
    method CreateNew(e: nat, name: string, kind: Kind, i: nat, ghost before: seq<Slot>) returns (r: Got, ghost k: nat)
      requires Good() && e < |slots| && slots[e].ref > 0 && IsDir(tree, slots[e].inum) && i !in tree && i != 0
      requires Find(tree[slots[e].inum].entries, name).None?
      requires Unique(before) && NoOrphan(tree, before) && Held(before, slots)
      requires Holds(before, slots, multiset{slots[e].inum})
      modifies this
      ensures r != Nil && (r == Panic ==> Full(slots))
      ensures r.Ip? ==>
        CacheOk() && r.s < |slots| && slots[r.s].ref > 0 && slots[r.s].inum == i && Plus(before, slots, Some(i))
      ensures r.Ip? ==> (LinkOk(tree) <==> Linked(old(tree), old(slots)[e].inum))
      ensures r.Ip? ==>
        && FirstFree(old(tree)[old(slots)[e].inum].entries, k)
        && tree == Made(old(tree), old(slots)[e].inum, k, name, i, kind)
    {
      hide LinkOk, Unique, NoOrphan, Backed, Plus, Holds, Held, Find, Full, AtLeast;
      k := 0;
      var d := slots[e].inum;
      ghost var tree0, s1 := tree, slots;
      var t := NewInode(kind, i, before, multiset{d});
      if t.None? {
        return Panic, k;
      }
      HeldAt(s1, slots, e);
      assert multiset{d} + multiset{i} == multiset{d, i} && multiset{d, i} - multiset{d} == multiset{i};
      if kind == Dir {
        ghost var tree1 := tree;
        CountsUp(tree0, d);
        tree := WithLinks(tree, d, tree[d].nlink + 1);
        FewerOrphans(tree0, tree, before, slots, multiset{d, i});
        BackedMore(tree1, tree, slots);
        MakeDots(t.value, d, before);
      }
      k := NameNew(e, name, i, kind, before, tree0);
      r := Ip(t.value);
    }

    /** The last dirlink of create. */
    method NameNew(e: nat, name: string, i: nat, kind: Kind, ghost before: seq<Slot>,
                   ghost tree0: Tree) returns (ghost k: nat)
      requires CacheOk() && e < |slots| && slots[e].ref > 0 && IsDir(tree0, slots[e].inum) && i !in tree0 && i != 0
      requires Find(tree0[slots[e].inum].entries, name).None?
      requires Unique(before) && NoOrphan(tree, before) && Held(before, slots)
      requires Holds(before, slots, multiset{slots[e].inum, i}) && LinkOk(tree0)
      requires var d := slots[e].inum;
               tree == WithNew(tree0, d, i, kind)
      modifies this
      ensures CacheOk() && Held(before, slots) && Plus(before, slots, Some(i)) && |slots| == |old(slots)|
      ensures LinkOk(tree) <==> Linked(tree0, old(slots)[e].inum)
      ensures FirstFree(tree0[old(slots)[e].inum].entries, k)
      ensures tree == Made(tree0, old(slots)[e].inum, k, name, i, kind)
      ensures forall s :: 0 <= s < |slots| && s != e ==> slots[s] == old(slots)[s]
    {
      hide LinkOk, Unique, NoOrphan, Backed, Plus, Holds, Held, Find, Full, AtLeast, Made;
      var d := slots[e].inum;
      ghost var mid := tree;
      assert mid[d].entries == tree0[d].entries;
      assert multiset{d, i} - multiset{d} == multiset{i};
      var done;
      done, k := Dirlink(e, name, i);
      CreateEnd(tree0, mid, tree, before, slots, d, k, name, i, kind);
      ReleaseOne(e, before, multiset{d, i});
      HoldsFacts(tree, before, slots, multiset{i}, i);
    }

    /** ialloc, iget, ilock and nlink = 1 in create. */
    method NewInode(kind: Kind, i: nat, ghost before: seq<Slot>, ghost m: multiset<nat>) returns (t: Option<nat>)
      requires CacheOk() && i !in tree && Unique(before) && NoOrphan(tree, before) && Held(before, slots)
      requires Holds(before, slots, m)
      modifies this
      ensures t.None? ==> Full(slots)
      ensures t.Some? ==>
        && CacheOk() && NoOrphan(tree, before) && Held(before, slots) && Held(old(slots), slots)
        && Holds(before, slots, m + multiset{i})
      ensures t.Some? ==>
        && t.value < |slots| && slots[t.value].ref > 0 && slots[t.value].inum == i
        && tree == old(tree)[i := Ino(kind, 1, [])]
    {
      hide Unique, NoOrphan, Backed, Plus, Holds, Held, Full, AtLeast;
      ghost var tree0, s1 := tree, slots;
      tree := tree[i := Ino(kind, 0, [])];
      BackedMore(tree0, tree, slots);
      t := Iget(i);
      if t.None? {
        FullMeans(slots);
        return;
      }
      HeldTrans(before, s1, slots);
      HoldsMore(before, s1, slots, m, i);
      ghost var s2 := slots;
      var ok := Ilock(t.value);
      NewLocked(tree, before, s2, slots, m + multiset{i}, t.value);
      HeldLocked(s1, s2, slots, t.value);
      ghost var tree1 := tree;
      tree := WithLinks(tree, i, 1);
      BackedMore(tree1, tree, slots);
      FewerOrphans(tree0, tree, before, slots, m + multiset{i});
    }

    /** The "." and ".." of a new directory. */
    method MakeDots(t: nat, d: nat, ghost before: seq<Slot>)
      requires CacheOk() && t < |slots| && slots[t].ref > 0 && IsDir(tree, slots[t].inum)
      requires tree[slots[t].inum].entries == [] && NoOrphan(tree, before) && slots[t].inum != 0
      modifies this
      ensures slots == old(slots) && CacheOk() && NoOrphan(tree, before)
      ensures var i := slots[t].inum; tree == old(tree)[i := old(tree)[i].(entries := [Entry(i, "."), Entry(d, "..")])]
    {
      hide Unique, Plus, Held, Full;
      var i := slots[t].inum;
      hide NoOrphan, Backed, Find;
      ghost var tree0 := tree;
      DotsNew(i);
      var r0, k0 := Dirlink(t, ".", i);
      assert tree[i].entries == [Entry(i, ".")];
      DotsKeep(tree0, tree, before, slots, i);
      ghost var tree1 := tree;
      var r1, k1 := Dirlink(t, "..", d);
      assert tree[i].entries == [Entry(i, "."), Entry(d, "..")];
      DotsKeep(tree1, tree, before, slots, i);
    }

    /** iput of one of the references in m. */
    method ReleaseOne(s: nat, ghost before: seq<Slot>, ghost m: multiset<nat>)
      requires CacheOk() && s < |slots| && slots[s].ref > 0 && NoOrphan(tree, before) && Unique(before)
      requires Held(before, slots)
      requires Holds(before, slots, m) && slots[s].inum in m
      modifies this
      ensures tree == old(tree) && CacheOk() && Held(before, slots)
      ensures Holds(before, slots, m - multiset{old(slots)[s].inum})
      ensures forall t :: 0 <= t < |slots| && t != s ==> slots[t] == old(slots)[t]
      ensures |slots| == |old(slots)| && slots[s].inum == old(slots)[s].inum
      ensures (m[slots[s].inum] >= 2 ==> slots[s].ref > 0)
    {
      hide Unique, NoOrphan, Backed, Plus, Holds, Held, AtLeast;
      HoldsFacts(tree, before, slots, m, slots[s].inum);
      ghost var a := slots;
      Unhold(s, before);
      HoldsLess(before, a, slots, m, a[s].inum);
      HoldsTwo(before, a, m, a[s].inum);
    }

    /** The label bad in sys_link: the link count goes back. */
    method Undo(s: nat, ghost before: seq<Slot>, ghost tree0: Tree, ghost m: multiset<nat>)
      requires CacheOk() && s < |slots| && slots[s].ref > 0 && NoOrphan(tree0, before) && Unique(before)
      requires Held(before, slots)
      requires Holds(before, slots, m) && m == multiset{slots[s].inum}
      requires slots[s].inum in tree0 && tree == WithLinks(tree0, slots[s].inum, tree0[slots[s].inum].nlink + 1)
      modifies this
      ensures tree == tree0 && CacheOk() && Held(before, slots) && Plus(before, slots, None)
    {
      hide Unique, NoOrphan, Plus, Holds, Held, AtLeast;
      var i := slots[s].inum;
      tree := WithLinks(tree, i, tree[i].nlink - 1);
      assert tree == tree0;
      HoldsFacts(tree, before, slots, m, i);
      ReleaseOne(s, before, m);
      assert m - multiset{i} == multiset{};
      HoldsFacts(tree, before, slots, multiset{}, i);
    }
  }

  function Last(comps: seq<string>): string
    requires comps != []
  {
    comps[|comps| - 1]
  }

  /** Where a path starts: the root, or the current directory. */
  function Origin(path: string, slots: seq<Slot>, cwd: nat): nat
    requires cwd < |slots|
  {
    if path != "" && path[0] == '/' then ROOTINO else slots[cwd].inum
  }

  /** The inode that the last component of a path names in the directory before it. */
  ghost function Target(tree: Tree, start: nat, path: string): Option<nat> {
    var comps := Components(path);
    match WalkParent(tree, start, comps)
    case At(d) =>
      if comps == [] || d !in tree then None
      else (match Find(tree[d].entries, Last(comps)) case None => None case Some(k) => Some(tree[d].entries[k].inum))
    case _ => None
  }

  lemma TargetIs(tree: Tree, start: nat, path: string, d: nat, name: string)
    requires WalkParent(tree, start, Components(path)) == At(d) && d in tree && Components(path) != []
    requires name == Components(path)[|Components(path)| - 1]
    ensures var k := Find(tree[d].entries, name);
            Target(tree, start, path) == if k.None? then None else Some(tree[d].entries[k.value].inum)
  {}

  /** There is no directory for a new name, or the name is taken. */
  ghost predicate NameRefused(tree: Tree, start: nat, path: string) {
    WalkParent(tree, start, Components(path)) == Nowhere || Target(tree, start, path).Some?
  }

  /** The directory for a path's last component has not been removed. */
  ghost predicate ParentLinked(tree: Tree, start: nat, path: string) {
    var w := WalkParent(tree, start, Components(path)); w.At? && Linked(tree, w.i)
  }

  lemma ParentIs(tree: Tree, start: nat, path: string, d: nat)
    requires WalkParent(tree, start, Components(path)) == At(d)
    ensures ParentLinked(tree, start, path) <==> Linked(tree, d)
  {}

  /** When create returns 0: no directory for the name, or the name is taken and open does not accept what
      it names. */
  ghost predicate CreateRefused(tree: Tree, start: nat, path: string, kind: Kind) {
    var i := Target(tree, start, path);
    WalkParent(tree, start, Components(path)) == Nowhere || (i.Some? && (kind != Reg || IsDir(tree, i.value)))
  }

  /** i is the lowest-numbered inode that is not in use. */
  ghost predicate IsSpare(tree: Tree, ninodes: nat, i: nat) {
    0 < i < ninodes && i !in tree && forall j :: 0 < j < i ==> j in tree
  }

  /** The path leads through, or to, an inode that is not in use; or a new inode is needed and there is none. */
  ghost predicate CreateBroken(tree: Tree, start: nat, path: string, ninodes: nat) {
    var i := Target(tree, start, path);
    WalkParent(tree, start, Components(path)) == Broken || (i.Some? && i.value !in tree)
    || (i.None? && forall j :: 0 < j < ninodes ==> j in tree)
  }

  /** When sys_link returns -1: nothing at the old path, a directory there, or no place for the new name. */
  ghost predicate LinkRefused(tree: Tree, start: nat, oldpath: string, start': nat, newpath: string) {
    var w := Walk(tree, start, Components(oldpath));
    w == Nowhere || (w.At? && IsDir(tree, w.i)) || NameRefused(tree, start', newpath)
  }

  /** A path of sys_link leads through an inode that is not in use, or the old path to one. */
  ghost predicate LinkBroken(tree: Tree, start: nat, oldpath: string, start': nat, newpath: string) {
    var w := Walk(tree, start, Components(oldpath));
    w == Broken || (w.At? && w.i !in tree) || WalkParent(tree, start', Components(newpath)) == Broken
  }

  lemma NoTarget(tree: Tree, start: nat, path: string)
    requires WalkParent(tree, start, Components(path)) == Nowhere
    ensures Target(tree, start, path).None?
  {}

  ghost predicate EntryRefused(tree: Tree, d: nat, name: string) {
    name == "." || name == ".." ||
    (d in tree
     && match Find(tree[d].entries, name) case None => true case Some(k) => !Removable(tree, tree[d].entries[k].inum))
  }

  /** When sys_unlink returns -1: nothing with that name, a dot, or a directory that is not empty. */
  ghost predicate UnlinkRefused(tree: Tree, start: nat, path: string) {
    var comps, i := Components(path), Target(tree, start, path);
    i.None? || (comps != [] && (Last(comps) == "." || Last(comps) == "..")) || !Removable(tree, i.value)
  }

  /** The tree with a new name for i, at the first free entry k of the directory d where the path ends, which did
      not have the name. */
  ghost predicate NewName(tree: Tree, tree': Tree, start: nat, path: string, i: nat, d: nat, k: nat) {
    && WalkParent(tree, start, Components(path)) == At(d) && Components(path) != [] && i in tree && d in tree
    && k <= |tree[d].entries| && i != d
    && FirstFree(tree[d].entries, k) && Find(tree[d].entries, Last(Components(path))).None?
    && tree' == WithEntry(WithLinks(tree, i, tree[i].nlink + 1), d, k, Entry(i, Last(Components(path))))
  }

  lemma NewNameIs(tree: Tree, tree': Tree, start: nat, path: string, i: nat, d: nat, k: nat, name: string)
    requires WalkParent(tree, start, Components(path)) == At(d) && Components(path) != []
    requires name == Components(path)[|Components(path)| - 1]
    requires i in tree && d in tree && k <= |tree[d].entries| && i != d && FirstFree(tree[d].entries, k)
    requires Find(tree[d].entries, name).None?
    requires tree' == WithEntry(WithLinks(tree, i, tree[i].nlink + 1), d, k, Entry(i, name))
    ensures NewName(tree, tree', start, path, i, d, k)
  {}

  lemma NewNameFree(tree: Tree, tree': Tree, start: nat, path: string, i: nat, d: nat, k: nat)
    requires NewName(tree, tree', start, path, i, d, k)
    ensures !NameRefused(tree, start, path)
  {}

  /** What sys_unlink can take away: a file, or an empty directory. */
  predicate Removable(tree: Tree, i: nat) {
    i in tree && (tree[i].kind == Dir ==> IsEmpty(tree, i))
  }

  /** Entry k of d, where the path ends, names i; it is neither of the dots. */
  ghost predicate OldName(tree: Tree, start: nat, path: string, d: nat, k: nat, i: nat) {
    && WalkParent(tree, start, Components(path)) == At(d) && Components(path) != [] && k >= 2 && Names(tree, d, k, i)
    && Find(tree[d].entries, Last(Components(path))) == Some(k) && Removable(tree, i)
  }

  lemma OldNameIs(tree: Tree, start: nat, path: string, d: nat, k: nat, i: nat, name: string)
    requires WalkParent(tree, start, Components(path)) == At(d) && Components(path) != []
    requires name == Components(path)[|Components(path)| - 1]
    requires k >= 2 && Names(tree, d, k, i) && Find(tree[d].entries, name) == Some(k) && Removable(tree, i)
    ensures OldName(tree, start, path, d, k, i)
  {}

  lemma OldNameFound(tree: Tree, start: nat, path: string, d: nat, k: nat, i: nat)
    requires OldName(tree, start, path, d, k, i) && Last(Components(path)) != "." && Last(Components(path)) != ".."
    ensures !UnlinkRefused(tree, start, path)
  {}

  /** The tree without entry k of d, which names i. */
  function Unlinked(tree: Tree, d: nat, k: nat, i: nat): Tree
    requires d in tree && i in tree && k <= |tree[d].entries|
  {
    if tree[i].kind == Dir then Removed(tree, d, k, i)
      else WithLinks(WithEntry(tree, d, k, NOENTRY), i, tree[i].nlink - 1)
  }

  /** The same before the inode's own count goes down. */
  function Middle(tree: Tree, d: nat, k: nat, i: nat): Tree
    requires d in tree && i in tree && k <= |tree[d].entries|
  {
    if tree[i].kind == Dir then WithLinks(WithEntry(tree, d, k, NOENTRY), d, tree[d].nlink - 1)
      else WithEntry(tree, d, k, NOENTRY)
  }

  /** An entry other than the dots is in a linked directory, and leads to an inode with a link. */
  lemma NamedIsLinked(tree: Tree, d: nat, name: string, k: nat)
    requires LinkOk(tree) && IsDir(tree, d) && Find(tree[d].entries, name) == Some(k) && name != "." && name != ".."
    ensures k >= 2 && k < |tree[d].entries| && tree[d].entries[k].name == name
    ensures var i := tree[d].entries[k].inum; Names(tree, d, k, i) && i in tree && tree[i].nlink >= 1
  {
    assert DirFormed(tree, d);
    assert tree[d].nlink == |Refs(tree, d)|;
    var i := tree[d].entries[k].inum;
    assert Names(tree, d, k, i);
    HasLink(tree, d, k, i);
  }

  lemma UnlinkOk(tree: Tree, before: seq<Slot>, slots: seq<Slot>, d: nat, k: nat, i: nat)
    requires LinkOk(tree) && k >= 2 && Names(tree, d, k, i) && Removable(tree, i) && NoOrphan(tree, before)
    requires NoOrphan(tree, slots) && Backed(tree, slots)
    ensures i != d && LinkOk(Unlinked(tree, d, k, i))
    ensures var m := Middle(tree, d, k, i); NoOrphan(m, before) && NoOrphan(m, slots) && Backed(m, slots)
  {
    if tree[i].kind == Dir {
      EmptyDirLinks(tree, d, k, i);
      DropDir(tree, d, k, i);
    } else {
      DropName(tree, d, k, i);
    }
    hide LinkOk;
  }

  lemma SlotsApart(slots: seq<Slot>, e: nat, t: nat)
    requires e < |slots| && t < |slots|
    ensures slots[e].inum != slots[t].inum ==> e != t
  {}

  lemma BackedKeys(m: Tree, u: Tree, slots: seq<Slot>)
    requires Backed(m, slots) && u.Keys == m.Keys
    ensures Backed(u, slots)
  {}

  /** The last iput of sys_unlink frees the inode when its links and its users are gone. */
  lemma LastPut(u: Tree, tree: Tree, before: seq<Slot>, a: seq<Slot>, slots: seq<Slot>, i: nat, t: nat)
    requires LinkOk(u) && i in u && t < |a| == |slots| && a[t].inum == i && a[t].valid && a[t].ref > 0 && Unique(a)
    requires Unique(before) && Held(before, a) && Holds(before, a, multiset{i})
    requires Backed(u, a) && Unique(slots) && Plus(slots, a, Some(i))
    requires (forall s :: 0 <= s < |slots| && s != t ==> slots[s] == a[s])
    requires slots[t].ref == a[t].ref - 1 && slots[t].inum == i && (slots[t].valid ==> tree == u)
    requires tree == if Count(a, i) == 1 && u[i].nlink == 0 then u - {i} else u
    requires forall x :: x in u && x != i && u[x].nlink == 0 ==> Count(before, x) > 0
    requires Count(a, i) == a[t].ref
    ensures LinkOk(tree) && NoOrphan(tree, slots) && Backed(tree, slots) && Plus(before, slots, None)
    ensures Held(before, slots)
    ensures tree == if u[i].nlink == 0 && Count(before, i) == 0 then u - {i} else u
  {
    hide LinkOk, Held, Holds, Plus, Unique, Backed, NoOrphan, AtLeast, Names;
    HoldsLess(before, a, slots, multiset{i}, i);
    assert multiset{i} - multiset{i} == multiset{};
    HoldsFacts(tree, before, slots, multiset{}, i);
    HoldsFacts(tree, before, a, multiset{i}, i);
    HoldsOne(before, a, i);
    StillHeld(before, a, slots, t);
    if u[i].nlink == 0 { FreeInode(u, i); }
    LastOrphan(u, tree, before, slots, i);
    LastBacked(u, tree, a, slots, i, t);
  }

  lemma HoldsOne(before: seq<Slot>, slots: seq<Slot>, i: nat)
    requires Holds(before, slots, multiset{i})
    ensures Count(slots, i) == Count(before, i) + 1
  {}

  lemma OthersKept(m: Tree, u: Tree, before: seq<Slot>, i: nat)
    requires NoOrphan(m, before) && i in m && u.Keys == m.Keys && forall x :: x in m && x != i ==> u[x] == m[x]
    ensures forall x :: x in u && x != i && u[x].nlink == 0 ==> Count(before, x) > 0
  {}

  lemma LastOrphan(u: Tree, tree: Tree, before: seq<Slot>, slots: seq<Slot>, i: nat)
    requires i in u && Plus(before, slots, None)
    requires tree == (if u[i].nlink == 0 && Count(before, i) == 0 then u - {i} else u)
    requires forall x :: x in u && x != i && u[x].nlink == 0 ==> Count(before, x) > 0
    ensures NoOrphan(tree, slots)
  {
    forall x | x in tree && tree[x].nlink == 0 ensures Count(slots, x) > 0 {
      assert Count(slots, x) == Count(before, x);
    }
  }

  lemma LastBacked(u: Tree, tree: Tree, a: seq<Slot>, slots: seq<Slot>, i: nat, t: nat)
    requires Backed(u, a) && t < |a| == |slots| && (forall s :: 0 <= s < |slots| && s != t ==> slots[s] == a[s])
    requires a[t].inum == i && a[t].ref > 0 && Unique(a)
    requires slots[t].inum == i && slots[t].ref == a[t].ref - 1 && a[t].valid && i in u
    requires (tree == u || (tree == u - {i} && a[t].ref == 1))
    ensures Backed(tree, slots)
  {}

  /** The tree with a new inode i, named in entry k of d. */
  function Made(tree: Tree, d: nat, k: nat, name: string, i: nat, kind: Kind): Tree
    requires d in tree && i !in tree && k <= |tree[d].entries|
  {
    if kind == Dir then NewDirTree(tree, d, k, name, i)
      else WithEntry(tree[i := Ino(kind, 1, [])], d, k, Entry(i, name))
  }

  /** A new inode at the end of a path. */
  ghost predicate MadeAt(tree: Tree, tree': Tree, start: nat, path: string, i: nat, kind: Kind, k: nat) {
    && i !in tree && Components(path) != []
    && exists d :: WalkParent(tree, start, Components(path)) == At(d) && d in tree && FirstFree(tree[d].entries, k)
                   && tree' == Made(tree, d, k, Last(Components(path)), i, kind)
  }

  lemma MadeIs(tree: Tree, tree': Tree, start: nat, path: string, i: nat, kind: Kind, k: nat, d: nat, name: string)
    requires i !in tree && Components(path) != [] && name == Components(path)[|Components(path)| - 1]
    requires WalkParent(tree, start, Components(path)) == At(d) && d in tree && FirstFree(tree[d].entries, k)
    requires tree' == Made(tree, d, k, name, i, kind)
    ensures MadeAt(tree, tree', start, path, i, kind, k)
  {}

  lemma SameSlot(slots: seq<Slot>, e: nat, t: nat)
    requires Unique(slots) && e < |slots| && t < |slots| && slots[e].ref > 0 && slots[t].ref > 0
    ensures slots[e].inum == slots[t].inum <==> e == t
  {}

  lemma BackedMore(tree0: Tree, tree: Tree, slots: seq<Slot>)
    requires Backed(tree0, slots) && tree0.Keys <= tree.Keys
    ensures Backed(tree, slots)
  {}

  lemma NewLocked(tree: Tree, before: seq<Slot>, a: seq<Slot>, slots: seq<Slot>, m: multiset<nat>, s: nat)
    requires s < |a| && Holds(before, a, m) && Backed(tree, a) && Held(before, a)
    requires slots == a[s := a[s].(valid := true)] && Plus(a, slots, None) && a[s].inum in tree
    ensures Backed(tree, slots) && Holds(before, slots, m) && Held(before, slots)
  {
    HoldsStill(before, a, slots, m);
  }

  /** A tree where no more inodes are without links. */
  lemma FewerOrphans(tree0: Tree, tree: Tree, before: seq<Slot>, slots: seq<Slot>, m: multiset<nat>)
    requires NoOrphan(tree0, before) && Holds(before, slots, m)
    requires forall x :: x in tree && tree[x].nlink == 0 ==> x in tree0 && tree0[x].nlink == 0
    ensures NoOrphan(tree, before) && NoOrphan(tree, slots)
  {
    HoldsFacts(tree, before, slots, m, 0);
  }

  lemma DotsNew(i: nat)
    ensures Find([], ".").None? && Find([Entry(i, ".")], "..").None?
  {}

  lemma DotsKeep(tree0: Tree, tree: Tree, before: seq<Slot>, slots: seq<Slot>, i: nat)
    requires NoOrphan(tree0, before) && NoOrphan(tree0, slots) && Backed(tree0, slots) && i in tree0
    requires tree.Keys == tree0.Keys
    requires forall x :: x in tree ==> tree[x].nlink == tree0[x].nlink
    ensures NoOrphan(tree, before) && NoOrphan(tree, slots) && Backed(tree, slots)
  {}

  /** The tree with inode i made for directory d, not yet named in it. */
  function WithNew(tree: Tree, d: nat, i: nat, kind: Kind): Tree
    requires d in tree
  {
    if kind != Dir then tree[i := Ino(kind, 1, [])]
    else WithLinks(tree, d, tree[d].nlink + 1)[i := Ino(Dir, 1, [Entry(i, "."), Entry(d, "..")])]
  }

  /** The tree after the last dirlink of create. */
  lemma CreateEnd(tree0: Tree, mid: Tree, tree: Tree, before: seq<Slot>, slots: seq<Slot>, d: nat, k: nat, name: string,
                  i: nat, kind: Kind)
    requires LinkOk(tree0) && IsDir(tree0, d) && i !in tree0 && i != 0 && FirstFree(tree0[d].entries, k)
    requires Find(tree0[d].entries, name).None?
    requires mid == WithNew(tree0, d, i, kind)
    requires tree == WithEntry(mid, d, k, Entry(i, name)) && NoOrphan(mid, before) && NoOrphan(mid, slots)
    requires Backed(mid, slots)
    ensures tree == Made(tree0, d, k, name, i, kind) && (LinkOk(tree) <==> Linked(tree0, d)) && NoOrphan(tree, before)
    ensures NoOrphan(tree, slots) && Backed(tree, slots)
  {
    assert DirFormed(tree0, d);
    hide Balanced, Hung, Find, Formed;
    if kind == Dir {
      DirNeedsLinked(tree0, d, k, name, i);
    } else {
      CreateNeedsLinked(tree0, d, k, name, i, kind);
    }
    hide LinkOk;
  }

  lemma HoldsTwo(before: seq<Slot>, slots: seq<Slot>, m: multiset<nat>, i: nat)
    requires Holds(before, slots, m)
    ensures m[i] >= 2 ==> Count(slots, i) >= 2
  {}

  lemma HeldAt(before: seq<Slot>, slots: seq<Slot>, s: nat)
    requires Held(before, slots) && s < |before| && before[s].ref > 0
    ensures |slots| == |before| && slots[s].inum == before[s].inum && slots[s].ref > 0
  {}

  lemma Locked(tree: Tree, before: seq<Slot>, a: seq<Slot>, slots: seq<Slot>, m: multiset<nat>, s: nat)
    requires s < |a| && NoOrphan(tree, before) && Holds(before, a, m) && Backed(tree, a) && a[s].ref > 0
    requires Held(before, a)
    requires slots == a[s := a[s].(valid := true)] && Plus(a, slots, None) && (a[s].valid || a[s].inum in tree)
    ensures a[s].inum in tree && NoOrphan(tree, slots) && Backed(tree, slots) && Holds(before, slots, m)
    ensures Held(before, slots)
  {
    HoldsStill(before, a, slots, m);
    HoldsFacts(tree, before, slots, m, 0);
  }

  lemma CountsUp(tree: Tree, i: nat)
    requires LinkOk(tree) && i in tree
    ensures tree[i].nlink >= 0
  {
    assert tree[i].nlink == |Refs(tree, i)|;
  }

  /** Raising a count makes no orphan. */
  lemma LinkCounts(tree: Tree, before: seq<Slot>, slots: seq<Slot>, i: nat)
    requires LinkOk(tree) && i in tree && NoOrphan(tree, before) && NoOrphan(tree, slots) && Backed(tree, slots)
    ensures var t := WithLinks(tree, i, tree[i].nlink + 1);
            NoOrphan(t, slots) && NoOrphan(t, before) && Backed(t, slots)
  {
    assert tree[i].nlink == |Refs(tree, i)|;
  }

  /** Link counts play no part in looking names up. */
  lemma {:induction false} SameWalk(tree: Tree, tree': Tree, i: nat, comps: seq<string>)
    requires tree'.Keys == tree.Keys
    requires forall x :: x in tree ==> tree'[x].kind == tree[x].kind && tree'[x].entries == tree[x].entries
    ensures WalkParent(tree', i, comps) == WalkParent(tree, i, comps)
    decreases |comps|
  {
    if comps != [] && IsDir(tree, i) && Find(tree[i].entries, comps[0]).Some? {
      SameWalk(tree, tree', tree[i].entries[Find(tree[i].entries, comps[0]).value].inum, comps[1..]);
    }
  }

  /** The tree after dirlink in sys_link. */
  lemma LinkEnd(tree0: Tree, tree: Tree, before: seq<Slot>, slots: seq<Slot>, i: nat, d: nat, k: nat, name: string)
    requires LinkOk(tree0) && IsDir(tree0, d) && i in tree0 && tree0[i].kind != Dir && NoOrphan(tree0, before)
    requires Backed(WithLinks(tree0, i, tree0[i].nlink + 1), slots)
    requires FirstFree(tree0[d].entries, k) && Find(tree0[d].entries, name).None?
    requires NoOrphan(WithLinks(tree0, i, tree0[i].nlink + 1), slots)
    requires tree == WithEntry(WithLinks(tree0, i, tree0[i].nlink + 1), d, k, Entry(i, name))
    ensures (LinkOk(tree) <==> Linked(tree0, d)) && NoOrphan(tree, before) && NoOrphan(tree, slots)
    ensures Backed(tree, slots)
  {
    assert DirFormed(tree0, d);
    LinkNeedsLinked(tree0, d, k, name, i);
    assert tree0[i].nlink == |Refs(tree0, i)|;
    hide LinkOk, Find;
  }

  /** Success, -1, or a kernel panic. */
  datatype Done = Ok | Fail | Oops

  datatype Turn = Go(t: nat) | Stop(r: Got)

  lemma PlusAtLeast(before: seq<Slot>, slots: seq<Slot>, i: nat)
    requires Plus(before, slots, Some(i))
    ensures AtLeast(before, slots, i)
  {}

  lemma UnheldOrphan(tree: Tree, before: seq<Slot>, mid: seq<Slot>, slots: seq<Slot>, i: nat)
    requires NoOrphan(tree, before) && AtLeast(before, mid, i) && Plus(slots, mid, Some(i))
    ensures NoOrphan(tree, slots)
  {
    forall x | x in tree && tree[x].nlink == 0 ensures Count(slots, x) > 0 {
      assert Count(mid, x) == Count(slots, x) + if Some(i) == Some(x) then 1 else 0;
    }
  }

  lemma PlusBack(before: seq<Slot>, mid: seq<Slot>, slots: seq<Slot>, i: nat)
    requires Plus(before, mid, Some(i)) && Plus(slots, mid, Some(i))
    ensures Plus(before, slots, None)
  {
    forall x: nat ensures Count(slots, x) == Count(before, x) {
      assert Count(mid, x) == Count(slots, x) + if Some(i) == Some(x) then 1 else 0;
    }
  }

  lemma PlusTwice(before: seq<Slot>, mid: seq<Slot>, slots: seq<Slot>, i: nat, j: nat)
    requires Plus(before, mid, Some(i)) && Plus(mid, slots, Some(j))
    ensures AtLeast(before, slots, i) && AtLeast(before, slots, j) && (i == j ==> Count(slots, i) >= 2)
  {
    forall x: nat ensures Count(slots, x) == Count(before, x) + (if x == i then 1 else 0) + (if x == j then 1 else 0) {
      assert Count(mid, x) == Count(before, x) + if Some(i) == Some(x) then 1 else 0;
    }
  }

  lemma PlusSwap(before: seq<Slot>, s1: seq<Slot>, s2: seq<Slot>, slots: seq<Slot>, i: nat, j: nat)
    requires Plus(before, s1, Some(i)) && Plus(s1, s2, Some(j)) && Plus(slots, s2, Some(i))
    ensures Plus(before, slots, Some(j))
  {
    forall x: nat ensures Count(slots, x) == Count(before, x) + if Some(j) == Some(x) then 1 else 0 {
      assert Count(s1, x) == Count(before, x) + if Some(i) == Some(x) then 1 else 0;
      assert Count(s2, x) == Count(s1, x) + if Some(j) == Some(x) then 1 else 0;
      assert Count(s2, x) == Count(slots, x) + if Some(i) == Some(x) then 1 else 0;
    }
  }

  lemma LockedOk(tree: Tree, before: seq<Slot>, s0: seq<Slot>, slots: seq<Slot>, s: nat)
    requires s < |s0| && NoOrphan(tree, before) && Plus(before, s0, Some(s0[s].inum)) && Backed(tree, s0)
    requires s0[s].ref > 0
    requires slots == s0[s := s0[s].(valid := true)] && Plus(s0, slots, None) && (s0[s].valid || s0[s].inum in tree)
    ensures s0[s].inum in tree && NoOrphan(tree, slots) && Backed(tree, slots) && Plus(before, slots, Some(s0[s].inum))
  {
    forall x: nat ensures Count(slots, x) == Count(before, x) + if Some(s0[s].inum) == Some(x) then 1 else 0 {
      assert Count(slots, x) == Count(s0, x);
    }
    PlusOrphan(tree, before, slots, Some(s0[s].inum));
  }

  lemma DupBacked(tree: Tree, s0: seq<Slot>, slots: seq<Slot>, s: nat)
    requires Backed(tree, s0) && s < |s0| == |slots| && s0[s].ref > 0
    requires forall t :: 0 <= t < |slots| ==> slots[t] == if t == s then s0[s].(ref := s0[s].ref + 1) else s0[t]
    ensures Backed(tree, slots) && Held(s0, slots)
  {}

  lemma HeldLocked(before: seq<Slot>, s0: seq<Slot>, slots: seq<Slot>, s: nat)
    requires s < |s0| && Held(before, s0) && slots == s0[s := s0[s].(valid := true)]
    ensures Held(before, slots)
  {}

  lemma HeldSame(slots: seq<Slot>)
    ensures Held(slots, slots)
  {}

  lemma FullMeans(slots: seq<Slot>)
    requires forall t :: 0 <= t < |slots| ==> slots[t].ref > 0
    ensures Full(slots)
  {}

  lemma WalkDone(tree: Tree, i: nat)
    ensures Walk(tree, i, []) == At(i) && WalkParent(tree, i, []) == Nowhere
  {}

  lemma WalkStep(tree: Tree, i: nat, comps: seq<string>)
    requires comps != []
    ensures i !in tree ==> Walk(tree, i, comps) == Broken && WalkParent(tree, i, comps) == Broken
    ensures i in tree && tree[i].kind != Dir ==>
      Walk(tree, i, comps) == Nowhere && WalkParent(tree, i, comps) == Nowhere
    ensures IsDir(tree, i) && |comps| == 1 ==> WalkParent(tree, i, comps) == At(i)
    ensures IsDir(tree, i) && Find(tree[i].entries, comps[0]).None? ==>
      Walk(tree, i, comps) == Nowhere && (|comps| > 1 ==> WalkParent(tree, i, comps) == Nowhere)
    ensures IsDir(tree, i) && Find(tree[i].entries, comps[0]).Some? ==>
              var j := tree[i].entries[Find(tree[i].entries, comps[0]).value].inum;
              && Walk(tree, i, comps) == Walk(tree, j, comps[1..])
              && (|comps| > 1 ==> WalkParent(tree, i, comps) == WalkParent(tree, j, comps[1..]))
  {}

  /** iget has no slot to give. */
  ghost predicate Full(slots: seq<Slot>) { forall t :: 0 <= t < |slots| ==> slots[t].ref > 0 }
}
