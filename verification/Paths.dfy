/** Path names of kernel/fs.c: their components, and the directory tree they are resolved in. */
module Paths {
  import opened Blocks

  const DIRSIZ: nat := 14

  datatype Kind = Dir | Reg | Dev

  /** A directory entry; inode number 0 marks a free one. */
  datatype Entry = Entry(inum: nat, name: string)

  /** An inode in use. Only directories have entries. */
  datatype Ino = Ino(kind: Kind, nlink: int, entries: seq<Entry>)

  type Tree = map<nat, Ino>

  predicate IsNamed(e: Entry, name: string) { e.inum != 0 && e.name == name }

  /** The position of the first entry with a name. */
  function FindFrom(entries: seq<Entry>, name: string, i: nat): (r: Option<nat>)
    requires i <= |entries|
    ensures r.Some? ==>
      && i <= r.value < |entries| && IsNamed(entries[r.value], name)
      && forall j :: i <= j < r.value ==> !IsNamed(entries[j], name)
    ensures r.None? ==> forall j :: i <= j < |entries| ==> !IsNamed(entries[j], name)
    decreases |entries| - i
  {
    if i == |entries| then None else if IsNamed(entries[i], name) then Some(i) else FindFrom(entries, name, i + 1)
  }

  function Find(entries: seq<Entry>, name: string): Option<nat> { FindFrom(entries, name, 0) }

  /** The first free entry, or the end. */
  predicate FirstFree(es: seq<Entry>, k: nat) {
    k <= |es| && (forall j :: 0 <= j < k ==> es[j].inum != 0) && (k < |es| ==> es[k].inum == 0)
  }

  // ----- components of a path

  function Truncated(s: string): string { if |s| >= DIRSIZ then s[..DIRSIZ] else s }

  function SlashLen(s: string): (n: nat)
    ensures n <= |s| && (forall i :: 0 <= i < n ==> s[i] == '/') && (n < |s| ==> s[n] != '/')
  {
    if s != "" && s[0] == '/' then 1 + SlashLen(s[1..]) else 0
  }

  function NameLen(s: string): (n: nat)
    ensures n <= |s| && (forall i :: 0 <= i < n ==> s[i] != '/') && (n < |s| ==> s[n] == '/')
  {
    if s != "" && s[0] != '/' then 1 + NameLen(s[1..]) else 0
  }

  /** The names that skipelem takes off a path, one by one. */
  function Components(path: string): seq<string>
    decreases |path|
  {
    var s := path[SlashLen(path)..];
    if s == "" then [] else
      assert NameLen(s) > 0;
      [Truncated(s[..NameLen(s)])] + Components(s[NameLen(s)..])
  }

  /** The pieces of a path between slashes, empty ones included. */
  function Split(path: string): (r: seq<string>)
    ensures |r| > 0
  {
    if path == "" then [""]
    else
      var rest := Split(path[1..]);
      if path[0] == '/' then [""] + rest else [[path[0]] + rest[0]] + rest[1..]
  }

  function Named(pieces: seq<string>): seq<string> {
    if pieces == [] then [] else (if pieces[0] == "" then [] else [Truncated(pieces[0])]) + Named(pieces[1..])
  }

  /** The components are the non-empty pieces, cut to DIRSIZ characters. */
  lemma {:induction false} ComponentsAreNames(path: string)
    ensures Components(path) == Named(Split(path))
    decreases |path|
  {
    if path == "" {
      NamedCons("", []);
    } else if path[0] == '/' {
      ComponentsAreNames(path[1..]);
      SkipSlash(path);
      hide Components, Named;
      NamedCons("", Split(path[1..]));
    } else {
      var n := NameLen(path);
      var rest := Split(path[n..]);
      SplitName(path);
      OneComponent(path);
      if n == |path| {
        assert path[n..] == "" && rest == [""] && path[..n] + "" == path[..n];
        NamedCons(path[..n], []);
      } else {
        var after := path[n..][1..];
        ComponentsAreNames(after);
        SkipSlash(path[n..]);
        assert rest == [""] + Split(after) && rest[1..] == Split(after) && path[..n] + "" == path[..n];
        hide Components, Named, Split;
        NamedCons(path[..n], Split(after));
      }
    }
  }

  lemma NamedCons(p: string, rest: seq<string>)
    ensures Named([p] + rest) == (if p == "" then [] else [Truncated(p)]) + Named(rest)
  {
    assert ([p] + rest)[1..] == rest;
  }

  lemma OneComponent(path: string)
    requires path != "" && path[0] != '/'
    ensures Components(path) == [Truncated(path[..NameLen(path)])] + Components(path[NameLen(path)..])
  {
    assert path[0..] == path;
  }

  lemma SkipSlash(path: string)
    requires path != "" && path[0] == '/'
    ensures Components(path) == Components(path[1..])
  {
    var k := SlashLen(path[1..]);
    assert path[1 + k..] == path[1..][k..];
  }

  lemma {:induction false} SplitName(path: string)
    requires path != "" && path[0] != '/'
    ensures var n := NameLen(path); n > 0 && Split(path) == [path[..n] + Split(path[n..])[0]] + Split(path[n..])[1..]
    decreases |path|
  {
    var n := NameLen(path);
    var t := path[1..];
    if n == 1 {
      assert path[..1] == [path[0]] && path[1..] == t;
    } else {
      SplitName(t);
      var m := NameLen(t);
      assert path[..n] == [path[0]] + t[..m] && path[n..] == t[m..];
      var rest := Split(t[m..]);
      assert Split(t)[0] == t[..m] + rest[0] && Split(t)[1..] == rest[1..];
      assert [path[0]] + (t[..m] + rest[0]) == path[..n] + rest[0];
    }
  }

  // ----- resolving a path

  /** At an inode, at no inode, or stopped at a number that no inode in use has. */
  datatype Walked = At(i: nat) | Nowhere | Broken

  /** Looking up the components one after the other from inode i. */
  function Walk(tree: Tree, i: nat, comps: seq<string>): Walked
    decreases |comps|
  {
    if comps == [] then At(i)
    else if i !in tree then Broken
    else if tree[i].kind != Dir then Nowhere
    else
      var k := Find(tree[i].entries, comps[0]);
      if k.None? then Nowhere else Walk(tree, tree[i].entries[k.value].inum, comps[1..])
  }

  /** The same, stopping in the directory that holds the last component. */
  function WalkParent(tree: Tree, i: nat, comps: seq<string>): Walked
    decreases |comps|
  {
    if comps == [] then Nowhere
    else if i !in tree then Broken
    else if tree[i].kind != Dir then Nowhere
    else if |comps| == 1 then At(i)
    else
      var k := Find(tree[i].entries, comps[0]);
      if k.None? then Nowhere else WalkParent(tree, tree[i].entries[k.value].inum, comps[1..])
  }

  /** nameiparent stops exactly one component early: it is where the path without its last component
      leads, if that is a directory, and looking up the last one there is the whole walk. */
  lemma {:induction false} ParentOfWalk(tree: Tree, i: nat, comps: seq<string>)
    requires comps != []
    ensures var p, n := WalkParent(tree, i, comps), |comps| - 1;
            && (match Walk(tree, i, comps[..n])
                case At(d) => p == if d !in tree then Broken else if tree[d].kind == Dir then At(d) else Nowhere
                case w => p == w)
            && (p.At? ==> p.i in tree && tree[p.i].kind == Dir && Walk(tree, i, comps) == Walk(tree, p.i, [comps[n]]))
            && (!p.At? ==> Walk(tree, i, comps) == p)
    decreases |comps|
  {
    var n := |comps| - 1;
    if n == 0 {
      assert comps[..0] == [] && comps == [comps[0]];
    } else if i in tree && tree[i].kind == Dir && Find(tree[i].entries, comps[0]).Some? {
      var j := tree[i].entries[Find(tree[i].entries, comps[0]).value].inum;
      ParentOfWalk(tree, j, comps[1..]);
      assert comps[1..][..n - 1] == comps[..n][1..] && comps[1..][n - 1] == comps[n];
    }
  }
}
