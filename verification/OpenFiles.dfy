/** Open files (kernel/file.c) and the descriptors and mappings that refer to them (kernel/sysfile.c,
    kernel/proc.c): every reference count is the number of slots that point at the file. */
module OpenFiles {
  import opened Blocks

  /** What an open file stands for; NoFile between filealloc and its first use, and when closed. */
  datatype Kind = NoFile | PipeEnd(pipe: nat, writable: bool) | OnInode(ip: nat)

  /** A process: its descriptors, and the files of its mmap areas in use. */
  datatype Proc = Proc(ofile: seq<Option<nat>>, vma: seq<Option<nat>>)

  /** References to f in a row of slots. */
  function In(slots: seq<Option<nat>>, f: nat): nat { multiset(slots)[Some(f)] }

  function InProc(p: Proc, f: nat): nat { In(p.ofile, f) + In(p.vma, f) }

  function Total(procs: seq<Proc>, f: nat): nat {
    if procs == [] then 0 else Total(procs[..|procs| - 1], f) + InProc(procs[|procs| - 1], f)
  }

  /** The count of each file is the number of slots that point at it, over all processes, and of the
      references that kernel code holds on the way (held, empty at a system-call boundary). A file nobody
      refers to is closed. */
  ghost predicate Counted(nfile: nat, ref: seq<nat>, kind: seq<Kind>, procs: seq<Proc>, held: multiset<nat>) {
    && |ref| == |kind| == nfile
    && (forall f :: 0 <= f < nfile ==> ref[f] == Total(procs, f) + held[f])
    && (forall f :: 0 <= f < nfile && ref[f] == 0 ==> kind[f] == NoFile)
    && Pointing(nfile, procs)
  }

  /** Slots point at files of the table. */
  ghost predicate Pointing(nfile: nat, procs: seq<Proc>) {
    forall p :: 0 <= p < |procs| ==> Targets(nfile, procs[p].ofile) && Targets(nfile, procs[p].vma)
  }

  predicate Targets(nfile: nat, slots: seq<Option<nat>>) {
    forall i :: 0 <= i < |slots| && slots[i].Some? ==> slots[i].value < nfile
  }

  // ----- counting

  function One(x: Option<nat>, f: nat): nat { if x == Some(f) then 1 else 0 }

  lemma InSet(slots: seq<Option<nat>>, i: nat, x: Option<nat>, f: nat)
    requires i < |slots|
    ensures In(slots[i := x], f) + One(slots[i], f) == In(slots, f) + One(x, f)
  {
    assert slots == slots[..i] + [slots[i]] + slots[i + 1..];
    assert slots[i := x] == slots[..i] + [x] + slots[i + 1..];
  }

  lemma {:induction false} TotalSet(procs: seq<Proc>, p: nat, q: Proc, f: nat)
    requires p < |procs|
    ensures Total(procs[p := q], f) + InProc(procs[p], f) == Total(procs, f) + InProc(q, f)
  {
    var n := |procs| - 1;
    if p == n {
      assert procs[p := q][..n] == procs[..n];
    } else {
      assert procs[p := q][..n] == procs[..n][p := q];
      TotalSet(procs[..n], p, q, f);
    }
  }

  /** A file that a slot points at has a reference. */
  lemma {:induction false} TotalAtLeast(procs: seq<Proc>, p: nat, f: nat)
    requires p < |procs|
    ensures Total(procs, f) >= InProc(procs[p], f)
  {
    var n := |procs| - 1;
    if p < n {
      assert procs[..n][p] == procs[p];
      TotalAtLeast(procs[..n], p, f);
    }
  }

  lemma InPositive(slots: seq<Option<nat>>, i: nat, f: nat)
    requires i < |slots| && slots[i] == Some(f)
    ensures In(slots, f) >= 1
  {
    assert Some(f) in multiset(slots);
  }

  /** Slot i of the descriptors, or of the mappings, of process p changed to x. */
  function WithSlot(q: Proc, vma: bool, i: nat, x: Option<nat>): Proc
    requires i < |if vma then q.vma else q.ofile|
  {
    if vma then q.(vma := q.vma[i := x]) else q.(ofile := q.ofile[i := x])
  }

  function Slot(q: Proc, vma: bool, i: nat): Option<nat>
    requires i < |if vma then q.vma else q.ofile|
  {
    if vma then q.vma[i] else q.ofile[i]
  }

  lemma SlotTotal(procs: seq<Proc>, p: nat, vma: bool, i: nat, x: Option<nat>, f: nat)
    requires p < |procs| && i < |if vma then procs[p].vma else procs[p].ofile|
    ensures Total(procs[p := WithSlot(procs[p], vma, i, x)], f) + One(Slot(procs[p], vma, i), f) == Total(procs, f) +
            One(x, f)
  {
    TotalSet(procs, p, WithSlot(procs[p], vma, i, x), f);
    InSet(if vma then procs[p].vma else procs[p].ofile, i, x, f);
  }

  // ----- one reference more, one less, or moved

  lemma SlotTargets(nfile: nat, procs: seq<Proc>, p: nat, vma: bool, i: nat, x: Option<nat>)
    requires Pointing(nfile, procs) && p < |procs| && i < |if vma then procs[p].vma else procs[p].ofile|
    requires (x.Some? ==> x.value < nfile)
    ensures Pointing(nfile, procs[p := WithSlot(procs[p], vma, i, x)])
  {}

  /** A slot takes a new reference to f. */
  lemma SlotGains(nfile: nat, ref: seq<nat>, kind: seq<Kind>, procs: seq<Proc>, held: multiset<nat>, p: nat, vma: bool,
                  i: nat, f: nat)
    requires Counted(nfile, ref, kind, procs, held) && p < |procs| && i < |if vma then procs[p].vma else procs[p].ofile|
    requires Slot(procs[p], vma, i) == None && f < nfile
    ensures Counted(nfile, ref[f := ref[f] + 1], kind, procs[p := WithSlot(procs[p], vma, i, Some(f))], held)
  {
    forall g | 0 <= g < nfile
      ensures ref[f := ref[f] + 1][g] == Total(procs[p := WithSlot(procs[p], vma, i, Some(f))], g) + held[g]
    {
      SlotTotal(procs, p, vma, i, Some(f), g);
    }
    SlotTargets(nfile, procs, p, vma, i, Some(f));
  }

  /** A slot gives up its reference to f; the last one closes the file. */
  lemma SlotLoses(nfile: nat, ref: seq<nat>, kind: seq<Kind>, procs: seq<Proc>, held: multiset<nat>, p: nat, vma: bool,
                  i: nat, f: nat)
    requires Counted(nfile, ref, kind, procs, held) && p < |procs| && i < |if vma then procs[p].vma else procs[p].ofile|
    requires Slot(procs[p], vma, i) == Some(f)
    ensures f < nfile && ref[f] >= 1
    ensures Counted(nfile, ref[f := ref[f] - 1], if ref[f] == 1 then kind[f := NoFile] else kind,
                    procs[p := WithSlot(procs[p], vma, i, None)], held)
  {
    TotalAtLeast(procs, p, f);
    InPositive(if vma then procs[p].vma else procs[p].ofile, i, f);
    forall g | 0 <= g < nfile
      ensures ref[f := ref[f] - 1][g] == Total(procs[p := WithSlot(procs[p], vma, i, None)], g) + held[g]
    {
      SlotTotal(procs, p, vma, i, None, g);
    }
    SlotTargets(nfile, procs, p, vma, i, None);
  }

  /** A held reference goes into a slot. */
  lemma SlotAdopts(nfile: nat, ref: seq<nat>, kind: seq<Kind>, procs: seq<Proc>, held: multiset<nat>, p: nat, vma: bool,
                   i: nat, f: nat)
    requires Counted(nfile, ref, kind, procs, held) && p < |procs| && i < |if vma then procs[p].vma else procs[p].ofile|
    requires Slot(procs[p], vma, i) == None && f in held && f < nfile
    ensures Counted(nfile, ref, kind, procs[p := WithSlot(procs[p], vma, i, Some(f))], held - multiset{f})
  {
    forall g | 0 <= g < nfile
      ensures ref[g] == Total(procs[p := WithSlot(procs[p], vma, i, Some(f))], g) + (held - multiset{f})[g]
    {
      SlotTotal(procs, p, vma, i, Some(f), g);
    }
    SlotTargets(nfile, procs, p, vma, i, Some(f));
  }

  /** filealloc, and fileclose of a held reference. */
  lemma HeldGains(nfile: nat, ref: seq<nat>, kind: seq<Kind>, procs: seq<Proc>, held: multiset<nat>, f: nat)
    requires Counted(nfile, ref, kind, procs, held) && f < nfile
    ensures Counted(nfile, ref[f := ref[f] + 1], kind, procs, held + multiset{f})
  {}

  lemma HeldLoses(nfile: nat, ref: seq<nat>, kind: seq<Kind>, procs: seq<Proc>, held: multiset<nat>, f: nat)
    requires Counted(nfile, ref, kind, procs, held) && f < nfile && f in held
    ensures ref[f] >= 1
    ensures Counted(nfile, ref[f := ref[f] - 1], if ref[f] == 1 then kind[f := NoFile] else kind,
                    procs, held - multiset{f})
  {}

  lemma HeldKind(nfile: nat, ref: seq<nat>, kind: seq<Kind>, procs: seq<Proc>, held: multiset<nat>, f: nat, k: Kind)
    requires Counted(nfile, ref, kind, procs, held) && f < nfile && f in held
    ensures Counted(nfile, ref, kind[f := k], procs, held)
  {}

  /** A file with no references is in no slot: filealloc never hands out one in use. */
  lemma FreeUnused(nfile: nat, ref: seq<nat>, kind: seq<Kind>, procs: seq<Proc>, held: multiset<nat>, f: nat)
    requires Counted(nfile, ref, kind, procs, held) && f < nfile && ref[f] == 0
    ensures kind[f] == NoFile && f !in held
    ensures forall p, i :: 0 <= p < |procs| && 0 <= i < |procs[p].ofile| ==> procs[p].ofile[i] != Some(f)
    ensures forall p, i :: 0 <= p < |procs| && 0 <= i < |procs[p].vma| ==> procs[p].vma[i] != Some(f)
  {
    forall p, i | 0 <= p < |procs| && 0 <= i < |procs[p].ofile| ensures procs[p].ofile[i] != Some(f) {
      TotalAtLeast(procs, p, f);
      if procs[p].ofile[i] == Some(f) { InPositive(procs[p].ofile, i, f); }
    }
    forall p, i | 0 <= p < |procs| && 0 <= i < |procs[p].vma| ensures procs[p].vma[i] != Some(f) {
      TotalAtLeast(procs, p, f);
      if procs[p].vma[i] == Some(f) { InPositive(procs[p].vma, i, f); }
    }
  }

  class FileTable {
    const nfile: nat
    var ref: seq<nat>
    var kind: seq<Kind>
    var procs: seq<Proc>

    ghost predicate Valid(held: multiset<nat>)
      reads this
    {
      Counted(nfile, ref, kind, procs, held)
    }

    /** filealloc: the first file with no references. */
    method Filealloc(ghost held: multiset<nat>) returns (r: Option<nat>)
      requires Valid(held)
      modifies this`ref
      ensures r.None? ==> Valid(held) && ref == old(ref) && NoFileFree(nfile, ref)
      ensures r.Some? ==> r.value < nfile && old(ref)[r.value] == 0 && ref == old(ref)[r.value := 1]
      ensures r.Some? ==> kind[r.value] == NoFile && Valid(held + multiset{r.value})
                          && forall f :: 0 <= f < r.value ==> old(ref)[f] > 0
    {
      var f := 0;
      while f < nfile
        invariant 0 <= f <= nfile && ref == old(ref) && forall g :: 0 <= g < f ==> ref[g] > 0
      {
        if ref[f] == 0 {
          HeldGains(nfile, ref, kind, procs, held, f);
          ref := ref[f := 1];
          return Some(f);
        }
        f := f + 1;
      }
      r := None;
    }

    /** filedup; false where it panics. */
    method Filedup(f: nat) returns (ok: bool)
      requires f < |ref|
      modifies this`ref
      ensures ok == (old(ref)[f] >= 1) && ref == if ok then old(ref)[f := old(ref)[f] + 1] else old(ref)
    {
      if ref[f] < 1 {
        return false;
      }
      ref := ref[f := ref[f] + 1];
      ok := true;
    }

    /** fileclose; None where it panics, else what is released with the last reference. */
    method Fileclose(f: nat) returns (gone: Option<Kind>)
      requires f < |ref| == |kind|
      modifies this`ref, this`kind
      ensures gone.None? == (old(ref)[f] < 1)
      ensures gone.Some? ==>
        && ref == old(ref)[f := old(ref)[f] - 1]
        && kind == (if old(ref)[f] == 1 then old(kind)[f := NoFile] else old(kind))
      ensures gone.Some? ==> gone.value == if old(ref)[f] == 1 then old(kind)[f] else NoFile
    {
      if ref[f] < 1 {
        return None;
      }
      ref := ref[f := ref[f] - 1];
      if ref[f] > 0 {
        return Some(NoFile);
      }
      gone := Some(kind[f]);
      kind := kind[f := NoFile];
    }

    /** fdalloc: the first free descriptor of process p. */
    method Fdalloc(p: nat, f: nat) returns (r: Option<nat>)
      requires p < |procs|
      modifies this`procs
      ensures r.None? ==> procs == old(procs) && NoSlotFree(procs[p].ofile)
      ensures r.Some? ==> IsFirstFree(old(procs)[p].ofile, r.value)
                          && procs == old(procs)[p := WithSlot(old(procs)[p], false, r.value, Some(f))]
    {
      var fd := 0;
      while fd < |procs[p].ofile|
        invariant 0 <= fd <= |procs[p].ofile| && procs == old(procs)
        invariant forall i :: 0 <= i < fd ==> procs[p].ofile[i].Some?
      {
        if procs[p].ofile[fd].None? {
          procs := procs[p := WithSlot(procs[p], false, fd, Some(f))];
          return Some(fd);
        }
        fd := fd + 1;
      }
      r := None;
    }

    /** argfd: the file of a descriptor. */
    function Argfd(p: nat, fd: int): Option<nat>
      requires p < |procs|
      reads this
    {
      if 0 <= fd < |procs[p].ofile| then procs[p].ofile[fd] else None
    }

    /** sys_dup */
    method Dup(p: nat, fd: int) returns (r: Option<nat>)
      requires p < |procs| && Valid(multiset{})
      modifies this`procs, this`ref
      ensures Valid(multiset{}) && |procs| == |old(procs)|
      ensures r.Some? ==> old(Argfd(p, fd)).Some? && IsFirstFree(old(procs)[p].ofile, r.value)
                          && procs == old(procs)[p := WithSlot(old(procs)[p], false, r.value, old(Argfd(p, fd)))]
      ensures r.None? ==>
        procs == old(procs) && ref == old(ref) && (old(Argfd(p, fd)).None? || NoSlotFree(procs[p].ofile))
    {
      hide Counted;
      var f := Argfd(p, fd);
      if f.None? {
        return None;
      }
      SlotFile(nfile, ref, kind, procs, multiset{}, p, false, fd, f.value);
      r := Fdalloc(p, f.value);
      if r.None? {
        return None;
      }
      SlotGains(nfile, ref, kind, old(procs), multiset{}, p, false, r.value, f.value);
      var ok := Filedup(f.value);
    }

    /** sys_close: what is released when that was the last reference. */
    method Close(p: nat, fd: int) returns (r: Option<Kind>)
      requires p < |procs| && Valid(multiset{})
      modifies this
      ensures Valid(multiset{}) && |procs| == |old(procs)| && r.Some? == old(Argfd(p, fd)).Some?
      ensures r.None? ==> procs == old(procs) && ref == old(ref) && kind == old(kind)
      ensures r.Some? ==> procs == old(procs)[p := WithSlot(old(procs)[p], false, fd, None)]
      ensures r.Some? ==> Released(procs, old(kind), kind, old(Argfd(p, fd)).value, r.value)
    {
      hide Counted;
      var f := Argfd(p, fd);
      if f.None? {
        return None;
      }
      SlotLoses(nfile, ref, kind, procs, multiset{}, p, false, fd, f.value);
      SlotFile(nfile, ref, kind, procs, multiset{}, p, false, fd, f.value);
      procs := procs[p := WithSlot(procs[p], false, fd, None)];
      r := Fileclose(f.value);
      RefIs(nfile, ref, kind, procs, f.value);
    }

    /** sys_open from filealloc on, for an inode ip: a file that was in use by nobody, in a free
        descriptor; without one, nothing changes and nothing is released. */
    method Open(p: nat, ip: nat) returns (r: Option<nat>)
      requires p < |procs| && Valid(multiset{})
      modifies this
      ensures Valid(multiset{}) && |procs| == |old(procs)|
      ensures r.None? ==> procs == old(procs) && ref == old(ref) && kind == old(kind)
      ensures r.None? ==> NoFileFree(nfile, ref) || NoSlotFree(procs[p].ofile)
      ensures r.Some? ==> IsFirstFree(old(procs)[p].ofile, r.value)
      ensures r.Some? ==> exists f :: 0 <= f < nfile && old(ref)[f] == 0 && kind == old(kind)[f := OnInode(ip)]
                                      && procs == old(procs)[p := WithSlot(old(procs)[p], false, r.value, Some(f))]
    {
      hide Counted;
      CountedLengths(nfile, ref, kind, procs, multiset{});
      var f := Filealloc(multiset{});
      if f.None? {
        return None;
      }
      ghost var held := multiset{} + multiset{f.value};
      CountedLengths(nfile, ref, kind, procs, held);
      r := Fdalloc(p, f.value);
      if r.None? {
        HeldLoses(nfile, ref, kind, procs, held, f.value);
        OnlyHeld(nfile, old(ref), ref, kind, procs, f.value);
        var gone := Fileclose(f.value);
        assert held - multiset{f.value} == multiset{};
        return None;
      }
      SlotAdopts(nfile, ref, kind, old(procs), held, p, false, r.value, f.value);
      assert held - multiset{f.value} == multiset{};
      SlotFile(nfile, ref, kind, procs, multiset{}, p, false, r.value, f.value);
      kind := kind[f.value := OnInode(ip)];
      KindInUse(nfile, ref, old(kind), procs, f.value, OnInode(ip));
    }

    /** fileclose of a reference that no slot has. */
    method Drop(f: nat, ghost held: multiset<nat>)
      requires Valid(held) && f < nfile && f in held
      modifies this`ref, this`kind
      ensures Valid(held - multiset{f}) && ref == old(ref)[f := old(ref)[f] - 1] && old(ref)[f] >= 1
      ensures |kind| == nfile == |old(kind)| && kind == if old(ref)[f] == 1 then old(kind)[f := NoFile] else old(kind)
    {
      hide Counted;
      CountedLengths(nfile, ref, kind, procs, held);
      HeldLoses(nfile, ref, kind, procs, held, f);
      var gone := Fileclose(f);
    }

    /** sys_pipe: pipe is the page for the pipe, or None; copied says whether copyout of the two
        descriptors to the user worked. On failure all slots and counts are as before. */
    method Pipe(p: nat, pipe: Option<nat>, copied: bool) returns (r: Option<(nat, nat)>)
      requires p < |procs| && Valid(multiset{})
      modifies this
      ensures Valid(multiset{}) && |procs| == |old(procs)|
      ensures r.None? ==> procs == old(procs) && ref == old(ref) && kind == old(kind)
      ensures r.None? ==> pipe.None? || !copied || OneFileFree(nfile, ref) || OneSlotFree(procs[p].ofile)
      ensures r.Some? ==> copied && pipe.Some? && r.value.0 < r.value.1 && IsFirstFree(old(procs)[p].ofile, r.value.0)
      ensures r.Some? ==> IsNextFree(old(procs)[p].ofile, r.value.0, r.value.1)
      ensures r.Some? ==>
        exists rf, wf :: 0 <= rf < nfile && 0 <= wf < nfile && rf != wf && old(ref)[rf] == 0 && old(ref)[wf] == 0
                            && kind == old(kind)[rf := PipeEnd(pipe.value, false)][wf := PipeEnd(pipe.value, true)]
                            && procs == old(procs)[p := WithSlot(WithSlot(old(procs)[p], false, r.value.0, Some(rf)),
                                                                 false, r.value.1, Some(wf))]
    {
      hide Counted, IsFirstFree, IsNextFree, NoSlotFree, OneSlotFree;
      var ends := Pipealloc(pipe);
      if ends.None? {
        return None;
      }
      var rf, wf := ends.value.0, ends.value.1;
      ghost var both := multiset{rf, wf};
      CountedLengths(nfile, ref, kind, procs, both);
      var fd0 := Fdalloc(p, rf);
      if fd0.None? {
        FullSlots(procs[p].ofile);
        DropBoth(rf, wf, old(ref), old(kind));
        return None;
      }
      FirstInside(old(procs)[p].ofile, fd0.value);
      SecondFree(old(procs)[p].ofile, fd0.value, rf);
      var fd1 := Fdalloc(p, wf);
      if fd1.Some? { FirstInside(old(procs)[p].ofile[fd0.value := Some(rf)], fd1.value); }
      if fd1.None? || !copied {
        procs := procs[p := WithSlot(procs[p], false, fd0.value, None)];
        if fd1.Some? {
          procs := procs[p := WithSlot(procs[p], false, fd1.value, None)];
        }
        assert procs[p].ofile == old(procs)[p].ofile;
        assert procs == old(procs);
        DropBoth(rf, wf, old(ref), old(kind));
        return None;
      }
      BothAdopted(nfile, ref, kind, old(procs), p, fd0.value, rf, fd1.value, wf);
      assert procs ==
        old(procs)[p := WithSlot(WithSlot(old(procs)[p], false, fd0.value, Some(rf)), false, fd1.value, Some(wf))];
      r := Some((fd0.value, fd1.value));
    }

    /** fileclose of both ends: the table is as before pipealloc. */
    method DropBoth(rf: nat, wf: nat, ghost ref0: seq<nat>, ghost kind0: seq<Kind>)
      requires Valid(multiset{rf, wf}) && rf != wf && rf < nfile && wf < nfile && |ref0| == nfile == |kind0|
      requires ref0[rf] == 0 == ref0[wf] && ref == ref0[rf := 1][wf := 1] && kind0[rf] == NoFile == kind0[wf]
      requires |kind| == nfile && forall g :: 0 <= g < nfile && g != rf && g != wf ==> kind[g] == kind0[g]
      modifies this`ref, this`kind
      ensures Valid(multiset{}) && ref == ref0 && kind == kind0
    {
      hide Counted;
      ghost var both := multiset{rf, wf};
      Drop(rf, both);
      Drop(wf, both - multiset{rf});
      assert both - multiset{rf} - multiset{wf} == multiset{};
    }

    /** pipealloc */
    method Pipealloc(pipe: Option<nat>) returns (r: Option<(nat, nat)>)
      requires Valid(multiset{})
      modifies this`ref, this`kind
      ensures r.None? ==> Valid(multiset{}) && ref == old(ref) && kind == old(kind)
      ensures r.None? ==> pipe.None? || OneFileFree(nfile, ref)
      ensures r.Some? ==>
        && pipe.Some? && Valid(multiset{r.value.0, r.value.1}) && r.value.0 != r.value.1 && r.value.0 < nfile
        && r.value.1 < nfile
      ensures r.Some? ==> |old(ref)| == nfile == |old(kind)| && old(ref)[r.value.0] == 0 && old(ref)[r.value.1] == 0
      ensures r.Some? ==> ref == old(ref)[r.value.0 := 1][r.value.1 := 1]
      ensures r.Some? ==>
        kind == old(kind)[r.value.0 := PipeEnd(pipe.value, false)][r.value.1 := PipeEnd(pipe.value, true)]
      ensures r.Some? ==> old(kind)[r.value.0] == NoFile && old(kind)[r.value.1] == NoFile
    {
      hide Counted;
      CountedLengths(nfile, ref, kind, procs, multiset{});
      var f0 := Filealloc(multiset{});
      if f0.None? {
        return None;
      }
      ghost var one := multiset{} + multiset{f0.value};
      CountedLengths(nfile, ref, kind, procs, one);
      var f1 := Filealloc(one);
      if f1.None? {
        Drop(f0.value, one);
        assert one - multiset{f0.value} == multiset{};
        return None;
      }
      ghost var both := one + multiset{f1.value};
      CountedLengths(nfile, ref, kind, procs, both);
      assert both == multiset{f0.value, f1.value};
      if pipe.None? {
        DropBoth(f0.value, f1.value, old(ref), old(kind));
        return None;
      }
      HeldKind(nfile, ref, kind, procs, both, f0.value, PipeEnd(pipe.value, false));
      kind := kind[f0.value := PipeEnd(pipe.value, false)];
      HeldKind(nfile, ref, kind, procs, both, f1.value, PipeEnd(pipe.value, true));
      kind := kind[f1.value := PipeEnd(pipe.value, true)];
      r := Some((f0.value, f1.value));
    }

    /** sys_mmap once its arguments have passed the checks; None where it panics for want of an entry. */
    method Mmap(p: nat, fd: nat) returns (r: Option<nat>)
      requires p < |procs| && Valid(multiset{}) && Argfd(p, fd).Some?
      modifies this`procs, this`ref
      ensures Valid(multiset{}) && |procs| == |old(procs)|
      ensures r.None? ==> procs == old(procs) && NoSlotFree(procs[p].vma)
      ensures r.Some? ==> IsFirstFree(old(procs)[p].vma, r.value)
                          && procs == old(procs)[p := WithSlot(old(procs)[p], true, r.value, old(Argfd(p, fd)))]
    {
      hide Counted;
      var f := Argfd(p, fd);
      SlotFile(nfile, ref, kind, procs, multiset{}, p, false, fd, f.value);
      var i := 0;
      while i < |procs[p].vma|
        invariant 0 <= i <= |procs[p].vma| && procs == old(procs) && ref == old(ref)
        invariant forall j :: 0 <= j < i ==> procs[p].vma[j].Some?
      {
        if procs[p].vma[i].None? {
          SlotGains(nfile, ref, kind, procs, multiset{}, p, true, i, f.value);
          procs := procs[p := WithSlot(procs[p], true, i, f)];
          var ok := Filedup(f.value);
          return Some(i);
        }
        i := i + 1;
      }
      r := None;
    }

    /** The end of sys_munmap for entry i: when nothing of the area is left, its file is closed. */
    method Munmap(p: nat, i: nat, empty: bool) returns (gone: Option<Kind>)
      requires p < |procs| && Valid(multiset{}) && i < |procs[p].vma| && procs[p].vma[i].Some?
      modifies this
      ensures Valid(multiset{})
      ensures procs == (if empty then old(procs)[p := WithSlot(old(procs)[p], true, i, None)] else old(procs))
      ensures gone.None? == !empty
      ensures empty ==> Released(procs, old(kind), kind, old(procs)[p].vma[i].value, gone.value)
    {
      hide Counted;
      if !empty {
        return None;
      }
      var f := procs[p].vma[i].value;
      SlotLoses(nfile, ref, kind, procs, multiset{}, p, true, i, f);
      SlotFile(nfile, ref, kind, procs, multiset{}, p, true, i, f);
      gone := Fileclose(f);
      procs := procs[p := WithSlot(procs[p], true, i, None)];
      RefIs(nfile, ref, kind, procs, f);
    }

    /** The reference-taking part of fork: child np starts with no files and gets all of the parent's. */
    method Fork(p: nat, np: nat)
      requires p < |procs| && np < |procs| && p != np && Valid(multiset{}) && Blank(procs[np])
      requires |procs[np].ofile| == |procs[p].ofile| && |procs[np].vma| == |procs[p].vma|
      modifies this`procs, this`ref
      ensures Valid(multiset{}) && procs == old(procs)[np := old(procs)[p]]
    {
      ForkFiles(p, np);
      ForkMaps(p, np);
      assert procs[np] == old(procs)[p];
    }

    method ForkFiles(p: nat, np: nat)
      requires p < |procs| && np < |procs| && p != np && Valid(multiset{}) && Blank(procs[np])
      requires |procs[np].ofile| == |procs[p].ofile|
      modifies this`procs, this`ref
      ensures Valid(multiset{}) && procs == old(procs)[np := old(procs)[np].(ofile := old(procs)[p].ofile)]
    {
      hide Counted;
      ghost var parent := procs[p];
      var i := 0;
      while i < |procs[p].ofile|
        invariant |procs| == |old(procs)| && 0 <= i <= |parent.ofile| == |procs[np].ofile| && Valid(multiset{})
        invariant procs[np].vma == old(procs)[np].vma
        invariant (forall q :: 0 <= q < |procs| && q != np ==> procs[q] == old(procs)[q])
        invariant forall j :: 0 <= j < |parent.ofile| ==> procs[np].ofile[j] == if j < i then parent.ofile[j] else None
      {
        if procs[p].ofile[i].Some? {
          var f := procs[p].ofile[i].value;
          SlotFile(nfile, ref, kind, procs, multiset{}, p, false, i, f);
          SlotGains(nfile, ref, kind, procs, multiset{}, np, false, i, f);
          var ok := Filedup(f);
          procs := procs[np := WithSlot(procs[np], false, i, Some(f))];
        }
        i := i + 1;
      }
      assert procs[np].ofile == parent.ofile;
    }

    method ForkMaps(p: nat, np: nat)
      requires p < |procs| && np < |procs| && p != np && Valid(multiset{})
      requires forall i :: 0 <= i < |procs[np].vma| ==> procs[np].vma[i] == None
      requires |procs[np].vma| == |procs[p].vma|
      modifies this`procs, this`ref
      ensures Valid(multiset{}) && procs == old(procs)[np := old(procs)[np].(vma := old(procs)[p].vma)]
    {
      hide Counted;
      ghost var parent := procs[p];
      var i := 0;
      while i < |procs[p].vma|
        invariant |procs| == |old(procs)| && 0 <= i <= |parent.vma| == |procs[np].vma| && Valid(multiset{})
        invariant procs[np].ofile == old(procs)[np].ofile
        invariant (forall q :: 0 <= q < |procs| && q != np ==> procs[q] == old(procs)[q])
        invariant forall j :: 0 <= j < |parent.vma| ==> procs[np].vma[j] == if j < i then parent.vma[j] else None
      {
        if procs[p].vma[i].Some? {
          var f := procs[p].vma[i].value;
          SlotFile(nfile, ref, kind, procs, multiset{}, p, true, i, f);
          SlotGains(nfile, ref, kind, procs, multiset{}, np, true, i, f);
          procs := procs[np := WithSlot(procs[np], true, i, Some(f))];
          var ok := Filedup(f);
        }
        i := i + 1;
      }
      assert procs[np].vma == parent.vma;
    }

    /** The reference-dropping part of exit: the process is left with no files. */
    method Exit(p: nat)
      requires p < |procs| && Valid(multiset{})
      modifies this
      ensures Valid(multiset{}) && |procs| == |old(procs)| && Blank(procs[p])
      ensures |procs[p].ofile| == |old(procs)[p].ofile| && |procs[p].vma| == |old(procs)[p].vma|
      ensures forall q :: 0 <= q < |procs| && q != p ==> procs[q] == old(procs)[q]
    {
      hide Counted;
      var fd := 0;
      while fd < |procs[p].ofile|
        invariant |procs| == |old(procs)| && 0 <= fd <= |procs[p].ofile| == |old(procs)[p].ofile|
        invariant |procs[p].vma| == |old(procs)[p].vma| && Valid(multiset{})
        invariant (forall q :: 0 <= q < |procs| && q != p ==> procs[q] == old(procs)[q])
        invariant forall j :: 0 <= j < fd ==> procs[p].ofile[j] == None
        decreases |procs[p].ofile| - fd
      {
        if procs[p].ofile[fd].Some? {
          var f := procs[p].ofile[fd].value;
          SlotLoses(nfile, ref, kind, procs, multiset{}, p, false, fd, f);
          SlotFile(nfile, ref, kind, procs, multiset{}, p, false, fd, f);
          var gone := Fileclose(f);
          procs := procs[p := WithSlot(procs[p], false, fd, None)];
        }
        fd := fd + 1;
      }
      var i := 0;
      while i < |procs[p].vma|
        invariant |procs| == |old(procs)| && 0 <= i <= |procs[p].vma| == |old(procs)[p].vma|
        invariant |procs[p].ofile| == |old(procs)[p].ofile| && Valid(multiset{})
        invariant (forall q :: 0 <= q < |procs| && q != p ==> procs[q] == old(procs)[q])
        invariant forall j :: 0 <= j < |procs[p].ofile| ==> procs[p].ofile[j] == None
        invariant forall j :: 0 <= j < i ==> procs[p].vma[j] == None
        decreases |procs[p].vma| - i
      {
        if procs[p].vma[i].Some? {
          var f := procs[p].vma[i].value;
          SlotLoses(nfile, ref, kind, procs, multiset{}, p, true, i, f);
          SlotFile(nfile, ref, kind, procs, multiset{}, p, true, i, f);
          var gone := Fileclose(f);
          procs := procs[p := WithSlot(procs[p], true, i, None)];
        }
        i := i + 1;
      }
    }
  }

  /** A slot gave up file f: what f refers to is released when no slot has it any more. */
  ghost predicate Released(procs: seq<Proc>, kind: seq<Kind>, kind': seq<Kind>, f: nat, gone: Kind) {
    && f < |kind|
    && if Total(procs, f) == 0 then gone == kind[f] && kind' == kind[f := NoFile] else gone == NoFile && kind' == kind
  }

  /** No entry of the file table is free, or at most one. */
  predicate NoFileFree(nfile: nat, ref: seq<nat>) {
    |ref| == nfile && forall f :: 0 <= f < nfile ==> ref[f] > 0
  }

  predicate OneFileFree(nfile: nat, ref: seq<nat>) {
    |ref| == nfile && forall f, g :: 0 <= f < g < nfile ==> ref[f] > 0 || ref[g] > 0
  }

  predicate NoSlotFree(slots: seq<Option<nat>>) {
    forall i :: 0 <= i < |slots| ==> slots[i].Some?
  }

  predicate OneSlotFree(slots: seq<Option<nat>>) {
    forall i, j :: 0 <= i < j < |slots| ==> slots[i].Some? || slots[j].Some?
  }

  predicate IsFirstFree(slots: seq<Option<nat>>, i: nat) {
    i < |slots| && slots[i] == None && forall j :: 0 <= j < i ==> slots[j].Some?
  }

  predicate IsNextFree(slots: seq<Option<nat>>, i: nat, j: nat) {
    i < j < |slots| && slots[j] == None && forall k :: 0 <= k < j && k != i ==> slots[k].Some?
  }

  /** The second search, after slot i has been taken. */
  lemma SecondFree(slots: seq<Option<nat>>, i: nat, f: nat)
    requires IsFirstFree(slots, i)
    ensures forall j: nat :: IsFirstFree(slots[i := Some(f)], j) ==> IsNextFree(slots, i, j)
    ensures NoSlotFree(slots[i := Some(f)]) ==> OneSlotFree(slots)
  {
    var taken := slots[i := Some(f)];
    forall j: nat | IsFirstFree(taken, j) ensures IsNextFree(slots, i, j) {
      assert taken[i].Some?;
      forall k | 0 <= k < j && k != i ensures slots[k].Some? { assert taken[k].Some?; }
    }
    if NoSlotFree(taken) {
      forall x, y | 0 <= x < y < |slots|
        ensures slots[x].Some? || slots[y].Some?
      {
        assert taken[x].Some? && taken[y].Some?;
      }
    }
  }

  lemma FirstInside(slots: seq<Option<nat>>, i: nat)
    requires IsFirstFree(slots, i)
    ensures i < |slots| && slots[i] == None
  {}

  lemma FullSlots(slots: seq<Option<nat>>)
    requires NoSlotFree(slots)
    ensures OneSlotFree(slots)
  {}

  /** The two ends of a pipe move from the caller's hands into two descriptors. */
  lemma BothAdopted(nfile: nat, ref: seq<nat>, kind: seq<Kind>, procs: seq<Proc>, p: nat, i: nat, rf: nat, j: nat,
                    wf: nat)
    requires Counted(nfile, ref, kind, procs, multiset{rf, wf}) && p < |procs| && i < |procs[p].ofile|
    requires j < |procs[p].ofile|
    requires i != j && procs[p].ofile[i] == None && procs[p].ofile[j] == None && rf < nfile && wf < nfile
    ensures Counted(nfile, ref, kind, procs[p := WithSlot(WithSlot(procs[p], false, i, Some(rf)), false, j, Some(wf))],
                    multiset{})
  {
    hide Counted;
    var both := multiset{rf, wf};
    SlotAdopts(nfile, ref, kind, procs, both, p, false, i, rf);
    var procs1 := procs[p := WithSlot(procs[p], false, i, Some(rf))];
    SlotAdopts(nfile, ref, kind, procs1, both - multiset{rf}, p, false, j, wf);
    assert both - multiset{rf} - multiset{wf} == multiset{};
    assert procs1[p := WithSlot(procs1[p], false, j, Some(wf))] ==
      procs[p := WithSlot(WithSlot(procs[p], false, i, Some(rf)), false, j, Some(wf))];
  }

  /** A process with no files. */
  predicate Blank(q: Proc) {
    (forall i :: 0 <= i < |q.ofile| ==> q.ofile[i] == None) && forall i :: 0 <= i < |q.vma| ==> q.vma[i] == None
  }

  lemma RefIs(nfile: nat, ref: seq<nat>, kind: seq<Kind>, procs: seq<Proc>, f: nat)
    requires Counted(nfile, ref, kind, procs, multiset{}) && f < nfile
    ensures |ref| == nfile && ref[f] == Total(procs, f)
  {}

  lemma CountedLengths(nfile: nat, ref: seq<nat>, kind: seq<Kind>, procs: seq<Proc>, held: multiset<nat>)
    requires Counted(nfile, ref, kind, procs, held)
    ensures |ref| == |kind| == nfile
  {}

  lemma SlotFile(nfile: nat, ref: seq<nat>, kind: seq<Kind>, procs: seq<Proc>, held: multiset<nat>, p: nat, vma: bool,
                 i: nat, f: nat)
    requires Counted(nfile, ref, kind, procs, held) && p < |procs| && i < |if vma then procs[p].vma else procs[p].ofile|
    requires Slot(procs[p], vma, i) == Some(f)
    ensures |ref| == |kind| == nfile && f < nfile && ref[f] >= 1
  {
    TotalAtLeast(procs, p, f);
    InPositive(if vma then procs[p].vma else procs[p].ofile, i, f);
  }

  /** The file just allocated is referred to only by the code that allocated it. */
  lemma OnlyHeld(nfile: nat, ref: seq<nat>, ref': seq<nat>, kind: seq<Kind>, procs: seq<Proc>, f: nat)
    requires Counted(nfile, ref, kind, procs, multiset{}) && f < nfile && ref[f] == 0 && |ref'| == nfile
    requires ref' == ref[f := ref'[f]]
    requires Counted(nfile, ref', kind, procs, multiset{} + multiset{f})
    ensures ref'[f] == 1 && ref'[f := 0] == ref && kind[f] == NoFile && kind[f := NoFile] == kind
  {}

  lemma KindInUse(nfile: nat, ref: seq<nat>, kind: seq<Kind>, procs: seq<Proc>, f: nat, k: Kind)
    requires Counted(nfile, ref, kind, procs, multiset{}) && f < nfile && ref[f] >= 1
    ensures Counted(nfile, ref, kind[f := k], procs, multiset{})
  {}
}
