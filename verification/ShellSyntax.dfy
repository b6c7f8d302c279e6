/** The command language of user/sh.c on tokens: the grammar its parser follows, and a printer. */
module ShellSyntax {
  import opened Blocks

  const MAXARGS: nat := 10

  datatype How = In | Out | Append

  datatype Tok = Word(w: string) | Bar | LPar | RPar | Semi | Amp | Lt | Gt | GtGt

  datatype Cmd =
    | Exec(args: seq<string>)
    | Redir(cmd: Cmd, file: string, how: How)
    | Pipe(left: Cmd, right: Cmd)
    | List(left: Cmd, right: Cmd)
    | Back(cmd: Cmd)

  datatype To = To(file: string, how: How)

  predicate IsRedir(t: Tok) { t == Lt || t == Gt || t == GtGt }

  function HowOf(t: Tok): How
    requires IsRedir(t)
  {
    if t == Lt then In else if t == Gt then Out else Append
  }

  function TokOf(h: How): Tok { if h == In then Lt else if h == Out then Gt else GtGt }

  /** Redirections wrapped round a command, the first one innermost. */
  function Wrap(c: Cmd, rs: seq<To>): Cmd
    decreases |rs|
  {
    if rs == [] then c else Wrap(Redir(c, rs[0].file, rs[0].how), rs[1..])
  }

  // ----- the grammar

  /** What a parse function gives: a value and the tokens left, or None for a syntax panic. */
  type Parsed<T> = Option<(T, seq<Tok>)>

  /** parseredirs */
  function Redirs(ts: seq<Tok>): (r: Parsed<seq<To>>)
    ensures r.Some? ==> |r.value.1| <= |ts|
  {
    if ts == [] || !IsRedir(ts[0]) then Some(([], ts))
    else if |ts| < 2 || !ts[1].Word? then None
    else
      var rest := Redirs(ts[2..]);
      if rest.None? then None else Some(([To(ts[1].w, HowOf(ts[0]))] + rest.value.0, rest.value.1))
  }

  predicate EndsExec(ts: seq<Tok>) { ts == [] || ts[0] == Bar || ts[0] == RPar || ts[0] == Amp || ts[0] == Semi }

  /** The loop of parseexec, after args and rs have been read. */
  function Args(args: seq<string>, rs: seq<To>, ts: seq<Tok>): (r: Parsed<Cmd>)
    ensures r.Some? ==> |r.value.1| <= |ts|
    decreases |ts|
  {
    if EndsExec(ts) then Some((Wrap(Exec(args), rs), ts))
    else if !ts[0].Word? || |args| + 1 >= MAXARGS then None
    else
      var more := Redirs(ts[1..]);
      if more.None? then None else Args(args + [ts[0].w], rs + more.value.0, more.value.1)
  }

  function ParseExec(ts: seq<Tok>): (r: Parsed<Cmd>)
    ensures r.Some? ==> |r.value.1| <= |ts|
    decreases |ts|, 1
  {
    if ts != [] && ts[0] == LPar then ParseBlock(ts)
    else
      var rs := Redirs(ts);
      if rs.None? then None else Args([], rs.value.0, rs.value.1)
  }

  function ParseBlock(ts: seq<Tok>): (r: Parsed<Cmd>)
    requires ts != [] && ts[0] == LPar
    ensures r.Some? ==> |r.value.1| <= |ts|
    decreases |ts|, 0
  {
    var c := ParseLine(ts[1..]);
    if c.None? || c.value.1 == [] || c.value.1[0] != RPar then None
    else
      var rs := Redirs(c.value.1[1..]);
      if rs.None? then None else Some((Wrap(c.value.0, rs.value.0), rs.value.1))
  }

  function ParsePipe(ts: seq<Tok>): (r: Parsed<Cmd>)
    ensures r.Some? ==> |r.value.1| <= |ts|
    decreases |ts|, 2
  {
    var c := ParseExec(ts);
    if c.None? || c.value.1 == [] || c.value.1[0] != Bar then c
    else
      var d := ParsePipe(c.value.1[1..]);
      if d.None? then None else Some((Pipe(c.value.0, d.value.0), d.value.1))
  }

  /** The loop over '&' in parseline. */
  function Amps(c: Cmd, ts: seq<Tok>): (r: (Cmd, seq<Tok>))
    ensures |r.1| <= |ts| && (r.1 == [] || r.1[0] != Amp)
    decreases |ts|
  {
    if ts == [] || ts[0] != Amp then (c, ts) else Amps(Back(c), ts[1..])
  }

  function ParseLine(ts: seq<Tok>): (r: Parsed<Cmd>)
    ensures r.Some? ==> |r.value.1| <= |ts|
    decreases |ts|, 3
  {
    var p := ParsePipe(ts);
    if p.None? then None
    else
      var c := Amps(p.value.0, p.value.1);
      if c.1 == [] || c.1[0] != Semi then Some(c)
      else
        var d := ParseLine(c.1[1..]);
        if d.None? then None else Some((List(c.0, d.value.0), d.value.1))
  }

  /** parsecmd: a line with nothing left over. */
  function ParseCmd(ts: seq<Tok>): Option<Cmd> {
    var r := ParseLine(ts);
    if r.None? || r.value.1 != [] then None else Some(r.value.0)
  }

  // ----- the printer, with parentheses where the grammar needs them

  function Words(args: seq<string>): seq<Tok> {
    if args == [] then [] else [Word(args[0])] + Words(args[1..])
  }

  function Targets(rs: seq<To>): seq<Tok> {
    if rs == [] then [] else [TokOf(rs[0].how), Word(rs[0].file)] + Targets(rs[1..])
  }

  predicate IsCompound(c: Cmd) { c.Pipe? || c.List? || c.Back? }

  function Body(c: Cmd): seq<Tok>
    requires IsCompound(c)
    decreases c, 0
  {
    match c
    case List(l, r) => Backed(l) + [Semi] + Line(r)
    case Back(d) => Backed(d) + [Amp]
    case Pipe(l, r) => Unit(l) + [Bar] + Piped(r)
  }

  /** A command that ends at '|'. */
  function Unit(c: Cmd): seq<Tok>
    decreases c, 1
  {
    match c
    case Exec(args) => Words(args)
    case Redir(d, f, h) => Unit(d) + [TokOf(h), Word(f)]
    case _ => [LPar] + Body(c) + [RPar]
  }

  function Piped(c: Cmd): seq<Tok>
    decreases c, 2
  {
    if c.Pipe? then Body(c) else Unit(c)
  }

  function Backed(c: Cmd): seq<Tok>
    decreases c, 3
  {
    if c.Back? then Body(c) else Piped(c)
  }

  function Line(c: Cmd): seq<Tok>
    decreases c, 4
  {
    if c.List? then Body(c) else Backed(c)
  }

  /** Fewer than MAXARGS words in each simple command. */
  predicate Short(c: Cmd) {
    match c
    case Exec(args) => |args| < MAXARGS
    case Redir(d, _, _) => Short(d)
    case Pipe(l, r) => Short(l) && Short(r)
    case List(l, r) => Short(l) && Short(r)
    case Back(d) => Short(d)
  }

  // ----- parsing what was printed

  predicate EndsBacked(ts: seq<Tok>) { ts == [] || ts[0] == RPar || ts[0] == Semi || ts[0] == Amp }

  predicate EndsLine(ts: seq<Tok>) { ts == [] || ts[0] == RPar }

  lemma {:induction false} ReadTargets(rs: seq<To>, tail: seq<Tok>)
    requires tail == [] || !IsRedir(tail[0])
    ensures Redirs(Targets(rs) + tail) == Some((rs, tail))
  {
    if rs == [] {
      assert Targets(rs) + tail == tail;
    } else {
      ReadTargets(rs[1..], tail);
      var rest := Targets(rs[1..]) + tail;
      assert Targets(rs) + tail == [TokOf(rs[0].how), Word(rs[0].file)] + rest;
      OneTarget(rs[0], rest);
      assert rs == [rs[0]] + rs[1..];
    }
  }

  lemma OneTarget(r: To, rest: seq<Tok>)
    ensures var ts := [TokOf(r.how), Word(r.file)] + rest;
            Redirs(ts) == if Redirs(rest).None? then None else Some(([r] + Redirs(rest).value.0, Redirs(rest).value.1))
  {
    var ts := [TokOf(r.how), Word(r.file)] + rest;
    assert ts[2..] == rest && r == To(r.file, r.how);
  }

  /** A word, then the rest of the simple command. */
  lemma OneWord(done: seq<string>, w: string, rs: seq<To>, rest: seq<Tok>)
    requires |done| + 1 < MAXARGS && Redirs(rest).Some?
    ensures Args(done, rs, [Word(w)] + rest) == Args(done + [w], rs + Redirs(rest).value.0, Redirs(rest).value.1)
  {
    var ts := [Word(w)] + rest;
    assert ts[1..] == rest && ts[0] == Word(w);
  }

  lemma NoWord(args: seq<string>, rs: seq<To>, tail: seq<Tok>)
    requires EndsExec(tail)
    ensures Args(args, rs, tail) == Some((Wrap(Exec(args), rs), tail))
  {}

  lemma NoTarget(ts: seq<Tok>)
    requires ts == [] || !IsRedir(ts[0])
    ensures Redirs(ts) == Some(([], ts))
  {}

  lemma WordsFirst(args: seq<string>, after: seq<Tok>)
    requires args != []
    ensures Words(args) + after == [Word(args[0])] + (Words(args[1..]) + after)
  {}

  /** after is what follows the words: the redirections rs, and tail. */
  lemma {:induction false} ReadWords(done: seq<string>, args: seq<string>, rs: seq<To>, after: seq<Tok>, tail: seq<Tok>)
    requires Redirs(after) == Some((rs, tail)) && EndsExec(tail) && |done| + |args| < MAXARGS && args != []
    ensures Args(done, [], Words(args) + after) == Some((Wrap(Exec(done + args), rs), tail))
    decreases |args|
  {
    hide Args, Wrap, Redirs, Words;
    var rest := Words(args[1..]) + after;
    var none: seq<To> := [];
    WordsFirst(args, after);
    assert none + rs == rs && none + none == none;
    if |args| == 1 {
      assert rest == after by { assert Words([]) == [] by { NoWords(); } assert args[1..] == []; }
      OneWord(done, args[0], none, rest);
      NoWord(done + [args[0]], rs, tail);
      assert done + args == done + [args[0]];
    } else {
      WordsFirst(args[1..], after);
      NoTarget(rest);
      OneWord(done, args[0], none, rest);
      ReadWords(done + [args[0]], args[1..], rs, after, tail);
      assert done + [args[0]] + args[1..] == done + args;
    }
  }

  lemma NoWords()
    ensures Words([]) == []
  {}

  lemma ReadExec(args: seq<string>, rs: seq<To>, tail: seq<Tok>)
    requires EndsExec(tail) && |args| < MAXARGS
    ensures ParseExec(Words(args) + (Targets(rs) + tail)) == Some((Wrap(Exec(args), rs), tail))
  {
    hide Wrap, Redirs, Args, ParseExec;
    var after := Targets(rs) + tail;
    var ts := Words(args) + after;
    ReadTargets(rs, tail);
    if args == [] {
      assert ts == after;
      assert rs == [] ==> after == tail;
      assert rs != [] ==> after[0] == TokOf(rs[0].how);
      ExecOpens(ts);
      NoWord([], rs, tail);
    } else {
      assert ts[0] == Word(args[0]);
      ExecOpens(ts);
      NoTarget(ts);
      ReadWords([], args, rs, after, tail);
      assert [] + args == args;
    }
  }

  lemma ExecOpens(ts: seq<Tok>)
    requires ts == [] || ts[0] != LPar
    ensures ParseExec(ts) == if Redirs(ts).None? then None else Args([], Redirs(ts).value.0, Redirs(ts).value.1)
  {
    hide Redirs, Args, ParseBlock;
  }

  lemma {:induction false} ReadUnit(c: Cmd, rs: seq<To>, tail: seq<Tok>)
    requires Short(c) && EndsExec(tail)
    ensures ParseExec(Unit(c) + (Targets(rs) + tail)) == Some((Wrap(c, rs), tail))
    decreases c, 3
  {
    hide ParseExec, ParseLine, ParseBlock, ParsePipe, Redirs, Args, Body, Targets;
    match c
    case Exec(args) => ReadExec(args, rs, tail);
    case Redir(d, f, h) =>
      ReadUnit(d, [To(f, h)] + rs, tail);
      RedirUnit(d, f, h, rs, tail);
    case _ => ReadBlock(c, rs, tail);
  }

  /** A redirection is printed before those that were there. */
  lemma RedirUnit(d: Cmd, f: string, h: How, rs: seq<To>, tail: seq<Tok>)
    requires Short(Redir(d, f, h))
    ensures var all := [To(f, h)] + rs;
            && Unit(Redir(d, f, h)) + (Targets(rs) + tail) == Unit(d) + (Targets(all) + tail)
            && Wrap(d, all) == Wrap(Redir(d, f, h), rs)
  {
    hide Body, Words;
    var all := [To(f, h)] + rs;
    assert all[1..] == rs && Targets(all) == [TokOf(h), Word(f)] + Targets(rs);
    hide Targets;
  }

  lemma {:induction false} ReadBlock(c: Cmd, rs: seq<To>, tail: seq<Tok>)
    requires Short(c) && IsCompound(c) && EndsExec(tail)
    ensures ParseExec(Unit(c) + (Targets(rs) + tail)) == Some((Wrap(c, rs), tail))
    decreases c, 2
  {
    hide ParseExec, ParseLine, ParseBlock, ParsePipe, Redirs, Args, Body, Wrap, Targets;
    var after := Targets(rs) + tail;
    ReadBody(c, [RPar] + after);
    ReadTargets(rs, tail);
    OneBlock(Body(c) + ([RPar] + after), c, after, rs, tail);
    assert Unit(c) + after == [LPar] + (Body(c) + ([RPar] + after));
  }

  lemma OneBlock(inner: seq<Tok>, c: Cmd, after: seq<Tok>, rs: seq<To>, tail: seq<Tok>)
    requires ParseLine(inner) == Some((c, [RPar] + after)) && Redirs(after) == Some((rs, tail))
    ensures ParseExec([LPar] + inner) == Some((Wrap(c, rs), tail))
  {
    hide ParseLine, Redirs, Wrap;
    var ts := [LPar] + inner;
    assert ts[0] == LPar && ts[1..] == inner && ([RPar] + after)[1..] == after;
  }

  lemma OnePipe(ts: seq<Tok>, l: Cmd, rest: seq<Tok>, r: Cmd, tail: seq<Tok>)
    requires ParseExec(ts) == Some((l, [Bar] + rest)) && ParsePipe(rest) == Some((r, tail))
    ensures ParsePipe(ts) == Some((Pipe(l, r), tail))
  {
    hide ParseExec;
    assert ([Bar] + rest)[1..] == rest;
  }

  lemma OneList(ts: seq<Tok>, l: Cmd, rest: seq<Tok>, r: Cmd, tail: seq<Tok>)
    requires ParsePipe(ts).Some? && Amps(ParsePipe(ts).value.0, ParsePipe(ts).value.1) == (l, [Semi] + rest)
    requires ParseLine(rest) == Some((r, tail))
    ensures ParseLine(ts) == Some((List(l, r), tail))
  {
    hide ParsePipe, Amps;
    assert ([Semi] + rest)[1..] == rest;
  }

  lemma {:induction false} ReadBody(c: Cmd, tail: seq<Tok>)
    requires Short(c) && IsCompound(c) && EndsLine(tail)
    ensures ParseLine(Body(c) + tail) == Some((c, tail))
    decreases c, 1
  {
    match c
    case List(_, _) => ReadList(c, tail);
    case Back(_) => ReadBack(c, tail);
    case Pipe(l, r) =>
      ReadPipe(c, tail);
      hide ParsePipe, Body;
  }

  lemma {:induction false} ReadList(c: Cmd, tail: seq<Tok>)
    requires Short(c) && c.List? && EndsLine(tail)
    ensures ParseLine(Body(c) + tail) == Some((c, tail))
    decreases c, 0
  {
    var l, r := c.left, c.right;
    var rest := Line(r) + tail;
    ReadBacked(l, [Semi] + rest);
    ReadLine(r, tail);
    assert Amps(l, [Semi] + rest) == (l, [Semi] + rest);
    OneList(Backed(l) + ([Semi] + rest), l, rest, r, tail);
    hide ParseLine, ParsePipe, Amps, Backed, Line;
    assert Body(c) + tail == Backed(l) + ([Semi] + rest);
  }

  lemma {:induction false} ReadBack(c: Cmd, tail: seq<Tok>)
    requires Short(c) && c.Back? && EndsLine(tail)
    ensures ParseLine(Body(c) + tail) == Some((c, tail))
    decreases c, 0
  {
    var d, rest := c.cmd, [Amp] + tail;
    ReadBacked(d, rest);
    assert rest[1..] == tail && Amps(d, rest) == (c, tail);
    hide ParsePipe, Amps, Backed;
    assert Body(c) + tail == Backed(d) + rest;
  }

  lemma {:induction false} ReadPipe(c: Cmd, tail: seq<Tok>)
    requires c.Pipe? && Short(c) && EndsBacked(tail)
    ensures ParsePipe(Body(c) + tail) == Some((c, tail))
    decreases c, 0
  {
    hide ParseExec, ParsePipe, Unit, Piped;
    var rest := Piped(c.right) + tail;
    ReadUnit(c.left, [], [Bar] + rest);
    assert Targets([]) + ([Bar] + rest) == [Bar] + rest;
    ReadPiped(c.right, tail);
    OnePipe(Unit(c.left) + ([Bar] + rest), c.left, rest, c.right, tail);
    hide Targets;
    assert Body(c) + tail == Unit(c.left) + ([Bar] + rest);
  }

  lemma {:induction false} ReadPiped(c: Cmd, tail: seq<Tok>)
    requires Short(c) && EndsBacked(tail)
    ensures ParsePipe(Piped(c) + tail) == Some((c, tail))
    decreases c, 4
  {
    if c.Pipe? {
      ReadPipe(c, tail);
    } else {
      ReadUnit(c, [], tail);
      assert Targets([]) + tail == tail;
    }
  }

  /** parseline up to the ';': the pipe and the '&' after it. */
  lemma {:induction false} ReadBacked(c: Cmd, tail: seq<Tok>)
    requires Short(c) && EndsBacked(tail)
    ensures ParsePipe(Backed(c) + tail).Some?
    ensures var p := ParsePipe(Backed(c) + tail).value; Amps(p.0, p.1) == Amps(c, tail)
    decreases c, 5
  {
    if c.Back? {
      var rest := [Amp] + tail;
      ReadBacked(c.cmd, rest);
      assert Backed(c) + tail == Backed(c.cmd) + rest && rest[1..] == tail;
    } else {
      ReadPiped(c, tail);
    }
  }

  lemma {:induction false} ReadLine(c: Cmd, tail: seq<Tok>)
    requires Short(c) && EndsLine(tail)
    ensures ParseLine(Line(c) + tail) == Some((c, tail))
    decreases c, 6
  {
    if c.List? {
      ReadBody(c, tail);
    } else {
      ReadBacked(c, tail);
    }
  }

  /** Parsing the printed form of a command gives the command back. */
  lemma PrintParse(c: Cmd)
    requires Short(c)
    ensures ParseCmd(Line(c)) == Some(c)
  {
    ReadLine(c, []);
    assert Line(c) + [] == Line(c);
  }
}
