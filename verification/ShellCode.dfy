/** The parser of user/sh.c: a cursor in the command line, tokens as pointers into it, and nulterminate. */
module ShellCode {
  import opened Blocks
  import opened ShellLex
  import opened ShellSyntax

  /** Pointers q and eq to the start and the end of a token. */
  datatype Span = Span(q: nat, eq: nat)

  datatype SCmd =
    | SExec(argv: seq<Span>)
    | SRedir(cmd: SCmd, file: Span, how: How)
    | SPipe(left: SCmd, right: SCmd)
    | SList(left: SCmd, right: SCmd)
    | SBack(cmd: SCmd)

  function TextOf(buf: string, p: Span): string {
    if p.q <= p.eq <= |buf| then buf[p.q..p.eq] else ""
  }

  function Texts(buf: string, ps: seq<Span>): seq<string> {
    if ps == [] then [] else Texts(buf, ps[..|ps| - 1]) + [TextOf(buf, ps[|ps| - 1])]
  }

  /** The command that the pointers stand for. */
  function Abs(buf: string, c: SCmd): Cmd {
    match c
    case SExec(argv) => Exec(Texts(buf, argv))
    case SRedir(d, f, h) => Redir(Abs(buf, d), TextOf(buf, f), h)
    case SPipe(l, r) => Pipe(Abs(buf, l), Abs(buf, r))
    case SList(l, r) => List(Abs(buf, l), Abs(buf, r))
    case SBack(d) => Back(Abs(buf, d))
  }

  /** A command line of es characters and its NUL. */
  predicate LineOk(buf: string, es: nat) {
    |buf| == es + 1 && buf[es] == '\0' && forall i :: 0 <= i < es ==> buf[i] != '\0'
  }

  /** The pointers enclose a whole word. */
  predicate WholeWord(buf: string, es: nat, p: Span) {
    && p.q < p.eq <= es < |buf| && (forall i :: p.q <= i < p.eq ==> IsPlain(buf[i]))
    && (p.eq < es ==> !IsPlain(buf[p.eq]))
  }

  predicate SpansOk(buf: string, es: nat, c: SCmd) {
    match c
    case SExec(argv) => |argv| < MAXARGS && forall i :: 0 <= i < |argv| ==> WholeWord(buf, es, argv[i])
    case SRedir(d, f, h) => SpansOk(buf, es, d) && WholeWord(buf, es, f)
    case SPipe(l, r) => SpansOk(buf, es, l) && SpansOk(buf, es, r)
    case SList(l, r) => SpansOk(buf, es, l) && SpansOk(buf, es, r)
    case SBack(d) => SpansOk(buf, es, d)
  }

  // ----- tokens and characters

  /** What gettoken returns for a token. */
  function Kind(t: Tok): char {
    match t
    case Word(_) => 'a'
    case Bar => '|'
    case LPar => '('
    case RPar => ')'
    case Semi => ';'
    case Amp => '&'
    case Lt => '<'
    case Gt => '>'
    case GtGt => '+'
  }

  /** What peek sees of a token; 'a' for any word. */
  function Lead(t: Tok): char { if t == GtGt then '>' else Kind(t) }

  lemma FirstLead(t: string)
    requires t != "" && !IsBlank(t[0])
    ensures Tokens(t) == [First(t).0] + Tokens(t[First(t).1..])
    ensures if IsSymbol(t[0]) then Lead(First(t).0) == t[0] else Lead(First(t).0) == 'a'
  {
    hide Tokens, PlainLen;
    OneToken(t, First(t).0, First(t).1);
  }

  lemma SeqTail<T>(a: T, s: seq<T>)
    ensures ([a] + s)[0] == a && ([a] + s)[1..] == s
  {}

  class Parser {
    const es: nat
    var buf: string
    var pos: nat

    ghost predicate Valid()
      reads this
    {
      LineOk(buf, es) && pos <= es
    }

    ghost function Rest(): string
      requires Valid()
      reads this
    {
      buf[pos..es]
    }

    ghost function Toks(): seq<Tok>
      requires Valid()
      reads this
    {
      Tokens(Rest())
    }

    constructor (line: string)
      requires forall i :: 0 <= i < |line| ==> line[i] != '\0'
      ensures Valid() && Rest() == line
    {
      es, buf, pos := |line|, line + ['\0'], 0;
      new;
      assert buf[pos..es] == line;
    }

    /** The loop over blanks that gettoken and peek share. */
    method SkipBlanks(start: nat) returns (s: nat)
      requires LineOk(buf, es) && start <= es
      ensures start <= s <= es && buf[s..es] == Skip(buf[start..es])
    {
      hide Skip;
      s := start;
      while s < es && IsBlank(buf[s])
        invariant start <= s <= es && Skip(buf[s..es]) == Skip(buf[start..es])
      {
        assert buf[s..es][1..] == buf[s + 1..es];
        SkipBlank(buf[s..es]);
        s := s + 1;
      }
      assert s < es ==> buf[s..es][0] == buf[s];
      SkipNone(buf[s..es]);
    }

    /** peek for one of a set of symbols. */
    method Peek(toks: string) returns (r: bool)
      requires Valid() && forall i :: 0 <= i < |toks| ==> IsSymbol(toks[i])
      modifies this`pos
      ensures Valid() && pos >= old(pos) && Toks() == old(Toks())
      ensures r <==> Toks() != [] && Lead(Toks()[0]) in toks
      ensures Toks() == [] ==> pos == es
    {
      hide Tokens, First, Skip;
      pos := SkipBlanks(pos);
      SkipSkip(old(Rest()));
      assert pos == es ==> Rest() == "";
      NoTokens();
      if pos < es {
        assert Rest()[0] == buf[pos] && !IsBlank(buf[pos]);
        FirstLead(Rest());
      }
      r := buf[pos] != '\0' && buf[pos] in toks;
    }

    /** gettoken: the kind of the next token and the pointers to it, or NUL at the end. */
    method Gettoken() returns (tok: char, p: Span)
      requires Valid()
      modifies this`pos
      ensures Valid() && pos >= old(pos)
      ensures old(Toks()) == [] ==> tok == '\0' && Toks() == []
      ensures old(Toks()) != [] ==> tok == Kind(old(Toks())[0]) && Toks() == old(Toks())[1..] && pos > old(pos)
      ensures old(Toks()) != [] && old(Toks())[0].Word? ==> WholeWord(buf, es, p) && TextOf(buf, p) == old(Toks())[0].w
    {
      hide Tokens, First, Skip, Kind, WholeWord;
      var s := SkipBlanks(pos);
      ghost var t := buf[s..es];
      SkipSkip(old(Rest()));
      p := Span(s, s);
      if s == es {
        NoTokens();
        pos := s;
        return '\0', p;
      }
      assert t[0] == buf[s] && !IsBlank(t[0]);
      FirstLead(t);
      SeqTail(First(t).0, Tokens(t[First(t).1..]));
      var e;
      tok, e := Scan(s);
      assert t[First(t).1..] == buf[e..es];
      p := Span(s, e);
      pos := SkipBlanks(e);
      SkipSkip(buf[e..es]);
    }

    /** The switch in gettoken. */
    method Scan(s: nat) returns (tok: char, e: nat)
      requires LineOk(buf, es) && s < es && !IsBlank(buf[s]) && buf[s..es] != "" && buf[s..es][0] == buf[s]
      ensures tok == Kind(First(buf[s..es]).0) && e == s + First(buf[s..es]).1 && s < e <= es
      ensures First(buf[s..es]).0.Word? ==>
        WholeWord(buf, es, Span(s, e)) && TextOf(buf, Span(s, e)) == First(buf[s..es]).0.w
    {
      ghost var t := buf[s..es];
      tok := buf[s];
      e := s;
      match tok {
        case '|' => e := e + 1;
        case '(' => e := e + 1;
        case ')' => e := e + 1;
        case ';' => e := e + 1;
        case '&' => e := e + 1;
        case '<' => e := e + 1;
        case '>' =>
          e := e + 1;
          assert e < es ==> t[1] == buf[e];
          if buf[e] == '>' {
            tok := '+';
            e := e + 1;
          }
        case _ =>
          tok := 'a';
          while e < es && !IsBlank(buf[e]) && !IsSymbol(buf[e])
            invariant s <= e <= es && forall i :: s <= i < e ==> IsPlain(buf[i])
          {
            e := e + 1;
          }
          WordLength(buf, es, s, e);
      }
    }

    /** parseredirs */
    method Parseredirs(c: SCmd) returns (r: Option<SCmd>)
      requires Valid() && SpansOk(buf, es, c)
      modifies this`pos
      ensures Valid() && pos >= old(pos)
      ensures var p := Redirs(old(Toks()));
              if p.None? then r.None?
              else
                && r.Some? && SpansOk(buf, es, r.value) && Toks() == p.value.1
                && Abs(buf, r.value) == Wrap(Abs(buf, c), p.value.0)
    {
      hide Tokens, Redirs, Wrap, WholeWord;
      var cmd := c;
      ghost var ts, done: seq<To> := Toks(), [];
      RedirsStart(ts, Abs(buf, c));
      while true
        invariant Valid() && pos >= old(pos) && SpansOk(buf, es, cmd) && Abs(buf, cmd) == Wrap(Abs(buf, c), done)
        invariant Redirs(ts) == After(done, Redirs(Toks()))
        decreases es - pos
      {
        var more := Peek("<>");
        ghost var now := Toks();
        if !more {
          RedirsStop(now, done);
          return Some(cmd);
        }
        var tok, p := Gettoken();
        var kind, file := Gettoken();
        if kind != 'a' {
          RedirsBad(now);
          return None;
        }
        RedirsMore(now, done, Abs(buf, c));
        cmd := SRedir(cmd, file, if tok == '<' then In else if tok == '>' then Out else Append);
        done := done + [To(now[1].w, HowOf(now[0]))];
      }
    }

    /** parseexec, with parseblock for a parenthesis. */
    method Parseexec() returns (r: Option<SCmd>)
      requires Valid()
      modifies this`pos
      ensures Valid() && pos >= old(pos) && Got(buf, es, ParseExec(old(Toks())), r, Toks())
      decreases es - pos, 1
    {
      hide Tokens, Redirs, Wrap, WholeWord, Args, ParseExec, Abs, SpansOk;
      ghost var ts := Toks();
      var paren := Peek("(");
      if paren {
        r := Parseblock();
        ExecBlock(ts);
        return;
      }
      EmptyExec(buf, es);
      r := Parseredirs(SExec([]));
      ExecStart(ts);
      if r.None? {
        return;
      }
      r := Parseargs(r.value, Redirs(ts).value.0);
    }

    /** The loop of parseexec over the words of a simple command, rs redirections in. */
    method Parseargs(c: SCmd, ghost rs: seq<To>) returns (r: Option<SCmd>)
      requires Valid() && SpansOk(buf, es, c) && Abs(buf, c) == Wrap(Exec([]), rs)
      modifies this`pos
      ensures Valid() && pos >= old(pos) && Got(buf, es, Args([], rs, old(Toks())), r, Toks())
    {
      hide Tokens, Redirs, Wrap, WholeWord, Args, Abs, SpansOk;
      var ret, argc := c, 0;
      ghost var ts, words: seq<string>, rs' := Toks(), [], rs;
      while true
        invariant Valid() && pos >= old(pos) && SpansOk(buf, es, ret) && Abs(buf, ret) == Wrap(Exec(words), rs')
        invariant argc == |words| < MAXARGS
        invariant Args([], rs, ts) == Args(words, rs', Toks())
        decreases es - pos
      {
        var stop := Peek("|)&;");
        ghost var now := Toks();
        if stop {
          NoWord(words, rs', now);
          return Some(ret);
        }
        var tok, p := Gettoken();
        if tok == '\0' {
          NoWord(words, rs', now);
          return Some(ret);
        }
        if tok != 'a' {
          ArgsBad(words, rs', now);
          return None;
        }
        argc := argc + 1;
        if argc >= MAXARGS {
          ArgsBad(words, rs', now);
          return None;
        }
        AddArgAbs(buf, es, ret, p, words, rs');
        ret := AddArg(ret, p);
        r := Parseredirs(ret);
        ArgsMore(words, rs', now);
        if r.None? {
          return;
        }
        WrapMore(Exec(words + [now[0].w]), rs', Redirs(now[1..]).value.0);
        ret := r.value;
        rs' := rs' + Redirs(now[1..]).value.0;
        words := words + [now[0].w];
      }
    }

    /** parseblock */
    method Parseblock() returns (r: Option<SCmd>)
      requires Valid() && Toks() != [] && Toks()[0] == LPar
      modifies this`pos
      ensures Valid() && pos >= old(pos) && Got(buf, es, ParseBlock(old(Toks())), r, Toks())
      decreases es - pos, 0
    {
      hide Tokens, Redirs, Wrap, WholeWord, ParseLine, Abs, SpansOk;
      ghost var ts := Toks();
      var tok, p := Gettoken();
      r := Parseline();
      if r.None? {
        return;
      }
      var close := Peek(")");
      if !close {
        return None;
      }
      tok, p := Gettoken();
      r := Parseredirs(r.value);
    }

    /** parsepipe */
    method Parsepipe() returns (r: Option<SCmd>)
      requires Valid()
      modifies this`pos
      ensures Valid() && pos >= old(pos) && Got(buf, es, ParsePipe(old(Toks())), r, Toks())
      decreases es - pos, 2
    {
      hide Tokens, WholeWord, ParseExec, ParsePipe;
      ghost var ts := Toks();
      r := Parseexec();
      PipeSteps(ts);
      if r.None? {
        return;
      }
      var bar := Peek("|");
      if bar {
        var tok, p := Gettoken();
        var right := Parsepipe();
        r := if right.None? then None else Some(SPipe(r.value, right.value));
      }
    }

    /** parseline */
    method Parseline() returns (r: Option<SCmd>)
      requires Valid()
      modifies this`pos
      ensures Valid() && pos >= old(pos) && Got(buf, es, ParseLine(old(Toks())), r, Toks())
      decreases es - pos, 3
    {
      hide Tokens, WholeWord, ParsePipe, ParseLine, Amps;
      ghost var ts := Toks();
      r := Parsepipe();
      LineSteps(ts);
      if r.None? {
        return;
      }
      var cmd := r.value;
      ghost var piped := ParsePipe(ts).value;
      while true
        invariant Valid() && pos >= old(pos) && SpansOk(buf, es, cmd)
        invariant Amps(piped.0, piped.1) == Amps(Abs(buf, cmd), Toks())
        decreases es - pos
      {
        var amp := Peek("&");
        AmpsStep(Abs(buf, cmd), Toks());
        if !amp {
          break;
        }
        var tok, p := Gettoken();
        cmd := SBack(cmd);
      }
      var semi := Peek(";");
      r := Some(cmd);
      if semi {
        var tok, p := Gettoken();
        var right := Parseline();
        r := if right.None? then None else Some(SList(cmd, right.value));
      }
    }

    /** parsecmd up to nulterminate: None where it panics. */
    method Parse() returns (r: Option<SCmd>)
      requires Valid()
      modifies this`pos
      ensures Valid()
      ensures var p := ParseCmd(old(Toks()));
              if p.None? then r.None? else r.Some? && SpansOk(buf, es, r.value) && Abs(buf, r.value) == p.value
    {
      hide Tokens, WholeWord, ParseLine;
      r := Parseline();
      if r.None? {
        return;
      }
      var any := Peek("");
      NothingLeft(Rest());
      if pos != es {
        return None;
      }
    }

    /** nulterminate: a NUL at the end of every word of the command, and nowhere else. */
    method Nulterminate(c: SCmd)
      requires |buf| == es + 1 && EndsIn(es, c)
      modifies this`buf
      ensures Cut(old(buf), buf, Ends(c))
      decreases c
    {
      match c {
        case SExec(argv) =>
          var i := 0;
          while i < |argv|
            invariant 0 <= i <= |argv| && Cut(old(buf), buf, EndsOf(argv[..i]))
          {
            EndsStep(argv, i);
            buf := buf[argv[i].eq := '\0'];
            i := i + 1;
          }
          assert argv[..i] == argv;
        case SRedir(d, f, h) =>
          Nulterminate(d);
          buf := buf[f.eq := '\0'];
        case SPipe(l, r) =>
          Nulterminate(l);
          Nulterminate(r);
        case SList(l, r) =>
          Nulterminate(l);
          Nulterminate(r);
        case SBack(d) =>
          Nulterminate(d);
      }
    }

    /** parsecmd: after it, the argument and file strings in the line are those of the command that the
        grammar finds in it. */
    method Parsecmd() returns (r: Option<SCmd>)
      requires Valid()
      modifies this
      ensures var p := ParseCmd(old(Toks())); if p.None? then r.None? else r.Some? && AbsC(buf, r.value) == p.value
    {
      hide Tokens;
      r := Parse();
      if r.Some? {
        EndsFit(buf, es, r.value);
        ghost var line := buf;
        Nulterminate(r.value);
        Terminated(line, buf, es, r.value, Ends(r.value));
      }
    }
  }

  /** A command printed, then parsed as a command line, comes back as the same command. */
  method ParsePrinted(c: Cmd) returns (p: Parser, r: Option<SCmd>)
    requires Short(c) && GoodCmd(c)
    ensures fresh(p) && r.Some? && AbsC(p.buf, r.value) == c
  {
    hide Tokens, Render, Line;
    PrintRead(c);
    p := new Parser(Render(Line(c)));
    r := p.Parsecmd();
  }

  // ----- nulterminate

  function EndsOf(ps: seq<Span>): set<nat> { set p | p in ps :: p.eq }

  /** Where nulterminate writes. */
  function Ends(c: SCmd): set<nat> {
    match c
    case SExec(argv) => EndsOf(argv)
    case SRedir(d, f, h) => Ends(d) + {f.eq}
    case SPipe(l, r) => Ends(l) + Ends(r)
    case SList(l, r) => Ends(l) + Ends(r)
    case SBack(d) => Ends(d)
  }

  predicate EndsIn(es: nat, c: SCmd) {
    match c
    case SExec(argv) => forall i :: 0 <= i < |argv| ==> argv[i].eq <= es
    case SRedir(d, f, h) => EndsIn(es, d) && f.eq <= es
    case SPipe(l, r) => EndsIn(es, l) && EndsIn(es, r)
    case SList(l, r) => EndsIn(es, l) && EndsIn(es, r)
    case SBack(d) => EndsIn(es, d)
  }

  /** The same characters but for a NUL at each place in ends. */
  ghost predicate Cut(buf: string, buf': string, ends: set<nat>) {
    |buf'| == |buf| && forall i :: 0 <= i < |buf| ==> buf'[i] == if i in ends then '\0' else buf[i]
  }

  lemma EndsStep(ps: seq<Span>, i: nat)
    requires i < |ps|
    ensures EndsOf(ps[..i + 1]) == EndsOf(ps[..i]) + {ps[i].eq}
  {
    assert ps[..i + 1] == ps[..i] + [ps[i]];
  }

  /** Words end at blanks, symbols or the end of the line. */
  lemma {:induction false} EndsFit(buf: string, es: nat, c: SCmd)
    requires SpansOk(buf, es, c)
    ensures EndsIn(es, c) && forall e :: e in Ends(c) ==> Between(buf, es, e)
  {
    match c
    case SExec(argv) =>
    case SRedir(d, f, h) => EndsFit(buf, es, d);
    case SPipe(l, r) => EndsFit(buf, es, l); EndsFit(buf, es, r);
    case SList(l, r) => EndsFit(buf, es, l); EndsFit(buf, es, r);
    case SBack(d) => EndsFit(buf, es, d);
  }

  predicate Between(buf: string, es: nat, e: nat) { es < |buf| && e <= es && (e < es ==> !IsPlain(buf[e])) }

  /** The C string that starts at q. */
  function CString(buf: string, q: nat): string
    decreases |buf| - q
  {
    if q >= |buf| || buf[q] == '\0' then "" else [buf[q]] + CString(buf, q + 1)
  }

  function CStrings(buf: string, ps: seq<Span>): seq<string> {
    if ps == [] then [] else CStrings(buf, ps[..|ps| - 1]) + [CString(buf, ps[|ps| - 1].q)]
  }

  /** The command as exec and open will see it: words by their start pointers alone. */
  function AbsC(buf: string, c: SCmd): Cmd {
    match c
    case SExec(argv) => Exec(CStrings(buf, argv))
    case SRedir(d, f, h) => Redir(AbsC(buf, d), CString(buf, f.q), h)
    case SPipe(l, r) => Pipe(AbsC(buf, l), AbsC(buf, r))
    case SList(l, r) => List(AbsC(buf, l), AbsC(buf, r))
    case SBack(d) => Back(AbsC(buf, d))
  }

  lemma {:induction false} CStringRun(buf: string, q: nat, eq: nat)
    requires q <= eq < |buf| && buf[eq] == '\0' && forall i :: q <= i < eq ==> buf[i] != '\0'
    ensures CString(buf, q) == buf[q..eq]
    decreases eq - q
  {
    if q < eq {
      CStringRun(buf, q + 1, eq);
      assert buf[q..eq] == [buf[q]] + buf[q + 1..eq];
    }
  }

  lemma CutWord(line: string, buf: string, es: nat, p: Span, ends: set<nat>)
    requires LineOk(line, es) && WholeWord(line, es, p) && Cut(line, buf, ends) && p.eq in ends
    requires forall e :: e in ends ==> Between(line, es, e)
    ensures CString(buf, p.q) == TextOf(line, p)
  {
    forall i | p.q <= i < p.eq ensures buf[i] == line[i] && buf[i] != '\0' {
      assert IsPlain(line[i]);
      assert !Between(line, es, i);
    }
    CStringRun(buf, p.q, p.eq);
    assert buf[p.q..p.eq] == line[p.q..p.eq];
  }

  lemma {:induction false} CutWords(line: string, buf: string, es: nat, ps: seq<Span>, ends: set<nat>)
    requires LineOk(line, es) && Cut(line, buf, ends) && (forall e :: e in ends ==> Between(line, es, e))
    requires forall i :: 0 <= i < |ps| ==> WholeWord(line, es, ps[i]) && ps[i].eq in ends
    ensures CStrings(buf, ps) == Texts(line, ps)
  {
    if ps != [] {
      CutWords(line, buf, es, ps[..|ps| - 1], ends);
      CutWord(line, buf, es, ps[|ps| - 1], ends);
    }
  }

  /** After nulterminate each word, as a C string, is the word that was scanned. */
  lemma {:induction false} Terminated(line: string, buf: string, es: nat, c: SCmd, ends: set<nat>)
    requires LineOk(line, es) && SpansOk(line, es, c) && Cut(line, buf, ends) && Ends(c) <= ends
    requires forall e :: e in ends ==> Between(line, es, e)
    ensures AbsC(buf, c) == Abs(line, c)
  {
    hide WholeWord, Between, Cut, LineOk;
    match c
    case SExec(argv) =>
      forall i | 0 <= i < |argv| ensures argv[i].eq in ends { assert argv[i] in argv; }
      CutWords(line, buf, es, argv, ends);
    case SRedir(d, f, h) => Terminated(line, buf, es, d, ends); CutWord(line, buf, es, f, ends);
    case SPipe(l, r) => Terminated(line, buf, es, l, ends); Terminated(line, buf, es, r, ends);
    case SList(l, r) => Terminated(line, buf, es, l, ends); Terminated(line, buf, es, r, ends);
    case SBack(d) => Terminated(line, buf, es, d, ends);
  }

  /** The outcome r of a parse method, with toks left, is what the grammar says. */
  ghost predicate Got(buf: string, es: nat, p: Parsed<Cmd>, r: Option<SCmd>, toks: seq<Tok>) {
    if p.None? then r.None?
      else r.Some? && SpansOk(buf, es, r.value) && Abs(buf, r.value) == p.value.0 && toks == p.value.1
  }

  /** argv[argc] = q, eargv[argc] = eq in the simple command inside its redirections. */
  function AddArg(c: SCmd, p: Span): SCmd {
    match c
    case SExec(argv) => SExec(argv + [p])
    case SRedir(d, f, h) => SRedir(AddArg(d, p), f, h)
    case _ => c
  }

  lemma {:induction false} AddArgAbs(buf: string, es: nat, c: SCmd, p: Span, words: seq<string>, rs: seq<To>)
    requires SpansOk(buf, es, c) && WholeWord(buf, es, p) && Abs(buf, c) == Wrap(Exec(words), rs)
    requires |words| + 1 < MAXARGS
    ensures SpansOk(buf, es, AddArg(c, p)) && Abs(buf, AddArg(c, p)) == Wrap(Exec(words + [TextOf(buf, p)]), rs)
  {
    if rs == [] {
      TextsLength(buf, c.argv);
      assert (c.argv + [p])[..|c.argv|] == c.argv;
    } else {
      var n := |rs| - 1;
      assert rs == rs[..n] + [rs[n]];
      WrapLast(Exec(words), rs[..n], rs[n]);
      WrapLast(Exec(words + [TextOf(buf, p)]), rs[..n], rs[n]);
      AddArgAbs(buf, es, c.cmd, p, words, rs[..n]);
    }
  }

  lemma {:induction false} TextsLength(buf: string, ps: seq<Span>)
    ensures |Texts(buf, ps)| == |ps|
  {
    if ps != [] { TextsLength(buf, ps[..|ps| - 1]); }
  }

  lemma {:induction false} WrapMore(c: Cmd, rs: seq<To>, more: seq<To>)
    ensures Wrap(Wrap(c, rs), more) == Wrap(c, rs + more)
    decreases |rs|
  {
    if rs == [] {
      assert rs + more == more;
    } else {
      assert (rs + more)[1..] == rs[1..] + more && (rs + more)[0] == rs[0];
      WrapMore(Redir(c, rs[0].file, rs[0].how), rs[1..], more);
    }
  }

  lemma EmptyExec(buf: string, es: nat)
    ensures SpansOk(buf, es, SExec([])) && Abs(buf, SExec([])) == Exec([])
  {}

  lemma ExecBlock(ts: seq<Tok>)
    requires ts != [] && ts[0] == LPar
    ensures ParseExec(ts) == ParseBlock(ts)
  {}

  lemma ExecStart(ts: seq<Tok>)
    requires ts == [] || ts[0] != LPar
    ensures ParseExec(ts) == if Redirs(ts).None? then None else Args([], Redirs(ts).value.0, Redirs(ts).value.1)
  {}

  lemma ArgsBad(words: seq<string>, rs: seq<To>, ts: seq<Tok>)
    requires !EndsExec(ts) && (!ts[0].Word? || |words| + 1 >= MAXARGS)
    ensures Args(words, rs, ts) == None
  {}

  lemma ArgsMore(words: seq<string>, rs: seq<To>, ts: seq<Tok>)
    requires !EndsExec(ts) && ts[0].Word? && |words| + 1 < MAXARGS
    ensures Args(words, rs, ts) == if Redirs(ts[1..]).None? then None
            else Args(words + [ts[0].w], rs + Redirs(ts[1..]).value.0, Redirs(ts[1..]).value.1)
  {}

  lemma PipeSteps(ts: seq<Tok>)
    ensures var c := ParseExec(ts);
            ParsePipe(ts) == if c.None? || c.value.1 == [] || c.value.1[0] != Bar then c
                             else var d := ParsePipe(c.value.1[1..]);
                               if d.None? then None else Some((Pipe(c.value.0, d.value.0), d.value.1))
  {}

  lemma LineSteps(ts: seq<Tok>)
    ensures var p := ParsePipe(ts);
            ParseLine(ts) == if p.None? then None
                             else var c := Amps(p.value.0, p.value.1);
                                  if c.1 == [] || c.1[0] != Semi then Some(c)
                                  else var d := ParseLine(c.1[1..]);
                                    if d.None? then None else Some((List(c.0, d.value.0), d.value.1))
  {}

  lemma AmpsStep(c: Cmd, ts: seq<Tok>)
    ensures Amps(c, ts) == if ts == [] || ts[0] != Amp then (c, ts) else Amps(Back(c), ts[1..])
  {}

  lemma NothingLeft(s: string)
    ensures s == "" ==> Tokens(s) == []
    ensures Tokens(s) == [] ==> Skip(s) == ""
  {}

  /** Redirections read so far, then the rest. */
  ghost function After(done: seq<To>, p: Parsed<seq<To>>): Parsed<seq<To>> {
    if p.None? then None else Some((done + p.value.0, p.value.1))
  }

  lemma RedirsStart(ts: seq<Tok>, c: Cmd)
    ensures After([], Redirs(ts)) == Redirs(ts) && Wrap(c, []) == c
  {
    if Redirs(ts).Some? { assert [] + Redirs(ts).value.0 == Redirs(ts).value.0; }
  }

  lemma RedirsStop(ts: seq<Tok>, done: seq<To>)
    requires ts == [] || !IsRedir(ts[0])
    ensures After(done, Redirs(ts)) == Some((done, ts))
  {
    assert done + [] == done;
  }

  lemma RedirsBad(ts: seq<Tok>)
    requires ts != [] && IsRedir(ts[0]) && (|ts| < 2 || !ts[1].Word?)
    ensures Redirs(ts) == None
  {}

  lemma RedirsMore(ts: seq<Tok>, done: seq<To>, c: Cmd)
    requires |ts| >= 2 && IsRedir(ts[0]) && ts[1].Word?
    ensures var r := To(ts[1].w, HowOf(ts[0]));
            && After(done, Redirs(ts)) == After(done + [r], Redirs(ts[2..]))
            && Wrap(c, done + [r]) == Redir(Wrap(c, done), r.file, r.how)
  {
    hide Redirs, Wrap;
    var r := To(ts[1].w, HowOf(ts[0]));
    WrapLast(c, done, r);
    assert ts == [TokOf(r.how), Word(r.file)] + ts[2..];
    OneTarget(r, ts[2..]);
    if Redirs(ts[2..]).Some? {
      var rest := Redirs(ts[2..]).value.0;
      assert done + ([r] + rest) == done + [r] + rest;
    }
  }

  lemma {:induction false} WrapLast(c: Cmd, rs: seq<To>, r: To)
    ensures Wrap(c, rs + [r]) == Redir(Wrap(c, rs), r.file, r.how)
    decreases |rs|
  {
    if rs == [] {
      assert rs + [r] == [r];
    } else {
      assert (rs + [r])[1..] == rs[1..] + [r];
      WrapLast(Redir(c, rs[0].file, rs[0].how), rs[1..], r);
    }
  }

  lemma NoTokens()
    ensures Tokens("") == []
  {}

  lemma WordLength(buf: string, es: nat, s: nat, e: nat)
    requires s < e <= es < |buf| && (forall i :: s <= i < e ==> IsPlain(buf[i])) && (e < es ==> !IsPlain(buf[e]))
    ensures PlainLen(buf[s..es]) == e - s && buf[s..es][..e - s] == buf[s..e]
  {
    assert buf[s..es] == buf[s..e] + buf[e..es];
    PlainRun(buf[s..e], buf[e..es]);
  }
}
