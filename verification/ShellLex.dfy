/** The tokens of user/sh.c in a command line. */
module ShellLex {
  import opened Blocks
  import opened ShellSyntax

  /** " \t\r\n\v" */
  predicate IsBlank(c: char) { c == ' ' || c == '\t' || c == '\r' || c == '\n' || c == '\U{0B}' }

  /** "<|>&;()" */
  predicate IsSymbol(c: char) { c == '<' || c == '|' || c == '>' || c == '&' || c == ';' || c == '(' || c == ')' }

  predicate IsPlain(c: char) { !IsBlank(c) && !IsSymbol(c) }

  function Skip(s: string): (t: string)
    ensures |t| <= |s| && (t == "" || !IsBlank(t[0]))
  {
    if s != "" && IsBlank(s[0]) then Skip(s[1..]) else s
  }

  /** How many plain characters s starts with. */
  function PlainLen(s: string): (n: nat)
    ensures n <= |s| && (forall i :: 0 <= i < n ==> IsPlain(s[i])) && (n < |s| ==> !IsPlain(s[n]))
  {
    if s != "" && IsPlain(s[0]) then 1 + PlainLen(s[1..]) else 0
  }

  /** The token that s starts with, and its length. */
  function First(s: string): (r: (Tok, nat))
    requires s != "" && !IsBlank(s[0])
    ensures 0 < r.1 <= |s|
  {
    match s[0]
    case '|' => (Bar, 1)
    case '(' => (LPar, 1)
    case ')' => (RPar, 1)
    case ';' => (Semi, 1)
    case '&' => (Amp, 1)
    case '<' => (Lt, 1)
    case '>' => if |s| > 1 && s[1] == '>' then (GtGt, 2) else (Gt, 1)
    case _ => (Word(s[..PlainLen(s)]), PlainLen(s))
  }

  function Tokens(s: string): seq<Tok>
    decreases |s|
  {
    var t := Skip(s);
    if t == "" then [] else [First(t).0] + Tokens(t[First(t).1..])
  }

  lemma SkipSkip(s: string)
    ensures Skip(Skip(s)) == Skip(s) && Tokens(Skip(s)) == Tokens(s)
  {}

  lemma SkipNone(s: string)
    requires s == "" || !IsBlank(s[0])
    ensures Skip(s) == s
  {}

  lemma SkipBlank(s: string)
    requires s != "" && IsBlank(s[0])
    ensures Skip(s[1..]) == Skip(s)
  {}

  // ----- printing

  function Text(t: Tok): string {
    match t
    case Word(w) => w
    case Bar => "|"
    case LPar => "("
    case RPar => ")"
    case Semi => ";"
    case Amp => "&"
    case Lt => "<"
    case Gt => ">"
    case GtGt => ">>"
  }

  /** The tokens with a space after each. */
  function Render(ts: seq<Tok>): string {
    if ts == [] then "" else Text(ts[0]) + " " + Render(ts[1..])
  }

  /** A word is not empty and has no blanks, no symbols and no NUL. */
  predicate GoodTok(t: Tok) {
    t.Word? ==> t.w != "" && forall i :: 0 <= i < |t.w| ==> IsPlain(t.w[i]) && t.w[i] != '\0'
  }

  lemma {:induction false} PlainRun(w: string, rest: string)
    requires forall i :: 0 <= i < |w| ==> IsPlain(w[i])
    requires rest == "" || !IsPlain(rest[0])
    ensures PlainLen(w + rest) == |w|
  {
    if w == "" {
      assert w + rest == rest;
    } else {
      PlainRun(w[1..], rest);
      assert (w + rest)[1..] == w[1..] + rest;
    }
  }

  lemma FirstText(t: Tok, rest: string)
    requires GoodTok(t) && rest != "" && rest[0] == ' '
    ensures var s := Text(t) + rest; s != "" && !IsBlank(s[0]) && First(s) == (t, |Text(t)|) && s[|Text(t)|..] == rest
  {
    var s := Text(t) + rest;
    if t.Word? {
      PlainRun(t.w, rest);
      assert s[0] == t.w[0] && s[..|t.w|] == t.w;
    } else {
      assert s[0] == Text(t)[0];
      assert t == Gt ==> s[1] == ' ';
      assert t == GtGt ==> s[1] == '>';
    }
  }

  lemma OneToken(s: string, t: Tok, n: nat)
    requires s != "" && !IsBlank(s[0]) && First(s) == (t, n)
    ensures Tokens(s) == [t] + Tokens(s[n..])
  {
    assert Skip(s) == s;
  }

  lemma BlankTokens(s: string)
    requires s != "" && IsBlank(s[0])
    ensures Tokens(s) == Tokens(s[1..])
  {}

  /** Reading the rendered tokens gives them back. */
  lemma {:induction false} LexRender(ts: seq<Tok>)
    requires forall i :: 0 <= i < |ts| ==> GoodTok(ts[i])
    ensures Tokens(Render(ts)) == ts
  {
    if ts != [] {
      var rest := " " + Render(ts[1..]);
      assert Render(ts) == Text(ts[0]) + rest;
      LexRender(ts[1..]);
      hide Tokens, First, Render, Text;
      FirstText(ts[0], rest);
      OneToken(Text(ts[0]) + rest, ts[0], |Text(ts[0])|);
      BlankTokens(rest);
      assert rest[1..] == Render(ts[1..]);
    }
  }

  /** The words of a command. */
  predicate GoodCmd(c: Cmd) {
    match c
    case Exec(args) => forall i :: 0 <= i < |args| ==> GoodTok(Word(args[i]))
    case Redir(d, f, _) => GoodCmd(d) && GoodTok(Word(f))
    case Pipe(l, r) => GoodCmd(l) && GoodCmd(r)
    case List(l, r) => GoodCmd(l) && GoodCmd(r)
    case Back(d) => GoodCmd(d)
  }

  predicate AllGood(ts: seq<Tok>) { forall i :: 0 <= i < |ts| ==> GoodTok(ts[i]) }

  lemma {:induction false} GoodWords(args: seq<string>)
    requires forall i :: 0 <= i < |args| ==> GoodTok(Word(args[i]))
    ensures AllGood(Words(args))
  {
    if args != [] { GoodWords(args[1..]); }
  }

  lemma GoodCat(a: seq<Tok>, b: seq<Tok>)
    requires AllGood(a) && AllGood(b)
    ensures AllGood(a + b)
  {}

  lemma {:induction false} GoodBody(c: Cmd)
    requires GoodCmd(c) && IsCompound(c)
    ensures AllGood(Body(c))
    decreases c, 0
  {
    match c
    case Pipe(l, r) =>
      GoodLine(l);
      GoodLine(r);
      hide Unit, Piped;
      GoodCat(Unit(l) + [Bar], Piped(r));
    case List(l, r) =>
      GoodLine(l);
      GoodLine(r);
      hide Backed, Line;
      GoodCat(Backed(l) + [Semi], Line(r));
    case Back(d) => GoodLine(d);
  }

  lemma {:induction false} GoodUnit(c: Cmd)
    requires GoodCmd(c)
    ensures AllGood(Unit(c))
    decreases c, 1
  {
    match c
    case Exec(args) => GoodWords(args);
    case Redir(d, f, h) => GoodUnit(d); GoodCat(Unit(d), [TokOf(h), Word(f)]);
    case _ => GoodBody(c); hide Body;
  }

  lemma {:induction false} GoodLine(c: Cmd)
    requires GoodCmd(c)
    ensures AllGood(Unit(c)) && AllGood(Piped(c)) && AllGood(Backed(c)) && AllGood(Line(c))
    decreases c, 2
  {
    GoodUnit(c);
    if IsCompound(c) { GoodBody(c); }
    hide Unit, Body;
  }

  lemma {:induction false} CleanRender(ts: seq<Tok>)
    requires AllGood(ts)
    ensures forall i :: 0 <= i < |Render(ts)| ==> Render(ts)[i] != '\0'
  {
    if ts != [] {
      CleanRender(ts[1..]);
      CleanText(ts[0]);
      hide Text;
    }
  }

  lemma CleanText(t: Tok)
    requires GoodTok(t)
    ensures forall i :: 0 <= i < |Text(t)| ==> Text(t)[i] != '\0'
  {}

  /** A command line printed from a command reads back as that command. */
  lemma PrintRead(c: Cmd)
    requires Short(c) && GoodCmd(c)
    ensures ParseCmd(Tokens(Render(Line(c)))) == Some(c)
    ensures forall i :: 0 <= i < |Render(Line(c))| ==> Render(Line(c))[i] != '\0'
  {
    GoodLine(c);
    CleanRender(Line(c));
    LexRender(Line(c));
    PrintParse(c);
  }
}
