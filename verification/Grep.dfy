/** The regular expression matcher of user/grep.c against the language that an expression denotes. */
module Grep {
  /** The contents of a C string: what comes before the NUL. */
  type CStr = s: string | forall i :: 0 <= i < |s| ==> s[i] != '\0' witness ""

  /** s[i] in C: the NUL is at the end. */
  function At(s: CStr, i: nat): char { if i < |s| then s[i] else '\0' }

  function From(s: CStr, i: nat): CStr
    requires i <= |s|
  {
    s[i..]
  }

  // ----- what an expression denotes

  /** One character, or any number of them; '.' stands for any character. */
  datatype Item = One(c: char) | Star(c: char)

  predicate Fits(c: char, x: char) { c == '.' || c == x }

  /** Text w is an instance of an item. */
  ghost predicate Instance(it: Item, w: string) {
    match it
    case One(c) => |w| == 1 && Fits(c, w[0])
    case Star(c) => forall i :: 0 <= i < |w| ==> Fits(c, w[i])
  }

  /** The items of an expression, less its anchors: a character followed by '*' is starred, and a last,
      unstarred '$' is the end anchor. */
  function Items(re: CStr): seq<Item>
    decreases |re|
  {
    if |re| == 0 then []
    else if At(re, 1) == '*' then [Star(re[0])] + Items(From(re, 2))
    else if re == "$" then []
    else [One(re[0])] + Items(From(re, 1))
  }

  predicate AtEnd(re: CStr)
    decreases |re|
  {
    if |re| == 0 then false
    else if At(re, 1) == '*' then AtEnd(From(re, 2))
    else if re == "$" then true
    else AtEnd(From(re, 1))
  }

  function Joined(pieces: seq<string>): string {
    if pieces == [] then "" else pieces[0] + Joined(pieces[1..])
  }

  /** Text w is made of instances of the items, in order. */
  ghost predicate InLanguage(items: seq<Item>, w: string) {
    exists pieces: seq<string> :: Joined(pieces) == w && Fills(items, pieces)
  }

  ghost predicate Fills(items: seq<Item>, pieces: seq<string>) {
    |pieces| == |items| && forall i :: 0 <= i < |items| ==> Instance(items[i], pieces[i])
  }

  /** The expression describes the first j characters of text, or all of it under the end anchor. */
  ghost predicate Describes(re: CStr, text: CStr, j: int) {
    0 <= j <= |text| && (AtEnd(re) ==> j == |text|) && InLanguage(Items(re), text[..j])
  }

  ghost predicate MatchesHere(re: CStr, text: CStr) {
    exists j :: Describes(re, text, j)
  }

  /** Some stretch of the text is in the language; it starts at 0 under '^'. */
  ghost predicate Matches(re: CStr, text: CStr) {
    if At(re, 0) == '^' then MatchesHere(From(re, 1), text)
    else exists i :: 0 <= i <= |text| && MatchesHere(re, From(text, i))
  }

  // ----- unfolding the language from the left

  lemma ConsLanguage(it: Item, rest: seq<Item>, w: string, k: nat)
    requires k <= |w| && Instance(it, w[..k]) && InLanguage(rest, w[k..])
    ensures InLanguage([it] + rest, w)
  {
    var pieces :| Joined(pieces) == w[k..] && Fills(rest, pieces);
    var all := [w[..k]] + pieces;
    assert all[1..] == pieces && w == w[..k] + w[k..];
    assert Joined(all) == w && Fills([it] + rest, all);
  }

  lemma SplitLanguage(it: Item, rest: seq<Item>, w: string) returns (k: nat)
    requires InLanguage([it] + rest, w)
    ensures k <= |w| && Instance(it, w[..k]) && InLanguage(rest, w[k..])
  {
    var items := [it] + rest;
    var pieces :| Joined(pieces) == w && Fills(items, pieces);
    k := |pieces[0]|;
    assert items[0] == it && w[..k] == pieces[0] && w[k..] == Joined(pieces[1..]);
    forall i | 0 <= i < |rest| ensures Instance(rest[i], pieces[1..][i]) { assert items[i + 1] == rest[i]; }
    assert Fills(rest, pieces[1..]);
  }

  lemma EmptyLanguage(w: string)
    ensures InLanguage([], w) <==> w == ""
  {
    assert Joined([]) == "" && Fills([], []);
  }

  // ----- the cases of matchhere

  lemma HereEmpty(text: CStr)
    ensures MatchesHere("", text)
  {
    EmptyLanguage("");
    assert text[..0] == "";
    assert Describes("", text, 0);
  }

  lemma HereEnd(text: CStr)
    ensures MatchesHere("$", text) <==> text == ""
  {
    if text == "" {
      EmptyLanguage("");
      assert Describes("$", text, 0);
    }
    if MatchesHere("$", text) {
      var j :| Describes("$", text, j);
      EmptyLanguage(text[..j]);
    }
  }

  lemma HereOne(re: CStr, text: CStr)
    requires |re| > 0 && At(re, 1) != '*' && re != "$"
    ensures MatchesHere(re, text) <==> |text| > 0 && Fits(re[0], text[0]) && MatchesHere(From(re, 1), From(text, 1))
  {
    var it, rest := One(re[0]), Items(From(re, 1));
    if MatchesHere(re, text) {
      var j :| Describes(re, text, j);
      var k := SplitLanguage(it, rest, text[..j]);
      assert text[..j][k..] == From(text, 1)[..j - 1];
      assert Describes(From(re, 1), From(text, 1), j - 1);
    }
    if |text| > 0 && Fits(re[0], text[0]) && MatchesHere(From(re, 1), From(text, 1)) {
      var j :| Describes(From(re, 1), From(text, 1), j);
      var w := text[..j + 1];
      assert w[..1] == [text[0]] && w[1..] == From(text, 1)[..j];
      ConsLanguage(it, rest, w, 1);
      assert Describes(re, text, j + 1);
    }
  }

  /** Skipping k characters that fit the starred one. */
  ghost predicate StarSkip(c: char, re: CStr, text: CStr, k: int) {
    0 <= k <= |text| && (forall i :: 0 <= i < k ==> Fits(c, text[i])) && MatchesHere(re, From(text, k))
  }

  lemma HereStar(re: CStr, text: CStr)
    requires |re| > 0 && At(re, 1) == '*'
    ensures MatchesHere(re, text) <==> exists k :: StarSkip(re[0], From(re, 2), text, k)
  {
    var it, rest := Star(re[0]), Items(From(re, 2));
    if MatchesHere(re, text) {
      var j :| Describes(re, text, j);
      var k := SplitLanguage(it, rest, text[..j]);
      assert text[..j][..k] == text[..k] && text[..j][k..] == From(text, k)[..j - k];
      assert Describes(From(re, 2), From(text, k), j - k);
      forall i | 0 <= i < k ensures Fits(re[0], text[i]) { assert text[..j][..k][i] == text[i]; }
      assert StarSkip(re[0], From(re, 2), text, k);
    }
    if exists k :: StarSkip(re[0], From(re, 2), text, k) {
      var k :| StarSkip(re[0], From(re, 2), text, k);
      var j :| Describes(From(re, 2), From(text, k), j);
      var w := text[..k + j];
      assert w[..k] == text[..k] && w[k..] == From(text, k)[..j];
      ConsLanguage(it, rest, w, k);
      assert Describes(re, text, k + j);
    }
  }

  // ----- the code

  /** matchhere */
  method Matchhere(re: CStr, text: CStr) returns (r: bool)
    ensures r <==> MatchesHere(re, text)
    decreases |re|, 0
  {
    if At(re, 0) == '\0' {
      HereEmpty(text);
      return true;
    }
    if At(re, 1) == '*' {
      HereStar(re, text);
      r := Matchstar(re[0], From(re, 2), text);
      return;
    }
    if At(re, 0) == '$' && At(re, 1) == '\0' {
      assert re == "$";
      HereEnd(text);
      return At(text, 0) == '\0';
    }
    HereOne(re, text);
    if At(text, 0) != '\0' && (re[0] == '.' || re[0] == At(text, 0)) {
      r := Matchhere(From(re, 1), From(text, 1));
      return;
    }
    r := false;
  }

  /** matchstar */
  method Matchstar(c: char, re: CStr, text: CStr) returns (r: bool)
    ensures r <==> exists k :: StarSkip(c, re, text, k)
    decreases |re|, 1
  {
    var i := 0;
    while true
      invariant i <= |text| && (forall j :: 0 <= j < i ==> Fits(c, text[j]))
      invariant forall k :: 0 <= k < i ==> !StarSkip(c, re, text, k)
      decreases |text| - i
    {
      var here := Matchhere(re, From(text, i));
      if here {
        assert StarSkip(c, re, text, i);
        return true;
      }
      if !(At(text, i) != '\0' && (At(text, i) == c || c == '.')) {
        break;
      }
      i := i + 1;
    }
    r := false;
  }

  /** match: true exactly when some stretch of the text is in the language of the expression, at the
      start of the text under '^' and at its end under a last '$'. */
  method Match(re: CStr, text: CStr) returns (r: bool)
    ensures r <==> Matches(re, text)
  {
    if At(re, 0) == '^' {
      r := Matchhere(From(re, 1), text);
      return;
    }
    var i := 0;
    while true
      invariant i <= |text| && forall k :: 0 <= k < i ==> !MatchesHere(re, From(text, k))
      decreases |text| - i
    {
      var here := Matchhere(re, From(text, i));
      if here {
        return true;
      }
      if At(text, i) == '\0' {
        break;
      }
      i := i + 1;
    }
    r := false;
  }
}
