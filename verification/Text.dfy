/** Go's string operations as far as the command-line tool uses them, on
    sequences of characters, and how they relate to the lines of a text. */
module Text {

  // ---- Trimming -----------------------------------------------------------

  function TrimLeft(s: string, c: char): string {
    if s != [] && s[0] == c then TrimLeft(s[1..], c) else s
  }

  function TrimRight(s: string, c: char): string {
    if s != [] && s[|s| - 1] == c then TrimRight(s[..|s| - 1], c) else s
  }

  function TrimPrefix(s: string, p: string): string {
    if p <= s then s[|p|..] else s
  }

  predicate HasSuffix(s: string, p: string) {
    |p| <= |s| && s[|s| - |p|..] == p
  }

  function TrimSuffix(s: string, p: string): string {
    if HasSuffix(s, p) then s[..|s| - |p|] else s
  }

  /** Unicode's White_Space property. */
  predicate IsSpace(c: char) {
    || c in "\t\n\U{0B}\U{0C}\r " || c == '\U{85}' || c == '\U{A0}' || c == '\U{1680}'
    || '\U{2000}' <= c <= '\U{200A}' || c == '\U{2028}' || c == '\U{2029}' || c == '\U{202F}'
    || c == '\U{205F}' || c == '\U{3000}'
  }

  function TrimSpaceLeft(s: string): string {
    if s != [] && IsSpace(s[0]) then TrimSpaceLeft(s[1..]) else s
  }

  function TrimSpaceRight(s: string): string {
    if s != [] && IsSpace(s[|s| - 1]) then TrimSpaceRight(s[..|s| - 1]) else s
  }

  function TrimSpace(s: string): string { TrimSpaceRight(TrimSpaceLeft(s)) }

  predicate Blank(s: string) {
    forall i :: 0 <= i < |s| ==> IsSpace(s[i])
  }

  lemma {:induction false} TrimSpaceLeftBlank(s: string)
    ensures TrimSpaceLeft(s) == "" <==> Blank(s)
    ensures TrimSpaceLeft(s) != "" ==> !IsSpace(TrimSpaceLeft(s)[0])
  {
    if s != [] && IsSpace(s[0]) {
      TrimSpaceLeftBlank(s[1..]);
      assert s == [s[0]] + s[1..];
    }
  }

  lemma {:induction false} TrimSpaceRightKeepsHead(s: string)
    requires s != "" && !IsSpace(s[0])
    ensures TrimSpaceRight(s) != "" && TrimSpaceRight(s)[0] == s[0]
  {
    if IsSpace(s[|s| - 1]) {
      TrimSpaceRightKeepsHead(s[..|s| - 1]);
    }
  }

  /** Trimming leaves nothing of a blank text, and of any other it leaves its first visible character in front. */
  lemma TrimSpaceBlank(s: string)
    ensures TrimSpace(s) == "" <==> Blank(s)
  {
    TrimSpaceLeftBlank(s);
    if TrimSpaceLeft(s) != "" {
      TrimSpaceRightKeepsHead(TrimSpaceLeft(s));
    }
  }

  /** A text that neither starts nor ends with white space is left alone. */
  lemma TrimSpaceNothing(s: string)
    requires s == "" || (!IsSpace(s[0]) && !IsSpace(s[|s| - 1]))
    ensures TrimSpace(s) == s
  {
  }

  // ---- Lines ----------------------------------------------------------------

  predicate OneLine(s: string) { '\n' !in s }

  /** strings.Split(s, "\n") */
  function Lines(s: string): (ls: seq<string>)
    ensures |ls| >= 1
    decreases |s|
  {
    if s == "" then [""]
    else if s[0] == '\n' then [""] + Lines(s[1..])
    else
      var rest := Lines(s[1..]);
      [[s[0]] + rest[0]] + rest[1..]
  }

  /** strings.Join(ls, "\n") */
  function Join(ls: seq<string>): string {
    if ls == [] then ""
    else if |ls| == 1 then ls[0]
    else ls[0] + "\n" + Join(ls[1..])
  }

  /** Every line ended by a newline. */
  function Unlines(ls: seq<string>): string {
    if ls == [] then "" else ls[0] + "\n" + Unlines(ls[1..])
  }

  lemma {:induction false} LinesOneLine(s: string)
    ensures forall l :: l in Lines(s) ==> OneLine(l)
    ensures OneLine(s) ==> Lines(s) == [s]
    decreases |s|
  {
    if s != "" {
      var rest := Lines(s[1..]);
      LinesOneLine(s[1..]);
      assert s == [s[0]] + s[1..];
      forall l | l in Lines(s) ensures OneLine(l) {
        if s[0] == '\n' {
          assert l == "" || l in rest;
        } else {
          assert rest[0] in rest;
          assert l == [s[0]] + rest[0] || l in rest;
        }
      }
    }
  }

  lemma {:induction false} JoinLines(s: string)
    ensures Join(Lines(s)) == s
    decreases |s|
  {
    if s != "" {
      JoinLines(s[1..]);
      var rest := Lines(s[1..]);
      assert s == [s[0]] + s[1..];
      if s[0] == '\n' {
        assert Lines(s)[1..] == rest;
      } else {
        assert Lines(s)[1..] == rest[1..];
        if |rest| > 1 {
          assert ([s[0]] + rest[0]) + "\n" + Join(rest[1..]) == [s[0]] + (rest[0] + "\n" + Join(rest[1..]));
        }
      }
    }
  }

  lemma GrowFirst(c: char, rest: seq<string>, tail: seq<string>)
    requires rest != []
    ensures [[c] + (rest + tail)[0]] + (rest + tail)[1..] == ([[c] + rest[0]] + rest[1..]) + tail
  {
  }

  lemma LinesFirst(s: string, a: string, b: string)
    requires a != "" && s != "" && s[0] == a[0] && Lines(s[1..]) == Lines(a[1..]) + Lines(b)
    ensures Lines(s) == Lines(a) + Lines(b)
  {
    var rest, tail := Lines(a[1..]), Lines(b);
    if a[0] == '\n' {
      assert [""] + (rest + tail) == ([""] + rest) + tail;
    } else {
      GrowFirst(a[0], rest, tail);
    }
  }

  /** Splitting at a newline in the middle. */
  lemma {:induction false} LinesAppend(a: string, b: string)
    ensures Lines(a + "\n" + b) == Lines(a) + Lines(b)
    decreases |a|
  {
    var s := a + "\n" + b;
    if a == "" {
      assert s == "\n" + b && s[1..] == b;
    } else {
      LinesAppend(a[1..], b);
      assert s[1..] == a[1..] + "\n" + b && s[0] == a[0];
      LinesFirst(s, a, b);
    }
  }

  lemma {:induction false} LinesUnlines(ls: seq<string>)
    requires forall l :: l in ls ==> OneLine(l)
    ensures Lines(Unlines(ls)) == ls + [""]
  {
    if ls != [] {
      LinesUnlines(ls[1..]);
      LinesAppend(ls[0], Unlines(ls[1..]));
      assert ls[0] in ls;
      LinesOneLine(ls[0]);
      assert ls == [ls[0]] + ls[1..];
    }
  }

  lemma {:induction false} UnlinesAppend(a: seq<string>, b: seq<string>)
    ensures Unlines(a + b) == Unlines(a) + Unlines(b)
  {
    if a == [] {
      assert a + b == b;
    } else {
      assert (a + b)[1..] == a[1..] + b;
      UnlinesAppend(a[1..], b);
    }
  }

  /** Joining lines and a final empty line ends every line with a newline. */
  lemma {:induction false} JoinIsUnlines(ls: seq<string>)
    ensures Join(ls + [""]) == Unlines(ls)
    ensures ls != [] ==> Join(ls) + "\n" == Unlines(ls)
  {
    if ls != [] {
      JoinIsUnlines(ls[1..]);
      assert (ls + [""])[1..] == ls[1..] + [""];
      if |ls| == 1 {
        assert Unlines(ls[1..]) == "";
      } else {
        assert ls[0] + "\n" + Join(ls[1..]) + "\n" == ls[0] + "\n" + (Join(ls[1..]) + "\n");
      }
    }
  }

  lemma {:induction false} LinesJoin(ls: seq<string>)
    requires ls != [] && forall l :: l in ls ==> OneLine(l)
    ensures Lines(Join(ls)) == ls
  {
    assert ls[0] in ls;
    LinesOneLine(ls[0]);
    if |ls| > 1 {
      LinesJoin(ls[1..]);
      LinesAppend(ls[0], Join(ls[1..]));
      assert ls == [ls[0]] + ls[1..];
    }
  }

  // ---- Substrings -------------------------------------------------------------

  /** `m` stands in `s` at `i`. */
  predicate At(s: string, m: string, i: nat) { i + |m| <= |s| && s[i..i + |m|] == m }

  /** strings.Contains */
  predicate Contains(s: string, m: string) {
    exists i: nat :: i <= |s| && At(s, m, i)
  }

  lemma CrossesNewline(a: string, b: string, m: string, i: nat)
    requires At(a + "\n" + b, m, i)
    ensures i <= |a| < i + |m| ==> '\n' in m
  {
    if i <= |a| < i + |m| {
      assert m[|a| - i] == (a + "\n" + b)[|a|];
    }
  }

  /** A pattern without newlines stands in one of the lines or nowhere. */
  lemma ContainsAcross(a: string, b: string, m: string)
    requires OneLine(m) && m != ""
    ensures Contains(a + "\n" + b, m) <==> Contains(a, m) || Contains(b, m)
  {
    var s := a + "\n" + b;
    if Contains(s, m) {
      var i: nat :| i <= |s| && At(s, m, i);
      CrossesNewline(a, b, m, i);
      if i + |m| <= |a| {
        assert s[i..i + |m|] == a[i..i + |m|];
        assert At(a, m, i);
      } else {
        var k := i - |a| - 1;
        assert s[i..i + |m|] == b[k..k + |m|];
        assert At(b, m, k);
      }
    }
    if Contains(a, m) {
      var i: nat :| i <= |a| && At(a, m, i);
      assert s[i..i + |m|] == a[i..i + |m|];
      assert At(s, m, i);
    }
    if Contains(b, m) {
      var i: nat :| i <= |b| && At(b, m, i);
      var k := i + |a| + 1;
      assert s == a + ("\n" + b) && s[|a| + 1..] == b;
      assert s[k..k + |m|] == s[|a| + 1..][i..i + |m|];
      assert At(s, m, k);
    }
  }

  lemma {:induction false} ContainsUnlines(ls: seq<string>, m: string)
    requires OneLine(m) && m != ""
    ensures Contains(Unlines(ls), m) <==> exists l :: l in ls && Contains(l, m)
  {
    if ls != [] {
      ContainsAcross(ls[0], Unlines(ls[1..]), m);
      ContainsUnlines(ls[1..], m);
      assert ls == [ls[0]] + ls[1..];
    }
  }
}
