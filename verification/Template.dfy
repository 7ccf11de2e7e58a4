/** Rendering the golden-path templates: one replacement after the other, in an arbitrary
    order, is the simultaneous substitution of all holes. */
module Template {
  import opened Wrappers
  import opened Text

  // ---- Replacing one pattern ---------------------------------------------------------

  /** strings.ReplaceAll: from left to right, never inside what was just inserted. */
  function ReplaceAll(s: string, pattern: string, value: string): string
    requires pattern != ""
    decreases |s|
  {
    if s == "" then ""
    else if pattern <= s then value + ReplaceAll(s[|pattern|..], pattern, value)
    else [s[0]] + ReplaceAll(s[1..], pattern, value)
  }

  /** A stretch in which the pattern never starts is copied. */
  lemma {:induction false} SkipPlain(s: string, n: nat, pattern: string, value: string)
    requires pattern != "" && n <= |s|
    requires forall p :: 0 <= p < n ==> !(pattern <= s[p..])
    ensures ReplaceAll(s, pattern, value) == s[..n] + ReplaceAll(s[n..], pattern, value)
    decreases n
  {
    if n > 0 {
      assert !(pattern <= s[0..]) && s[0..] == s;
      forall p | 0 <= p < n - 1 ensures !(pattern <= s[1..][p..]) {
        assert s[1..][p..] == s[p + 1..];
      }
      SkipPlain(s[1..], n - 1, pattern, value);
      assert s[1..][n - 1..] == s[n..];
      assert s[..n] == [s[0]] + s[1..][..n - 1];
    }
  }

  /** How often the pattern is replaced. */
  function Occurrences(s: string, m: string): nat
    requires m != ""
    decreases |s|
  {
    if s == "" then 0
    else if m <= s then 1 + Occurrences(s[|m|..], m)
    else Occurrences(s[1..], m)
  }

  lemma OneMore(n: nat, d: int)
    ensures (1 + n) * d == d + n * d
  {
  }

  /** Each replacement changes the length by the same amount. */
  lemma {:induction false} ReplaceAllLength(s: string, pattern: string, value: string)
    requires pattern != ""
    ensures |ReplaceAll(s, pattern, value)| == |s| + Occurrences(s, pattern) * (|value| - |pattern|)
    decreases |s|
  {
    if s != "" {
      if pattern <= s {
        ReplaceAllLength(s[|pattern|..], pattern, value);
        OneMore(Occurrences(s[|pattern|..], pattern), |value| - |pattern|);
      } else {
        ReplaceAllLength(s[1..], pattern, value);
      }
    }
  }

  lemma {:induction false} OccurrencesContains(s: string, m: string)
    requires m != ""
    ensures Occurrences(s, m) > 0 <==> Contains(s, m)
    decreases |s|
  {
    if s == "" {
      forall i: nat | i <= |s| ensures !At(s, m, i) { }
    } else if m <= s {
      assert At(s, m, 0);
    } else {
      OccurrencesContains(s[1..], m);
      if Contains(s[1..], m) {
        var i: nat :| i <= |s[1..]| && At(s[1..], m, i);
        assert s[1..][i..i + |m|] == s[i + 1..i + 1 + |m|];
        assert At(s, m, i + 1);
      }
      if Contains(s, m) {
        var i: nat :| i <= |s| && At(s, m, i);
        assert i == 0 ==> m <= s;
        assert s[1..][i - 1..i - 1 + |m|] == s[i..i + |m|];
        assert At(s[1..], m, i - 1);
      }
    }
  }

  lemma SameLengthSplit(a: string, b: string, c: string, d: string)
    requires a + b == c + d && |a| == |c|
    ensures a == c && b == d
  {
    assert a == (a + b)[..|a|] == (c + d)[..|c|] == c;
    assert b == (a + b)[|a|..] == (c + d)[|c|..] == d;
  }

  /** A replacement of the same length that changes nothing puts the pattern in its own place. */
  lemma {:induction false} ReplaceAllSameLength(s: string, pattern: string, value: string)
    requires pattern != "" && |value| == |pattern| && ReplaceAll(s, pattern, value) == s && Occurrences(s, pattern) > 0
    ensures value == pattern
    decreases |s|
  {
    if pattern <= s {
      assert s == pattern + s[|pattern|..];
      SameLengthSplit(value, ReplaceAll(s[|pattern|..], pattern, value), pattern, s[|pattern|..]);
    } else {
      assert s == [s[0]] + s[1..];
      SameLengthSplit([s[0]], ReplaceAll(s[1..], pattern, value), [s[0]], s[1..]);
      ReplaceAllSameLength(s[1..], pattern, value);
    }
  }

  lemma {:induction false} ReplaceAllNothing(s: string, pattern: string, value: string)
    requires pattern != "" && (Occurrences(s, pattern) == 0 || value == pattern)
    ensures ReplaceAll(s, pattern, value) == s
    decreases |s|
  {
    if s != "" {
      if pattern <= s {
        ReplaceAllNothing(s[|pattern|..], pattern, value);
      } else {
        ReplaceAllNothing(s[1..], pattern, value);
      }
    }
  }

  /** Replacing changes nothing exactly when there is nothing to replace, or it is replaced by itself. */
  lemma ReplaceAllIdle(s: string, pattern: string, value: string)
    requires pattern != ""
    ensures ReplaceAll(s, pattern, value) == s <==> !Contains(s, pattern) || value == pattern
  {
    OccurrencesContains(s, pattern);
    ReplaceAllLength(s, pattern, value);
    NoProduct(Occurrences(s, pattern), |value| - |pattern|);
    if Occurrences(s, pattern) == 0 || value == pattern {
      ReplaceAllNothing(s, pattern, value);
    } else if ReplaceAll(s, pattern, value) == s {
      ReplaceAllSameLength(s, pattern, value);
    }
  }

  lemma NoProduct(n: nat, d: int)
    ensures n * d == 0 <==> n == 0 || d == 0
  {
  }

  // ---- Templates ---------------------------------------------------------------------

  datatype Token = Lit(text: string) | Hole(name: string)

  function Key(name: string): string { "{{" + name + "}}" }

  predicate BraceFree(s: string) { '{' !in s && '}' !in s }

  /** Text that neither contains nor can take part in the opening of a hole. */
  predicate Literal(s: string) {
    && (forall i :: 0 <= i < |s| - 1 ==> !(s[i] == '{' && s[i + 1] == '{'))
    && (s != "" ==> s[|s| - 1] != '{')
  }

  predicate ValidToken(t: Token) {
    match t
    case Lit(text) => Literal(text)
    case Hole(name) => BraceFree(name)
  }

  ghost predicate Valid(ts: seq<Token>) { forall t :: t in ts ==> ValidToken(t) }

  function TokenText(t: Token): string {
    match t
    case Lit(text) => text
    case Hole(name) => Key(name)
  }

  function Source(ts: seq<Token>): string {
    if ts == [] then "" else TokenText(ts[0]) + Source(ts[1..])
  }

  type Values = map<string, seq<Token>>

  /** All holes with a value filled at once; the others stay. */
  function Subst(ts: seq<Token>, vals: Values): seq<Token> {
    if ts == [] then []
    else (if ts[0].Hole? && ts[0].name in vals then vals[ts[0].name] else [ts[0]]) + Subst(ts[1..], vals)
  }

  lemma {:induction false} SourceAppend(a: seq<Token>, b: seq<Token>)
    ensures Source(a + b) == Source(a) + Source(b)
  {
    if a == [] {
      assert a + b == b;
    } else {
      assert (a + b)[1..] == a[1..] + b;
      SourceAppend(a[1..], b);
      assert (a + b)[0] == a[0];
    }
  }

  // ---- Where a key can start -------------------------------------------------------------

  lemma KeyShape(name: string)
    ensures var k := Key(name); |k| == |name| + 4 && k[0] == '{' && k[1] == '{'
    ensures Key(name)[2..2 + |name|] == name && Key(name)[2 + |name|] == '}' && Key(name)[3 + |name|] == '}'
    ensures forall i :: 0 <= i < |name| ==> Key(name)[i + 2] == name[i]
  {
  }

  lemma KeyStarts(text: string, rest: string, name: string, p: nat)
    requires p < |text| && Key(name) <= (text + rest)[p..]
    ensures text[p] == '{' && (p + 1 < |text| ==> text[p + 1] == '{')
  {
    KeyShape(name);
    var s := text + rest;
    assert s[p..][0] == '{' && s[p..][1] == '{';
    assert s[p] == text[p];
    assert p + 1 < |text| ==> s[p + 1] == text[p + 1];
  }

  /** No key starts in literal text. */
  lemma NotInLiteral(text: string, rest: string, name: string)
    requires Literal(text)
    ensures forall p :: 0 <= p < |text| ==> !(Key(name) <= (text + rest)[p..])
  {
    var s := text + rest;
    forall p | 0 <= p < |text| ensures !(Key(name) <= s[p..]) {
      if Key(name) <= s[p..] {
        KeyStarts(text, rest, name, p);
      }
    }
  }

  /** A key starts in a hole only if the hole is its own. */
  lemma OnlyItsOwn(hole: string, rest: string, name: string, p: nat)
    requires BraceFree(hole) && BraceFree(name) && p < |Key(hole)| && Key(name) <= (Key(hole) + rest)[p..]
    ensures p == 0 && hole == name
  {
    var s := Key(hole) + rest;
    KeyStarts(Key(hole), rest, name, p);
    OpensOnce(hole, p);
    assert s[0..] == s;
    SameName(hole, name, rest);
  }

  lemma OpensOnce(hole: string, p: nat)
    requires BraceFree(hole)
    ensures 0 < p && p + 1 < |Key(hole)| ==> Key(hole)[p] != '{' || Key(hole)[p + 1] != '{'
    ensures p + 1 == |Key(hole)| ==> Key(hole)[p] == '}'
  {
    KeyShape(hole);
    assert 2 <= p < 2 + |hole| ==> Key(hole)[p] == hole[p - 2];
    assert p == 1 && 0 < |hole| ==> Key(hole)[2] == hole[0];
  }

  lemma SameName(hole: string, name: string, rest: string)
    requires BraceFree(hole) && BraceFree(name) && Key(name) <= Key(hole) + rest
    ensures hole == name
  {
    var k, h := Key(name), Key(hole);
    var s := h + rest;
    KeyShape(hole);
    KeyShape(name);
    assert forall i :: 0 <= i < |k| ==> k[i] == s[i];
    assert forall i :: 0 <= i < |h| ==> h[i] == s[i];
    assert |name| == |hole|;
    forall i | 0 <= i < |name| ensures name[i] == hole[i] {
      assert k[i + 2] == h[i + 2];
    }
  }

  // ---- One replacement --------------------------------------------------------------------

  /** Replacing one key in the text is filling one hole in the template. */
  lemma {:induction false} ReplaceFillsHole(ts: seq<Token>, name: string, value: seq<Token>)
    requires Valid(ts) && BraceFree(name)
    ensures ReplaceAll(Source(ts), Key(name), Source(value)) == Source(Subst(ts, map[name := value]))
  {
    if ts != [] {
      var rest := Source(ts[1..]);
      var vals := map[name := value];
      ReplaceFillsHole(ts[1..], name, value);
      assert ts[0] in ts;
      if ts[0] == Hole(name) {
        assert (Key(name) + rest)[|Key(name)|..] == rest;
        SourceAppend(value, Subst(ts[1..], vals));
      } else {
        SkipToken(ts[0], rest, name, Source(value));
        SourceAppend([ts[0]], Subst(ts[1..], vals));
        assert Source([ts[0]]) == TokenText(ts[0]);
      }
    }
  }

  lemma SkipToken(t: Token, rest: string, name: string, value: string)
    requires ValidToken(t) && BraceFree(name) && t != Hole(name)
    ensures ReplaceAll(TokenText(t) + rest, Key(name), value) == TokenText(t) + ReplaceAll(rest, Key(name), value)
  {
    NotInOther(t, rest, name);
    var s := TokenText(t) + rest;
    SkipPlain(s, |TokenText(t)|, Key(name), value);
    assert s[|TokenText(t)|..] == rest && s[..|TokenText(t)|] == TokenText(t);
  }

  lemma NotInOther(t: Token, rest: string, name: string)
    requires ValidToken(t) && BraceFree(name) && t != Hole(name)
    ensures forall p :: 0 <= p < |TokenText(t)| ==> !(Key(name) <= (TokenText(t) + rest)[p..])
  {
    match t
    case Lit(text) => NotInLiteral(text, rest, name);
    case Hole(h) =>
      forall p | 0 <= p < |Key(h)| ensures !(Key(name) <= (Key(h) + rest)[p..]) {
        if Key(name) <= (Key(h) + rest)[p..] { OnlyItsOwn(h, rest, name, p); }
      }
  }

  /** The text contains a key exactly when the template has that hole. */
  lemma {:induction false} ContainsIsHole(ts: seq<Token>, name: string)
    requires Valid(ts) && BraceFree(name)
    ensures Contains(Source(ts), Key(name)) <==> Hole(name) in ts
  {
    if ts == [] {
      forall i: nat | i <= 0 ensures !At("", Key(name), i) { }
    } else {
      var t, rest := ts[0], Source(ts[1..]);
      assert t in ts && ts == [t] + ts[1..];
      ContainsIsHole(ts[1..], name);
      if t == Hole(name) {
        assert (Key(name) + rest)[..|Key(name)|] == Key(name);
        assert At(Source(ts), Key(name), 0);
      } else {
        NotInOther(t, rest, name);
        ContainsAfter(TokenText(t), rest, Key(name));
      }
    }
  }

  lemma ContainsAfter(a: string, b: string, m: string)
    requires m != "" && forall p :: 0 <= p < |a| ==> !(m <= (a + b)[p..])
    ensures Contains(a + b, m) <==> Contains(b, m)
  {
    var s := a + b;
    if Contains(s, m) {
      var i: nat :| i <= |s| && At(s, m, i);
      assert s[i..][..|m|] == s[i..i + |m|] && m <= s[i..];
      assert i >= |a|;
      assert s[i..i + |m|] == b[i - |a|..i - |a| + |m|];
      assert At(b, m, i - |a|);
    }
    if Contains(b, m) {
      var i: nat :| i <= |b| && At(b, m, i);
      assert s[i + |a|..i + |a| + |m|] == b[i..i + |m|];
      assert At(s, m, i + |a|);
    }
  }

  // ---- All replacements -------------------------------------------------------------------

  /** The loop of `Render` when the keys come in the given order. */
  function Fold(content: string, order: seq<string>, texts: map<string, string>): string
    requires forall n :: n in order ==> n in texts
    decreases |order|
  {
    if order == [] then content
    else Fold(ReplaceAll(content, Key(order[0]), texts[order[0]]), order[1..], texts)
  }

  function Texts(vals: Values): map<string, string> { map n | n in vals :: Source(vals[n]) }

  /** Values may bring holes of their own, but none that is to be filled. */
  ghost predicate Inert(vals: Values) {
    forall n :: n in vals ==> BraceFree(n) && Valid(vals[n]) && forall m :: m in vals ==> Hole(m) !in vals[n]
  }

  lemma {:induction false} SubstAppend(a: seq<Token>, b: seq<Token>, vals: Values)
    ensures Subst(a + b, vals) == Subst(a, vals) + Subst(b, vals)
  {
    if a == [] {
      assert a + b == b;
    } else {
      assert (a + b)[1..] == a[1..] + b && (a + b)[0] == a[0];
      SubstAppend(a[1..], b, vals);
    }
  }

  lemma {:induction false} SubstNothing(ts: seq<Token>, vals: Values)
    requires forall m :: m in vals ==> Hole(m) !in ts
    ensures Subst(ts, vals) == ts
  {
    if ts != [] {
      assert ts[0] in ts && ts == [ts[0]] + ts[1..];
      SubstNothing(ts[1..], vals);
    }
  }

  lemma {:induction false} SubstValid(ts: seq<Token>, vals: Values)
    requires Valid(ts) && Inert(vals)
    ensures Valid(Subst(ts, vals))
  {
    if ts != [] {
      assert ts[0] in ts;
      SubstValid(ts[1..], vals);
    }
  }

  /** Filling one more hole of an inert set of values first does not matter. */
  lemma {:induction false} SubstFirst(ts: seq<Token>, name: string, some: Values, vals: Values)
    requires name in vals && Inert(vals)
    requires forall n :: n in some ==> n in vals && some[n] == vals[n]
    ensures Subst(Subst(ts, map[name := vals[name]]), some) == Subst(ts, some[name := vals[name]])
  {
    if ts != [] {
      var one := map[name := vals[name]];
      SubstFirst(ts[1..], name, some, vals);
      if ts[0] == Hole(name) {
        SubstAppend(vals[name], Subst(ts[1..], one), some);
        SubstNothing(vals[name], some);
      } else {
        SubstAppend([ts[0]], Subst(ts[1..], one), some);
        assert [ts[0]][1..] == [];
      }
    }
  }

  function Restrict(vals: Values, names: seq<string>): Values { map n | n in names && n in vals :: vals[n] }

  lemma {:induction false} FoldIsSubst(ts: seq<Token>, order: seq<string>, vals: Values)
    requires Valid(ts) && Inert(vals) && forall n :: n in order ==> n in vals
    ensures Fold(Source(ts), order, Texts(vals)) == Source(Subst(ts, Restrict(vals, order)))
    decreases |order|
  {
    if order == [] {
      SubstNothing(ts, Restrict(vals, order));
    } else {
      var name, rest := order[0], order[1..];
      var one := map[name := vals[name]];
      assert order == [name] + rest;
      ReplaceFillsHole(ts, name, vals[name]);
      assert Inert(one);
      SubstValid(ts, one);
      FoldIsSubst(Subst(ts, one), rest, vals);
      SubstFirst(ts, name, Restrict(vals, rest), vals);
      RestrictHead(vals, order);
    }
  }

  lemma RestrictHead(vals: Values, order: seq<string>)
    requires order != [] && order[0] in vals
    ensures Restrict(vals, order) == Restrict(vals, order[1..])[order[0] := vals[order[0]]]
  {
    assert order == [order[0]] + order[1..];
  }

  /** Whatever the order of the keys, and however often each is used, the outcome is the simultaneous substitution. */
  lemma OrderDoesNotMatter(ts: seq<Token>, order: seq<string>, vals: Values)
    requires Valid(ts) && Inert(vals) && (set n | n in order) == vals.Keys
    ensures forall n :: n in order ==> n in Texts(vals)
    ensures Fold(Source(ts), order, Texts(vals)) == Source(Subst(ts, vals))
  {
    forall n | n in order ensures n in vals { assert n in (set n | n in order); }
    FoldIsSubst(ts, order, vals);
    assert Restrict(vals, order) == vals by {
      forall n | n in vals ensures n in order { assert n in (set n | n in order); }
    }
  }

  lemma {:induction false} SubstHoles(ts: seq<Token>, vals: Values, name: string)
    ensures Hole(name) in Subst(ts, vals) <==>
            || (Hole(name) in ts && name !in vals)
            || exists n :: n in vals && Hole(n) in ts && Hole(name) in vals[n]
  {
    if ts != [] {
      assert ts == [ts[0]] + ts[1..];
      SubstHoles(ts[1..], vals, name);
    }
  }

  /** Which holes the outcome shows: those of the template that have no value, those the values brought, and no other.
      */
  lemma RemainingHoles(ts: seq<Token>, vals: Values, name: string)
    requires Valid(ts) && Inert(vals) && BraceFree(name)
    ensures Contains(Source(Subst(ts, vals)), Key(name)) <==>
            && name !in vals
            && (Hole(name) in ts || exists n :: n in vals && Hole(n) in ts && Hole(name) in vals[n])
  {
    SubstValid(ts, vals);
    ContainsIsHole(Subst(ts, vals), name);
    SubstHoles(ts, vals, name);
  }

  lemma {:induction false} FoldSnoc(content: string, order: seq<string>, k: string, texts: map<string, string>)
    requires k in texts && forall n :: n in order ==> n in texts
    ensures Fold(content, order + [k], texts) == ReplaceAll(Fold(content, order, texts), Key(k), texts[k])
    decreases |order|
  {
    if order == [] {
      assert (order + [k])[1..] == [];
    } else {
      assert (order + [k])[1..] == order[1..] + [k];
      FoldSnoc(ReplaceAll(content, Key(order[0]), texts[order[0]]), order[1..], k, texts);
    }
  }
}
