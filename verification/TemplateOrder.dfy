/** Exactly which values make the outcome of replacing the keys one after the other independent of their order. */
module TemplateOrder {
  import opened Wrappers
  import opened Text
  import opened Template

  /** The template with the holes in `done` filled, and the others as they are. */
  function Filled(ts: seq<Token>, texts: map<string, string>, done: set<string>): string {
    if ts == [] then ""
    else
      (if ts[0].Hole? && ts[0].name in done && ts[0].name in texts then texts[ts[0].name] else TokenText(ts[0]))
      + Filled(ts[1..], texts, done)
  }

  /** The value contains the key, or ends in the beginning of it. */
  predicate Opens(value: string, name: string) {
    Contains(value, Key(name)) || exists n :: 0 < n < |Key(name)| && HasSuffix(value, Key(name)[..n])
  }

  /** No value opens the key of another, unless that key stands for itself. */
  predicate Tame(texts: map<string, string>) {
    forall k, j :: k in texts && j in texts && k != j && texts[j] != Key(j) ==> !Opens(texts[k], j)
  }

  ghost predicate NamesOk(texts: map<string, string>) { forall n :: n in texts ==> BraceFree(n) }

  // ---- Tame values --------------------------------------------------------------------------

  /** No key starts in a value that does not open it. */
  lemma NotInValue(value: string, rest: string, name: string)
    requires !Opens(value, name)
    ensures forall p :: 0 <= p < |value| ==> !(Key(name) <= (value + rest)[p..])
  {
    var s, k := value + rest, Key(name);
    forall p | 0 <= p < |value| ensures !(k <= s[p..]) {
      if p + |k| <= |value| {
        assert s[p..][..|k|] == s[p..p + |k|] == value[p..p + |k|];
        assert !At(value, k, p);
      } else {
        var n := |value| - p;
        assert !HasSuffix(value, k[..n]);
        assert value[p..] == s[p..][..n];
      }
    }
  }

  lemma SkipValue(value: string, rest: string, name: string, text: string)
    requires !Opens(value, name)
    ensures ReplaceAll(value + rest, Key(name), text) == value + ReplaceAll(rest, Key(name), text)
  {
    NotInValue(value, rest, name);
    SkipPlain(value + rest, |value|, Key(name), text);
    assert (value + rest)[|value|..] == rest && (value + rest)[..|value|] == value;
  }

  lemma {:induction false} FilledSelf(ts: seq<Token>, texts: map<string, string>, done: set<string>, name: string)
    requires name in texts && texts[name] == Key(name)
    ensures Filled(ts, texts, done + {name}) == Filled(ts, texts, done)
  {
    if ts != [] { FilledSelf(ts[1..], texts, done, name); }
  }

  /** One replacement fills one hole, whichever were filled before. */
  lemma {:induction false} FillOne(ts: seq<Token>, texts: map<string, string>, done: set<string>, name: string)
    requires Valid(ts) && NamesOk(texts) && Tame(texts) && name in texts && name !in done && texts[name] != Key(name)
    ensures ReplaceAll(Filled(ts, texts, done), Key(name), texts[name]) == Filled(ts, texts, done + {name})
  {
    if ts != [] {
      var t, rest := ts[0], Filled(ts[1..], texts, done);
      assert t in ts;
      FillOne(ts[1..], texts, done, name);
      if t == Hole(name) {
        assert (Key(name) + rest)[|Key(name)|..] == rest;
      } else if t.Hole? && t.name in done && t.name in texts {
        SkipValue(texts[t.name], rest, name, texts[name]);
      } else {
        SkipToken(t, rest, name, texts[name]);
      }
    }
  }

  lemma FillNext(ts: seq<Token>, texts: map<string, string>, done: set<string>, name: string)
    requires Valid(ts) && NamesOk(texts) && Tame(texts) && name in texts && name !in done
    ensures ReplaceAll(Filled(ts, texts, done), Key(name), texts[name]) == Filled(ts, texts, done + {name})
  {
    if texts[name] == Key(name) {
      ReplaceAllIdle(Filled(ts, texts, done), Key(name), texts[name]);
      FilledSelf(ts, texts, done, name);
    } else {
      FillOne(ts, texts, done, name);
    }
  }

  lemma {:induction false} FoldFills(ts: seq<Token>, order: seq<string>, texts: map<string, string>, done: set<string>)
    requires Valid(ts) && NamesOk(texts) && Tame(texts)
    requires forall n :: n in order ==> n in texts && n !in done
    requires forall i, j :: 0 <= i < j < |order| ==> order[i] != order[j]
    ensures Fold(Filled(ts, texts, done), order, texts) == Filled(ts, texts, done + (set n | n in order))
    decreases |order|
  {
    if order == [] {
      assert done + (set n | n in order) == done;
    } else {
      FillNext(ts, texts, done, order[0]);
      FoldFills(ts, order[1..], texts, done + {order[0]});
      HeadAndRest(order, done);
    }
  }

  lemma HeadAndRest(order: seq<string>, done: set<string>)
    requires order != []
    ensures done + {order[0]} + (set n | n in order[1..]) == done + (set n | n in order)
  {
    assert order == [order[0]] + order[1..];
  }

  lemma {:induction false} FilledNothing(ts: seq<Token>, texts: map<string, string>)
    ensures Filled(ts, texts, {}) == Source(ts)
  {
    if ts != [] { FilledNothing(ts[1..], texts); }
  }

  /** With tame values every order of the keys fills all holes at once. */
  lemma TameFills(ts: seq<Token>, order: seq<string>, texts: map<string, string>)
    requires Valid(ts) && NamesOk(texts) && Tame(texts) && Enumerates(order, texts.Keys)
    ensures Fold(Source(ts), order, texts) == Filled(ts, texts, texts.Keys)
  {
    FilledNothing(ts, texts);
    FoldFills(ts, order, texts, {});
    EnumeratedSet(order, texts.Keys);
    assert {} + (set n | n in order) == texts.Keys;
  }

  // ---- Other values ---------------------------------------------------------------------------

  lemma Untouched(k: string, rest: string, m: string, value: string)
    requires k != m && BraceFree(k) && BraceFree(m) && Literal(rest)
    ensures ReplaceAll(Key(k) + rest, Key(m), value) == Key(k) + rest
  {
    SkipToken(Hole(k), rest, m, value);
    SkipRest(rest, m, value);
  }

  lemma SkipRest(rest: string, m: string, value: string)
    requires Literal(rest) && BraceFree(m)
    ensures ReplaceAll(rest, Key(m), value) == rest
  {
    SkipToken(Lit(rest), "", m, value);
    assert rest + "" == rest;
  }

  lemma OwnKey(k: string, rest: string, value: string)
    requires BraceFree(k) && Literal(rest)
    ensures ReplaceAll(Key(k) + rest, Key(k), value) == value + rest
  {
    assert (Key(k) + rest)[|Key(k)|..] == rest;
    SkipRest(rest, k, value);
  }

  lemma {:induction false} FoldUntouched(k: string, rest: string, order: seq<string>, texts: map<string, string>)
    requires NamesOk(texts) && BraceFree(k) && Literal(rest) && forall n :: n in order ==> n in texts && n != k
    ensures Fold(Key(k) + rest, order, texts) == Key(k) + rest
    decreases |order|
  {
    if order != [] {
      assert order[0] in order;
      Untouched(k, rest, order[0], texts[order[0]]);
      FoldUntouched(k, rest, order[1..], texts);
    }
  }

  /** On one hole followed by text that completes the key, the two keys cannot be exchanged. */
  lemma Exchange(texts: map<string, string>, k: string, j: string, rest: string)
    returns (a: seq<string>, b: seq<string>)
    requires NamesOk(texts) && k in texts && j in texts && k != j && texts[j] != Key(j) && Literal(rest)
    requires Contains(texts[k] + rest, Key(j))
    ensures Enumerates(a, texts.Keys) && Enumerates(b, texts.Keys)
    ensures Fold(Key(k) + rest, a, texts) != Fold(Key(k) + rest, b, texts)
  {
    var others := Enumeration(texts.Keys - {k, j});
    a, b := others + [j] + [k], others + [k] + [j];
    SecondLast(texts, others, k, j, rest);
    ReplaceAllIdle(texts[k] + rest, Key(j), texts[j]);
  }

  lemma SecondLast(texts: map<string, string>, others: seq<string>, k: string, j: string, rest: string)
    requires NamesOk(texts) && k in texts && j in texts && k != j && Literal(rest)
    requires forall n :: n in others ==> n in texts && n != k
    ensures Fold(Key(k) + rest, others + [j] + [k], texts) == texts[k] + rest
    ensures Fold(Key(k) + rest, others + [k] + [j], texts) == ReplaceAll(texts[k] + rest, Key(j), texts[j])
  {
    FoldUntouched(k, rest, others, texts);
    Untouched(k, rest, j, texts[j]);
    OwnKey(k, rest, texts[k]);
    FoldSnoc(Key(k) + rest, others, j, texts);
    FoldSnoc(Key(k) + rest, others + [j], k, texts);
    FoldSnoc(Key(k) + rest, others, k, texts);
    FoldSnoc(Key(k) + rest, others + [k], j, texts);
  }

  /** The text that completes the key. */
  lemma Completion(value: string, j: string) returns (rest: string)
    requires Opens(value, j) && BraceFree(j)
    ensures Literal(rest) && Contains(value + rest, Key(j))
  {
    if Contains(value, Key(j)) {
      rest := "";
      assert value + "" == value;
    } else {
      var n :| 0 < n < |Key(j)| && HasSuffix(value, Key(j)[..n]);
      rest := Key(j)[n..];
      KeyTail(j, n);
      var i := |value| - n;
      assert (value + rest)[i..i + |Key(j)|] == value[i..] + rest == Key(j)[..n] + Key(j)[n..] == Key(j);
      assert At(value + rest, Key(j), i);
    }
  }

  lemma KeyTail(j: string, n: nat)
    requires BraceFree(j) && 0 < n < |Key(j)|
    ensures Literal(Key(j)[n..])
  {
    KeyShape(j);
    var rest := Key(j)[n..];
    forall i | 0 <= i < |rest| - 1 ensures !(rest[i] == '{' && rest[i + 1] == '{') {
      assert rest[i] == Key(j)[n + i] && rest[i + 1] == Key(j)[n + i + 1];
      OpensOnce(j, n + i);
    }
    assert rest[|rest| - 1] == Key(j)[|Key(j)| - 1] == '}';
  }

  // ---- The equivalence --------------------------------------------------------------------------

  ghost predicate OrderFree(texts: map<string, string>) {
    forall ts, a, b :: Valid(ts) && Enumerates(a, texts.Keys) && Enumerates(b, texts.Keys) ==>
      Fold(Source(ts), a, texts) == Fold(Source(ts), b, texts)
  }

  /** The outcome is the same for all templates and all orders of the keys exactly if no value opens another key. */
  lemma OrderFreeExactly(texts: map<string, string>)
    requires NamesOk(texts)
    ensures OrderFree(texts) <==> Tame(texts)
  {
    if Tame(texts) {
      FreeIfTame(texts);
    } else {
      var k, j :| k in texts && j in texts && k != j && texts[j] != Key(j) && Opens(texts[k], j);
      var rest := Completion(texts[k], j);
      var a, b := Exchange(texts, k, j, rest);
      TwoTokens(k, rest);
      NotFree(texts, [Hole(k), Lit(rest)], a, b);
    }
  }

  lemma FreeIfTame(texts: map<string, string>)
    requires NamesOk(texts) && Tame(texts)
    ensures OrderFree(texts)
  {
    forall ts, a, b | Valid(ts) && Enumerates(a, texts.Keys) && Enumerates(b, texts.Keys)
      ensures Fold(Source(ts), a, texts) == Fold(Source(ts), b, texts)
    {
      TameFills(ts, a, texts);
      TameFills(ts, b, texts);
    }
  }

  lemma NotFree(texts: map<string, string>, ts: seq<Token>, a: seq<string>, b: seq<string>)
    requires Valid(ts) && Enumerates(a, texts.Keys) && Enumerates(b, texts.Keys)
    requires Fold(Source(ts), a, texts) != Fold(Source(ts), b, texts)
    ensures !OrderFree(texts)
  {
  }

  lemma TwoTokens(k: string, rest: string)
    ensures Source([Hole(k), Lit(rest)]) == Key(k) + rest
  {
    var ts := [Hole(k), Lit(rest)];
    assert ts[1..] == [Lit(rest)] && ts[1..][1..] == [];
    assert rest + "" == rest;
    assert Source([Lit(rest)]) == rest + Source([Lit(rest)][1..]);
  }
}
