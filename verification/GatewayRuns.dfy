/** Runs of changes to the gateway manifest refine runs of operations on an ordered list. */
module GatewayRuns {
  import opened Wrappers
  import opened Text
  import opened Gateway
  import opened GatewayFrame
  import opened GatewayList

  datatype Op = Add(app: string) | Remove(app: string)

  /** The change that enabling or disabling an application asks for. */
  function ChangeOf(op: Op): Change {
    match op
    case Add(app) => Change(app, app + ".atlas", app + "-cert", true)
    case Remove(app) => Change(app, app + ".atlas", "", false)
  }

  function FileRun(content: string, ops: seq<Op>): string
    decreases |ops|
  {
    if ops == [] then content else FileRun(Applied(content, ChangeOf(ops[0])), ops[1..])
  }

  /** Adding `a` is skipped. */
  predicate Hidden(preamble: seq<string>, names: seq<string>, a: string) {
    Mentions(preamble, a) || exists b :: b in names && Shadows(a, b)
  }

  function Without(names: seq<string>, a: string): seq<string> {
    if names == [] then [] else if names[0] == a then names[1..] else [names[0]] + Without(names[1..], a)
  }

  function ListStep(preamble: seq<string>, names: seq<string>, op: Op): seq<string> {
    match op
    case Add(a) => if Hidden(preamble, names, a) then names else names + [a]
    case Remove(a) => Without(names, a)
  }

  function ListRun(preamble: seq<string>, names: seq<string>, ops: seq<Op>): seq<string>
    decreases |ops|
  {
    if ops == [] then names else ListRun(preamble, ListStep(preamble, names, ops[0]), ops[1..])
  }

  predicate NoDuplicates(names: seq<string>) {
    forall i, k :: 0 <= i < k < |names| ==> names[i] != names[k]
  }

  // ---- Adding ------------------------------------------------------------------------

  lemma AppendToLines(ls: seq<string>, d: ListenerData)
    requires Trimmed(Unlines(ls))
    ensures AppendListener(Unlines(ls), d) == Unlines(ls + ListenerLines(d))
  {
    var content := Unlines(ls);
    var body := content[..|content| - 1];
    assert content == body + "\n";
    AppendIsConcat(body, d);
    UnlinesAppend(ls, ListenerLines(d));
  }

  lemma Associative(a: seq<string>, b: seq<string>, c: seq<string>)
    ensures a + (b + c) == (a + b) + c
  {
  }

  /** A manifest can be cut between any two listeners. */
  lemma ManifestCut(preamble: seq<string>, front: seq<string>, back: seq<string>)
    ensures preamble + Blocks(front + back) == (preamble + Blocks(front)) + Blocks(back)
  {
    BlocksAppend(front, back);
    Associative(preamble, Blocks(front), Blocks(back));
  }

  lemma AppendToManifest(preamble: seq<string>, names: seq<string>, a: string)
    requires Preamble(preamble) && Labels(names)
    ensures AppendListener(Manifest(preamble, names), Listener(a)) == Manifest(preamble, names + [a])
  {
    ManifestTrimmed(preamble, names);
    AppendToLines(preamble + Blocks(names), Listener(a));
    ManifestCut(preamble, names, [a]);
    BlocksOne(a);
  }

  lemma AddRefines(preamble: seq<string>, names: seq<string>, a: string)
    requires Preamble(preamble) && Labels(names) && Label(a)
    ensures Applied(Manifest(preamble, names), ChangeOf(Add(a)))
            == Manifest(preamble, ListStep(preamble, names, Add(a)))
  {
    HasIsShadowing(preamble, names, a);
    AppendToManifest(preamble, names, a);
  }

  // ---- Removing ----------------------------------------------------------------------

  lemma IsMarkerContains(l: string, a: string)
    requires IsMarker(l, a)
    ensures Contains(l, Marker(a))
  {
    TrimRightIsPrefix(l, ' ');
    assert At(l, Marker(a), 0);
  }

  /** A block holds no marker but its own. */
  lemma BlockMarkers(b: string, a: string, k: nat)
    requires Label(b) && k < |Block(b)|
    ensures IsMarker(Block(b)[k], a) ==> k == 0 && a == b
  {
    ListenerIsBlock(Listener(b), b);
    if IsMarker(Block(b)[k], a) {
      MarkerLine(Block(b)[k], a);
      if k == 0 {
        LabelFindable(b);
        MarkerIsMarker(b);
        MarkersDiffer(Marker(b), a, b);
      }
    }
  }

  lemma LabelFindable(a: string)
    requires Label(a)
    ensures Findable(a)
  {
  }

  lemma NoMarkerAhead(preamble: seq<string>, names: seq<string>, a: string)
    requires Foreign(preamble, a) && Labels(names) && a !in names
    ensures forall l :: l in preamble + Blocks(names) ==> !IsMarker(l, a)
  {
    forall l | l in preamble + Blocks(names) ensures !IsMarker(l, a) {
      if l !in preamble {
        InBlocks(names, l);
        var b :| b in names && l in Block(b);
        var k: nat :| k < |Block(b)| && Block(b)[k] == l;
        BlockMarkers(b, a, k);
      }
    }
  }

  lemma {:induction false} SplitAtName(names: seq<string>, a: string) returns (i: nat)
    requires a in names
    ensures i < |names| && names[i] == a && a !in names[..i]
    ensures Without(names, a) == names[..i] + names[i + 1..]
  {
    if names[0] == a {
      i := 0;
    } else {
      var k := SplitAtName(names[1..], a);
      i := k + 1;
      assert names[..i] == [names[0]] + names[1..][..k];
    }
  }

  lemma {:induction false} WithoutAbsent(names: seq<string>, a: string)
    requires a !in names
    ensures Without(names, a) == names
  {
    if names != [] {
      WithoutAbsent(names[1..], a);
    }
  }

  lemma RemoveAbsent(preamble: seq<string>, names: seq<string>, a: string)
    requires Preamble(preamble) && Foreign(preamble, a) && Labels(names) && a !in names
    ensures RemoveListener(Manifest(preamble, names), a) == None
  {
    var ls := preamble + Blocks(names);
    ManifestPlain(preamble, names);
    LinesUnlines(ls);
    NoMarkerAhead(preamble, names, a);
    forall k | 0 <= k < |ls + [""]| ensures !IsMarker((ls + [""])[k], a) {
      if k < |ls| {
        assert ls[k] in ls;
      } else {
        TrimRightIsPrefix("", ' ');
      }
    }
    NoMarker(ls + [""], a);
  }

  lemma Cut(pre: seq<string>, block: seq<string>, post: seq<string>)
    ensures var lines := pre + (block + post);
            lines[..|pre|] == pre && lines[|pre| + |block|..] == post && lines[|lines|..] == []
  {
  }

  lemma RemoveFound(content: string, a: string, lines: seq<string>, n: nat, pre: seq<string>, post: seq<string>)
    requires Lines(content) == lines && Start(lines, a) == |pre| < |lines| && End(lines, |pre|) == n
    requires lines[..|pre|] == pre && lines[n..] == post
    ensures RemoveListener(content, a) == Some(Tidy(Join(pre + post)))
  {
  }

  lemma RemoveLast(content: string, pre: seq<string>, block: seq<string>, a: string)
    requires Findable(a) && IsBlock(block, a) && Lines(content) == pre + (block + [""])
    requires forall k :: 0 <= k < |pre| ==> !IsMarker(pre[k], a)
    ensures RemoveListener(content, a) == Some(Tidy(Join(pre + [])))
  {
    var lines := pre + (block + [""]);
    BlockFound(pre, block, [""], a);
    Cut(pre, block, [""]);
    RemoveFound(content, a, lines, |lines|, pre, []);
  }

  lemma FoundInner(pre: seq<string>, block: seq<string>, post: seq<string>, a: string)
    requires Findable(a) && IsBlock(block, a)
    requires forall k :: 0 <= k < |pre| ==> !IsMarker(pre[k], a)
    requires post != [] && Ends(post[0], 4)
    ensures var lines := pre + (block + post);
            Start(lines, a) == |pre| && End(lines, |pre|) == |pre| + |block|
  {
    BlockFound(pre, block, post, a);
    assert post[0] != "";
  }

  lemma RemoveInner(content: string, pre: seq<string>, block: seq<string>, post: seq<string>, a: string)
    requires Findable(a) && IsBlock(block, a) && Lines(content) == pre + (block + post)
    requires forall k :: 0 <= k < |pre| ==> !IsMarker(pre[k], a)
    requires post != [] && Ends(post[0], 4)
    ensures RemoveListener(content, a) == Some(Tidy(Join(pre + post)))
  {
    FoundInner(pre, block, post, a);
    Cut(pre, block, post);
    RemoveFound(content, a, pre + (block + post), |pre| + |block|, pre, post);
  }

  lemma SplitText(pre: seq<string>, block: seq<string>, rest: seq<string>)
    requires forall l :: l in pre + (block + rest) ==> OneLine(l)
    ensures Lines(Unlines(pre + (block + rest))) == pre + (block + (rest + [""]))
  {
    LinesUnlines(pre + (block + rest));
    Associative(block, rest, [""]);
    Associative(pre, block + rest, [""]);
  }

  /** Taking a block out of a text whose lines before it hold no marker of it, and that goes on with a listener or not
      at all. */
  lemma RemoveMiddle(pre: seq<string>, block: seq<string>, rest: seq<string>, a: string)
    requires pre != [] && Findable(a) && IsBlock(block, a) && Trimmed(Unlines(pre + rest))
    requires forall l :: l in pre + (block + rest) ==> OneLine(l)
    requires forall l :: l in pre ==> !IsMarker(l, a)
    requires rest == [] || Ends(rest[0], 4)
    ensures RemoveListener(Unlines(pre + (block + rest)), a) == Some(Unlines(pre + rest))
  {
    SplitText(pre, block, rest);
    if rest == [] {
      assert rest + [""] == [""];
      RemoveLast(Unlines(pre + (block + rest)), pre, block, a);
    } else {
      RemoveInner(Unlines(pre + (block + rest)), pre, block, rest + [""], a);
    }
    TidyEither(pre, rest);
  }

  /** The rewritten text ends in one newline, whether or not the last line kept was the empty one after it. */
  lemma TidyEither(pre: seq<string>, rest: seq<string>)
    requires pre != [] && Trimmed(Unlines(pre + rest))
    ensures rest == [] ==> Tidy(Join(pre + [])) == Unlines(pre + rest)
    ensures Tidy(Join(pre + (rest + [""]))) == Unlines(pre + rest)
  {
    Associative(pre, rest, [""]);
    JoinIsUnlines(pre + rest);
    TidyTrimmed(Unlines(pre + rest));
    assert pre + [] == pre;
    if rest == [] {
      TidyIsIdentity(Join(pre));
    }
  }

  lemma TidyTrimmed(s: string)
    requires Trimmed(s)
    ensures Tidy(s) == s
  {
    assert s[|s| - 1..] == "\n";
    assert s[..|s| - 1] + "\n" == s;
  }

  lemma NextListener(names: seq<string>)
    requires Labels(names)
    ensures names == [] || Ends(Blocks(names)[0], 4)
  {
    if names != [] {
      ListenerIsBlock(Listener(names[0]), names[0]);
      LabelFindable(names[0]);
      MarkerIsMarker(names[0]);
      MarkerLine(Marker(names[0]), names[0]);
    }
  }

  lemma RemovePresent(preamble: seq<string>, front: seq<string>, a: string, back: seq<string>)
    requires Preamble(preamble) && Foreign(preamble, a) && Labels(front + ([a] + back)) && a !in front
    ensures RemoveListener(Manifest(preamble, front + ([a] + back)), a) == Some(Manifest(preamble, front + back))
  {
    assert Label(a) && Labels(front) && Labels(back) by {
      assert a in front + ([a] + back);
    }
    ManifestPlain(preamble, front + ([a] + back));
    ManifestCut(preamble, front, [a] + back);
    BlocksAppend([a], back);
    BlocksOne(a);
    ManifestCut(preamble, front, back);
    ManifestTrimmed(preamble, front + back);
    ListenerIsBlock(Listener(a), a);
    LabelFindable(a);
    NoMarkerAhead(preamble, front, a);
    NextListener(back);
    RemoveMiddle(preamble + Blocks(front), Block(a), Blocks(back), a);
  }

  lemma RemoveRefines(preamble: seq<string>, names: seq<string>, a: string)
    requires Preamble(preamble) && Foreign(preamble, a) && Labels(names)
    ensures Applied(Manifest(preamble, names), ChangeOf(Remove(a)))
            == Manifest(preamble, ListStep(preamble, names, Remove(a)))
  {
    if a in names {
      var i := SplitAtName(names, a);
      assert names == names[..i] + ([a] + names[i + 1..]);
      RemovePresent(preamble, names[..i], a, names[i + 1..]);
    } else {
      WithoutAbsent(names, a);
      RemoveAbsent(preamble, names, a);
    }
  }

  // ---- Runs -----------------------------------------------------------------------------

  ghost predicate LabelOps(ops: seq<Op>) { forall op :: op in ops ==> Label(op.app) }

  /** Nothing of the fixed part is removed by name. */
  ghost predicate FixedStays(preamble: seq<string>, ops: seq<Op>) {
    forall op :: op in ops && op.Remove? ==> Foreign(preamble, op.app)
  }

  lemma AddedName(preamble: seq<string>, names: seq<string>, a: string)
    requires Labels(names) && Label(a)
    ensures Labels(ListStep(preamble, names, Add(a)))
    ensures NoDuplicates(names) ==> NoDuplicates(ListStep(preamble, names, Add(a)))
  {
    if a in names { assert Shadows(a, a); }
  }

  lemma RemovedName(preamble: seq<string>, names: seq<string>, a: string)
    requires Labels(names) && Label(a)
    ensures Labels(ListStep(preamble, names, Remove(a)))
    ensures NoDuplicates(names) ==> NoDuplicates(ListStep(preamble, names, Remove(a)))
  {
    if a in names {
      var i := SplitAtName(names, a);
    } else {
      WithoutAbsent(names, a);
    }
  }

  lemma StepRefines(preamble: seq<string>, names: seq<string>, op: Op)
    requires Preamble(preamble) && Labels(names) && Label(op.app) && (op.Remove? ==> Foreign(preamble, op.app))
    ensures Applied(Manifest(preamble, names), ChangeOf(op)) == Manifest(preamble, ListStep(preamble, names, op))
    ensures Labels(ListStep(preamble, names, op))
    ensures NoDuplicates(names) ==> NoDuplicates(ListStep(preamble, names, op))
  {
    match op
    case Add(a) =>
      AddRefines(preamble, names, a);
      AddedName(preamble, names, a);
    case Remove(a) =>
      RemoveRefines(preamble, names, a);
      RemovedName(preamble, names, a);
  }

  /** Over any run of changes that removes no listener of the fixed part, the manifest is exactly the fixed part
      followed by the blocks of the abstract list, and no listener of the list is ever there twice. */
  lemma {:induction false} RunRefines(preamble: seq<string>, names: seq<string>, ops: seq<Op>)
    requires Preamble(preamble) && FixedStays(preamble, ops) && Labels(names) && LabelOps(ops) && NoDuplicates(names)
    ensures FileRun(Manifest(preamble, names), ops) == Manifest(preamble, ListRun(preamble, names, ops))
    ensures NoDuplicates(ListRun(preamble, names, ops))
    decreases |ops|
  {
    if ops != [] {
      StepRefines(preamble, names, ops[0]);
      RunRefines(preamble, ListStep(preamble, names, ops[0]), ops[1..]);
    }
  }

  // ---- When the list is simply the set of the added names ------------------------------------

  /** No name is found in another's block: none extends another, and none is an "https-..." of another. */
  ghost predicate Independent(names: set<string>) {
    forall a, b :: a in names && b in names && Shadows(a, b) ==> a == b
  }

  /** The names that are in after a run: those whose last operation was an Add. */
  function SetRun(names: set<string>, ops: seq<Op>): set<string>
    decreases |ops|
  {
    if ops == [] then names
    else SetRun(if ops[0].Add? then names + {ops[0].app} else names - {ops[0].app}, ops[1..])
  }

  function Members(names: seq<string>): set<string> { set n | n in names }

  /** No name can be mistaken for anything in the fixed part, nor for another. */
  ghost predicate Separate(preamble: seq<string>, universe: set<string>) {
    Independent(universe) && forall a :: a in universe ==> !Mentions(preamble, a)
  }

  lemma SetStep(preamble: seq<string>, names: seq<string>, op: Op, universe: set<string>)
    requires Separate(preamble, universe) && Members(names) <= universe && op.app in universe && NoDuplicates(names)
    ensures Members(ListStep(preamble, names, op)) ==
              if op.Add? then Members(names) + {op.app} else Members(names) - {op.app}
    ensures NoDuplicates(ListStep(preamble, names, op))
  {
    match op
    case Add(a) =>
      if Hidden(preamble, names, a) {
        var b :| b in names && Shadows(a, b);
        assert b in Members(names) && a == b;
      } else {
        assert Shadows(a, a);
      }
    case Remove(a) =>
      if a in names {
        var i := SplitAtName(names, a);
        assert names == names[..i] + ([a] + names[i + 1..]);
        assert a !in names[i + 1..];
      } else {
        WithoutAbsent(names, a);
      }
  }

  ghost predicate Over(universe: set<string>, ops: seq<Op>) { forall op :: op in ops ==> op.app in universe }

  lemma {:induction false} SeparateRun(preamble: seq<string>, names: seq<string>, ops: seq<Op>, universe: set<string>)
    requires Separate(preamble, universe) && Members(names) <= universe && NoDuplicates(names) && Over(universe, ops)
    ensures Members(ListRun(preamble, names, ops)) == SetRun(Members(names), ops)
    decreases |ops|
  {
    if ops != [] {
      SetStep(preamble, names, ops[0], universe);
      SeparateRun(preamble, ListStep(preamble, names, ops[0]), ops[1..], universe);
    }
  }

  /** After every run over the names, the listed ones are those whose last change was an Add. */
  ghost predicate ListsTheAdded(preamble: seq<string>, universe: set<string>) {
    forall ops :: Over(universe, ops) ==> Members(ListRun(preamble, [], ops)) == SetRun({}, ops)
  }

  lemma TwoOps(preamble: seq<string>, first: Op, second: Op)
    ensures ListRun(preamble, [], [first, second]) == ListStep(preamble, ListStep(preamble, [], first), second)
    ensures first.Add? && second.Add? ==> SetRun({}, [first, second]) == {first.app, second.app}
  {
    var ops := [first, second];
    assert ops[1..] == [second] && ops[1..][1..] == [];
    var one := ListStep(preamble, [], first);
    assert ListRun(preamble, one, [second]) == ListRun(preamble, ListStep(preamble, one, second), []);
    assert {} + {first.app} == {first.app};
    assert first.Add? ==> SetRun({}, ops) == SetRun({first.app}, [second]);
    assert first.Add? && second.Add? ==> SetRun({first.app}, [second]) == SetRun({first.app} + {second.app}, []);
  }

  /** An addition is lost if the name is mentioned in the fixed part, or found in the block of one added before. */
  lemma AdditionLost(preamble: seq<string>, universe: set<string>, a: string, b: string)
    requires a in universe && b in universe && Hidden(preamble, [b], a)
    requires if a == b then Mentions(preamble, a) else !Mentions(preamble, b)
    ensures !ListsTheAdded(preamble, universe)
  {
    var ops := [Add(b), Add(a)];
    TwoOps(preamble, Add(b), Add(a));
    assert [] + [b] == [b];
    assert Over(universe, ops);
    assert a in SetRun({}, ops) && a !in Members(ListRun(preamble, [], ops));
  }

  /** The listed names are those whose last change was an addition, in every run over the names, exactly if no name can
      be mistaken for anything in the fixed part or for another name. */
  lemma ListsTheAddedExactly(preamble: seq<string>, universe: set<string>)
    ensures ListsTheAdded(preamble, universe) <==> Separate(preamble, universe)
  {
    if Separate(preamble, universe) {
      forall ops | Over(universe, ops) ensures Members(ListRun(preamble, [], ops)) == SetRun({}, ops) {
        assert Members([]) == {};
        SeparateRun(preamble, [], ops, universe);
      }
    } else if exists a :: a in universe && Mentions(preamble, a) {
      var a :| a in universe && Mentions(preamble, a);
      AdditionLost(preamble, universe, a, a);
    } else {
      var a, b :| a in universe && b in universe && Shadows(a, b) && a != b;
      assert b in [b];
      AdditionLost(preamble, universe, a, b);
    }
  }

  lemma UnmentionedIsForeign(preamble: seq<string>, a: string)
    requires !Mentions(preamble, a)
    ensures Foreign(preamble, a)
  {
    forall l | l in preamble && IsMarker(l, a) ensures Contains(l, Marker(a)) { IsMarkerContains(l, a); }
  }

  /** The same of the file: then it holds, after its fixed part, a block exactly for the names whose last change was an
      Add. */
  lemma ListenersAreTheAddedNames(preamble: seq<string>, ops: seq<Op>, universe: set<string>)
    returns (names: seq<string>)
    requires Preamble(preamble) && LabelOps(ops) && Separate(preamble, universe) && Over(universe, ops)
    ensures FileRun(Manifest(preamble, []), ops) == Manifest(preamble, names)
    ensures Members(names) == SetRun({}, ops) && NoDuplicates(names)
  {
    names := ListRun(preamble, [], ops);
    forall op | op in ops && op.Remove? ensures Foreign(preamble, op.app) { UnmentionedIsForeign(preamble, op.app); }
    RunRefines(preamble, [], ops);
    ListsTheAddedExactly(preamble, universe);
  }
}
