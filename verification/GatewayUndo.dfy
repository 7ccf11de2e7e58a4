/** Exactly when removing a listener right after adding it gives back the text of the manifest. */
module GatewayUndo {
  import opened Wrappers
  import opened Text
  import opened Gateway
  import opened GatewayFrame
  import opened GatewayList
  import opened GatewayRuns

  /** The manifest after the listener was added, if the workload has a gateway, and removed. */
  function AddedAndRemoved(content: string, hasGateway: bool, app: string): string {
    Applied(if hasGateway then Applied(content, ChangeOf(Add(app))) else content, ChangeOf(Remove(app)))
  }

  /** If nothing is added, because there is no gateway or the listener seems to be there, no line may be the marker that
      is then removed; otherwise the text must end in exactly one newline and not start with one, or be just that. */
  predicate Undoable(content: string, hasGateway: bool, app: string) {
    if hasGateway && !HasListener(content, app)
    then Findable(app) && (Trimmed(content) || content == "\n")
    else forall l :: l in Lines(content) ==> !IsMarker(l, app)
  }

  // ---- Nothing was added ---------------------------------------------------------------------

  lemma RemovalShows(content: string, app: string)
    ensures Applied(content, ChangeOf(Remove(app))) == content <==>
              forall l :: l in Lines(content) ==> !IsMarker(l, app)
  {
    MarkerFound(Lines(content), app);
    if Start(Lines(content), app) < |Lines(content)| {
      MarkerCounts(content, app, app);
    }
  }

  lemma MarkerFound(lines: seq<string>, app: string)
    ensures Start(lines, app) == |lines| <==> forall l :: l in lines ==> !IsMarker(l, app)
  {
    StartIsFirst(lines, app);
    if forall l :: l in lines ==> !IsMarker(l, app) {
      forall k | 0 <= k < |lines| ensures !IsMarker(lines[k], app) { assert lines[k] in lines; }
      NoMarker(lines, app);
    }
    if Start(lines, app) == |lines| {
      forall l | l in lines ensures !IsMarker(l, app) {
        var k :| 0 <= k < |lines| && lines[k] == l;
      }
    }
  }

  // ---- Something was added -------------------------------------------------------------------

  lemma {:induction false} TrimmedTail(s: string)
    ensures var b := TrimRight(s, '\n');
            && b <= s && (b == "" || b[|b| - 1] != '\n')
            && forall i :: |b| <= i < |s| ==> s[i] == '\n'
  {
    if s != [] && s[|s| - 1] == '\n' {
      TrimmedTail(s[..|s| - 1]);
    }
  }

  lemma NoListenerNoMarker(content: string, app: string)
    requires !HasListener(content, app) && OneLine(app)
    ensures forall l :: l in Lines(content) ==> !IsMarker(l, app)
  {
    var ls := Lines(content);
    JoinLines(content);
    JoinIsUnlines(ls);
    ContainsUnlines(ls, Marker(app));
    ContainsAcross(content, "", Marker(app));
    assert content + "\n" + "" == Unlines(ls);
    forall l | l in ls && IsMarker(l, app) ensures Contains(l, Marker(app)) { IsMarkerContains(l, app); }
    assert !Contains("", Marker(app)) by {
      forall i: nat | i <= 0 ensures !At("", Marker(app), i) { }
    }
  }

  lemma ContainsPrefix(s: string, b: string, m: string)
    requires b <= s && Contains(b, m)
    ensures Contains(s, m)
  {
    var i: nat :| i <= |b| && At(b, m, i);
    assert s[i..i + |m|] == b[i..i + |m|];
    assert At(s, m, i);
  }

  /** What is left when the appended block is taken away again. */
  lemma BlockTaken(body: string, app: string)
    requires OneLine(app) && Findable(app) && !HasListener(body, app)
    ensures RemoveListener(body + "\n" + RenderListener(Listener(app)), app) == Some(Tidy(body))
  {
    var block := ListenerLines(Listener(app));
    AppNamesPlain(app);
    ListenerLinesPlain(Listener(app));
    ListenerIsBlock(Listener(app), app);
    LinesOfBlock(body, block);
    NoListenerNoMarker(body, app);
    forall k | 0 <= k < |Lines(body)| ensures !IsMarker(Lines(body)[k], app) { assert Lines(body)[k] in Lines(body); }
    RemoveLast(body + "\n" + RenderListener(Listener(app)), Lines(body), block, app);
    assert Lines(body) + [] == Lines(body);
    JoinLines(body);
  }

  lemma AppNamesPlain(app: string)
    requires OneLine(app)
    ensures OneLine("https-" + app) && OneLine(app + ".atlas") && OneLine(app + "-cert")
  {
  }

  /** The appended block is never removed if the name ends in a blank. */
  lemma BlockStays(body: string, app: string)
    requires !Findable(app)
    ensures var text := body + "\n" + RenderListener(Listener(app));
            RemoveListener(text, app) == None && HasListener(text, app)
  {
    var text := body + "\n" + RenderListener(Listener(app));
    TrailingBlankHides(Lines(text), app);
    NoMarker(Lines(text), app);
    ListenerIsBlock(Listener(app), app);
    MarkerAhead(body, Marker(app), ListenerLines(Listener(app)));
  }

  lemma MarkerAhead(body: string, m: string, block: seq<string>)
    requires block != [] && block[0] == m
    ensures Contains(body + "\n" + Unlines(block), m)
  {
    var i, rest := |body| + 1, "\n" + Unlines(block[1..]);
    var text := body + "\n" + Unlines(block);
    assert Unlines(block) == m + rest;
    assert text == (body + "\n") + (m + rest);
    assert text[i..i + |m|] == m;
    assert At(text, m, i);
  }

  lemma TidyOfTrimmed(b: string)
    requires b != "" ==> b[|b| - 1] != '\n'
    ensures Tidy(b) == (if b != "" && b[0] == '\n' then b[1..] else b) + "\n"
  {
    if b != "" { assert !HasSuffix(b, "\n") && (b[0] == '\n' ==> !HasSuffix(b[1..], "\n")); }
  }

  /** Tidying the text without its trailing newlines gives back the text. */
  lemma TidyBack(content: string)
    ensures Tidy(TrimRight(content, '\n')) == content <==> Trimmed(content) || content == "\n"
  {
    var b := TrimRight(content, '\n');
    TrimmedTail(content);
    TidyOfTrimmed(b);
    if b != "" && b[0] == '\n' {
      assert content[0] == '\n';
      assert |content| == |b| ==> content == b;
    } else if b != "" {
      assert content[0] == b[0];
      if |content| == |b| + 1 { assert content == b + "\n"; }
    }
  }

  lemma AdditionShows(content: string, app: string)
    requires OneLine(app) && !HasListener(content, app)
    ensures AddedAndRemoved(content, true, app) == content <==> Findable(app) && (Trimmed(content) || content == "\n")
  {
    var body := TrimRight(content, '\n');
    TrimmedTail(content);
    if HasListener(body, app) { ContainsPrefix(content, body, Marker(app)); }
    var text := body + "\n" + RenderListener(Listener(app));
    assert Applied(content, ChangeOf(Add(app))) == text;
    if Findable(app) {
      BlockTaken(body, app);
      TidyBack(content);
    } else {
      BlockStays(body, app);
    }
  }

  /** The text comes back exactly if it was undoable, which the caller can check beforehand. */
  lemma UndoneExactly(content: string, hasGateway: bool, app: string)
    requires OneLine(app)
    ensures AddedAndRemoved(content, hasGateway, app) == content <==> Undoable(content, hasGateway, app)
  {
    if hasGateway && !HasListener(content, app) {
      AdditionShows(content, app);
    } else {
      RemovalShows(content, app);
    }
  }

  // ---- The listeners of others ------------------------------------------------------------------

  lemma {:induction false} FilterTrimmed(s: string, p: string -> bool)
    requires !p("")
    ensures Filter(Lines(TrimRight(s, '\n')), p) == Filter(Lines(s), p)
  {
    if s != [] && s[|s| - 1] == '\n' {
      var front := s[..|s| - 1];
      FilterTrimmed(front, p);
      assert s == front + "\n" + "";
      LinesAppend(front, "");
      FilterAppend(Lines(front), [""], p);
    }
  }

  lemma AppendedMarkers(content: string, d: ListenerData, app: string, other: string)
    requires Plain(d) && d.name == "https-" + app && Findable(app)
    ensures Markers(Lines(AppendListener(content, d)), other)
            == Markers(Lines(content), other) + (if other == app then 1 else 0)
  {
    var p := l => IsMarker(l, other);
    var body, block := TrimRight(content, '\n'), ListenerLines(d);
    EmptyIsNoMarker(other);
    FilterTrimmed(content, p);
    ListenerLinesPlain(d);
    LinesOfBlock(body, block);
    FilterAppend(Lines(body), block + [""], p);
    FilterAppend(block, [""], p);
    ListenerIsBlock(d, app);
    BlockFilter(block, app, other);
  }

  lemma EmptyIsNoMarker(app: string)
    ensures !IsMarker("", app)
  {
    TrimRightIsPrefix("", ' ');
  }

  lemma BlockFilter(block: seq<string>, app: string, other: string)
    requires IsBlock(block, app) && Findable(app)
    ensures Markers(block, other) == if other == app then 1 else 0
  {
    var p := l => IsMarker(l, other);
    MarkerIsMarker(app);
    if IsMarker(block[0], other) { MarkersDiffer(block[0], app, other); }
    forall k | 0 <= k < |block[1..]| ensures !p(block[1..][k]) {
      assert block[1..][k] == block[k + 1];
      if IsMarker(block[k + 1], other) { MarkerLine(block[k + 1], other); }
    }
    FilterNone(block[1..], p);
  }

  /** A change adds or removes one marker of its own application at most, and none of any other: whatever the text of
      the manifest is. */
  lemma ListenersAfter(content: string, op: Op, other: string)
    requires OneLine(op.app) && Findable(op.app)
    ensures
      var before, after := Markers(Lines(content), other), Markers(Lines(Applied(content, ChangeOf(op))), other);
      after ==
        if other != op.app then before
        else if op.Add? then (if HasListener(content, op.app) then before else before + 1)
        else (if before == 0 then 0 else before - 1)
  {
    var app := op.app;
    match op
    case Add(_) =>
      AppNamesPlain(app);
      if !HasListener(content, app) { AppendedMarkers(content, Listener(app), app, other); }
    case Remove(_) =>
      MarkerFound(Lines(content), app);
      if Start(Lines(content), app) < |Lines(content)| {
        MarkerCounts(content, app, other);
        MarkerCounts(content, app, app);
      } else {
        forall k | 0 <= k < |Lines(content)| ensures !IsMarker(Lines(content)[k], app) {
          assert Lines(content)[k] in Lines(content);
        }
        FilterNone(Lines(content), l => IsMarker(l, app));
      }
  }
}
