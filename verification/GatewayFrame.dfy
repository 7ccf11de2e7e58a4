/** What removing a listener does to an arbitrary file, and that it undoes appending one. */
module GatewayFrame {
  import opened Wrappers
  import opened Text
  import opened Gateway

  /** The lines that satisfy `p`, in order. */
  function Filter(ls: seq<string>, p: string -> bool): seq<string> {
    if ls == [] then [] else (if p(ls[0]) then [ls[0]] else []) + Filter(ls[1..], p)
  }

  lemma {:induction false} FilterAppend(a: seq<string>, b: seq<string>, p: string -> bool)
    ensures Filter(a + b, p) == Filter(a, p) + Filter(b, p)
  {
    if a == [] {
      assert a + b == b;
    } else {
      assert (a + b)[1..] == a[1..] + b;
      FilterAppend(a[1..], b, p);
    }
  }

  lemma {:induction false} FilterNone(ls: seq<string>, p: string -> bool)
    requires forall k :: 0 <= k < |ls| ==> !p(ls[k])
    ensures Filter(ls, p) == []
  {
    if ls != [] {
      FilterNone(ls[1..], p);
    }
  }

  /** Tidying adds and removes empty lines only. */
  lemma TidyKeeps(s: string, p: string -> bool)
    requires !p("")
    ensures Filter(Lines(Tidy(s)), p) == Filter(Lines(s), p)
  {
    var a := TrimPrefix(s, "\n");
    if "\n" <= s {
      assert s == "" + "\n" + a;
      LinesAppend("", a);
      FilterAppend([""], Lines(a), p);
    }
    var b := TrimSuffix(a, "\n");
    assert b + "\n" == b + "\n" + "";
    LinesAppend(b, "");
    FilterAppend(Lines(b), [""], p);
    if HasSuffix(a, "\n") {
      assert a == b + "\n";
    }
  }

  /** Visible and not deeper than a listener of the manifest, so no part of a listener's block. */
  predicate Shallow(line: string) { !Blank(line) && Indent(line) <= 4 }

  /** From `lines` to `rest` the line at `start` goes, and nothing else of what `p` picks. */
  predicate LosesLine(lines: seq<string>, rest: seq<string>, start: nat, p: string -> bool) {
    && KeepsOthers(lines, rest, start, p)
    && Filter(lines, p)
       == Filter(lines[..start], p) + ((if p(lines[start]) then [lines[start]] else []) + Filter(lines[start + 1..], p))
  }

  predicate KeepsOthers(lines: seq<string>, rest: seq<string>, start: nat, p: string -> bool) {
    start < |lines| && Filter(rest, p) == Filter(lines[..start], p) + Filter(lines[start + 1..], p)
  }

  lemma {:induction false} TrimRightIsPrefix(s: string, c: char)
    ensures TrimRight(s, c) <= s
    ensures s != "" && s[|s| - 1] != c ==> TrimRight(s, c) == s
  {
    if s != [] && s[|s| - 1] == c {
      TrimRightIsPrefix(s[..|s| - 1], c);
    }
  }

  lemma IndentOfFour(line: string, rest: string)
    requires line == "    " + rest && rest != "" && rest[0] != ' '
    ensures Indent(line) == 4
  {
    assert line[1..] == "   " + rest;
    assert line[1..][1..] == "  " + rest;
    assert line[1..][1..][1..] == " " + rest;
    assert line[1..][1..][1..][1..] == rest;
    assert TrimLeft(rest, ' ') == rest;
    assert TrimLeft(line[1..][1..][1..], ' ') == rest;
    assert TrimLeft(line[1..][1..], ' ') == rest;
    assert TrimLeft(line[1..], ' ') == rest;
  }

  /** A marker line is a visible line indented by four. */
  lemma MarkerLine(line: string, app: string)
    requires IsMarker(line, app)
    ensures Shallow(line) && Indent(line) == 4
  {
    TrimRightIsPrefix(line, ' ');
    var m := Marker(app);
    assert m <= line;
    assert m[..5] == "    -";
    assert line[..5] == m[..5];
    assert line == "    " + line[4..] && line[4..][0] == '-';
    IndentOfFour(line, line[4..]);
    assert !IsSpace(line[4]);
  }

  /** Two different listeners never share a marker line. */
  lemma MarkersDiffer(line: string, a: string, b: string)
    requires IsMarker(line, a) && IsMarker(line, b)
    ensures a == b
  {
    assert a == Marker(a)[|Marker("")|..] && b == Marker(b)[|Marker("")|..];
  }

  function Markers(ls: seq<string>, app: string): nat { |Filter(ls, l => IsMarker(l, app))| }

  lemma RangeIsDeep(lines: seq<string>, app: string)
    requires Start(lines, app) < |lines|
    ensures
      var start := Start(lines, app);
      var end := End(lines, start);
      && start < end <= |lines|
      && IsMarker(lines[start], app) && Indent(lines[start]) == 4
      && (forall k :: start < k < end ==> Blank(lines[k]) || Indent(lines[k]) > 4)
      && (end < |lines| ==> Shallow(lines[end]))
  {
    var start := Start(lines, app);
    var end := End(lines, start);
    StartIsFirst(lines, app);
    BlockEnds(lines[start + 1..], Indent(lines[start]));
    MarkerLine(lines[start], app);
    forall k | start < k < end ensures Blank(lines[k]) || Indent(lines[k]) > 4 {
      assert lines[start + 1..][k - start - 1] == lines[k];
    }
    if end < |lines| {
      assert lines[start + 1..][end - start - 1] == lines[end];
    }
  }

  /** The removed lines are the marker and what follows it as long as it is blank or indented deeper than the marker. */
  lemma RemovedRange(content: string, app: string)
    requires RemoveListener(content, app).Some?
    ensures
      var lines := Lines(content);
      var start := Start(lines, app);
      && start < |lines|
      && var end := End(lines, start);
      && IsMarker(lines[start], app) && Indent(lines[start]) == 4
      && (forall k :: 0 <= k < start ==> !IsMarker(lines[k], app))
      && (forall k :: start < k < end ==> Blank(lines[k]) || Indent(lines[k]) > 4)
      && (end < |lines| ==> Shallow(lines[end]))
  {
    StartIsFirst(Lines(content), app);
    RangeIsDeep(Lines(content), app);
  }

  /** Every line outside that range that is not empty is still there, in order. */
  lemma RemovedLines(content: string, app: string, p: string -> bool)
    requires RemoveListener(content, app).Some? && !p("")
    ensures
      var lines := Lines(content);
      var start := Start(lines, app);
      Filter(Lines(RemoveListener(content, app).value), p)
          == Filter(lines[..start], p) + Filter(lines[End(lines, start)..], p)
  {
    var lines := Lines(content);
    var start := Start(lines, app);
    var kept := lines[..start] + lines[End(lines, start)..];
    TidyKeeps(Join(kept), p);
    FilterAppend(lines[..start], lines[End(lines, start)..], p);
    LinesOneLine(content);
    if kept == [] {
      assert Lines("") == [""];
      FilterNone([""], p);
      assert Filter(kept, p) == [];
    } else {
      LinesJoin(kept);
    }
  }

  lemma {:induction false} FilterSkip(lines: seq<string>, a: nat, b: nat, p: string -> bool)
    requires a <= b <= |lines| && forall k :: a <= k < b ==> !p(lines[k])
    ensures Filter(lines[a..], p) == Filter(lines[b..], p)
    decreases b - a
  {
    if a < b {
      FilterSkip(lines, a + 1, b, p);
      assert lines[a..][1..] == lines[a + 1..];
    }
  }

  lemma FilterSplit(lines: seq<string>, i: nat, p: string -> bool)
    requires i < |lines|
    ensures Filter(lines, p)
            == Filter(lines[..i], p) + ((if p(lines[i]) then [lines[i]] else []) + Filter(lines[i + 1..], p))
  {
    assert lines == lines[..i] + lines[i..];
    FilterAppend(lines[..i], lines[i..], p);
    assert lines[i..][1..] == lines[i + 1..];
  }

  /** A filter that sees only shallow lines sees nothing in the rest of a block. */
  lemma RestIsDeep(lines: seq<string>, app: string, p: string -> bool)
    requires Start(lines, app) < |lines|
    requires forall l :: p(l) ==> Shallow(l)
    ensures Filter(lines[Start(lines, app) + 1..], p) == Filter(lines[End(lines, Start(lines, app))..], p)
  {
    var start := Start(lines, app);
    RangeIsDeep(lines, app);
    FilterSkip(lines, start + 1, End(lines, start), p);
  }

  /** How a filter that sees nothing in the rest of a block sees the file without the block. */
  lemma SplitRest(content: string, app: string, p: string -> bool)
    requires RemoveListener(content, app).Some?
    requires forall l :: p(l) ==> Shallow(l)
    ensures KeepsOthers(Lines(content), Lines(RemoveListener(content, app).value), Start(Lines(content), app), p)
  {
    RestIsDeep(Lines(content), app, p);
    assert !p("");
    RemovedLines(content, app, p);
  }

  lemma LosesFrom(lines: seq<string>, rest: seq<string>, start: nat, p: string -> bool)
    requires KeepsOthers(lines, rest, start, p)
    ensures LosesLine(lines, rest, start, p)
    ensures |Filter(rest, p)| == |Filter(lines, p)| - (if p(lines[start]) then 1 else 0)
  {
    FilterSplit(lines, start, p);
  }

  /** Of the lines no block contains, exactly the marker goes; the others keep their order and their text. */
  lemma ShallowLinesSurvive(content: string, app: string)
    requires RemoveListener(content, app).Some?
    ensures LosesLine(Lines(content), Lines(RemoveListener(content, app).value), Start(Lines(content), app), Shallow)
    ensures Start(Lines(content), app) < |Lines(content)| && Shallow(Lines(content)[Start(Lines(content), app)])
  {
    SplitRest(content, app, Shallow);
    LosesFrom(Lines(content), Lines(RemoveListener(content, app).value), Start(Lines(content), app), Shallow);
    StartIsShallow(Lines(content), app);
  }

  lemma StartIsShallow(lines: seq<string>, app: string)
    requires Start(lines, app) < |lines|
    ensures Shallow(lines[Start(lines, app)]) && IsMarker(lines[Start(lines, app)], app)
  {
    StartIsFirst(lines, app);
    MarkerLine(lines[Start(lines, app)], app);
  }

  /** The listener is there one time less, and every other listener as often as before. */
  lemma MarkerCounts(content: string, app: string, other: string)
    requires RemoveListener(content, app).Some?
    ensures Markers(Lines(RemoveListener(content, app).value), other)
         == Markers(Lines(content), other) - (if other == app then 1 else 0)
  {
    var p, lines := l => IsMarker(l, other), Lines(content);
    forall l | p(l) ensures Shallow(l) { MarkerLine(l, other); }
    SplitRest(content, app, p);
    LosesFrom(lines, Lines(RemoveListener(content, app).value), Start(lines, app), p);
    MarkerAtStart(lines, app, other);
  }

  lemma MarkerAtStart(lines: seq<string>, app: string, other: string)
    requires Start(lines, app) < |lines|
    ensures IsMarker(lines[Start(lines, app)], other) <==> other == app
  {
    StartIsFirst(lines, app);
    var line := lines[Start(lines, app)];
    if IsMarker(line, other) { MarkersDiffer(line, app, other); }
  }

  // ---- Remove undoes Append ---------------------------------------------------------

  predicate Plain(d: ListenerData) {
    OneLine(d.name) && OneLine(d.hostname) && OneLine(d.certName)
  }

  lemma FirstLinesPlain(d: ListenerData, k: nat)
    requires Plain(d) && k < 5
    ensures OneLine(ListenerLines(d)[k])
  {
  }

  lemma LastLinesPlain(d: ListenerData, k: nat)
    requires Plain(d) && 5 <= k < 11
    ensures OneLine(ListenerLines(d)[k])
  {
  }

  lemma ListenerLinesPlain(d: ListenerData)
    requires Plain(d)
    ensures forall l :: l in ListenerLines(d) ==> OneLine(l)
  {
    forall k | 0 <= k < |ListenerLines(d)| ensures OneLine(ListenerLines(d)[k]) {
      if k < 5 { FirstLinesPlain(d, k); } else { LastLinesPlain(d, k); }
    }
  }

  /** All lines of a block but the first are visible and deeper than a listener. */
  lemma BlockIsDeep(d: ListenerData, k: nat)
    requires 1 <= k < |ListenerLines(d)|
    ensures Indent(ListenerLines(d)[k]) > 4
  {
    var line := ListenerLines(d)[k];
    assert line[..6] == "      ";
    IndentAtLeast(line, 6);
  }

  lemma {:induction false} IndentAtLeast(line: string, n: nat)
    requires n <= |line| && forall i :: 0 <= i < n ==> line[i] == ' '
    ensures Indent(line) >= n
  {
    if n > 0 {
      IndentAtLeast(line[1..], n - 1);
    } else {
      IndentIsNonnegative(line);
    }
  }

  /** A text that ends in exactly one newline and does not start with one. */
  predicate Trimmed(content: string) {
    |content| >= 2 && content[0] != '\n' && content[|content| - 1] == '\n' && content[|content| - 2] != '\n'
  }

  lemma AppendIsConcat(body: string, d: ListenerData)
    requires Trimmed(body + "\n")
    ensures AppendListener(body + "\n", d) == body + "\n" + Unlines(ListenerLines(d))
  {
    assert (body + "\n")[..|body|] == body;
    TrimRightIsPrefix(body, '\n');
  }

  lemma NoMarkerBefore(body: string, app: string)
    requires forall l :: l in Lines(body + "\n") ==> !IsMarker(l, app)
    ensures forall k :: 0 <= k < |Lines(body)| ==> !IsMarker(Lines(body)[k], app)
  {
    assert body + "\n" == body + "\n" + "";
    LinesAppend(body, "");
    forall k | 0 <= k < |Lines(body)| ensures !IsMarker(Lines(body)[k], app) {
      assert Lines(body)[k] in Lines(body + "\n");
    }
  }

  /** A block for a listener: its marker, then deeper lines. */
  ghost predicate IsBlock(block: seq<string>, app: string) {
    block != [] && block[0] == Marker(app) && forall k :: 1 <= k < |block| ==> Indent(block[k]) > 4
  }

  lemma ListenerIsBlock(d: ListenerData, app: string)
    requires d.name == "https-" + app
    ensures IsBlock(ListenerLines(d), app)
  {
    forall k | 1 <= k < |ListenerLines(d)| ensures Indent(ListenerLines(d)[k]) > 4 { BlockIsDeep(d, k); }
    assert "    - name: " + ("https-" + app) == Marker(app);
  }

  predicate Findable(app: string) { app == "" || app[|app| - 1] != ' ' }

  lemma MarkerIsMarker(app: string)
    requires Findable(app)
    ensures IsMarker(Marker(app), app)
  {
    TrimRightIsPrefix(Marker(app), ' ');
  }

  /** Where the first block of a listener starts and ends, if the text after it is a listener or nothing. */
  lemma BlockFound(pre: seq<string>, block: seq<string>, post: seq<string>, app: string)
    requires Findable(app) && IsBlock(block, app)
    requires forall k :: 0 <= k < |pre| ==> !IsMarker(pre[k], app)
    requires post != [] && (post == [""] || Ends(post[0], 4))
    ensures var lines := pre + (block + post);
            Start(lines, app) == |pre| && End(lines, |pre|) == |pre| + |block| + (if post == [""] then 1 else 0)
  {
    var lines := pre + (block + post);
    MarkerIsMarker(app);
    assert lines[|pre|] == block[0];
    FirstMarker(lines, app, |pre|);
    MarkerLine(lines[|pre|], app);
    var e := |pre| + |block| + (if post == [""] then 1 else 0);
    forall k | |pre| < k < e ensures !Ends(lines[k], 4) {
      if k < |pre| + |block| {
        assert lines[k] == block[k - |pre|];
      } else {
        assert lines[k] == "";
      }
    }
    EndAt(lines, |pre|, e);
  }

  lemma LinesOfBlock(body: string, block: seq<string>)
    requires forall l :: l in block ==> OneLine(l)
    ensures Lines(body + "\n" + Unlines(block)) == Lines(body) + (block + [""])
  {
    LinesAppend(body, Unlines(block));
    LinesUnlines(block);
  }

  lemma RemoveUndoesBlock(body: string, block: seq<string>, app: string)
    requires Trimmed(body + "\n") && IsBlock(block, app) && forall l :: l in block ==> OneLine(l)
    requires forall k :: 0 <= k < |Lines(body)| ==> !IsMarker(Lines(body)[k], app)
    ensures RemoveListener(body + "\n" + Unlines(block), app) == if Findable(app) then Some(body + "\n") else None
  {
    var pre := Lines(body);
    LinesOfBlock(body, block);
    var lines := pre + (block + [""]);
    if !Findable(app) {
      TrailingBlankHides(lines, app);
      NoMarker(lines, app);
    } else {
      BlockFound(pre, block, [""], app);
      assert lines[..|pre|] + lines[|lines|..] == pre;
      JoinLines(body);
      TidyIsIdentity(body);
    }
  }

  /** For every file that ends in exactly one newline and does not start with one, and has no line for the
      listener: appending it and removing it again gives back the same bytes, unless the name ends in a
      blank, in which case nothing is found to remove. */
  lemma RemoveUndoesAppend(content: string, app: string, hostname: string, certName: string, port: nat)
    requires Trimmed(content) && OneLine(app) && OneLine(hostname) && OneLine(certName)
    requires forall l :: l in Lines(content) ==> !IsMarker(l, app)
    ensures
      var d := ListenerData("https-" + app, port, hostname, certName);
      RemoveListener(AppendListener(content, d), app) == if Findable(app) then Some(content) else None
  {
    var d := ListenerData("https-" + app, port, hostname, certName);
    var body := content[..|content| - 1];
    assert content == body + "\n";
    AppendIsConcat(body, d);
    ListenerLinesPlain(d);
    ListenerIsBlock(d, app);
    NoMarkerBefore(body, app);
    RemoveUndoesBlock(body, ListenerLines(d), app);
  }

  lemma TidyIsIdentity(body: string)
    requires Trimmed(body + "\n")
    ensures Tidy(body) == body + "\n"
  {
    assert body[|body| - 1..] == [body[|body| - 1]];
  }

  lemma TrailingBlankHides(lines: seq<string>, app: string)
    requires !Findable(app)
    ensures forall k :: 0 <= k < |lines| ==> !IsMarker(lines[k], app)
  {
    forall k | 0 <= k < |lines| ensures !IsMarker(lines[k], app) {
      NeverEndsInBlank(lines[k]);
    }
  }

  lemma {:induction false} NeverEndsInBlank(s: string)
    ensures TrimRight(s, ' ') != "" ==> TrimRight(s, ' ')[|TrimRight(s, ' ')| - 1] != ' '
  {
    if s != [] && s[|s| - 1] == ' ' {
      NeverEndsInBlank(s[..|s| - 1]);
    }
  }
}
