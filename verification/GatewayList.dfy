/** The manifest as an ordered list of listeners: a fixed part, which may hold listeners of its own written in any other
    way, followed by the blocks of the listeners the tool added. */
module GatewayList {
  import opened Text
  import opened Gateway
  import opened GatewayFrame

  /** The characters of a DNS label. */
  predicate Label(app: string) {
    forall i :: 0 <= i < |app| ==> 'a' <= app[i] <= 'z' || '0' <= app[i] <= '9' || app[i] == '-'
  }

  /** The listener the tool adds for an application. */
  function Listener(app: string): ListenerData {
    ListenerData("https-" + app, 443, app + ".atlas", app + "-cert")
  }

  function Block(app: string): seq<string> { ListenerLines(Listener(app)) }

  function Blocks(names: seq<string>): seq<string> {
    if names == [] then [] else Block(names[0]) + Blocks(names[1..])
  }

  function Manifest(preamble: seq<string>, names: seq<string>): string {
    Unlines(preamble + Blocks(names))
  }

  /** The fixed part of the manifest: neither its first nor its last line is empty. */
  predicate Preamble(ls: seq<string>) {
    && ls != [] && ls[0] != "" && ls[|ls| - 1] != ""
    && (forall l :: l in ls ==> OneLine(l))
  }

  /** The text search for listener `a` hits the fixed part. */
  predicate Mentions(preamble: seq<string>, a: string) { exists l :: l in preamble && Contains(l, Marker(a)) }

  /** The fixed part has no listener of that very name. */
  predicate Foreign(preamble: seq<string>, a: string) { forall l :: l in preamble ==> !IsMarker(l, a) }

  // ---- Which lines of a block a marker is found in -----------------------------------

  /** The text search for listener `a` hits the block of listener `b`. */
  predicate Shadows(a: string, b: string) { a <= b || "https-" + a <= b + "-cert" }

  lemma NoBlankInLabel(app: string, suffix: string)
    requires Label(app) && ' ' !in suffix && '\n' !in suffix
    ensures ' ' !in app + suffix && OneLine(app + suffix)
  {
  }

  lemma NameLineOnly(pad: string, rest: string, x: string)
    requires |pad| >= 4 && (forall i :: 0 <= i < |pad| ==> pad[i] == ' ') && ' ' !in rest
    requires Contains(pad + "- name: " + rest, "    - name: " + x)
    ensures x <= rest
  {
    var line, m := pad + "- name: " + rest, "    - name: " + x;
    var i: nat :| i <= |line| && At(line, m, i);
    DashAfterBlanks(pad, rest, m, i);
    assert line[i..i + |m|][12..] == x;
    assert x == line[|pad| + 8..|pad| + 8 + |x|];
    assert line[|pad| + 8..] == rest;
  }

  lemma NameLineThere(pad: string, rest: string, x: string)
    requires |pad| >= 4 && (forall i :: 0 <= i < |pad| ==> pad[i] == ' ') && x <= rest
    ensures Contains(pad + "- name: " + rest, "    - name: " + x)
  {
    var line, m, i := pad + "- name: " + rest, "    - name: " + x, |pad| - 4;
    assert line[i..i + |m|] == m by {
      assert line[i..] == "    - name: " + rest;
      assert ("    - name: " + rest)[..|m|] == m;
    }
    assert At(line, m, i);
  }

  /** Where "    - name: x" can stand in a line "    ...- name: rest". */
  lemma NameLine(pad: string, rest: string, x: string)
    requires |pad| >= 4 && (forall i :: 0 <= i < |pad| ==> pad[i] == ' ') && ' ' !in rest
    ensures Contains(pad + "- name: " + rest, "    - name: " + x) <==> x <= rest
  {
    if Contains(pad + "- name: " + rest, "    - name: " + x) { NameLineOnly(pad, rest, x); }
    if x <= rest { NameLineThere(pad, rest, x); }
  }

  lemma DashAfterBlanks(pad: string, rest: string, m: string, i: nat)
    requires |pad| >= 4 && (forall i :: 0 <= i < |pad| ==> pad[i] == ' ') && ' ' !in rest
    requires |m| >= 5 && m[..5] == "    -" && At(pad + "- name: " + rest, m, i)
    ensures i + 4 == |pad|
  {
    var line := pad + "- name: " + rest;
    assert line[i..i + |m|] == m;
    assert line[i + 4] == m[4] == '-' && line[i + 3] == m[3] == ' ' && line[i + 2] == m[2] == ' ';
    OneDashAfterBlanks(pad, rest, i + 4);
  }

  lemma OneDashAfterBlanks(pad: string, rest: string, p: nat)
    requires |pad| >= 4 && (forall i :: 0 <= i < |pad| ==> pad[i] == ' ') && ' ' !in rest
    ensures var line := pad + "- name: " + rest;
            2 <= p < |line| && line[p] == '-' && line[p - 1] == ' ' && line[p - 2] == ' ' ==> p == |pad|
  {
    var line := pad + "- name: " + rest;
    var k := p - |pad|;
    if 0 < k < 8 {
      assert line[p] == "- name: "[k];
    } else if k == 8 {
      assert line[p - 2] == "- name: "[6];
    } else if 8 < k < 8 + |rest| {
      assert line[p - 1] == rest[k - 9];
    }
  }

  lemma MarkerHasDash(line: string, a: string, i: nat)
    ensures At(line, Marker(a), i) ==> i + 4 < |line| && line[i + 4] == '-' && line[i + 3] == ' '
  {
    if At(line, Marker(a), i) {
      assert line[i..i + |Marker(a)|][4] == '-' && line[i..i + |Marker(a)|][3] == ' ';
    }
  }

  /** A marker is not found where a dash never follows a blank. */
  lemma NoMarkerWithoutDash(line: string, a: string)
    requires forall i :: 0 < i < |line| && line[i] == '-' ==> line[i - 1] != ' '
    ensures !Contains(line, Marker(a))
  {
    forall i: nat | i <= |line| ensures !At(line, Marker(a), i) {
      MarkerHasDash(line, a, i);
    }
  }

  lemma HostnameLine(host: string, a: string)
    requires ' ' !in host
    ensures !Contains("      hostname: \"" + host + "\"", Marker(a))
  {
    var line := "      hostname: \"" + host + "\"";
    forall i | 0 < i < |line| && line[i] == '-' ensures line[i - 1] != ' ' {
      if i < 17 {
        assert line[i] == "      hostname: \""[i];
      } else if i == 17 {
        assert line[16] == '"';
      } else if i < 17 + |host| {
        assert line[i - 1] == host[i - 18];
      }
    }
    NoMarkerWithoutDash(line, a);
  }

  /** Exactly two lines of a block can be hit: its marker and its certificate's name. */
  lemma BlockHit(a: string, b: string)
    requires Label(a) && Label(b)
    ensures (exists l :: l in Block(b) && Contains(l, Marker(a))) <==> Shadows(a, b)
  {
    var ls := Block(b);
    NoBlankInLabel(b, ".atlas");
    NoBlankInLabel(b, "-cert");
    HostnameLine(b + ".atlas", a);
    assert ls[3] == "      hostname: \"" + (b + ".atlas") + "\"";
    MarkerLineHit(a, b);
    CertLineHit(a, b);
    PortLine(a);
    ConstantLines(a);
    assert ls == [ls[0], ls[1], ls[2], ls[3], ls[4], ls[5], ls[6], ls[7], ls[8], ls[9], ls[10]];
  }

  lemma MarkerLineHit(a: string, b: string)
    requires Label(b)
    ensures Contains("    - name: " + ("https-" + b), Marker(a)) <==> a <= b
  {
    assert Marker(a) == "    - name: " + ("https-" + a);
    assert "    - name: " + ("https-" + b) == "    " + "- name: " + ("https-" + b);
    NoBlankInLabel(b, "");
    assert ' ' !in "https-" + b;
    NameLine("    ", "https-" + b, "https-" + a);
    assert a == ("https-" + a)[6..] && b == ("https-" + b)[6..];
  }

  lemma CertLineHit(a: string, b: string)
    requires Label(b)
    ensures Contains("          - name: " + (b + "-cert"), Marker(a)) <==> "https-" + a <= b + "-cert"
  {
    assert Marker(a) == "    - name: " + ("https-" + a);
    assert "          - name: " + (b + "-cert") == "          " + "- name: " + (b + "-cert");
    NoBlankInLabel(b, "-cert");
    NameLine("          ", b + "-cert", "https-" + a);
  }

  lemma PortLine(a: string)
    ensures !Contains("      port: " + Decimal(443), Marker(a))
  {
    var line := "      port: " + Decimal(443);
    forall i | 0 <= i < |line| ensures line[i] != '-' {
      if i >= 12 { assert line[i] in Decimal(443); }
    }
    NoMarkerWithoutDash(line, a);
  }

  lemma ConstantLines(a: string)
    ensures !Contains("      protocol: HTTPS", Marker(a)) && !Contains("      allowedRoutes:", Marker(a))
    ensures !Contains("        namespaces:", Marker(a)) && !Contains("          from: All", Marker(a))
    ensures !Contains("      tls:", Marker(a)) && !Contains("        mode: Terminate", Marker(a))
    ensures !Contains("        certificateRefs:", Marker(a))
  {
    NoMarkerWithoutDash("      protocol: HTTPS", a);
    NoMarkerWithoutDash("      allowedRoutes:", a);
    NoMarkerWithoutDash("        namespaces:", a);
    NoMarkerWithoutDash("          from: All", a);
    NoMarkerWithoutDash("      tls:", a);
    NoMarkerWithoutDash("        mode: Terminate", a);
    NoMarkerWithoutDash("        certificateRefs:", a);
  }

  // ---- The manifest -------------------------------------------------------------------

  lemma {:induction false} BlocksAppend(a: seq<string>, b: seq<string>)
    ensures Blocks(a + b) == Blocks(a) + Blocks(b)
  {
    if a == [] {
      assert a + b == b;
    } else {
      assert (a + b)[1..] == a[1..] + b;
      BlocksAppend(a[1..], b);
      assert Block(a[0]) + (Blocks(a[1..]) + Blocks(b)) == (Block(a[0]) + Blocks(a[1..])) + Blocks(b);
    }
  }

  lemma BlocksOne(a: string)
    ensures Blocks([a]) == Block(a)
  {
    assert [a][1..] == [];
  }

  lemma {:induction false} InBlocks(names: seq<string>, l: string)
    ensures l in Blocks(names) <==> exists b :: b in names && l in Block(b)
  {
    if names != [] {
      InBlocks(names[1..], l);
      assert names == [names[0]] + names[1..];
    }
  }

  lemma BlockPlain(app: string)
    requires Label(app)
    ensures forall l :: l in Block(app) ==> OneLine(l)
  {
    ListenerLinesPlain(Listener(app));
  }

  ghost predicate Labels(names: seq<string>) { forall b :: b in names ==> Label(b) }

  lemma ManifestPlain(preamble: seq<string>, names: seq<string>)
    requires Preamble(preamble) && Labels(names)
    ensures forall l :: l in preamble + Blocks(names) ==> OneLine(l)
  {
    forall l | l in preamble + Blocks(names) ensures OneLine(l) {
      InBlocks(names, l);
      if l !in preamble {
        var b :| b in names && l in Block(b);
        BlockPlain(b);
      }
    }
  }

  /** What the text search really answers: whether the fixed part mentions the listener or some listener of the list is
      shadowed. */
  lemma HasIsShadowing(preamble: seq<string>, names: seq<string>, a: string)
    requires Preamble(preamble) && Labels(names) && Label(a)
    ensures HasListener(Manifest(preamble, names), a) <==>
              Mentions(preamble, a) || exists b :: b in names && Shadows(a, b)
  {
    NoBlankInLabel(a, "");
    assert OneLine(Marker(a));
    ContainsUnlines(preamble + Blocks(names), Marker(a));
    if exists b :: b in names && Shadows(a, b) {
      var b :| b in names && Shadows(a, b);
      BlockHit(a, b);
      var l :| l in Block(b) && Contains(l, Marker(a));
      InBlocks(names, l);
      assert l in preamble + Blocks(names);
    }
    if Mentions(preamble, a) {
      var l :| l in preamble && Contains(l, Marker(a));
      assert l in preamble + Blocks(names);
    }
    if HasListener(Manifest(preamble, names), a) && !Mentions(preamble, a) {
      var l :| l in preamble + Blocks(names) && Contains(l, Marker(a));
      assert l in Blocks(names);
      InBlocks(names, l);
      var b :| b in names && l in Block(b);
      BlockHit(a, b);
    }
  }

  lemma {:induction false} UnlinesShape(ls: seq<string>)
    requires ls != []
    ensures var s := Unlines(ls); |s| >= |ls[0]| + 1 && s[..|ls[0]|] == ls[0] && s[|s| - 1] == '\n'
    ensures var s, last := Unlines(ls), ls[|ls| - 1];
            last != "" ==> |s| >= 2 && s[|s| - 2] == last[|last| - 1]
  {
    if |ls| == 1 {
      assert Unlines(ls) == ls[0] + "\n" + "";
    } else {
      UnlinesShape(ls[1..]);
      var rest := Unlines(ls[1..]);
      assert Unlines(ls) == (ls[0] + "\n") + rest;
    }
  }

  lemma LastBlockLine(preamble: seq<string>, names: seq<string>)
    requires Preamble(preamble)
    ensures var ls := preamble + Blocks(names); ls[0] == preamble[0] && ls[|ls| - 1] != ""
  {
    if names != [] {
      var k := |names| - 1;
      assert names == names[..k] + [names[k]];
      BlocksAppend(names[..k], [names[k]]);
      BlocksOne(names[k]);
      assert |Block(names[k])| == 11;
      assert Block(names[k])[10] != "";
    }
  }

  lemma ManifestTrimmed(preamble: seq<string>, names: seq<string>)
    requires Preamble(preamble) && Labels(names)
    ensures Trimmed(Manifest(preamble, names))
  {
    var ls := preamble + Blocks(names);
    LastBlockLine(preamble, names);
    ManifestPlain(preamble, names);
    UnlinesShape(ls);
    assert ls[0] in ls && ls[|ls| - 1] in ls;
    assert Unlines(ls)[0] == ls[0][0];
  }
}
