/** The line editor for listeners of the shared gateway manifest: what appending,
    looking for and removing a listener do to the text of the file. */
module Gateway {
  import opened Wrappers
  import opened Text

  datatype ListenerData = ListenerData(name: string, port: nat, hostname: string, certName: string)

  function Decimal(n: nat): (s: string)
    ensures s != "" && forall c :: c in s ==> '0' <= c <= '9'
  {
    if n < 10 then ["0123456789"[n]] else Decimal(n / 10) + ["0123456789"[n % 10]]
  }

  predicate Digits(s: string) { forall i :: 0 <= i < |s| ==> '0' <= s[i] <= '9' }

  /** The number that a reader of the digits, from left to right, makes of them. */
  function Value(s: string): nat
    requires Digits(s)
  {
    if s == "" then 0 else 10 * Value(s[..|s| - 1]) + (s[|s| - 1] - '0') as nat
  }

  /** The numeral of `n`, without leading zeros. */
  predicate Numeral(s: string, n: nat) {
    && s != "" && Digits(s) && Value(s) == n
    && (s[0] == '0' ==> s == "0")
  }

  lemma {:induction false} DecimalIsNumeral(n: nat)
    ensures Numeral(Decimal(n), n)
  {
    var s := Decimal(n);
    DigitValue(n % 10);
    if n < 10 {
      assert s[..0] == "" && s == ["0123456789"[n]];
    } else {
      DecimalIsNumeral(n / 10);
      assert s[..|s| - 1] == Decimal(n / 10);
    }
  }

  lemma DigitValue(d: nat)
    requires d < 10
    ensures '0' <= "0123456789"[d] <= '9' && ("0123456789"[d] - '0') as nat == d
  {
  }

  lemma HttpsPort()
    ensures Decimal(443) == "443"
  {
    assert Decimal(4) == "4";
    assert Decimal(44) == "44";
  }

  /** listener.tmpl, line by line. */
  function ListenerLines(d: ListenerData): seq<string> {
    ["    - name: " + d.name,
     "      port: " + Decimal(d.port),
     "      protocol: HTTPS",
     "      hostname: \"" + d.hostname + "\"",
     "      allowedRoutes:",
     "        namespaces:",
     "          from: All",
     "      tls:",
     "        mode: Terminate",
     "        certificateRefs:",
     "          - name: " + d.certName]
  }

  /** The text of the file with the block of a listener at its end, after exactly one newline. */
  function WithBlock(content: string, name: string, port: string, hostname: string, certName: string): string {
    TrimRight(content, '\n') + "\n" + Unlines([
      "    - name: " + name,
      "      port: " + port,
      "      protocol: HTTPS",
      "      hostname: \"" + hostname + "\"",
      "      allowedRoutes:",
      "        namespaces:",
      "          from: All",
      "      tls:",
      "        mode: Terminate",
      "        certificateRefs:",
      "          - name: " + certName])
  }

  function RenderListener(d: ListenerData): string { Unlines(ListenerLines(d)) }

  function Marker(app: string): string { "    - name: https-" + app }

  predicate IsMarker(line: string, app: string) { TrimRight(line, ' ') == Marker(app) }

  /** countIndent */
  function Indent(line: string): int { |line| - |TrimLeft(line, ' ')| }

  // ---- What the three operations compute ----------------------------------------

  predicate HasListener(content: string, app: string) { Contains(content, Marker(app)) }

  function AppendListener(content: string, d: ListenerData): string {
    TrimRight(content, '\n') + "\n" + RenderListener(d)
  }

  /** The first line that is the listener's marker, or the number of lines. */
  function Start(lines: seq<string>, app: string): (i: nat)
    ensures i <= |lines|
  {
    if lines == [] || IsMarker(lines[0], app) then 0 else 1 + Start(lines[1..], app)
  }

  lemma {:induction false} StartIsFirst(lines: seq<string>, app: string)
    ensures forall k :: 0 <= k < Start(lines, app) ==> !IsMarker(lines[k], app)
    ensures Start(lines, app) < |lines| ==> IsMarker(lines[Start(lines, app)], app)
  {
    if lines != [] && !IsMarker(lines[0], app) { StartIsFirst(lines[1..], app); }
  }

  /** A line that ends the block of a listener whose marker is indented by `indent`. */
  predicate Ends(line: string, indent: int) { !Blank(line) && Indent(line) <= indent }

  /** How many of the leading lines still belong to the block. */
  function BlockLength(lines: seq<string>, indent: int): (n: nat)
    ensures n <= |lines|
  {
    if lines == [] || Ends(lines[0], indent) then 0 else 1 + BlockLength(lines[1..], indent)
  }

  lemma {:induction false} BlockEnds(lines: seq<string>, indent: int)
    ensures forall k :: 0 <= k < BlockLength(lines, indent) ==> !Ends(lines[k], indent)
    ensures BlockLength(lines, indent) < |lines| ==> Ends(lines[BlockLength(lines, indent)], indent)
  {
    if lines != [] && !Ends(lines[0], indent) { BlockEnds(lines[1..], indent); }
  }

  /** At most one leading newline goes, and exactly one trailing newline stays or is added. */
  function Tidy(s: string): string { TrimSuffix(TrimPrefix(s, "\n"), "\n") + "\n" }

  function End(lines: seq<string>, start: nat): (e: nat)
    requires start < |lines|
    ensures start < e <= |lines|
  {
    start + 1 + BlockLength(lines[start + 1..], Indent(lines[start]))
  }

  /** `None` when there is no such listener. */
  function RemoveListener(content: string, app: string): Option<string> {
    var lines := Lines(content);
    var start := Start(lines, app);
    if start == |lines| then None else Some(Tidy(Join(lines[..start] + lines[End(lines, start)..])))
  }

  // ---- The program ---------------------------------------------------------------

  lemma FirstMarker(lines: seq<string>, app: string, i: nat)
    requires i < |lines| && IsMarker(lines[i], app) && forall k :: 0 <= k < i ==> !IsMarker(lines[k], app)
    ensures Start(lines, app) == i
  {
    StartIsFirst(lines, app);
  }

  lemma NoMarker(lines: seq<string>, app: string)
    requires forall k :: 0 <= k < |lines| ==> !IsMarker(lines[k], app)
    ensures Start(lines, app) == |lines|
  {
    StartIsFirst(lines, app);
  }

  lemma FirstEnd(lines: seq<string>, indent: int, n: nat)
    requires n <= |lines| && forall k :: 0 <= k < n ==> !Ends(lines[k], indent)
    requires n < |lines| ==> Ends(lines[n], indent)
    ensures BlockLength(lines, indent) == n
  {
    BlockEnds(lines, indent);
  }

  lemma EndAt(lines: seq<string>, start: nat, e: nat)
    requires start < e <= |lines|
    requires forall k :: start < k < e ==> !Ends(lines[k], Indent(lines[start]))
    requires e < |lines| ==> Ends(lines[e], Indent(lines[start]))
    ensures End(lines, start) == e
  {
    FirstEnd(lines[start + 1..], Indent(lines[start]), e - start - 1);
  }

  lemma {:induction false} IndentIsNonnegative(line: string)
    ensures 0 <= Indent(line)
  {
    if line != [] && line[0] == ' ' {
      IndentIsNonnegative(line[1..]);
    }
  }

  datatype Change = Change(app: string, hostname: string, certName: string, add: bool)

  /** The gateway manifest on disk; `None` when it cannot be read. */
  class GatewayFile {
    var content: Option<string>

    constructor (content: Option<string>)
      ensures this.content == content
    {
      this.content := content;
    }

    /** The first loop of `RemoveListenerFromFile`. */
    static method FindStart(lines: seq<string>, app: string) returns (startIdx: int)
      ensures startIdx == if Start(lines, app) == |lines| then -1 else Start(lines, app)
    {
      var marker := Marker(app);
      startIdx := -1;
      for i := 0 to |lines|
        invariant startIdx == -1
        invariant forall k :: 0 <= k < i ==> !IsMarker(lines[k], app)
      {
        if TrimRight(lines[i], ' ') == marker {
          startIdx := i;
          FirstMarker(lines, app, i);
          return;
        }
      }
      NoMarker(lines, app);
    }

    /** Its second loop: the three-way test for the end of the block. */
    static method FindEnd(lines: seq<string>, startIdx: nat) returns (endIdx: nat)
      requires startIdx < |lines|
      ensures endIdx == End(lines, startIdx)
    {
      var indent := Indent(lines[startIdx]);
      IndentIsNonnegative(lines[startIdx]);
      endIdx := startIdx + 1;
      while endIdx < |lines|
        invariant startIdx < endIdx <= |lines|
        invariant forall k :: startIdx < k < endIdx ==> !Ends(lines[k], indent)
      {
        var line := lines[endIdx];
        TrimSpaceBlank(line);
        if TrimSpace(line) == "" {
          endIdx := endIdx + 1;
          continue;
        }
        var lineIndent := Indent(line);
        IndentIsNonnegative(line);
        if lineIndent <= indent && "-" <= TrimSpace(line) {
          break;
        }
        if lineIndent <= indent && lineIndent > 0 {
          break;
        }
        if lineIndent == 0 && TrimSpace(line) != "" {
          break;
        }
        endIdx := endIdx + 1;
      }
      EndAt(lines, startIdx, endIdx);
    }

    /** `RemoveListenerFromFile` */
    method Remove(app: string) returns (removed: bool, ok: bool)
      modifies this
      ensures ok <==> old(content).Some?
      ensures removed <==> ok && RemoveListener(old(content).value, app).Some?
      ensures content == if removed then RemoveListener(old(content).value, app) else old(content)
    {
      if content.None? {
        return false, false;
      }
      var lines := Lines(content.value);
      var startIdx := FindStart(lines, app);
      if startIdx == -1 {
        return false, true;
      }
      var endIdx := FindEnd(lines, startIdx);
      var result := lines[..startIdx] + lines[endIdx..];
      var output := Join(result);
      output := TrimPrefix(output, "\n");
      output := TrimSuffix(output, "\n") + "\n";
      content := Some(output);
      return true, true;
    }

    /** `HasListenerInFile`; an unreadable file has no listener. */
    method Has(app: string) returns (has: bool)
      ensures has <==> content.Some? && HasListener(content.value, app)
    {
      if content.None? {
        return false;
      }
      return Contains(content.value, Marker(app));
    }

    /** `AppendListenerToFile` */
    method Append(d: ListenerData) returns (ok: bool)
      modifies this
      ensures ok <==> old(content).Some?
      ensures content == if ok then Some(AppendListener(old(content).value, d)) else old(content)
      ensures ok ==>
                exists port ::
                  && Numeral(port, d.port)
                  && content == Some(WithBlock(old(content).value, d.name, port, d.hostname, d.certName))
    {
      var rendered := RenderListener(d);
      DecimalIsNumeral(d.port);
      if content.None? {
        return false;
      }
      content := Some(TrimRight(content.value, '\n') + "\n" + rendered);
      return true;
    }

    /** `ApplyGatewayListener` */
    method Apply(change: Change) returns (ok: bool)
      modifies this
      ensures ok <==> old(content).Some?
      ensures content == if ok then Some(Applied(old(content).value, change)) else old(content)
      ensures var name := "https-" + change.app;
              ok && change.add ==>
                content == if Contains(old(content).value, "    - name: " + name) then old(content)
                           else Some(WithBlock(old(content).value, name, "443", change.hostname, change.certName))
    {
      var listenerName := "https-" + change.app;
      HttpsPort();
      assert "    - name: " + listenerName == Marker(change.app);
      if change.add {
        var has := Has(change.app);
        if has {
          return true;
        }
        ok := Append(ListenerData(listenerName, 443, change.hostname, change.certName));
        return;
      }
      var removed;
      removed, ok := Remove(change.app);
    }
  }

  /** The text after one change. */
  function Applied(content: string, change: Change): string {
    if change.add then
      if HasListener(content, change.app) then content
      else AppendListener(content, ListenerData("https-" + change.app, 443, change.hostname, change.certName))
    else
      var r := RemoveListener(content, change.app);
      if r.Some? then r.value else content
  }
}
