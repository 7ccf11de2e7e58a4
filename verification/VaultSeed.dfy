/** Writing the secrets of a workload to Vault: the mapping file decides which variable goes to
    which key of which path, everything is checked before anything is written, and each path is
    written once. */
module VaultSeed {
  import opened Wrappers
  import opened Text
  import opened SeedFile

  datatype Mapping = Mapping(path: string, key: string, envVar: string, decodeB64: bool)

  type Secrets = map<string, map<string, string>>

  // ---- The mapping file ----------------------------------------------------------------

  /** The length of the leading run of characters that are not white space. */
  function WordLength(s: string): (n: nat)
    ensures n <= |s|
    ensures forall i :: 0 <= i < n ==> !IsSpace(s[i])
    ensures n < |s| ==> IsSpace(s[n])
  {
    if s == "" || IsSpace(s[0]) then 0 else 1 + WordLength(s[1..])
  }

  /** strings.Fields */
  function Fields(s: string): seq<string>
    decreases |s|
  {
    if s == "" then []
    else if IsSpace(s[0]) then Fields(s[1..])
    else [s[..WordLength(s)]] + Fields(s[WordLength(s)..])
  }

  function ParseEntry(line: string): Option<Mapping> {
    var l := TrimSpace(line);
    if l == "" || "#" <= l || |Fields(l)| != 2 then None
    else
      match Cut(Fields(l)[1])
      case None => None
      case Some((key, envVar)) => Some(Mapping(Fields(l)[0], key, envVar, HasSuffix(envVar, "_B64")))
  }

  function ParseLines(lines: seq<string>): seq<Mapping>
    decreases |lines|
  {
    if lines == [] then []
    else
      var rest := ParseLines(lines[1..]);
      match ParseEntry(lines[0])
      case None => rest
      case Some(e) => [e] + rest
  }

  datatype MappingFile = Missing | Unreadable | Content(text: string)

  function Parsed(file: MappingFile): Result<seq<Mapping>> {
    match file
    case Missing => Ok([])
    case Unreadable => Err
    case Content(text) =>
      match Scan(text)
      case Err => Err
      case Ok(lines) => Ok(ParseLines(lines))
  }

  lemma {:induction false} ParseSnoc(lines: seq<string>, line: string)
    ensures ParseLines(lines + [line])
            == ParseLines(lines) + (if ParseEntry(line).Some? then [ParseEntry(line).value] else [])
    decreases |lines|
  {
    if lines == [] {
      assert (lines + [line])[1..] == [];
    } else {
      assert (lines + [line])[1..] == lines[1..] + [line];
      ParseSnoc(lines[1..], line);
    }
  }

  /** One line; what is not an entry is passed over. */
  method ReadEntry(text: string) returns (entry: Option<Mapping>)
    ensures entry == ParseEntry(text)
  {
    var line := TrimSpace(text);
    if line == "" || "#" <= line {
      return None;
    }
    var fields := Fields(line);
    if |fields| != 2 {
      return None;
    }
    var vaultPath := fields[0];
    var kv := Cut(fields[1]);
    if kv.None? {
      return None;
    }
    var key, envVar := kv.value.0, kv.value.1;
    var decode := false;
    if HasSuffix(envVar, "_B64") {
      decode := true;
    }
    return Some(Mapping(vaultPath, key, envVar, decode));
  }

  method ParseMapping(file: MappingFile) returns (r: Result<seq<Mapping>>)
    ensures r == Parsed(file)
    ensures file.Missing? ==> r == Ok([])
    ensures file.Unreadable? || (file.Content? && exists l :: l in Lines(file.text) && !Fits(l)) ==> r == Err
  {
    if file.Missing? {
      return Ok([]);
    }
    if file.Unreadable? {
      return Err;
    }
    var scanned := Scan(file.text);
    if scanned.Err? {
      return Err;
    }
    var entries := ReadEntries(scanned.value);
    return Ok(entries);
  }

  method ReadEntries(lines: seq<string>) returns (entries: seq<Mapping>)
    ensures entries == ParseLines(lines)
  {
    entries := [];
    for i := 0 to |lines|
      invariant entries == ParseLines(lines[..i])
    {
      assert lines[..i + 1] == lines[..i] + [lines[i]];
      ParseSnoc(lines[..i], lines[i]);
      var entry := ReadEntry(lines[i]);
      if entry.Some? {
        entries := entries + [entry.value];
      }
    }
    assert lines[..|lines|] == lines;
  }

  predicate Word(s: string) { forall i :: 0 <= i < |s| ==> !IsSpace(s[i]) }

  /** An entry that can be written down. */
  predicate Writable(e: Mapping) {
    && Word(e.path) && e.path != "" && e.path[0] != '#'
    && Word(e.key) && '=' !in e.key && Word(e.envVar)
    && e.decodeB64 == HasSuffix(e.envVar, "_B64")
  }

  function EntryText(e: Mapping): string { e.path + " " + (e.key + "=" + e.envVar) }

  lemma WordIsItsLength(a: string, rest: string)
    requires Word(a) && (rest == "" || IsSpace(rest[0]))
    ensures WordLength(a + rest) == |a|
  {
    assert forall i :: 0 <= i < |a| ==> (a + rest)[i] == a[i];
    assert rest != "" ==> (a + rest)[|a|] == rest[0];
  }

  lemma TwoFields(a: string, b: string)
    requires Word(a) && Word(b) && a != "" && b != ""
    ensures Fields(a + " " + b) == [a, b]
  {
    var s := a + " " + b;
    assert s == a + (" " + b);
    WordIsItsLength(a, " " + b);
    assert s[0] == a[0];
    var rest := s[|a|..];
    assert rest == " " + b && rest[1..] == b && s[..|a|] == a;
    OneField(b);
  }

  lemma OneField(b: string)
    requires Word(b) && b != ""
    ensures Fields(b) == [b]
  {
    assert b + "" == b;
    WordIsItsLength(b, "");
    assert b[..|b|] == b && b[|b|..] == "";
  }

  /** What `seed-mapping.conf` says about an entry is what is read from its line. */
  lemma EntryRoundTrip(e: Mapping)
    requires Writable(e)
    ensures ParseEntry(EntryText(e)) == Some(e)
  {
    var kv := e.key + "=" + e.envVar;
    var line := EntryText(e);
    assert Word(kv);
    assert line == e.path + " " + kv;
    TwoFields(e.path, kv);
    WordsTrimmed(e.path, kv);
    CutAtFirst(e.key, e.envVar);
  }

  lemma WordsTrimmed(a: string, b: string)
    requires Word(a) && Word(b) && a != "" && b != ""
    ensures var line := a + " " + b; line[0] == a[0] && TrimSpace(line) == line
  {
    var line := a + " " + b;
    assert line[|line| - 1] == b[|b| - 1];
    TrimSpaceNothing(line);
  }

  /** Blanks, as an editor leaves them around the words of a line. */
  predicate Gap(s: string) { forall i :: 0 <= i < |s| ==> s[i] in {' ', '\t', '\r'} }

  lemma {:induction false} TrimLeftGap(gap: string, rest: string)
    requires Gap(gap) && rest != "" && !IsSpace(rest[0])
    ensures TrimSpaceLeft(gap + rest) == rest
  {
    if gap == "" {
      assert gap + rest == rest;
    } else {
      assert (gap + rest)[0] == gap[0] && (gap + rest)[1..] == gap[1..] + rest;
      TrimLeftGap(gap[1..], rest);
    }
  }

  lemma {:induction false} TrimRightGap(rest: string, gap: string)
    requires Gap(gap) && rest != "" && !IsSpace(rest[|rest| - 1])
    ensures TrimSpaceRight(rest + gap) == rest
  {
    if gap == "" {
      assert rest + gap == rest;
    } else {
      var n := |gap| - 1;
      assert (rest + gap)[|rest + gap| - 1] == gap[n] && (rest + gap)[..|rest + gap| - 1] == rest + gap[..n];
      TrimRightGap(rest, gap[..n]);
    }
  }

  lemma {:induction false} FieldAfterGap(gap: string, b: string)
    requires Gap(gap) && Word(b) && b != ""
    ensures Fields(gap + b) == [b]
    decreases |gap|
  {
    if gap == "" {
      assert gap + b == b;
      OneField(b);
    } else {
      assert (gap + b)[0] == gap[0] && (gap + b)[1..] == gap[1..] + b;
      FieldAfterGap(gap[1..], b);
    }
  }

  lemma FieldsApart(a: string, gap: string, b: string)
    requires Word(a) && Word(b) && a != "" && b != "" && Gap(gap) && gap != ""
    ensures Fields(a + (gap + b)) == [a, b]
  {
    var s := a + (gap + b);
    WordIsItsLength(a, gap + b);
    assert s[0] == a[0] && s[..|a|] == a && s[|a|..] == gap + b;
    FieldAfterGap(gap, b);
  }

  /** The same entry is read however its two words are set apart and indented. */
  lemma LooseEntry(e: Mapping, before: string, gap: string, after: string)
    requires Writable(e) && Gap(before) && Gap(gap) && Gap(after) && gap != ""
    ensures ParseEntry(before + (e.path + (gap + (e.key + "=" + e.envVar)) + after)) == Some(e)
  {
    var kv := e.key + "=" + e.envVar;
    var words := e.path + (gap + kv);
    assert Word(kv) && words[0] == e.path[0] && words[|words| - 1] == kv[|kv| - 1];
    assert (words + after)[0] == words[0];
    TrimLeftGap(before, words + after);
    TrimRightGap(words, after);
    FieldsApart(e.path, gap, kv);
    CutAtFirst(e.key, e.envVar);
  }

  // ---- Grouping the values by path ---------------------------------------------------------

  /** What an entry writes; `None` when its variable is undefined or cannot be decoded. */
  function ValueOf(e: Mapping, env: map<string, string>, decode: string -> Option<string>): Option<string> {
    if e.envVar !in env then None
    else if e.decodeB64 then decode(env[e.envVar])
    else Some(env[e.envVar])
  }

  /** The variable is undefined, or cannot be decoded although it is meant to be. */
  predicate IsBad(e: Mapping, env: map<string, string>, decode: string -> Option<string>) {
    e.envVar !in env || (e.decodeB64 && decode(env[e.envVar]) == None)
  }

  /** The value of the variable, decoded if it is meant to be. */
  predicate HasValue(e: Mapping, env: map<string, string>, decode: string -> Option<string>, value: string) {
    e.envVar in env && if e.decodeB64 then decode(env[e.envVar]) == Some(value) else env[e.envVar] == value
  }

  function Put(byPath: Secrets, path: string, key: string, value: string): Secrets {
    byPath[path := (if path in byPath then byPath[path] else map[])[key := value]]
  }

  function Grouped(entries: seq<Mapping>, env: map<string, string>, decode: string -> Option<string>): Option<Secrets>
    decreases |entries|
  {
    if entries == [] then Some(map[])
    else
      var e := entries[|entries| - 1];
      match (Grouped(entries[..|entries| - 1], env, decode), ValueOf(e, env, decode))
      case (Some(byPath), Some(value)) => Some(Put(byPath, e.path, e.key, value))
      case _ => None
  }

  predicate Names(e: Mapping, path: string, key: string) { e.path == path && e.key == key }

  /** Nothing is grouped exactly when some entry has no value. */
  lemma {:induction false} GroupedIsChecked(entries: seq<Mapping>, env: map<string, string>,
                                            decode: string -> Option<string>)
    ensures Grouped(entries, env, decode) == None <==> exists e :: e in entries && IsBad(e, env, decode)
    decreases |entries|
  {
    if entries != [] {
      var n := |entries| - 1;
      var last := entries[n];
      GroupedIsChecked(entries[..n], env, decode);
      assert entries == entries[..n] + [last];
      assert IsBad(last, env, decode) <==> ValueOf(last, env, decode) == None;
      if e :| e in entries && IsBad(e, env, decode) { assert e in entries[..n] || e == last; }
      if IsBad(last, env, decode) { assert last in entries; }
      if e :| e in entries[..n] && IsBad(e, env, decode) { assert e in entries; }
    }
  }

  predicate NamesPath(entries: seq<Mapping>, path: string) { exists i :: 0 <= i < |entries| && entries[i].path == path }

  predicate NamesKey(entries: seq<Mapping>, path: string, key: string) {
    exists i :: 0 <= i < |entries| && Names(entries[i], path, key)
  }

  lemma NamesLast(entries: seq<Mapping>, path: string, key: string)
    requires entries != []
    ensures var n := |entries| - 1;
            && (NamesPath(entries, path) <==> NamesPath(entries[..n], path) || entries[n].path == path)
            && (NamesKey(entries, path, key) <==> NamesKey(entries[..n], path, key) || Names(entries[n], path, key))
  {
    var n := |entries| - 1;
    assert forall i :: 0 <= i < n ==> entries[..n][i] == entries[i];
  }

  /** Exactly the paths and keys that some entry names are there. */
  lemma {:induction false} GroupedPlaces(entries: seq<Mapping>, env: map<string, string>,
                                         decode: string -> Option<string>, path: string, key: string)
    requires Grouped(entries, env, decode).Some?
    ensures var byPath := Grouped(entries, env, decode).value;
            && (path in byPath <==> NamesPath(entries, path))
            && (path in byPath && key in byPath[path] <==> NamesKey(entries, path, key))
            && (path in byPath ==> byPath[path] != map[])
    decreases |entries|
  {
    if entries != [] {
      var n := |entries| - 1;
      GroupedPlaces(entries[..n], env, decode, path, key);
      NamesLast(entries, path, key);
      var e := entries[n];
      PutPlaces(Grouped(entries[..n], env, decode).value, e.path, e.key, ValueOf(e, env, decode).value, path, key);
    }
  }

  lemma PutPlaces(before: Secrets, path: string, key: string, value: string, path': string, key': string)
    ensures var after := Put(before, path, key, value);
            && (path' in after <==> path' in before || path' == path)
            && (path' in after && key' in after[path'] <==>
                 (path' in before && key' in before[path']) || (path' == path && key' == key))
            && ((path' in before ==> before[path'] != map[]) && path' in after ==> after[path'] != map[])
  {
    assert key in Put(before, path, key, value)[path];
  }

  /** Each key holds the value of the last entry that names it. */
  lemma {:induction false} LastEntryWins(entries: seq<Mapping>, env: map<string, string>,
                                         decode: string -> Option<string>, i: nat)
    requires Grouped(entries, env, decode).Some? && i < |entries|
    requires DecidesPlace(entries, i)
    ensures var byPath, e := Grouped(entries, env, decode).value, entries[i];
            && e.path in byPath && e.key in byPath[e.path]
            && HasValue(e, env, decode, byPath[e.path][e.key])
    decreases |entries|
  {
    var n := |entries| - 1;
    if i < n {
      assert !Names(entries[n], entries[i].path, entries[i].key);
      LastEntryWins(entries[..n], env, decode, i);
    }
  }

  /** No later entry names the same place. */
  predicate DecidesPlace(entries: seq<Mapping>, i: nat)
    requires i < |entries|
  {
    forall j :: i < j < |entries| ==> !(entries[j].path == entries[i].path && entries[j].key == entries[i].key)
  }

  /** Every place that is named holds the value of the last entry that names it, a path that is named holds nothing but
      named keys, and no other path has changed. */
  ghost predicate Holds(before: Secrets, after: Secrets, entries: seq<Mapping>, env: map<string, string>,
                        decode: string -> Option<string>)
  {
    && (forall i: nat :: i < |entries| && DecidesPlace(entries, i) ==>
          var e := entries[i];
          e.path in after && e.key in after[e.path] && HasValue(e, env, decode, after[e.path][e.key]))
    && (forall path, key ::
          path in after && key in after[path] && NamesPath(entries, path) ==> NamesKey(entries, path, key))
    && (forall path :: !NamesPath(entries, path) ==>
          (path in after <==> path in before) && (path in before ==> after[path] == before[path]))
  }

  lemma GroupedHolds(before: Secrets, entries: seq<Mapping>, env: map<string, string>, decode: string -> Option<string>)
    requires Grouped(entries, env, decode).Some?
    ensures Holds(before, before + Grouped(entries, env, decode).value, entries, env, decode)
  {
    var after := before + Grouped(entries, env, decode).value;
    forall i: nat | i < |entries| && DecidesPlace(entries, i)
      ensures var e := entries[i];
              e.path in after && e.key in after[e.path] && HasValue(e, env, decode, after[e.path][e.key])
    {
      LastEntryWins(entries, env, decode, i);
    }
    forall path, key | path in after && key in after[path] && NamesPath(entries, path)
      ensures NamesKey(entries, path, key)
    {
      GroupedPlaces(entries, env, decode, path, key);
    }
    forall path | !NamesPath(entries, path)
      ensures (path in after <==> path in before) && (path in before ==> after[path] == before[path])
    {
      GroupedPlaces(entries, env, decode, path, "");
    }
  }

  /** The checking loop of `WriteVault`. */
  method Group(entries: seq<Mapping>, env: map<string, string>, decode: string -> Option<string>)
    returns (r: Option<Secrets>)
    ensures r == Grouped(entries, env, decode)
  {
    var byPath: Secrets := map[];
    for i := 0 to |entries|
      invariant Grouped(entries[..i], env, decode) == Some(byPath)
    {
      var e := entries[i];
      assert entries[..i + 1][..i] == entries[..i] && entries[..i + 1][i] == e;
      if e.envVar !in env {
        UndefinedStops(entries, env, decode, i);
        return None;
      }
      var value := env[e.envVar];
      if e.decodeB64 {
        var decoded := decode(value);
        if decoded.None? {
          UndefinedStops(entries, env, decode, i);
          return None;
        }
        value := decoded.value;
      }
      ghost var before := byPath;
      if e.path !in byPath {
        byPath := byPath[e.path := map[]];
      }
      byPath := byPath[e.path := byPath[e.path][e.key := value]];
      assert byPath == Put(before, e.path, e.key, value);
    }
    assert entries[..|entries|] == entries;
    return Some(byPath);
  }

  lemma UndefinedStops(entries: seq<Mapping>, env: map<string, string>, decode: string -> Option<string>, i: nat)
    requires i < |entries| && IsBad(entries[i], env, decode)
    ensures Grouped(entries, env, decode) == None
  {
    GroupedIsChecked(entries, env, decode);
    assert entries[i] in entries;
  }

  // ---- Without a mapping file ------------------------------------------------------------------

  function LowerChar(c: char): char { if 'A' <= c <= 'Z' then c - 'A' + 'a' else c }

  function ToLower(s: string): string {
    if s == "" then "" else [LowerChar(s[0])] + ToLower(s[1..])
  }

  lemma {:induction false} LowerAt(s: string)
    ensures |ToLower(s)| == |s|
    ensures forall i :: 0 <= i < |s| ==>
              ToLower(s)[i] == if 'A' <= s[i] <= 'Z' then (s[i] as int + 32) as char else s[i]
  {
    if s != "" { LowerAt(s[1..]); }
  }

  /** What is not an entry: blank lines, comments, lines that are not two words, and words without an "=". */
  lemma NoEntry(line: string)
    ensures TrimSpace(line) == "" ==> ParseEntry(line) == None
    ensures TrimSpace(line) != "" && TrimSpace(line)[0] == '#' ==> ParseEntry(line) == None
    ensures |Fields(TrimSpace(line))| != 2 ==> ParseEntry(line) == None
    ensures |Fields(TrimSpace(line))| == 2 && '=' !in Fields(TrimSpace(line))[1] ==> ParseEntry(line) == None
  {
    var l := TrimSpace(line);
    if |Fields(l)| == 2 { CutSplits(Fields(l)[1]); }
    if l != "" && l[0] == '#' { assert "#" <= l; }
  }

  /** The extra secrets over the standard ones, in the order the map yields them. */
  function Merge(data: map<string, string>, order: seq<string>, extra: map<string, string>): map<string, string>
    requires forall k :: k in order ==> k in extra
    decreases |order|
  {
    if order == [] then data
    else
      var k := order[|order| - 1];
      Merge(data, order[..|order| - 1], extra)[ToLower(k) := extra[k]]
  }

  ghost predicate OrderIrrelevant(data: map<string, string>, extra: map<string, string>) {
    forall a, b :: Enumerates(a, extra.Keys) && Enumerates(b, extra.Keys) ==>
          Merge(data, a, extra) == Merge(data, b, extra)
  }

  /** Two secrets whose names differ in case only, with different values. */
  ghost predicate Clash(extra: map<string, string>) {
    exists k, l :: k in extra && l in extra && ToLower(k) == ToLower(l) && extra[k] != extra[l]
  }

  predicate Merged(order: seq<string>, name: string) { exists i :: 0 <= i < |order| && ToLower(order[i]) == name }

  /** The standard secrets stay unless an extra one takes their place. */
  lemma {:induction false} MergeAt(data: map<string, string>, order: seq<string>, extra: map<string, string>,
                                   name: string)
    requires forall k :: k in order ==> k in extra
    ensures var m := Merge(data, order, extra);
            && (name in m <==> name in data || Merged(order, name))
            && (name in m && !Merged(order, name) ==> m[name] == data[name])
    decreases |order|
  {
    if order != [] {
      var n := |order| - 1;
      MergeAt(data, order[..n], extra, name);
      assert Merged(order, name) <==> Merged(order[..n], name) || ToLower(order[n]) == name;
    }
  }

  lemma {:induction false} MergeValue(data: map<string, string>, order: seq<string>, extra: map<string, string>, i: nat)
    requires !Clash(extra) && i < |order| && forall k :: k in order ==> k in extra
    ensures var m := Merge(data, order, extra); ToLower(order[i]) in m && m[ToLower(order[i])] == extra[order[i]]
    decreases |order|
  {
    var n := |order| - 1;
    if i < n {
      MergeValue(data, order[..n], extra, i);
    }
  }

  lemma NoClashNoOrder(data: map<string, string>, a: seq<string>, b: seq<string>, extra: map<string, string>)
    requires !Clash(extra) && Enumerates(a, extra.Keys) && Enumerates(b, extra.Keys)
    ensures Merge(data, a, extra) == Merge(data, b, extra)
  {
    var m, n := Merge(data, a, extra), Merge(data, b, extra);
    forall name ensures (name in m <==> name in n) && (name in m && name in n ==> m[name] == n[name]) {
      MergeAt(data, a, extra, name);
      MergeAt(data, b, extra, name);
      MergedAlike(a, b, extra.Keys, name);
      if Merged(a, name) {
        SameMerged(data, a, b, extra, name);
      }
    }
  }

  lemma SameMerged(data: map<string, string>, a: seq<string>, b: seq<string>, extra: map<string, string>, name: string)
    requires !Clash(extra) && Enumerates(a, extra.Keys) && Enumerates(b, extra.Keys) && Merged(a, name)
    ensures var m, n := Merge(data, a, extra), Merge(data, b, extra);
            name in m && name in n && m[name] == n[name]
  {
    var i :| 0 <= i < |a| && ToLower(a[i]) == name;
    assert a[i] in a && a[i] in extra.Keys && a[i] in b;
    var k :| 0 <= k < |b| && b[k] == a[i];
    MergeValue(data, a, extra, i);
    MergeValue(data, b, extra, k);
  }

  lemma MergedAlike(a: seq<string>, b: seq<string>, keys: set<string>, name: string)
    requires Enumerates(a, keys) && Enumerates(b, keys)
    ensures Merged(a, name) <==> Merged(b, name)
  {
    if Merged(a, name) {
      var i :| 0 <= i < |a| && ToLower(a[i]) == name;
      assert a[i] in keys && a[i] in b;
    }
    if Merged(b, name) {
      var i :| 0 <= i < |b| && ToLower(b[i]) == name;
      assert b[i] in keys && b[i] in a;
    }
  }

  lemma Last(keys: set<string>, k: string) returns (order: seq<string>)
    requires k in keys
    ensures Enumerates(order, keys) && order != [] && order[|order| - 1] == k
  {
    var rest := Enumeration(keys - {k});
    order := rest + [k];
  }

  /** Without a mapping file, what is written depends on the order of the map exactly when two secrets clash. */
  lemma ExtraSecretsClash(data: map<string, string>, extra: map<string, string>)
    ensures OrderIrrelevant(data, extra) <==> !Clash(extra)
  {
    if !Clash(extra) {
      forall a, b | Enumerates(a, extra.Keys) && Enumerates(b, extra.Keys)
        ensures Merge(data, a, extra) == Merge(data, b, extra)
      {
        NoClashNoOrder(data, a, b, extra);
      }
    } else {
      var k, l :| k in extra && l in extra && ToLower(k) == ToLower(l) && extra[k] != extra[l];
      var a := Last(extra.Keys, k);
      var b := Last(extra.Keys, l);
      assert Merge(data, a, extra)[ToLower(k)] == extra[k];
      assert Merge(data, b, extra)[ToLower(k)] == extra[l];
    }
  }

  // ---- Writing --------------------------------------------------------------------------------

  function Standard(p: Params, group: string, app: string, redisPass: string): map<string, string> {
    map["db_username" := app, "db_password" := p.dbPassword, "db_host" := "production-db-rw.database.svc.cluster.local",
        "db_port" := "5432", "db_name" := app, "s3_access_key" := p.s3AccessKey, "s3_secret_key" := p.s3SecretKey,
        "s3_endpoint" := "http://minio.minio.svc.cluster.local:9000", "s3_bucket" := "workloads/" + group + "/" + app,
        "redis_password" := redisPass, "redis_host" := "redis-master.redis.svc.cluster.local", "redis_port" := "6379"]
  }

  /** What has been written while the paths in `todo` have not. */
  function Done(byPath: Secrets,
                todo: set<string>): Secrets { map path | path in byPath && path !in todo :: byPath[path] }

  function Others(order: seq<string>): set<string>
    requires order != []
  {
    set i | 0 <= i < |order| - 1 :: order[i]
  }

  /** The paths were written in this order: on success all of them, on failure up to the last, which may or may not hold
      its new values. */
  ghost predicate GroupsWritten(before: Secrets, after: Secrets, byPath: Secrets, order: seq<string>, ok: bool) {
    && (forall i, j :: 0 <= i < j < |order| ==> order[i] != order[j])
    && (forall path :: path in order ==> path in byPath)
    && (ok ==> Enumerates(order, byPath.Keys) && after == before + byPath)
    && (!ok ==>
          && order != []
          && var last := order[|order| - 1];
          && (after == before + Done(byPath, byPath.Keys - Others(order))
              || after == (before + Done(byPath, byPath.Keys - Others(order)))[last := byPath[last]]))
  }

  lemma DoneOneMore(before: Secrets, byPath: Secrets, todo: set<string>, path: string)
    requires path in todo && path in byPath
    ensures (before + Done(byPath, todo))[path := byPath[path]] == before + Done(byPath, todo - {path})
  {
  }

  /** The key-value store, and the paths written to it so far. A call that reports an error may have been carried out.
      */
  class Vault {
    var secrets: Secrets
    ghost var writes: seq<string>

    constructor (secrets: Secrets)
      ensures this.secrets == secrets && writes == []
    {
      this.secrets, writes := secrets, [];
    }

    method KVPut(path: string, data: map<string, string>) returns (ok: bool)
      modifies this
      ensures data == map[] ==> !ok && secrets == old(secrets) && writes == old(writes)
      ensures data != map[] ==> writes == old(writes) + [path]
      ensures ok ==> secrets == old(secrets)[path := data]
      ensures !ok ==> secrets == old(secrets) || secrets == old(secrets)[path := data]
    {
      if data == map[] {
        return false;
      }
      var applied: bool := *;
      ok := *;
      ok := ok && applied;
      writes := writes + [path];
      if applied {
        secrets := secrets[path := data];
      }
    }

    /** The paths that were reached hold their new values, except perhaps the last, if its write failed; no other path
        changes. */
    method WriteGroups(byPath: Secrets) returns (ok: bool, ghost order: seq<string>)
      requires forall path :: path in byPath ==> byPath[path] != map[]
      modifies this
      ensures writes == old(writes) + order
      ensures GroupsWritten(old(secrets), secrets, byPath, order, ok)
    {
      var todo := byPath.Keys;
      ok, order := true, [];
      while todo != {}
        invariant todo <= byPath.Keys
        invariant writes == old(writes) + order
        invariant forall path :: path in order <==> path in byPath && path !in todo
        invariant forall i, j :: 0 <= i < j < |order| ==> order[i] != order[j]
        invariant secrets == old(secrets) + Done(byPath, todo)
      {
        var path :| path in todo;
        DoneOneMore(old(secrets), byPath, todo, path);
        ok := KVPut(path, byPath[path]);
        ghost var written := order;
        order := written + [path];
        if !ok {
          assert Others(order) == byPath.Keys - todo by { assert order[..|order| - 1] == written; }
          assert byPath.Keys - Others(order) == todo;
          return;
        }
        todo := todo - {path};
      }
      assert Done(byPath, todo) == byPath;
    }

    /** The secrets of a mapping: nothing is written unless all of them have a value. */
    method WriteMapping(entries: seq<Mapping>, env: map<string, string>, decode: string -> Option<string>)
      returns (ok: bool, ghost order: seq<string>)
      modifies this
      ensures match Grouped(entries, env, decode)
              case None => !ok && secrets == old(secrets) && writes == old(writes)
              case Some(byPath) =>
                && writes == old(writes) + order
                && GroupsWritten(old(secrets), secrets, byPath, order, ok)
      ensures (exists e :: e in entries && IsBad(e, env, decode)) ==>
                !ok && secrets == old(secrets) && writes == old(writes)
      ensures ok ==> Holds(old(secrets), secrets, entries, env, decode)
    {
      GroupedIsChecked(entries, env, decode);
      var byPath := Group(entries, env, decode);
      if byPath.None? {
        return false, [];
      }
      GroupedHolds(secrets, entries, env, decode);
      forall path | path in byPath.value ensures byPath.value[path] != map[] {
        GroupedPlaces(entries, env, decode, path, "");
      }
      ok, order := WriteGroups(byPath.value);
    }

    /** `WriteVault`; `redisPass` is what reading the cluster's Redis password gives. */
    method WriteVault(p: Params, group: string, app: string, redisPass: Option<string>, file: MappingFile,
                      decode: string -> Option<string>) returns (ok: bool, ghost order: seq<string>)
      modifies this
      ensures redisPass.None? || file.Unreadable? || Parsed(file).Err? ==>
                !ok && secrets == old(secrets) && writes == old(writes)
      ensures redisPass.Some? && Parsed(file).Ok? && Parsed(file).value != [] ==>
                match Grouped(Parsed(file).value, p.rawEnv, decode)
                case None => !ok && secrets == old(secrets) && writes == old(writes)
                case Some(byPath) =>
                  && writes == old(writes) + order
                  && GroupsWritten(old(secrets), secrets, byPath, order, ok)
      ensures Parsed(file).Ok? && (exists e :: e in Parsed(file).value && IsBad(e, p.rawEnv, decode)) ==>
                !ok && secrets == old(secrets) && writes == old(writes)
      ensures ok && Parsed(file).Ok? && Parsed(file).value != [] ==>
                Holds(old(secrets), secrets, Parsed(file).value, p.rawEnv, decode)
      ensures redisPass.Some? && (file.Missing? || Parsed(file) == Ok([])) ==>
                && Enumerates(order, p.extraSecrets.Keys)
                && var data := Merge(Standard(p, group, app, redisPass.value), order, p.extraSecrets);
                && writes == old(writes) + ["secret/workloads/" + group + "/" + app]
                && (ok ==> secrets == old(secrets)["secret/workloads/" + group + "/" + app := data])
                && (!ok ==> || secrets == old(secrets)
                            || secrets == old(secrets)["secret/workloads/" + group + "/" + app := data])
    {
      order := [];
      var vaultPath := "secret/workloads/" + group + "/" + app;
      if redisPass.None? {
        return false, [];
      }
      var data;
      data, order := StandardData(p, group, app, redisPass.value);
      var entries := ParseMapping(file);
      if entries.Err? {
        return false, order;
      }
      if |entries.value| > 0 {
        ok, order := WriteMapping(entries.value, p.rawEnv, decode);
        return;
      }
      ok := KVPut(vaultPath, data);
    }
  }

  method StandardData(p: Params, group: string, app: string, redisPass: string)
    returns (data: map<string, string>, ghost order: seq<string>)
    ensures Enumerates(order, p.extraSecrets.Keys) && data != map[]
    ensures data == Merge(Standard(p, group, app, redisPass), order, p.extraSecrets)
  {
    data, order := AddExtras(Standard(p, group, app, redisPass), p.extraSecrets);
    assert "db_host" in Standard(p, group, app, redisPass);
    MergeNotEmpty(Standard(p, group, app, redisPass), order, p.extraSecrets);
  }

  /** The secrets that are not standard, in lower case. */
  method AddExtras(standard: map<string, string>, extra: map<string, string>)
    returns (data: map<string, string>, ghost order: seq<string>)
    ensures Enumerates(order, extra.Keys) && data == Merge(standard, order, extra)
  {
    data, order := standard, [];
    var todo := extra.Keys;
    while todo != {}
      invariant todo <= extra.Keys
      invariant Enumerates(order, extra.Keys - todo)
      invariant data == Merge(standard, order, extra)
    {
      var k :| k in todo;
      data := data[ToLower(k) := extra[k]];
      assert (order + [k])[..|order|] == order;
      order := order + [k];
      todo := todo - {k};
    }
  }

  /** The standard secrets, each of which is written unless an extra secret of that name takes its place. */
  lemma StandardSecrets(p: Params, group: string, app: string, redisPass: string, order: seq<string>, name: string)
    requires (forall k :: k in order ==> k in p.extraSecrets) && !Merged(order, name)
    ensures var data := Merge(Standard(p, group, app, redisPass), order, p.extraSecrets);
            && (name in {"db_username", "db_name"} ==> name in data && data[name] == app)
            && (name == "db_password" ==> name in data && data[name] == p.dbPassword)
            && (name == "s3_access_key" ==> name in data && data[name] == p.s3AccessKey)
            && (name == "s3_secret_key" ==> name in data && data[name] == p.s3SecretKey)
            && (name == "s3_bucket" ==> name in data && data[name] == "workloads/" + group + "/" + app)
            && (name == "redis_password" ==> name in data && data[name] == redisPass)
            && (name == "db_host" ==> name in data && data[name] == "production-db-rw.database.svc.cluster.local")
            && (name == "db_port" ==> name in data && data[name] == "5432")
            && (name == "s3_endpoint" ==> name in data && data[name] == "http://minio.minio.svc.cluster.local:9000")
            && (name == "redis_host" ==> name in data && data[name] == "redis-master.redis.svc.cluster.local")
            && (name == "redis_port" ==> name in data && data[name] == "6379")
            && (name in data ==>
                  name in {"db_username", "db_password", "db_host", "db_port", "db_name", "s3_access_key",
                           "s3_secret_key", "s3_endpoint", "s3_bucket", "redis_password", "redis_host", "redis_port"})
  {
    MergeAt(Standard(p, group, app, redisPass), order, p.extraSecrets, name);
  }

  lemma {:induction false} MergeNotEmpty(data: map<string, string>, order: seq<string>, extra: map<string, string>)
    requires data != map[] && forall k :: k in order ==> k in extra
    ensures Merge(data, order, extra) != map[]
  {
    if order != [] {
      var k := order[|order| - 1];
      assert ToLower(k) in Merge(data, order, extra);
    }
  }
}
