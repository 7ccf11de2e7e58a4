/** The seed file of a workload: `new` prints it, `seed` reads it back. */
module SeedFile {
  import opened Wrappers
  import opened Text
  import Template

  datatype Result<T> = Ok(value: T) | Err

  datatype Params = Params(
    dbPassword: string, s3AccessKey: string, s3SecretKey: string, redisPass: string,
    extraSecrets: map<string, string>, rawEnv: map<string, string>)

  // ---- Names ---------------------------------------------------------------------------

  function UpperChar(c: char): char { if 'a' <= c <= 'z' then c - 'a' + 'A' else c }

  function ToUpper(s: string): string {
    if s == "" then "" else [UpperChar(s[0])] + ToUpper(s[1..])
  }

  /** How `new` and `seed` both turn a group or an application into part of a variable's name. */
  function Normal(s: string): string { ToUpper(Template.ReplaceAll(s, "-", "_")) }

  /** Character by character, dashes become underscores and lower case becomes upper case. */
  lemma NormalAt(s: string)
    ensures |Normal(s)| == |s|
    ensures forall i :: 0 <= i < |s| ==>
              Normal(s)[i] == if s[i] == '-' then '_'
                              else if 'a' <= s[i] <= 'z' then (s[i] as int - 32) as char else s[i]
  {
    DashesReplaced(s);
    UpperAt(Template.ReplaceAll(s, "-", "_"));
  }

  lemma {:induction false} UpperAt(s: string)
    ensures |ToUpper(s)| == |s|
    ensures forall i :: 0 <= i < |s| ==>
              ToUpper(s)[i] == if 'a' <= s[i] <= 'z' then (s[i] as int - 32) as char else s[i]
  {
    if s != "" { UpperAt(s[1..]); }
  }

  lemma {:induction false} DashesReplaced(s: string)
    ensures var r := Template.ReplaceAll(s, "-", "_");
            |r| == |s| && forall i :: 0 <= i < |s| ==> r[i] == if s[i] == '-' then '_' else s[i]
  {
    if s != "" {
      DashesReplaced(s[1..]);
      assert "-" <= s <==> s[0] == '-';
    }
  }

  function Prefix(group: string, app: string): string { "VL_" + Normal(group) + "_" + Normal(app) }

  // ---- Scanning ------------------------------------------------------------------------

  /** The bytes of a character in UTF-8 (RFC 3629, section 3). */
  function CharSize(c: char): nat {
    if c < '\U{80}' then 1 else if c < '\U{800}' then 2 else if c < '\U{10000}' then 3 else 4
  }

  function Size(s: string): nat {
    if s == "" then 0 else CharSize(s[0]) + Size(s[1..])
  }

  /** The longest line a bufio.Scanner with its default buffer accepts, without its newline. */
  const MAX_LINE := 65535

  predicate Fits(line: string) { Size(line) <= MAX_LINE }

  function DropCR(line: string): string { TrimSuffix(line, "\r") }

  /** The tokens of a bufio.Scanner: no empty last line, no carriage return at the end of a line. */
  function Scan(text: string): Result<seq<string>> {
    if Scannable(text) then
      var lines := Lines(text);
      Ok(DropCRs(if lines[|lines| - 1] == "" then lines[..|lines| - 1] else lines))
    else Err
  }

  predicate Scannable(text: string) { forall l :: l in Lines(text) ==> Fits(l) }

  function DropCRs(lines: seq<string>): (ls: seq<string>)
    ensures |ls| == |lines| && forall k :: 0 <= k < |ls| ==> ls[k] == DropCR(lines[k])
  {
    seq(|lines|, k requires 0 <= k < |lines| => DropCR(lines[k]))
  }

  function Letters(n: nat): string { if n == 0 then "" else "a" + Letters(n - 1) }

  lemma {:induction false} LettersSize(n: nat)
    ensures Size(Letters(n)) == |Letters(n)| == n && OneLine(Letters(n))
  {
    if n > 0 {
      LettersSize(n - 1);
      assert Letters(n)[1..] == Letters(n - 1);
    }
  }

  /** A line of plain letters can be read exactly if it is shorter than 64 KiB. */
  lemma LineLimit(n: nat)
    ensures Scannable(Letters(n)) <==> n < 64 * 1024
  {
    LettersSize(n);
    LinesOneLine(Letters(n));
    assert Letters(n) in Lines(Letters(n));
  }

  /** strings.SplitN(s, "=", 2), when it has two parts. */
  function Cut(s: string): Option<(string, string)> {
    if s == "" then None
    else if s[0] == '=' then Some(("", s[1..]))
    else
      match Cut(s[1..])
      case None => None
      case Some(p) => Some(([s[0]] + p.0, p.1))
  }

  lemma {:induction false} CutSplits(s: string)
    ensures Cut(s) == None <==> '=' !in s
    ensures Cut(s).Some? ==> var (a, b) := Cut(s).value; s == a + "=" + b && '=' !in a
  {
    if s != "" && s[0] != '=' {
      CutSplits(s[1..]);
      assert s == [s[0]] + s[1..];
    }
  }

  lemma {:induction false} CutAtFirst(a: string, b: string)
    requires '=' !in a
    ensures Cut(a + "=" + b) == Some((a, b))
  {
    var s := a + "=" + b;
    if a == "" {
      assert s[1..] == b;
    } else {
      assert s[1..] == a[1..] + "=" + b;
      CutAtFirst(a[1..], b);
      assert a == [a[0]] + a[1..];
    }
  }

  /** What one line of the file sets: blank lines, comments and lines without "=" set nothing. */
  function Setting(line: string): Option<(string, string)> {
    var l := TrimSpace(line);
    if l == "" || "#" <= l then None else Cut(l)
  }

  function Assign(p: Params, prefix: string, name: string, value: string): Params {
    var q := p.(rawEnv := p.rawEnv[name := value]);
    if prefix <= name then AssignSecret(q, TrimPrefix(name, prefix + "_"), value) else q
  }

  function AssignSecret(p: Params, key: string, value: string): Params {
    if key == "DB_PASSWORD" then p.(dbPassword := value)
    else if key == "S3_ACCESS_KEY" then p.(s3AccessKey := value)
    else if key == "S3_SECRET_KEY" then p.(s3SecretKey := value)
    else if key == "REDIS_PASSWORD" then p.(redisPass := value)
    else p.(extraSecrets := p.extraSecrets[key := value])
  }

  function Absorb(p: Params, prefix: string, line: string): Params {
    match Setting(line)
    case None => p
    case Some((name, value)) => Assign(p, prefix, name, value)
  }

  function AbsorbAll(p: Params, prefix: string, lines: seq<string>): Params
    decreases |lines|
  {
    if lines == [] then p else AbsorbAll(Absorb(p, prefix, lines[0]), prefix, lines[1..])
  }

  const EMPTY := Params("", "", "", "", map[], map[])

  function Load(text: string, group: string, app: string): Result<Params> {
    match Scan(text)
    case Err => Err
    case Ok(lines) => Ok(AbsorbAll(EMPTY, Prefix(group, app), lines))
  }

  lemma {:induction false} AbsorbSnoc(p: Params, prefix: string, lines: seq<string>, line: string)
    ensures AbsorbAll(p, prefix, lines + [line]) == Absorb(AbsorbAll(p, prefix, lines), prefix, line)
    decreases |lines|
  {
    if lines == [] {
      assert (lines + [line])[1..] == [];
    } else {
      assert (lines + [line])[1..] == lines[1..] + [line];
      AbsorbSnoc(Absorb(p, prefix, lines[0]), prefix, lines[1..], line);
    }
  }

  // ---- Where what is loaded comes from ---------------------------------------------------

  ghost predicate SetBy(lines: seq<string>, name: string, value: string) {
    exists i :: 0 <= i < |lines| && Setting(lines[i]) == Some((name, value))
  }

  /** A value is empty, or that of a line for exactly this variable of the workload. */
  ghost predicate Known(lines: seq<string>, prefix: string, key: string, value: string) {
    value == "" || SetBy(lines, prefix + "_" + key, value)
  }

  /** Every extra secret is that of a line whose variable begins with the prefix; what follows the prefix names it, and
      if no underscore follows, the whole variable does. */
  ghost predicate ExtrasFrom(lines: seq<string>, prefix: string, extra: map<string, string>) {
    forall k :: k in extra ==> ExtraFrom(lines, prefix, k, extra[k])
  }

  ghost predicate ExtraFrom(lines: seq<string>, prefix: string, key: string, value: string) {
    || SetBy(lines, prefix + "_" + key, value)
    || (prefix <= key && !(prefix + "_" <= key) && SetBy(lines, key, value))
  }

  ghost predicate EnvFrom(lines: seq<string>, env: map<string, string>) {
    forall name :: name in env ==> SetBy(lines, name, env[name])
  }

  ghost predicate FromLines(lines: seq<string>, prefix: string, p: Params) {
    && Known(lines, prefix, "DB_PASSWORD", p.dbPassword) && Known(lines, prefix, "S3_ACCESS_KEY", p.s3AccessKey)
    && Known(lines, prefix, "S3_SECRET_KEY", p.s3SecretKey) && Known(lines, prefix, "REDIS_PASSWORD", p.redisPass)
    && ExtrasFrom(lines, prefix, p.extraSecrets) && EnvFrom(lines, p.rawEnv)
  }

  lemma SetByMore(lines: seq<string>, line: string)
    ensures forall name, value :: SetBy(lines, name, value) ==> SetBy(lines + [line], name, value)
    ensures Setting(line).Some? ==> SetBy(lines + [line], Setting(line).value.0, Setting(line).value.1)
  {
    forall name, value | SetBy(lines, name, value) ensures SetBy(lines + [line], name, value) {
      var i :| 0 <= i < |lines| && Setting(lines[i]) == Some((name, value));
      assert (lines + [line])[i] == lines[i];
    }
    assert (lines + [line])[|lines|] == line;
  }

  lemma AbsorbFrom(lines: seq<string>, line: string, prefix: string, p: Params)
    requires FromLines(lines, prefix, p) && "VL_" <= prefix
    ensures FromLines(lines + [line], prefix, Absorb(p, prefix, line))
  {
    SetByMore(lines, line);
    assert FromLines(lines + [line], prefix, p);
    if Setting(line).Some? {
      AssignFrom(lines + [line], prefix, p, Setting(line).value.0, Setting(line).value.1);
    }
  }

  /** What is left of a variable's name when the prefix goes. */
  lemma Suffix(prefix: string, name: string)
    requires "VL_" <= prefix <= name
    ensures var key := TrimPrefix(name, prefix + "_");
            if prefix + "_" <= name then name == prefix + "_" + key else key == name && key !in KNOWN
  {
    assert name[0] == 'V';
  }

  lemma AssignFrom(lines: seq<string>, prefix: string, p: Params, name: string, value: string)
    requires FromLines(lines, prefix, p) && "VL_" <= prefix && SetBy(lines, name, value)
    ensures FromLines(lines, prefix, Assign(p, prefix, name, value))
  {
    var q := p.(rawEnv := p.rawEnv[name := value]);
    if prefix <= name {
      Suffix(prefix, name);
      AssignSecretFrom(lines, prefix, q, TrimPrefix(name, prefix + "_"), value);
    }
  }

  lemma KnownAssigned(lines: seq<string>, prefix: string, p: Params, key: string, value: string)
    requires FromLines(lines, prefix, p) && key in KNOWN && Known(lines, prefix, key, value)
    ensures FromLines(lines, prefix, AssignSecret(p, key, value))
  {
    if key == "DB_PASSWORD" {
      assert AssignSecret(p, "DB_PASSWORD", value) == p.(dbPassword := value);
    } else if key == "S3_ACCESS_KEY" {
      assert AssignSecret(p, "S3_ACCESS_KEY", value) == p.(s3AccessKey := value);
    } else if key == "S3_SECRET_KEY" {
      assert AssignSecret(p, "S3_SECRET_KEY", value) == p.(s3SecretKey := value);
    } else {
      assert AssignSecret(p, "REDIS_PASSWORD", value) == p.(redisPass := value);
    }
  }

  lemma AssignSecretFrom(lines: seq<string>, prefix: string, p: Params, key: string, value: string)
    requires FromLines(lines, prefix, p)
    requires if key in KNOWN then SetBy(lines, prefix + "_" + key, value) else ExtraFrom(lines, prefix, key, value)
    ensures FromLines(lines, prefix, AssignSecret(p, key, value))
  {
    if key !in KNOWN {
      ExtrasMore(lines, prefix, p.extraSecrets, key, value);
      assert AssignSecret(p, key, value) == p.(extraSecrets := p.extraSecrets[key := value]);
    } else {
      KnownAssigned(lines, prefix, p, key, value);
    }
  }

  lemma ExtrasMore(lines: seq<string>, prefix: string, extra: map<string, string>, key: string, value: string)
    requires ExtrasFrom(lines, prefix, extra) && ExtraFrom(lines, prefix, key, value)
    ensures ExtrasFrom(lines, prefix, extra[key := value])
  {
  }

  lemma {:induction false} AbsorbedFrom(prefix: string, lines: seq<string>)
    requires "VL_" <= prefix
    ensures FromLines(lines, prefix, AbsorbAll(EMPTY, prefix, lines))
    decreases |lines|
  {
    if lines != [] {
      var n := |lines| - 1;
      assert lines == lines[..n] + [lines[n]];
      AbsorbedFrom(prefix, lines[..n]);
      AbsorbSnoc(EMPTY, prefix, lines[..n], lines[n]);
      AbsorbFrom(lines[..n], lines[n], prefix, AbsorbAll(EMPTY, prefix, lines[..n]));
    }
  }

  /** Whatever the file: variables that do not begin with "VL_<GROUP>_<APP>" only show in `rawEnv`, which holds nothing
      but what some line sets. */
  lemma LoadedComesFromLines(text: string, group: string, app: string)
    requires Load(text, group, app).Ok?
    ensures FromLines(Scan(text).value, "VL_" + Normal(group) + "_" + Normal(app), Load(text, group, app).value)
  {
    AbsorbedFrom(Prefix(group, app), Scan(text).value);
  }

  /** Every line counts: after the last line for it, a variable has its value. */
  lemma LastLineCounts(p: Params, prefix: string, line: string)
    requires Setting(line).Some? && "VL_" <= prefix
    ensures var (name, value) := Setting(line).value;
            var (q, r) := (Absorb(p, prefix, line), p.(rawEnv := p.rawEnv[name := value]));
            && (!(prefix <= name) ==> q == r)
            && (prefix + "_" <= name ==> q == AssignSecret(r, name[|prefix| + 1..], value))
            && (prefix <= name && !(prefix + "_" <= name) ==> q == r.(extraSecrets := r.extraSecrets[name := value]))
  {
    var (name, value) := Setting(line).value;
    if prefix <= name { Suffix(prefix, name); }
  }

  /** The body of the loop of `LoadParams`. */
  method ReadLine(p0: Params, prefix: string, text: string) returns (p: Params)
    ensures p == Absorb(p0, prefix, text)
  {
    p := p0;
    var line := TrimSpace(text);
    if line == "" || "#" <= line {
      return;
    }
    var parts := Cut(line);
    if parts.None? {
      return;
    }
    var name, value := parts.value.0, parts.value.1;
    p := p.(rawEnv := p.rawEnv[name := value]);
    if !(prefix <= name) {
      return;
    }
    p := AssignSecret(p, TrimPrefix(name, prefix + "_"), value);
  }

  /** `LoadParams`; the file is `None` when it is missing or cannot be opened. */
  method LoadParams(file: Option<string>, group: string, app: string) returns (r: Result<Params>)
    ensures r == if file.None? then Err else Load(file.value, group, app)
    ensures r == Err <==> file.None? || exists l :: l in Lines(file.value) && !Fits(l)
  {
    if file.None? {
      return Err;
    }
    var prefix := Prefix(group, app);
    var scanned := Scan(file.value);
    if scanned.Err? {
      return Err;
    }
    var p := ReadLines(scanned.value, prefix);
    return Ok(p);
  }

  method ReadLines(lines: seq<string>, prefix: string) returns (p: Params)
    ensures p == AbsorbAll(EMPTY, prefix, lines)
  {
    p := EMPTY;
    for i := 0 to |lines|
      invariant p == AbsorbAll(EMPTY, prefix, lines[..i])
    {
      AbsorbSnoc(EMPTY, prefix, lines[..i], lines[i]);
      assert lines[..i + 1] == lines[..i] + [lines[i]];
      p := ReadLine(p, prefix, lines[i]);
    }
    assert lines[..|lines|] == lines;
  }

  // ---- Printing ------------------------------------------------------------------------

  function Title(groupUC: string, appUC: string): string {
    "# " + (groupUC + "/" + appUC) + " - atlasctl seed environment file"
  }

  function Notice(): string { "# " + "Auto-generated by atlasctl new." + " Edit values before running atlasctl seed." }

  function Format(): string { "# " + "Format:" + " KEY=value" }

  function Header(groupUC: string, appUC: string): seq<string> {
    [Title(groupUC, appUC), Notice(), "#", Format()]
  }

  function Entry(prefix: string, key: string, value: string): string { FullName(prefix, key) + "=" + value }

  function EntryLines(prefix: string, order: seq<string>, secrets: map<string, string>): (ls: seq<string>)
    requires forall k :: k in order ==> k in secrets
    ensures |ls| == |order|
    ensures forall i :: 0 <= i < |order| ==> ls[i] == Entry(prefix, order[i], secrets[order[i]])
  {
    seq(|order|, i requires 0 <= i < |order| => Entry(prefix, order[i], secrets[order[i]]))
  }

  function SeedLines(groupUC: string, appUC: string, order: seq<string>, secrets: map<string, string>): seq<string>
    requires forall k :: k in order ==> k in secrets
  {
    Header(groupUC, appUC) + EntryLines("VL_" + groupUC + "_" + appUC, order, secrets)
  }

  /** `SecretSeedEnv`: the secrets come in whatever order the map yields them, each once. */
  method SecretSeedEnv(groupUC: string, appUC: string, secrets: map<string, string>) returns (text: string)
    ensures exists order ::
              Enumerates(order, secrets.Keys) && text == Unlines(SeedLines(groupUC, appUC, order, secrets))
  {
    var prefix := "VL_" + groupUC + "_" + appUC;
    ghost var header := Header(groupUC, appUC);
    HeaderText(groupUC, appUC);
    text := "";
    text := text + (Title(groupUC, appUC) + "\n");
    text := text + (Notice() + "\n");
    text := text + ("#" + "\n");
    text := text + (Format() + "\n");
    ghost var order := [];
    assert header + EntryLines(prefix, [], secrets) == header;
    var todo := secrets.Keys;
    while todo != {}
      invariant todo <= secrets.Keys && Enumerates(order, secrets.Keys - todo)
      invariant text == Unlines(header + EntryLines(prefix, order, secrets))
    {
      var k :| k in todo;
      text := text + (prefix + "_" + k + "=" + secrets[k] + "\n");
      OneMoreEntry(header, prefix, order, k, secrets);
      order := order + [k];
      todo := todo - {k};
    }
    assert Enumerates(order, secrets.Keys);
  }

  lemma UnlinesSnoc(ls: seq<string>, l: string)
    ensures Unlines(ls + [l]) == Unlines(ls) + (l + "\n")
  {
    UnlinesAppend(ls, [l]);
    assert [l][1..] == [];
  }

  lemma HeaderText(groupUC: string, appUC: string)
    ensures var h := Header(groupUC, appUC);
            Unlines(h) == "" + (h[0] + "\n") + (h[1] + "\n") + (h[2] + "\n") + (h[3] + "\n")
  {
    var h := Header(groupUC, appUC);
    UnlinesSnoc([], h[0]);
    UnlinesSnoc([h[0]], h[1]);
    UnlinesSnoc([h[0], h[1]], h[2]);
    UnlinesSnoc([h[0], h[1], h[2]], h[3]);
    assert [] + [h[0]] == [h[0]];
    assert h == [h[0], h[1], h[2]] + [h[3]];
  }

  lemma OneMoreEntry(header: seq<string>, prefix: string, order: seq<string>, k: string, secrets: map<string, string>)
    requires k in secrets && forall n :: n in order ==> n in secrets
    ensures Unlines(header + EntryLines(prefix, order + [k], secrets))
         == Unlines(header + EntryLines(prefix, order, secrets)) + (Entry(prefix, k, secrets[k]) + "\n")
  {
    var ls := header + EntryLines(prefix, order, secrets);
    assert header + EntryLines(prefix, order + [k], secrets) == ls + [Entry(prefix, k, secrets[k])];
    UnlinesSnoc(ls, Entry(prefix, k, secrets[k]));
  }

  // ---- What is read back -----------------------------------------------------------------

  const KNOWN := {"DB_PASSWORD", "S3_ACCESS_KEY", "S3_SECRET_KEY", "REDIS_PASSWORD"}

  function Get(secrets: map<string, string>, k: string): string { if k in secrets then secrets[k] else "" }

  function FullName(prefix: string, key: string): string { prefix + "_" + key }

  function KeyOf(prefix: string, name: string): string
    requires prefix + "_" <= name
  {
    name[|prefix| + 1..]
  }

  lemma KeyOfFullName(prefix: string, key: string)
    ensures prefix <= FullName(prefix, key) && prefix + "_" <= FullName(prefix, key)
    ensures KeyOf(prefix, FullName(prefix, key)) == key && TrimPrefix(FullName(prefix, key), prefix + "_") == key
  {
  }

  lemma FullNameOfKey(prefix: string, name: string)
    requires prefix + "_" <= name
    ensures FullName(prefix, KeyOf(prefix, name)) == name
  {
  }

  function RawEnv(prefix: string, secrets: map<string, string>): (env: map<string, string>)
    ensures forall n :: n in env <==> prefix + "_" <= n && KeyOf(prefix, n) in secrets
    ensures forall n :: n in env ==> env[n] == secrets[KeyOf(prefix, n)]
  {
    var names := set k | k in secrets :: FullName(prefix, k);
    assert forall n :: n in names <==> prefix + "_" <= n && KeyOf(prefix, n) in secrets by {
      forall n ensures n in names <==> prefix + "_" <= n && KeyOf(prefix, n) in secrets {
        if n in names {
          var k :| k in secrets && FullName(prefix, k) == n;
          KeyOfFullName(prefix, k);
        }
        if prefix + "_" <= n {
          FullNameOfKey(prefix, n);
        }
      }
    }
    map n | n in names :: secrets[KeyOf(prefix, n)]
  }

  function Extra(secrets: map<string, string>): map<string, string> {
    map k | k in secrets && k !in KNOWN :: secrets[k]
  }

  function Split(secrets: map<string, string>, env: map<string, string>): Params {
    Params(Get(secrets, "DB_PASSWORD"), Get(secrets, "S3_ACCESS_KEY"), Get(secrets, "S3_SECRET_KEY"),
        Get(secrets, "REDIS_PASSWORD"),
           Extra(secrets), env)
  }

  /** The secrets, split into the four known ones and the rest, and all of them under their full names. */
  function Expected(prefix: string, secrets: map<string, string>): Params {
    Split(secrets, RawEnv(prefix, secrets))
  }

  predicate CleanName(name: string) { '=' !in name && OneLine(name) }

  predicate CleanValue(value: string) { OneLine(value) && (value != "" ==> !IsSpace(value[|value| - 1])) }

  ghost predicate Clean(prefix: string, secrets: map<string, string>) {
    forall k :: k in secrets ==> CleanName(FullName(prefix, k)) && CleanValue(secrets[k])
  }

  lemma EntryIsSetting(prefix: string, key: string, value: string)
    requires "VL_" <= prefix && CleanName(FullName(prefix, key)) && CleanValue(value)
    ensures Setting(Entry(prefix, key, value)) == Some((FullName(prefix, key), value))
    ensures OneLine(Entry(prefix, key, value)) && DropCR(Entry(prefix, key, value)) == Entry(prefix, key, value)
  {
    var name := FullName(prefix, key);
    var line := name + "=" + value;
    assert line[0] == 'V';
    if value == "" {
      assert line[|line| - 1] == '=';
    } else {
      assert line[|line| - 1] == value[|value| - 1];
    }
    TrimSpaceNothing(line);
    CutAtFirst(name, value);
    assert line[|line| - 1..] == [line[|line| - 1]];
  }

  lemma RawEnvEntry(prefix: string, secrets: map<string, string>, key: string, value: string)
    ensures RawEnv(prefix, secrets)[FullName(prefix, key) := value] == RawEnv(prefix, secrets[key := value])
  {
    var name := FullName(prefix, key);
    KeyOfFullName(prefix, key);
    forall n | prefix + "_" <= n ensures KeyOf(prefix, n) == key <==> n == name { FullNameOfKey(prefix, n); }
  }

  lemma ExtraEntry(secrets: map<string, string>, key: string, value: string)
    ensures Extra(secrets[key := value]) == if key in KNOWN then Extra(secrets) else Extra(secrets)[key := value]
  {
  }

  /** One entry more in the file is one secret more in what is read back. */
  lemma AssignEntry(prefix: string, secrets: map<string, string>, key: string, value: string)
    ensures Assign(Expected(prefix, secrets), prefix, FullName(prefix, key), value)
            == Expected(prefix, secrets[key := value])
  {
    KeyOfFullName(prefix, key);
    RawEnvEntry(prefix, secrets, key, value);
    AssignSecretEntry(RawEnv(prefix, secrets[key := value]), secrets, key, value);
  }

  lemma AssignSecretEntry(env: map<string, string>, secrets: map<string, string>, key: string, value: string)
    ensures AssignSecret(Split(secrets, env), key, value) == Split(secrets[key := value], env)
  {
    ExtraEntry(secrets, key, value);
  }

  function Taken(secrets: map<string, string>, order: seq<string>): map<string, string> {
    map k | k in order && k in secrets :: secrets[k]
  }

  lemma {:induction false} AbsorbEntries(prefix: string, done: map<string, string>, order: seq<string>,
                                         secrets: map<string, string>)
    requires "VL_" <= prefix && Clean(prefix, secrets) && forall k :: k in order ==> k in secrets
    ensures AbsorbAll(Expected(prefix, done), prefix, EntryLines(prefix, order, secrets))
         == Expected(prefix, done + Taken(secrets, order))
    decreases |order|
  {
    if order == [] {
      assert done + Taken(secrets, order) == done;
    } else {
      var k := order[0];
      assert k in order;
      AbsorbEntry(prefix, done, k, secrets[k]);
      EntryLinesTail(prefix, order, secrets);
      AbsorbEntries(prefix, done[k := secrets[k]], order[1..], secrets);
      TakenTail(done, order, secrets);
    }
  }

  lemma EntryLinesTail(prefix: string, order: seq<string>, secrets: map<string, string>)
    requires order != [] && forall k :: k in order ==> k in secrets
    ensures EntryLines(prefix, order, secrets)[0] == Entry(prefix, order[0], secrets[order[0]])
    ensures EntryLines(prefix, order, secrets)[1..] == EntryLines(prefix, order[1..], secrets)
  {
  }

  lemma TakenTail(done: map<string, string>, order: seq<string>, secrets: map<string, string>)
    requires order != [] && order[0] in secrets
    ensures done[order[0] := secrets[order[0]]] + Taken(secrets, order[1..]) == done + Taken(secrets, order)
  {
    assert order == [order[0]] + order[1..];
  }

  lemma AbsorbEntry(prefix: string, done: map<string, string>, key: string, value: string)
    requires "VL_" <= prefix && CleanName(FullName(prefix, key)) && CleanValue(value)
    ensures Absorb(Expected(prefix, done), prefix, Entry(prefix, key, value)) == Expected(prefix, done[key := value])
  {
    EntryIsSetting(prefix, key, value);
    AssignEntry(prefix, done, key, value);
  }

  lemma {:induction false} AbsorbAllAppend(p: Params, prefix: string, a: seq<string>, b: seq<string>)
    ensures AbsorbAll(p, prefix, a + b) == AbsorbAll(AbsorbAll(p, prefix, a), prefix, b)
    decreases |a|
  {
    if a == [] {
      assert a + b == b;
    } else {
      assert (a + b)[1..] == a[1..] + b;
      AbsorbAllAppend(Absorb(p, prefix, a[0]), prefix, a[1..], b);
    }
  }

  lemma {:induction false} AbsorbQuiet(p: Params, prefix: string, lines: seq<string>)
    requires forall l :: l in lines ==> Setting(l) == None
    ensures AbsorbAll(p, prefix, lines) == p
    decreases |lines|
  {
    if lines != [] {
      assert lines[0] in lines;
      AbsorbQuiet(p, prefix, lines[1..]);
    }
  }

  lemma {:induction false} UpperOneLine(s: string)
    requires OneLine(s)
    ensures OneLine(ToUpper(s))
  {
    if s != "" {
      assert s[0] in s;
      UpperOneLine(s[1..]);
    }
  }

  lemma {:induction false} SafeOneLine(s: string)
    requires OneLine(s)
    ensures OneLine(Template.ReplaceAll(s, "-", "_"))
    decreases |s|
  {
    if s != "" {
      assert s[0] in s;
      SafeOneLine(s[1..]);
      assert "-" <= s ==> s[|"-"|..] == s[1..];
    }
  }

  lemma NormalOneLine(s: string)
    requires OneLine(s)
    ensures OneLine(Normal(s))
  {
    SafeOneLine(s);
    UpperOneLine(Template.ReplaceAll(s, "-", "_"));
  }

  /** A line that sets nothing. */
  predicate Quiet(line: string) { OneLine(line) && Setting(line) == None && DropCR(line) == line }

  lemma CommentIsQuiet(line: string)
    requires OneLine(line) && line != "" && line[0] == '#' && !IsSpace(line[|line| - 1])
    ensures Quiet(line)
  {
    TrimSpaceNothing(line);
    assert line[|line| - 1..] == [line[|line| - 1]];
  }

  lemma TitleIsQuiet(workload: string, tail: string)
    requires OneLine(workload) && OneLine(tail) && tail != "" && !IsSpace(tail[|tail| - 1])
    ensures Quiet("# " + workload + tail)
  {
    var line := "# " + workload + tail;
    assert line[|line| - 1] == tail[|tail| - 1];
    CommentIsQuiet(line);
  }

  lemma HeaderIsQuiet(groupUC: string, appUC: string)
    requires OneLine(groupUC) && OneLine(appUC)
    ensures forall l :: l in Header(groupUC, appUC) ==> Quiet(l)
  {
    FirstIsQuiet(groupUC, appUC);
    NoticeIsQuiet();
    FormatIsQuiet();
    SeparatorIsQuiet();
    AllFour(Title(groupUC, appUC), Notice(), "#", Format());
  }

  lemma FirstIsQuiet(groupUC: string, appUC: string)
    requires OneLine(groupUC) && OneLine(appUC)
    ensures Quiet(Title(groupUC, appUC))
  {
    TitleIsQuiet(groupUC + "/" + appUC, " - atlasctl seed environment file");
  }

  lemma NoticeEnds()
    ensures var tail := " Edit values before running atlasctl seed.";
            OneLine(tail) && !IsSpace(tail[|tail| - 1])
  {
  }

  lemma NoticeIsQuiet()
    ensures Quiet(Notice())
  {
    NoticeEnds();
    TitleIsQuiet("Auto-generated by atlasctl new.", " Edit values before running atlasctl seed.");
  }

  lemma FormatIsQuiet()
    ensures Quiet(Format())
  {
    TitleIsQuiet("Format:", " KEY=value");
  }

  lemma SeparatorIsQuiet()
    ensures Quiet("#")
  {
    var line := "#";
    assert OneLine(line) && line[0] == '#' && line[|line| - 1] == '#';
    CommentIsQuiet(line);
  }

  lemma AllFour(a: string, b: string, c: string, d: string)
    requires Quiet(a) && Quiet(b) && Quiet(c) && Quiet(d)
    ensures forall l :: l in [a, b, c, d] ==> Quiet(l)
  {
  }

  /** The lines of a clean file come out of the scanner as they went in. */
  lemma SeedLinesScan(groupUC: string, appUC: string, order: seq<string>, secrets: map<string, string>)
    requires OneLine(groupUC) && OneLine(appUC) && Clean("VL_" + groupUC + "_" + appUC, secrets)
    requires forall k :: k in order ==> k in secrets
    ensures var ls := SeedLines(groupUC, appUC, order, secrets);
            Scan(Unlines(ls)) == if Scannable(Unlines(ls)) then Ok(ls) else Err
  {
    var prefix := "VL_" + groupUC + "_" + appUC;
    var ls := SeedLines(groupUC, appUC, order, secrets);
    HeaderIsQuiet(groupUC, appUC);
    forall l | l in ls ensures OneLine(l) && DropCR(l) == l {
      if l !in Header(groupUC, appUC) {
        assert l in EntryLines(prefix, order, secrets);
        var i :| 0 <= i < |order| && l == EntryLines(prefix, order, secrets)[i];
        EntryIsSetting(prefix, order[i], secrets[order[i]]);
      }
    }
    ScanUnlines(ls);
  }

  lemma ScanUnlines(ls: seq<string>)
    requires forall l :: l in ls ==> OneLine(l) && DropCR(l) == l
    ensures Scan(Unlines(ls)) == if Scannable(Unlines(ls)) then Ok(ls) else Err
  {
    LinesUnlines(ls);
    assert (ls + [""])[..|ls|] == ls;
    assert DropCRs(ls) == ls by {
      forall k | 0 <= k < |ls| ensures DropCRs(ls)[k] == ls[k] { assert ls[k] in ls; }
    }
  }

  lemma CleanIsRecovered(group: string, app: string, order: seq<string>, secrets: map<string, string>)
    requires OneLine(group) && OneLine(app) && Clean(Prefix(group, app), secrets)
             && (set k | k in order) == secrets.Keys
    ensures forall k :: k in order ==> k in secrets
    ensures var text := Unlines(SeedLines(Normal(group), Normal(app), order, secrets));
            Load(text, group, app) == if Scannable(text) then Ok(Expected(Prefix(group, app), secrets)) else Err
  {
    forall k | k in order ensures k in secrets { assert k in (set n | n in order); }
    NormalOneLine(group);
    NormalOneLine(app);
    SeedLinesScan(Normal(group), Normal(app), order, secrets);
    AbsorbSeedLines(Normal(group), Normal(app), order, secrets);
  }

  lemma AbsorbSeedLines(groupUC: string, appUC: string, order: seq<string>, secrets: map<string, string>)
    requires OneLine(groupUC) && OneLine(appUC) && Clean("VL_" + groupUC + "_" + appUC, secrets)
    requires (set k | k in order) == secrets.Keys && forall k :: k in order ==> k in secrets
    ensures var prefix := "VL_" + groupUC + "_" + appUC;
            AbsorbAll(EMPTY, prefix, SeedLines(groupUC, appUC, order, secrets)) == Expected(prefix, secrets)
  {
    var prefix := "VL_" + groupUC + "_" + appUC;
    HeaderIsQuiet(groupUC, appUC);
    SkipQuiet(prefix, Header(groupUC, appUC), EntryLines(prefix, order, secrets));
    AbsorbEntries(prefix, map[], order, secrets);
    AllTaken(secrets, order);
  }

  lemma SkipQuiet(prefix: string, quiet: seq<string>, lines: seq<string>)
    requires forall l :: l in quiet ==> Quiet(l)
    ensures AbsorbAll(EMPTY, prefix, quiet + lines) == AbsorbAll(Expected(prefix, map[]), prefix, lines)
  {
    AbsorbAllAppend(EMPTY, prefix, quiet, lines);
    AbsorbQuiet(EMPTY, prefix, quiet);
    assert RawEnv(prefix, map[]) == map[];
  }

  lemma AllTaken(secrets: map<string, string>, order: seq<string>)
    requires (set k | k in order) == secrets.Keys
    ensures map[] + Taken(secrets, order) == secrets
  {
    forall k | k in secrets ensures k in order { assert k in (set n | n in order); }
  }

  // ---- What no file can hold ------------------------------------------------------------------

  ghost predicate CleanEnv(env: map<string, string>) {
    forall n :: n in env ==> CleanName(n) && CleanValue(env[n])
  }

  lemma {:induction false} TrimLeftPart(s: string)
    requires OneLine(s)
    ensures OneLine(TrimSpaceLeft(s))
  {
    if s != "" && IsSpace(s[0]) {
      TrimLeftPart(s[1..]);
    }
  }

  lemma {:induction false} TrimRightClean(s: string)
    requires OneLine(s)
    ensures CleanValue(TrimSpaceRight(s))
  {
    if s != "" && IsSpace(s[|s| - 1]) {
      TrimRightClean(s[..|s| - 1]);
    }
  }

  lemma SettingIsClean(line: string)
    requires OneLine(line) && Setting(line).Some?
    ensures CleanName(Setting(line).value.0) && CleanValue(Setting(line).value.1)
  {
    TrimLeftPart(line);
    TrimRightClean(TrimSpaceLeft(line));
    var l := TrimSpace(line);
    CutSplits(l);
    var (name, value) := Setting(line).value;
    assert value != "" ==> value[|value| - 1] == l[|l| - 1];
  }

  lemma AssignIsRaw(p: Params, prefix: string, name: string, value: string)
    ensures Assign(p, prefix, name, value).rawEnv == p.rawEnv[name := value]
  {
  }

  lemma AbsorbIsClean(p: Params, prefix: string, line: string)
    requires CleanEnv(p.rawEnv) && OneLine(line)
    ensures CleanEnv(Absorb(p, prefix, line).rawEnv)
  {
    match Setting(line)
    case None =>
    case Some((name, value)) =>
      SettingIsClean(line);
      AssignIsRaw(p, prefix, name, value);
  }

  lemma {:induction false} AbsorbedIsClean(p: Params, prefix: string, lines: seq<string>)
    requires CleanEnv(p.rawEnv) && forall l :: l in lines ==> OneLine(l)
    ensures CleanEnv(AbsorbAll(p, prefix, lines).rawEnv)
    decreases |lines|
  {
    if lines != [] {
      assert lines[0] in lines;
      AbsorbIsClean(p, prefix, lines[0]);
      AbsorbedIsClean(Absorb(p, prefix, lines[0]), prefix, lines[1..]);
    }
  }

  /** Whatever the file, no name read from it has a "=" or a line break, and no value a line break or white space at
      its end. */
  lemma LoadedIsClean(text: string, group: string, app: string)
    requires Load(text, group, app).Ok?
    ensures CleanEnv(Load(text, group, app).value.rawEnv)
  {
    ScannedLines(text);
    AbsorbedIsClean(EMPTY, Prefix(group, app), Scan(text).value);
  }

  lemma ScannedLines(text: string)
    requires Scan(text).Ok?
    ensures forall l :: l in Scan(text).value ==> OneLine(l)
  {
    LinesOneLine(text);
    var lines := Lines(text);
    assert forall l :: l in lines[..|lines| - 1] ==> l in lines;
    DroppedLines(lines);
    DroppedLines(lines[..|lines| - 1]);
  }

  lemma DroppedLines(lines: seq<string>)
    requires forall l :: l in lines ==> OneLine(l)
    ensures forall l :: l in DropCRs(lines) ==> OneLine(l)
  {
    forall k | 0 <= k < |lines| ensures OneLine(DropCR(lines[k])) { assert lines[k] in lines; }
  }

  /** Printing the secrets of a workload, in any order, and loading the file gives back exactly the secrets, split as
      expected, if and only if names hold no "=" or line break, values no line break or trailing white space,
      and no line is longer than the scanner takes. */
  lemma RoundTrip(group: string, app: string, order: seq<string>, secrets: map<string, string>)
    requires OneLine(group) && OneLine(app) && (set k | k in order) == secrets.Keys
    ensures forall k :: k in order ==> k in secrets
    ensures var text := Unlines(SeedLines(Normal(group), Normal(app), order, secrets));
            Load(text, group, app) == Ok(Expected(Prefix(group, app), secrets))
            <==> Clean(Prefix(group, app), secrets) && Scannable(text)
  {
    forall k | k in order ensures k in secrets { assert k in (set n | n in order); }
    var prefix := Prefix(group, app);
    var text := Unlines(SeedLines(Normal(group), Normal(app), order, secrets));
    if Clean(prefix, secrets) {
      CleanIsRecovered(group, app, order, secrets);
    }
    if Load(text, group, app) == Ok(Expected(prefix, secrets)) {
      LoadedIsClean(text, group, app);
      ExpectedClean(prefix, secrets);
    }
  }

  lemma ExpectedClean(prefix: string, secrets: map<string, string>)
    requires CleanEnv(RawEnv(prefix, secrets))
    ensures Clean(prefix, secrets)
  {
    forall k | k in secrets ensures CleanName(FullName(prefix, k)) && CleanValue(secrets[k]) {
      KeyOfFullName(prefix, k);
      assert FullName(prefix, k) in RawEnv(prefix, secrets);
    }
  }
}
