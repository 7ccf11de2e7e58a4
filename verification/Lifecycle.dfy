/** Runs of commands: what holds of the tree whatever commands are given and wherever they fail. */
module Lifecycle {
  import opened Wrappers
  import opened Text
  import opened FileTree
  import opened Disk
  import opened Sync
  import opened Gateway
  import GatewayFrame
  import GatewayList
  import GatewayRuns
  import GatewayUndo
  import Rendering
  import opened Creation
  import opened Workloads
  import opened Promotion
  import opened Commands
  import opened Removal

  // ---- Integrity ------------------------------------------------------------------------------

  /** What is promoted has a workload it was promoted from. */
  ghost predicate Integrity(t: Tree, c: Config) {
    forall ref: Ref :: AppName(ref.app) && Resolve(c, ref).gitopsFile in t ==> Resolve(c, ref).workloadDir in t
  }

  lemma SameManifest(c: Config, a: Ref, b: Ref)
    ensures Resolve(c, a).gitopsFile == Resolve(c, b).gitopsFile ==> a == b
    ensures Resolve(c, a).workloadDir <= Resolve(c, b).workloadDir ==> a == b
  {
    var p, q := Resolve(c, a), Resolve(c, b);
    if p.gitopsFile == q.gitopsFile {
      assert p.gitopsFile[|c.workloads|] == a.group && q.gitopsFile[|c.workloads|] == b.group;
      assert p.gitopsFile[|c.workloads| + 1] == a.app + ".yaml" && q.gitopsFile[|c.workloads| + 1] == b.app + ".yaml";
      assert a.app == (a.app + ".yaml")[..|a.app|] && b.app == (b.app + ".yaml")[..|b.app|];
    }
    if p.workloadDir <= q.workloadDir {
      assert p.workloadDir == q.workloadDir[..|p.workloadDir|];
      assert p.workloadDir[|c.scaffold|] == a.group && q.workloadDir[|c.scaffold|] == b.group;
      assert p.workloadDir[|c.scaffold| + 1] == a.app && q.workloadDir[|c.scaffold| + 1] == b.app;
    }
  }

  /** Enabling one workload makes no manifest of another. */
  lemma OthersManifest(c: Config, mine: Ref, theirs: Ref)
    requires WellPlaced(c) && AppName(mine.app) && AppName(theirs.app) && mine != theirs
    ensures var p, q := Resolve(c, mine), Resolve(c, theirs).gitopsFile;
            !Own(p, q) && !(q <= p.resources) && !(q <= p.routes) && q != p.appDir && q != p.gitopsDir
  {
    var p, q := Resolve(c, mine), Resolve(c, theirs).gitopsFile;
    SameManifest(c, mine, theirs);
    var base, name := c.workloads, [theirs.group, theirs.app + ".yaml"];
    assert q == base + name;
    InBase(base, name, c.routes, q);
    InBase(base, name, c.gatewayFile, q);
    assert c.routes <= p.route;
    YamlDiffers(theirs.app, mine.app);
    assert q[|base| + 1] == theirs.app + ".yaml" && p.resources[|base| + 1] == mine.app
      && p.appDir[|base| + 1] == mine.app;
    assert |q| == |base| + 2 && |p.resources| == |base| + 3 && |p.gitopsDir| == |base| + 1;
  }

  /** The workloads' directories are out of reach of enabling and disabling. */
  lemma SourcesStay(c: Config, mine: Ref, theirs: Ref, x: Path)
    requires WellPlaced(c)
    ensures var p, q := Resolve(c, mine), Resolve(c, theirs).workloadDir + x;
            !Own(p, q) && q != p.appDir && q != p.gitopsDir
  {
    var p, q := Resolve(c, mine), Resolve(c, theirs).workloadDir + x;
    assert q == c.scaffold + ([theirs.group, theirs.app] + x);
    InBase(c.scaffold, [theirs.group, theirs.app] + x, c.workloads, q);
    InBase(c.scaffold, [theirs.group, theirs.app] + x, c.routes, q);
    InBase(c.scaffold, [theirs.group, theirs.app] + x, c.gatewayFile, q);
    assert c.workloads <= p.resources && c.workloads <= p.gitopsFile && c.workloads <= p.appDir
      && c.workloads <= p.gitopsDir;
    assert c.routes <= p.route;
    PrefixTransitive(c.workloads, p.resources, q);
  }

  lemma EnableKeepsIntegrity(t: Tree, u: Tree, c: Config, ref: Ref)
    requires WellPlaced(c) && AppName(ref.app) && WellFormed(t) && Integrity(t, c) && Reaches(t, u, Resolve(c, ref))
    requires var p := Resolve(c, ref); p.gitopsFile in u ==> p.gitopsFile in t || Manifest(p) in t
    ensures Integrity(u, c)
  {
    forall other: Ref | AppName(other.app) && Resolve(c, other).gitopsFile in u
      ensures Resolve(c, other).workloadDir in u
    {
      var q := Resolve(c, other);
      if other == ref {
        if Manifest(q) in t { BelowIsDir(t, q.workloadDir, Manifest(q)); }
      } else {
        OthersManifest(c, ref, other);
      }
      SourcesStay(c, ref, other, []);
      assert q.workloadDir + [] == q.workloadDir;
    }
  }

  lemma DisableKeepsIntegrity(t: Tree, u: Tree, c: Config, ref: Ref)
    requires WellPlaced(c) && Integrity(t, c) && Shrinks(t, u, Resolve(c, ref))
    ensures Integrity(u, c)
  {
    forall other: Ref | AppName(other.app) && Resolve(c, other).gitopsFile in u
      ensures Resolve(c, other).workloadDir in u
    {
      SourcesStay(c, ref, other, []);
      assert Resolve(c, other).workloadDir + [] == Resolve(c, other).workloadDir;
    }
  }

  lemma NewKeepsIntegrity(t: Tree, u: Tree, c: Config, ref: Ref)
    requires WellPlaced(c) && Integrity(t, c) && Made(t, u, Resolve(c, ref).workloadDir)
    ensures Integrity(u, c)
  {
    forall other: Ref | AppName(other.app) && Resolve(c, other).gitopsFile in u
      ensures Resolve(c, other).workloadDir in u
    {
      SourcePlace(c, ref, []);
      assert Resolve(c, ref).workloadDir + [] == Resolve(c, ref).workloadDir;
      ApartExtended(c.scaffold, [ref.group, ref.app], c.workloads, [other.group, other.app + ".yaml"]);
      assert Resolve(c, other).gitopsFile in t;
    }
  }

  lemma DeleteKeepsIntegrity(t: Tree, u: Tree, c: Config, ref: Ref)
    requires WellPlaced(c) && Integrity(t, c) && (forall q :: q in u ==> q in t)
    requires forall q :: q in t && q !in u ==> Resolve(c, ref).workloadDir <= q || q == c.scaffold + [ref.group]
    requires Resolve(c, ref).gitopsFile !in t || u == t
    ensures Integrity(u, c)
  {
    forall other: Ref | AppName(other.app) && Resolve(c, other).gitopsFile in u
      ensures Resolve(c, other).workloadDir in u
    {
      SameManifest(c, ref, other);
      assert |Resolve(c, other).workloadDir| > |c.scaffold + [ref.group]|;
    }
  }

  datatype Command =
    | NewWorkload(ref: Ref, flags: Flags, templates: seq<Source>, cfg: Rendering.DefaultsConfig,
                  secrets: Option<map<string, string>>)
    | EnableWorkload(ref: Ref, force: bool)
    | DisableWorkload(ref: Ref)
    | DeleteWorkload(ref: Ref)

  /** What a command asks of the gateway manifest, if anything. */
  predicate Asks(command: Command, op: GatewayRuns.Op) {
    || (command.EnableWorkload? && op == GatewayRuns.Add(command.ref.app))
    || (command.DisableWorkload? && op == GatewayRuns.Remove(command.ref.app))
  }

  type Asked = Option<GatewayRuns.Op>

  /** What a command did to the gateway manifest, if anything, is what it asks for. A disabling that succeeded did it,
      and an enabling that succeeded exactly if the workload has a gateway. */
  predicate AskedFor(t: Tree, c: Config, command: Command, ok: bool, asked: Asked) {
    && (asked.Some? ==> Asks(command, asked.value))
    && (command.DisableWorkload? && ok ==> asked.Some?)
    && (command.EnableWorkload? && ok ==> (asked.Some? <==> HasGateway(t, Resolve(c, command.ref))))
  }

  ghost predicate Created(u: Tree, c: Config, command: Command, files: seq<Rendered>, seed: string)
    requires command.NewWorkload?
  {
    && command.secrets.Some? && IsSeedFile(command.ref, command.secrets.value, seed)
    && AreRenderings(command.templates, VarsOf(command.ref, command.flags), command.cfg, files)
    && Written(u, Resolve(c, command.ref).workloadDir, files + [Rendered(SECRET_SEED, seed)])
  }

  /** A command on a reliable file system: it succeeds exactly if it may, and what it then makes of the tree; a failed
      one stays within the same bounds. */
  ghost predicate Effect(t: Tree, u: Tree, c: Config, command: Command, ok: bool) {
    var p := Resolve(c, command.ref);
    match command
    case NewWorkload(ref, flags, templates, _, secrets) =>
      && (ok <==> MayCreate(t, c, ref, flags) && secrets.Some? && Placeable(SourcePaths(templates) + {SECRET_SEED}))
      && (ok ==> exists files, seed :: Created(u, c, command, files, seed))
      && Made(t, u, p.workloadDir)
    case EnableWorkload(ref, force) =>
      && (ok <==> (force || Guarded(t, p)) && CanEnable(t, p))
      && (ok ==> IsEnabled(t, u, p, ref.app) && InPlace(t, u, c, ref)) && Reaches(t, u, p)
    case DisableWorkload(ref) =>
      && (ok <==> CanDisable(t, p))
      && (ok ==> IsDisabled(t, u, p, ref.app) && OutOfPlace(t, u, c, ref)) && Shrinks(t, u, p)
    case DeleteWorkload(ref) =>
      && (ok <==> CanDelete(t, p))
      && (ok ==> u == Pruned(Cleared(t, p.workloadDir), c.scaffold + [ref.group]))
      && forall q :: q in u ==> q in t && u[q] == t[q]
  }

  /** The trees between the commands: each comes from the one before by its command. */
  ghost predicate Effects(trees: seq<Tree>, c: Config, commands: seq<Command>, oks: seq<bool>) {
    && |trees| == |commands| + 1 == |oks| + 1
    && forall i :: 0 <= i < |commands| ==> Effect(trees[i], trees[i + 1], c, commands[i], oks[i])
  }

  predicate AskedBy(trees: seq<Tree>, c: Config, commands: seq<Command>, oks: seq<bool>, asked: seq<Asked>) {
    && |asked| == |oks| == |commands| && |trees| > |commands|
    && forall i :: 0 <= i < |commands| ==> AskedFor(trees[i], c, commands[i], oks[i], asked[i])
  }

  /** The changes, in the order of the commands. */
  function Changes(asked: seq<Asked>): seq<GatewayRuns.Op> {
    if asked == [] then []
    else Changes(asked[..|asked| - 1]) + (if asked[|asked| - 1].Some? then [asked[|asked| - 1].value] else [])
  }

  lemma ChangesMore(asked: seq<Asked>, next: Asked)
    ensures Changes(asked + [next]) == Changes(asked) + (if next.Some? then [next.value] else [])
  {
    assert (asked + [next])[..|asked|] == asked;
  }

  lemma {:induction false} ChangesAsked(trees: seq<Tree>, c: Config, commands: seq<Command>, oks: seq<bool>,
                                        asked: seq<Asked>)
    requires AskedBy(trees, c, commands, oks, asked)
    ensures forall op :: op in Changes(asked) ==> exists command :: command in commands && Asks(command, op)
    decreases |asked|
  {
    if asked != [] {
      var n := |asked| - 1;
      ChangesAsked(trees[..n + 1], c, commands[..n], oks[..n], asked[..n]);
      assert commands[n] in commands;
    }
  }

  lemma AskedMore(trees: seq<Tree>, u: Tree, c: Config, commands: seq<Command>, i: nat, oks: seq<bool>,
                  asked: seq<Asked>, ok: bool, next: Asked)
    requires i < |commands| && AskedBy(trees, c, commands[..i], oks, asked) && |trees| == i + 1
    requires AskedFor(trees[i], c, commands[i], ok, next)
    ensures AskedBy(trees + [u], c, commands[..i + 1], oks + [ok], asked + [next])
  {
    assert commands[..i + 1] == commands[..i] + [commands[i]];
  }

  lemma EffectsMore(trees: seq<Tree>, u: Tree, c: Config, commands: seq<Command>, i: nat, oks: seq<bool>, ok: bool)
    requires i < |commands| && Effects(trees, c, commands[..i], oks)
    requires Effect(trees[i], u, c, commands[i], ok)
    ensures Effects(trees + [u], c, commands[..i + 1], oks + [ok])
  {
    var more, all, done := trees + [u], commands[..i + 1], oks + [ok];
    forall k | 0 <= k <= i ensures Effect(more[k], more[k + 1], c, all[k], done[k]) {
      if k < i {
        assert more[k] == trees[k] && more[k + 1] == trees[k + 1] && all[k] == commands[..i][k] && done[k] == oks[k];
      } else {
        assert more[k] == trees[i] && more[k + 1] == u && all[k] == commands[i] && done[k] == ok;
      }
    }
  }

  lemma TextMore(content: string, asked: seq<Asked>, next: Asked)
    ensures GatewayRuns.FileRun(content, Changes(asked + [next]))
         == AfterAsked(GatewayRuns.FileRun(content, Changes(asked)), next)
  {
    ChangesMore(asked, next);
    if next.Some? {
      FileRunSnoc(content, Changes(asked), next.value);
    } else {
      assert Changes(asked) + [] == Changes(asked);
    }
  }

  /** The text of the manifest after the change, if there is one. */
  function AfterAsked(content: string, asked: Asked): string {
    if asked.Some? then Applied(content, GatewayRuns.ChangeOf(asked.value)) else content
  }

  /** After any sequence of commands, each of which may fail at any point, every promoted manifest still has its
      workload. On a reliable file system each command has its effect on the tree that the one before left, and the
      gateway manifest has gone through the changes of the commands, in their order and one for each command at most. */
  method Execute(fs: FileSystem, c: Config, commands: seq<Command>)
    returns (oks: seq<bool>, ghost trees: seq<Tree>, ghost asked: seq<Asked>)
    requires fs.Valid() && WellPlaced(c) && Integrity(fs.tree, c)
    requires forall cmd :: cmd in commands ==> AppName(cmd.ref.app)
    modifies fs
    ensures fs.Valid() && Integrity(fs.tree, c)
    ensures |trees| == |commands| + 1 == |oks| + 1 && trees[0] == old(fs.tree) && trees[|commands|] == fs.tree
    ensures fs.reliable ==> Effects(trees, c, commands, oks)
    ensures fs.reliable && IsFile(old(fs.tree), c.gatewayFile) ==>
              AskedBy(trees, c, commands, oks, asked)
              && Lookup(fs.tree, c.gatewayFile)
                 == Some(File(GatewayRuns.FileRun(old(fs.tree[c.gatewayFile].data), Changes(asked))))
  {
    oks, trees, asked := [], [fs.tree], [];
    for i := 0 to |commands|
      invariant fs.Valid() && Integrity(fs.tree, c) && |oks| == i
      invariant |trees| == i + 1 && trees[0] == old(fs.tree) && trees[i] == fs.tree
      invariant fs.reliable ==> Effects(trees, c, commands[..i], oks)
      invariant fs.reliable && IsFile(old(fs.tree), c.gatewayFile) ==>
        AskedBy(trees, c, commands[..i], oks, asked)
        && Lookup(fs.tree, c.gatewayFile)
           == Some(File(GatewayRuns.FileRun(old(fs.tree[c.gatewayFile].data), Changes(asked))))
    {
      assert commands[i] in commands;
      ghost var next;
      var ok;
      ok, next := ExecuteOne(fs, c, commands[i]);
      if fs.reliable {
        EffectsMore(trees, fs.tree, c, commands, i, oks, ok);
      }
      if fs.reliable && IsFile(old(fs.tree), c.gatewayFile) {
        AskedMore(trees, fs.tree, c, commands, i, oks, asked, ok, next);
        TextMore(old(fs.tree[c.gatewayFile].data), asked, next);
      }
      oks, trees, asked := oks + [ok], trees + [fs.tree], asked + [next];
    }
    assert commands[..|commands|] == commands;
  }

  lemma {:induction false} FileRunSnoc(content: string, ops: seq<GatewayRuns.Op>, op: GatewayRuns.Op)
    ensures GatewayRuns.FileRun(content, ops + [op])
         == Applied(GatewayRuns.FileRun(content, ops), GatewayRuns.ChangeOf(op))
    decreases |ops|
  {
    if ops == [] {
      assert (ops + [op])[1..] == [];
    } else {
      assert (ops + [op])[1..] == ops[1..] + [op];
      FileRunSnoc(Applied(content, GatewayRuns.ChangeOf(ops[0])), ops[1..], op);
    }
  }

  /** One command. On a reliable file system it has its effect, and the manifest changes as the command asks or not at
      all. */
  method ExecuteOne(fs: FileSystem, c: Config, command: Command) returns (ok: bool, ghost asked: Asked)
    requires fs.Valid() && WellPlaced(c) && Integrity(fs.tree, c) && AppName(command.ref.app)
    modifies fs
    ensures fs.Valid() && Integrity(fs.tree, c)
    ensures fs.reliable ==> Effect(old(fs.tree), fs.tree, c, command, ok)
    ensures fs.reliable && IsFile(old(fs.tree), c.gatewayFile) ==>
              && Lookup(fs.tree, c.gatewayFile) == Some(File(AfterAsked(old(fs.tree[c.gatewayFile].data), asked)))
              && AskedFor(old(fs.tree), c, command, ok, asked)
  {
    asked := None;
    match command
    case NewWorkload(_, _, _, _, _) =>
      ok := ExecuteNew(fs, c, command);
    case EnableWorkload(ref, force) =>
      ok, asked := ExecuteEnable(fs, c, ref, force);
    case DisableWorkload(ref) =>
      ok, asked := ExecuteDisable(fs, c, ref);
    case DeleteWorkload(ref) =>
      ok := ExecuteDelete(fs, c, ref);
  }

  method ExecuteNew(fs: FileSystem, c: Config, command: Command) returns (ok: bool)
    requires fs.Valid() && WellPlaced(c) && Integrity(fs.tree, c) && command.NewWorkload?
    modifies fs
    ensures fs.Valid() && Integrity(fs.tree, c) && Lookup(fs.tree, c.gatewayFile) == Lookup(old(fs.tree), c.gatewayFile)
    ensures fs.reliable ==> Effect(old(fs.tree), fs.tree, c, command, ok)
  {
    ghost var t := fs.tree;
    ghost var files, seed;
    ok, files, seed := New(fs, c, command.ref, command.flags, command.templates, command.cfg, command.secrets);
    assert ok ==> Created(fs.tree, c, command, files, seed);
    NewKeepsIntegrity(t, fs.tree, c, command.ref);
    GatewayApart(c, command.ref);
  }

  method ExecuteDelete(fs: FileSystem, c: Config, ref: Ref) returns (ok: bool)
    requires fs.Valid() && WellPlaced(c) && Integrity(fs.tree, c)
    modifies fs
    ensures fs.Valid() && Integrity(fs.tree, c) && Lookup(fs.tree, c.gatewayFile) == Lookup(old(fs.tree), c.gatewayFile)
    ensures fs.reliable ==> Effect(old(fs.tree), fs.tree, c, DeleteWorkload(ref), ok)
  {
    ghost var t := fs.tree;
    ok := Delete(fs, c, ref);
    DeleteKeepsIntegrity(t, fs.tree, c, ref);
    GatewayApart(c, ref);
  }

  method ExecuteEnable(fs: FileSystem, c: Config, ref: Ref, force: bool) returns (ok: bool, ghost asked: Asked)
    requires fs.Valid() && WellPlaced(c) && Integrity(fs.tree, c) && AppName(ref.app)
    modifies fs
    ensures fs.Valid() && Integrity(fs.tree, c)
    ensures asked.Some? ==> asked == Some(GatewayRuns.Add(ref.app))
    ensures fs.reliable ==> Effect(old(fs.tree), fs.tree, c, EnableWorkload(ref, force), ok)
    ensures fs.reliable && IsFile(old(fs.tree), c.gatewayFile) ==>
              && Lookup(fs.tree, c.gatewayFile) == Some(File(AfterAsked(old(fs.tree[c.gatewayFile].data), asked)))
              && (ok ==> (asked.Some? <==> HasGateway(old(fs.tree), Resolve(c, ref))))
  {
    ghost var t := fs.tree;
    ok := Enable(fs, c, ref, force);
    EnableKeepsIntegrity(t, fs.tree, c, ref);
    asked := EnableAsked(t, fs.tree, c, ref, ok, fs.reliable);
  }

  method ExecuteDisable(fs: FileSystem, c: Config, ref: Ref) returns (ok: bool, ghost asked: Asked)
    requires fs.Valid() && WellPlaced(c) && Integrity(fs.tree, c) && AppName(ref.app)
    modifies fs
    ensures fs.Valid() && Integrity(fs.tree, c)
    ensures asked.Some? ==> asked == Some(GatewayRuns.Remove(ref.app))
    ensures fs.reliable ==> Effect(old(fs.tree), fs.tree, c, DisableWorkload(ref), ok)
    ensures fs.reliable && IsFile(old(fs.tree), c.gatewayFile) ==>
              && Lookup(fs.tree, c.gatewayFile) == Some(File(AfterAsked(old(fs.tree[c.gatewayFile].data), asked)))
              && (ok ==> asked.Some?)
  {
    ghost var t := fs.tree;
    ok := Disable(fs, c, ref);
    DisableKeepsIntegrity(t, fs.tree, c, ref);
    asked := DisableAsked(t, fs.tree, c, ref, ok, fs.reliable);
  }

  lemma EnableAsked(t: Tree, u: Tree, c: Config, ref: Ref, ok: bool, reliable: bool) returns (asked: Asked)
    requires WellPlaced(c) && AppName(ref.app)
    requires ok ==> CanEnable(t, Resolve(c, ref)) && IsEnabled(t, u, Resolve(c, ref), ref.app)
    requires reliable ==> ListenerStep(t, u, c.gatewayFile, AddChange(ref.app))
    ensures asked.Some? ==> asked == Some(GatewayRuns.Add(ref.app))
    ensures reliable && IsFile(t, c.gatewayFile) ==>
              && Lookup(u, c.gatewayFile) == Some(File(AfterAsked(t[c.gatewayFile].data, asked)))
              && (ok ==> (asked.Some? <==> HasGateway(t, Resolve(c, ref))))
  {
    var p := Resolve(c, ref);
    asked := None;
    if ok {
      Places(c, ref);
      GatewayElsewhere(c, ref);
      assert Lookup(u, p.gatewayFile) == EnabledNode(t, p, ref.app, p.gatewayFile);
      if HasGateway(t, p) { asked := Some(GatewayRuns.Add(ref.app)); }
    } else if Lookup(u, c.gatewayFile) != Lookup(t, c.gatewayFile) {
      asked := Some(GatewayRuns.Add(ref.app));
    }
  }

  lemma DisableAsked(t: Tree, u: Tree, c: Config, ref: Ref, ok: bool, reliable: bool) returns (asked: Asked)
    requires WellPlaced(c) && AppName(ref.app)
    requires reliable && ok ==> CanDisable(t, Resolve(c, ref)) && IsDisabled(t, u, Resolve(c, ref), ref.app)
    requires reliable ==> ListenerStep(t, u, c.gatewayFile, RemoveChange(ref.app))
    ensures asked.Some? ==> asked == Some(GatewayRuns.Remove(ref.app))
    ensures reliable && IsFile(t, c.gatewayFile) ==>
              && Lookup(u, c.gatewayFile) == Some(File(AfterAsked(t[c.gatewayFile].data, asked)))
              && (ok ==> asked.Some?)
  {
    var p := Resolve(c, ref);
    asked := None;
    if reliable && ok {
      GatewayElsewhere(c, ref);
      assert Lookup(u, p.gatewayFile) == DisabledNode(t, p, ref.app, p.gatewayFile);
      asked := Some(GatewayRuns.Remove(ref.app));
    } else if Lookup(u, c.gatewayFile) != Lookup(t, c.gatewayFile) {
      asked := Some(GatewayRuns.Remove(ref.app));
    }
  }

  lemma GatewayApart(c: Config, ref: Ref)
    requires WellPlaced(c)
    ensures !(Resolve(c, ref).workloadDir <= c.gatewayFile) && c.gatewayFile != c.scaffold + [ref.group]
  {
    assert Resolve(c, ref).workloadDir + [] == Resolve(c, ref).workloadDir;
    SourcePlace(c, ref, []);
    assert c.scaffold <= c.scaffold + [ref.group];
  }

  /** On a reliable file system, whatever the commands: a manifest that is a fixed part and the blocks of a list is
      still one, with the list that the changes make, as long as no listener of the fixed part is removed by name. */
  method ExecuteOnList(fs: FileSystem, c: Config, commands: seq<Command>, ghost fixed: seq<string>,
                       ghost names: seq<string>)
    returns (oks: seq<bool>, ghost trees: seq<Tree>, ghost asked: seq<Asked>)
    requires fs.Valid() && fs.reliable && WellPlaced(c) && Integrity(fs.tree, c)
    requires forall cmd :: cmd in commands ==> AppName(cmd.ref.app) && GatewayList.Label(cmd.ref.app)
    requires forall cmd :: cmd in commands && cmd.DisableWorkload? ==> GatewayList.Foreign(fixed, cmd.ref.app)
    requires GatewayList.Preamble(fixed) && GatewayList.Labels(names) && GatewayRuns.NoDuplicates(names)
    requires Lookup(fs.tree, c.gatewayFile) == Some(File(GatewayList.Manifest(fixed, names)))
    modifies fs
    ensures |trees| == |commands| + 1 && trees[0] == old(fs.tree) && trees[|commands|] == fs.tree
    ensures Effects(trees, c, commands, oks) && AskedBy(trees, c, commands, oks, asked)
    ensures GatewayRuns.NoDuplicates(GatewayRuns.ListRun(fixed, names, Changes(asked)))
    ensures Lookup(fs.tree, c.gatewayFile)
         == Some(File(GatewayList.Manifest(fixed, GatewayRuns.ListRun(fixed, names, Changes(asked)))))
  {
    oks, trees, asked := Execute(fs, c, commands);
    ChangesAsked(trees, c, commands, oks, asked);
    GatewayRuns.RunRefines(fixed, names, Changes(asked));
  }

  // ---- Other workloads ---------------------------------------------------------------------------

  /** What belongs to a workload: its directory, its promoted files and its route. */
  predicate BelongsTo(p: Paths, q: Path) {
    q == p.gitopsFile || p.appDir <= q || q == p.route || p.workloadDir <= q
  }

  lemma OthersPlaces(c: Config, mine: Ref, theirs: Ref, q: Path)
    requires WellPlaced(c) && AppName(mine.app) && AppName(theirs.app) && mine.app != theirs.app
    requires BelongsTo(Resolve(c, theirs), q)
    ensures var p := Resolve(c, mine);
            !Own(p, q) && q != p.appDir && q != p.gitopsDir && !(q <= p.resources) && !(q <= p.routes)
  {
    var p, o := Resolve(c, mine), Resolve(c, theirs);
    if q == o.gitopsFile {
      OthersManifest(c, mine, theirs);
    } else if o.workloadDir <= q {
      JoinsBelow(o.workloadDir, q);
      SourcesStay(c, mine, theirs, Below(o.workloadDir, q));
      InBase(c.scaffold, [theirs.group, theirs.app], c.workloads, q);
      InBase(c.scaffold, [theirs.group, theirs.app], c.routes, q);
      assert c.workloads <= p.resources;
      if q <= p.resources { PrefixesMeet(q, c.workloads, p.resources); }
    } else if o.appDir <= q {
      OthersAppDir(c, mine, theirs, q);
    } else {
      OthersRoute(c, mine, theirs);
    }
  }

  lemma OthersAppDir(c: Config, mine: Ref, theirs: Ref, q: Path)
    requires WellPlaced(c) && AppName(mine.app) && AppName(theirs.app) && mine.app != theirs.app
             && Resolve(c, theirs).appDir <= q
    ensures var p := Resolve(c, mine);
            !Own(p, q) && q != p.appDir && q != p.gitopsDir && !(q <= p.resources) && !(q <= p.routes)
  {
    var p, o := Resolve(c, mine), Resolve(c, theirs);
    InBase(c.workloads, [theirs.group, theirs.app], c.routes, q);
    InBase(c.workloads, [theirs.group, theirs.app], c.gatewayFile, q);
    assert c.routes <= p.route;
    YamlDiffers(mine.app, theirs.app);
    assert q[|c.workloads| + 1] == o.appDir[|c.workloads| + 1] == theirs.app;
    assert p.resources[|c.workloads| + 1] == mine.app && p.appDir[|c.workloads| + 1] == mine.app;
    assert p.gitopsFile[|c.workloads| + 1] == mine.app + ".yaml";
    assert |q| >= |c.workloads| + 2 && |p.gitopsDir| == |c.workloads| + 1;
  }

  lemma OthersRoute(c: Config, mine: Ref, theirs: Ref)
    requires WellPlaced(c) && AppName(mine.app) && AppName(theirs.app) && mine.app != theirs.app
    ensures var p, q := Resolve(c, mine), Resolve(c, theirs).route;
            !Own(p, q) && q != p.appDir && q != p.gitopsDir && !(q <= p.resources) && !(q <= p.routes)
  {
    var p, q := Resolve(c, mine), Resolve(c, theirs).route;
    InBase(c.routes, [theirs.app + ".yaml"], c.workloads, q);
    InBase(c.routes, [theirs.app + ".yaml"], c.gatewayFile, q);
    assert c.workloads <= p.resources && c.workloads <= p.gitopsFile && c.workloads <= p.appDir
      && c.workloads <= p.gitopsDir;
    PrefixTransitive(c.workloads, p.resources, q);
    if q <= p.resources { PrefixesMeet(q, c.workloads, p.resources); }
    assert q[|c.routes|] == theirs.app + ".yaml" && p.route[|c.routes|] == mine.app + ".yaml";
    assert theirs.app == (theirs.app + ".yaml")[..|theirs.app|] && mine.app == (mine.app + ".yaml")[..|mine.app|];
    assert |q| > |p.routes|;
  }

  /** However enabling or disabling a workload ends, nothing of an application with another name changes. */
  lemma OthersUntouched(t: Tree, u: Tree, c: Config, mine: Ref, theirs: Ref, q: Path)
    requires WellPlaced(c) && AppName(mine.app) && AppName(theirs.app) && mine.app != theirs.app
    requires Reaches(t, u, Resolve(c, mine)) || Shrinks(t, u, Resolve(c, mine))
    requires BelongsTo(Resolve(c, theirs), q)
    ensures Lookup(u, q) == Lookup(t, q)
  {
    OthersPlaces(c, mine, theirs, q);
  }

  lemma ListenerLost(u: Tree, v: Tree, c: Config, ref: Ref)
    requires WellPlaced(c) && AppName(ref.app) && OneLine(ref.app) && GatewayFrame.Findable(ref.app)
    requires CanDisable(u, Resolve(c, ref)) && IsDisabled(u, v, Resolve(c, ref), ref.app)
    ensures IsFile(u, c.gatewayFile) && IsFile(v, c.gatewayFile)
    ensures MarkersIn(v, c.gatewayFile, ref.app) == if MarkersIn(u, c.gatewayFile, ref.app) == 0 then 0
                                                    else MarkersIn(u, c.gatewayFile, ref.app) - 1
  {
    assert Lookup(v, c.gatewayFile) == DisabledNode(u, Resolve(c, ref), ref.app, c.gatewayFile);
    GatewayElsewhere(c, ref);
    GatewayUndo.ListenersAfter(u[c.gatewayFile].data, GatewayRuns.Remove(ref.app), ref.app);
  }

  /** Two applications of the same name share route and listener: disabling one leaves the other promoted, with all its
      resources, but without its route and with one listener less. */
  lemma SharedRouteLost(t: Tree, u: Tree, v: Tree, c: Config, mine: Ref, theirs: Ref)
    requires WellPlaced(c) && AppName(mine.app) && OneLine(mine.app) && GatewayFrame.Findable(mine.app)
    requires mine.app == theirs.app && mine.group != theirs.group
    requires CanEnable(t, Resolve(c, theirs)) && HasGateway(t, Resolve(c, theirs))
             && IsEnabled(t, u, Resolve(c, theirs), theirs.app)
    requires CanDisable(u, Resolve(c, mine)) && IsDisabled(u, v, Resolve(c, mine), mine.app)
    ensures var o := Resolve(c, theirs);
            && o.gitopsFile in v && (forall x :: o.resources <= x ==> Lookup(v, x) == Lookup(u, x))
            && o.route in u && o.route !in v
    ensures IsFile(u, c.gatewayFile) && IsFile(v, c.gatewayFile)
    ensures MarkersIn(v, c.gatewayFile, mine.app) == if MarkersIn(u, c.gatewayFile, mine.app) == 0 then 0
                                                     else MarkersIn(u, c.gatewayFile, mine.app) - 1
  {
    var p, o := Resolve(c, mine), Resolve(c, theirs);
    Places(c, mine);
    Places(c, theirs);
    OthersManifest(c, mine, theirs);
    assert Lookup(u, o.gitopsFile) == EnabledNode(t, o, theirs.app, o.gitopsFile);
    assert Lookup(v, o.gitopsFile) == DisabledNode(u, p, mine.app, o.gitopsFile);
    assert Lookup(u, o.route) == EnabledNode(t, o, theirs.app, o.route);
    assert Lookup(v, o.route) == DisabledNode(u, p, mine.app, o.route);
    forall x | o.resources <= x ensures Lookup(v, x) == Lookup(u, x) {
      OtherGroup(c, mine, theirs, x);
      assert Lookup(v, x) == DisabledNode(u, p, mine.app, x);
    }
    ListenerLost(u, v, c, mine);
  }

  /** How many listeners of that name the manifest has. */
  function MarkersIn(t: Tree, p: Path, app: string): nat
    requires IsFile(t, p)
  {
    GatewayFrame.Markers(Lines(t[p].data), app)
  }

  lemma OtherGroup(c: Config, mine: Ref, theirs: Ref, x: Path)
    requires WellPlaced(c) && AppName(mine.app) && mine.group != theirs.group && Resolve(c, theirs).resources <= x
    ensures var p := Resolve(c, mine); !Own(p, x) && x != p.appDir && x != p.gitopsDir
  {
    var p, o := Resolve(c, mine), Resolve(c, theirs);
    InBase(c.workloads, [theirs.group, theirs.app, "resources"], c.routes, x);
    InBase(c.workloads, [theirs.group, theirs.app, "resources"], c.gatewayFile, x);
    assert c.routes <= p.route;
    assert x[|c.workloads|] == o.resources[|c.workloads|] == theirs.group;
    assert p.resources[|c.workloads|] == mine.group && p.gitopsFile[|c.workloads|] == mine.group;
    assert p.appDir[|c.workloads|] == mine.group && p.gitopsDir[|c.workloads|] == mine.group;
  }

  /** The restriction on names is needed: promoting "x.yaml" from a sound tree leaves what looks like the promoted
      manifest of "x", and so keeps integrity exactly if "x" happens to be a workload, too. */
  lemma YamlNameBreaksIntegrity(t: Tree, u: Tree, c: Config, group: string, app: string)
    requires WellPlaced(c) && AppName(app) && Integrity(t, c)
    requires var p := Resolve(c, Ref(group, app + ".yaml")); CanPromote(t, p) && IsPromoted(t, u, p)
    ensures Integrity(u, c) <==> Resolve(c, Ref(group, app)).workloadDir in t
  {
    var p := Resolve(c, Ref(group, app + ".yaml"));
    var x := Resolve(c, Ref(group, app));
    assert x.gitopsFile == p.appDir && p.resources == p.appDir + ["resources"];
    assert Lookup(u, x.gitopsFile) == PromotedNode(t, p, x.gitopsFile);
    WorkloadStays(t, u, c, Ref(group, app + ".yaml"), Ref(group, app));
    if x.workloadDir in t {
      forall other: Ref | AppName(other.app) && Resolve(c, other).gitopsFile in u
        ensures Resolve(c, other).workloadDir in u
      {
        YamlManifests(t, u, c, group, app, other);
        WorkloadStays(t, u, c, Ref(group, app + ".yaml"), other);
      }
    }
  }

  lemma WorkloadStays(t: Tree, u: Tree, c: Config, mine: Ref, theirs: Ref)
    requires WellPlaced(c) && CanPromote(t, Resolve(c, mine)) && IsPromoted(t, u, Resolve(c, mine))
    ensures Resolve(c, theirs).workloadDir in u <==> Resolve(c, theirs).workloadDir in t
  {
    var p, q := Resolve(c, mine), Resolve(c, theirs).workloadDir;
    assert Lookup(u, q) == PromotedNode(t, p, q);
    ApartExtended(c.scaffold, [theirs.group, theirs.app], c.workloads, [mine.group, mine.app, "resources"]);
    ApartExtended(c.scaffold, [theirs.group, theirs.app], c.workloads, [mine.group, mine.app + ".yaml"]);
  }

  /** The manifests that seem to be there after promoting "app.yaml". */
  lemma YamlManifests(t: Tree, u: Tree, c: Config, group: string, app: string, other: Ref)
    requires WellPlaced(c) && AppName(app) && AppName(other.app) && Resolve(c, other).gitopsFile in u
    requires var p := Resolve(c, Ref(group, app + ".yaml")); CanPromote(t, p) && IsPromoted(t, u, p)
    ensures Resolve(c, other).gitopsFile in t || other == Ref(group, app)
  {
    var p, q := Resolve(c, Ref(group, app + ".yaml")), Resolve(c, other).gitopsFile;
    assert Lookup(u, q) == PromotedNode(t, p, q);
    SameManifest(c, Ref(group, app + ".yaml"), other);
    SameManifest(c, Ref(group, app), other);
    YamlDiffers(app, other.app);
    assert Resolve(c, Ref(group, app)).gitopsFile == p.appDir;
    assert |p.resources| == |q| + 1;
    if q <= p.resources { ResourcePrefixes(c, Ref(group, app + ".yaml"), q); }
  }

  // ---- Enabling and disabling ----------------------------------------------------------------------

  /** On a reliable file system, a workload that was enabled can be disabled again exactly if there is a gateway
      manifest and nothing is inside its route; the tree is then as before exactly if it was restorable. */
  method EnableThenDisable(fs: FileSystem, c: Config, ref: Ref, force: bool) returns (enabled: bool, disabled: bool)
    requires fs.Valid() && fs.reliable && WellPlaced(c) && AppName(ref.app) && OneLine(ref.app)
    modifies fs
    ensures var t := old(fs.tree);
            enabled <==> (force || !Refused(t, c, ref)) && Fits(t, c, ref)
    ensures enabled && disabled ==>
              IsFile(old(fs.tree), c.gatewayFile)
                  && (fs.tree == old(fs.tree) <==> Restorable(old(fs.tree), Resolve(c, ref), ref.app))
    ensures var t, p := old(fs.tree), Resolve(c, ref);
            enabled ==> (disabled <==> IsFile(t, c.gatewayFile) && (p.route in t ==> Barren(t, p.route)))
  {
    ghost var t, p := fs.tree, Resolve(c, ref);
    disabled := false;
    enabled := Enable(fs, c, ref, force);
    if !enabled {
      return;
    }
    ghost var u := fs.tree;
    CanDisableAfter(t, u, c, ref);
    disabled := Disable(fs, c, ref);
    if disabled {
      GatewayAfter(t, u, fs.tree, c, ref);
      DisableUndoesEnable(t, u, fs.tree, c, ref);
    }
  }

  /** On a reliable file system, enabling an enabled workload once more is refused, unless it is forced, and then it
      succeeds and changes nothing. */
  method EnableTwice(fs: FileSystem, c: Config, ref: Ref, force: bool, again: bool)
    returns (first: bool, second: bool, ghost between: Tree)
    requires fs.Valid() && fs.reliable && WellPlaced(c) && AppName(ref.app)
    modifies fs
    ensures first <==> (force || !Refused(old(fs.tree), c, ref)) && Fits(old(fs.tree), c, ref)
    ensures first ==> InPlace(old(fs.tree), between, c, ref) && (second <==> again) && fs.tree == between
  {
    ghost var t := fs.tree;
    second := false;
    first := Enable(fs, c, ref, force);
    between := fs.tree;
    if first {
      EnabledAgain(t, between, c, ref);
      GuardedExactly(between, c, ref);
      second := Enable(fs, c, ref, again);
      if second { SameEnabled(between, between, fs.tree, Resolve(c, ref), ref.app); }
    }
  }

  lemma SameEnabled(t: Tree, u: Tree, v: Tree, p: Paths, app: string)
    requires CanEnable(t, p) && IsEnabled(t, u, p, app) && IsEnabled(t, v, p, app)
    ensures u == v
  {
    forall q ensures Lookup(u, q) == Lookup(v, q) {
      assert Lookup(u, q) == EnabledNode(t, p, app, q) == Lookup(v, q);
    }
    SameLookups(u, v);
  }

  lemma FileIsBarren(t: Tree, p: Path)
    requires WellFormed(t) && IsFile(t, p)
    ensures Barren(t, p) && p != []
  {
    forall q | q in t && p <= q ensures q == p {
      if q != p { BelowIsDir(t, p, q); }
    }
  }

  lemma RouteInside(c: Config, ref: Ref, x: Path)
    requires WellPlaced(c) && AppName(ref.app) && Resolve(c, ref).route <= x && x != Resolve(c, ref).route
    ensures var p := Resolve(c, ref); !Own(p, x) && !(x <= p.resources) && !(x <= p.routes)
  {
    var p := Resolve(c, ref);
    OutOfGroup(c, ref, x);
    InBase(c.routes, [ref.app + ".yaml"], c.workloads, x);
    assert c.workloads <= p.resources;
    if x <= p.resources { PrefixesMeet(x, c.workloads, p.resources); }
    assert |p.routes| < |x|;
  }

  lemma BelowRouteStays(t: Tree, u: Tree, c: Config, ref: Ref)
    requires WellPlaced(c) && AppName(ref.app)
    requires CanEnable(t, Resolve(c, ref)) && IsEnabled(t, u, Resolve(c, ref), ref.app)
    ensures var p := Resolve(c, ref); forall x :: p.route <= x && x != p.route ==> (x in u <==> x in t)
  {
    var p := Resolve(c, ref);
    forall x | p.route <= x && x != p.route ensures x in u <==> x in t {
      RouteInside(c, ref, x);
      EnabledElsewhere(t, u, p, ref.app, x);
      assert Lookup(u, x) == Lookup(t, x);
    }
  }

  lemma CanDisableAfter(t: Tree, u: Tree, c: Config, ref: Ref)
    requires WellPlaced(c) && AppName(ref.app) && WellFormed(t) && WellFormed(u)
    requires CanEnable(t, Resolve(c, ref)) && IsEnabled(t, u, Resolve(c, ref), ref.app)
    ensures var p := Resolve(c, ref);
            CanDisable(u, p) <==> IsFile(t, c.gatewayFile) && (p.route in t ==> Barren(t, p.route))
  {
    var p := Resolve(c, ref);
    Places(c, ref);
    assert Lookup(u, p.gitopsFile) == EnabledNode(t, p, ref.app, p.gitopsFile);
    assert Lookup(u, p.gatewayFile) == EnabledNode(t, p, ref.app, p.gatewayFile);
    assert Lookup(u, p.route) == EnabledNode(t, p, ref.app, p.route);
    assert !(p.gitopsFile <= p.routes) by { InGroup(c, ref, p.gitopsFile); }
    FileIsBarren(u, p.gitopsFile);
    if HasGateway(t, p) {
      FileIsBarren(u, p.route);
      if p.route in t { FileIsBarren(t, p.route); }
    }
    BelowRouteStays(t, u, c, ref);
  }
}
