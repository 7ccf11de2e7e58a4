/** What the commands make of the file tree: where the files of a workload are, what enabling and
    disabling it changes, and when one undoes the other. */
module Workloads {
  import opened Wrappers
  import opened FileTree
  import opened Disk
  import opened Sync
  import opened Gateway
  import GatewayRuns
  import opened GatewayUndo
  import opened Text

  /** The base directories of the configuration, and the gateway manifest. */
  datatype Config = Config(scaffold: Path, workloads: Path, routes: Path, gatewayFile: Path)

  /** None of them is inside another. */
  predicate WellPlaced(c: Config) {
    && Apart(c.scaffold, c.workloads) && Apart(c.scaffold, c.routes) && Apart(c.workloads, c.routes)
    && Apart(c.gatewayFile, c.scaffold) && Apart(c.gatewayFile, c.workloads) && Apart(c.gatewayFile, c.routes)
    && c.workloads != [] && c.scaffold != []
  }

  datatype Ref = Ref(group: string, app: string)

  /** A name that is one component of a path and is not itself the name of a manifest. */
  predicate AppName(app: string) { !(|app| >= 5 && app[|app| - 5..] == ".yaml") }

  datatype Paths = Paths(workloadDir: Path, base: Path, gitopsDir: Path, gitopsFile: Path, appDir: Path,
                         resources: Path,
                         gatewayFile: Path, routes: Path, route: Path)

  function Resolve(c: Config, ref: Ref): Paths {
    Paths(c.scaffold + [ref.group, ref.app], c.workloads, c.workloads + [ref.group],
        c.workloads + [ref.group, ref.app + ".yaml"],
          c.workloads + [ref.group, ref.app], c.workloads + [ref.group, ref.app, "resources"],
          c.gatewayFile, c.routes, c.routes + [ref.app + ".yaml"])
  }

  function Manifest(p: Paths): Path { p.workloadDir + ["app.yaml"] }

  function Route(p: Paths): Path { p.workloadDir + ["infra", "gateway.yaml"] }

  // ---- How the paths lie --------------------------------------------------------------------

  /** What of the tree belongs to the workload alone, and the gateway manifest. */
  predicate Own(p: Paths, q: Path) {
    q == p.gitopsFile || p.resources <= q || q == p.route || q == p.gatewayFile
  }

  lemma InBase(base: Path, rest: Path, other: Path, q: Path)
    requires Apart(base, other) && base + rest <= q
    ensures !(other <= q) && !(q <= other)
  {
    assert base <= base + rest;
    PrefixTransitive(base, base + rest, q);
    if other <= q { PrefixesMeet(base, other, q); }
    if q <= other { PrefixTransitive(base, q, other); }
  }

  /** The paths of a workload are in different places. */
  lemma Places(c: Config, ref: Ref)
    requires WellPlaced(c) && AppName(ref.app)
    ensures var p := Resolve(c, ref);
            && p.gitopsDir <= p.appDir && p.appDir <= p.resources && p.gitopsDir <= p.gitopsFile
               && c.workloads <= p.gitopsDir
            && !(p.gitopsFile <= p.resources) && !(p.resources <= p.gitopsFile) && p.gitopsFile != p.appDir
            && Apart(p.route, p.resources) && Apart(p.route, p.gitopsFile) && Apart(p.gatewayFile, p.resources)
            && Apart(p.gatewayFile, p.gitopsFile) && Apart(p.gatewayFile, p.route)
            && Apart(p.routes, p.gitopsDir) && Apart(p.gatewayFile, p.gitopsDir)
  {
    var p := Resolve(c, ref);
    assert p.appDir == p.gitopsDir + [ref.app] && p.resources == p.appDir + ["resources"];
    assert p.gitopsFile == p.gitopsDir + [ref.app + ".yaml"];
    assert p.gitopsDir == c.workloads + [ref.group] && p.route == c.routes + [ref.app + ".yaml"];
    YamlDiffers(ref.app, ref.app);
    assert p.resources[|c.workloads| + 1] == ref.app && p.gitopsFile[|c.workloads| + 1] == ref.app + ".yaml";
    ApartExtended(c.workloads, [ref.group, ref.app, "resources"], c.routes, [ref.app + ".yaml"]);
    ApartExtended(c.workloads, [ref.group, ref.app + ".yaml"], c.routes, [ref.app + ".yaml"]);
    ApartExtended(c.workloads, [ref.group, ref.app, "resources"], c.gatewayFile, []);
    ApartExtended(c.workloads, [ref.group, ref.app + ".yaml"], c.gatewayFile, []);
    ApartExtended(c.routes, [ref.app + ".yaml"], c.gatewayFile, []);
    ApartExtended(c.workloads, [ref.group], c.routes, []);
    ApartExtended(c.workloads, [ref.group], c.gatewayFile, []);
    assert c.gatewayFile + [] == c.gatewayFile && c.routes + [] == c.routes;
  }

  lemma YamlDiffers(a: string, b: string)
    requires AppName(b)
    ensures a + ".yaml" != b
  {
    assert (a + ".yaml")[|a + ".yaml"| - 5..] == ".yaml";
  }

  lemma ApartExtended(a: Path, x: Path, b: Path, y: Path)
    requires Apart(a, b)
    ensures Apart(a + x, b + y)
  {
    assert a <= a + x && b <= b + y;
    if a + x <= b + y {
      PrefixTransitive(a, a + x, b + y);
      PrefixesMeet(a, b, b + y);
    }
    if b + y <= a + x {
      PrefixTransitive(b, b + y, a + x);
      PrefixesMeet(b, a, a + x);
    }
  }

  /** The workload's own directory is out of reach of everything enabling and disabling write. */
  lemma SourcePlace(c: Config, ref: Ref, x: Path)
    requires WellPlaced(c)
    ensures var p := Resolve(c, ref);
            && Apart(p.workloadDir + x, p.resources) && Apart(p.workloadDir + x, p.gitopsFile)
               && Apart(p.workloadDir + x, p.gitopsDir)
            && Apart(p.workloadDir + x, p.route) && Apart(p.workloadDir + x, p.gatewayFile)
               && Apart(p.workloadDir + x, p.routes)
  {
    var p := Resolve(c, ref);
    assert p.workloadDir + x == c.scaffold + ([ref.group, ref.app] + x);
    ApartExtended(c.scaffold, [ref.group, ref.app] + x, c.workloads, [ref.group, ref.app, "resources"]);
    ApartExtended(c.scaffold, [ref.group, ref.app] + x, c.workloads, [ref.group, ref.app + ".yaml"]);
    ApartExtended(c.scaffold, [ref.group, ref.app] + x, c.workloads, [ref.group]);
    ApartExtended(c.scaffold, [ref.group, ref.app] + x, c.routes, [ref.app + ".yaml"]);
    ApartExtended(c.scaffold, [ref.group, ref.app] + x, c.gatewayFile, []);
    ApartExtended(c.scaffold, [ref.group, ref.app] + x, c.routes, []);
    assert c.gatewayFile + [] == c.gatewayFile && c.routes + [] == c.routes;
  }

  // ---- What enabling makes of the tree ------------------------------------------------------

  function Lookup(t: Tree, q: Path): Option<Node> { if q in t then Some(t[q]) else None }

  function AddChange(app: string): Change { GatewayRuns.ChangeOf(GatewayRuns.Add(app)) }

  function RemoveChange(app: string): Change { GatewayRuns.ChangeOf(GatewayRuns.Remove(app)) }

  predicate HasGateway(t: Tree, p: Paths) { Route(p) in t }

  /** The guards that `--force` skips. */
  predicate Guarded(t: Tree, p: Paths) {
    !StatOf(t, p.workloadDir).Absent? && !StatOf(t, Manifest(p)).Absent? && p.gitopsFile !in t
  }

  /** The manifests can be promoted: they are there, and nothing is in their way. */
  predicate CanPromote(t: Tree, p: Paths) {
    && CanMkdirs(t, p.gitopsDir) && IsFile(t, Manifest(p)) && !IsDir(t, p.gitopsFile)
    && CanCopy(t, p.workloadDir, p.resources, SyncParts(t, p.workloadDir))
  }

  predicate CanRoute(t: Tree, p: Paths) {
    CanMkdirs(t, p.routes) && IsFile(t, Route(p)) && !IsDir(t, p.route) && IsFile(t, p.gatewayFile)
  }

  predicate CanEnable(t: Tree, p: Paths) { CanPromote(t, p) && (HasGateway(t, p) ==> CanRoute(t, p)) }

  /** What is at `q` once the manifests are promoted. */
  function PromotedNode(t: Tree, p: Paths, q: Path): Option<Node>
    requires IsFile(t, Manifest(p))
  {
    if q == p.gitopsFile then Some(t[Manifest(p)])
    else if p.resources <= q
        && Below(p.resources, q) in SyncParts(t, p.workloadDir) then Some(t[p.workloadDir + Below(p.resources, q)])
    else if q in t then Some(t[q])
    else if q <= p.resources then Some(Dir)
    else None
  }

  /** What is at `q` once the workload is enabled. */
  function EnabledNode(t: Tree, p: Paths, app: string, q: Path): Option<Node>
    requires IsFile(t, Manifest(p)) && (HasGateway(t, p) ==> CanRoute(t, p))
  {
    if !HasGateway(t, p) then PromotedNode(t, p, q)
    else if q == p.route then Some(t[Route(p)])
    else if q == p.gatewayFile then Some(File(Applied(t[q].data, AddChange(app))))
    else if q !in t && q <= p.routes then Some(Dir)
    else PromotedNode(t, p, q)
  }

  ghost predicate IsPromoted(t: Tree, u: Tree, p: Paths)
    requires IsFile(t, Manifest(p))
  {
    forall q :: Lookup(u, q) == PromotedNode(t, p, q)
  }

  ghost predicate IsEnabled(t: Tree, u: Tree, p: Paths, app: string)
    requires CanEnable(t, p)
  {
    forall q :: Lookup(u, q) == EnabledNode(t, p, app, q)
  }

  // ---- What disabling makes of it -------------------------------------------------------------

  /** Nothing but the resources is in the workload's directory. */
  predicate AppEmptied(t: Tree, p: Paths) {
    IsDir(t, p.appDir) && forall x :: x in t && p.appDir <= x ==> x == p.appDir || p.resources <= x
  }

  /** Nothing but this workload is in the group's directory. */
  predicate GroupEmptied(t: Tree, p: Paths) {
    IsDir(t, p.gitopsDir) && forall x :: x in t && p.gitopsDir <= x ==>
      x == p.gitopsDir || x == p.gitopsFile || p.resources <= x || (x == p.appDir && AppEmptied(t, p))
  }

  function DisabledNode(t: Tree, p: Paths, app: string, q: Path): Option<Node>
    requires IsFile(t, p.gatewayFile)
  {
    if q == p.gitopsFile || q == p.route || p.resources <= q then None
    else if q == p.appDir && AppEmptied(t, p) then None
    else if q == p.gitopsDir && GroupEmptied(t, p) then None
    else if q == p.gatewayFile then Some(File(Applied(t[q].data, RemoveChange(app))))
    else Lookup(t, q)
  }

  predicate CanDisable(t: Tree, p: Paths) {
    CanRemove(t, p.gitopsFile) && IsFile(t, p.gatewayFile) && (p.route in t ==> Barren(t, p.route))
  }

  ghost predicate IsDisabled(t: Tree, u: Tree, p: Paths, app: string)
    requires CanDisable(t, p)
  {
    forall q :: Lookup(u, q) == DisabledNode(t, p, app, q)
  }

  // ---- When disabling undoes enabling ---------------------------------------------------------

  /** What a caller can check before enabling: the workload has left nothing behind, no empty directory is waiting to be
      cleaned up, the directories that are never removed exist, and the listener can be added and removed again. */
  predicate Restorable(t: Tree, p: Paths, app: string)
    requires IsFile(t, p.gatewayFile)
  {
    && p.gitopsFile !in t && p.resources !in t && p.route !in t
    && (p.appDir in t ==> !Barren(t, p.appDir))
    && (p.gitopsDir in t ==> !Barren(t, p.gitopsDir))
    && IsDir(t, p.base)
    && (HasGateway(t, p) ==> IsDir(t, p.routes))
    && Undoable(t[p.gatewayFile].data, HasGateway(t, p), app)
  }

  lemma NothingUnder(t: Tree, p: Path, q: Path)
    requires WellFormed(t) && p !in t && p <= q
    ensures q !in t
  {
    if q in t && q != p { BelowIsDir(t, p, q); }
  }

  // A workload that was enabled and then disabled: `t` before, `u` in between, `v` after.

  ghost predicate Undone(t: Tree, u: Tree, v: Tree, c: Config, ref: Ref) {
    var p := Resolve(c, ref);
    && WellPlaced(c) && AppName(ref.app) && OneLine(ref.app) && WellFormed(t) && WellFormed(u)
    && CanEnable(t, p) && IsEnabled(t, u, p, ref.app)
    && CanDisable(u, p) && IsDisabled(u, v, p, ref.app)
  }

  lemma ResourcePrefixes(c: Config, ref: Ref, q: Path)
    requires q <= Resolve(c, ref).resources
    ensures var p := Resolve(c, ref); q <= p.base || q == p.gitopsDir || q == p.appDir || q == p.resources
  {
    var p := Resolve(c, ref);
    assert p.resources == p.appDir + ["resources"] && p.appDir == p.gitopsDir + [ref.app]
      && p.gitopsDir == p.base + [ref.group];
    PrefixOfEntry(p.appDir, "resources", q);
    if q <= p.appDir {
      PrefixOfEntry(p.gitopsDir, ref.app, q);
      if q <= p.gitopsDir { PrefixOfEntry(p.base, ref.group, q); }
    }
  }

  /** Where enabling writes nothing but directories. */
  lemma EnabledElsewhere(t: Tree, u: Tree, p: Paths, app: string, q: Path)
    requires CanEnable(t, p) && IsEnabled(t, u, p, app) && !Own(p, q)
    ensures Lookup(u, q) == if q in t then Some(t[q])
            else if q <= p.resources || (HasGateway(t, p) && q <= p.routes) then Some(Dir) else None
  {
    assert Lookup(u, q) == EnabledNode(t, p, app, q);
  }

  /** Inside the group's directory. */
  lemma EnabledInGroup(t: Tree, u: Tree, c: Config, ref: Ref, q: Path)
    requires var p := Resolve(c, ref);
             WellPlaced(c) && AppName(ref.app) && CanEnable(t, p) && IsEnabled(t, u, p, ref.app) && p.gitopsDir <= q
    requires var p := Resolve(c, ref); q != p.gitopsFile && !(p.resources <= q)
    ensures var p := Resolve(c, ref);
            Lookup(u, q) == if q in t then Some(t[q]) else if q == p.gitopsDir || q == p.appDir then Some(Dir) else None
  {
    var p := Resolve(c, ref);
    Places(c, ref);
    InGroup(c, ref, q);
    EnabledElsewhere(t, u, p, ref.app, q);
    if q <= p.resources {
      ResourcePrefixes(c, ref, q);
      assert |p.base| < |p.gitopsDir|;
    }
    if q == p.gitopsDir || q == p.appDir { PrefixTransitive(q, p.appDir, p.resources); }
  }

  lemma InGroup(c: Config, ref: Ref, q: Path)
    requires WellPlaced(c) && Resolve(c, ref).gitopsDir <= q
    ensures var p := Resolve(c, ref); q != p.route && q != p.gatewayFile && !(q <= p.routes)
  {
    var p := Resolve(c, ref);
    InBase(c.workloads, [ref.group], c.routes, q);
    InBase(c.workloads, [ref.group], c.gatewayFile, q);
    assert c.routes <= p.route;
  }

  /** What is in the workload's directory besides its resources was there before. */
  lemma AppContents(t: Tree, u: Tree, c: Config, ref: Ref, x: Path)
    requires var p := Resolve(c, ref);
             && WellPlaced(c) && AppName(ref.app) && CanEnable(t, p) && IsEnabled(t, u, p, ref.app)
             && p.appDir <= x && x != p.appDir && !(p.resources <= x)
    ensures x in u <==> x in t
  {
    var p := Resolve(c, ref);
    Places(c, ref);
    YamlNotInside(c, ref);
    PrefixTransitive(p.gitopsDir, p.appDir, x);
    EnabledInGroup(t, u, c, ref, x);
    assert |p.gitopsDir| < |p.appDir|;
  }

  lemma AppDirMade(t: Tree, u: Tree, c: Config, ref: Ref)
    requires var p := Resolve(c, ref);
             WellPlaced(c) && AppName(ref.app) && CanEnable(t, p) && IsEnabled(t, u, p, ref.app)
    ensures IsDir(u, Resolve(c, ref).appDir) && IsDir(u, Resolve(c, ref).gitopsDir)
  {
    var p := Resolve(c, ref);
    Places(c, ref);
    AppDirFree(t, c, ref);
    PrefixTransitive(p.gitopsDir, p.appDir, p.resources);
    assert p.appDir in Prefixes(p.resources) && p.gitopsDir in Prefixes(p.resources);
    assert |p.appDir| < |p.resources| && |p.gitopsDir| < |p.gitopsFile|;
    EnabledInGroup(t, u, c, ref, p.appDir);
    EnabledInGroup(t, u, c, ref, p.gitopsDir);
    assert !IsFile(t, p.appDir) && !IsFile(t, p.gitopsDir);
  }

  lemma Emptied(t: Tree, u: Tree, dir: Path, part: Path)
    requires IsDir(u, dir) && WellFormed(t) && part !in t
    requires forall x :: dir <= x && x != dir && !(part <= x) ==> (x in u <==> x in t)
    ensures (forall x :: x in u && dir <= x ==> x == dir || part <= x) <==> !(dir in t && !Barren(t, dir))
  {
    forall x | part <= x ensures x !in t { NothingUnder(t, part, x); }
    if dir !in t {
      forall x | dir <= x ensures x !in t { NothingUnder(t, dir, x); }
    }
  }

  lemma AppEmptiedAfter(t: Tree, u: Tree, c: Config, ref: Ref)
    requires var p := Resolve(c, ref);
             && WellPlaced(c) && AppName(ref.app) && WellFormed(t) && CanEnable(t, p) && IsEnabled(t, u, p, ref.app)
             && p.resources !in t
    ensures var p := Resolve(c, ref); AppEmptied(u, p) <==> !(p.appDir in t && !Barren(t, p.appDir))
  {
    var p := Resolve(c, ref);
    AppDirMade(t, u, c, ref);
    forall x | p.appDir <= x && x != p.appDir && !(p.resources <= x) ensures x in u <==> x in t {
      AppContents(t, u, c, ref, x);
    }
    Emptied(t, u, p.appDir, p.resources);
  }

  lemma YamlNotInside(c: Config, ref: Ref)
    requires AppName(ref.app)
    ensures !(Resolve(c, ref).appDir <= Resolve(c, ref).gitopsFile)
  {
    var p := Resolve(c, ref);
    YamlDiffers(ref.app, ref.app);
    assert p.appDir[|c.workloads| + 1] == ref.app && p.gitopsFile[|c.workloads| + 1] == ref.app + ".yaml";
  }

  /** No file is where the workload's directories go. */
  lemma AppDirFree(t: Tree, c: Config, ref: Ref)
    requires CanEnable(t, Resolve(c, ref))
    ensures forall q :: q in Prefixes(Resolve(c, ref).resources) ==> !IsFile(t, q)
  {
  }

  lemma GroupEmptiedAfter(t: Tree, u: Tree, c: Config, ref: Ref)
    requires var p := Resolve(c, ref);
             && WellPlaced(c) && AppName(ref.app) && WellFormed(t) && CanEnable(t, p) && IsEnabled(t, u, p, ref.app)
             && p.resources !in t && p.gitopsFile !in t && (p.appDir in t ==> !Barren(t, p.appDir))
    ensures var p := Resolve(c, ref); GroupEmptied(u, p) <==> !(p.gitopsDir in t && !Barren(t, p.gitopsDir))
  {
    var p := Resolve(c, ref);
    AppEmptiedAfter(t, u, c, ref);
    AppDirMade(t, u, c, ref);
    Places(c, ref);
    forall x | p.gitopsDir <= x && x != p.gitopsFile && !(p.resources <= x)
      ensures x in u <==> x in t || x == p.gitopsDir || x == p.appDir
    {
      EnabledInGroup(t, u, c, ref, x);
    }
    GroupEmptiedCore(t, u, p);
  }

  lemma GroupEmptiedCore(t: Tree, u: Tree, p: Paths)
    requires WellFormed(t) && p.resources !in t && p.gitopsFile !in t && IsDir(u, p.gitopsDir)
             && p.gitopsDir <= p.appDir && p.appDir != p.gitopsDir
    requires AppEmptied(u, p) <==> p.appDir !in t
    requires forall x :: p.gitopsDir <= x && x != p.gitopsFile && !(p.resources <= x) ==>
               (x in u <==> x in t || x == p.gitopsDir || x == p.appDir)
    ensures GroupEmptied(u, p) <==> !(p.gitopsDir in t && !Barren(t, p.gitopsDir))
  {
    forall x | p.resources <= x ensures x !in t { NothingUnder(t, p.resources, x); }
    if p.gitopsDir !in t {
      forall x | p.gitopsDir <= x ensures x !in t { NothingUnder(t, p.gitopsDir, x); }
    }
  }

  // ---- The theorem ------------------------------------------------------------------------------

  /** At every place that is not one of the workload's, disabling leaves what enabling left. */
  lemma UndoneElsewhere(t: Tree, u: Tree, v: Tree, c: Config, ref: Ref, q: Path)
    requires Undone(t, u, v, c, ref)
    requires var p := Resolve(c, ref); !Own(p, q) && q != p.appDir && q != p.gitopsDir
    ensures var p := Resolve(c, ref);
            Lookup(v, q) == if q in t then Some(t[q])
                else if q <= p.base || (HasGateway(t, p) && q <= p.routes) then Some(Dir) else None
  {
    var p := Resolve(c, ref);
    assert Lookup(v, q) == DisabledNode(u, p, ref.app, q);
    EnabledElsewhere(t, u, p, ref.app, q);
    if q <= p.resources { ResourcePrefixes(c, ref, q); }
    if q <= p.base {
      Places(c, ref);
      PrefixTransitive(q, p.base, p.gitopsDir);
      PrefixTransitive(q, p.gitopsDir, p.appDir);
      PrefixTransitive(q, p.appDir, p.resources);
    }
  }

  lemma GatewayAfter(t: Tree, u: Tree, v: Tree, c: Config, ref: Ref)
    requires Undone(t, u, v, c, ref)
    ensures var p := Resolve(c, ref);
            IsFile(t, p.gatewayFile) && IsFile(v, p.gatewayFile)
            && v[p.gatewayFile].data == AddedAndRemoved(t[p.gatewayFile].data, HasGateway(t, p), ref.app)
  {
    var p := Resolve(c, ref);
    var g := p.gatewayFile;
    Places(c, ref);
    assert Lookup(u, g) == EnabledNode(t, p, ref.app, g);
    assert Lookup(v, g) == DisabledNode(u, p, ref.app, g);
    if g <= p.resources {
      ResourcePrefixes(c, ref, g);
      PrefixTransitive(p.gitopsDir, p.appDir, p.appDir);
    }
  }

  /** If the tree can be restored, it is. */
  lemma Restored(t: Tree, u: Tree, v: Tree, c: Config, ref: Ref, q: Path)
    requires Undone(t, u, v, c, ref) && IsFile(t, c.gatewayFile) && Restorable(t, Resolve(c, ref), ref.app)
    ensures Lookup(v, q) == Lookup(t, q)
  {
    var p := Resolve(c, ref);
    assert Lookup(v, q) == DisabledNode(u, p, ref.app, q);
    if q == p.gatewayFile {
      GatewayAfter(t, u, v, c, ref);
      UndoneExactly(t[p.gatewayFile].data, HasGateway(t, p), ref.app);
    } else if p.resources <= q {
      NothingUnder(t, p.resources, q);
    } else if q == p.appDir || q == p.gitopsDir {
      AppEmptiedAfter(t, u, c, ref);
      GroupEmptiedAfter(t, u, c, ref);
      Places(c, ref);
      EnabledInGroup(t, u, c, ref, q);
      YamlNotInside(c, ref);
    } else if !Own(p, q) {
      UndoneElsewhere(t, u, v, c, ref, q);
      if q <= p.base { DirsAbove(t, p.base); assert q in Prefixes(p.base); }
      if HasGateway(t, p) && q <= p.routes { DirsAbove(t, p.routes); assert q in Prefixes(p.routes); }
    }
  }

  lemma NothingLeft(t: Tree, u: Tree, v: Tree, c: Config, ref: Ref)
    requires Undone(t, u, v, c, ref)
    ensures var p := Resolve(c, ref); p.gitopsFile !in v && p.route !in v && p.resources !in v
    ensures var p := Resolve(c, ref); p.appDir in v ==> !AppEmptied(u, p)
    ensures var p := Resolve(c, ref); p.gitopsDir in v ==> !GroupEmptied(u, p)
  {
    var p := Resolve(c, ref);
    Places(c, ref);
    assert Lookup(v, p.gitopsFile) == DisabledNode(u, p, ref.app, p.gitopsFile);
    assert Lookup(v, p.route) == DisabledNode(u, p, ref.app, p.route);
    assert Lookup(v, p.resources) == DisabledNode(u, p, ref.app, p.resources);
    assert Lookup(v, p.appDir) == DisabledNode(u, p, ref.app, p.appDir);
    assert Lookup(v, p.gitopsDir) == DisabledNode(u, p, ref.app, p.gitopsDir);
  }

  lemma NoFilesAbove(t: Tree, c: Config, ref: Ref)
    requires WellPlaced(c) && CanEnable(t, Resolve(c, ref))
    ensures var p := Resolve(c, ref); !IsFile(t, p.base) && (HasGateway(t, p) ==> !IsFile(t, p.routes))
  {
    var p := Resolve(c, ref);
    assert p.base in Prefixes(p.gitopsDir) && p.routes in Prefixes(p.routes);
  }

  /** If the tree was restored, it was restorable. */
  lemma WasRestorable(t: Tree, u: Tree, v: Tree, c: Config, ref: Ref)
    requires Undone(t, u, v, c, ref) && IsFile(t, c.gatewayFile) && v == t
    ensures Restorable(t, Resolve(c, ref), ref.app)
  {
    GatewayAfter(t, u, v, c, ref);
    UndoneExactly(t[c.gatewayFile].data, HasGateway(t, Resolve(c, ref)), ref.app);
    NothingLeft(t, u, v, c, ref);
    AppEmptiedAfter(t, u, c, ref);
    GroupEmptiedAfter(t, u, c, ref);
    BasesKept(t, u, v, c, ref);
    NoFilesAbove(t, c, ref);
  }

  /** The directories above the groups and the routes are made when needed and never removed. */
  lemma BasesKept(t: Tree, u: Tree, v: Tree, c: Config, ref: Ref)
    requires Undone(t, u, v, c, ref)
    ensures var p := Resolve(c, ref); p.base in v && (HasGateway(t, p) ==> p.routes in v)
  {
    var p := Resolve(c, ref);
    BasesAreOthers(c, ref);
    UndoneElsewhere(t, u, v, c, ref, p.base);
    UndoneElsewhere(t, u, v, c, ref, p.routes);
  }

  lemma BasesAreOthers(c: Config, ref: Ref)
    requires WellPlaced(c)
    ensures var p := Resolve(c, ref);
            && !Own(p, p.base) && p.base != p.appDir && p.base != p.gitopsDir
            && !Own(p, p.routes) && p.routes != p.appDir && p.routes != p.gitopsDir
  {
    var p := Resolve(c, ref);
    assert p.base <= p.gitopsDir && p.base <= p.appDir && p.base <= p.resources && p.base <= p.gitopsFile
      && p.routes <= p.route;
    assert |p.base| < |p.resources| && |p.routes| < |p.route|;
    if p.resources <= p.routes { PrefixTransitive(p.base, p.resources, p.routes); }
  }

  /** Disabling a workload right after enabling it gives back the whole tree, byte for byte, exactly when the tree was
      restorable. */
  lemma DisableUndoesEnable(t: Tree, u: Tree, v: Tree, c: Config, ref: Ref)
    requires Undone(t, u, v, c, ref) && IsFile(t, c.gatewayFile)
    ensures v == t <==> Restorable(t, Resolve(c, ref), ref.app)
  {
    if Restorable(t, Resolve(c, ref), ref.app) {
      forall q ensures Lookup(v, q) == Lookup(t, q) { Restored(t, u, v, c, ref, q); }
      SameLookups(t, v);
    }
    if v == t { WasRestorable(t, u, v, c, ref); }
  }

  lemma SameLookups(t: Tree, u: Tree)
    requires forall q :: Lookup(t, q) == Lookup(u, q)
    ensures t == u
  {
    forall q ensures (q in t <==> q in u) && (q in t ==> t[q] == u[q]) { assert Lookup(t, q) == Lookup(u, q); }
  }
}
