/** Taking a workload out again: disable and delete. */
module Removal {
  import opened Wrappers
  import opened FileTree
  import opened Disk
  import opened Workloads
  import opened Promotion
  import opened Commands

  // ---- Disabling, step by step -------------------------------------------------------------

  /** The tree when the listener, the manifest and the resources are gone. */
  function Withdrawn(t: Tree, p: Paths, app: string): Tree
    requires IsFile(t, p.gatewayFile)
  {
    Cleared(Listened(t, p.gatewayFile, RemoveChange(app)) - {p.gitopsFile}, p.resources)
  }

  function WithoutRoute(t: Tree, u: Tree, p: Paths): Tree {
    if p.route in t then Pruned(u, p.appDir) - {p.route} else Pruned(u, p.appDir)
  }

  lemma WithdrawnAt(t: Tree, c: Config, ref: Ref, q: Path)
    requires WellPlaced(c) && AppName(ref.app) && IsFile(t, Resolve(c, ref).gatewayFile)
    ensures var p := Resolve(c, ref);
            Lookup(Withdrawn(t, p, ref.app), q) ==
              if q == p.gitopsFile || p.resources <= q then None
              else if q == p.gatewayFile then Some(File(Gateway.Applied(t[q].data, RemoveChange(ref.app))))
              else Lookup(t, q)
  {
    Places(c, ref);
  }

  /** The workload's directory is pruned exactly if nothing but the resources was in it. */
  lemma AppPruned(t: Tree, c: Config, ref: Ref)
    requires WellPlaced(c) && AppName(ref.app) && IsFile(t, Resolve(c, ref).gatewayFile)
    ensures var p := Resolve(c, ref); Prunable(Withdrawn(t, p, ref.app), p.appDir) <==> AppEmptied(t, p)
  {
    var p := Resolve(c, ref);
    var u := Withdrawn(t, p, ref.app);
    Places(c, ref);
    YamlNotInside(c, ref);
    PrefixTransitive(p.gitopsDir, p.appDir, p.appDir);
    forall x | p.appDir <= x ensures x in u <==> x in t && !(p.resources <= x) {
      PrefixTransitive(p.gitopsDir, p.appDir, x);
      InGroup(c, ref, x);
      WithdrawnAt(t, c, ref, x);
    }
    assert |p.appDir| < |p.resources|;
    InGroup(c, ref, p.appDir);
    WithdrawnAt(t, c, ref, p.appDir);
  }

  /** The group's directory is pruned exactly if nothing but this workload was in it. */
  lemma GroupPruned(t: Tree, c: Config, ref: Ref)
    requires WellPlaced(c) && AppName(ref.app) && IsFile(t, Resolve(c, ref).gatewayFile)
    ensures var p := Resolve(c, ref);
            Prunable(WithoutRoute(t, Withdrawn(t, p, ref.app), p), p.gitopsDir) <==> GroupEmptied(t, p)
  {
    var p := Resolve(c, ref);
    var u := Withdrawn(t, p, ref.app);
    var v := WithoutRoute(t, u, p);
    Places(c, ref);
    AppPruned(t, c, ref);
    assert p.gitopsDir != [] && |p.gitopsDir| < |p.appDir| && |p.gitopsDir| < |p.resources|;
    forall x | p.gitopsDir <= x
      ensures x in v <==> x in t && x != p.gitopsFile && !(p.resources <= x) && !(x == p.appDir && AppEmptied(t, p))
    {
      InGroup(c, ref, x);
      WithdrawnAt(t, c, ref, x);
    }
    InGroup(c, ref, p.gitopsDir);
    WithdrawnAt(t, c, ref, p.gitopsDir);
  }

  lemma DisabledSteps(t: Tree, c: Config, ref: Ref)
    requires WellPlaced(c) && AppName(ref.app) && CanDisable(t, Resolve(c, ref))
    ensures var p := Resolve(c, ref);
            IsDisabled(t, Pruned(WithoutRoute(t, Withdrawn(t, p, ref.app), p), p.gitopsDir), p, ref.app)
  {
    var p := Resolve(c, ref);
    AppPruned(t, c, ref);
    GroupPruned(t, c, ref);
    Places(c, ref);
    forall q
      ensures Lookup(Pruned(WithoutRoute(t, Withdrawn(t, p, ref.app), p), p.gitopsDir), q)
              == DisabledNode(t, p, ref.app, q)
    {
      WithdrawnAt(t, c, ref, q);
      PrunedAt(t, Withdrawn(t, p, ref.app), p, q);
    }
  }

  lemma PrunedAt(t: Tree, u: Tree, p: Paths, q: Path)
    requires p.gitopsDir != p.route
    ensures Lookup(Pruned(WithoutRoute(t, u, p), p.gitopsDir), q) ==
              if q == p.appDir && Prunable(u, p.appDir) then None
              else if q == p.route && p.route in t then None
              else if q == p.gitopsDir && Prunable(WithoutRoute(t, u, p), p.gitopsDir) then None
              else Lookup(u, q)
  {
  }

  /** Once the file in it is gone, the manifest's place is still removable, and so is the route. */
  lemma RouteRemovable(t: Tree, c: Config, ref: Ref)
    requires WellPlaced(c) && AppName(ref.app) && IsFile(t, Resolve(c, ref).gatewayFile) && Resolve(c, ref).route in t
    ensures var p := Resolve(c, ref);
            CanRemove(Pruned(Withdrawn(t, p, ref.app), p.appDir), p.route) <==> Barren(t, p.route)
  {
    var p := Resolve(c, ref);
    var u := Pruned(Withdrawn(t, p, ref.app), p.appDir);
    Places(c, ref);
    forall x | p.route <= x ensures x in u <==> x in t {
      OutOfGroup(c, ref, x);
      WithdrawnAt(t, c, ref, x);
    }
  }

  lemma OutOfGroup(c: Config, ref: Ref, x: Path)
    requires WellPlaced(c) && Resolve(c, ref).route <= x
    ensures var p := Resolve(c, ref); x != p.gitopsFile && !(p.resources <= x) && x != p.appDir && x != p.gatewayFile
  {
    var p := Resolve(c, ref);
    InBase(c.routes, [ref.app + ".yaml"], c.workloads, x);
    InBase(c.routes, [ref.app + ".yaml"], c.gatewayFile, x);
    assert c.workloads <= p.gitopsFile && c.workloads <= p.appDir && c.workloads <= p.resources;
    PrefixTransitive(c.workloads, p.resources, x);
  }

  /** A path that runs through a file has nothing below. */
  lemma NothingThrough(t: Tree, p: Path)
    requires WellFormed(t) && ThroughFile(t, p)
    ensures Cleared(t, p) == t
  {
    var f :| f in Prefixes(p) && f != p && IsFile(t, f);
    forall q | q in t ensures !(p <= q) {
      PrefixTransitive(f, p, q);
      if p <= q && f != q { BelowIsDir(t, f, q); }
    }
  }

  lemma RemovedShrinks(t: Tree, u: Tree, p: Paths, x: Path)
    requires u == t || u == t - {x}
    requires Own(p, x) || x == p.appDir || x == p.gitopsDir
    ensures Shrinks(t, u, p)
  {
  }

  /** `disable`, after the confirmation and up to committing. */
  method Disable(fs: FileSystem, c: Config, ref: Ref) returns (ok: bool)
    requires fs.Valid() && WellPlaced(c) && AppName(ref.app)
    modifies fs
    ensures fs.Valid() && Shrinks(old(fs.tree), fs.tree, Resolve(c, ref))
    ensures ok ==>
              c.workloads + [ref.group, ref.app + ".yaml"] !in fs.tree && c.routes + [ref.app + ".yaml"] !in fs.tree
    ensures Missing(old(fs.tree), c.workloads + [ref.group, ref.app + ".yaml"]) ==> !ok && fs.tree == old(fs.tree)
    ensures fs.reliable ==> (ok <==> CanDisable(old(fs.tree), Resolve(c, ref)))
    ensures fs.reliable ==> (ok <==> Removable(old(fs.tree), c, ref))
    ensures fs.reliable && ok ==> OutOfPlace(old(fs.tree), fs.tree, c, ref)
    ensures fs.reliable && ok ==> IsDisabled(old(fs.tree), fs.tree, Resolve(c, ref), ref.app)
    ensures fs.reliable ==> ListenerStep(old(fs.tree), fs.tree, c.gatewayFile, RemoveChange(ref.app))
  {
    var p := Resolve(c, ref);
    ghost var t := fs.tree;
    AbsentIsMissing(t, p.gitopsFile);
    CanDisableExactly(t, c, ref);
    var enabled := fs.Stat(p.gitopsFile);
    if enabled.Absent? {
      return false;
    }
    var route := fs.Stat(p.route);
    ok := Withdraw(fs, c, ref);
    if !ok {
      return;
    }
    ghost var u := fs.tree;
    ok := CleanUp(fs, c, ref, route.Found?, t);
    ShrinksTwice(t, u, fs.tree, p);
    if fs.reliable && ok {
      DisabledSteps(t, c, ref);
      DisabledOutOfPlace(t, fs.tree, c, ref);
    }
  }

  lemma ListenedShrinks(t: Tree, u: Tree, p: Paths)
    requires u == t || (IsFile(t, p.gatewayFile) && exists d :: u == t[p.gatewayFile := File(d)])
    ensures Shrinks(t, u, p) && forall q :: q in t <==> q in u
  {
  }

  /** The listener and the manifest. */
  method Withdraw(fs: FileSystem, c: Config, ref: Ref) returns (ok: bool)
    requires fs.Valid() && WellPlaced(c) && AppName(ref.app)
    modifies fs
    ensures fs.Valid() && Shrinks(old(fs.tree), fs.tree, Resolve(c, ref))
    ensures var t, p := old(fs.tree), Resolve(c, ref);
            ok ==> IsFile(t, p.gatewayFile) && CanRemove(t, p.gitopsFile)
                   && fs.tree == Listened(t, p.gatewayFile, RemoveChange(ref.app)) - {p.gitopsFile}
    ensures var t, p := old(fs.tree), Resolve(c, ref);
            fs.reliable ==> (ok <==> IsFile(t, p.gatewayFile) && CanRemove(t, p.gitopsFile))
    ensures fs.reliable ==> ListenerStep(old(fs.tree), fs.tree, c.gatewayFile, RemoveChange(ref.app))
  {
    var p := Resolve(c, ref);
    ghost var t := fs.tree;
    GatewayElsewhere(c, ref);
    ok := ApplyGatewayListener(fs, p.gatewayFile, RemoveChange(ref.app));
    ghost var u := fs.tree;
    ListenedShrinks(t, u, p);
    if !ok {
      return;
    }
    ok := fs.Remove(p.gitopsFile);
    RemovedShrinks(u, fs.tree, p, p.gitopsFile);
    ShrinksTwice(t, u, fs.tree, p);
  }

  method RemoveRoute(fs: FileSystem, c: Config, ref: Ref, hasRoute: bool, ghost t: Tree) returns (ok: bool)
    requires fs.Valid() && WellPlaced(c) && AppName(ref.app) && IsFile(t, Resolve(c, ref).gatewayFile)
    requires var p := Resolve(c, ref);
             (hasRoute <==> p.route in t)
                 && fs.tree == Listened(t, p.gatewayFile, RemoveChange(ref.app)) - {p.gitopsFile}
    modifies fs
    ensures fs.Valid() && Shrinks(old(fs.tree), fs.tree, Resolve(c, ref))
    ensures ok ==> Resolve(c, ref).route !in fs.tree
    ensures var p := Resolve(c, ref);
            fs.reliable ==> (ok <==> (p.route in t ==> Barren(t, p.route)))
    ensures var p := Resolve(c, ref);
            fs.reliable && ok ==> fs.tree == WithoutRoute(t, Withdrawn(t, p, ref.app), p)
    ensures Lookup(fs.tree, c.gatewayFile) == Lookup(old(fs.tree), c.gatewayFile)
  {
    var p := Resolve(c, ref);
    GatewayElsewhere(c, ref);
    ghost var t0 := fs.tree;
    ClearApp(fs, p);
    ghost var t2 := fs.tree;
    ok := true;
    if hasRoute {
      RouteRemovable(t, c, ref);
      ok := fs.Remove(p.route);
      RemovedShrinks(t2, fs.tree, p, p.route);
      ShrinksTwice(t0, t2, fs.tree, p);
    }
  }

  /** The resources, the route and the directories left empty; that the resources cannot be removed goes unnoticed. */
  method CleanUp(fs: FileSystem, c: Config, ref: Ref, hasRoute: bool, ghost t: Tree) returns (ok: bool)
    requires fs.Valid() && WellPlaced(c) && AppName(ref.app) && IsFile(t, Resolve(c, ref).gatewayFile)
    requires var p := Resolve(c, ref);
             (hasRoute <==> p.route in t)
                 && fs.tree == Listened(t, p.gatewayFile, RemoveChange(ref.app)) - {p.gitopsFile}
    modifies fs
    ensures fs.Valid() && Shrinks(old(fs.tree), fs.tree, Resolve(c, ref))
    ensures ok ==> Resolve(c, ref).route !in fs.tree
    ensures var p := Resolve(c, ref);
            fs.reliable ==> (ok <==> (p.route in t ==> Barren(t, p.route)))
    ensures var p := Resolve(c, ref);
            fs.reliable && ok ==> fs.tree == Pruned(WithoutRoute(t, Withdrawn(t, p, ref.app), p), p.gitopsDir)
    ensures Lookup(fs.tree, c.gatewayFile) == Lookup(old(fs.tree), c.gatewayFile)
  {
    var p := Resolve(c, ref);
    GatewayElsewhere(c, ref);
    ghost var t0 := fs.tree;
    ok := RemoveRoute(fs, c, ref, hasRoute, t);
    if ok {
      ghost var t3 := fs.tree;
      RemoveEmptyDir(fs, p.gitopsDir);
      RemovedShrinks(t3, fs.tree, p, p.gitopsDir);
      ShrinksTwice(t0, t3, fs.tree, p);
    }
  }

  lemma GatewayElsewhere(c: Config, ref: Ref)
    requires WellPlaced(c) && AppName(ref.app)
    ensures var p := Resolve(c, ref);
            && !(p.resources <= p.gatewayFile) && p.gatewayFile != p.appDir && p.gatewayFile != p.gitopsDir
            && p.gatewayFile != p.route && p.gatewayFile != p.gitopsFile
  {
    Places(c, ref);
    InGroup(c, ref, Resolve(c, ref).appDir);
  }

  method ClearApp(fs: FileSystem, p: Paths)
    requires fs.Valid() && p.resources != [] && !(p.resources <= p.gatewayFile) && p.gatewayFile != p.appDir
    modifies fs
    ensures fs.Valid() && Shrinks(old(fs.tree), fs.tree, p)
    ensures fs.reliable ==> fs.tree == Pruned(Cleared(old(fs.tree), p.resources), p.appDir)
    ensures Lookup(fs.tree, p.gatewayFile) == Lookup(old(fs.tree), p.gatewayFile)
  {
    ghost var t := fs.tree;
    RemoveResources(fs, p);
    ghost var u := fs.tree;
    RemoveEmptyDir(fs, p.appDir);
    RemovedShrinks(u, fs.tree, p, p.appDir);
    ShrinksTwice(t, u, fs.tree, p);
  }

  method RemoveResources(fs: FileSystem, p: Paths)
    requires fs.Valid() && p.resources != []
    modifies fs
    ensures fs.Valid() && Shrinks(old(fs.tree), fs.tree, p)
    ensures fs.reliable ==> fs.tree == Cleared(old(fs.tree), p.resources)
    ensures !(p.resources <= p.gatewayFile) ==> Lookup(fs.tree, p.gatewayFile) == Lookup(old(fs.tree), p.gatewayFile)
  {
    if ThroughFile(fs.tree, p.resources) { NothingThrough(fs.tree, p.resources); }
    var gone := fs.RemoveAll(p.resources);
  }

  // ---- Deleting -----------------------------------------------------------------------------

  predicate CanDelete(t: Tree, p: Paths) {
    p.workloadDir in t && p.gitopsFile !in t
  }

  /** `delete`, after the confirmation: the workload's directory goes, and the group's if it is left empty. */
  method Delete(fs: FileSystem, c: Config, ref: Ref) returns (ok: bool)
    requires fs.Valid() && WellPlaced(c)
    modifies fs
    ensures fs.Valid()
    ensures forall q :: q in fs.tree ==> q in old(fs.tree) && fs.tree[q] == old(fs.tree)[q]
    ensures var group := c.scaffold + [ref.group];
            forall q :: q in old(fs.tree) && q !in fs.tree ==> Resolve(c, ref).workloadDir <= q || (q == group && ok)
    ensures var p := Resolve(c, ref);
            ok ==> p.gitopsFile !in old(fs.tree) && forall q :: p.workloadDir <= q ==> q !in fs.tree
    ensures fs.reliable ==> (ok <==> CanDelete(old(fs.tree), Resolve(c, ref)))
    ensures fs.reliable ==> (ok <==> c.scaffold + [ref.group, ref.app] in old(fs.tree)
                                     && c.workloads + [ref.group, ref.app + ".yaml"] !in old(fs.tree))
    ensures StatOf(old(fs.tree), Resolve(c, ref).workloadDir).Absent? ==> !ok && fs.tree == old(fs.tree)
    ensures fs.reliable && ok ==>
              fs.tree == Pruned(Cleared(old(fs.tree), Resolve(c, ref).workloadDir), c.scaffold + [ref.group])
    ensures Resolve(c, ref).gitopsFile in old(fs.tree) ==> !ok && fs.tree == old(fs.tree)
  {
    var p := Resolve(c, ref);
    var dir := fs.Stat(p.workloadDir);
    if dir.Absent? {
      return false;
    }
    var enabled := fs.Stat(p.gitopsFile);
    if enabled.Found? {
      return false;
    }
    if p.workloadDir in fs.tree && ThroughFile(fs.tree, p.workloadDir) {
      NothingThrough(fs.tree, p.workloadDir);
    }
    ok := fs.RemoveAll(p.workloadDir);
    if !ok {
      return;
    }
    RemoveEmptyDir(fs, c.scaffold + [ref.group]);
  }
}
