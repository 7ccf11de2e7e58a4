/** The commands of the tool: new, enable, disable and delete, call by call. Any call may fail and leave its work half
    done, unless the file system is reliable. */
module Commands {
  import opened Wrappers
  import opened FileTree
  import opened Disk
  import opened Sync
  import opened Gateway
  import opened Workloads
  import opened Promotion

  // ---- What a command may reach, however it ends -------------------------------------------

  /** Only the node at `p` may be other than before, and directories may be made on the way to it. */
  predicate OnlyAt(t: Tree, u: Tree, p: Path) {
    && (forall q :: q in t && q != p ==> q in u && u[q] == t[q])
    && (forall q :: q in u && q != p && q !in t ==> q <= p && u[q].Dir?)
  }

  /** What enabling may do. */
  predicate Reaches(t: Tree, u: Tree, p: Paths) {
    && (forall q :: q in t && !Own(p, q) ==> q in u && u[q] == t[q])
    && (forall q :: q in u && !Own(p, q) && q !in t ==> u[q].Dir? && (q <= p.resources || q <= p.routes))
  }

  /** What disabling may do: it makes nothing, and removes nothing but the workload's own and emptied directories. */
  predicate Shrinks(t: Tree, u: Tree, p: Paths) {
    && (forall q :: q in u ==> q in t && (q != p.gatewayFile ==> u[q] == t[q]))
    && (forall q :: q in t && q !in u ==> Own(p, q) || q == p.appDir || q == p.gitopsDir)
  }

  lemma ReachesTwice(t: Tree, u: Tree, v: Tree, p: Paths)
    requires Reaches(t, u, p) && Reaches(u, v, p)
    ensures Reaches(t, v, p)
  {
  }

  lemma ShrinksTwice(t: Tree, u: Tree, v: Tree, p: Paths)
    requires Shrinks(t, u, p) && Shrinks(u, v, p)
    ensures Shrinks(t, v, p)
  {
  }

  lemma GrownReaches(t: Tree, u: Tree, p: Paths, dir: Path)
    requires Grown(t, u, dir) && (dir <= p.resources || dir <= p.routes)
    ensures Reaches(t, u, p)
  {
    forall q | q in u && q !in t ensures q <= p.resources || q <= p.routes {
      PrefixTransitive(q, dir, p.resources);
      PrefixTransitive(q, dir, p.routes);
    }
  }

  lemma OnlyAtReaches(t: Tree, u: Tree, c: Config, ref: Ref, p: Paths, x: Path)
    requires p == Resolve(c, ref) && OnlyAt(t, u, x) && (x == p.gitopsFile || x == p.route || x == p.gatewayFile)
    requires x == p.gatewayFile ==> forall q :: q in u && q != x ==> q in t
    ensures Reaches(t, u, p)
  {
    assert p.gitopsFile == p.gitopsDir + [ref.app + ".yaml"] && p.route == p.routes + [ref.app + ".yaml"];
    assert p.resources == p.gitopsDir + [ref.app, "resources"];
    assert p.gitopsDir <= p.resources;
    forall q | q in u && q != x && q !in t ensures q <= p.resources || q <= p.routes {
      PrefixOfEntry(p.gitopsDir, ref.app + ".yaml", q);
      PrefixOfEntry(p.routes, ref.app + ".yaml", q);
      PrefixTransitive(q, p.gitopsDir, p.resources);
    }
  }

  /** The manifest of the gateway is as before, or as the change makes it. */
  predicate ListenerStep(t: Tree, u: Tree, g: Path, change: Change) {
    || Lookup(u, g) == Lookup(t, g)
    || (IsFile(t, g) && Lookup(u, g) == Some(File(Applied(t[g].data, change))))
  }

  // ---- Single steps ------------------------------------------------------------------------

  predicate CanManifest(t: Tree, src: Path, dst: Path)
    requires dst != []
  {
    CanMkdirs(t, Parent(dst)) && IsFile(t, src) && !IsDir(t, dst)
  }

  function Manifested(t: Tree, src: Path, dst: Path): Tree
    requires dst != [] && src in t
  {
    Mkdirs(t, Parent(dst))[dst := t[src]]
  }

  /** `CopyWorkloadManifest` */
  method CopyWorkloadManifest(fs: FileSystem, src: Path, dst: Path) returns (ok: bool)
    requires fs.Valid() && dst != []
    modifies fs
    ensures fs.Valid() && OnlyAt(old(fs.tree), fs.tree, dst)
    ensures ok ==> CanManifest(old(fs.tree), src, dst) && fs.tree == Manifested(old(fs.tree), src, dst)
    ensures fs.reliable ==> (ok <==> CanManifest(old(fs.tree), src, dst))
    ensures dst in fs.tree ==> dst in old(fs.tree) || src in old(fs.tree)
  {
    ghost var t := fs.tree;
    assert !(dst <= Parent(dst)) && Parent(dst) <= dst;
    PrefixesThrough(Parent(dst), dst);
    ok := fs.MkdirAll(Parent(dst));
    if !ok {
      return;
    }
    MkdirsWellFormed(t, Parent(dst));
    var data;
    data, ok := fs.ReadFile(src);
    if !ok {
      return;
    }
    assert IsFile(t, src) && t[src] == File(data);
    ok := fs.WriteFile(dst, data);
  }

  lemma PrefixesThrough(p: Path, q: Path)
    requires p <= q
    ensures forall x :: x in Prefixes(p) ==> x <= q
  {
  }

  function Listened(t: Tree, p: Path, change: Change): Tree
    requires IsFile(t, p)
  {
    t[p := File(Applied(t[p].data, change))]
  }

  /** `ApplyGatewayListener`; the manifest is written only if the listener is added or removed. */
  method ApplyGatewayListener(fs: FileSystem, path: Path, change: Change) returns (ok: bool)
    requires fs.Valid() && path != []
    modifies fs
    ensures fs.Valid()
    ensures ok ==> IsFile(old(fs.tree), path) && fs.tree == Listened(old(fs.tree), path, change)
    ensures fs.reliable ==> (ok <==> IsFile(old(fs.tree), path))
    ensures IsFile(old(fs.tree), path) || fs.tree == old(fs.tree)
    ensures fs.tree == old(fs.tree) || exists d :: fs.tree == old(fs.tree)[path := File(d)]
  {
    var data, readable := fs.ReadFile(path);
    var file := new GatewayFile(if readable then Some(data) else None);
    ok := file.Apply(change);
    if ok && file.content.value != data {
      ok := fs.WriteFile(path, file.content.value);
    }
  }

  predicate Prunable(t: Tree, p: Path) { IsDir(t, p) && Barren(t, p) && p != [] }

  function Pruned(t: Tree, p: Path): Tree { if Prunable(t, p) then t - {p} else t }

  /** `RemoveEmptyDir` */
  method RemoveEmptyDir(fs: FileSystem, dir: Path)
    requires fs.Valid()
    modifies fs
    ensures fs.Valid()
    ensures fs.tree == old(fs.tree) || (Prunable(old(fs.tree), dir) && fs.tree == old(fs.tree) - {dir})
    ensures fs.reliable ==> fs.tree == Pruned(old(fs.tree), dir)
  {
    var names, ok := fs.ReadDir(dir);
    if !ok {
      return;
    }
    NamesEmpty(fs.tree, dir);
    if |names| == 0 {
      assert Names(fs.tree, dir) == {};
      var gone := fs.Remove(dir);
    } else {
      assert names[0] in Names(fs.tree, dir);
    }
  }

  // ---- Enabling ------------------------------------------------------------------------------

  function WithManifest(t: Tree, p: Paths): Tree
    requires p.gitopsFile != [] && Manifest(p) in t
  {
    Manifested(Mkdirs(t, p.gitopsDir), Manifest(p), p.gitopsFile)
  }

  lemma WithManifestAt(t: Tree, c: Config, ref: Ref, q: Path)
    requires Manifest(Resolve(c, ref)) in t
    ensures var p := Resolve(c, ref);
            Lookup(WithManifest(t, p), q) ==
              if q == p.gitopsFile then Some(t[Manifest(p)]) else if q in t then Some(t[q])
                  else if q <= p.gitopsDir then Some(Dir) else None
  {
    var p := Resolve(c, ref);
    assert p.gitopsFile == p.gitopsDir + [ref.app + ".yaml"] && Parent(p.gitopsFile) == p.gitopsDir;
  }

  lemma ManifestAsideAt(t: Tree, c: Config, ref: Ref, r: Path)
    requires WellPlaced(c) && AppName(ref.app) && Manifest(Resolve(c, ref)) in t
    ensures var p := Resolve(c, ref);
            && Lookup(WithManifest(t, p), p.workloadDir + r) == Lookup(t, p.workloadDir + r)
            && Lookup(WithManifest(t, p), p.resources + r) == Lookup(t, p.resources + r)
  {
    var p := Resolve(c, ref);
    Places(c, ref);
    SourcePlace(c, ref, r);
    WithManifestAt(t, c, ref, p.workloadDir + r);
    WithManifestAt(t, c, ref, p.resources + r);
    assert p.resources <= p.resources + r;
    assert |p.resources + r| > |p.gitopsDir|;
  }

  lemma PartsAside(t: Tree, c: Config, ref: Ref)
    requires WellPlaced(c) && AppName(ref.app) && Manifest(Resolve(c, ref)) in t
    ensures var p := Resolve(c, ref); SyncParts(WithManifest(t, p), p.workloadDir) == SyncParts(t, p.workloadDir)
  {
    var p := Resolve(c, ref);
    var u := WithManifest(t, p);
    assert forall r :: r in Everything(u, p.workloadDir) <==> r in Everything(t, p.workloadDir) by {
      forall r ensures r in Everything(u, p.workloadDir) <==> r in Everything(t, p.workloadDir) {
        ManifestAsideAt(t, c, ref, r);
        assert Lookup(u, p.workloadDir + r) == Lookup(t, p.workloadDir + r);
      }
    }
  }

  /** The manifest does not change what there is to copy, nor the place it is copied to. */
  lemma ManifestAside(t: Tree, c: Config, ref: Ref)
    requires WellPlaced(c) && AppName(ref.app) && Manifest(Resolve(c, ref)) in t
    ensures var p := Resolve(c, ref);
            forall r :: Lookup(WithManifest(t, p), p.workloadDir + r) == Lookup(t, p.workloadDir + r)
    ensures var p := Resolve(c, ref);
            forall r :: Lookup(WithManifest(t, p), p.resources + r) == Lookup(t, p.resources + r)
    ensures var p := Resolve(c, ref); SyncParts(WithManifest(t, p), p.workloadDir) == SyncParts(t, p.workloadDir)
  {
    var p := Resolve(c, ref);
    forall r ensures Lookup(WithManifest(t, p), p.workloadDir + r) == Lookup(t, p.workloadDir + r) {
      ManifestAsideAt(t, c, ref, r);
    }
    forall r ensures Lookup(WithManifest(t, p), p.resources + r) == Lookup(t, p.resources + r) {
      ManifestAsideAt(t, c, ref, r);
    }
    PartsAside(t, c, ref);
  }

  lemma SameCompatible(t: Tree, u: Tree, src: Path, dst: Path, rels: set<Path>)
    requires forall r :: r in rels ==> src + r in t && src + r in u
    requires forall r :: Lookup(u, src + r) == Lookup(t, src + r)
    requires forall r :: Lookup(u, dst + r) == Lookup(t, dst + r)
    ensures Compatible(t, src, dst, rels) <==> Compatible(u, src, dst, rels)
    ensures IsDir(t, src) <==> IsDir(u, src)
  {
    assert src + [] == src;
    assert Lookup(u, src + []) == Lookup(t, src + []);
    forall r ensures (dst + r in u <==> dst + r in t) && (dst + r in t ==> u[dst + r] == t[dst + r]) {
      assert Lookup(u, dst + r) == Lookup(t, dst + r);
    }
    forall r | r in rels ensures u[src + r] == t[src + r] {
      assert Lookup(u, src + r) == Lookup(t, src + r);
    }
  }

  lemma MkdirsAside(t: Tree, c: Config, ref: Ref)
    requires WellPlaced(c) && AppName(ref.app) && Manifest(Resolve(c, ref)) in t
    ensures var p := Resolve(c, ref); CanMkdirs(WithManifest(t, p), p.resources) <==> CanMkdirs(t, p.resources)
  {
    var p := Resolve(c, ref);
    var u := WithManifest(t, p);
    Places(c, ref);
    forall q | q in Prefixes(p.resources) ensures IsFile(u, q) <==> IsFile(t, q) {
      WithManifestAt(t, c, ref, q);
    }
  }

  /** Checking step by step is checking at once. */
  lemma PromoteSteps(t: Tree, c: Config, ref: Ref)
    requires WellPlaced(c) && AppName(ref.app) && CanMkdirs(t, Resolve(c, ref).gitopsDir)
    ensures var p := Resolve(c, ref);
            var t1 := Mkdirs(t, p.gitopsDir);
            CanPromote(t, p) <==>
              && CanManifest(t1, Manifest(p), p.gitopsFile)
              && var t2 := WithManifest(t, p); CanCopy(t2, p.workloadDir, p.resources, SyncParts(t2, p.workloadDir))
  {
    var p := Resolve(c, ref);
    assert Parent(p.gitopsFile) == p.gitopsDir;
    var t1 := Mkdirs(t, p.gitopsDir);
    assert !(p.gitopsFile <= p.gitopsDir);
    assert CanMkdirs(t1, p.gitopsDir);
    if IsFile(t, Manifest(p)) {
      ManifestAside(t, c, ref);
      MkdirsAside(t, c, ref);
      SameCompatible(t, WithManifest(t, p), p.workloadDir, p.resources, SyncParts(t, p.workloadDir));
    }
  }

  /** What the steps make of the tree. */
  lemma PromotedSteps(t: Tree, c: Config, ref: Ref)
    requires WellPlaced(c) && AppName(ref.app) && CanPromote(t, Resolve(c, ref))
    ensures var p := Resolve(c, ref);
            var t2 := WithManifest(t, p);
            IsPromoted(t, Copied(t2, p.workloadDir, p.resources, SyncParts(t2, p.workloadDir)), p)
  {
    var p := Resolve(c, ref);
    var t2 := WithManifest(t, p);
    ManifestAside(t, c, ref);
    forall q
      ensures Lookup(Copied(t2, p.workloadDir, p.resources, SyncParts(t2, p.workloadDir)), q) == PromotedNode(t, p, q)
    {
      PromotedAt(t, c, ref, q);
    }
  }

  lemma PromotedWithin(t: Tree, c: Config, ref: Ref, r: Path)
    requires WellPlaced(c) && AppName(ref.app) && CanPromote(t, Resolve(c, ref))
    ensures var p := Resolve(c, ref);
            var t2 := WithManifest(t, p);
            Lookup(Copied(t2, p.workloadDir, p.resources, SyncParts(t2, p.workloadDir)), p.resources + r)
            == PromotedNode(t, p, p.resources + r)
  {
    var p := Resolve(c, ref);
    Places(c, ref);
    SourcePlace(c, ref, r);
    PartsAside(t, c, ref);
    ManifestAsideAt(t, c, ref, r);
    PromotedInside(t, WithManifest(t, p), p, r);
  }

  lemma PromotedAt(t: Tree, c: Config, ref: Ref, q: Path)
    requires WellPlaced(c) && AppName(ref.app) && CanPromote(t, Resolve(c, ref))
    ensures var p := Resolve(c, ref);
            var t2 := WithManifest(t, p);
            Lookup(Copied(t2, p.workloadDir, p.resources, SyncParts(t2, p.workloadDir)), q) == PromotedNode(t, p, q)
  {
    var p := Resolve(c, ref);
    if p.resources <= q {
      JoinsBelow(p.resources, q);
      PromotedWithin(t, c, ref, Below(p.resources, q));
    } else {
      PromotedOutside(t, c, ref, q);
    }
  }

  lemma PromotedOutside(t: Tree, c: Config, ref: Ref, q: Path)
    requires WellPlaced(c) && AppName(ref.app) && CanPromote(t, Resolve(c, ref)) && !(Resolve(c, ref).resources <= q)
    requires var p := Resolve(c, ref);
             forall r :: r in SyncParts(WithManifest(t, p), p.workloadDir) ==> p.workloadDir + r in WithManifest(t, p)
    ensures var p := Resolve(c, ref);
            var t2 := WithManifest(t, p);
            Lookup(Copied(t2, p.workloadDir, p.resources, SyncParts(t2, p.workloadDir)), q) == PromotedNode(t, p, q)
  {
    var p := Resolve(c, ref);
    Places(c, ref);
    WithManifestAt(t, c, ref, q);
    PrefixTransitive(q, p.gitopsDir, p.appDir);
    PrefixTransitive(q, p.appDir, p.resources);
    OverlayElsewhere(Mkdirs(WithManifest(t, p), p.resources), p.workloadDir, p.resources,
        SyncParts(WithManifest(t, p), p.workloadDir), q);
  }

  lemma PromotedInside(t: Tree, t2: Tree, p: Paths, r: Path)
    requires CanPromote(t, p) && !(p.resources <= p.gitopsFile)
    requires SyncParts(t2, p.workloadDir) == SyncParts(t, p.workloadDir)
    requires Lookup(t2, p.workloadDir + r) == Lookup(t, p.workloadDir + r)
             && Lookup(t2, p.resources + r) == Lookup(t, p.resources + r)
    requires !(p.resources <= p.workloadDir + r)
    ensures Lookup(Copied(t2, p.workloadDir, p.resources, SyncParts(t2, p.workloadDir)), p.resources + r)
            == PromotedNode(t, p, p.resources + r)
  {
    BelowJoins(p.resources, r);
    PrefixTransitive(p.workloadDir, p.workloadDir + r, p.resources);
  }

  /** Away from the workload's place in the tree promoting changes nothing. */
  lemma PromotedAside(t: Tree, u: Tree, p: Paths, q: Path)
    requires CanPromote(t, p) && IsPromoted(t, u, p) && q != p.gitopsFile && !(p.resources <= q)
    ensures q in t || !(q <= p.resources) ==> Lookup(u, q) == Lookup(t, q)
    ensures IsFile(u, q) <==> IsFile(t, q)
  {
    assert Lookup(u, q) == PromotedNode(t, p, q);
  }

  /** The places of the gateway, before and after promoting. */
  lemma GatewayPlaces(t: Tree, u: Tree, c: Config, ref: Ref)
    requires WellPlaced(c) && AppName(ref.app) && CanPromote(t, Resolve(c, ref)) && IsPromoted(t, u, Resolve(c, ref))
    ensures var p := Resolve(c, ref);
            && Lookup(u, Route(p)) == Lookup(t, Route(p)) && Lookup(u, p.route) == Lookup(t, p.route)
            && Lookup(u, p.gatewayFile) == Lookup(t, p.gatewayFile)
            && (CanMkdirs(u, p.routes) <==> CanMkdirs(t, p.routes))
  {
    var p := Resolve(c, ref);
    Places(c, ref);
    SourcePlace(c, ref, ["infra", "gateway.yaml"]);
    PromotedAside(t, u, p, Route(p));
    PromotedAside(t, u, p, p.route);
    PromotedAside(t, u, p, p.gatewayFile);
    forall q | q in Prefixes(p.routes) ensures IsFile(u, q) <==> IsFile(t, q) {
      PromotedOffRoutes(c, ref, q);
      PromotedAside(t, u, p, q);
    }
  }

  function Routed(t: Tree, p: Paths): Tree
    requires p.route != [] && Route(p) in t
  {
    Manifested(Mkdirs(t, p.routes), Route(p), p.route)
  }

  lemma RoutedAt(t: Tree, c: Config, ref: Ref, q: Path)
    requires Route(Resolve(c, ref)) in t
    ensures var p := Resolve(c, ref);
            Lookup(Routed(t, p), q) ==
              if q == p.route then Some(t[Route(p)]) else if q in t then Some(t[q])
                  else if q <= p.routes then Some(Dir) else None
  {
    var p := Resolve(c, ref);
    assert p.route == p.routes + [ref.app + ".yaml"] && Parent(p.route) == p.routes;
  }

  lemma RouteManifest(u: Tree, c: Config, ref: Ref)
    requires WellPlaced(c) && CanMkdirs(u, Resolve(c, ref).routes)
    ensures var p := Resolve(c, ref);
            CanManifest(Mkdirs(u, p.routes), Route(p), p.route) <==> IsFile(u, Route(p)) && !IsDir(u, p.route)
  {
    var p := Resolve(c, ref);
    ApartGateway(c, ref);
    assert p.route == p.routes + [ref.app + ".yaml"] && Parent(p.route) == p.routes && !(p.route <= p.routes);
    assert CanMkdirs(Mkdirs(u, p.routes), p.routes);
  }

  lemma RoutedGateway(u: Tree, c: Config, ref: Ref)
    requires WellPlaced(c) && Route(Resolve(c, ref)) in u
    ensures var p := Resolve(c, ref);
            Lookup(Routed(u, p), p.gatewayFile) == Lookup(u, p.gatewayFile)
  {
    ApartGateway(c, ref);
    RoutedAt(u, c, ref, Resolve(c, ref).gatewayFile);
  }

  /** Adding route and listener step by step. */
  lemma RouteSteps(t: Tree, u: Tree, c: Config, ref: Ref)
    requires WellPlaced(c) && AppName(ref.app) && CanPromote(t, Resolve(c, ref)) && IsPromoted(t, u, Resolve(c, ref))
    requires HasGateway(t, Resolve(c, ref))
    ensures Route(Resolve(c, ref)) in u
    ensures var p := Resolve(c, ref);
            CanRoute(t, p) <==>
              CanMkdirs(u, p.routes) && CanManifest(Mkdirs(u, p.routes), Route(p), p.route)
                  && IsFile(Routed(u, p), p.gatewayFile)
  {
    GatewayPlaces(t, u, c, ref);
    RoutedGateway(u, c, ref);
    if CanMkdirs(u, Resolve(c, ref).routes) { RouteManifest(u, c, ref); }
  }

  lemma ApartGateway(c: Config, ref: Ref)
    requires WellPlaced(c)
    ensures var p := Resolve(c, ref);
            !(p.gatewayFile <= p.routes) && p.gatewayFile != p.route && !(Route(p) <= p.routes)
  {
    SourcePlace(c, ref, ["infra", "gateway.yaml"]);
    ApartExtended(c.routes, [ref.app + ".yaml"], c.gatewayFile, []);
    assert c.gatewayFile + [] == c.gatewayFile;
  }

  lemma EnabledSteps(t: Tree, u: Tree, c: Config, ref: Ref)
    requires WellPlaced(c) && AppName(ref.app) && IsFile(t, Manifest(Resolve(c, ref)))
    requires CanEnable(t, Resolve(c, ref)) && IsPromoted(t, u, Resolve(c, ref))
    ensures var p := Resolve(c, ref);
            && (!HasGateway(t, p) ==> IsEnabled(t, u, p, ref.app))
            && (HasGateway(t, p) ==>
                  && Route(p) in u && IsFile(Routed(u, p), p.gatewayFile)
                  && IsEnabled(t, Listened(Routed(u, p), p.gatewayFile, AddChange(ref.app)), p, ref.app))
  {
    var p := Resolve(c, ref);
    if HasGateway(t, p) {
      RouteSteps(t, u, c, ref);
      GatewayPlaces(t, u, c, ref);
      forall q
        ensures Lookup(Listened(Routed(u, p), p.gatewayFile, AddChange(ref.app)), q) == EnabledNode(t, p, ref.app, q)
      {
        EnabledAt(t, u, c, ref, q);
      }
    }
  }

  lemma PromotedOffRoutes(c: Config, ref: Ref, q: Path)
    requires WellPlaced(c) && q <= Resolve(c, ref).routes
    ensures q != Resolve(c, ref).gitopsFile && !(Resolve(c, ref).resources <= q)
  {
    var p := Resolve(c, ref);
    if q == p.gitopsFile || p.resources <= q { InBase(c.workloads, [ref.group], c.routes, q); }
  }

  lemma EnabledAt(t: Tree, u: Tree, c: Config, ref: Ref, q: Path)
    requires WellPlaced(c) && AppName(ref.app) && CanEnable(t, Resolve(c, ref)) && HasGateway(t, Resolve(c, ref))
    requires IsPromoted(t, u, Resolve(c, ref)) && Route(Resolve(c, ref)) in u
    requires IsFile(Routed(u, Resolve(c, ref)), Resolve(c, ref).gatewayFile)
    ensures var p := Resolve(c, ref);
            Lookup(Listened(Routed(u, p), p.gatewayFile, AddChange(ref.app)), q) == EnabledNode(t, p, ref.app, q)
  {
    var p := Resolve(c, ref);
    GatewayPlaces(t, u, c, ref);
    ApartGateway(c, ref);
    RoutedAt(u, c, ref, q);
    assert Lookup(u, q) == PromotedNode(t, p, q);
    if q <= p.routes { PromotedOffRoutes(c, ref, q); }
  }

  /** `enable`, after the confirmation and up to seeding and committing. */
  method Enable(fs: FileSystem, c: Config, ref: Ref, force: bool) returns (ok: bool)
    requires fs.Valid() && WellPlaced(c) && AppName(ref.app)
    modifies fs
    ensures fs.Valid() && Reaches(old(fs.tree), fs.tree, Resolve(c, ref))
    ensures var t, p := old(fs.tree), Resolve(c, ref);
            (ok ==> (force || Guarded(t, p)) && CanEnable(t, p) && IsEnabled(t, fs.tree, p, ref.app))
    ensures var t, p := old(fs.tree), Resolve(c, ref);
            fs.reliable ==> (ok <==> (force || Guarded(t, p)) && CanEnable(t, p))
    ensures !force && Refused(old(fs.tree), c, ref) ==> !ok && fs.tree == old(fs.tree)
    ensures fs.reliable ==> (ok <==> (force || !Refused(old(fs.tree), c, ref)) && Fits(old(fs.tree), c, ref))
    ensures ok ==> InPlace(old(fs.tree), fs.tree, c, ref)
    ensures fs.reliable ==> ListenerStep(old(fs.tree), fs.tree, c.gatewayFile, AddChange(ref.app))
    ensures var p := Resolve(c, ref);
            p.gitopsFile in fs.tree ==> p.gitopsFile in old(fs.tree) || Manifest(p) in old(fs.tree)
  {
    var p := Resolve(c, ref);
    GuardedExactly(fs.tree, c, ref);
    CanEnableExactly(fs.tree, c, ref);
    if !force {
      var dir := fs.Stat(p.workloadDir);
      if dir.Absent? {
        return false;
      }
      var manifest := fs.Stat(Manifest(p));
      if manifest.Absent? {
        return false;
      }
      var enabled := fs.Stat(p.gitopsFile);
      if enabled.Found? {
        return false;
      }
    }
    var gateway := fs.Stat(Route(p));
    ghost var t := fs.tree;
    ok := Promote(fs, c, ref);
    if !ok {
      return;
    }
    ghost var u := fs.tree;
    if gateway.Found? {
      ok := AddRoute(fs, c, ref, t);
      ReachesTwice(t, u, fs.tree, p);
    } else {
      EnabledSteps(t, u, c, ref);
    }
    if ok { EnabledInPlace(t, fs.tree, c, ref); }
  }

  lemma GroupReaches(t: Tree, u: Tree, c: Config, ref: Ref)
    requires WellPlaced(c) && AppName(ref.app) && Grown(t, u, Resolve(c, ref).gitopsDir)
    ensures Reaches(t, u, Resolve(c, ref)) && Lookup(u, c.gatewayFile) == Lookup(t, c.gatewayFile)
    ensures var p := Resolve(c, ref);
            (p.gitopsFile in u ==> p.gitopsFile in t) && (Manifest(p) in u ==> Manifest(p) in t)
  {
    var p := Resolve(c, ref);
    Places(c, ref);
    GrownReaches(t, u, p, p.gitopsDir);
    ManifestNotMade(t, u, c, ref);
    GatewayNotMade(t, u, p, p.gitopsDir);
  }

  lemma ManifestReaches(t: Tree, t1: Tree, u: Tree, c: Config, ref: Ref)
    requires WellPlaced(c) && AppName(ref.app)
    requires Reaches(t, t1, Resolve(c, ref)) && Lookup(t1, c.gatewayFile) == Lookup(t, c.gatewayFile)
    requires OnlyAt(t1, u, Resolve(c, ref).gitopsFile)
    ensures Reaches(t, u, Resolve(c, ref)) && Lookup(u, c.gatewayFile) == Lookup(t, c.gatewayFile)
  {
    var p := Resolve(c, ref);
    Places(c, ref);
    OnlyAtReaches(t1, u, c, ref, p, p.gitopsFile);
    ReachesTwice(t, t1, u, p);
  }

  /** The group's directory, then the manifest. */
  method PromoteManifest(fs: FileSystem, c: Config, ref: Ref) returns (ok: bool)
    requires fs.Valid() && WellPlaced(c) && AppName(ref.app)
    modifies fs
    ensures fs.Valid() && Reaches(old(fs.tree), fs.tree, Resolve(c, ref))
    ensures var t, p := old(fs.tree), Resolve(c, ref);
            && (ok ==> CanMkdirs(t, p.gitopsDir) && Manifest(p) in t && fs.tree == WithManifest(t, p)
                       && (CanPromote(t, p) <==>
                           CanCopy(fs.tree, p.workloadDir, p.resources, SyncParts(fs.tree, p.workloadDir))))
            && (fs.reliable && !ok ==> !CanPromote(t, p))
    ensures Lookup(fs.tree, c.gatewayFile) == Lookup(old(fs.tree), c.gatewayFile)
    ensures var p := Resolve(c, ref);
            p.gitopsFile in fs.tree ==> p.gitopsFile in old(fs.tree) || Manifest(p) in old(fs.tree)
  {
    var p := Resolve(c, ref);
    ghost var t := fs.tree;
    Places(c, ref);
    ok := fs.MkdirAll(p.gitopsDir);
    ghost var t1 := fs.tree;
    GroupReaches(t, t1, c, ref);
    if !ok {
      return;
    }
    PromoteSteps(t, c, ref);
    ok := CopyWorkloadManifest(fs, Manifest(p), p.gitopsFile);
    ManifestReaches(t, t1, fs.tree, c, ref);
  }

  /** The manifest, then the resources. */
  method Promote(fs: FileSystem, c: Config, ref: Ref) returns (ok: bool)
    requires fs.Valid() && WellPlaced(c) && AppName(ref.app)
    modifies fs
    ensures fs.Valid() && Reaches(old(fs.tree), fs.tree, Resolve(c, ref))
    ensures ok ==> CanPromote(old(fs.tree), Resolve(c, ref)) && IsPromoted(old(fs.tree), fs.tree, Resolve(c, ref))
    ensures fs.reliable ==> (ok <==> CanPromote(old(fs.tree), Resolve(c, ref)))
    ensures Lookup(fs.tree, c.gatewayFile) == Lookup(old(fs.tree), c.gatewayFile)
    ensures var p := Resolve(c, ref);
            p.gitopsFile in fs.tree ==> p.gitopsFile in old(fs.tree) || Manifest(p) in old(fs.tree)
  {
    var p := Resolve(c, ref);
    ghost var t := fs.tree;
    Places(c, ref);
    ok := PromoteManifest(fs, c, ref);
    ghost var t2 := fs.tree;
    if !ok {
      return;
    }
    SourcePlace(c, ref, []);
    assert p.workloadDir + [] == p.workloadDir;
    ok := SyncResources(fs, p.workloadDir, p.resources);
    FramedReaches(t2, fs.tree, p);
    ReachesTwice(t, t2, fs.tree, p);
    if ok {
      PromotedSteps(t, c, ref);
    }
  }

  /** Making the group's directory makes neither the manifest nor its source. */
  lemma ManifestNotMade(t: Tree, u: Tree, c: Config, ref: Ref)
    requires WellPlaced(c) && Grown(t, u, Resolve(c, ref).gitopsDir)
    ensures var p := Resolve(c, ref);
            (p.gitopsFile in u ==> p.gitopsFile in t) && (Manifest(p) in u ==> Manifest(p) in t)
  {
    var p := Resolve(c, ref);
    SourcePlace(c, ref, ["app.yaml"]);
    assert |p.gitopsFile| > |p.gitopsDir|;
  }

  lemma GatewayNotMade(t: Tree, u: Tree, p: Paths, dir: Path)
    requires Grown(t, u, dir) && !(p.gatewayFile <= dir)
    ensures Lookup(u, p.gatewayFile) == Lookup(t, p.gatewayFile)
  {
  }

  lemma FramedReaches(t: Tree, u: Tree, p: Paths)
    requires Framed(t, u, p.resources)
    ensures Reaches(t, u, p)
  {
  }

  /** The route, then the listener. */
  method AddRoute(fs: FileSystem, c: Config, ref: Ref, ghost t: Tree) returns (ok: bool)
    requires fs.Valid() && WellPlaced(c) && AppName(ref.app)
    requires CanPromote(t, Resolve(c, ref)) && IsPromoted(t, fs.tree, Resolve(c, ref)) && HasGateway(t, Resolve(c, ref))
    modifies fs
    ensures fs.Valid() && Reaches(old(fs.tree), fs.tree, Resolve(c, ref))
    ensures ok ==> CanRoute(t, Resolve(c, ref)) && IsEnabled(t, fs.tree, Resolve(c, ref), ref.app)
    ensures fs.reliable ==> (ok <==> CanRoute(t, Resolve(c, ref)))
    ensures fs.reliable ==> ListenerStep(old(fs.tree), fs.tree, c.gatewayFile, AddChange(ref.app))
    ensures var p := Resolve(c, ref); p.gitopsFile in fs.tree ==> p.gitopsFile in old(fs.tree)
  {
    var p := Resolve(c, ref);
    ghost var u := fs.tree;
    RouteSteps(t, u, c, ref);
    ok := CopyRoute(fs, c, ref);
    ghost var u2 := fs.tree;
    if !ok {
      return;
    }
    ok := ApplyGatewayListener(fs, p.gatewayFile, AddChange(ref.app));
    OnlyAtReaches(u2, fs.tree, c, ref, p, p.gatewayFile);
    ReachesTwice(u, u2, fs.tree, p);
    if ok {
      EnabledSteps(t, u, c, ref);
    }
  }

  method CopyRoute(fs: FileSystem, c: Config, ref: Ref) returns (ok: bool)
    requires fs.Valid() && WellPlaced(c) && AppName(ref.app) && Route(Resolve(c, ref)) in fs.tree
    modifies fs
    ensures fs.Valid() && Reaches(old(fs.tree), fs.tree, Resolve(c, ref))
    ensures var u, p := old(fs.tree), Resolve(c, ref);
            ok ==> CanMkdirs(u, p.routes) && CanManifest(Mkdirs(u, p.routes), Route(p), p.route)
                   && fs.tree == Routed(u, p)
    ensures var u, p := old(fs.tree), Resolve(c, ref);
            fs.reliable ==> (ok <==> CanMkdirs(u, p.routes) && CanManifest(Mkdirs(u, p.routes), Route(p), p.route))
    ensures Lookup(fs.tree, c.gatewayFile) == Lookup(old(fs.tree), c.gatewayFile)
    ensures var p := Resolve(c, ref); p.gitopsFile in fs.tree ==> p.gitopsFile in old(fs.tree)
  {
    var p := Resolve(c, ref);
    ghost var u := fs.tree;
    Places(c, ref);
    ApartGateway(c, ref);
    ok := fs.MkdirAll(p.routes);
    ghost var u1 := fs.tree;
    GatewayNotMade(u, u1, p, p.routes);
    GrownReaches(u, u1, p, p.routes);
    if !ok {
      return;
    }
    ok := CopyWorkloadManifest(fs, Route(p), p.route);
    OnlyAtReaches(u1, fs.tree, c, ref, p, p.route);
    ReachesTwice(u, u1, fs.tree, p);
  }
}
