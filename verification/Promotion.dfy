/** What enabling and disabling mean, file by file, and that enabling a workload again changes nothing. */
module Promotion {
  import opened Wrappers
  import opened FileTree
  import opened Disk
  import opened Sync
  import opened Gateway
  import opened Text
  import opened Workloads
  import GatewayUndo

  // ---- What is refused, and what can be done -----------------------------------------------

  /** Nothing is at `q`, and there could be. */
  predicate Missing(t: Tree, q: Path) { q !in t && forall x :: x in Prefixes(q) ==> !IsFile(t, x) }

  /** The workload is enabled already, or its directory or its manifest is missing. */
  predicate Refused(t: Tree, c: Config, ref: Ref) {
    || c.workloads + [ref.group, ref.app + ".yaml"] in t
    || Missing(t, c.scaffold + [ref.group, ref.app])
    || Missing(t, c.scaffold + [ref.group, ref.app, "app.yaml"])
  }

  lemma GuardedExactly(t: Tree, c: Config, ref: Ref)
    ensures Guarded(t, Resolve(c, ref)) <==> !Refused(t, c, ref)
  {
    var p := Resolve(c, ref);
    assert Manifest(p) == c.scaffold + [ref.group, ref.app, "app.yaml"];
    AbsentIsMissing(t, p.workloadDir);
    AbsentIsMissing(t, Manifest(p));
  }

  lemma AbsentIsMissing(t: Tree, q: Path)
    ensures StatOf(t, q).Absent? <==> Missing(t, q)
  {
  }

  /** No file is where a directory must be. */
  predicate Passable(t: Tree, q: Path) { forall x :: x in Prefixes(q) ==> !IsFile(t, x) }

  /** What is copied is there, and nothing is in its way. */
  ghost predicate Fits(t: Tree, c: Config, ref: Ref) {
    var source, target := c.scaffold + [ref.group, ref.app], c.workloads + [ref.group, ref.app, "resources"];
    && IsDir(t, source) && IsFile(t, source + ["app.yaml"])
    && Passable(t, target) && !IsDir(t, c.workloads + [ref.group, ref.app + ".yaml"])
    && SameKinds(t, source, target)
    && (source + ["infra", "gateway.yaml"] in t ==>
          && IsFile(t, source + ["infra", "gateway.yaml"]) && IsFile(t, c.gatewayFile)
          && Passable(t, c.routes) && !IsDir(t, c.routes + [ref.app + ".yaml"]))
  }

  lemma CanEnableExactly(t: Tree, c: Config, ref: Ref)
    requires WellPlaced(c) && AppName(ref.app)
    ensures CanEnable(t, Resolve(c, ref)) <==> Fits(t, c, ref)
  {
    var p := Resolve(c, ref);
    Places(c, ref);
    assert Route(p) == p.workloadDir + ["infra", "gateway.yaml"];
    forall q | q in Prefixes(p.gitopsDir) ensures q in Prefixes(p.resources) {
      PrefixTransitive(p.gitopsDir, p.appDir, p.resources);
      PrefixTransitive(q, p.gitopsDir, p.resources);
    }
    CompatibleExactly(t, p.workloadDir, p.resources);
  }

  /** The workload is enabled, the gateway manifest is there, and nothing is inside of what are meant to be files. */
  predicate Removable(t: Tree, c: Config, ref: Ref) {
    var manifest, route := c.workloads + [ref.group, ref.app + ".yaml"], c.routes + [ref.app + ".yaml"];
    && manifest in t && (forall q :: q in t && manifest <= q ==> q == manifest)
    && IsFile(t, c.gatewayFile)
    && (route in t ==> forall q :: q in t && route <= q ==> q == route)
  }

  lemma CanDisableExactly(t: Tree, c: Config, ref: Ref)
    ensures CanDisable(t, Resolve(c, ref)) <==> Removable(t, c, ref)
  {
  }

  // ---- What is where afterwards ----------------------------------------------------------------

  /** The application's manifest, its resources, its route and its listener are where the cluster looks for them. */
  ghost predicate InPlace(t: Tree, u: Tree, c: Config, ref: Ref) {
    var source := c.scaffold + [ref.group, ref.app];
    var route := c.routes + [ref.app + ".yaml"];
    && source + ["app.yaml"] in t
    && Lookup(u, c.workloads + [ref.group, ref.app + ".yaml"]) == Some(t[source + ["app.yaml"]])
    && Synced(t, u, source, c.workloads + [ref.group, ref.app, "resources"])
    && if source + ["infra", "gateway.yaml"] in t then
         && Lookup(u, route) == Some(t[source + ["infra", "gateway.yaml"]])
         && IsFile(t, c.gatewayFile)
         && Lookup(u, c.gatewayFile) == Some(File(Listening(t[c.gatewayFile].data, ref.app)))
       else
         Lookup(u, route) == Lookup(t, route) && Lookup(u, c.gatewayFile) == Lookup(t, c.gatewayFile)
  }

  /** The gateway manifest with a listener for the application, unless one is found. */
  function Listening(content: string, app: string): string {
    if Contains(content, "    - name: https-" + app) then content
    else WithBlock(content, "https-" + app, "443", app + ".atlas", app + "-cert")
  }

  lemma ListeningIsApplied(content: string, app: string)
    ensures Applied(content, AddChange(app)) == Listening(content, app)
  {
    HttpsPort();
    assert Marker(app) == "    - name: https-" + app;
  }

  lemma EnabledInPlace(t: Tree, u: Tree, c: Config, ref: Ref)
    requires WellPlaced(c) && AppName(ref.app) && CanEnable(t, Resolve(c, ref))
    requires IsEnabled(t, u, Resolve(c, ref), ref.app)
    ensures InPlace(t, u, c, ref)
  {
    var p := Resolve(c, ref);
    Places(c, ref);
    assert Route(p) == c.scaffold + [ref.group, ref.app] + ["infra", "gateway.yaml"];
    assert Lookup(u, p.gitopsFile) == EnabledNode(t, p, ref.app, p.gitopsFile);
    assert Lookup(u, p.route) == EnabledNode(t, p, ref.app, p.route);
    assert Lookup(u, p.gatewayFile) == EnabledNode(t, p, ref.app, p.gatewayFile);
    if HasGateway(t, p) { ListeningIsApplied(t[p.gatewayFile].data, ref.app); }
    ResourcesInPlace(t, u, c, ref);
  }

  lemma ResourcesInPlace(t: Tree, u: Tree, c: Config, ref: Ref)
    requires WellPlaced(c) && AppName(ref.app) && CanEnable(t, Resolve(c, ref))
    requires IsEnabled(t, u, Resolve(c, ref), ref.app)
    ensures Synced(t, u, Resolve(c, ref).workloadDir, Resolve(c, ref).resources)
  {
    var p := Resolve(c, ref);
    forall r: Path | r != []
      ensures Lookup(u, p.resources + r) ==
                if p.workloadDir + r in t && !StaysBehind(r) then Lookup(t, p.workloadDir + r)
                else Lookup(t, p.resources + r)
    {
      KeptExactly(r);
      ResourceInPlace(t, u, c, ref, r);
    }
    SyncedByLookup(t, u, p.workloadDir, p.resources);
  }

  lemma SyncedByLookup(t: Tree, u: Tree, src: Path, dst: Path)
    requires forall r: Path :: r != [] ==>
               if src + r in t && !StaysBehind(r) then Lookup(u, dst + r) == Lookup(t, src + r)
               else Lookup(u, dst + r) == Lookup(t, dst + r)
    ensures Synced(t, u, src, dst)
  {
  }

  lemma ResourceInPlace(t: Tree, u: Tree, c: Config, ref: Ref, r: Path)
    requires WellPlaced(c) && AppName(ref.app) && CanEnable(t, Resolve(c, ref)) && r != []
    requires IsEnabled(t, u, Resolve(c, ref), ref.app)
    ensures var p := Resolve(c, ref);
            Lookup(u, p.resources + r) ==
              if p.workloadDir + r in t && Kept(r) then Some(t[p.workloadDir + r]) else Lookup(t, p.resources + r)
  {
    var p := Resolve(c, ref);
    var q := p.resources + r;
    Places(c, ref);
    BelowJoins(p.resources, r);
    InsideResources(c, ref, r);
    assert Lookup(u, q) == EnabledNode(t, p, ref.app, q);
    assert r in SyncParts(t, p.workloadDir) <==> p.workloadDir + r in t && Kept(r);
  }

  lemma InsideResources(c: Config, ref: Ref, r: Path)
    requires WellPlaced(c) && AppName(ref.app) && r != []
    ensures var p, q := Resolve(c, ref), Resolve(c, ref).resources + r;
            q != p.gitopsFile && q != p.route && q != p.gatewayFile && !(q <= p.resources) && !(q <= p.routes)
  {
    var p := Resolve(c, ref);
    Places(c, ref);
    InBase(c.workloads, [ref.group, ref.app, "resources"], c.routes, p.resources + r);
    assert p.resources <= p.resources + r;
  }

  /** Nothing of the workload is left: not its manifest, not its resources, not its route; of the gateway manifest its
      listener is gone, and everything else is as before but for directories that were left empty. */
  ghost predicate OutOfPlace(t: Tree, u: Tree, c: Config, ref: Ref) {
    var group, manifest := c.workloads + [ref.group], c.workloads + [ref.group, ref.app + ".yaml"];
    var directory, resources := c.workloads + [ref.group, ref.app], c.workloads + [ref.group, ref.app, "resources"];
    var route := c.routes + [ref.app + ".yaml"];
    && manifest in t && manifest !in u && route !in u && (forall q :: resources <= q ==> q !in u)
    && IsFile(t, c.gatewayFile) && Lookup(u, c.gatewayFile) == Some(File(Unlistening(t[c.gatewayFile].data, ref.app)))
    && (forall q :: q != manifest && q != route && !(resources <= q) && q != c.gatewayFile && q in t ==>
          || Lookup(u, q) == Lookup(t, q)
          || (q in {directory, group} && q !in u && IsDir(t, q) && forall x :: q <= x ==> x !in u))
    && (forall q :: q in u ==> q in t)
  }

  /** The text without the lines of the first listener of that name, up to empty lines at the edges. */
  function Unlistening(content: string, app: string): string {
    var r := RemoveListener(content, app);
    if r.Some? then r.value else content
  }

  lemma EmptiedIsEmpty(t: Tree, u: Tree, c: Config, ref: Ref, q: Path)
    requires WellPlaced(c) && AppName(ref.app) && CanDisable(t, Resolve(c, ref))
    requires IsDisabled(t, u, Resolve(c, ref), ref.app)
    requires var p := Resolve(c, ref);
             q in t && q !in u && q != p.gitopsFile && q != p.route && !(p.resources <= q) && q != p.gatewayFile
    ensures q in {Resolve(c, ref).appDir, Resolve(c, ref).gitopsDir} && IsDir(t, q) && forall x :: q <= x ==> x !in u
  {
    var p := Resolve(c, ref);
    assert Lookup(u, q) == DisabledNode(t, p, ref.app, q);
    forall x | q <= x ensures x !in u {
      assert Lookup(u, x) == DisabledNode(t, p, ref.app, x);
    }
  }

  lemma OtherStaysOrEmptied(t: Tree, u: Tree, c: Config, ref: Ref, q: Path)
    requires WellPlaced(c) && AppName(ref.app) && CanDisable(t, Resolve(c, ref))
    requires IsDisabled(t, u, Resolve(c, ref), ref.app)
    requires var p := Resolve(c, ref);
             q in t && q != p.gitopsFile && q != p.route && !(p.resources <= q) && q != p.gatewayFile
    ensures Lookup(u, q) == Lookup(t, q)
            || (q in {Resolve(c, ref).appDir, Resolve(c, ref).gitopsDir} && q !in u && IsDir(t, q)
                && forall x :: q <= x ==> x !in u)
  {
    assert Lookup(u, q) == DisabledNode(t, Resolve(c, ref), ref.app, q);
    if q !in u { EmptiedIsEmpty(t, u, c, ref, q); }
  }

  lemma DisabledOutOfPlace(t: Tree, u: Tree, c: Config, ref: Ref)
    requires WellPlaced(c) && AppName(ref.app) && CanDisable(t, Resolve(c, ref))
    requires IsDisabled(t, u, Resolve(c, ref), ref.app)
    ensures OutOfPlace(t, u, c, ref)
  {
    var p := Resolve(c, ref);
    Places(c, ref);
    assert Lookup(u, p.gitopsFile) == DisabledNode(t, p, ref.app, p.gitopsFile);
    assert Lookup(u, p.route) == DisabledNode(t, p, ref.app, p.route);
    assert Lookup(u, p.gatewayFile) == DisabledNode(t, p, ref.app, p.gatewayFile);
    forall q | p.resources <= q ensures q !in u { assert Lookup(u, q) == DisabledNode(t, p, ref.app, q); }
    forall q | q in u ensures q in t { assert Lookup(u, q) == DisabledNode(t, p, ref.app, q); }
    forall q | q != p.gitopsFile && q != p.route && !(p.resources <= q) && q != p.gatewayFile && q in t
      ensures Lookup(u, q) == Lookup(t, q)
              || (q in {p.appDir, p.gitopsDir} && q !in u && IsDir(t, q) && forall x :: q <= x ==> x !in u)
    {
      OtherStaysOrEmptied(t, u, c, ref, q);
    }
  }

  // ---- A second time ---------------------------------------------------------------------------

  lemma ListeningTwice(content: string, app: string)
    ensures Listening(Listening(content, app), app) == Listening(content, app)
  {
    if !Contains(content, "    - name: https-" + app) {
      var text := WithBlock(content, "https-" + app, "443", app + ".atlas", app + "-cert");
      HttpsPort();
      GatewayUndo.MarkerAhead(TrimRight(content, '\n'), "    - name: https-" + app, ListenerLines(
          ListenerData("https-" + app, 443, app + ".atlas", app + "-cert")));
    }
  }

  /** What stood at the source still stands there. */
  lemma SourceUnchanged(t: Tree, u: Tree, c: Config, ref: Ref, x: Path)
    requires WellPlaced(c) && AppName(ref.app) && CanEnable(t, Resolve(c, ref))
    requires IsEnabled(t, u, Resolve(c, ref), ref.app)
    ensures Lookup(u, Resolve(c, ref).workloadDir + x) == Lookup(t, Resolve(c, ref).workloadDir + x)
  {
    var p := Resolve(c, ref);
    SourcePlace(c, ref, x);
    PrefixTransitive(p.workloadDir + x, p.resources, p.resources);
    assert Lookup(u, p.workloadDir + x) == EnabledNode(t, p, ref.app, p.workloadDir + x);
  }

  lemma WaysStay(t: Tree, u: Tree, c: Config, ref: Ref)
    requires WellPlaced(c) && AppName(ref.app) && CanEnable(t, Resolve(c, ref))
    requires IsEnabled(t, u, Resolve(c, ref), ref.app)
    ensures Passable(u, Resolve(c, ref).resources)
    ensures HasGateway(t, Resolve(c, ref)) ==> Passable(u, Resolve(c, ref).routes)
  {
    var p := Resolve(c, ref);
    forall x | x in Prefixes(p.resources) ensures !IsFile(u, x) { WayToResources(t, u, c, ref, x); }
    if HasGateway(t, p) {
      forall x | x in Prefixes(p.routes) ensures !IsFile(u, x) {
        assert Lookup(u, x) == EnabledNode(t, p, ref.app, x);
        WayToRoutes(c, ref, x);
      }
    }
  }

  lemma RootInPlace(t: Tree, u: Tree, c: Config, ref: Ref)
    requires WellPlaced(c) && AppName(ref.app) && CanEnable(t, Resolve(c, ref))
    requires IsEnabled(t, u, Resolve(c, ref), ref.app)
    ensures IsDir(u, Resolve(c, ref).resources)
  {
    var p := Resolve(c, ref);
    Places(c, ref);
    assert Lookup(u, p.resources) == EnabledNode(t, p, ref.app, p.resources);
    assert Below(p.resources, p.resources) == [] && p.workloadDir + [] == p.workloadDir;
    assert [] in SyncParts(t, p.workloadDir);
  }

  lemma WayToResources(t: Tree, u: Tree, c: Config, ref: Ref, x: Path)
    requires WellPlaced(c) && AppName(ref.app) && CanEnable(t, Resolve(c, ref)) && x <= Resolve(c, ref).resources
    requires IsEnabled(t, u, Resolve(c, ref), ref.app)
    ensures !IsFile(u, x)
  {
    var p := Resolve(c, ref);
    Places(c, ref);
    if p.resources <= x {
      assert x == p.resources;
      RootInPlace(t, u, c, ref);
    } else {
      assert !Own(p, x) && x in Prefixes(p.resources);
      EnabledElsewhere(t, u, p, ref.app, x);
    }
  }

  lemma WayToRoutes(c: Config, ref: Ref, x: Path)
    requires WellPlaced(c) && AppName(ref.app) && x <= c.routes
    ensures var p := Resolve(c, ref);
            x != p.gitopsFile && !(p.resources <= x) && x != p.route && x != p.gatewayFile
  {
    var p := Resolve(c, ref);
    if x == p.gitopsFile { InBase(c.workloads, [ref.group, ref.app + ".yaml"], c.routes, x); }
    if p.resources <= x { InBase(c.workloads, [ref.group, ref.app, "resources"], c.routes, x); }
    assert |p.route| > |c.routes|;
  }

  lemma GatewayFitsAgain(t: Tree, u: Tree, c: Config, ref: Ref)
    requires WellPlaced(c) && AppName(ref.app) && CanEnable(t, Resolve(c, ref)) && HasGateway(t, Resolve(c, ref))
    requires IsEnabled(t, u, Resolve(c, ref), ref.app)
    ensures IsFile(u, Resolve(c, ref).gatewayFile) && !IsDir(u, Resolve(c, ref).route)
  {
    var p := Resolve(c, ref);
    Places(c, ref);
    assert Lookup(u, p.route) == EnabledNode(t, p, ref.app, p.route);
    assert Lookup(u, p.gatewayFile) == EnabledNode(t, p, ref.app, p.gatewayFile);
  }

  lemma FitsAgain(t: Tree, u: Tree, c: Config, ref: Ref)
    requires WellPlaced(c) && AppName(ref.app) && CanEnable(t, Resolve(c, ref))
    requires IsEnabled(t, u, Resolve(c, ref), ref.app)
    ensures Fits(u, c, ref)
  {
    var p := Resolve(c, ref);
    CanEnableExactly(t, c, ref);
    WaysStay(t, u, c, ref);
    SourceUnchanged(t, u, c, ref, []);
    SourceUnchanged(t, u, c, ref, ["app.yaml"]);
    SourceUnchanged(t, u, c, ref, ["infra", "gateway.yaml"]);
    assert p.workloadDir + [] == p.workloadDir;
    assert Lookup(u, p.gitopsFile) == EnabledNode(t, p, ref.app, p.gitopsFile);
    Places(c, ref);
    if HasGateway(t, p) { GatewayFitsAgain(t, u, c, ref); }
    KindsAgain(t, u, c, ref);
  }

  lemma KindsAgain(t: Tree, u: Tree, c: Config, ref: Ref)
    requires WellPlaced(c) && AppName(ref.app) && CanEnable(t, Resolve(c, ref))
    requires IsEnabled(t, u, Resolve(c, ref), ref.app) && Passable(u, Resolve(c, ref).resources)
    ensures SameKinds(u, Resolve(c, ref).workloadDir, Resolve(c, ref).resources)
  {
    var p := Resolve(c, ref);
    forall r | p.workloadDir + r in u && (r == [] || !StaysBehind(r)) && p.resources + r in u
      ensures u[p.resources + r].Dir? <==> u[p.workloadDir + r].Dir?
    {
      SourceUnchanged(t, u, c, ref, r);
      if r == [] {
        assert p.resources + r == p.resources && p.workloadDir + r == p.workloadDir;
        assert p.resources in Prefixes(p.resources);
      } else {
        KeptExactly(r);
        ResourceInPlace(t, u, c, ref, r);
      }
    }
  }

  lemma ResourceNodeAgain(t: Tree, u: Tree, c: Config, ref: Ref, r: Path)
    requires WellPlaced(c) && AppName(ref.app) && CanEnable(t, Resolve(c, ref)) && CanEnable(u, Resolve(c, ref))
    requires IsEnabled(t, u, Resolve(c, ref), ref.app)
    ensures Lookup(u, Resolve(c, ref).resources + r)
         == EnabledNode(u, Resolve(c, ref), ref.app, Resolve(c, ref).resources + r)
  {
    var p := Resolve(c, ref);
    var q := p.resources + r;
    Places(c, ref);
    BelowJoins(p.resources, r);
    SourceUnchanged(t, u, c, ref, r);
    assert Lookup(u, q) == EnabledNode(t, p, ref.app, q);
    assert r in SyncParts(u, p.workloadDir) <==> r in SyncParts(t, p.workloadDir);
    assert q != p.gitopsFile && q != p.route && q != p.gatewayFile;
  }

  lemma EnabledNodeAgain(t: Tree, u: Tree, c: Config, ref: Ref, q: Path)
    requires WellPlaced(c) && AppName(ref.app) && CanEnable(t, Resolve(c, ref)) && CanEnable(u, Resolve(c, ref))
    requires IsEnabled(t, u, Resolve(c, ref), ref.app)
    ensures Lookup(u, q) == EnabledNode(u, Resolve(c, ref), ref.app, q)
  {
    var p := Resolve(c, ref);
    Places(c, ref);
    assert Lookup(u, q) == EnabledNode(t, p, ref.app, q);
    SourceUnchanged(t, u, c, ref, ["app.yaml"]);
    SourceUnchanged(t, u, c, ref, ["infra", "gateway.yaml"]);
    if p.resources <= q {
      JoinsBelow(p.resources, q);
      ResourceNodeAgain(t, u, c, ref, Below(p.resources, q));
    } else if q == p.gatewayFile && HasGateway(t, p) {
      ListeningIsApplied(t[q].data, ref.app);
      ListeningIsApplied(u[q].data, ref.app);
      ListeningTwice(t[q].data, ref.app);
    }
  }

  /** Enabling an enabled workload once more is possible, and nothing changes. */
  lemma EnabledAgain(t: Tree, u: Tree, c: Config, ref: Ref)
    requires WellPlaced(c) && AppName(ref.app) && CanEnable(t, Resolve(c, ref))
    requires IsEnabled(t, u, Resolve(c, ref), ref.app)
    ensures Refused(u, c, ref)
    ensures CanEnable(u, Resolve(c, ref)) && IsEnabled(u, u, Resolve(c, ref), ref.app)
  {
    var p := Resolve(c, ref);
    FitsAgain(t, u, c, ref);
    CanEnableExactly(u, c, ref);
    SourceUnchanged(t, u, c, ref, ["app.yaml"]);
    SourceUnchanged(t, u, c, ref, ["infra", "gateway.yaml"]);
    assert Lookup(u, p.gitopsFile) == EnabledNode(t, p, ref.app, p.gitopsFile);
    forall q ensures Lookup(u, q) == EnabledNode(u, p, ref.app, q) { EnabledNodeAgain(t, u, c, ref, q); }
  }
}
