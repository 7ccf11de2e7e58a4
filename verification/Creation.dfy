/** Creating a workload: the golden-path templates are rendered into its directory, and a seed file is added. */
module Creation {
  import opened Wrappers
  import opened FileTree
  import opened Disk
  import opened Workloads
  import opened Promotion
  import opened Commands
  import Rendering
  import Template
  import SeedFile
  import Text

  /** A template, with its path below the workload's directory. */
  datatype Source = Source(path: Path, text: string)

  datatype Rendered = Rendered(path: Path, text: string)

  /** What the command line says. */
  datatype Flags = Flags(
    repo: string, ns: string, repoPath: string, serviceAccount: string, helmValues: string, gitopsValues: string)

  const SECRET_SEED: Path := [".secret-seed"]

  function VarsOf(ref: Ref, flags: Flags): Rendering.Vars {
    Rendering.Vars(
      ref.app, SeedFile.Normal(ref.app), ref.group, SeedFile.Normal(ref.group),
      if flags.ns == "" then ref.group + "-" + ref.app else flags.ns,
      flags.repo, flags.repoPath, ref.app + ".atlas", "", "", "", "", "",
      if flags.serviceAccount == "" then ref.app else flags.serviceAccount, flags.helmValues, flags.gitopsValues)
  }

  /** What the files of a new workload show: its names, its default namespace and service account, and its host name. */
  lemma NewNamesShown(ref: Ref, flags: Flags, cfg: Rendering.DefaultsConfig, order: seq<string>)
    requires Rendering.TameOrder(VarsOf(ref, flags), cfg, order)
    ensures Rendering.Shown("APP", VarsOf(ref, flags), cfg, order) == ref.app
    ensures Rendering.Shown("GROUP", VarsOf(ref, flags), cfg, order) == ref.group
    ensures Rendering.Shown("NAMESPACE", VarsOf(ref, flags), cfg, order)
         == if flags.ns == "" then ref.group + "-" + ref.app else flags.ns
    ensures Rendering.Shown("SERVICE_ACCOUNTS", VarsOf(ref, flags), cfg, order)
         == if flags.serviceAccount == "" then ref.app else flags.serviceAccount
    ensures Rendering.Shown("HOSTNAME", VarsOf(ref, flags), cfg, order) == ref.app + ".atlas"
  {
    var v := VarsOf(ref, flags);
    Rendering.IdentityShown(v, cfg, order);
    Rendering.PlaceShown(v, cfg, order);
    Rendering.TargetShown(v, cfg, order);
    Rendering.KeyRendered(Rendering.WithDefaults(v, cfg), order, "HOSTNAME");
  }

  /** And how the names are spelled in capitals, where the repository is, and the settings of the charts. */
  lemma NewSettingsShown(ref: Ref, flags: Flags, cfg: Rendering.DefaultsConfig, order: seq<string>)
    requires Rendering.TameOrder(VarsOf(ref, flags), cfg, order)
    ensures Rendering.Shown("APP_UC", VarsOf(ref, flags), cfg, order) == SeedFile.Normal(ref.app)
    ensures Rendering.Shown("GROUP_UC", VarsOf(ref, flags), cfg, order) == SeedFile.Normal(ref.group)
    ensures Rendering.Shown("REPO_URL", VarsOf(ref, flags), cfg, order) == flags.repo
    ensures Rendering.Shown("REPO_PATH", VarsOf(ref, flags), cfg, order)
         == if flags.repoPath == "" then cfg.repoPath else flags.repoPath
    ensures Rendering.Shown("GATEWAY_PORT", VarsOf(ref, flags), cfg, order) == cfg.gatewayPort
    ensures Rendering.Shown("CHART_REPO", VarsOf(ref, flags), cfg, order) == flags.repo
  {
    var v := VarsOf(ref, flags);
    Rendering.IdentityShown(v, cfg, order);
    Rendering.PlaceShown(v, cfg, order);
    Rendering.RepositoryShown(v, cfg, order);
    Rendering.ChartShown(v, cfg, order);
  }

  lemma NewChartShown(ref: Ref, flags: Flags, cfg: Rendering.DefaultsConfig, order: seq<string>)
    requires Rendering.TameOrder(VarsOf(ref, flags), cfg, order)
    ensures Rendering.Shown("CHART_REVISION", VarsOf(ref, flags), cfg, order) == cfg.chartRevision
    ensures Rendering.Shown("TARGET_REVISION", VarsOf(ref, flags), cfg, order) == cfg.targetRevision
    ensures Rendering.Shown("CHART_PATH", VarsOf(ref, flags), cfg, order) == ""
    ensures Rendering.Shown("REPO_HELM_SETTINGS", VarsOf(ref, flags), cfg, order) == flags.helmValues
    ensures Rendering.Shown("GITOPS_HELM_SETTINGS", VarsOf(ref, flags), cfg, order) == flags.gitopsValues
  {
    var v := VarsOf(ref, flags);
    Rendering.ChartShown(v, cfg, order);
    Rendering.TargetShown(v, cfg, order);
    Rendering.SettingsShown(v, cfg, order);
  }

  /** The text is the source with all keys replaced, in some order. */
  ghost predicate IsRendering(source: string, v: Rendering.Vars, cfg: Rendering.DefaultsConfig, text: string) {
    var texts := Rendering.Replacements(Rendering.WithDefaults(v, cfg));
    exists order :: Enumerates(order, texts.Keys) && text == Template.Fold(source, order, texts)
  }

  ghost predicate IsSeedFile(ref: Ref, secrets: map<string, string>, text: string) {
    exists order :: Enumerates(order, secrets.Keys)
      && text == Text.Unlines(SeedFile.SeedLines(SeedFile.Normal(ref.group), SeedFile.Normal(ref.app), order, secrets))
  }

  // ---- What is written -----------------------------------------------------------------------

  /** The file `i` is the last one with its path. */
  predicate LastOf(files: seq<Rendered>, i: nat)
    requires i < |files|
  {
    forall j :: i < j < |files| ==> files[j].path != files[i].path
  }

  /** Every file is in the directory, unless a later one took its place. */
  ghost predicate Written(t: Tree, dir: Path, files: seq<Rendered>) {
    forall i :: 0 <= i < |files| && LastOf(files, i) ==> Lookup(t, dir + files[i].path) == Some(File(files[i].text))
  }

  function Container(p: Path): Path { if p == [] then p else Parent(p) }

  lemma WrittenMore(t: Tree, u: Tree, dir: Path, files: seq<Rendered>, f: Rendered)
    requires Written(t, dir, files) && u == Mkdirs(t, Container(dir + f.path))[dir + f.path := File(f.text)]
    ensures Written(u, dir, files + [f])
  {
    var all := files + [f];
    forall i | 0 <= i < |all| && LastOf(all, i) ensures Lookup(u, dir + all[i].path) == Some(File(all[i].text)) {
      if i < |files| {
        assert all[|files|].path != all[i].path;
        assert LastOf(files, i) by {
          forall j | i < j < |files| ensures files[j].path != files[i].path { assert all[j] == files[j]; }
        }
        SameTail(dir, files[i].path, f.path);
      }
    }
  }

  lemma SameTail(dir: Path, a: Path, b: Path)
    ensures dir + a == dir + b ==> a == b
  {
    BelowJoins(dir, a);
    BelowJoins(dir, b);
  }

  /** From `t` to `u` things are made in the directory `dir` and on the way to it, and nothing goes away. */
  predicate Made(t: Tree, u: Tree, dir: Path) {
    Framed(t, u, dir) && forall q :: q in t ==> q in u
  }

  lemma MadeTwice(t: Tree, u: Tree, v: Tree, dir: Path)
    requires Made(t, u, dir) && Made(u, v, dir)
    ensures Made(t, v, dir)
  {
  }

  lemma GrownMade(t: Tree, u: Tree, dir: Path, p: Path)
    requires Grown(t, u, p) && (p <= dir || dir <= p)
    ensures Made(t, u, dir)
  {
    forall q | q in u && q !in t && !(dir <= q) ensures q <= dir {
      assert q <= p;
      PrefixTransitive(q, p, dir);
      if dir <= p { PrefixesMeet(q, dir, p); }
    }
  }

  lemma FramedMade(t: Tree, u: Tree, dir: Path, p: Path)
    requires OnlyAt(t, u, p) && dir <= p && (p in t ==> p in u)
    ensures Made(t, u, dir)
  {
    forall q | q in u && q !in t && !(dir <= q) ensures q <= dir {
      assert q <= p;
      PrefixesMeet(q, dir, p);
    }
  }

  // ---- When it succeeds ------------------------------------------------------------------------

  /** The paths can all be files of one directory: none is the directory itself or runs through another. */
  predicate Placeable(paths: set<Path>) {
    forall p :: p in paths ==> p != [] && forall q :: q in paths && p <= q ==> p == q
  }

  ghost predicate OnTheWay(paths: set<Path>, r: Path) { exists p :: p in paths && r <= p }

  /** The directory holds files at the paths, directories on the way to them, and nothing else. */
  ghost predicate Holds(t: Tree, dir: Path, paths: set<Path>) {
    && (forall r :: dir + r in t <==> r == [] || OnTheWay(paths, r))
    && (forall r :: dir + r in t ==> (t[dir + r].File? <==> r in paths))
  }

  lemma HoldsNothing(t: Tree, dir: Path)
    requires WellFormed(t) && dir !in t
    ensures Holds(Mkdirs(t, dir), dir, {})
  {
    var u := Mkdirs(t, dir);
    assert dir + [] == dir;
    forall r | r != [] ensures dir + r !in u {
      NothingUnder(t, dir, dir + r);
      assert |dir + r| > |dir|;
    }
  }

  /** Whether one more file fits is whether the paths still can all be files. */
  lemma OneMoreFits(t: Tree, dir: Path, paths: set<Path>, f: Path)
    requires WellFormed(t) && Holds(t, dir, paths) && Placeable(paths)
    ensures var dst := dir + f;
            Placeable(paths + {f}) <==>
              CanMkdirs(t, Container(dst)) && CanWrite(Mkdirs(t, Container(dst)), dst)
  {
    var dst := dir + f;
    assert dir + [] == dir;
    if f == [] {
      assert dst == dir && !Placeable(paths + {f});
      assert dir in t && t[dir].Dir?;
    } else {
      assert dst == dir + Parent(f) + [f[|f| - 1]];
      assert Parent(dst) == dir + Parent(f);
      WayIsFree(t, dir, paths, f);
      PlaceIsFree(t, dir, paths, f);
      PlaceableMore(paths, f);
    }
  }

  lemma WayIsFree(t: Tree, dir: Path, paths: set<Path>, f: Path)
    requires WellFormed(t) && Holds(t, dir, paths) && f != []
    ensures CanMkdirs(t, dir + Parent(f)) <==> forall p :: p in paths && p <= f ==> p == f
  {
    assert dir + [] == dir && dir in t;
    forall p | p in paths && p <= f && p != f ensures IsFile(t, dir + p) && dir + p in Prefixes(dir + Parent(f)) {
      assert p <= Parent(f);
      assert OnTheWay(paths, p);
    }
    if forall p :: p in paths && p <= f ==> p == f {
      forall q | q in Prefixes(dir + Parent(f)) ensures !IsFile(t, q) {
        PrefixesMeet(q, dir, dir + Parent(f));
        if dir <= q {
          var r := Below(dir, q);
          JoinsBelow(dir, q);
          assert r <= Parent(f);
          assert r <= f && r != f;
        } else {
          BelowIsDir(t, q, dir);
        }
      }
    }
  }

  lemma PlaceIsFree(t: Tree, dir: Path, paths: set<Path>, f: Path)
    requires Holds(t, dir, paths) && f != []
    ensures IsDir(t, dir + f) <==> f !in paths && OnTheWay(paths, f)
  {
  }

  lemma PlaceableMore(paths: set<Path>, f: Path)
    requires Placeable(paths) && f != []
    ensures Placeable(paths + {f}) <==>
              (forall p :: p in paths && p <= f ==> p == f) && !(f !in paths && OnTheWay(paths, f))
  {
  }

  lemma HoldsMore(t: Tree, u: Tree, dir: Path, paths: set<Path>, f: Path, text: string)
    requires Holds(t, dir, paths) && Placeable(paths + {f})
    requires u == Mkdirs(t, Container(dir + f))[dir + f := File(text)]
    ensures Holds(u, dir, paths + {f})
  {
    var dst := dir + f;
    assert Parent(dst) == dir + Parent(f);
    forall r ensures dir + r in u <==> r == [] || OnTheWay(paths + {f}, r) {
      SameTail(dir, r, f);
      BelowPrefix(dir, r, Parent(f));
      if r <= f && r != f { assert r <= Parent(f); }
      if OnTheWay(paths, r) {
        var p :| p in paths && r <= p;
        assert p in paths + {f};
      }
      if r <= f { assert f in paths + {f}; }
    }
    forall r | dir + r in u ensures u[dir + r].File? <==> r in paths + {f} {
      SameTail(dir, r, f);
      if dir + r !in t && r != f {
        assert r !in paths by { if r in paths { assert OnTheWay(paths, r); } }
      }
    }
  }

  lemma BelowPrefix(dir: Path, r: Path, p: Path)
    ensures dir + r <= dir + p <==> r <= p
  {
    if dir + r <= dir + p {
      assert r == (dir + r)[|dir|..] && p == (dir + p)[|dir|..];
    }
  }

  // ---- The program -------------------------------------------------------------------------------

  function PathsOf(files: seq<Rendered>): set<Path> { set f | f in files :: f.path }

  function SourcePaths(templates: seq<Source>): set<Path> { set s | s in templates :: s.path }

  /** `new`, after the confirmation; `secrets` are the generated values, if all could be generated. */
  method New(fs: FileSystem, c: Config, ref: Ref, flags: Flags, templates: seq<Source>, cfg: Rendering.DefaultsConfig,
             secrets: Option<map<string, string>>) returns (ok: bool, ghost files: seq<Rendered>, ghost seed: string)
    requires fs.Valid()
    modifies fs
    ensures fs.Valid() && Made(old(fs.tree), fs.tree, Resolve(c, ref).workloadDir)
    ensures !MayCreate(old(fs.tree), c, ref, flags) ==> !ok && fs.tree == old(fs.tree)
    ensures ref.group == "" || flags.repo == "" || !Missing(old(fs.tree), c.scaffold + [ref.group, ref.app]) ==>
              !ok && fs.tree == old(fs.tree)
    ensures ok ==> Lookup(fs.tree, c.scaffold + [ref.group, ref.app] + [".secret-seed"]) == Some(File(seed))
    ensures ok ==> secrets.Some? && IsSeedFile(ref, secrets.value, seed)
                   && AreRenderings(templates, VarsOf(ref, flags), cfg, files)
    ensures ok ==> Written(fs.tree, Resolve(c, ref).workloadDir, files + [Rendered(SECRET_SEED, seed)])
    ensures fs.reliable ==>
              (ok <==> MayCreate(old(fs.tree), c, ref, flags) && secrets.Some?
                       && Placeable(SourcePaths(templates) + {SECRET_SEED}))
    ensures fs.reliable ==>
              (ok <==> && ref.group != "" && flags.repo != ""
                       && Missing(old(fs.tree), c.scaffold + [ref.group, ref.app])
                       && secrets.Some? && Placeable(SourcePaths(templates) + {[".secret-seed"]}))
  {
    var dir := Resolve(c, ref).workloadDir;
    AbsentIsMissing(fs.tree, dir);
    files, seed := [], "";
    if ref.group == "" || flags.repo == "" {
      return false, files, seed;
    }
    var there := fs.Stat(dir);
    if !there.Absent? {
      return false, files, seed;
    }
    ghost var t := fs.tree;
    AbsentIsFree(t, dir);
    ok := fs.MkdirAll(dir);
    GrownMade(t, fs.tree, dir, dir);
    if !ok {
      return;
    }
    HoldsNothing(t, dir);
    ok, files := RenderAll(fs, dir, templates, VarsOf(ref, flags), cfg, t);
    if !ok {
      return;
    }
    if secrets.None? {
      return false, files, seed;
    }
    var text := SeedFile.SecretSeedEnv(SeedFile.Normal(ref.group), SeedFile.Normal(ref.app), secrets.value);
    seed := text;
    SamePaths(templates, VarsOf(ref, flags), cfg, files);
    ok := WriteInto(fs, dir, files, Rendered(SECRET_SEED, text), t);
    if ok { LastIsWritten(fs.tree, dir, files, Rendered(SECRET_SEED, text)); }
  }

  lemma LastIsWritten(t: Tree, dir: Path, files: seq<Rendered>, f: Rendered)
    requires Written(t, dir, files + [f])
    ensures Lookup(t, dir + f.path) == Some(File(f.text))
  {
    assert LastOf(files + [f], |files|) && (files + [f])[|files|] == f;
  }

  predicate MayCreate(t: Tree, c: Config, ref: Ref, flags: Flags) {
    ref.group != "" && flags.repo != "" && StatOf(t, Resolve(c, ref).workloadDir).Absent?
  }

  ghost predicate AreRenderings(templates: seq<Source>, v: Rendering.Vars, cfg: Rendering.DefaultsConfig,
                                files: seq<Rendered>) {
    && |files| == |templates|
    && forall i :: 0 <= i < |files| ==>
         files[i].path == templates[i].path && IsRendering(templates[i].text, v, cfg, files[i].text)
  }

  lemma AbsentIsFree(t: Tree, p: Path)
    requires StatOf(t, p).Absent?
    ensures CanMkdirs(t, p) && p !in t
  {
  }

  lemma SamePaths(templates: seq<Source>, v: Rendering.Vars, cfg: Rendering.DefaultsConfig, files: seq<Rendered>)
    requires AreRenderings(templates, v, cfg, files)
    ensures PathsOf(files) == SourcePaths(templates)
  {
    forall p ensures p in PathsOf(files) <==> p in SourcePaths(templates) {
      if p in PathsOf(files) {
        var i :| 0 <= i < |files| && files[i].path == p;
        assert templates[i] in templates;
      }
      if p in SourcePaths(templates) {
        var i :| 0 <= i < |templates| && templates[i].path == p;
        assert files[i] in files;
      }
    }
  }

  lemma PathsMore(files: seq<Rendered>, f: Rendered)
    ensures PathsOf(files + [f]) == PathsOf(files) + {f.path}
  {
  }

  lemma PlaceableLess(some: set<Path>, all: set<Path>)
    requires some <= all && Placeable(all)
    ensures Placeable(some)
  {
  }

  lemma OneMoreRendering(templates: seq<Source>, i: nat, v: Rendering.Vars, cfg: Rendering.DefaultsConfig,
                         files: seq<Rendered>, f: Rendered)
    requires i < |templates| && AreRenderings(templates[..i], v, cfg, files)
    requires f.path == templates[i].path && IsRendering(templates[i].text, v, cfg, f.text)
    ensures AreRenderings(templates[..i + 1], v, cfg, files + [f])
    ensures PathsOf(files) + {f.path} <= SourcePaths(templates)
    ensures Placeable(SourcePaths(templates)) ==> Placeable(PathsOf(files) + {f.path})
  {
    assert templates[..i + 1] == templates[..i] + [templates[i]];
    SamePaths(templates[..i], v, cfg, files);
    assert templates[i] in templates;
    if Placeable(SourcePaths(templates)) {
      PlaceableLess(PathsOf(files) + {f.path}, SourcePaths(templates));
    }
  }

  /** `renderAllTemplates` */
  method RenderAll(fs: FileSystem, dir: Path, templates: seq<Source>, v: Rendering.Vars,
                   cfg: Rendering.DefaultsConfig, ghost t: Tree)
    returns (ok: bool, ghost files: seq<Rendered>)
    requires fs.Valid() && Made(t, fs.tree, dir) && Holds(fs.tree, dir, {})
    modifies fs
    ensures fs.Valid() && Made(t, fs.tree, dir)
    ensures ok ==> AreRenderings(templates, v, cfg, files) && Written(fs.tree, dir, files)
    ensures ok ==> Holds(fs.tree, dir, PathsOf(files)) && Placeable(PathsOf(files))
    ensures fs.reliable && !ok ==> !Placeable(SourcePaths(templates))
  {
    ok, files := true, [];
    for i := 0 to |templates|
      invariant fs.Valid() && ok && Made(t, fs.tree, dir) && Written(fs.tree, dir, files)
      invariant AreRenderings(templates[..i], v, cfg, files)
      invariant Holds(fs.tree, dir, PathsOf(files)) && Placeable(PathsOf(files))
    {
      var text := Rendering.Render(templates[i].text, v, cfg);
      var f := Rendered(templates[i].path, text);
      OneMoreRendering(templates, i, v, cfg, files, f);
      ok := WriteInto(fs, dir, files, f, t);
      if !ok {
        return;
      }
      files := files + [f];
    }
    assert templates[..|templates|] == templates;
  }

  /** One file, with the directories on the way to it. */
  method WriteInto(fs: FileSystem, dir: Path, ghost before: seq<Rendered>, f: Rendered, ghost t: Tree)
    returns (ok: bool)
    requires fs.Valid() && Made(t, fs.tree, dir) && Written(fs.tree, dir, before)
    requires Holds(fs.tree, dir, PathsOf(before)) && Placeable(PathsOf(before))
    modifies fs
    ensures fs.Valid() && Made(t, fs.tree, dir)
    ensures ok ==> Written(fs.tree, dir, before + [f])
    ensures ok ==> Holds(fs.tree, dir, PathsOf(before + [f])) && Placeable(PathsOf(before + [f]))
    ensures fs.reliable ==> (ok <==> Placeable(PathsOf(before) + {f.path}))
  {
    var dst := dir + f.path;
    ghost var u := fs.tree;
    PathsMore(before, f);
    OneMoreFits(u, dir, PathsOf(before), f.path);
    ok := WriteWithDirectories(fs, dir, f, t);
    if ok {
      WrittenMore(u, fs.tree, dir, before, f);
      HoldsMore(u, fs.tree, dir, PathsOf(before), f.path, f.text);
    }
  }

  method WriteWithDirectories(fs: FileSystem, dir: Path, f: Rendered, ghost t: Tree) returns (ok: bool)
    requires fs.Valid() && Made(t, fs.tree, dir)
    modifies fs
    ensures fs.Valid() && Made(t, fs.tree, dir)
    ensures var u, dst := old(fs.tree), dir + f.path;
            ok ==> CanMkdirs(u, Container(dst)) && CanWrite(Mkdirs(u, Container(dst)), dst)
                   && fs.tree == Mkdirs(u, Container(dst))[dst := File(f.text)]
    ensures var u, dst := old(fs.tree), dir + f.path;
            fs.reliable ==> (ok <==> CanMkdirs(u, Container(dst)) && CanWrite(Mkdirs(u, Container(dst)), dst))
  {
    var dst := dir + f.path;
    ghost var u := fs.tree;
    assert dir <= dst && (f.path == [] ==> dst == dir) && (f.path != [] ==> dir <= Container(dst))
      && Container(dst) <= dst;
    PrefixTransitive(Container(dst), dst, dir);
    ok := fs.MkdirAll(Container(dst));
    ghost var v := fs.tree;
    GrownMade(u, v, dir, Container(dst));
    MadeTwice(t, u, v, dir);
    if !ok {
      return;
    }
    ok := fs.WriteFile(dst, f.text);
    FramedMade(v, fs.tree, dir, dst);
    MadeTwice(t, v, fs.tree, dir);
  }
}
