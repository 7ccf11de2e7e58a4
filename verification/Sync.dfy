/** Copying the manifests of a workload: a filtered overlay of one directory over another. */
module Sync {
  import opened Wrappers
  import opened FileTree
  import opened Disk

  // ---- What is copied ------------------------------------------------------------------

  /** Top-level names that stay behind. */
  predicate Excluded(name: string) {
    name == "app.yaml" || name == ".secret-seed" || name == "vault" || (|name| >= 5 && name[|name| - 5..] == ".tmpl")
  }

  predicate InfraKept(r: Path) { r != [] ==> r[0] != "gateway.yaml" }

  predicate Kept(r: Path) { r != [] ==> !Excluded(r[0]) && (r[0] == "infra" ==> InfraKept(r[1..])) }

  function InfraParts(t: Tree, src: Path): set<Path> { set r | r in Everything(t, src) && InfraKept(r) }

  /** Everything but the excluded names and the gateway route. */
  function SyncParts(t: Tree, src: Path): set<Path> { set r | r in Everything(t, src) && Kept(r) }

  // ---- The result --------------------------------------------------------------------------

  ghost predicate Parts(t: Tree, src: Path, rels: set<Path>) { [] in rels && forall r :: r in rels ==> src + r in t }

  /** The tree after `rels` was copied from `src` to `dst`. */
  function Copied(t: Tree, src: Path, dst: Path, rels: set<Path>): Tree
    requires forall r :: r in rels ==> src + r in t
  {
    Overlay(Mkdirs(t, dst), src, dst, rels)
  }

  /** No file stands where a directory goes, or the other way round. */
  predicate Compatible(t: Tree, src: Path, dst: Path, rels: set<Path>)
    requires forall r :: r in rels ==> src + r in t
  {
    forall r :: r in rels && dst + r in t ==> (t[dst + r].Dir? <==> t[src + r].Dir?)
  }

  predicate CanCopy(t: Tree, src: Path, dst: Path, rels: set<Path>)
    requires forall r :: r in rels ==> src + r in t
  {
    IsDir(t, src) && CanMkdirs(t, dst) && Compatible(t, src, dst, rels)
  }

  // ---- Entry by entry ----------------------------------------------------------------------

  /** The part of `rels` inside the entry `n`. */
  function Rest(rels: set<Path>, n: string): (s: set<Path>)
    ensures forall r :: r in s <==> [n] + r in rels
  {
    var s := set r | r in rels && r != [] && r[0] == n :: r[1..];
    assert forall r :: r in s <==> [n] + r in rels by {
      forall r ensures r in s <==> [n] + r in rels {
        assert ([n] + r)[1..] == r;
        if r in s {
          var x :| x in rels && x != [] && x[0] == n && r == x[1..];
          assert x == [n] + r;
        }
      }
    }
    s
  }

  function Done(rels: set<Path>, done: set<string>): set<Path> { set r | r in rels && (r == [] || r[0] in done) }

  lemma DoneMore(rels: set<Path>, done: set<string>, n: string)
    ensures Done(rels, done + {n}) == Done(rels, done) + Shift(n, Rest(rels, n))
  {
    forall r ensures r in Done(rels, done + {n}) <==> r in Done(rels, done) + Shift(n, Rest(rels, n)) {
      if r != [] && r[0] == n { assert r == [n] + r[1..]; }
    }
  }

  /** The entries in `done` have been copied. */
  ghost predicate Progress(t: Tree, u: Tree, src: Path, dst: Path, rels: set<Path>, done: set<string>) {
    && WellFormed(t) && Apart(src, dst) && IsDir(t, src) && CanMkdirs(t, dst) && Parts(t, src, rels)
    && u == Copied(t, src, dst, Done(rels, done))
    && Compatible(t, src, dst, Done(rels, done))
  }

  /** The source is never touched. */
  lemma SourceStays(t: Tree, u: Tree, src: Path, dst: Path, rels: set<Path>, done: set<string>, r: Path)
    requires Progress(t, u, src, dst, rels, done)
    ensures src + r in u <==> src + r in t
    ensures src + r in t ==> u[src + r] == t[src + r]
  {
    ApartInside(src, dst, r);
    PrefixTransitive(src, src + r, dst);
  }

  /** Nor is what has not been copied yet. */
  lemma TargetStays(t: Tree, u: Tree, src: Path, dst: Path, rels: set<Path>, done: set<string>, n: string, r: Path)
    requires Progress(t, u, src, dst, rels, done) && n !in done
    ensures dst + [n] + r in u <==> dst + [n] + r in t
    ensures dst + [n] + r in t ==> u[dst + [n] + r] == t[dst + [n] + r]
  {
    ShiftPath(dst, n, r);
    BelowJoins(dst, [n] + r);
  }

  lemma Begin(t: Tree, src: Path, dst: Path, rels: set<Path>)
    requires WellFormed(t) && Apart(src, dst) && IsDir(t, src) && CanMkdirs(t, dst) && Parts(t, src, rels)
    ensures Progress(t, Mkdirs(t, dst), src, dst, rels, {})
  {
    var u := Mkdirs(t, dst);
    MkdirsWellFormed(t, dst);
    assert Done(rels, {}) == {[]};
    OverlayRoot(u, src, dst);
    RootCompatible(t, src, dst);
  }

  lemma RootCompatible(t: Tree, src: Path, dst: Path)
    requires IsDir(t, src) && CanMkdirs(t, dst)
    ensures src + [] in t && Compatible(t, src, dst, {[]})
  {
    assert src + [] == src && dst + [] == dst;
    assert dst in Prefixes(dst);
  }

  /** Overlaying the top alone. */
  lemma OverlayRoot(u: Tree, src: Path, dst: Path)
    requires src in u
    ensures src + [] in u && Overlay(u, src, dst, {[]}) == u[dst := u[src]]
  {
    assert src + [] == src;
    forall q | dst <= q && Below(dst, q) == [] ensures q == dst { JoinsBelow(dst, q); }
    BelowJoins(dst, []);
    assert dst + [] == dst;
  }

  lemma TargetIsDir(t: Tree, u: Tree, src: Path, dst: Path, rels: set<Path>, done: set<string>)
    requires Progress(t, u, src, dst, rels, done)
    ensures IsDir(u, dst)
  {
    BelowJoins(dst, []);
    assert dst + [] == dst && src + [] == src;
  }

  lemma RestSources(t: Tree, u: Tree, src: Path, dst: Path, rels: set<Path>, done: set<string>, n: string)
    requires Progress(t, u, src, dst, rels, done)
    ensures forall r :: r in Rest(rels, n) ==> src + [n] + r in u && src + [n] + r in t
    ensures Everything(u, src + [n]) == Rest(Everything(t, src), n)
  {
    forall r
      ensures (src + [n] + r in u <==> src + [n] + r in t) && (src + [n] + r in t <==> [n] + r in Everything(t, src))
    {
      ShiftPath(src, n, r);
      SourceStays(t, u, src, dst, rels, done, [n] + r);
    }
  }

  /** Whether an entry can be copied now is whether it could be copied at the start. */
  lemma EntryCompatible(t: Tree, u: Tree, src: Path, dst: Path, rels: set<Path>, done: set<string>, n: string)
    requires Progress(t, u, src, dst, rels, done) && n !in done
    ensures forall r :: r in Rest(rels, n) ==> src + [n] + r in u && src + [n] + r in t
    ensures Compatible(u, src + [n], dst + [n], Rest(rels, n)) <==> Compatible(t, src + [n], dst + [n], Rest(rels, n))
  {
    RestSources(t, u, src, dst, rels, done, n);
    forall r | r in Rest(rels, n)
      ensures (dst + [n] + r in u <==> dst + [n] + r in t)
              && (dst + [n] + r in t ==> u[dst + [n] + r] == t[dst + [n] + r])
      ensures u[src + [n] + r] == t[src + [n] + r]
    {
      TargetStays(t, u, src, dst, rels, done, n, r);
      ShiftPath(src, n, r);
      SourceStays(t, u, src, dst, rels, done, [n] + r);
    }
  }

  lemma CompatibleMore(t: Tree, src: Path, dst: Path, rels: set<Path>, done: set<string>, n: string)
    requires Parts(t, src, rels)
    ensures forall r :: r in Rest(rels, n) ==> src + [n] + r in t
    ensures Compatible(t, src, dst, Done(rels, done + {n}))
        <==> Compatible(t, src, dst, Done(rels, done)) && Compatible(t, src + [n], dst + [n], Rest(rels, n))
  {
    forall r | r in Rest(rels, n) ensures src + [n] + r == src + ([n] + r) && dst + [n] + r == dst + ([n] + r) {
      ShiftPath(src, n, r);
      ShiftPath(dst, n, r);
    }
    if Compatible(t, src, dst, Done(rels, done + {n})) {
      forall r | r in Rest(rels, n) && dst + [n] + r in t ensures t[dst + [n] + r].Dir? <==> t[src + [n] + r].Dir? {
        assert [n] + r in Done(rels, done + {n});
      }
    }
    if Compatible(t, src, dst, Done(rels, done)) && Compatible(t, src + [n], dst + [n], Rest(rels, n)) {
      forall r | r in Done(rels, done + {n}) && dst + r in t ensures t[dst + r].Dir? <==> t[src + r].Dir? {
        if r !in Done(rels, done) {
          assert r == [n] + r[1..] && r[1..] in Rest(rels, n);
        }
      }
    }
  }

  /** One entry more. */
  lemma Step(t: Tree, u: Tree, v: Tree, src: Path, dst: Path, rels: set<Path>, done: set<string>, n: string)
    requires Progress(t, u, src, dst, rels, done) && n !in done
    requires forall r :: r in Rest(rels, n) ==> src + [n] + r in u
    requires Compatible(u, src + [n], dst + [n], Rest(rels, n)) && v == Overlay(u, src + [n], dst + [n], Rest(rels, n))
    ensures Progress(t, v, src, dst, rels, done + {n})
  {
    EntryCompatible(t, u, src, dst, rels, done, n);
    CompatibleMore(t, src, dst, rels, done, n);
    DoneMore(rels, done, n);
    OverlayEntry(Mkdirs(t, dst), src, dst, Done(rels, done), n, Rest(rels, n));
  }

  /** An entry that cannot be copied is in the way of the whole. */
  lemma Stuck(t: Tree, u: Tree, src: Path, dst: Path, rels: set<Path>, done: set<string>, n: string)
    requires Progress(t, u, src, dst, rels, done) && n !in done
    requires forall r :: r in Rest(rels, n) ==> src + [n] + r in u
    requires !Compatible(u, src + [n], dst + [n], Rest(rels, n))
    ensures !Compatible(t, src, dst, rels)
  {
    EntryCompatible(t, u, src, dst, rels, done, n);
    CompatibleMore(t, src, dst, rels, {}, n);
    assert Done(rels, {} + {n}) <= rels;
  }

  /** Copying a directory into an existing one needs no directories on the way. */
  lemma DirectoryEntry(u: Tree, src: Path, dst: Path, rels: set<Path>, n: string)
    requires WellFormed(u) && IsDir(u, dst) && Apart(src, dst) && IsDir(u, src + [n]) && Parts(u, src + [n], rels)
    ensures CanCopy(u, src + [n], dst + [n], rels) <==> Compatible(u, src + [n], dst + [n], rels)
    ensures CanMkdirs(u, dst + [n]) ==> Copied(u, src + [n], dst + [n], rels) == Overlay(u, src + [n], dst + [n], rels)
  {
    EntryPath(u, dst, n);
    NoFileInTheWay(u, src + [n], dst + [n], rels);
    MkdirsEntry(u, src + [n], dst + [n], rels);
  }

  lemma NoFileInTheWay(u: Tree, src: Path, dst: Path, rels: set<Path>)
    requires IsDir(u, src) && Parts(u, src, rels) && (CanMkdirs(u, dst) <==> !IsFile(u, dst))
    ensures CanCopy(u, src, dst, rels) <==> Compatible(u, src, dst, rels)
  {
    assert src + [] == src && dst + [] == dst;
  }

  lemma MkdirsEntry(u: Tree, src: Path, dst: Path, rels: set<Path>)
    requires IsDir(u, src) && Parts(u, src, rels)
    requires forall q :: q <= dst ==> q == dst || IsDir(u, q)
    ensures Copied(u, src, dst, rels) == Overlay(u, src, dst, rels)
  {
    var v := Mkdirs(u, dst);
    forall q | q != dst ensures (q in u <==> q in v) && (q in u && q in v ==> u[q] == v[q]) {
      if q <= dst { assert IsDir(u, q); }
    }
    OverlayCovers(u, v, src, dst, rels);
  }

  lemma OverlayCovers(u: Tree, v: Tree, src: Path, dst: Path, rels: set<Path>)
    requires [] in rels && forall r :: r in rels ==> src + r in u && src + r in v && u[src + r] == v[src + r]
    requires forall q :: q != dst ==> (q in u <==> q in v) && (q in u && q in v ==> u[q] == v[q])
    ensures Overlay(v, src, dst, rels) == Overlay(u, src, dst, rels)
  {
    BelowJoins(dst, []);
    assert dst + [] == dst;
    assert dst <= dst && Below(dst, dst) in rels;
  }

  lemma EntryPath(u: Tree, dst: Path, n: string)
    requires WellFormed(u) && IsDir(u, dst)
    ensures CanMkdirs(u, dst + [n]) <==> !IsFile(u, dst + [n])
    ensures forall q :: q <= dst + [n] ==> q == dst + [n] || IsDir(u, q)
  {
    DirsAbove(u, dst);
    forall q | q in Prefixes(dst + [n]) && q != dst + [n] ensures IsDir(u, q) {
      PrefixOfEntry(dst, n, q);
      assert q in Prefixes(dst);
    }
    forall q | q <= dst + [n] ensures q in Prefixes(dst + [n]) { }
    assert dst + [n] in Prefixes(dst + [n]);
  }

  /** Copying a file is an overlay with that file alone. */
  lemma FileEntry(u: Tree, src: Path, dst: Path, n: string)
    requires WellFormed(u) && IsDir(u, dst) && IsFile(u, src + [n])
    ensures Everything(u, src + [n]) == {[]}
    ensures src + [n] + [] in u
    ensures CanWrite(u, dst + [n]) <==> Compatible(u, src + [n], dst + [n], {[]})
    ensures u[dst + [n] := u[src + [n]]] == Overlay(u, src + [n], dst + [n], {[]})
  {
    assert src + [n] + [] == src + [n] && dst + [n] + [] == dst + [n];
    forall r | r in Everything(u, src + [n]) ensures r == [] {
      if r != [] { BelowIsDir(u, src + [n], src + [n] + r); }
    }
    assert Parent(dst + [n]) == dst;
    OverlayRoot(u, src + [n], dst + [n]);
  }

  lemma NothingEntry(u: Tree, src: Path, dst: Path, n: string)
    ensures Overlay(u, src + [n], dst + [n], {}) == u && Compatible(u, src + [n], dst + [n], {})
  {
  }

  lemma AllDone(t: Tree, src: Path, rels: set<Path>, names: set<string>)
    requires WellFormed(t) && IsDir(t, src) && Parts(t, src, rels) && names == Names(t, src)
    ensures Done(rels, names) == rels
  {
    forall r | r in rels && r != [] ensures r[0] in names {
      var n := r[0];
      assert r == [n] + r[1..];
      ShiftPath(src, n, r[1..]);
      assert src + r == src + [n] + r[1..];
      if r != [n] { BelowIsDir(t, src + [n], src + r); }
    }
  }

  lemma CopiedIsFramed(t: Tree, src: Path, dst: Path, rels: set<Path>)
    requires forall r :: r in rels ==> src + r in t
    ensures Framed(t, Copied(t, src, dst, rels), dst)
  {
  }

  // ---- The program ----------------------------------------------------------------------------

  function AsSet(names: seq<string>): set<string> { set n | n in names }

  lemma Next(names: seq<string>, i: nat)
    requires i < |names| && forall a, b :: 0 <= a < b < |names| ==> names[a] != names[b]
    ensures names[i] !in AsSet(names[..i]) && AsSet(names[..i + 1]) == AsSet(names[..i]) + {names[i]}
  {
    assert names[..i + 1] == names[..i] + [names[i]];
  }

  lemma Finish(t: Tree, u: Tree, src: Path, dst: Path, rels: set<Path>, names: seq<string>)
    requires Progress(t, u, src, dst, rels, AsSet(names[..|names|])) && Enumerates(names, Names(t, src))
    ensures u == Copied(t, src, dst, rels) && CanCopy(t, src, dst, rels)
  {
    assert names[..|names|] == names;
    assert AsSet(names) == Names(t, src);
    AllDone(t, src, rels, Names(t, src));
  }

  lemma WholeIsParts(t: Tree, src: Path)
    requires src in t
    ensures Parts(t, src, Everything(t, src)) && Parts(t, src, InfraParts(t, src)) && Parts(t, src, SyncParts(t, src))
  {
    assert src + [] == src;
  }

  /** The body of the copying loops. */
  method CopyEntry(fs: FileSystem, src: Path, dst: Path, n: string,
                   ghost t: Tree, ghost rels: set<Path>, ghost done: set<string>) returns (ok: bool)
    requires fs.Valid() && Progress(t, fs.tree, src, dst, rels, done) && n !in done && n in Names(t, src)
    requires Rest(rels, n) == Everything(t, src + [n])
    modifies fs
    ensures fs.Valid() && Framed(t, fs.tree, dst)
    ensures ok ==> Progress(t, fs.tree, src, dst, rels, done + {n})
    ensures fs.reliable && !ok ==> !Compatible(t, src, dst, rels)
    decreases |Everything(fs.tree, src + [n])|, 2
  {
    ghost var u := fs.tree;
    CopiedIsFramed(t, src, dst, Done(rels, done));
    SourceStays(t, u, src, dst, rels, done, [n]);
    TargetIsDir(t, u, src, dst, rels, done);
    SameBelow(t, u, src, dst, rels, done, n);
    if IsDir(fs.tree, src + [n]) {
      ApartEntries(src, dst, n);
      WholeIsParts(u, src + [n]);
      DirectoryEntry(u, src, dst, Everything(u, src + [n]), n);
      ok := CopyDir(fs, src + [n], dst + [n]);
    } else {
      FileEntry(u, src, dst, n);
      ok := CopyFile(fs, src + [n], dst + [n]);
    }
    FramedInside(u, fs.tree, dst, n);
    FramedTwice(t, u, fs.tree, dst);
    if ok {
      Step(t, u, fs.tree, src, dst, rels, done, n);
    } else if fs.reliable {
      Stuck(t, u, src, dst, rels, done, n);
    }
  }

  lemma SameBelow(t: Tree, u: Tree, src: Path, dst: Path, rels: set<Path>, done: set<string>, n: string)
    requires Progress(t, u, src, dst, rels, done) && Rest(rels, n) == Everything(t, src + [n])
    ensures Everything(u, src + [n]) == Rest(rels, n)
    ensures forall r :: r in Rest(rels, n) ==> src + [n] + r in u
  {
    RestSources(t, u, src, dst, rels, done, n);
    forall r ensures r in Rest(Everything(t, src), n) <==> r in Everything(t, src + [n]) { ShiftPath(src, n, r); }
  }

  lemma ApartEntries(src: Path, dst: Path, n: string)
    requires Apart(src, dst)
    ensures Apart(src + [n], dst + [n])
  {
    ApartInside(src, dst, [n]);
    PrefixOfEntry(dst, n, src + [n]);
    PrefixOfEntry(src, n, dst + [n]);
  }

  method CopyFile(fs: FileSystem, src: Path, dst: Path) returns (ok: bool)
    requires fs.Valid()
    modifies fs
    ensures fs.Valid() && Framed(old(fs.tree), fs.tree, dst)
    ensures ok ==> IsFile(old(fs.tree), src) && CanWrite(old(fs.tree), dst)
                   && fs.tree == old(fs.tree)[dst := old(fs.tree)[src]]
    ensures fs.reliable ==> (ok <==> IsFile(old(fs.tree), src) && CanWrite(old(fs.tree), dst))
  {
    var data;
    data, ok := fs.ReadFile(src);
    if !ok {
      return;
    }
    ok := fs.WriteFile(dst, data);
  }

  /** `copyDir` */
  method CopyDir(fs: FileSystem, src: Path, dst: Path) returns (ok: bool)
    requires fs.Valid() && Apart(src, dst)
    modifies fs
    ensures fs.Valid() && Framed(old(fs.tree), fs.tree, dst)
    ensures var t := old(fs.tree);
            var rels := Everything(t, src);
            && (ok ==> CanCopy(t, src, dst, rels) && fs.tree == Copied(t, src, dst, rels))
            && (fs.reliable ==> (ok <==> CanCopy(t, src, dst, rels)))
    decreases |Everything(fs.tree, src)|, 1
  {
    ghost var t := fs.tree;
    ghost var rels := Everything(t, src);
    var names;
    names, ok := fs.ReadDir(src);
    if !ok {
      return;
    }
    ok := fs.MkdirAll(dst);
    if !ok {
      return;
    }
    WholeIsParts(t, src);
    Begin(t, src, dst, rels);
    ok := CopyEntries(fs, src, dst, names, t);
  }

  method CopyEntries(fs: FileSystem, src: Path, dst: Path, names: seq<string>, ghost t: Tree) returns (ok: bool)
    requires fs.Valid() && Progress(t, fs.tree, src, dst, Everything(t, src), {}) && Enumerates(names, Names(t, src))
    modifies fs
    ensures fs.Valid() && Framed(t, fs.tree, dst)
    ensures ok ==> CanCopy(t, src, dst, Everything(t, src)) && fs.tree == Copied(t, src, dst, Everything(t, src))
    ensures fs.reliable && !ok ==> !Compatible(t, src, dst, Everything(t, src))
    decreases |Everything(t, src)|, 0
  {
    ghost var rels, done := Everything(t, src), {};
    ok := true;
    for i := 0 to |names|
      invariant ok && fs.Valid() && Progress(t, fs.tree, src, dst, rels, done) && done == AsSet(names[..i])
    {
      Next(names, i);
      EntryWhole(t, src, names[i]);
      Smaller(t, fs.tree, src, dst, rels, done, names[i]);
      ok := CopyEntry(fs, src, dst, names[i], t, rels, done);
      if !ok {
        return;
      }
      done := done + {names[i]};
    }
    Finish(t, fs.tree, src, dst, rels, names);
    CopiedIsFramed(t, src, dst, rels);
  }

  lemma EntryWhole(t: Tree, src: Path, n: string)
    ensures Rest(Everything(t, src), n) == Everything(t, src + [n])
  {
    forall r ensures r in Rest(Everything(t, src), n) <==> r in Everything(t, src + [n]) { ShiftPath(src, n, r); }
  }

  /** A directory has more in it than each of its entries. */
  lemma Smaller(t: Tree, u: Tree, src: Path, dst: Path, rels: set<Path>, done: set<string>, n: string)
    requires Progress(t, u, src, dst, rels, done)
    ensures |Everything(u, src + [n])| < |Everything(t, src)|
  {
    RestSources(t, u, src, dst, rels, done, n);
    var inside := Rest(Everything(t, src), n);
    ShiftSize(n, inside);
    assert src + [] == src;
    assert [] in Everything(t, src) && [] !in Shift(n, inside);
    forall r | r in Shift(n, inside) ensures r in Everything(t, src) { assert r == [n] + r[1..]; }
    Subset(Shift(n, inside), Everything(t, src) - {[]});
  }

  lemma {:induction false} ShiftSize(n: string, rels: set<Path>)
    ensures |Shift(n, rels)| == |rels|
  {
    if rels == {} {
      assert Shift(n, rels) == {};
    } else {
      var r :| r in rels;
      ShiftSize(n, rels - {r});
      assert ([n] + r)[1..] == r;
      forall x | x != [] && x[0] == n && x[1..] == r ensures x == [n] + r { }
      assert Shift(n, rels) == Shift(n, rels - {r}) + {[n] + r};
    }
  }

  lemma {:induction false} Subset(a: set<Path>, b: set<Path>)
    requires a <= b
    ensures |a| <= |b|
  {
    if a != {} {
      var x :| x in a;
      Subset(a - {x}, b - {x});
    }
  }

  /** `syncInfraResources`: the gateway route stays behind. */
  method SyncInfraResources(fs: FileSystem, src: Path, dst: Path) returns (ok: bool)
    requires fs.Valid() && Apart(src, dst)
    modifies fs
    ensures fs.Valid() && Framed(old(fs.tree), fs.tree, dst)
    ensures var t := old(fs.tree);
            var rels := InfraParts(t, src);
            && (ok ==> CanCopy(t, src, dst, rels) && fs.tree == Copied(t, src, dst, rels))
            && (fs.reliable ==> (ok <==> CanCopy(t, src, dst, rels)))
  {
    ghost var t := fs.tree;
    ghost var rels := InfraParts(t, src);
    ok := fs.MkdirAll(dst);
    if !ok {
      return;
    }
    MkdirsElsewhere(t, src, dst);
    var names;
    names, ok := fs.ReadDir(src);
    if !ok {
      return;
    }
    WholeIsParts(t, src);
    Begin(t, src, dst, rels);
    ok := SyncInfraEntries(fs, src, dst, names, t);
  }

  method SyncInfraEntries(fs: FileSystem, src: Path, dst: Path, names: seq<string>, ghost t: Tree) returns (ok: bool)
    requires fs.Valid() && Progress(t, fs.tree, src, dst, InfraParts(t, src), {}) && Enumerates(names, Names(t, src))
    modifies fs
    ensures fs.Valid() && Framed(t, fs.tree, dst)
    ensures ok ==> CanCopy(t, src, dst, InfraParts(t, src)) && fs.tree == Copied(t, src, dst, InfraParts(t, src))
    ensures fs.reliable && !ok ==> !Compatible(t, src, dst, InfraParts(t, src))
  {
    ghost var rels, done := InfraParts(t, src), {};
    ok := true;
    for i := 0 to |names|
      invariant ok && fs.Valid() && Progress(t, fs.tree, src, dst, rels, done) && done == AsSet(names[..i])
    {
      Next(names, i);
      InfraEntry(t, src, names[i]);
      if names[i] == "gateway.yaml" {
        Skip(t, fs.tree, src, dst, rels, done, names[i]);
        done := done + {names[i]};
        continue;
      }
      ok := CopyEntry(fs, src, dst, names[i], t, rels, done);
      if !ok {
        return;
      }
      done := done + {names[i]};
    }
    Finish(t, fs.tree, src, dst, rels, names);
    CopiedIsFramed(t, src, dst, rels);
  }

  /** Making directories for the destination leaves the source as it is. */
  lemma MkdirsElsewhere(t: Tree, src: Path, dst: Path)
    requires Apart(src, dst)
    ensures IsDir(Mkdirs(t, dst), src) <==> IsDir(t, src)
    ensures Names(Mkdirs(t, dst), src) == Names(t, src)
  {
    forall n ensures src + [n] in Mkdirs(t, dst) <==> src + [n] in t {
      PrefixTransitive(src, src + [n], dst);
    }
  }

  lemma Skip(t: Tree, u: Tree, src: Path, dst: Path, rels: set<Path>, done: set<string>, n: string)
    requires Progress(t, u, src, dst, rels, done) && n !in done && Rest(rels, n) == {}
    ensures Progress(t, u, src, dst, rels, done + {n})
  {
    NothingEntry(u, src, dst, n);
    Step(t, u, u, src, dst, rels, done, n);
  }

  lemma InfraEntry(t: Tree, src: Path, n: string)
    ensures Rest(InfraParts(t, src), n) == if n == "gateway.yaml" then {} else Everything(t, src + [n])
  {
    EntryWhole(t, src, n);
    forall r ensures r in Rest(InfraParts(t, src), n) <==> n != "gateway.yaml" && r in Rest(Everything(t, src), n) { }
  }

  lemma SyncEntry(t: Tree, src: Path, n: string)
    ensures Excluded(n) ==> Rest(SyncParts(t, src), n) == {}
    ensures !Excluded(n) && n != "infra" ==> Rest(SyncParts(t, src), n) == Everything(t, src + [n])
    ensures Rest(SyncParts(t, src), "infra") == InfraParts(t, src + ["infra"])
  {
    EntryWhole(t, src, n);
    EntryWhole(t, src, "infra");
    forall r ensures r in Rest(SyncParts(t, src), n) <==> r in Rest(Everything(t, src), n) && Kept([n] + r) { }
    forall r ensures r in Rest(SyncParts(t, src), "infra") <==> r in Rest(Everything(t, src), "infra") && InfraKept(r) {
      assert (["infra"] + r)[1..] == r;
    }
  }

  /** `SyncResources` */
  method SyncResources(fs: FileSystem, src: Path, dst: Path) returns (ok: bool)
    requires fs.Valid() && Apart(src, dst)
    modifies fs
    ensures fs.Valid() && Framed(old(fs.tree), fs.tree, dst)
    ensures var t := old(fs.tree);
            var rels := SyncParts(t, src);
            && (ok ==> CanCopy(t, src, dst, rels) && fs.tree == Copied(t, src, dst, rels))
            && (fs.reliable ==> (ok <==> CanCopy(t, src, dst, rels)))
    ensures ok ==> Synced(old(fs.tree), fs.tree, src, dst)
    ensures fs.reliable ==> (ok <==> && IsDir(old(fs.tree), src) && SameKinds(old(fs.tree), src, dst)
                                     && forall q :: q in Prefixes(dst) ==> !IsFile(old(fs.tree), q))
  {
    ghost var t := fs.tree;
    CompatibleExactly(t, src, dst);
    ghost var rels := SyncParts(t, src);
    ok := fs.MkdirAll(dst);
    if !ok {
      return;
    }
    MkdirsElsewhere(t, src, dst);
    var names;
    names, ok := fs.ReadDir(src);
    if !ok {
      return;
    }
    WholeIsParts(t, src);
    Begin(t, src, dst, rels);
    ok := SyncEntries(fs, src, dst, names, t);
    if ok { SyncIsOverlay(t, src, dst); }
  }

  method SyncEntries(fs: FileSystem, src: Path, dst: Path, names: seq<string>, ghost t: Tree) returns (ok: bool)
    requires fs.Valid() && Progress(t, fs.tree, src, dst, SyncParts(t, src), {}) && Enumerates(names, Names(t, src))
    modifies fs
    ensures fs.Valid() && Framed(t, fs.tree, dst)
    ensures ok ==> CanCopy(t, src, dst, SyncParts(t, src)) && fs.tree == Copied(t, src, dst, SyncParts(t, src))
    ensures fs.reliable && !ok ==> !Compatible(t, src, dst, SyncParts(t, src))
  {
    ghost var rels, done := SyncParts(t, src), {};
    ok := true;
    for i := 0 to |names|
      invariant ok && fs.Valid() && Progress(t, fs.tree, src, dst, rels, done) && done == AsSet(names[..i])
    {
      Next(names, i);
      ok := SyncOne(fs, src, dst, names[i], t, done);
      if !ok {
        return;
      }
      done := done + {names[i]};
    }
    Finish(t, fs.tree, src, dst, rels, names);
    CopiedIsFramed(t, src, dst, rels);
  }

  /** The body of the loop of `SyncResources`. */
  method SyncOne(fs: FileSystem, src: Path, dst: Path, n: string, ghost t: Tree, ghost done: set<string>)
    returns (ok: bool)
    requires fs.Valid() && Progress(t, fs.tree, src, dst, SyncParts(t, src), done) && n !in done && n in Names(t, src)
    modifies fs
    ensures fs.Valid() && Framed(t, fs.tree, dst)
    ensures ok ==> Progress(t, fs.tree, src, dst, SyncParts(t, src), done + {n})
    ensures fs.reliable && !ok ==> !Compatible(t, src, dst, SyncParts(t, src))
  {
    ghost var u, rels := fs.tree, SyncParts(t, src);
    SyncEntry(t, src, n);
    if Excluded(n) {
      CopiedIsFramed(t, src, dst, Done(rels, done));
      Skip(t, u, src, dst, rels, done, n);
      return true;
    }
    SourceStays(t, u, src, dst, rels, done, [n]);
    if IsDir(fs.tree, src + [n]) && n == "infra" {
      ok := SyncInfra(fs, src, dst, t, rels, done);
      return;
    }
    if n == "infra" {
      InfraFile(t, src);
    }
    ok := CopyEntry(fs, src, dst, n, t, rels, done);
  }

  lemma InfraFile(t: Tree, src: Path)
    requires WellFormed(t) && IsFile(t, src + ["infra"])
    ensures InfraParts(t, src + ["infra"]) == Everything(t, src + ["infra"])
  {
    forall r | r in Everything(t, src + ["infra"]) ensures r == [] {
      if r != [] { BelowIsDir(t, src + ["infra"], src + ["infra"] + r); }
    }
  }

  /** The step of the loop for the directory `infra`. */
  method SyncInfra(fs: FileSystem, src: Path, dst: Path, ghost t: Tree, ghost rels: set<Path>, ghost done: set<string>)
    returns (ok: bool)
    requires fs.Valid() && Progress(t, fs.tree, src, dst, rels, done) && "infra" !in done && IsDir(t, src + ["infra"])
    requires Rest(rels, "infra") == InfraParts(t, src + ["infra"])
    modifies fs
    ensures fs.Valid() && Framed(t, fs.tree, dst)
    ensures ok ==> Progress(t, fs.tree, src, dst, rels, done + {"infra"})
    ensures fs.reliable && !ok ==> !Compatible(t, src, dst, rels)
  {
    ghost var u, n := fs.tree, "infra";
    CopiedIsFramed(t, src, dst, Done(rels, done));
    SourceStays(t, u, src, dst, rels, done, [n]);
    TargetIsDir(t, u, src, dst, rels, done);
    RestSources(t, u, src, dst, rels, done, n);
    EntryWhole(t, src, n);
    ApartEntries(src, dst, n);
    WholeIsParts(u, src + [n]);
    DirectoryEntry(u, src, dst, InfraParts(u, src + [n]), n);
    ok := SyncInfraResources(fs, src + ["infra"], dst + ["infra"]);
    FramedInside(u, fs.tree, dst, n);
    FramedTwice(t, u, fs.tree, dst);
    if ok {
      Step(t, u, fs.tree, src, dst, rels, done, n);
    } else if fs.reliable {
      Stuck(t, u, src, dst, rels, done, n);
    }
  }

  // ---- What it means -------------------------------------------------------------------------

  /** The manifest of the application, its secrets, its Vault files, templates, and the route for the gateway. */
  ghost predicate StaysBehind(r: Path)
    requires r != []
  {
    || r[0] in {"app.yaml", ".secret-seed", "vault"}
    || (exists stem :: r[0] == stem + ".tmpl")
    || (|r| >= 2 && r[0] == "infra" && r[1] == "gateway.yaml")
  }

  /** Every other part of the source is in the destination with the same bytes; what stays behind is neither added nor
      changed there, nor is anything that the source does not have. */
  ghost predicate Synced(t: Tree, u: Tree, src: Path, dst: Path) {
    forall r: Path :: r != [] ==>
        if src + r in t && !StaysBehind(r) then dst + r in u && u[dst + r] == t[src + r]
        else (dst + r in u <==> dst + r in t) && (dst + r in t ==> u[dst + r] == t[dst + r])
  }

  lemma KeptExactly(r: Path)
    requires r != []
    ensures Kept(r) <==> !StaysBehind(r)
  {
    var n := r[0];
    if |n| >= 5 && n[|n| - 5..] == ".tmpl" { assert n == n[..|n| - 5] + ".tmpl"; }
    if exists stem :: n == stem + ".tmpl" {
      var stem :| n == stem + ".tmpl";
      assert n[|n| - 5..] == ".tmpl";
    }
  }

  lemma CompatibleExactly(t: Tree, src: Path, dst: Path)
    ensures Compatible(t, src, dst, SyncParts(t, src)) <==> SameKinds(t, src, dst)
  {
    forall r ensures r in SyncParts(t, src) <==> src + r in t && (r == [] || !StaysBehind(r)) {
      if r != [] { KeptExactly(r); }
    }
  }

  /** Where something of the source goes there is nothing, or something of the same kind. */
  ghost predicate SameKinds(t: Tree, src: Path, dst: Path) {
    forall r :: src + r in t && (r == [] || !StaysBehind(r)) && dst + r in t ==> (t[dst + r].Dir? <==> t[src + r].Dir?)
  }

  /** The destination is synced, and everything outside it is as before. */
  lemma SyncIsOverlay(t: Tree, src: Path, dst: Path)
    requires WellFormed(t) && Apart(src, dst) && CanCopy(t, src, dst, SyncParts(t, src))
    ensures Synced(t, Copied(t, src, dst, SyncParts(t, src)), src, dst)
    ensures Framed(t, Copied(t, src, dst, SyncParts(t, src)), dst)
  {
    var u := Copied(t, src, dst, SyncParts(t, src));
    forall r: Path | r != []
      ensures if src + r in t && !StaysBehind(r) then dst + r in u && u[dst + r] == t[src + r]
              else (dst + r in u <==> dst + r in t) && (dst + r in t ==> u[dst + r] == t[dst + r])
    {
      KeptExactly(r);
      OverlayAt(Mkdirs(t, dst), src, dst, SyncParts(t, src), r);
      assert !(dst + r <= dst);
    }
    CopiedIsFramed(t, src, dst, SyncParts(t, src));
  }

  /** Into a place where nothing is, exactly the filtered source is put. */
  lemma SyncIntoNothing(t: Tree, src: Path, dst: Path, r: Path)
    requires WellFormed(t) && Apart(src, dst) && IsDir(t, src) && dst !in t
    ensures var u := Copied(t, src, dst, SyncParts(t, src));
            && (dst + r in u <==> src + r in t && Kept(r))
            && (dst + r in u ==> u[dst + r] == t[src + r])
  {
    WholeIsParts(t, src);
    NothingBelow(t, dst, r);
    OverlayAt(Mkdirs(t, dst), src, dst, SyncParts(t, src), r);
  }

  lemma NothingBelow(t: Tree, dst: Path, r: Path)
    requires WellFormed(t) && dst !in t
    ensures dst + r in Mkdirs(t, dst) ==> r == []
  {
    if r != [] && dst + r in t { BelowIsDir(t, dst, dst + r); }
  }

  /** Syncing a second time succeeds and changes nothing. */
  lemma SyncTwice(t: Tree, src: Path, dst: Path)
    requires WellFormed(t) && Apart(src, dst) && CanCopy(t, src, dst, SyncParts(t, src))
    ensures var u := Copied(t, src, dst, SyncParts(t, src));
            && SyncParts(u, src) == SyncParts(t, src) && CanCopy(u, src, dst, SyncParts(u, src))
            && Copied(u, src, dst, SyncParts(u, src)) == u
  {
    var rels := SyncParts(t, src);
    SourceCopied(t, src, dst, rels);
    assert forall r :: r in Everything(Copied(t, src, dst, rels), src) <==> r in Everything(t, src);
    OverlayTwice(Mkdirs(t, dst), src, dst, rels);
    MkdirsKept(Mkdirs(t, dst), Copied(t, src, dst, rels), dst);
    WholeIsParts(t, src);
    SyncedAgain(t, src, dst, rels);
  }

  lemma SourceCopied(t: Tree, src: Path, dst: Path, rels: set<Path>)
    requires Apart(src, dst) && forall r :: r in rels ==> src + r in t
    ensures var u := Copied(t, src, dst, rels);
            forall r :: (src + r in u <==> src + r in t) && (src + r in t ==> u[src + r] == t[src + r])
  {
    var u := Copied(t, src, dst, rels);
    forall r ensures (src + r in u <==> src + r in t) && (src + r in t ==> u[src + r] == t[src + r]) {
      ApartInside(src, dst, r);
      PrefixTransitive(src, src + r, dst);
      OverlayElsewhere(Mkdirs(t, dst), src, dst, rels, src + r);
    }
  }

  lemma TargetCopied(t: Tree, src: Path, dst: Path, rels: set<Path>)
    requires forall r :: r in rels ==> src + r in t
    ensures var u := Copied(t, src, dst, rels);
            forall r :: r in rels ==> dst + r in u && u[dst + r] == t[src + r]
  {
    forall r | r in rels
      ensures dst + r in Copied(t, src, dst, rels) && Copied(t, src, dst, rels)[dst + r] == t[src + r]
    {
      OverlayAt(Mkdirs(t, dst), src, dst, rels, r);
    }
  }

  lemma WayFree(t: Tree, src: Path, dst: Path, rels: set<Path>)
    requires Parts(t, src, rels) && CanCopy(t, src, dst, rels)
    ensures CanMkdirs(Copied(t, src, dst, rels), dst)
  {
    TargetCopied(t, src, dst, rels);
    assert src + [] == src && dst + [] == dst;
    forall q | q in Prefixes(dst) ensures !IsFile(Copied(t, src, dst, rels), q) {
      if q != dst {
        assert !(dst <= q);
        OverlayElsewhere(Mkdirs(t, dst), src, dst, rels, q);
      }
    }
  }

  /** What was copied is not in its own way. */
  lemma SyncedAgain(t: Tree, src: Path, dst: Path, rels: set<Path>)
    requires Parts(t, src, rels) && Apart(src, dst) && CanCopy(t, src, dst, rels)
    ensures var u := Copied(t, src, dst, rels);
            (forall r :: r in rels ==> src + r in u) && CanCopy(u, src, dst, rels)
  {
    SourceCopied(t, src, dst, rels);
    TargetCopied(t, src, dst, rels);
    WayFree(t, src, dst, rels);
    assert src + [] == src;
  }

  lemma MkdirsKept(m: Tree, u: Tree, dst: Path)
    requires (forall q :: q in m ==> q in u) && forall q :: q <= dst ==> q in m
    ensures Mkdirs(u, dst) == u
  {
  }
}
