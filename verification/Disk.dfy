/** The file system as the tool uses it. Unless it is reliable any call may fail, and a call that fails may have
    been carried out in part. Copying a workload's manifests is built on these calls. */
module Disk {
  import opened Wrappers
  import opened FileTree

  /** os.Stat: `Broken` is an error other than "does not exist", given for a path that runs through a file. */
  datatype Stat = Found(node: Node) | Absent | Broken

  predicate ThroughFile(t: Tree, p: Path) { exists q :: q in Prefixes(p) && q != p && IsFile(t, q) }

  function StatOf(t: Tree, p: Path): Stat {
    if p in t then Found(t[p]) else if ThroughFile(t, p) then Broken else Absent
  }

  predicate CanWrite(t: Tree, p: Path) { p != [] && IsDir(t, Parent(p)) && !IsDir(t, p) }

  /** Nothing is inside. */
  predicate Barren(t: Tree, p: Path) { forall q :: q in t && p <= q ==> q == p }

  predicate CanRemove(t: Tree, p: Path) { p != [] && p in t && Barren(t, p) }

  /** The tree without `p` and everything inside. */
  function Cleared(t: Tree, p: Path): (u: Tree)
    ensures forall q :: q in u <==> q in t && !(p <= q)
    ensures forall q :: q in u ==> u[q] == t[q]
  {
    map q | q in t && !(p <= q) :: t[q]
  }

  /** The names in a directory. */
  function Names(t: Tree, p: Path): (s: set<string>)
    ensures forall n :: n in s <==> p + [n] in t
  {
    var s := set q | q in t && q != [] && Parent(q) == p :: q[|q| - 1];
    assert forall n :: n in s <==> p + [n] in t by {
      forall n ensures n in s <==> p + [n] in t {
        assert Parent(p + [n]) == p;
        if n in s {
          var q :| q in t && q != [] && Parent(q) == p && n == q[|q| - 1];
          assert q == p + [n];
        }
      }
    }
    s
  }

  lemma NamesEmpty(t: Tree, p: Path)
    requires WellFormed(t) && p in t
    ensures Names(t, p) == {} <==> Barren(t, p)
  {
    if q :| q in t && p <= q && q != p {
      var n := q[|p|];
      assert q[..|p| + 1] == p + [n];
      if q != p + [n] { BelowIsDir(t, p + [n], q); }
      assert n in Names(t, p);
    }
    if n :| n in Names(t, p) {
      assert p + [n] in t && p <= p + [n];
    }
  }

  /** From `t` to `u` only what is at `p` or inside changes, and directories are made on the way to it. */
  predicate Framed(t: Tree, u: Tree, p: Path) {
    && (forall q :: q in t && !(p <= q) ==> q in u && u[q] == t[q])
    && (forall q :: q in u && !(p <= q) && q !in t ==> q <= p && u[q].Dir?)
  }

  /** From `t` to `u` directories are made on the way to `p`. */
  predicate Grown(t: Tree, u: Tree, p: Path) {
    && (forall q :: q in t ==> q in u && u[q] == t[q])
    && (forall q :: q in u && q !in t ==> q <= p && u[q].Dir?)
  }

  lemma FramedTwice(t: Tree, u: Tree, v: Tree, p: Path)
    requires Framed(t, u, p) && Framed(u, v, p)
    ensures Framed(t, v, p)
  {
  }

  lemma PrefixOfEntry(p: Path, n: string, q: Path)
    ensures p + [n] <= q ==> p <= q
    ensures q <= p + [n] ==> q <= p || q == p + [n]
  {
    EntryBelow(p, n, q);
    if q <= p + [n] && |q| <= |p| {
      assert q == (p + [n])[..|q|] == p[..|q|];
    }
  }

  lemma FramedInside(t: Tree, u: Tree, p: Path, n: string)
    requires Framed(t, u, p + [n]) && IsDir(t, p)
    ensures Framed(t, u, p)
  {
    forall q | q in t && !(p <= q) ensures q in u && u[q] == t[q] {
      PrefixOfEntry(p, n, q);
    }
    forall q | q in u && !(p <= q) && q !in t ensures q <= p && u[q].Dir? {
      PrefixOfEntry(p, n, q);
    }
  }

  lemma PrefixTransitive(a: Path, b: Path, c: Path)
    ensures a <= b && b <= c ==> a <= c
  {
  }

  lemma SomeMkdirs(t: Tree, p: Path, some: Path)
    requires WellFormed(t) && CanMkdirs(t, p) && some <= p
    ensures Grown(t, Mkdirs(t, some), p) && WellFormed(Mkdirs(t, some))
  {
    forall q | q in Prefixes(some) ensures q in Prefixes(p) { PrefixTransitive(q, some, p); }
    MkdirsWellFormed(t, some);
  }

  lemma WriteWellFormed(t: Tree, p: Path, data: string)
    requires WellFormed(t) && CanWrite(t, p)
    ensures WellFormed(t[p := File(data)])
  {
    var u := t[p := File(data)];
    forall q | q in u && q != [] ensures IsDir(u, Parent(q)) {
      assert |Parent(q)| < |q|;
    }
  }

  lemma ClearedWellFormed(t: Tree, p: Path)
    requires WellFormed(t) && p != []
    ensures WellFormed(Cleared(t, p))
  {
    var u := Cleared(t, p);
    forall q | q in u && q != [] ensures IsDir(u, Parent(q)) {
      assert Parent(q) <= q;
      PrefixTransitive(p, Parent(q), q);
    }
  }

  class FileSystem {
    const reliable: bool
    var tree: Tree

    ghost predicate Valid()
      reads this
    {
      WellFormed(tree)
    }

    constructor (reliable: bool, tree: Tree)
      requires WellFormed(tree)
      ensures Valid() && this.reliable == reliable && this.tree == tree
    {
      this.reliable, this.tree := reliable, tree;
    }

    method Luck() returns (ok: bool)
      ensures reliable ==> ok
    {
      ok := *;
      ok := ok || reliable;
    }

    method Stat(p: Path) returns (s: Stat)
      ensures s == StatOf(tree, p)
    {
      return StatOf(tree, p);
    }

    /** A failing call may have made some of the directories. */
    method MkdirAll(p: Path) returns (ok: bool)
      requires Valid()
      modifies this
      ensures Valid()
      ensures ok ==> CanMkdirs(old(tree), p) && tree == Mkdirs(old(tree), p)
      ensures reliable ==> (ok <==> CanMkdirs(old(tree), p))
      ensures Grown(old(tree), tree, p)
    {
      if !CanMkdirs(tree, p) {
        return false;
      }
      ok := Luck();
      var made: Path := *;
      if ok || !(made <= p) {
        made := p;
      }
      SomeMkdirs(tree, p, made);
      tree := Mkdirs(tree, made);
    }

    /** A failing call may have left anything in the file. */
    method WriteFile(p: Path, data: string) returns (ok: bool)
      requires Valid()
      modifies this
      ensures Valid()
      ensures ok ==> CanWrite(old(tree), p) && tree == old(tree)[p := File(data)]
      ensures reliable ==> (ok <==> CanWrite(old(tree), p))
      ensures tree == old(tree) || exists d :: tree == old(tree)[p := File(d)]
      ensures Framed(old(tree), tree, p)
    {
      if !CanWrite(tree, p) {
        return false;
      }
      ok := Luck();
      var written: string := *;
      var touched: bool := *;
      if ok {
        WriteWellFormed(tree, p, data);
        tree := tree[p := File(data)];
      } else if touched {
        WriteWellFormed(tree, p, written);
        tree := tree[p := File(written)];
      }
    }

    method ReadFile(p: Path) returns (data: string, ok: bool)
      ensures ok ==> IsFile(tree, p) && data == tree[p].data
      ensures reliable ==> (ok <==> IsFile(tree, p))
    {
      if !IsFile(tree, p) {
        return "", false;
      }
      ok := Luck();
      data := tree[p].data;
    }

    method Remove(p: Path) returns (ok: bool)
      requires Valid()
      modifies this
      ensures Valid()
      ensures tree == if ok then old(tree) - {p} else old(tree)
      ensures ok ==> CanRemove(old(tree), p)
      ensures reliable ==> (ok <==> CanRemove(old(tree), p))
    {
      if !CanRemove(tree, p) {
        return false;
      }
      ok := Luck();
      if ok {
        assert tree - {p} == Cleared(tree, p);
        ClearedWellFormed(tree, p);
        tree := tree - {p};
      }
    }

    /** A missing path is no error; a failing call may have removed some of what is inside. */
    method RemoveAll(p: Path) returns (ok: bool)
      requires Valid() && p != []
      modifies this
      ensures Valid()
      ensures ok ==> tree == Cleared(old(tree), p)
      ensures reliable ==> (ok <==> !ThroughFile(old(tree), p))
      ensures forall q :: q in tree ==> q in old(tree) && tree[q] == old(tree)[q]
      ensures forall q :: q in old(tree) && q !in tree ==> p <= q
    {
      if ThroughFile(tree, p) {
        return false;
      }
      ok := Luck();
      var left: Tree := *;
      ClearedWellFormed(tree, p);
      if ok {
        tree := Cleared(tree, p);
      } else if WellFormed(left) && (forall q :: q in left ==> q in tree && left[q] == tree[q])
          && (forall q :: q in tree && q !in left ==> p <= q) {
        tree := left;
      }
    }

    method ReadDir(p: Path) returns (names: seq<string>, ok: bool)
      ensures ok ==> IsDir(tree, p) && Enumerates(names, Names(tree, p))
      ensures reliable ==> (ok <==> IsDir(tree, p))
    {
      names := [];
      if !IsDir(tree, p) {
        return names, false;
      }
      ok := Luck();
      var todo := Names(tree, p);
      while todo != {}
        invariant todo <= Names(tree, p)
        invariant Enumerates(names, Names(tree, p) - todo)
      {
        var n :| n in todo;
        names := names + [n];
        todo := todo - {n};
      }
    }
  }
}
