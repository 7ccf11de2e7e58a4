/** A file tree, what the operating system's calls do to it, and copying one directory over another. */
module FileTree {

  /** The components of a cleaned path. */
  type Path = seq<string>

  datatype Node = Dir | File(data: string)

  type Tree = map<Path, Node>

  function Parent(p: Path): Path
    requires p != []
  {
    p[..|p| - 1]
  }

  predicate IsDir(t: Tree, p: Path) { p in t && t[p].Dir? }

  predicate IsFile(t: Tree, p: Path) { p in t && t[p].File? }

  /** Everything is in a directory. */
  predicate WellFormed(t: Tree) {
    IsDir(t, []) && forall p {:trigger Parent(p)} :: p in t && p != [] ==> IsDir(t, Parent(p))
  }

  lemma {:induction false} AncestorsAreDirs(t: Tree, p: Path, n: nat)
    requires WellFormed(t) && p in t && n < |p|
    ensures IsDir(t, p[..n])
    decreases |p|
  {
    assert IsDir(t, Parent(p));
    if n < |p| - 1 {
      AncestorsAreDirs(t, Parent(p), n);
      assert Parent(p)[..n] == p[..n];
    }
  }

  lemma BelowIsDir(t: Tree, p: Path, q: Path)
    requires WellFormed(t) && q in t && p <= q && p != q
    ensures IsDir(t, p)
  {
    AncestorsAreDirs(t, q, |p|);
    assert q[..|p|] == p;
  }

  /** Neither path is inside the other. */
  predicate Apart(p: Path, q: Path) { !(p <= q) && !(q <= p) }

  // ---- Creating directories -----------------------------------------------------------

  function Prefixes(p: Path): (s: set<Path>)
    ensures forall q :: q in s <==> q <= p
  {
    var s := set n | 0 <= n <= |p| :: p[..n];
    assert forall q :: q <= p ==> q == p[..|q|];
    s
  }

  /** The tree after os.MkdirAll. */
  function Mkdirs(t: Tree, p: Path): (u: Tree)
    ensures forall q :: q in u <==> q in t || q <= p
    ensures forall q :: q in u ==> u[q] == if q in t then t[q] else Dir
  {
    map q | q in t.Keys + Prefixes(p) :: if q in t then t[q] else Dir
  }

  predicate CanMkdirs(t: Tree, p: Path) { forall q :: q in Prefixes(p) ==> !IsFile(t, q) }

  lemma MkdirsWellFormed(t: Tree, p: Path)
    requires WellFormed(t) && CanMkdirs(t, p)
    ensures WellFormed(Mkdirs(t, p)) && IsDir(Mkdirs(t, p), p)
  {
    var u := Mkdirs(t, p);
    forall q | q in u && q != [] ensures IsDir(u, Parent(q)) {
      if q !in t {
        assert Parent(q) <= q;
        assert Parent(q) in Prefixes(p);
      }
    }
    assert p in Prefixes(p);
    assert [] in Prefixes(p);
  }

  lemma DirsAbove(t: Tree, p: Path)
    requires WellFormed(t) && IsDir(t, p)
    ensures forall q :: q in Prefixes(p) ==> IsDir(t, q)
  {
    forall q | q in Prefixes(p) ensures IsDir(t, q) {
      if q != p { BelowIsDir(t, q, p); }
    }
  }

  // ---- Overlaying -----------------------------------------------------------------------

  /** The part of `q` below `p`. */
  function Below(p: Path, q: Path): Path
    requires p <= q
  {
    q[|p|..]
  }

  lemma BelowJoins(p: Path, r: Path)
    ensures p <= p + r && Below(p, p + r) == r
  {
  }

  lemma JoinsBelow(p: Path, q: Path)
    requires p <= q
    ensures p + Below(p, q) == q
  {
  }

  /** What is in a directory: the relative paths of all its descendants and of itself. */
  function Everything(t: Tree, src: Path): (s: set<Path>)
    ensures forall r :: r in s <==> src + r in t
  {
    var s := set q | q in t && src <= q :: Below(src, q);
    assert forall r :: r in s <==> src + r in t by {
      forall r ensures r in s <==> src + r in t {
        BelowJoins(src, r);
        if r in s {
          var q :| q in t && src <= q && r == Below(src, q);
          JoinsBelow(src, q);
        }
      }
    }
    s
  }

  function Join(dst: Path, rels: set<Path>): (s: set<Path>)
    ensures forall q :: q in s <==> dst <= q && Below(dst, q) in rels
  {
    var s := set r | r in rels :: dst + r;
    assert forall q :: q in s <==> dst <= q && Below(dst, q) in rels by {
      forall q ensures q in s <==> dst <= q && Below(dst, q) in rels {
        if q in s {
          var r :| r in rels && q == dst + r;
          BelowJoins(dst, r);
        }
        if dst <= q { JoinsBelow(dst, q); }
      }
    }
    s
  }

  /** `dst` overlaid with the parts `rels` of `src`: they are as in `src`, everything else stays. */
  function Overlay(t: Tree, src: Path, dst: Path, rels: set<Path>): (u: Tree)
    requires forall r :: r in rels ==> src + r in t
    ensures forall q :: q in u <==> q in t || (dst <= q && Below(dst, q) in rels)
    ensures forall q :: q in u ==> u[q] == if dst <= q && Below(dst, q) in rels then t[src + Below(dst, q)] else t[q]
  {
    map q | q in t.Keys + Join(dst, rels) :: if dst <= q && Below(dst, q) in rels then t[src + Below(dst, q)] else t[q]
  }

  lemma OverlayAt(t: Tree, src: Path, dst: Path, rels: set<Path>, r: Path)
    requires forall r :: r in rels ==> src + r in t
    ensures dst + r in Overlay(t, src, dst, rels) <==> r in rels || dst + r in t
    ensures r in rels ==> Overlay(t, src, dst, rels)[dst + r] == t[src + r]
    ensures r !in rels && dst + r in t ==> Overlay(t, src, dst, rels)[dst + r] == t[dst + r]
  {
    BelowJoins(dst, r);
  }

  /** Apart from the destination nothing changes. */
  lemma OverlayElsewhere(t: Tree, src: Path, dst: Path, rels: set<Path>, q: Path)
    requires (forall r :: r in rels ==> src + r in t) && !(dst <= q)
    ensures q in Overlay(t, src, dst, rels) <==> q in t
    ensures q in t ==> Overlay(t, src, dst, rels)[q] == t[q]
  {
  }

  function Shift(n: string, rels: set<Path>): (s: set<Path>)
    ensures forall r :: r in s <==> r != [] && r[0] == n && r[1..] in rels
  {
    var s := set r | r in rels :: [n] + r;
    assert forall r :: r in s <==> r != [] && r[0] == n && r[1..] in rels by {
      forall r ensures r in s <==> r != [] && r[0] == n && r[1..] in rels {
        if r in s {
          var x :| x in rels && r == [n] + x;
          assert r[1..] == x;
        }
        if r != [] && r[0] == n { assert r == [n] + r[1..]; }
      }
    }
    s
  }

  lemma ShiftPath(p: Path, n: string, r: Path)
    ensures p + [n] + r == p + ([n] + r) && ([n] + r)[1..] == r
  {
  }

  lemma ApartInside(src: Path, dst: Path, r: Path)
    requires Apart(src, dst)
    ensures !(dst <= src + r) && !(src <= dst + r)
  {
    if dst <= src + r { PrefixesMeet(dst, src, src + r); }
    if src <= dst + r { PrefixesMeet(src, dst, dst + r); }
  }

  lemma PrefixesMeet(a: Path, b: Path, q: Path)
    requires a <= q && b <= q
    ensures a <= b || b <= a
  {
    assert a == q[..|a|] && b == q[..|b|];
  }

  lemma EntrySources(t: Tree, src: Path, dst: Path, rels: set<Path>, n: string, more: set<Path>)
    requires Apart(src, dst)
    requires forall r :: r in rels ==> src + r in t
    requires forall r :: r in more ==> src + [n] + r in t
    ensures forall r :: r in rels + Shift(n, more) ==> src + r in t
    ensures forall r :: r in more ==>
              src + [n] + r in Overlay(t, src, dst, rels)
                  && Overlay(t, src, dst, rels)[src + [n] + r] == t[src + [n] + r]
  {
    forall r | r in rels + Shift(n, more) ensures src + r in t {
      if r !in rels { ShiftPath(src, n, r[1..]); assert r == [n] + r[1..]; }
    }
    forall r | r in more ensures !(dst <= src + [n] + r) {
      ShiftPath(src, n, r);
      ApartInside(src, dst, [n] + r);
    }
  }

  lemma EntryInside(t: Tree, u: Tree, src: Path, dst: Path, rels: set<Path>, n: string, more: set<Path>, r: Path)
    requires forall x :: x in rels + Shift(n, more) ==> src + x in t
    requires forall x :: x in more ==> src + [n] + x in t && src + [n] + x in u && u[src + [n] + x] == t[src + [n] + x]
    requires u == Overlay(t, src, dst, rels)
    ensures dst + [n] + r in Overlay(u, src + [n], dst + [n], more)
            <==> dst + [n] + r in Overlay(t, src, dst, rels + Shift(n, more))
    ensures dst + [n] + r in Overlay(u, src + [n], dst + [n], more) ==>
              Overlay(u, src + [n], dst + [n], more)[dst + [n] + r]
              == Overlay(t, src, dst, rels + Shift(n, more))[dst + [n] + r]
  {
    ShiftPath(dst, n, r);
    ShiftPath(src, n, r);
    assert [n] + r in Shift(n, more) <==> r in more;
    OverlayAt(u, src + [n], dst + [n], more, r);
    OverlayAt(t, src, dst, rels, [n] + r);
    OverlayAt(t, src, dst, rels + Shift(n, more), [n] + r);
  }

  lemma EntryOutside(t: Tree, src: Path, dst: Path, rels: set<Path>, n: string, more: set<Path>, q: Path)
    requires forall x :: x in rels ==> src + x in t
    requires forall x :: x in rels + Shift(n, more) ==> src + x in t
    requires forall x :: x in more ==> src + [n] + x in Overlay(t, src, dst, rels)
    requires !(dst + [n] <= q) && (dst <= q && Below(dst, q) != [] ==> Below(dst, q)[0] != n)
    ensures
      var v := Overlay(Overlay(t, src, dst, rels), src + [n], dst + [n], more);
      var w := Overlay(t, src, dst, rels + Shift(n, more));
      (q in v <==> q in w) && (q in v ==> v[q] == w[q])
  {
    OverlayElsewhere(Overlay(t, src, dst, rels), src + [n], dst + [n], more, q);
    if dst <= q { assert Below(dst, q) !in Shift(n, more); }
  }

  lemma OverlayEntryAt(t: Tree, u: Tree, src: Path, dst: Path, rels: set<Path>, n: string, more: set<Path>, q: Path)
    requires forall x :: x in rels + Shift(n, more) ==> src + x in t
    requires forall x :: x in more ==> src + [n] + x in t && src + [n] + x in u && u[src + [n] + x] == t[src + [n] + x]
    requires u == Overlay(t, src, dst, rels)
    ensures q in Overlay(u, src + [n], dst + [n], more) <==> q in Overlay(t, src, dst, rels + Shift(n, more))
    ensures q in Overlay(u, src + [n], dst + [n], more) ==>
              Overlay(u, src + [n], dst + [n], more)[q] == Overlay(t, src, dst, rels + Shift(n, more))[q]
  {
    EntryBelow(dst, n, q);
    if dst + [n] <= q {
      JoinsBelow(dst + [n], q);
      EntryInside(t, u, src, dst, rels, n, more, Below(dst + [n], q));
    } else {
      EntryOutside(t, src, dst, rels, n, more, q);
    }
  }

  lemma OverlayEntrySame(t: Tree, u: Tree, src: Path, dst: Path, rels: set<Path>, n: string, more: set<Path>)
    requires forall x :: x in rels + Shift(n, more) ==> src + x in t
    requires forall x :: x in more ==> src + [n] + x in t && src + [n] + x in u && u[src + [n] + x] == t[src + [n] + x]
    requires u == Overlay(t, src, dst, rels)
    ensures Overlay(u, src + [n], dst + [n], more) == Overlay(t, src, dst, rels + Shift(n, more))
  {
    var v, w := Overlay(u, src + [n], dst + [n], more), Overlay(t, src, dst, rels + Shift(n, more));
    forall q ensures (q in v <==> q in w) && (q in v ==> v[q] == w[q]) {
      OverlayEntryAt(t, u, src, dst, rels, n, more, q);
    }
    SameTree(v, w);
  }

  lemma SameTree(v: Tree, w: Tree)
    requires forall q :: (q in v <==> q in w) && (q in v ==> v[q] == w[q])
    ensures v == w
  {
  }

  /** Overlaying an entry of the directory after the parts `rels` is overlaying a little more. */
  lemma OverlayEntry(t: Tree, src: Path, dst: Path, rels: set<Path>, n: string, more: set<Path>)
    requires Apart(src, dst)
    requires forall r :: r in rels ==> src + r in t
    requires forall r :: r in more ==> src + [n] + r in t
    ensures forall r :: r in rels + Shift(n, more) ==> src + r in t
    ensures forall r :: r in more ==> src + [n] + r in Overlay(t, src, dst, rels)
    ensures Overlay(Overlay(t, src, dst, rels), src + [n], dst + [n], more)
            == Overlay(t, src, dst, rels + Shift(n, more))
  {
    EntrySources(t, src, dst, rels, n, more);
    OverlayEntrySame(t, Overlay(t, src, dst, rels), src, dst, rels, n, more);
  }

  lemma EntryBelow(dst: Path, n: string, q: Path)
    ensures dst + [n] <= q <==> dst <= q && Below(dst, q) != [] && Below(dst, q)[0] == n
    ensures dst + [n] <= q ==> Below(dst, q)[1..] == Below(dst + [n], q) && Below(dst, q) == [n] + Below(dst + [n], q)
  {
    if dst <= q {
      JoinsBelow(dst, q);
      if Below(dst, q) != [] && Below(dst, q)[0] == n {
        assert q[|dst|] == n;
        assert q[..|dst| + 1] == dst + [n];
      }
    }
    if dst + [n] <= q {
      assert q[..|dst|] == (dst + [n])[..|dst|] == dst;
      assert q[|dst|] == n;
    }
  }

  /** Overlaying twice is overlaying once. */
  lemma OverlayTwice(t: Tree, src: Path, dst: Path, rels: set<Path>)
    requires Apart(src, dst) && forall r :: r in rels ==> src + r in t
    ensures forall r :: r in rels ==> src + r in Overlay(t, src, dst, rels)
    ensures Overlay(Overlay(t, src, dst, rels), src, dst, rels) == Overlay(t, src, dst, rels)
  {
    forall r | r in rels
      ensures src + r in Overlay(t, src, dst, rels) && Overlay(t, src, dst, rels)[src + r] == t[src + r]
    {
      ApartInside(src, dst, r);
    }
  }
}
