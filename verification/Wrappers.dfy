/** Values that may be missing, and the order in which a loop over a set visits it. */
module Wrappers {
  datatype Option<T> = None | Some(value: T)

  /** The sequence holds the elements of the set, each once. */
  ghost predicate Enumerates(order: seq<string>, all: set<string>) {
    && (forall x :: x in order <==> x in all)
    && forall i, j :: 0 <= i < j < |order| ==> order[i] != order[j]
  }

  lemma EnumeratedSet(order: seq<string>, all: set<string>)
    requires Enumerates(order, all)
    ensures (set x | x in order) == all
  {
  }

  lemma {:induction false} Enumeration(all: set<string>) returns (order: seq<string>)
    ensures Enumerates(order, all)
  {
    if all == {} {
      order := [];
    } else {
      var x :| x in all;
      var rest := Enumeration(all - {x});
      order := rest + [x];
    }
  }
}
