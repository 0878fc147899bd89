/** Redis set reads: `SMEMBERS` lists a set's members once each, in an order the store chooses. */
module Collections {

  predicate Distinct<T(==)>(s: seq<T>) {
    forall i, j :: 0 <= i < j < |s| ==> s[i] != s[j]
  }

  /** `order` lists exactly the members of `s`, each once. */
  ghost predicate Enumerates<T(!new)>(order: seq<T>, s: set<T>) {
    Distinct(order) && forall u :: u in order <==> u in s
  }

  /** `SMEMBERS`: any listing of the set's members. */
  method Members<T(==,!new)>(s: set<T>) returns (order: seq<T>)
    ensures Enumerates(order, s)
    ensures |order| == |s|
  {
    order := [];
    var rest := s;
    while rest != {}
      invariant forall u :: u in s <==> u in order || u in rest
      invariant forall u :: u in order ==> u !in rest
      invariant Distinct(order)
      invariant |order| + |rest| == |s|
      decreases |rest|
    {
      var u :| u in rest;
      order := order + [u];
      rest := rest - {u};
    }
  }
}
