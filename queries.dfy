/**
 * A query under construction. Query middleware receives the query as `this` and
 * narrows it with `this.find(conditions)`, which adds a conjunct to its filter.
 */
module Queries {

  class Query<D(==,!new)> {
    /** The conjuncts of the query's filter, in the order they were added. */
    var conditions: seq<D -> bool>

    constructor ()
      ensures conditions == []
    {
      conditions := [];
    }

    /** `query.find(condition)`: add a conjunct to the filter. */
    method Find(condition: D -> bool)
      modifies this
      ensures conditions == old(conditions) + [condition]
    {
      conditions := conditions + [condition];
    }

    /** A document matches when it satisfies every conjunct. */
    predicate Matches(d: D)
      reads this
    {
      forall i :: 0 <= i < |conditions| ==> conditions[i](d)
    }

    /** Running the query over a collection: the matching documents, in collection order. */
    function Run(docs: seq<D>): (found: seq<D>)
      reads this
      ensures |found| <= |docs|
      ensures forall d :: d in found <==> d in docs && Matches(d)
    {
      if docs == [] then []
      else (if Matches(docs[0]) then [docs[0]] else []) + Run(docs[1..])
    }
  }

  /**
   * Adding a conjunct `c` narrows a query by exactly `c`: it then finds the
   * documents the earlier conjuncts select that also satisfy `c`.
   */
  lemma RunWithAddedCondition<D(!new)>(before: seq<D -> bool>, c: D -> bool, q: Query<D>, docs: seq<D>)
    requires q.conditions == before + [c]
    ensures forall d :: d in q.Run(docs) <==> d in docs && (forall i :: 0 <= i < |before| ==> before[i](d)) && c(d)
  {
    forall d | d in docs
      ensures q.Matches(d) <==> (forall i :: 0 <= i < |before| ==> before[i](d)) && c(d)
    {
      assert q.conditions[|before|] == c;
      if (forall i :: 0 <= i < |before| ==> before[i](d)) && c(d) {
        forall i | 0 <= i < |q.conditions| ensures q.conditions[i](d) {
          if i < |before| { assert q.conditions[i] == before[i]; }
        }
      }
      if q.Matches(d) {
        forall i | 0 <= i < |before| ensures before[i](d) {
          assert q.conditions[i] == before[i];
        }
      }
    }
  }
}
