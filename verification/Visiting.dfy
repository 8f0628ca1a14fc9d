/** Visiting the elements of a set one by one, in whatever order: how Go iterates a map. */
module Visiting {

  /** order visits each element of ids exactly once. */
  ghost predicate Visits<T>(order: seq<T>, ids: set<T>) { multiset(order) == multiset(ids) }

  lemma {:induction false} VisitNone<T>(all: set<T>, todo: set<T>)
    requires all <= todo
    ensures Visits([], all - todo)
  {
    assert all - todo == {};
  }

  /** One more element of those still to visit. */
  lemma {:induction false} VisitStep<T>(order: seq<T>, all: set<T>, todo: set<T>, id: T)
    requires Visits(order, all - todo) && id in todo
    ensures Visits(if id in all then order + [id] else order, all - (todo - {id}))
  {
    assert all - (todo - {id}) == if id in all then (all - todo) + {id} else all - todo;
  }

  lemma {:induction false} VisitsMembers<T>(order: seq<T>, ids: set<T>)
    requires Visits(order, ids)
    ensures forall id :: id in order <==> id in ids
  {
    forall id ensures id in order <==> id in ids {
      assert id in ids <==> id in multiset(ids);
      assert id in order <==> id in multiset(order);
    }
  }
}
