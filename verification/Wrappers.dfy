/** The optional value used throughout the model, and the library facts about
    finite sets that several modules need. */
module Wrappers {

  datatype Option<+T> = None | Some(value: T)

  /** A set of distinct integers drawn from a half-open range is no larger than the range. */
  lemma {:induction false} RangeBoundsCardinality(s: set<int>, lo: int, hi: int)
    requires lo <= hi
    requires forall x :: x in s ==> lo <= x < hi
    ensures |s| <= hi - lo
    decreases hi - lo
  {
    if lo == hi {
      assert s == {};
    } else {
      var rest := s - {hi - 1};
      RangeBoundsCardinality(rest, lo, hi - 1);
      assert s <= rest + {hi - 1};
    }
  }

  /** Two sets that differ in at most one element differ in size by that element's membership. */
  lemma DifferByOne<T>(x: set<T>, y: set<T>, e: T)
    requires x - {e} == y - {e}
    ensures |y| - |x| == (if e in y then 1 else 0) - (if e in x then 1 else 0)
  {
    assert x == if e in x then x - {e} + {e} else x - {e};
    assert y == if e in y then x - {e} + {e} else x - {e};
  }

  lemma InsertSize<K, V>(m: map<K, V>, k: K, v: V)
    ensures |m[k := v]| == |m| + if k in m then 0 else 1
  {
    assert m[k := v].Keys == m.Keys + {k};
  }
}
