/**
 * The order in which the list handler visits a collection's cards: ascending
 * by id, built from the least element of a finite set of ids.
 */
module Keys {
  /** `m` is the smallest member of `s`. */
  predicate IsLeast(m: int, s: set<int>) {
    m in s && forall k :: k in s ==> m <= k
  }

  /** A non-empty set has a member. */
  lemma HasElement(s: set<int>)
    requires s != {}
    ensures exists x :: x in s
  {
    if forall x :: x !in s {
      assert false;
    }
  }

  /** A non-empty set of ids has a least one. */
  lemma {:induction false} HasLeast(s: set<int>)
    requires s != {}
    ensures exists m :: IsLeast(m, s)
    decreases |s|
  {
    HasElement(s);
    var x :| x in s;
    if s == {x} {
      assert IsLeast(x, s);
    } else {
      var t := s - {x};
      assert |t| == |s| - 1;
      HasLeast(t);
      var m :| IsLeast(m, t);
      var w := if x < m then x else m;
      forall k | k in s ensures w <= k {
        if k != x { assert k in t; }
      }
      assert IsLeast(w, s);
    }
  }

  /** The least id of a non-empty set. */
  function Least(s: set<int>): (m: int)
    requires s != {}
    ensures IsLeast(m, s)
  {
    HasLeast(s);
    var m :| IsLeast(m, s);
    m
  }

  /**
   * The ids of a collection in ascending order. Object.values visits the
   * array-index keys (0 <= id < 2^32 - 1) in this order; other ids it
   * visits afterwards in creation order, which this model does not follow.
   */
  function SortedKeys(s: set<int>): (r: seq<int>)
    ensures |r| == |s|
    ensures forall k :: k in r <==> k in s
    ensures forall i, j :: 0 <= i < j < |r| ==> r[i] < r[j]
    decreases |s|
  {
    if s == {} then []
    else
      var m := Least(s);
      var t := s - {m};
      assert |t| == |s| - 1;
      [m] + SortedKeys(t)
  }
}
