/** What a filter keeps of a list, and in which order, by positions. */
module Positions {

  ghost predicate Increasing(p: seq<nat>) { forall i, j :: 0 <= i < j < |p| ==> p[i] < p[j] }

  /** These positions, each once and in order. */
  ghost predicate InOrder(p: seq<nat>, wanted: set<nat>) { Increasing(p) && forall i :: i in p <==> i in wanted }

  ghost predicate At<T(!new)>(s: seq<T>, p: seq<nat>, r: seq<T>) {
    |p| == |r| && forall k :: 0 <= k < |p| ==> p[k] < |s| && r[k] == s[p[k]]
  }

  /** The elements of s at these positions, each once and in order. */
  ghost predicate Picks<T(!new)>(s: seq<T>, wanted: set<nat>, r: seq<T>) {
    exists p: seq<nat> :: InOrder(p, wanted) && At(s, p, r)
  }

  lemma OneMore(p: seq<nat>, wanted: set<nat>, n: nat)
    requires InOrder(p, wanted) && forall i :: i in wanted ==> i < n
    ensures InOrder(p + [n], wanted + {n})
  {
    forall i | 0 <= i < |p|
      ensures p[i] < n
    {
      assert p[i] in p;
    }
  }

  lemma PicksNothing<T(!new)>(s: seq<T>)
    ensures Picks(s, {}, [])
  {
    var p: seq<nat> := [];
    assert InOrder(p, {}) && At(s, p, []);
  }

  /** Picking on in a longer list. */
  lemma PicksMore<T(!new)>(s: seq<T>, wanted: set<nat>, r: seq<T>, last: T)
    requires Picks(s, wanted, r)
    ensures Picks(s + [last], wanted, r) && Picks(s + [last], wanted + {|s|}, r + [last])
  {
    var p: seq<nat> :| InOrder(p, wanted) && At(s, p, r);
    forall i | i in wanted
      ensures i < |s|
    {
      assert i in p;
    }
    OneMore(p, wanted, |s|);
    assert At(s + [last], p, r) && At(s + [last], p + [|s|], r + [last]);
  }
}
