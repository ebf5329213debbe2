/** Directed graphs as adjacency maps, reachability along paths, and cycles. */
module Digraphs {

  // A node that is no key of the map has no successors.
  type Graph<!V> = map<V, set<V>>

  function Succ<V>(g: Graph<V>, v: V): set<V> {
    if v in g then g[v] else {}
  }

  // Every node, including those that occur only as the target of an edge.
  function Nodes<V>(g: Graph<V>): set<V> {
    g.Keys + set u, v | u in g.Keys && v in g[u] :: v
  }

  ghost predicate IsPath<V>(g: Graph<V>, p: seq<V>) {
    |p| > 0 && forall i :: 0 <= i < |p| - 1 ==> p[i + 1] in Succ(g, p[i])
  }

  ghost predicate Reach<V(!new)>(g: Graph<V>, u: V, v: V) {
    exists p :: IsPath(g, p) && p[0] == u && p[|p| - 1] == v
  }

  ghost predicate Closed<V>(g: Graph<V>, s: set<V>) {
    forall u :: u in s ==> Succ(g, u) <= s
  }

  lemma ReachRefl<V(!new)>(g: Graph<V>, u: V)
    ensures Reach(g, u, u)
  {
    assert IsPath(g, [u]);
  }

  lemma ReachEdge<V(!new)>(g: Graph<V>, u: V, v: V)
    requires v in Succ(g, u)
    ensures Reach(g, u, v)
  {
    assert IsPath(g, [u, v]);
  }

  lemma ReachTrans<V(!new)>(g: Graph<V>, u: V, v: V, w: V)
    requires Reach(g, u, v) && Reach(g, v, w)
    ensures Reach(g, u, w)
  {
    var p :| IsPath(g, p) && p[0] == u && p[|p| - 1] == v;
    var q :| IsPath(g, q) && q[0] == v && q[|q| - 1] == w;
    var r := p + q[1..];
    assert IsPath(g, r) by {
      forall i | 0 <= i < |r| - 1 ensures r[i + 1] in Succ(g, r[i]) {
        if i >= |p| - 1 {
          assert r[i] == q[i - (|p| - 1)] && r[i + 1] == q[i + 1 - (|p| - 1)];
        }
      }
    }
    assert r[|r| - 1] == w;
  }

  // A closed set keeps everything reachable from inside it.
  lemma ReachStaysInClosed<V(!new)>(g: Graph<V>, s: set<V>, u: V, v: V)
    requires Closed(g, s) && u in s && Reach(g, u, v)
    ensures v in s
  {
    var p :| IsPath(g, p) && p[0] == u && p[|p| - 1] == v;
    var i := 0;
    while i < |p| - 1
      invariant 0 <= i <= |p| - 1 && p[i] in s
    {
      i := i + 1;
    }
  }

  /** `v` comes back to itself along at least one edge. */
  ghost predicate OnCycle<V(!new)>(g: Graph<V>, v: V) {
    exists w :: w in Succ(g, v) && Reach(g, w, v)
  }

  lemma ReachDistinctStep<V(!new)>(g: Graph<V>, u: V, v: V) returns (w: V)
    requires Reach(g, u, v) && u != v
    ensures w in Succ(g, u) && Reach(g, w, v)
  {
    var p :| IsPath(g, p) && p[0] == u && p[|p| - 1] == v;
    w := p[1];
    var q := p[1..];
    assert IsPath(g, q) by {
      forall i | 0 <= i < |q| - 1 ensures q[i + 1] in Succ(g, q[i]) {
        assert q[i + 1] == p[i + 2] && q[i] == p[i + 1];
      }
    }
    assert q[0] == w && q[|q| - 1] == v;
  }

  /** `v` is on a cycle, or downstream of one. */
  ghost predicate Tangled<V(!new)>(g: Graph<V>, v: V) {
    exists c :: OnCycle(g, c) && Reach(g, c, v)
  }

  function Elems<V>(q: seq<V>): set<V> {
    set x | x in q
  }

  ghost predicate NoDup<V>(q: seq<V>) {
    forall i, j :: 0 <= i < j < |q| ==> q[i] != q[j]
  }

  lemma {:induction false} NoDupSize<V>(q: seq<V>)
    requires NoDup(q)
    ensures |Elems(q)| == |q|
  {
    if q != [] {
      var k := |q| - 1;
      NoDupSize(q[..k]);
      assert Elems(q) == Elems(q[..k]) + {q[k]};
    }
  }

  ghost predicate HasPredecessorIn<V>(g: Graph<V>, r: set<V>, x: V) {
    exists u :: u in r && x in Succ(g, u)
  }

  // Where every node has a predecessor of its own kind, walking back must close a cycle.
  lemma {:induction false} BackwardsForever<V(!new)>(g: Graph<V>, r: set<V>, p: seq<V>)
    requires forall x {:trigger HasPredecessorIn(g, r, x)} :: x in r ==> HasPredecessorIn(g, r, x)
    requires IsPath(g, p) && NoDup(p) && Elems(p) <= r
    ensures Tangled(g, p[|p| - 1])
    decreases |r| - |p|
  {
    var v := p[|p| - 1];
    assert p[0] in Elems(p);
    assert HasPredecessorIn(g, r, p[0]);
    var u :| u in r && p[0] in Succ(g, u);
    if k :| 0 <= k < |p| && p[k] == u {
      SubPath(g, p, 0, k);
      SubPath(g, p, k, |p| - 1);
      assert OnCycle(g, u);
    } else {
      var q := [u] + p;
      PrependPath(g, u, p);
      assert Elems(q) == {u} + Elems(p);
      NoDupSize(q);
      SubsetSize(Elems(q), r);
      BackwardsForever(g, r, q);
    }
  }

  lemma PrependPath<V(!new)>(g: Graph<V>, u: V, p: seq<V>)
    requires IsPath(g, p) && p[0] in Succ(g, u)
    ensures IsPath(g, [u] + p)
  {
    var q := [u] + p;
    forall i | 0 <= i < |q| - 1 ensures q[i + 1] in Succ(g, q[i]) {
      if i > 0 { assert q[i] == p[i - 1] && q[i + 1] == p[i]; }
    }
  }

  lemma SubPath<V(!new)>(g: Graph<V>, p: seq<V>, i: nat, j: nat)
    requires IsPath(g, p) && i <= j < |p|
    ensures Reach(g, p[i], p[j])
  {
    var q := p[i..j + 1];
    assert IsPath(g, q) by {
      forall k | 0 <= k < |q| - 1 ensures q[k + 1] in Succ(g, q[k]) {
        assert q[k + 1] == p[i + k + 1] && q[k] == p[i + k];
      }
    }
    assert q[0] == p[i] && q[|q| - 1] == p[j];
  }

  lemma {:induction false} SubsetSize<V>(a: set<V>, b: set<V>)
    requires a <= b
    ensures |a| <= |b|
  {
    assert b == a + (b - a);
  }

  // A sequence in which the predecessors of every element come before it.
  ghost predicate InOrder<V>(g: Graph<V>, q: seq<V>) {
    forall i, u :: 0 <= i < |q| && u in g && q[i] in Succ(g, u) ==> u in q[..i]
  }

  lemma {:induction false} AncestorsFirst<V(!new)>(g: Graph<V>, q: seq<V>, p: seq<V>, i: nat)
    requires InOrder(g, q) && IsPath(g, p) && i < |q| && p[|p| - 1] == q[i]
    ensures p[0] in q[..i + 1]
    decreases |p|
  {
    if |p| == 1 {
      assert q[i] in q[..i + 1];
    } else {
      var u := p[|p| - 2];
      assert q[i] in Succ(g, u);
      var k :| 0 <= k < i && q[k] == u;
      var p' := p[..|p| - 1];
      assert IsPath(g, p') by {
        forall j | 0 <= j < |p'| - 1 ensures p'[j + 1] in Succ(g, p'[j]) {
          assert p'[j + 1] == p[j + 1];
        }
      }
      AncestorsFirst(g, q, p', k);
      var m :| 0 <= m < k + 1 && q[m] == p[0];
      assert q[..i + 1][m] == p[0];
    }
  }

  // An ordered sequence without repetition holds nothing tangled.
  lemma OrderedIsUntangled<V(!new)>(g: Graph<V>, q: seq<V>, v: V)
    requires InOrder(g, q) && NoDup(q) && v in q
    ensures !Tangled(g, v)
  {
    forall c | Reach(g, c, v) ensures !OnCycle(g, c) {
      var p :| IsPath(g, p) && p[0] == c && p[|p| - 1] == v;
      var i :| 0 <= i < |q| && q[i] == v;
      AncestorsFirst(g, q, p, i);
      var k :| 0 <= k < i + 1 && q[k] == c;
      forall w | w in Succ(g, c) ensures !Reach(g, w, c) {
        OrderedStepsForward(g, q, k, w);
      }
    }
  }

  lemma StepForward<V(!new)>(g: Graph<V>, q: seq<V>, k: nat, j: nat)
    requires InOrder(g, q) && NoDup(q) && k < |q| && j < |q| && q[j] in Succ(g, q[k])
    ensures k < j
  {
    var m :| 0 <= m < j && q[m] == q[k];
    assert m == k;
  }

  lemma OrderedStepsForward<V(!new)>(g: Graph<V>, q: seq<V>, k: nat, w: V)
    requires InOrder(g, q) && NoDup(q) && k < |q| && w in Succ(g, q[k])
    ensures !Reach(g, w, q[k])
  {
    forall r | IsPath(g, r) && r[0] == w ensures r[|r| - 1] != q[k] {
      if r[|r| - 1] == q[k] {
        AncestorsFirst(g, q, r, k);
        var j :| 0 <= j < k + 1 && q[j] == w;
        StepForward(g, q, k, j);
      }
    }
  }

  // The two sides of a complete run of Kahn's algorithm.
  lemma KahnLeftover<V(!new)>(g: Graph<V>, done: seq<V>, left: set<V>, v: V)
    requires InOrder(g, done) && NoDup(done)
    requires forall x {:trigger HasPredecessorIn(g, left, x)} :: x in left ==> HasPredecessorIn(g, left, x)
    requires v in done || v in left
    ensures v in left <==> Tangled(g, v)
  {
    hide InOrder, Tangled;
    if v in left {
      assert IsPath(g, [v]);
      BackwardsForever(g, left, [v]);
    } else {
      OrderedIsUntangled(g, done, v);
    }
  }
}
