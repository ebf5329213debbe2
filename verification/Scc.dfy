/** The strongly connected components of a graph, and those that stand for circular dependencies. */
module Scc {
  import opened Digraphs
  import opened SccSearch
  import opened Tarjan

  /** All nodes, including those that occur only as targets. */
  method AllNodes<V(!new, ==)>(graph: Graph<V>) returns (nodes: set<V>)
    ensures nodes == Nodes(graph)
  {
    nodes := graph.Keys;
    var rest := graph.Keys;
    while rest != {}
      invariant rest <= graph.Keys
      invariant nodes == graph.Keys + set u, v | u in graph.Keys - rest && v in graph[u] :: v
    {
      var u :| u in rest;
      nodes, rest := nodes + graph[u], rest - {u};
    }
  }

  /** The list partitions the nodes into the classes of mutual reachability. */
  ghost predicate IsPartition<V(!new)>(g: Graph<V>, result: seq<set<V>>) {
    && (forall v :: v in Nodes(g) <==> exists i :: 0 <= i < |result| && v in result[i])
    && (forall i, j :: 0 <= i < j < |result| ==> result[i] !! result[j])
    && (forall i :: 0 <= i < |result| ==> IsScc(g, result[i]))
  }

  /** An edge never leads from a component to one that is listed later. */
  ghost predicate LeavesFirst<V>(g: Graph<V>, result: seq<set<V>>) {
    forall i, j, u, v :: 0 <= i < |result| && 0 <= j < |result| && u in result[i] && v in result[j] && v in Succ(g, u) ==>
      j <= i
  }

  method StronglyConnectedComponents<V(!new, ==)>(graph: Graph<V>, sorted: set<V> -> seq<V>)
      returns (result: seq<set<V>>)
    requires Lists(sorted)
    ensures IsPartition(graph, result)
    ensures LeavesFirst(graph, result)
  {
    hide Inv, TarjanState.Valid, Components, Nodes;
    var allNodes := AllNodes(graph);
    var state := new TarjanState(graph, sorted);
    var order := sorted(allNodes);
    for i := 0 to |order|
      invariant state.At(Bottom) && fresh(state) && state.graph == graph && state.sorted == sorted
      invariant forall j :: 0 <= j < i ==> order[j] in state.index
      invariant state.index.Keys <= allNodes
    {
      var node := order[i];
      if node !in state.index {
        StrongConnect(state, node);
      }
    }
    result := state.result;
    assert allNodes <= state.index.Keys by {
      assert forall v :: v in allNodes ==> v in order;
    }
    SearchDone(graph, sorted, state.index, state.lowlinks, result);
  }

  // With no call open, the components found are all the nodes visited.
  lemma SearchDone<V(!new)>(g: Graph<V>, list: set<V> -> seq<V>, index: map<V, nat>, low: map<V, nat>, result: seq<set<V>>)
    requires Inv(g, list, index, low, result, Bottom) && index.Keys == Nodes(g)
    ensures IsPartition(g, result) && LeavesFirst(g, result)
  {
    ComponentsMeaning(g, result);
    forall v ensures v in Nodes(g) <==> exists i :: 0 <= i < |result| && v in result[i] {
      InUnion(result, v);
    }
  }

  lemma {:induction false} InUnion<V>(ss: seq<set<V>>, x: V)
    ensures x in Union(ss) <==> exists i :: 0 <= i < |ss| && x in ss[i]
  {
    if ss != [] {
      var init, k := ss[..|ss| - 1], |ss| - 1;
      InUnion(init, x);
      if i :| 0 <= i < |init| && x in init[i] {
        assert x in ss[i];
      }
      forall i | 0 <= i < |ss| && x in ss[i] ensures x in Union(ss) {
        if i < k {
          assert x in init[i];
        }
      }
    }
  }

  lemma {:induction false} ComponentsMeaning<V(!new)>(g: Graph<V>, result: seq<set<V>>)
    requires Components(g, result)
    ensures forall i :: 0 <= i < |result| ==> IsScc(g, result[i])
    ensures forall i, j :: 0 <= i < j < |result| ==> result[i] !! result[j]
    ensures LeavesFirst(g, result)
  {
    if result != [] {
      var k := |result| - 1;
      var init, last := result[..k], result[k];
      ComponentsMeaning(g, init);
      assert forall i :: 0 <= i < k ==> init[i] == result[i];
      forall i | 0 <= i < k ensures result[i] !! last {
        forall x | x in result[i] ensures x !in last { InUnion(init, x); }
      }
      forall i, j, u, v | 0 <= i < |result| && 0 <= j < |result| && u in result[i] && v in result[j] && v in Succ(g, u)
        ensures j <= i
      {
        if i < j == k {
          InitClosed(g, result);
          InUnion(init, u);
          InUnion(init, v);
        }
      }
    }
  }

  lemma InitClosed<V(!new)>(g: Graph<V>, result: seq<set<V>>)
    requires Components(g, result) && result != []
    ensures Closed(g, Union(result[..|result| - 1]))
  {
  }

  // ---- Circular components ----

  /** The least element of a set, in the order of `sorted`. */
  function Least<V(!new)>(sorted: set<V> -> seq<V>, s: set<V>): (v: V)
    requires Lists(sorted) && s != {}
    ensures v in s
  {
    var v :| v in s;
    assert v in sorted(s);
    sorted(s)[0]
  }

  predicate IsCircular<V>(g: Graph<V>, s: set<V>) {
    |s| > 1 || (|s| == 1 && exists v :: v in s && v in g && v in g[v])
  }

  lemma CircularMeaning<V(!new)>(g: Graph<V>, s: set<V>)
    requires IsScc(g, s)
    ensures IsCircular(g, s) <==> exists v :: v in s && OnCycle(g, v)
  {
    if |s| > 1 {
      var u :| u in s;
      assert |s - {u}| == |s| - 1;
      var v :| v in s - {u};
      var w := ReachDistinctStep(g, u, v);
      ReachTrans(g, w, v, u);
      assert OnCycle(g, u);
    } else if |s| == 1 {
      var v :| v in s;
      assert s == {v} by { assert |s - {v}| == 0; }
      if v in g && v in g[v] {
        ReachRefl(g, v);
        assert v in Succ(g, v) && OnCycle(g, v);
      }
      if OnCycle(g, v) {
        var w :| w in Succ(g, v) && Reach(g, w, v);
        ReachEdge(g, v, w);
        assert w in s;
      }
    }
  }

  /** The sets stand in the order in which `sorted` lists their least elements. */
  ghost predicate OrderedByLeast<V(!new)>(sorted: set<V> -> seq<V>, sets: seq<set<V>>)
    requires Lists(sorted)
  {
    exists leasts: set<V> :: |sorted(leasts)| == |sets| &&
      forall i :: 0 <= i < |sets| ==> sets[i] != {} && Least(sorted, sets[i]) == sorted(leasts)[i]
  }

  /** `sorted(sets, key=min)` for disjoint sets. */
  method SortByLeast<V(!new, ==)>(sorted: set<V> -> seq<V>, sets: seq<set<V>>) returns (result: seq<set<V>>)
    requires Lists(sorted)
    requires forall i :: 0 <= i < |sets| ==> sets[i] != {}
    requires forall i, j :: 0 <= i < j < |sets| ==> sets[i] !! sets[j]
    ensures OrderedByLeast(sorted, result)
    ensures forall s :: s in result <==> s in sets
    ensures |result| == |sets| && forall i, j :: 0 <= i < j < |result| ==> result[i] !! result[j]
  {
    var leasts := set i | 0 <= i < |sets| :: Least(sorted, sets[i]);
    var order := sorted(leasts);
    result := [];
    for k := 0 to |order|
      invariant |result| == k
      invariant forall i :: 0 <= i < k ==> result[i] in sets && result[i] != {} && Least(sorted, result[i]) == order[i]
    {
      assert order[k] in leasts;
      var i :| 0 <= i < |sets| && Least(sorted, sets[i]) == order[k];
      result := result + [sets[i]];
    }
    forall s | s in sets ensures s in result {
      var i :| 0 <= i < |sets| && sets[i] == s;
      assert Least(sorted, s) in leasts;
      assert Least(sorted, s) in order;
      var k :| 0 <= k < |order| && order[k] == Least(sorted, s);
      var j :| 0 <= j < |sets| && sets[j] == result[k];
      assert order[k] in sets[i] && order[k] in sets[j];
      assert i == j;
    }
    ListedOnce(leasts, order);
    LeastsDistinct(sorted, sets, leasts);
    forall i, j | 0 <= i < j < |result| ensures result[i] !! result[j] {
      assert order[i] != order[j];
    }
  }

  lemma {:induction false} ListedOnce<V>(s: set<V>, q: seq<V>)
    requires NoDup(q) && forall x :: x in q <==> x in s
    ensures |q| == |s|
  {
    if q != [] {
      var k := |q| - 1;
      var rest := q[..k];
      forall x ensures x in rest <==> x in s - {q[k]} {
        assert q == rest + [q[k]];
      }
      ListedOnce(s - {q[k]}, rest);
    }
  }

  lemma {:induction false} LeastsDistinct<V(!new)>(sorted: set<V> -> seq<V>, sets: seq<set<V>>, leasts: set<V>)
    requires Lists(sorted)
    requires forall i :: 0 <= i < |sets| ==> sets[i] != {}
    requires forall i, j :: 0 <= i < j < |sets| ==> sets[i] !! sets[j]
    requires leasts == set i | 0 <= i < |sets| :: Least(sorted, sets[i])
    ensures |leasts| == |sets|
  {
    if sets != [] {
      var k := |sets| - 1;
      var init := sets[..k];
      var less := set i | 0 <= i < |init| :: Least(sorted, init[i]);
      LeastsDistinct(sorted, init, less);
      var l := Least(sorted, sets[k]);
      forall i | 0 <= i < k ensures init[i] == sets[i] && Least(sorted, init[i]) != l {
        assert Least(sorted, init[i]) in sets[i] && l in sets[k];
      }
      hide Least, Lists;
      assert leasts == less + {l};
      assert l !in less;
    }
  }

  // Among all components, the circular ones are exactly the classes that contain a cycle.
  lemma CircularExactly<V(!new)>(g: Graph<V>, all: seq<set<V>>, s: set<V>)
    requires IsPartition(g, all)
    ensures s in all && IsCircular(g, s) <==> IsScc(g, s) && exists v :: v in s && OnCycle(g, v)
  {
    hide OnCycle, IsCircular;
    if IsScc(g, s) {
      CircularMeaning(g, s);
      if v :| v in s && OnCycle(g, v) {
        OnCycleIsNode(g, v);
        hide IsPartition, IsScc;
        ClassIsListed(g, all, s, v);
      }
    }
  }

  lemma OnCycleIsNode<V(!new)>(g: Graph<V>, v: V)
    requires OnCycle(g, v)
    ensures v in Nodes(g)
  {
  }

  lemma ClassIsListed<V(!new)>(g: Graph<V>, all: seq<set<V>>, s: set<V>, v: V)
    requires IsPartition(g, all) && IsScc(g, s) && v in s && v in Nodes(g)
    ensures s in all
  {
    var i :| 0 <= i < |all| && v in all[i];
    assert s == all[i];
  }

  /** The components that stand for circular dependencies, ordered by their least elements. */
  method FindCircularSccs<V(!new, ==)>(graph: Graph<V>, sorted: set<V> -> seq<V>) returns (result: seq<set<V>>)
    requires Lists(sorted)
    ensures forall s :: s in result <==> IsScc(graph, s) && exists v :: v in s && OnCycle(graph, v)
    ensures forall i, j :: 0 <= i < j < |result| ==> result[i] !! result[j]
    ensures OrderedByLeast(sorted, result)
  {
    hide IsScc, IsCircular, OnCycle, OrderedByLeast, Lists;
    var all := StronglyConnectedComponents(graph, sorted);
    var circular := [];
    for i := 0 to |all|
      invariant forall s :: s in circular <==> s in all[..i] && IsCircular(graph, s)
      invariant forall j, k :: 0 <= j < k < |circular| ==> circular[j] !! circular[k]
      invariant forall j, k :: 0 <= j < |circular| && i <= k < |all| ==> circular[j] !! all[k]
    {
      if IsCircular(graph, all[i]) {
        circular := circular + [all[i]];
      }
    }
    assert all[..|all|] == all;
    forall s ensures s in circular <==> IsScc(graph, s) && exists v :: v in s && OnCycle(graph, v) {
      CircularExactly(graph, all, s);
    }
    forall i | 0 <= i < |circular| ensures circular[i] != {} {
      assert circular[i] in circular;
    }
    result := SortByLeast(sorted, circular);
  }

  /** The tangled nodes are those at or below a circular component. */
  lemma TangledIsBelowCircular<V(!new)>(g: Graph<V>, v: V)
    ensures Tangled(g, v) <==>
      exists s, u :: IsScc(g, s) && (exists c :: c in s && OnCycle(g, c)) && u in s && Reach(g, u, v)
  {
    if c :| OnCycle(g, c) && Reach(g, c, v) {
      var s := ClassOf(g, c);
      assert IsScc(g, s) && c in s;
    }
    forall s, u, c | IsScc(g, s) && c in s && OnCycle(g, c) && u in s && Reach(g, u, v) ensures Tangled(g, v) {
      ReachTrans(g, c, u, v);
    }
  }

  lemma ClassOf<V(!new)>(g: Graph<V>, c: V) returns (s: set<V>)
    requires c in Nodes(g)
    ensures IsScc(g, s) && c in s
  {
    s := set x | x in Nodes(g) && Reach(g, c, x) && Reach(g, x, c);
    ReachRefl(g, c);
    forall u, x | u in s ensures x in s <==> Reach(g, u, x) && Reach(g, x, u) {
      if x in s {
        ReachTrans(g, u, c, x);
        ReachTrans(g, x, c, u);
      }
      if Reach(g, u, x) && Reach(g, x, u) {
        ReachStaysInClosed(g, Nodes(g), u, x);
        ReachTrans(g, c, u, x);
        ReachTrans(g, x, u, c);
      }
    }
  }
}
