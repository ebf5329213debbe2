/**
 The stable topological sort as a whole: ties broken by key and input position, and the nodes that
 a cycle holds back appended at the end.
 */
module Toposort {
  import opened Digraphs
  import opened Kahn

  /** One round of the main loop: the least ready node leaves the queue and its successors hear of it. */
  method EmitLeast<V(!new, ==)>(nodes: seq<V>, key: V -> int, ghost g: Graph<V>, ghost distinct: bool,
                                outgoingSorted: map<V, seq<V>>, result0: seq<V>,
                                indegree0: map<V, int>, ready0: multiset<V>)
      returns (result: seq<V>, indegree: map<V, int>, ready: multiset<V>)
    requires g.Keys == Elems(nodes) == outgoingSorted.Keys == indegree0.Keys
    requires forall v :: v in g ==> g[v] <= g.Keys && multiset(outgoingSorted[v]) == multiset(g[v])
    requires ready0 != multiset{} && forall v :: v in ready0 ==> v in g
    requires distinct ==> KahnInv(nodes, key, g, result0, indegree0, ready0)
    ensures indegree.Keys == g.Keys && forall v :: v in ready ==> v in g
    ensures CountPositive(indegree) + |ready| < CountPositive(indegree0) + |ready0|
    ensures distinct ==> KahnInv(nodes, key, g, result, indegree, ready)
  {
    hide KahnInv, Counting, Ordering, CountPositive, IsLeast, Ranked, LeadsAll, Pending;
    var node;
    node, ready := HeapPop(nodes, key, ready0);
    if distinct {
      KahnPick(nodes, key, g, result0, indegree0, ready0, node);
    }
    result := result0 + [node];
    SetAsSequence(outgoingSorted[node], g[node]);
    indegree, ready := RelaxAll(g, distinct, result, outgoingSorted[node], indegree0, ready);
    if distinct {
      KahnRelaxed(nodes, key, g, result, indegree, ready);
    }
  }

  lemma InducedIsClosed<V(!new)>(nodes: set<V>, edges: Graph<V>)
    ensures Induced(nodes, edges).Keys == nodes
    ensures forall v :: v in nodes ==> Induced(nodes, edges)[v] <= nodes
  {
  }

  method StableToposort<V(!new, ==)>(nodes: seq<V>, edges: Graph<V>, key: V -> int) returns (result: seq<V>)
    ensures NoDup(nodes) ==> IsStableOrder(nodes, key, Induced(Elems(nodes), edges), result)
  {
    hide KahnInv, CountPositive, CountsPredecessors, IsStableOrder, Ranked, Pending, Induced, Elems, NoDup;
    InducedIsClosed(Elems(nodes), edges);
    ghost var distinct := NoDup(nodes);
    var outgoing, indegree := CountEdges(Elems(nodes), edges);
    CountedNodes(outgoing, indegree, outgoing.Keys);
    var outgoingSorted := SortAllNeighbours(nodes, key, outgoing);
    var ready := InitialReady(nodes, indegree);
    result := [];
    if distinct {
      KahnStart(nodes, key, outgoing, indegree, ready);
    }
    while ready != multiset{}
      invariant indegree.Keys == outgoing.Keys && forall v :: v in ready ==> v in outgoing
      invariant distinct ==> KahnInv(nodes, key, outgoing, result, indegree, ready)
      decreases CountPositive(indegree) + |ready|
    {
      result, indegree, ready := EmitLeast(nodes, key, outgoing, distinct, outgoingSorted, result, indegree, ready);
    }
    var remaining := Remaining(nodes, result);
    ghost var held := remaining;
    remaining := SortByRank(nodes, key, multiset(remaining));
    if distinct {
      KahnEnd(nodes, key, outgoing, result, indegree, held, remaining);
    }
    result := result + remaining;
  }

  // ---- What a stable order means for single edges ----

  /** On an acyclic graph the result is the least topological order of all the nodes. */
  lemma AcyclicMeansLeast<V(!new)>(nodes: seq<V>, key: V -> int, g: Graph<V>, result: seq<V>)
    requires IsStableOrder(nodes, key, g, result)
    requires forall v :: !OnCycle(g, v)
    ensures IsLeastTopologicalOrder(nodes, key, g, result)
  {
    hide Tangled;
    var k :| SplitsAt(nodes, key, g, result, k);
    if k < |result| {
      NothingTangled(g, result[k]);
    } else {
      assert result[..k] == result;
    }
  }

  lemma NothingTangled<V(!new)>(g: Graph<V>, v: V)
    requires forall c :: !OnCycle(g, c)
    ensures !Tangled(g, v)
  {
  }

  /** An edge is violated only between two nodes that a cycle holds back. */
  lemma ViolatedEdgesAreTangled<V(!new)>(nodes: seq<V>, key: V -> int, g: Graph<V>, result: seq<V>, i: nat, j: nat)
    requires IsStableOrder(nodes, key, g, result)
    requires j <= i < |result| && result[i] in g && result[j] in Succ(g, result[i])
    ensures Tangled(g, result[i]) && Tangled(g, result[j])
  {
    var k :| SplitsAt(nodes, key, g, result, k);
    if j < k {
      UntangledEdgesPointForward(nodes, key, g, result, k, i, j);
    }
  }

  lemma UntangledEdgesPointForward<V(!new)>(nodes: seq<V>, key: V -> int, g: Graph<V>, result: seq<V>, k: nat, i: nat, j: nat)
    requires NoDup(result) && SplitsAt(nodes, key, g, result, k) && j < k && i < |result|
    requires result[i] in g && result[j] in Succ(g, result[i])
    ensures i < j
  {
    var prefix := result[..k];
    assert prefix[j] == result[j];
    var m :| 0 <= m < j && prefix[m] == result[i];
    assert result[m] == result[i];
  }
}
