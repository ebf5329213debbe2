/** Kahn's algorithm with a priority queue: its counters, its queue, and the order it keeps least. */
module Kahn {
  import opened Digraphs

  // ---- The order in which ready nodes leave the queue ----

  /** The last position of `v` in `nodes`; -1 if there is none. */
  function OrderIndex<V(!new, ==)>(nodes: seq<V>, v: V): (i: int)
    ensures -1 <= i < |nodes|
    ensures i >= 0 ==> nodes[i] == v
    ensures v in nodes ==> i >= 0
  {
    if nodes == [] then -1
    else if nodes[|nodes| - 1] == v then |nodes| - 1
    else OrderIndex(nodes[..|nodes| - 1], v)
  }

  /** Rank by key, then by input position. */
  predicate Before<V(!new, ==)>(nodes: seq<V>, key: V -> int, a: V, b: V) {
    key(a) < key(b) || (key(a) == key(b) && OrderIndex(nodes, a) < OrderIndex(nodes, b))
  }

  lemma BeforeTotal<V(!new)>(nodes: seq<V>, key: V -> int, a: V, b: V)
    requires a in nodes && b in nodes
    ensures Before(nodes, key, a, b) || a == b || Before(nodes, key, b, a)
  {
  }

  lemma BeforeStrict<V(!new)>(nodes: seq<V>, key: V -> int, a: V, b: V, c: V)
    ensures !Before(nodes, key, a, a)
    ensures !Before(nodes, key, b, a) && !Before(nodes, key, c, b) ==> !Before(nodes, key, c, a)
  {
  }

  ghost predicate IsLeast<V(!new)>(nodes: seq<V>, key: V -> int, m: multiset<V>, v: V) {
    v in m && forall x :: x in m ==> !Before(nodes, key, x, v)
  }

  /** Takes the least element out of a priority queue. */
  method HeapPop<V(!new, ==)>(nodes: seq<V>, key: V -> int, heap: multiset<V>) returns (least: V, rest: multiset<V>)
    requires heap != multiset{}
    ensures IsLeast(nodes, key, heap, least) && least in heap
    ensures rest == heap - multiset{least}
  {
    least :| least in heap;
    var todo := heap - multiset{least};
    while todo != multiset{}
      invariant todo <= heap && least in heap
      invariant forall x :: x in heap && x !in todo ==> !Before(nodes, key, x, least)
      decreases |todo|
    {
      var x :| x in todo;
      forall y | y in heap && y !in todo ensures Before(nodes, key, x, least) ==> !Before(nodes, key, y, x) {
        BeforeStrict(nodes, key, x, least, y);
      }
      BeforeStrict(nodes, key, x, x, x);
      if Before(nodes, key, x, least) {
        least := x;
      }
      todo := todo - multiset{x};
    }
    rest := heap - multiset{least};
  }

  ghost predicate Ranked<V(!new)>(nodes: seq<V>, key: V -> int, q: seq<V>) {
    forall i, j :: 0 <= i < j < |q| ==> !Before(nodes, key, q[j], q[i])
  }

  /** `sorted` with the rank as key. */
  method SortByRank<V(!new, ==)>(nodes: seq<V>, key: V -> int, items: multiset<V>) returns (q: seq<V>)
    ensures multiset(q) == items && Ranked(nodes, key, q)
  {
    q := [];
    var rest := items;
    while rest != multiset{}
      invariant multiset(q) + rest == items && Ranked(nodes, key, q)
      invariant forall i, x :: 0 <= i < |q| && x in rest ==> !Before(nodes, key, x, q[i])
      decreases |rest|
    {
      var v;
      v, rest := HeapPop(nodes, key, rest);
      q := q + [v];
    }
  }

  // ---- The state of Kahn's algorithm ----

  /** The edges between the given nodes. */
  function Induced<V(!new)>(nodes: set<V>, edges: Graph<V>): Graph<V> {
    map v | v in nodes :: Succ(edges, v) * nodes
  }

  // The predecessors of `v` that are not done yet.
  function Pending<V(!new)>(g: Graph<V>, done: set<V>, v: V): set<V> {
    set u | u in g.Keys && u !in done && v in g[u]
  }

  /**
   The counters and the queue while the edges out of the last element of `result` are walked:
   the nodes in `owed` still have to hear of it.
   */
  ghost predicate Counting<V(!new)>(g: Graph<V>, result: seq<V>, owed: set<V>, indegree: map<V, int>, ready: multiset<V>) {
    && indegree.Keys == g.Keys && owed <= g.Keys && owed !! Elems(result)
    && (forall v :: v in g ==> indegree[v] == |Pending(g, Elems(result), v)| + (if v in owed then 1 else 0))
    && (forall v :: ready[v] == if v in g && v !in result && v !in owed && Pending(g, Elems(result), v) == {} then 1 else 0)
  }

  ghost predicate Ordering<V(!new)>(g: Graph<V>, result: seq<V>) {
    && NoDup(result) && Elems(result) <= g.Keys
    && InOrder(g, result)
    && forall u :: u in g ==> g[u] <= g.Keys
  }

  /** A topological order of the nodes that no cycle holds back. */
  ghost predicate IsTopologicalOrder<V(!new)>(g: Graph<V>, t: seq<V>) {
    NoDup(t) && InOrder(g, t) && forall v :: v in t <==> v in g && !Tangled(g, v)
  }

  /** `q` is a beginning of `t`, or comes before it where they first differ. */
  ghost predicate Leads<V(!new)>(nodes: seq<V>, key: V -> int, q: seq<V>, t: seq<V>) {
    q <= t || exists i :: 0 <= i < |q| && i < |t| && q[..i] == t[..i] && Before(nodes, key, q[i], t[i])
  }

  ghost predicate LeadsAll<V(!new)>(nodes: seq<V>, key: V -> int, g: Graph<V>, q: seq<V>) {
    forall t :: IsTopologicalOrder(g, t) ==> Leads(nodes, key, q, t)
  }

  lemma PendingShrinks<V(!new)>(g: Graph<V>, done: set<V>, node: V, v: V)
    requires node in g && node !in done
    ensures Pending(g, done, v) == Pending(g, done + {node}, v) + (if v in g[node] then {node} else {})
    ensures |Pending(g, done, v)| == |Pending(g, done + {node}, v)| + (if v in g[node] then 1 else 0)
  {
  }

  // Taking a node off the queue leaves one visit owed to each of its successors.
  lemma TakeReady<V(!new)>(g: Graph<V>, result: seq<V>, indegree: map<V, int>, ready: multiset<V>, node: V)
    requires Counting(g, result, {}, indegree, ready) && Ordering(g, result) && node in ready
    ensures node in g && node !in result && Pending(g, Elems(result), node) == {}
    ensures Counting(g, result + [node], g[node], indegree, ready - multiset{node})
    ensures Ordering(g, result + [node])
  {
    var done, result' := Elems(result), result + [node];
    assert ready[node] > 0;
    assert Elems(result') == done + {node};
    TakenInOrder(g, result, node);
    TakenIsNew(g, result, node);
    forall v | v in g ensures indegree[v] == |Pending(g, done + {node}, v)| + (if v in g[node] then 1 else 0) {
      PendingShrinks(g, done, node, v);
    }
    forall v ensures (ready - multiset{node})[v] ==
        if v in g && v !in result' && v !in g[node] && Pending(g, done + {node}, v) == {} then 1 else 0 {
      PendingShrinks(g, done, node, v);
    }
  }

  lemma TakenIsNew<V(!new)>(g: Graph<V>, result: seq<V>, node: V)
    requires Ordering(g, result) && node in g && node !in result && Pending(g, Elems(result), node) == {}
    ensures g[node] !! Elems(result + [node])
  {
    forall v | v in g[node] ensures v !in result + [node] {
      assert v == node ==> node in Pending(g, Elems(result), node);
      forall i | 0 <= i < |result| ensures result[i] != v {
        NotAfterNew(g, result, node, i);
      }
    }
  }

  lemma NotAfterNew<V(!new)>(g: Graph<V>, result: seq<V>, node: V, i: nat)
    requires InOrder(g, result) && node in g && node !in result && i < |result|
    ensures result[i] !in g[node]
  {
  }

  lemma TakenInOrder<V(!new)>(g: Graph<V>, result: seq<V>, node: V)
    requires Ordering(g, result) && node in g && node !in result && Pending(g, Elems(result), node) == {}
    ensures Ordering(g, result + [node])
  {
    var result' := result + [node];
    forall i, u | 0 <= i < |result'| && u in g && result'[i] in Succ(g, u) ensures u in result'[..i] {
      if i < |result| {
        assert result'[..i] == result[..i];
      } else {
        assert u !in Pending(g, Elems(result), node);
        assert result'[..i] == result;
      }
    }
  }

  // One successor hears of the node taken; it joins the queue when nothing else holds it back.
  lemma Relax<V(!new)>(g: Graph<V>, result: seq<V>, owed: set<V>, indegree: map<V, int>, ready: multiset<V>, v: V)
    requires Counting(g, result, owed, indegree, ready) && v in owed
    ensures
      var left := indegree[v] - 1;
      Counting(g, result, owed - {v}, indegree[v := left], if left == 0 then ready + multiset{v} else ready)
  {
    var left := indegree[v] - 1;
    assert left == |Pending(g, Elems(result), v)|;
    var ready' := if left == 0 then ready + multiset{v} else ready;
    forall x ensures ready'[x] ==
        if x in g && x !in result && x !in owed - {v} && Pending(g, Elems(result), x) == {} then 1 else 0 {
    }
  }

  // ---- The least topological order ----

  lemma PickLeads<V(!new)>(nodes: seq<V>, key: V -> int, g: Graph<V>, result: seq<V>,
                           indegree: map<V, int>, ready: multiset<V>, node: V)
    requires g.Keys == Elems(nodes)
    requires Counting(g, result, {}, indegree, ready) && Ordering(g, result)
    requires IsLeast(nodes, key, ready, node) && LeadsAll(nodes, key, g, result)
    ensures LeadsAll(nodes, key, g, result + [node])
  {
    TakeReady(g, result, indegree, ready, node);
    forall t | IsTopologicalOrder(g, t) ensures Leads(nodes, key, result + [node], t) {
      assert Leads(nodes, key, result, t);
      if result <= t {
        TakenIsIn(g, result + [node], node, t);
        NextIsReady(g, result, indegree, ready, t, node);
        assert t[|result|] in nodes && node in nodes by {
          assert t[|result|] in Elems(nodes) && node in Elems(nodes);
        }
      }
      hide Counting, Ordering, LeadsAll, IsTopologicalOrder;
      LongerLeads(nodes, key, result, node, t);
    }
  }

  lemma TakenIsIn<V(!new)>(g: Graph<V>, result: seq<V>, node: V, t: seq<V>)
    requires Ordering(g, result) && node in result && node in g && IsTopologicalOrder(g, t)
    ensures node in t
  {
    OrderedIsUntangled(g, result, node);
  }

  // A prefix that leads, made longer by a least candidate, still leads.
  lemma LongerLeads<V(!new)>(nodes: seq<V>, key: V -> int, result: seq<V>, node: V, t: seq<V>)
    requires Leads(nodes, key, result, t)
    requires result <= t ==> |result| < |t| && t[|result|] in nodes && node in nodes && !Before(nodes, key, t[|result|], node)
    ensures Leads(nodes, key, result + [node], t)
  {
    var more, k := result + [node], |result|;
    if result <= t {
      BeforeTotal(nodes, key, t[k], node);
      if t[k] != node {
        assert more[..k] == t[..k] && Before(nodes, key, more[k], t[k]);
      }
    } else {
      var i :| 0 <= i < k && i < |t| && result[..i] == t[..i] && Before(nodes, key, result[i], t[i]);
      assert more[..i] == t[..i] && Before(nodes, key, more[i], t[i]);
    }
  }

  // Whatever a topological order puts next was in the queue.
  lemma NextIsReady<V(!new)>(g: Graph<V>, result: seq<V>, indegree: map<V, int>, ready: multiset<V>, t: seq<V>, node: V)
    requires Counting(g, result, {}, indegree, ready)
    requires IsTopologicalOrder(g, t) && result <= t
    requires node in t && node !in result
    ensures |result| < |t| && t[|result|] in g && t[|result|] in ready
  {
    PrefixLeavesMore(result, t, node);
    var x := t[|result|];
    assert x in t;
    NextIsNew(result, t);
    NothingPending(g, result, t);
    hide IsTopologicalOrder, InOrder, NoDup, Tangled;
    assert Pending(g, Elems(result), x) == {};
    assert ready[x] == 1;
  }

  lemma PrefixLeavesMore<V(!new)>(result: seq<V>, t: seq<V>, node: V)
    requires result <= t && node in t && node !in result
    ensures |result| < |t|
  {
    forall j | 0 <= j < |result| ensures t[j] != node {
      assert t[j] == result[j];
    }
  }

  lemma NextIsNew<V(!new)>(result: seq<V>, t: seq<V>)
    requires result <= t && |result| < |t| && NoDup(t)
    ensures t[|result|] !in result
  {
    forall i | 0 <= i < |result| ensures result[i] != t[|result|] {
      assert t[i] == result[i];
    }
  }

  lemma NothingPending<V(!new)>(g: Graph<V>, result: seq<V>, t: seq<V>)
    requires InOrder(g, t) && result <= t && |result| < |t|
    ensures Pending(g, Elems(result), t[|result|]) == {}
  {
    var k := |result|;
    assert t[..k] == result;
    forall u | u in g && t[k] in Succ(g, u) ensures u in Elems(result) {
      assert u in t[..k];
    }
  }

  // ---- The algorithm ----

  // The induced graph as far as the edges out of `done` are concerned.
  function PartlyInduced<V(!new)>(nodes: set<V>, edges: Graph<V>, done: set<V>): Graph<V> {
    map v | v in nodes :: if v in done then Succ(edges, v) * nodes else {}
  }

  ghost predicate CountsPredecessors<V(!new)>(g: Graph<V>, indegree: map<V, int>) {
    indegree.Keys == g.Keys && forall v :: v in g ==> indegree[v] == |Pending(g, {}, v)|
  }

  /** Counts the edges between the given nodes. */
  method CountEdges<V(!new, ==)>(nodes: set<V>, edges: Graph<V>) returns (outgoing: Graph<V>, indegree: map<V, int>)
    ensures outgoing == Induced(nodes, edges)
    ensures CountsPredecessors(outgoing, indegree)
  {
    hide CountsPredecessors, PartlyInduced, Induced;
    outgoing := map v | v in nodes :: {};
    indegree := map v | v in nodes :: 0;
    NoSources(nodes, edges, outgoing, indegree);
    var sources := nodes * edges.Keys;
    var rest := sources;
    assert sources - rest == {};
    while rest != {}
      invariant rest <= sources
      invariant outgoing == PartlyInduced(nodes, edges, sources - rest)
      invariant CountsPredecessors(outgoing, indegree)
    {
      var source :| source in rest;
      ghost var before := outgoing;
      SourceIsNew(nodes, edges, sources - rest, source);
      var newOnes := edges[source] * nodes - outgoing[source];
      outgoing := outgoing[source := outgoing[source] + newOnes];
      CountedNodes(before, indegree, newOnes);
      var indegree' := Increment(indegree, newOnes);
      CountSource(before, source, newOnes, outgoing, indegree, indegree');
      indegree := indegree';
      assert sources - (rest - {source}) == sources - rest + {source};
      rest := rest - {source};
    }
    assert sources - rest == sources;
    AllSources(nodes, edges);
  }

  lemma NoSources<V(!new)>(nodes: set<V>, edges: Graph<V>, outgoing: Graph<V>, indegree: map<V, int>)
    requires outgoing == map v | v in nodes :: {}
    requires indegree == map v | v in nodes :: 0
    ensures outgoing == PartlyInduced(nodes, edges, {}) && CountsPredecessors(outgoing, indegree)
  {
    forall v ensures Pending(outgoing, {}, v) == {} {}
  }

  lemma AllSources<V(!new)>(nodes: set<V>, edges: Graph<V>)
    ensures PartlyInduced(nodes, edges, nodes * edges.Keys) == Induced(nodes, edges)
  {
    forall v | v in nodes && v !in edges ensures Succ(edges, v) * nodes == {} {}
  }

  lemma SourceIsNew<V(!new)>(nodes: set<V>, edges: Graph<V>, done: set<V>, source: V)
    requires source in nodes && source in edges && source !in done
    ensures
      var g := PartlyInduced(nodes, edges, done);
      && source in g && g.Keys == nodes && g[source] == {}
      && PartlyInduced(nodes, edges, done + {source}) == g[source := g[source] + (edges[source] * nodes - g[source])]
  {
    var g, g' := PartlyInduced(nodes, edges, done), PartlyInduced(nodes, edges, done + {source});
    assert g[source] == {} && g[source] + (edges[source] * nodes - g[source]) == edges[source] * nodes == g'[source];
  }

  lemma CountedNodes<V(!new)>(g: Graph<V>, indegree: map<V, int>, targets: set<V>)
    requires CountsPredecessors(g, indegree) && targets <= g.Keys
    ensures targets <= indegree.Keys == g.Keys
  {
  }

  lemma CountSource<V(!new)>(g: Graph<V>, source: V, newOnes: set<V>, g': Graph<V>,
                             indegree: map<V, int>, indegree': map<V, int>)
    requires CountsPredecessors(g, indegree)
    requires source in g && g[source] == {} && g' == g[source := g[source] + newOnes]
    requires indegree'.Keys == indegree.Keys
    requires forall v :: v in indegree' ==> indegree'[v] == indegree[v] + (if v in newOnes then 1 else 0)
    ensures CountsPredecessors(g', indegree')
  {
    assert g[source] + newOnes == newOnes;
    forall v | v in g' ensures indegree'[v] == |Pending(g', {}, v)| {
      NewSource(g, source, newOnes, v);
    }
  }

  method Increment<V(!new, ==)>(indegree0: map<V, int>, targets: set<V>) returns (indegree: map<V, int>)
    requires targets <= indegree0.Keys
    ensures indegree.Keys == indegree0.Keys
    ensures forall v :: v in indegree ==> indegree[v] == indegree0[v] + (if v in targets then 1 else 0)
  {
    indegree := indegree0;
    var todo := targets;
    while todo != {}
      invariant todo <= targets && indegree.Keys == indegree0.Keys
      invariant forall v :: v in indegree ==> indegree[v] == indegree0[v] + (if v in targets - todo then 1 else 0)
    {
      var destination :| destination in todo;
      indegree := indegree[destination := indegree[destination] + 1];
      todo := todo - {destination};
    }
  }

  lemma NewSource<V(!new)>(g: Graph<V>, source: V, newOnes: set<V>, v: V)
    requires source in g && g[source] == {}
    ensures |Pending(g[source := newOnes], {}, v)| == |Pending(g, {}, v)| + (if v in newOnes then 1 else 0)
  {
    var g' := g[source := newOnes];
    if v in newOnes {
      assert Pending(g', {}, v) == Pending(g, {}, v) + {source};
    } else {
      assert Pending(g', {}, v) == Pending(g, {}, v);
    }
  }

  /** The queue to start with: the nodes that nothing points to. */
  method InitialReady<V(!new, ==)>(nodes: seq<V>, indegree: map<V, int>) returns (ready: multiset<V>)
    requires indegree.Keys == Elems(nodes)
    ensures forall v :: v in ready ==> v in Elems(nodes)
    ensures NoDup(nodes) ==> forall v :: ready[v] == if v in nodes && indegree[v] == 0 then 1 else 0
  {
    ready := multiset{};
    for i := 0 to |nodes|
      invariant forall v :: v in ready ==> v in nodes
      invariant NoDup(nodes) ==> forall v :: ready[v] == if v in nodes[..i] && indegree[v] == 0 then 1 else 0
    {
      assert nodes[i] in Elems(nodes);
      assert nodes[..i + 1] == nodes[..i] + [nodes[i]];
      if indegree[nodes[i]] == 0 {
        ready := ready + multiset{nodes[i]};
      }
    }
    assert nodes[..|nodes|] == nodes;
  }

  function CountPositive<V(!new)>(indegree: map<V, int>): nat {
    |set v | v in indegree && indegree[v] > 0|
  }

  lemma DecrementCount<V(!new)>(indegree: map<V, int>, v: V)
    requires v in indegree
    ensures
      var next := indegree[v := indegree[v] - 1];
      CountPositive(next) == CountPositive(indegree) - (if indegree[v] == 1 then 1 else 0)
  {
    var next := indegree[v := indegree[v] - 1];
    var before := set x | x in indegree && indegree[x] > 0;
    var after := set x | x in next && next[x] > 0;
    if indegree[v] == 1 {
      assert before == after + {v};
    } else {
      assert before == after;
    }
  }

  /** Walks the edges out of a node that has just left the queue. */
  method RelaxAll<V(!new, ==)>(ghost g: Graph<V>, ghost distinct: bool, ghost result: seq<V>, neighbours: seq<V>,
                               indegree0: map<V, int>, ready0: multiset<V>)
      returns (indegree: map<V, int>, ready: multiset<V>)
    requires Elems(neighbours) <= indegree0.Keys == g.Keys
    requires NoDup(neighbours) && (forall v :: v in ready0 ==> v in g)
    requires distinct ==> Counting(g, result, Elems(neighbours), indegree0, ready0)
    ensures indegree.Keys == g.Keys && (forall v :: v in ready ==> v in g)
    ensures CountPositive(indegree) + |ready| == CountPositive(indegree0) + |ready0|
    ensures distinct ==> Counting(g, result, {}, indegree, ready)
  {
    hide Counting, CountPositive;
    indegree, ready := indegree0, ready0;
    for j := 0 to |neighbours|
      invariant indegree.Keys == g.Keys && (forall v :: v in ready ==> v in g)
      invariant CountPositive(indegree) + |ready| == CountPositive(indegree0) + |ready0|
      invariant distinct ==> Counting(g, result, Elems(neighbours[j..]), indegree, ready)
    {
      var neighbour := neighbours[j];
      assert neighbour in Elems(neighbours);
      DecrementCount(indegree, neighbour);
      if distinct {
        assert neighbours[j..] == [neighbour] + neighbours[j + 1..];
        assert Elems(neighbours[j..]) - {neighbour} == Elems(neighbours[j + 1..]);
        Relax(g, result, Elems(neighbours[j..]), indegree, ready, neighbour);
      }
      indegree := indegree[neighbour := indegree[neighbour] - 1];
      if indegree[neighbour] == 0 {
        ready := ready + multiset{neighbour};
      }
    }
    assert Elems(neighbours[|neighbours|..]) == {};
  }

  /** Lexicographic order by rank, on sequences of the same nodes. */
  ghost predicate LexAtMost<V(!new)>(nodes: seq<V>, key: V -> int, q: seq<V>, t: seq<V>) {
    q == t || exists i :: 0 <= i < |q| && i < |t| && q[..i] == t[..i] && Before(nodes, key, q[i], t[i])
  }

  ghost predicate IsLeastTopologicalOrder<V(!new)>(nodes: seq<V>, key: V -> int, g: Graph<V>, q: seq<V>) {
    && IsTopologicalOrder(g, q)
    && forall t :: IsTopologicalOrder(g, t) ==> LexAtMost(nodes, key, q, t)
  }

  /**
   The nodes no cycle holds back, in the least of their topological orders, followed by the
   nodes on or downstream of a cycle, in the order of rank.
   */
  ghost predicate IsStableOrder<V(!new)>(nodes: seq<V>, key: V -> int, g: Graph<V>, result: seq<V>) {
    && NoDup(result) && Elems(result) == Elems(nodes)
    && exists k :: SplitsAt(nodes, key, g, result, k)
  }

  ghost predicate SplitsAt<V(!new)>(nodes: seq<V>, key: V -> int, g: Graph<V>, result: seq<V>, k: int) {
    && 0 <= k <= |result|
    && IsLeastTopologicalOrder(nodes, key, g, result[..k])
    && (forall i :: k <= i < |result| ==> Tangled(g, result[i]))
    && (forall i, j :: k <= i < j < |result| ==> Before(nodes, key, result[i], result[j]))
  }

  // Kahn's invariant between two rounds.
  ghost predicate KahnInv<V(!new)>(nodes: seq<V>, key: V -> int, g: Graph<V>, result: seq<V>,
                                   indegree: map<V, int>, ready: multiset<V>) {
    Counting(g, result, {}, indegree, ready) && Ordering(g, result) && LeadsAll(nodes, key, g, result)
  }

  method SortAllNeighbours<V(!new, ==)>(nodes: seq<V>, key: V -> int, outgoing: Graph<V>) returns (sorted: map<V, seq<V>>)
    ensures sorted.Keys == outgoing.Keys
    ensures forall v :: v in sorted ==> multiset(sorted[v]) == multiset(outgoing[v]) && Ranked(nodes, key, sorted[v])
  {
    hide Ranked;
    sorted := map[];
    var rest := outgoing.Keys;
    while rest != {}
      invariant rest <= outgoing.Keys && sorted.Keys == outgoing.Keys - rest
      invariant forall v :: v in sorted ==> multiset(sorted[v]) == multiset(outgoing[v]) && Ranked(nodes, key, sorted[v])
    {
      var v :| v in rest;
      var neighbours := SortByRank(nodes, key, multiset(outgoing[v]));
      sorted, rest := sorted[v := neighbours], rest - {v};
    }
  }

  lemma SetAsSequence<V(!new)>(q: seq<V>, s: set<V>)
    requires multiset(q) == multiset(s)
    ensures NoDup(q) && Elems(q) == s
  {
    forall i, j | 0 <= i < j < |q| ensures q[i] != q[j] {
      assert q == q[..i] + [q[i]] + q[i + 1..j] + [q[j]] + q[j + 1..];
      assert multiset(q)[q[i]] <= 1;
    }
    forall x ensures x in q <==> x in s {
      assert x in q <==> x in multiset(q);
    }
  }

  /** The nodes that were never ready, in input order. */
  method Remaining<V(!new, ==)>(nodes: seq<V>, result: seq<V>) returns (remaining: seq<V>)
    ensures forall v :: v in remaining <==> v in nodes && v !in result
    ensures NoDup(nodes) ==> NoDup(remaining)
  {
    remaining := [];
    for i := 0 to |nodes|
      invariant forall v :: v in remaining <==> v in nodes[..i] && v !in result
      invariant NoDup(nodes) ==> NoDup(remaining)
    {
      assert nodes[..i + 1] == nodes[..i] + [nodes[i]];
      if nodes[i] !in result {
        remaining := remaining + [nodes[i]];
      }
    }
    assert nodes[..|nodes|] == nodes;
  }

  lemma KahnStart<V(!new)>(nodes: seq<V>, key: V -> int, g: Graph<V>, indegree: map<V, int>, ready: multiset<V>)
    requires NoDup(nodes) && g.Keys == Elems(nodes) && forall u :: u in g ==> g[u] <= g.Keys
    requires CountsPredecessors(g, indegree)
    requires forall v :: ready[v] == if v in nodes && indegree[v] == 0 then 1 else 0
    ensures KahnInv(nodes, key, g, [], indegree, ready)
  {
    assert Elems<V>([]) == {};
    forall v | v in g ensures indegree[v] == 0 <==> Pending(g, {}, v) == {} {}
  }

  lemma KahnPick<V(!new)>(nodes: seq<V>, key: V -> int, g: Graph<V>, result: seq<V>,
                          indegree: map<V, int>, ready: multiset<V>, node: V)
    requires g.Keys == Elems(nodes)
    requires KahnInv(nodes, key, g, result, indegree, ready) && IsLeast(nodes, key, ready, node)
    ensures node in g && Counting(g, result + [node], g[node], indegree, ready - multiset{node})
    ensures Ordering(g, result + [node]) && LeadsAll(nodes, key, g, result + [node])
  {
    TakeReady(g, result, indegree, ready, node);
    PickLeads(nodes, key, g, result, indegree, ready, node);
  }

  lemma KahnRelaxed<V(!new)>(nodes: seq<V>, key: V -> int, g: Graph<V>, result: seq<V>,
                             indegree: map<V, int>, ready: multiset<V>)
    requires Counting(g, result, {}, indegree, ready) && Ordering(g, result) && LeadsAll(nodes, key, g, result)
    ensures KahnInv(nodes, key, g, result, indegree, ready)
  {
  }

  // Everything left over waits for something else left over, so it is tangled.
  lemma LeftoverTangled<V(!new)>(g: Graph<V>, result: seq<V>, indegree: map<V, int>, left: set<V>, v: V)
    requires Counting(g, result, {}, indegree, multiset{}) && Ordering(g, result)
    requires left == g.Keys - Elems(result) && v in g
    ensures v in left <==> Tangled(g, v)
  {
    var none: multiset<V> := multiset{};
    forall x | x in left ensures HasPredecessorIn(g, left, x) {
      assert none[x] == 0;
      var u :| u in Pending(g, Elems(result), x);
      assert u in left && x in Succ(g, u);
    }
    KahnLeftover(g, result, left, v);
  }

  lemma KahnEnd<V(!new)>(nodes: seq<V>, key: V -> int, g: Graph<V>, result: seq<V>, indegree: map<V, int>,
                         held: seq<V>, remaining: seq<V>)
    requires g.Keys == Elems(nodes)
    requires KahnInv(nodes, key, g, result, indegree, multiset{})
    requires NoDup(held) && forall v :: v in held <==> v in nodes && v !in result
    requires multiset(remaining) == multiset(held) && Ranked(nodes, key, remaining)
    ensures IsStableOrder(nodes, key, g, result + remaining)
  {
    hide Counting, LeadsAll, IsStableOrder, IsLeastTopologicalOrder, Ranked, Tangled, InOrder;
    var left := g.Keys - Elems(result);
    forall v | v in g ensures v in left <==> Tangled(g, v) {
      LeftoverTangled(g, result, indegree, left, v);
    }
    Rearranged(held, remaining);
    forall v ensures v in remaining <==> v in left {
      assert v in Elems(remaining) <==> v in Elems(held);
    }
    EndsLeast(nodes, key, g, result);
    JoinTail(nodes, key, g, result, remaining);
  }

  lemma JoinTail<V(!new)>(nodes: seq<V>, key: V -> int, g: Graph<V>, result: seq<V>, remaining: seq<V>)
    requires NoDup(result) && NoDup(remaining) && Ranked(nodes, key, remaining)
    requires Elems(result) <= Elems(nodes)
    requires forall v :: v in remaining <==> v in nodes && v !in result
    requires IsLeastTopologicalOrder(nodes, key, g, result)
    requires forall v :: v in remaining ==> Tangled(g, v)
    ensures IsStableOrder(nodes, key, g, result + remaining)
  {
    hide Tangled, IsLeastTopologicalOrder;
    var all, k := result + remaining, |result|;
    forall i | k <= i < |all| ensures all[i] in remaining && all[i] == remaining[i - k] {}
    forall i, j | k <= i < j < |all| ensures Before(nodes, key, all[i], all[j]) {
      BeforeTotal(nodes, key, remaining[i - k], remaining[j - k]);
    }
    assert all[..k] == result;
    assert SplitsAt(nodes, key, g, all, k);
    forall v ensures v in all <==> v in nodes {
      assert v in result ==> v in Elems(result);
    }
  }

  lemma Rearranged<V(!new)>(p: seq<V>, q: seq<V>)
    requires NoDup(p) && multiset(q) == multiset(p)
    ensures NoDup(q) && Elems(q) == Elems(p)
  {
    forall x ensures multiset(p)[x] <= 1 {
      NoDupCount(p, x);
    }
    assert multiset(p) == multiset(Elems(p)) by {
      forall x ensures multiset(p)[x] == multiset(Elems(p))[x] {
        assert x in multiset(p) <==> x in p;
      }
    }
    SetAsSequence(q, Elems(p));
  }

  lemma {:induction false} NoDupCount<V(!new)>(p: seq<V>, x: V)
    requires NoDup(p)
    ensures multiset(p)[x] <= 1
  {
    if p != [] {
      var k := |p| - 1;
      assert p == p[..k] + [p[k]];
      NoDupCount(p[..k], x);
      assert p[k] !in multiset(p[..k]);
    }
  }

  lemma EndsLeast<V(!new)>(nodes: seq<V>, key: V -> int, g: Graph<V>, result: seq<V>)
    requires Ordering(g, result) && LeadsAll(nodes, key, g, result)
    requires forall v :: v in g ==> (v in result <==> !Tangled(g, v))
    ensures IsLeastTopologicalOrder(nodes, key, g, result)
  {
    forall v ensures v in result <==> v in g && !Tangled(g, v) {
      assert v in result ==> v in Elems(result);
    }
    forall t | IsTopologicalOrder(g, t) ensures LexAtMost(nodes, key, result, t) {
      assert Leads(nodes, key, result, t);
      if result <= t {
        SamePrefix(result, t);
      }
    }
  }

  lemma SamePrefix<V(!new)>(q: seq<V>, t: seq<V>)
    requires q <= t && NoDup(t) && forall v :: v in t ==> v in q
    ensures q == t
  {
    assert forall i, j :: 0 <= i < j < |q| ==> q[i] == t[i] && q[j] == t[j];
    NoDupSize(q);
    NoDupSize(t);
    SubsetSize(Elems(t), Elems(q));
  }
}
