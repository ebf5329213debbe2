/**
 The change manager: observers registered with subjects, and changes passed on to every observer
 they reach, each once and after the observers it depends on.
 */
module DagChange {

  import opened Digraphs
  import opened Multimaps

  /** The graph behind the lists. */
  function GraphOf<V(!new)>(deps: Multimap<V>): Graph<V> {
    map s | s in deps :: Elems(deps[s])
  }

  /** A change of `changed` reaches `v`. */
  ghost predicate Affected<V(!new)>(g: Graph<V>, changed: V, v: V) {
    exists w :: w in Succ(g, changed) && Reach(g, w, v)
  }

  /** The edges between the given nodes. */
  function Among<V(!new)>(deps: Multimap<V>, nodes: set<V>): Graph<V> {
    map s | s in nodes :: Elems(Get(deps, s)) * nodes
  }

  lemma SuccOfGraph<V(!new)>(deps: Multimap<V>, s: V)
    ensures Succ(GraphOf(deps), s) == Elems(Get(deps, s))
  {
  }

  // ---- Collecting ----

  /** What has been newly collected leads only to what has been collected. */
  ghost predicate ClosedSince<V(!new)>(deps: Multimap<V>, before: seq<V>, visited: seq<V>) {
    forall x :: x in visited && x !in before ==> Elems(Get(deps, x)) <= Elems(visited)
  }

  ghost predicate AllAffected<V(!new)>(deps: Multimap<V>, subject: V, before: seq<V>, visited: seq<V>) {
    forall x :: x in visited && x !in before ==> Affected(GraphOf(deps), subject, x)
  }

  function Everyone<V(!new)>(deps: Multimap<V>): set<V> {
    set s, o | s in deps && o in deps[s] :: o
  }

  lemma AffectedThrough<V(!new)>(deps: Multimap<V>, subject: V, observer: V, x: V)
    requires observer in Get(deps, subject) && (x == observer || Affected(GraphOf(deps), observer, x))
    ensures Affected(GraphOf(deps), subject, x)
  {
    var g := GraphOf(deps);
    SuccOfGraph(deps, subject);
    assert observer in Succ(g, subject);
    if x == observer {
      ReachRefl(g, observer);
    } else {
      var w :| w in Succ(g, observer) && Reach(g, w, x);
      ReachEdge(g, observer, w);
      ReachTrans(g, observer, w, x);
    }
  }

  lemma MoreCollected<V(!new)>(deps: Multimap<V>, subject: V, observer: V, start: seq<V>, visited: seq<V>, more: seq<V>)
    requires observer in Get(deps, subject) && observer !in visited && start <= visited && visited + [observer] <= more
    requires ClosedSince(deps, start, visited) && AllAffected(deps, subject, start, visited)
    requires ClosedSince(deps, visited + [observer], more) && AllAffected(deps, observer, visited + [observer], more)
    requires Elems(Get(deps, observer)) <= Elems(more)
    ensures ClosedSince(deps, start, more) && AllAffected(deps, subject, start, more)
  {
    assert Elems(visited) <= Elems(more) by {
      forall x | x in visited ensures x in more {
        var i :| 0 <= i < |visited| && visited[i] == x;
        assert more[i] == (visited + [observer])[i] == x;
      }
    }
    forall x | x in more && x !in start ensures Affected(GraphOf(deps), subject, x) {
      if x !in visited {
        AffectedThrough(deps, subject, observer, x);
      }
    }
  }

  ghost predicate SomeObservers<V(!new)>(deps: Multimap<V>, visited: seq<V>) {
    NoDup(visited) && Elems(visited) <= Everyone(deps)
  }

  lemma OneMoreObserver<V(!new)>(deps: Multimap<V>, subject: V, observer: V, visited0: seq<V>, visited: seq<V>)
    requires SomeObservers(deps, visited) && visited0 <= visited
    requires observer in Get(deps, subject) && observer !in visited
    ensures SomeObservers(deps, visited + [observer])
    ensures |Everyone(deps) - Elems(visited + [observer])| < |Everyone(deps) - Elems(visited0)|
  {
    assert subject in deps && observer in deps[subject];
    var more := visited + [observer];
    assert Elems(more) == Elems(visited) + {observer};
    forall x | x in visited0 ensures x in more {
      var i :| 0 <= i < |visited0| && visited0[i] == x;
      assert more[i] == x;
    }
    var left := Everyone(deps) - Elems(more);
    assert left + {observer} <= Everyone(deps) - Elems(visited0) by {
      assert observer !in visited0 by {
        forall i | 0 <= i < |visited0| ensures visited0[i] != observer {
          assert visited[i] == visited0[i];
        }
      }
    }
    SubsetSize(left + {observer}, Everyone(deps) - Elems(visited0));
  }

  lemma StillCollected<V(!new)>(deps: Multimap<V>, observers: seq<V>, i: nat, before: seq<V>, visited: seq<V>)
    requires i < |observers| && before <= visited && Elems(observers[..i]) <= Elems(before)
    requires observers[i] in visited
    ensures Elems(observers[..i + 1]) <= Elems(visited)
  {
    forall x | x in before ensures x in visited {
      var k :| 0 <= k < |before| && before[k] == x;
      assert visited[k] == x;
    }
    forall x | x in observers[..i + 1] ensures x in visited {
      assert x == observers[i] || x in Elems(observers[..i]);
    }
  }

  /** Depth first; `visited` lists the keys of a dictionary in insertion order. */
  method CollectAffected<V(!new, ==)>(deps: Multimap<V>, isSubject: V -> bool, subject: V, visited0: seq<V>)
      returns (visited: seq<V>)
    requires SomeObservers(deps, visited0) && forall s :: s in deps ==> isSubject(s)
    ensures SomeObservers(deps, visited) && visited0 <= visited
    ensures Elems(Get(deps, subject)) <= Elems(visited)
    ensures ClosedSince(deps, visited0, visited) && AllAffected(deps, subject, visited0, visited)
    decreases |Everyone(deps) - Elems(visited0)|
  {
    hide SomeObservers, ClosedSince, AllAffected, Everyone, Get;
    visited := visited0;
    NothingCollected(deps, subject, visited0);
    var observers := Get(deps, subject);
    for i := 0 to |observers|
      invariant SomeObservers(deps, visited) && visited0 <= visited
      invariant Elems(observers[..i]) <= Elems(visited)
      invariant ClosedSince(deps, visited0, visited) && AllAffected(deps, subject, visited0, visited)
    {
      var observer := observers[i];
      ghost var before := visited;
      if observer !in visited {
        OneMoreObserver(deps, subject, observer, visited0, visited);
        visited := visited + [observer];
        if isSubject(observer) {
          visited := CollectAffected(deps, isSubject, observer, visited);
        } else {
          NotASubject(deps, observer);
          NothingCollected(deps, observer, visited);
        }
        assert visited[|before|] == observer;
        MoreCollected(deps, subject, observer, visited0, before, visited);
      }
      StillCollected(deps, observers, i, before, visited);
    }
    assert observers[..|observers|] == observers;
  }

  lemma NothingCollected<V(!new)>(deps: Multimap<V>, subject: V, visited: seq<V>)
    ensures ClosedSince(deps, visited, visited) && AllAffected(deps, subject, visited, visited)
  {
  }

  lemma NotASubject<V(!new)>(deps: Multimap<V>, s: V)
    ensures s !in deps ==> Get(deps, s) == []
  {
  }

  /** Collected from nothing, it is exactly what the change reaches. */
  lemma CollectedExactly<V(!new)>(deps: Multimap<V>, changed: V, visited: seq<V>, v: V)
    requires Elems(Get(deps, changed)) <= Elems(visited)
    requires ClosedSince(deps, [], visited) && AllAffected(deps, changed, [], visited)
    ensures v in visited <==> Affected(GraphOf(deps), changed, v)
  {
    var g := GraphOf(deps);
    if Affected(g, changed, v) {
      var w :| w in Succ(g, changed) && Reach(g, w, v);
      forall u | u in Elems(visited) ensures Succ(g, u) <= Elems(visited) {
        SuccOfGraph(deps, u);
      }
      SuccOfGraph(deps, changed);
      ReachStaysInClosed(g, Elems(visited), w, v);
    }
  }

  // ---- Sorting ----

  /** How many entries of `q` are in `among`. */
  function CountIn<V(!new)>(q: seq<V>, among: set<V>): nat {
    if q == [] then 0 else CountIn(q[..|q| - 1], among) + (if q[|q| - 1] in among then 1 else 0)
  }

  lemma {:induction false} CountWithout<V(!new)>(q: seq<V>, among: set<V>, v: V)
    requires v in among
    ensures CountIn(q, among) == CountIn(q, among - {v}) + multiset(q)[v]
  {
    if q != [] {
      CountWithout(q[..|q| - 1], among, v);
      assert q == q[..|q| - 1] + [q[|q| - 1]];
    }
  }

  lemma {:induction false} CountZero<V(!new)>(q: seq<V>, among: set<V>)
    ensures CountIn(q, among) == 0 <==> forall x :: x in q ==> x !in among
  {
    if q != [] {
      CountZero(q[..|q| - 1], among);
      assert q == q[..|q| - 1] + [q[|q| - 1]];
    }
  }

  /**
   The counters while the observers of the last sorted node are walked: those in `owed` still have
   to hear of it, as often as they are listed.
   */
  ghost predicate Counting<V(!new)>(reverse: Multimap<V>, affected: set<V>, sorted: seq<V>, owed: multiset<V>, indegree: map<V, int>) {
    && indegree.Keys == affected
    && forall v :: v in affected ==> indegree[v] == CountIn(Get(reverse, v), affected - Elems(sorted)) + owed[v]
  }

  /** Sorted or queued are exactly those with nothing left to wait for, each once. */
  ghost predicate Queued<V(!new)>(affected: set<V>, sorted: seq<V>, queue: seq<V>, indegree: map<V, int>) {
    && NoDup(sorted + queue)
    && forall v :: v in sorted + queue <==> v in affected && v in indegree && indegree[v] == 0
  }

  ghost predicate Sorting<V(!new)>(deps: Multimap<V>, affected: set<V>, sorted: seq<V>) {
    NoDup(sorted) && Elems(sorted) <= affected && InOrder(Among(deps, affected), sorted)
  }

  lemma Listed<V(!new)>(deps: Multimap<V>, reverse: Multimap<V>, s: V, o: V)
    requires Mirrored(deps, reverse)
    ensures o in Get(deps, s) <==> s in Get(reverse, o)
    ensures multiset(Get(deps, s))[o] == multiset(Get(reverse, o))[s]
  {
    assert Mult(deps, s, o) == Mult(reverse, o, s);
    assert o in Get(deps, s) <==> o in multiset(Get(deps, s));
    assert s in Get(reverse, o) <==> s in multiset(Get(reverse, o));
  }

  lemma QueueIsNew<V(!new)>(affected: set<V>, sorted: seq<V>, queue: seq<V>, indegree: map<V, int>)
    requires Queued(affected, sorted, queue, indegree) && queue != []
    ensures queue[0] in affected && queue[0] in indegree && indegree[queue[0]] == 0 && queue[0] !in sorted
    ensures Queued(affected, sorted + [queue[0]], queue[1..], indegree)
  {
    assert sorted + [queue[0]] + queue[1..] == sorted + queue;
    assert (sorted + queue)[|sorted|] == queue[0];
    forall i | 0 <= i < |sorted| ensures sorted[i] != queue[0] {
      assert (sorted + queue)[i] == sorted[i];
    }
  }

  // Taking a node off the queue owes its observers one decrement for each listing.
  lemma Take<V(!new)>(deps: Multimap<V>, reverse: Multimap<V>, affected: set<V>, sorted: seq<V>, indegree: map<V, int>, node: V)
    requires Mirrored(deps, reverse) && Counting(reverse, affected, sorted, multiset{}, indegree)
    requires Sorting(deps, affected, sorted)
    requires node in affected && indegree[node] == 0 && node !in sorted
    ensures Counting(reverse, affected, sorted + [node], multiset(Get(deps, node)), indegree)
    ensures Sorting(deps, affected, sorted + [node])
  {
    var left := affected - Elems(sorted);
    assert affected - Elems(sorted + [node]) == left - {node};
    forall v | v in affected
      ensures indegree[v] == CountIn(Get(reverse, v), left - {node}) + multiset(Get(deps, node))[v]
    {
      CountWithout(Get(reverse, v), left, node);
      Listed(deps, reverse, node, v);
    }
    CountZero(Get(reverse, node), left);
    TakenInOrder(deps, reverse, affected, sorted, node);
  }

  lemma TakenInOrder<V(!new)>(deps: Multimap<V>, reverse: Multimap<V>, affected: set<V>, sorted: seq<V>, node: V)
    requires Mirrored(deps, reverse) && Sorting(deps, affected, sorted)
    requires forall u :: u in Get(reverse, node) ==> u !in affected - Elems(sorted)
    requires node in affected && node !in sorted
    ensures Sorting(deps, affected, sorted + [node])
  {
    var g, more := Among(deps, affected), sorted + [node];
    forall i, u | 0 <= i < |more| && u in g && more[i] in Succ(g, u) ensures u in more[..i] {
      if i < |sorted| {
        assert more[..i] == sorted[..i];
      } else {
        Listed(deps, reverse, u, node);
        assert more[..i] == sorted;
      }
    }
  }

  // One decrement; at zero the observer joins the queue.
  lemma Relax<V(!new)>(reverse: Multimap<V>, affected: set<V>, sorted: seq<V>, owed: multiset<V>,
                       queue: seq<V>, indegree: map<V, int>, v: V)
    requires Counting(reverse, affected, sorted, owed + multiset{v}, indegree) && v in affected
    requires Queued(affected, sorted, queue, indegree)
    ensures
      var left := indegree[v] - 1;
      && Counting(reverse, affected, sorted, owed, indegree[v := left])
      && Queued(affected, sorted, if left == 0 then queue + [v] else queue, indegree[v := left])
  {
    var left := indegree[v] - 1;
    assert indegree[v] > 0 && v !in sorted + queue;
    assert sorted + (queue + [v]) == (sorted + queue) + [v];
  }

  // An observer that is not affected does not count.
  lemma Skip<V(!new)>(reverse: Multimap<V>, affected: set<V>, sorted: seq<V>, owed: multiset<V>, indegree: map<V, int>, v: V)
    requires Counting(reverse, affected, sorted, owed + multiset{v}, indegree) && v !in affected
    ensures Counting(reverse, affected, sorted, owed, indegree)
  {
  }

  /** The number of affected subjects of `observer`, by listing. */
  method CountSubjects<V(!new, ==)>(reverse: Multimap<V>, isObserver: V -> bool, affected: seq<V>, observer: V) returns (n: nat)
    requires forall v :: v in affected ==> isObserver(v)
    ensures n == CountIn(Get(reverse, observer), Elems(affected))
  {
    n := 0;
    var subjects := Get(reverse, observer);
    for i := 0 to |subjects|
      invariant n == CountIn(subjects[..i], Elems(affected))
    {
      assert subjects[..i + 1][..i] == subjects[..i];
      if isObserver(subjects[i]) && subjects[i] in affected {
        n := n + 1;
      }
    }
    assert subjects[..|subjects|] == subjects;
  }

  /** The counters to start with, and the queue of those that wait for nobody. */
  method InitialQueue<V(!new, ==)>(reverse: Multimap<V>, isObserver: V -> bool, affected: seq<V>)
      returns (indegree: map<V, int>, queue: seq<V>)
    requires NoDup(affected) && forall v :: v in affected ==> isObserver(v)
    ensures Counting(reverse, Elems(affected), [], multiset{}, indegree)
    ensures Queued(Elems(affected), [], queue, indegree)
  {
    indegree := map[];
    for i := 0 to |affected|
      invariant indegree.Keys == Elems(affected[..i])
      invariant forall v :: v in indegree ==> indegree[v] == CountIn(Get(reverse, v), Elems(affected))
    {
      var n := CountSubjects(reverse, isObserver, affected, affected[i]);
      indegree := indegree[affected[i] := n];
    }
    assert affected[..|affected|] == affected;
    queue := [];
    for i := 0 to |affected|
      invariant NoDup(queue)
      invariant forall v :: v in queue <==> v in affected[..i] && indegree[v] == 0
    {
      assert affected[i] in Elems(affected);
      assert affected[i] !in affected[..i];
      if indegree[affected[i]] == 0 {
        queue := queue + [affected[i]];
      }
    }
    assert Elems(affected) - Elems([]) == Elems(affected);
    assert [] + queue == queue;
  }

  lemma LeftWaitsForLeft<V(!new)>(deps: Multimap<V>, reverse: Multimap<V>, affected: set<V>, sorted: seq<V>, indegree: map<V, int>, v: V)
    requires Mirrored(deps, reverse) && Counting(reverse, affected, sorted, multiset{}, indegree)
    requires Queued(affected, sorted, [], indegree) && v in affected - Elems(sorted)
    ensures HasPredecessorIn(Among(deps, affected), affected - Elems(sorted), v)
  {
    var left := affected - Elems(sorted);
    assert sorted + [] == sorted;
    CountZero(Get(reverse, v), left);
    var u :| u in Get(reverse, v) && u in left;
    Listed(deps, reverse, u, v);
    assert v in Succ(Among(deps, affected), u);
  }

  /** Kahn's algorithm; what a cycle among the affected holds back is left out. */
  method TopoSort<V(!new, ==)>(deps: Multimap<V>, reverse: Multimap<V>, isSubject: V -> bool, isObserver: V -> bool, affected: seq<V>)
      returns (sorted: seq<V>)
    requires Mirrored(deps, reverse) && NoDup(affected)
    requires (forall s :: s in deps ==> isSubject(s)) && forall v :: v in affected ==> isObserver(v)
    ensures Sorting(deps, Elems(affected), sorted)
    ensures forall v :: v in sorted <==> v in affected && !Tangled(Among(deps, Elems(affected)), v)
  {
    ghost var nodes := Elems(affected);
    hide Counting, Queued, Sorting, Mirrored, Get, Tangled, Among;
    var indegree, queue := InitialQueue(reverse, isObserver, affected);
    sorted := [];
    NothingSorted(deps, nodes);
    while queue != []
      invariant Counting(reverse, nodes, sorted, multiset{}, indegree)
      invariant Queued(nodes, sorted, queue, indegree) && Sorting(deps, nodes, sorted)
      decreases |nodes| - |sorted|
    {
      var node := queue[0];
      QueueIsNew(nodes, sorted, queue, indegree);
      Take(deps, reverse, nodes, sorted, indegree, node);
      queue := queue[1..];
      ghost var before := sorted;
      sorted := sorted + [node];
      SortedIsBounded(deps, nodes, sorted);
      if isSubject(node) {
        indegree, queue := RelaxAll(reverse, Get(deps, node), affected, sorted, indegree, queue);
      } else {
        NotASubject(deps, node);
        assert multiset(Get(deps, node)) == multiset{};
      }
    }
    NoneElse(deps, reverse, affected, sorted, indegree);
  }

  lemma NothingSorted<V(!new)>(deps: Multimap<V>, nodes: set<V>)
    ensures Sorting(deps, nodes, [])
  {
  }

  lemma SortedIsBounded<V(!new)>(deps: Multimap<V>, nodes: set<V>, sorted: seq<V>)
    requires Sorting(deps, nodes, sorted)
    ensures |sorted| <= |nodes|
  {
    NoDupSize(sorted);
    SubsetSize(Elems(sorted), nodes);
  }

  lemma NoneElse<V(!new)>(deps: Multimap<V>, reverse: Multimap<V>, affected: seq<V>, sorted: seq<V>, indegree: map<V, int>)
    requires Mirrored(deps, reverse) && Counting(reverse, Elems(affected), sorted, multiset{}, indegree)
    requires Queued(Elems(affected), sorted, [], indegree) && Sorting(deps, Elems(affected), sorted)
    ensures forall v :: v in sorted <==> v in affected && !Tangled(Among(deps, Elems(affected)), v)
  {
    var nodes := Elems(affected);
    var g, left := Among(deps, nodes), nodes - Elems(sorted);
    forall v | v in left ensures HasPredecessorIn(g, left, v) {
      LeftWaitsForLeft(deps, reverse, nodes, sorted, indegree, v);
    }
    hide Tangled, InOrder, Among, Counting, Queued, Mirrored;
    forall v ensures v in sorted <==> v in affected && !Tangled(g, v) {
      assert v in sorted ==> v in Elems(sorted);
      if v in affected {
        KahnLeftover(g, sorted, left, v);
      }
    }
  }

  /** Tell every observer of the node just sorted. */
  method RelaxAll<V(!new, ==)>(ghost reverse: Multimap<V>, observers: seq<V>, affected: seq<V>, ghost sorted: seq<V>,
                               indegree0: map<V, int>, queue0: seq<V>)
      returns (indegree: map<V, int>, queue: seq<V>)
    requires Counting(reverse, Elems(affected), sorted, multiset(observers), indegree0)
    requires Queued(Elems(affected), sorted, queue0, indegree0)
    ensures Counting(reverse, Elems(affected), sorted, multiset{}, indegree)
    ensures Queued(Elems(affected), sorted, queue, indegree)
  {
    indegree, queue := indegree0, queue0;
    ghost var nodes := Elems(affected);
    assert nodes == Elems(affected);
    assert indegree.Keys == nodes;
    assert observers[0..] == observers;
    hide Counting, Queued;
    for i := 0 to |observers|
      invariant Counting(reverse, nodes, sorted, multiset(observers[i..]), indegree) && indegree.Keys == nodes
      invariant Queued(nodes, sorted, queue, indegree)
    {
      var observer := observers[i];
      assert observers[i..] == [observer] + observers[i + 1..];
      assert multiset(observers[i..]) == multiset(observers[i + 1..]) + multiset{observer};
      if observer in affected {
        Relax(reverse, nodes, sorted, multiset(observers[i + 1..]), queue, indegree, observer);
        indegree := indegree[observer := indegree[observer] - 1];
        if indegree[observer] == 0 {
          queue := queue + [observer];
        }
      } else {
        Skip(reverse, nodes, sorted, multiset(observers[i + 1..]), indegree, observer);
      }
    }
    assert observers[|observers|..] == [];
  }

  // ---- The manager ----

  /** A call of `update` on `observer`, about `changed`. */
  datatype Update<V> = Update(observer: V, changed: V)

  function UpdatesOf<V>(sorted: seq<V>, changed: V): seq<Update<V>> {
    seq(|sorted|, i requires 0 <= i < |sorted| => Update(sorted[i], changed))
  }

  /**
   `affected` is what the change reaches; `sorted` has each of these that no cycle among them holds
   back, once, after those of them it is registered with.
   */
  ghost predicate Propagation<V(!new)>(deps: Multimap<V>, changed: V, affected: set<V>, sorted: seq<V>) {
    && (forall v :: v in affected <==> Affected(GraphOf(deps), changed, v))
    && Sorting(deps, affected, sorted)
    && (forall v :: v in sorted <==> v in affected && !Tangled(Among(deps, affected), v))
  }

  ghost predicate Acyclic<V(!new)>(g: Graph<V>) {
    forall v :: !OnCycle(g, v)
  }

  lemma AmongIsPart<V(!new)>(deps: Multimap<V>, nodes: set<V>, u: V, v: V)
    requires Reach(Among(deps, nodes), u, v)
    ensures Reach(GraphOf(deps), u, v)
  {
    var p :| IsPath(Among(deps, nodes), p) && p[0] == u && p[|p| - 1] == v;
    forall i | 0 <= i < |p| - 1 ensures p[i + 1] in Succ(GraphOf(deps), p[i]) {
      SuccOfGraph(deps, p[i]);
    }
    assert IsPath(GraphOf(deps), p);
  }

  lemma AcyclicIsUntangled<V(!new)>(deps: Multimap<V>, nodes: set<V>, v: V)
    requires Acyclic(GraphOf(deps))
    ensures !Tangled(Among(deps, nodes), v)
  {
    forall c ensures !OnCycle(Among(deps, nodes), c) {
      forall w | w in Succ(Among(deps, nodes), c) ensures !Reach(Among(deps, nodes), w, c) {
        SuccOfGraph(deps, c);
        assert !OnCycle(GraphOf(deps), c);
        if Reach(Among(deps, nodes), w, c) {
          AmongIsPart(deps, nodes, w, c);
        }
      }
    }
  }

  // A way from an affected node leads through affected nodes only.
  lemma WayIsAffected<V(!new)>(deps: Multimap<V>, changed: V, affected: set<V>, p: seq<V>)
    requires forall v :: v in affected <==> Affected(GraphOf(deps), changed, v)
    requires IsPath(GraphOf(deps), p) && p[0] in affected
    ensures IsPath(Among(deps, affected), p)
  {
    var g := GraphOf(deps);
    forall i | 0 <= i < |p| ensures p[i] in affected {
      SubPath(g, p, 0, i);
      var w :| w in Succ(g, changed) && Reach(g, w, p[0]);
      ReachTrans(g, w, p[0], p[i]);
    }
    forall i | 0 <= i < |p| - 1 ensures p[i + 1] in Succ(Among(deps, affected), p[i]) {
      SuccOfGraph(deps, p[i]);
    }
  }

  /** On an acyclic graph every observer the change reaches is updated, exactly once. */
  lemma EachOnce<V(!new)>(deps: Multimap<V>, changed: V, affected: set<V>, sorted: seq<V>, v: V)
    requires Acyclic(GraphOf(deps)) && Propagation(deps, changed, affected, sorted)
    ensures multiset(UpdatesOf(sorted, changed))[Update(v, changed)]
         == if Affected(GraphOf(deps), changed, v) then 1 else 0
  {
    AcyclicIsUntangled(deps, affected, v);
    OncePerEntry(sorted, changed, v);
  }

  lemma {:induction false} OncePerEntry<V(!new)>(sorted: seq<V>, changed: V, v: V)
    requires NoDup(sorted)
    ensures multiset(UpdatesOf(sorted, changed))[Update(v, changed)] == if v in sorted then 1 else 0
  {
    if sorted != [] {
      var k := |sorted| - 1;
      OncePerEntry(sorted[..k], changed, v);
      assert UpdatesOf(sorted, changed) == UpdatesOf(sorted[..k], changed) + [Update(sorted[k], changed)];
      assert sorted == sorted[..k] + [sorted[k]];
    }
  }

  /** No observer is updated before an affected one that it depends on, directly or through others. */
  lemma CausesFirst<V(!new)>(deps: Multimap<V>, changed: V, affected: set<V>, sorted: seq<V>, u: V, i: nat)
    requires Propagation(deps, changed, affected, sorted) && i < |sorted|
    requires Affected(GraphOf(deps), changed, u) && Reach(GraphOf(deps), u, sorted[i])
    ensures u in sorted[..i + 1]
  {
    var p :| IsPath(GraphOf(deps), p) && p[0] == u && p[|p| - 1] == sorted[i];
    WayIsAffected(deps, changed, affected, p);
    AncestorsFirst(Among(deps, affected), sorted, p, i);
  }

  ghost predicate AllObservers<V(!new)>(deps: Multimap<V>, isObserver: V -> bool) {
    forall s, o :: Mult(deps, s, o) > 0 ==> isObserver(o)
  }

  lemma StillAllObservers<V(!new)>(m: Multimap<V>, r: Multimap<V>, isObserver: V -> bool, k: V, v: V, d: int)
    requires AllObservers(m, isObserver) && Shifted(m, r, k, v, d) && (d > 0 ==> isObserver(v))
    ensures AllObservers(r, isObserver)
  {
    forall s, o | Mult(r, s, o) > 0 ensures isObserver(o) {
      assert Mult(m, s, o) >= 0;
    }
  }

  lemma ObserversAreObservers<V(!new)>(deps: Multimap<V>, isObserver: V -> bool, visited: seq<V>)
    requires SomeObservers(deps, visited) && AllObservers(deps, isObserver)
    ensures forall v :: v in visited ==> isObserver(v)
  {
    forall v | v in visited ensures isObserver(v) {
      assert v in Elems(visited);
      var s :| s in deps && v in deps[s];
      assert v in multiset(deps[s]);
      assert Mult(deps, s, v) > 0;
    }
  }

  class DagChangeManager<V(!new, ==)> {
    const isSubject: V -> bool
    const isObserver: V -> bool
    var deps: Multimap<V>
    var reverseDeps: Multimap<V>
    var updates: seq<Update<V>>

    ghost predicate Valid()
      reads this
    {
      && Mirrored(deps, reverseDeps) && NoEmptyEntry(deps) && NoEmptyEntry(reverseDeps)
      && (forall s :: s in deps ==> isSubject(s))
      && AllObservers(deps, isObserver)
    }

    constructor (isSubject: V -> bool, isObserver: V -> bool)
      ensures Valid() && deps == map[] && reverseDeps == map[] && updates == []
      ensures this.isSubject == isSubject && this.isObserver == isObserver
    {
      this.isSubject := isSubject;
      this.isObserver := isObserver;
      deps, reverseDeps, updates := map[], map[], [];
    }

    method Register(subject: V, observer: V)
      requires Valid() && isSubject(subject) && isObserver(observer)
      modifies this
      ensures Valid() && updates == old(updates)
      ensures Shifted(old(deps), deps, subject, observer, 1)
      ensures deps == old(deps)[subject := Get(old(deps), subject) + [observer]]
      ensures reverseDeps == old(reverseDeps)[observer := Get(old(reverseDeps), observer) + [subject]]
    {
      hide Mirrored, Shifted, NoEmptyEntry, AllObservers;
      ghost var before := deps;
      deps, reverseDeps := AddPair(deps, reverseDeps, subject, observer);
      StillAllObservers(before, deps, isObserver, subject, observer, 1);
    }

    /** Take back one registration, if there is one. */
    method Unregister(subject: V, observer: V)
      requires Valid()
      modifies this
      ensures Valid() && updates == old(updates)
      ensures Shifted(old(deps), deps, subject, observer, if Mult(old(deps), subject, observer) > 0 then -1 else 0)
    {
      hide Mirrored, Shifted, NoEmptyEntry, AllObservers;
      ghost var before := deps;
      deps, reverseDeps := RemovePair(deps, reverseDeps, subject, observer);
      StillAllObservers(before, deps, isObserver, subject, observer, if Mult(before, subject, observer) > 0 then -1 else 0);
    }

    /** Take back every registration with the subject. */
    method UnregisterAll(subject: V)
      requires Valid()
      modifies this
      ensures Valid() && updates == old(updates)
      ensures Detached(old(deps), deps, subject)
    {
      deps, reverseDeps := RemoveKey(deps, reverseDeps, subject);
    }

    /** Pass a change on. */
    method Notify(changed: V)
      requires Valid()
      modifies this
      ensures Valid() && deps == old(deps) && reverseDeps == old(reverseDeps)
      ensures exists affected, sorted ::
        Propagation(deps, changed, affected, sorted) && updates == old(updates) + UpdatesOf(sorted, changed)
    {
      hide Mirrored, NoEmptyEntry, Sorting, Tangled, Among, Affected, Everyone;
      assert SomeObservers(deps, []);
      var affected := CollectAffected(deps, isSubject, changed, []);
      ObserversAreObservers(deps, isObserver, affected);
      assert [] <= affected;
      forall v ensures v in Elems(affected) <==> Affected(GraphOf(deps), changed, v) {
        CollectedExactly(deps, changed, affected, v);
      }
      var sorted := TopoSort(deps, reverseDeps, isSubject, isObserver, affected);
      assert Propagation(deps, changed, Elems(affected), sorted);
      for i := 0 to |sorted|
        invariant deps == old(deps) && reverseDeps == old(reverseDeps)
        invariant updates == old(updates) + UpdatesOf(sorted[..i], changed)
      {
        assert UpdatesOf(sorted[..i + 1], changed) == UpdatesOf(sorted[..i], changed) + [Update(sorted[i], changed)];
        updates := updates + [Update(sorted[i], changed)];
      }
      assert sorted[..|sorted|] == sorted;
    }
  }
}
