/**
 The depth-first search of Tarjan's algorithm on values: the chain of open calls, what each
 of them has established, and why every step of the search keeps it.
 */
module SccSearch {
  import opened Digraphs

  /**
   The open calls of the search, innermost first. `segment` is the part of the node stack from
   `node` up to the next open call, and the first `pos` neighbours of `node` are dealt with.
   */
  datatype Chain<V> = Bottom | Call(node: V, segment: seq<V>, pos: nat, caller: Chain<V>)

  // The node stack, bottom to top.
  function Flat<V>(ch: Chain<V>): seq<V> {
    match ch
    case Bottom => []
    case Call(_, segment, _, caller) => Flat(caller) + segment
  }

  /** A way to list any set without repetition, in the role of Python's `sorted`. */
  ghost predicate Lists<V(!new)>(list: set<V> -> seq<V>) {
    forall s: set<V> :: NoDup(list(s)) && forall x :: x in list(s) <==> x in s
  }

  function Neighbours<V>(g: Graph<V>, list: set<V> -> seq<V>, v: V): seq<V> {
    list(Succ(g, v))
  }

  // All edges that leave the stack, as far as they have been walked, lead to visited nodes.
  ghost predicate Walked<V>(g: Graph<V>, list: set<V> -> seq<V>, visited: set<V>, ch: Chain<V>) {
    match ch
    case Bottom => true
    case Call(n, segment, pos, caller) =>
      && Walked(g, list, visited, caller)
      && (forall y :: y in segment && y != n ==> Succ(g, y) <= visited)
      && pos <= |Neighbours(g, list, n)|
      && (forall j :: 0 <= j < pos ==> Neighbours(g, list, n)[j] in visited)
  }

  // The edge from `y` in the topmost segment to `z` has been walked.
  ghost predicate Explored<V>(g: Graph<V>, list: set<V> -> seq<V>, ch: Chain<V>, y: V, z: V)
    requires ch.Call? && ch.pos <= |Neighbours(g, list, ch.node)|
  {
    if y == ch.node then z in Neighbours(g, list, y)[..ch.pos] else z in Succ(g, y)
  }

  // A node of the stack that attains the low link of the topmost open call.
  ghost predicate LowWitness<V(!new)>(g: Graph<V>, index: map<V, nat>, low: map<V, nat>, ch: Chain<V>, z: V)
    requires ch.Call?
  {
    && z in Flat(ch) && z in index && ch.node in low
    && low[ch.node] == index[z] && Reach(g, ch.node, z)
  }

  // No walked edge of the topmost segment leads to a stack node of an index below `bound`.
  ghost predicate LowBound<V(!new)>(g: Graph<V>, list: set<V> -> seq<V>, index: map<V, nat>, bound: nat, ch: Chain<V>)
    requires ch.Call? && ch.pos <= |Neighbours(g, list, ch.node)|
  {
    forall y, z :: y in ch.segment && Explored(g, list, ch, y, z) && z in Flat(ch) && z in index ==>
      bound <= index[z]
  }

  // The indices grow along the stack.
  ghost predicate Ordered<V(!new)>(index: map<V, nat>, ch: Chain<V>) {
    match ch
    case Bottom => true
    case Call(n, segment, _, caller) =>
      && Ordered(index, caller)
      && segment != [] && segment[0] == n && NoDup(segment)
      && n in index
      && (forall y :: y in segment ==> y in index && index[n] <= index[y])
      && (forall z :: z in Flat(caller) ==> z in index && index[z] < index[n])
  }

  // Every open call is a neighbour of its caller, and its segment is strongly connected with it.
  ghost predicate Linked<V(!new)>(g: Graph<V>, list: set<V> -> seq<V>, ch: Chain<V>) {
    match ch
    case Bottom => true
    case Call(n, segment, _, caller) =>
      && Linked(g, list, caller)
      && (caller.Call? ==>
            && caller.pos < |Neighbours(g, list, caller.node)|
            && Neighbours(g, list, caller.node)[caller.pos] == n)
      && (forall y :: y in segment ==> Reach(g, n, y) && Reach(g, y, n))
  }

  // The low link of an open call is attained, and no walked edge of its segment goes below it.
  ghost predicate LowExact<V(!new)>(g: Graph<V>, list: set<V> -> seq<V>,
                                    index: map<V, nat>, low: map<V, nat>, ch: Chain<V>) {
    match ch
    case Bottom => true
    case Call(n, segment, pos, caller) =>
      && LowExact(g, list, index, low, caller)
      && n in low && n in index && low[n] <= index[n]
      && pos <= |Neighbours(g, list, n)|
      && (exists z :: LowWitness(g, index, low, ch, z))
      && LowBound(g, list, index, low[n], ch)
  }

  // ---- Frame lemmas: what happens above a chain does not disturb it ----

  lemma {:induction false} WalkedGrows<V>(g: Graph<V>, list: set<V> -> seq<V>, visited: set<V>, more: set<V>, ch: Chain<V>)
    requires Walked(g, list, visited, ch) && visited <= more
    ensures Walked(g, list, more, ch)
  {
    if ch.Call? {
      WalkedGrows(g, list, visited, more, ch.caller);
    }
  }

  lemma {:induction false} OrderedFrame<V(!new)>(index: map<V, nat>, index': map<V, nat>, ch: Chain<V>)
    requires Ordered(index, ch)
    requires forall z :: z in Flat(ch) ==> z in index && z in index' && index'[z] == index[z]
    ensures Ordered(index', ch)
  {
    if ch.Call? {
      forall z | z in Flat(ch.caller) ensures z in Flat(ch) {}
      assert ch.node in ch.segment;
      assert forall z :: z in ch.segment ==> z in Flat(ch);
      OrderedFrame(index, index', ch.caller);
    }
  }

  lemma {:induction false} LowExactFrame<V(!new)>(g: Graph<V>, list: set<V> -> seq<V>,
      index: map<V, nat>, index': map<V, nat>, low: map<V, nat>, low': map<V, nat>, ch: Chain<V>)
    requires Ordered(index, ch) && LowExact(g, list, index, low, ch)
    requires forall z :: z in Flat(ch) ==> z in index && z in index' && index'[z] == index[z]
    requires forall z :: z in Flat(ch) && z in low ==> z in low' && low'[z] == low[z]
    ensures LowExact(g, list, index', low', ch)
  {
    if ch.Call? {
      forall z | z in Flat(ch.caller) ensures z in Flat(ch) {}
      assert ch.segment[0] == ch.node;
      assert ch.node in Flat(ch);
      LowExactFrame(g, list, index, index', low, low', ch.caller);
      var z :| LowWitness(g, index, low, ch, z);
      assert LowWitness(g, index', low', ch, z);
    }
  }

  // ---- Reachability along the chain ----

  lemma {:induction false} ReachesTop<V(!new)>(g: Graph<V>, list: set<V> -> seq<V>, ch: Chain<V>, z: V)
    requires Lists(list) && Linked(g, list, ch) && z in Flat(ch)
    ensures Reach(g, z, ch.node)
  {
    if z !in ch.segment {
      var c := ch.caller;
      ReachesTop(g, list, c, z);
      assert ch.node in list(Succ(g, c.node));
      ReachEdge(g, c.node, ch.node);
      ReachTrans(g, z, c.node, ch.node);
    }
  }

  // ---- The four moves of the search ----

  /** Visiting `w`: a new open call with a segment of its own. */
  function Visit<V>(ch: Chain<V>, w: V): Chain<V> {
    Call(w, [w], 0, ch)
  }

  /** One more neighbour of the innermost open call is dealt with. */
  function Advance<V>(ch: Chain<V>): Chain<V>
    requires ch.Call?
  {
    ch.(pos := ch.pos + 1)
  }

  /** The innermost call returns and leaves its segment to its caller. */
  function Merge<V>(ch: Chain<V>): Chain<V>
    requires ch.Call? && ch.caller.Call?
  {
    Call(ch.caller.node, ch.caller.segment + ch.segment, ch.caller.pos + 1, ch.caller.caller)
  }

  /** The innermost call returns as the root of a component, which leaves the stack. */
  function Drop<V>(ch: Chain<V>): Chain<V>
    requires ch.Call?
  {
    if ch.caller.Bottom? then Bottom else Advance(ch.caller)
  }

  function Union<V>(ss: seq<set<V>>): set<V> {
    if ss == [] then {} else Union(ss[..|ss| - 1]) + ss[|ss| - 1]
  }

  /** A class of mutual reachability. */
  ghost predicate IsScc<V(!new)>(g: Graph<V>, s: set<V>) {
    && s != {}
    && forall u, v :: u in s ==> (v in s <==> Reach(g, u, v) && Reach(g, v, u))
  }

  /** Disjoint components, where a component reaches only itself and those listed before it. */
  ghost predicate Components<V(!new)>(g: Graph<V>, result: seq<set<V>>) {
    if result == [] then true else
      var init, last := result[..|result| - 1], result[|result| - 1];
      && Components(g, init)
      && IsScc(g, last) && last !! Union(init)
      && Closed(g, Union(result))
  }

  ghost predicate Inv<V(!new)>(g: Graph<V>, list: set<V> -> seq<V>,
                               index: map<V, nat>, low: map<V, nat>, result: seq<set<V>>, ch: Chain<V>) {
    && Lists(list)
    && Accounted(index.Keys, low.Keys, Elems(Flat(ch)), Union(result))
    && Open(g, list, index, low, ch)
    && Components(g, result)
    && Closed(g, Union(result))
  }

  // The visited nodes are those on the stack and those in a component.
  ghost predicate Accounted<V>(visited: set<V>, low: set<V>, stack: set<V>, done: set<V>) {
    visited == low == stack + done && stack !! done
  }

  // What holds of the open calls.
  ghost predicate Open<V(!new)>(g: Graph<V>, list: set<V> -> seq<V>,
                                index: map<V, nat>, low: map<V, nat>, ch: Chain<V>) {
    && Ordered(index, ch)
    && Linked(g, list, ch)
    && Walked(g, list, index.Keys, ch)
    && LowExact(g, list, index, low, ch)
  }

  // The next neighbour of the innermost open call.
  function Next<V>(g: Graph<V>, list: set<V> -> seq<V>, ch: Chain<V>): V
    requires ch.Call? && ch.pos < |Neighbours(g, list, ch.node)|
  {
    Neighbours(g, list, ch.node)[ch.pos]
  }

  lemma VisitKeeps<V(!new)>(g: Graph<V>, list: set<V> -> seq<V>, index: map<V, nat>, low: map<V, nat>,
                            result: seq<set<V>>, ch: Chain<V>, w: V, counter: nat)
    requires Inv(g, list, index, low, result, ch)
    requires w !in index && forall v :: v in index ==> index[v] < counter
    requires ch.Call? ==> ch.pos < |Neighbours(g, list, ch.node)| && Next(g, list, ch) == w
    ensures Inv(g, list, index[w := counter], low[w := counter], result, Visit(ch, w))
  {
    var index', low', ch' := index[w := counter], low[w := counter], Visit(ch, w);
    assert Elems(Flat(ch')) == Elems(Flat(ch)) + {w};
    UpdateKeys(index, w, counter);
    UpdateKeys(low, w, counter);
    VisitShape(g, list, index, ch, w, counter);
    VisitLowExact(g, list, index, low, ch, w, counter);
  }

  lemma UpdateKeys<V>(m: map<V, nat>, k: V, n: nat)
    ensures m[k := n].Keys == m.Keys + {k}
  {
  }

  lemma VisitShape<V(!new)>(g: Graph<V>, list: set<V> -> seq<V>, index: map<V, nat>, ch: Chain<V>, w: V, counter: nat)
    requires Ordered(index, ch) && Linked(g, list, ch) && Walked(g, list, index.Keys, ch)
    requires w !in index && (forall v :: v in index ==> index[v] < counter)
    requires forall z :: z in Elems(Flat(ch)) ==> z in index
    requires ch.Call? ==> ch.pos < |Neighbours(g, list, ch.node)| && Next(g, list, ch) == w
    ensures Ordered(index[w := counter], Visit(ch, w)) && Linked(g, list, Visit(ch, w))
    ensures Walked(g, list, index.Keys + {w}, Visit(ch, w))
  {
    assert forall z :: z in Flat(ch) ==> z in Elems(Flat(ch));
    OrderedFrame(index, index[w := counter], ch);
    WalkedGrows(g, list, index.Keys, index.Keys + {w}, ch);
    ReachRefl(g, w);
  }

  lemma VisitLowExact<V(!new)>(g: Graph<V>, list: set<V> -> seq<V>, index: map<V, nat>, low: map<V, nat>,
                               ch: Chain<V>, w: V, counter: nat)
    requires Ordered(index, ch) && LowExact(g, list, index, low, ch) && w !in index
    requires forall z :: z in Elems(Flat(ch)) ==> z in index
    ensures LowExact(g, list, index[w := counter], low[w := counter], Visit(ch, w))
  {
    var index', low', ch' := index[w := counter], low[w := counter], Visit(ch, w);
    assert forall z :: z in Flat(ch) ==> z in Elems(Flat(ch));
    LowExactFrame(g, list, index, index', low, low', ch);
    ReachRefl(g, w);
    assert LowWitness(g, index', low', ch', w);
  }

  lemma InTake<V>(q: seq<V>, k: nat, z: V)
    requires k < |q| && z in q[..k + 1]
    ensures z in q[..k] || z == q[k]
  {
    assert q[..k + 1] == q[..k] + [q[k]];
  }

  // The next neighbour is visited already; its index counts if it is still on the stack.
  lemma AdvanceKeeps<V(!new)>(g: Graph<V>, list: set<V> -> seq<V>, index: map<V, nat>, low: map<V, nat>,
                              result: seq<set<V>>, ch: Chain<V>, low': map<V, nat>)
    requires Inv(g, list, index, low, result, ch)
    requires ch.Call? && ch.pos < |Neighbours(g, list, ch.node)| && Next(g, list, ch) in index
    requires Lowered(g, list, index, low, ch, low')
    ensures Inv(g, list, index, low', result, Advance(ch))
  {
    var ch' := Advance(ch);
    AdvanceLowExact(g, list, index, low, ch, low');
    assert Flat(ch') == Flat(ch) && low'.Keys == low.Keys;
    AdvanceShape(g, list, index, ch);
  }

  lemma AdvanceShape<V(!new)>(g: Graph<V>, list: set<V> -> seq<V>, index: map<V, nat>, ch: Chain<V>)
    requires Ordered(index, ch) && Linked(g, list, ch) && Walked(g, list, index.Keys, ch)
    requires ch.Call? && ch.pos < |Neighbours(g, list, ch.node)| && Next(g, list, ch) in index
    ensures Ordered(index, Advance(ch)) && Linked(g, list, Advance(ch)) && Walked(g, list, index.Keys, Advance(ch))
  {
  }

  ghost predicate Lowered<V(!new)>(g: Graph<V>, list: set<V> -> seq<V>, index: map<V, nat>, low: map<V, nat>,
                                   ch: Chain<V>, low': map<V, nat>)
    requires ch.Call? && ch.pos < |Neighbours(g, list, ch.node)| && Next(g, list, ch) in index
  {
    && ch.node in low
    && var w := Next(g, list, ch);
       low' == if w in Flat(ch) && index[w] < low[ch.node] then low[ch.node := index[w]] else low
  }

  lemma AdvanceLowExact<V(!new)>(g: Graph<V>, list: set<V> -> seq<V>, index: map<V, nat>, low: map<V, nat>,
                                 ch: Chain<V>, low': map<V, nat>)
    requires Lists(list) && Ordered(index, ch) && LowExact(g, list, index, low, ch)
    requires ch.Call? && ch.pos < |Neighbours(g, list, ch.node)| && Next(g, list, ch) in index
    requires Lowered(g, list, index, low, ch, low')
    ensures LowExact(g, list, index, low', Advance(ch))
  {
    var n, w, ch' := ch.node, Next(g, list, ch), Advance(ch);
    assert n in ch.segment && n !in Flat(ch.caller);
    LowExactFrame(g, list, index, index, low, low', ch.caller);
    assert w in list(Succ(g, n));
    ReachEdge(g, n, w);
    if low' == low {
      var z :| LowWitness(g, index, low, ch, z);
      assert LowWitness(g, index, low', ch', z);
    } else {
      assert LowWitness(g, index, low', ch', w);
    }
    AdvanceLowBound(g, list, index, low[n], low'[n], ch);
  }

  lemma AdvanceLowBound<V(!new)>(g: Graph<V>, list: set<V> -> seq<V>, index: map<V, nat>,
                                 bound: nat, bound': nat, ch: Chain<V>)
    requires ch.Call? && ch.pos < |Neighbours(g, list, ch.node)| && Next(g, list, ch) in index
    requires LowBound(g, list, index, bound, ch)
    requires bound' <= bound && (Next(g, list, ch) in Flat(ch) ==> bound' <= index[Next(g, list, ch)])
    ensures LowBound(g, list, index, bound', Advance(ch))
  {
    var n, w, ch' := ch.node, Next(g, list, ch), Advance(ch);
    forall y, z | y in ch'.segment && Explored(g, list, ch', y, z) && z in Flat(ch') && z in index
      ensures bound' <= index[z]
    {
      if y == n {
        InTake(Neighbours(g, list, n), ch.pos, z);
      }
      assert z == w || Explored(g, list, ch, y, z);
    }
  }

  // ---- A call returns into its caller ----

  lemma MergeKeeps<V(!new)>(g: Graph<V>, list: set<V> -> seq<V>, index: map<V, nat>, low: map<V, nat>,
                            result: seq<set<V>>, ch: Chain<V>)
    requires Inv(g, list, index, low, result, ch)
    requires Finished(g, list, ch) && ch.caller.Call?
    requires ch.node in index && ch.node in low && ch.caller.node in low && low[ch.node] < index[ch.node]
    ensures Inv(g, list, index, MergedLow(low, ch), result, Merge(ch))
  {
    MergeFlat(ch);
    MergeOpen(g, list, index, low, ch);
  }

  lemma MergeFlat<V>(ch: Chain<V>)
    requires ch.Call? && ch.caller.Call?
    ensures Flat(Merge(ch)) == Flat(ch)
  {
    var c := ch.caller;
    assert Flat(c.caller) + (c.segment + ch.segment) == (Flat(c.caller) + c.segment) + ch.segment;
  }

  lemma MergeOpen<V(!new)>(g: Graph<V>, list: set<V> -> seq<V>, index: map<V, nat>, low: map<V, nat>, ch: Chain<V>)
    requires Lists(list) && Open(g, list, index, low, ch)
    requires Finished(g, list, ch) && ch.caller.Call?
    requires ch.node in index && ch.node in low && ch.caller.node in low && low[ch.node] < index[ch.node]
    ensures Open(g, list, index, MergedLow(low, ch), Merge(ch))
  {
    MergeReaches(g, list, index, low, ch);
    MergeShape(g, list, index, ch);
    MergeLowExact(g, list, index, low, ch);
  }

  ghost predicate Finished<V>(g: Graph<V>, list: set<V> -> seq<V>, ch: Chain<V>) {
    ch.Call? && ch.pos == |Neighbours(g, list, ch.node)|
  }

  function Min(a: nat, b: nat): nat {
    if b < a then b else a
  }

  function MergedLow<V>(low: map<V, nat>, ch: Chain<V>): (low': map<V, nat>)
    requires ch.Call? && ch.caller.Call? && ch.node in low && ch.caller.node in low
    ensures low'.Keys == low.Keys
  {
    low[ch.caller.node := Min(low[ch.caller.node], low[ch.node])]
  }

  // A call that returns below its own index reaches its caller.
  lemma MergeReaches<V(!new)>(g: Graph<V>, list: set<V> -> seq<V>, index: map<V, nat>, low: map<V, nat>, ch: Chain<V>)
    requires Lists(list) && Ordered(index, ch) && Linked(g, list, ch) && LowExact(g, list, index, low, ch)
    requires ch.Call? && ch.node in index && ch.node in low && low[ch.node] < index[ch.node]
    ensures ch.caller.Call? && Reach(g, ch.node, ch.caller.node) && Reach(g, ch.caller.node, ch.node)
  {
    var z :| LowWitness(g, index, low, ch, z);
    assert z in Flat(ch.caller);
    ReachesTop(g, list, ch.caller, z);
    ReachTrans(g, ch.node, z, ch.caller.node);
    assert ch.node in list(Succ(g, ch.caller.node));
    ReachEdge(g, ch.caller.node, ch.node);
  }

  lemma MergeShape<V(!new)>(g: Graph<V>, list: set<V> -> seq<V>, index: map<V, nat>, ch: Chain<V>)
    requires Lists(list) && Ordered(index, ch) && Linked(g, list, ch) && Walked(g, list, index.Keys, ch)
    requires Finished(g, list, ch) && ch.caller.Call?
    requires Reach(g, ch.node, ch.caller.node) && Reach(g, ch.caller.node, ch.node)
    ensures Ordered(index, Merge(ch)) && Linked(g, list, Merge(ch)) && Walked(g, list, index.Keys, Merge(ch))
  {
    var c := ch.caller;
    MergeLinked(g, list, ch);
    MergeOrdered(index, ch);
    forall y | y in Merge(ch).segment && y != c.node ensures Succ(g, y) <= index.Keys {
      if y == ch.node {
        FinishedSucc(g, list, index.Keys, ch);
      }
    }
  }

  lemma FinishedSucc<V(!new)>(g: Graph<V>, list: set<V> -> seq<V>, visited: set<V>, ch: Chain<V>)
    requires Lists(list) && Finished(g, list, ch) && Walked(g, list, visited, ch)
    ensures Succ(g, ch.node) <= visited
  {
    forall z | z in Succ(g, ch.node) ensures z in visited {
      assert z in Neighbours(g, list, ch.node);
    }
  }

  lemma MergeLinked<V(!new)>(g: Graph<V>, list: set<V> -> seq<V>, ch: Chain<V>)
    requires Linked(g, list, ch) && ch.Call? && ch.caller.Call?
    requires Reach(g, ch.node, ch.caller.node) && Reach(g, ch.caller.node, ch.node)
    ensures Linked(g, list, Merge(ch))
  {
    var n, c := ch.node, ch.caller;
    forall y | y in c.segment + ch.segment ensures Reach(g, c.node, y) && Reach(g, y, c.node) {
      if y in ch.segment {
        ReachTrans(g, c.node, n, y);
        ReachTrans(g, y, n, c.node);
      }
    }
  }

  lemma MergeOrdered<V(!new)>(index: map<V, nat>, ch: Chain<V>)
    requires Ordered(index, ch) && ch.Call? && ch.caller.Call?
    ensures Ordered(index, Merge(ch))
  {
    var n, c, segment := ch.node, ch.caller, ch.caller.segment + ch.segment;
    assert c.segment[0] in Flat(c);
    forall i, j | 0 <= i < j < |segment| ensures segment[i] != segment[j] {
      if i < |c.segment| <= j {
        assert segment[i] in Flat(c) && segment[j] in ch.segment;
      }
    }
  }

  lemma MergeLowExact<V(!new)>(g: Graph<V>, list: set<V> -> seq<V>, index: map<V, nat>, low: map<V, nat>, ch: Chain<V>)
    requires Lists(list) && Ordered(index, ch) && LowExact(g, list, index, low, ch)
    requires Finished(g, list, ch) && ch.caller.Call?
    requires ch.node in index && ch.node in low && ch.caller.node in low && low[ch.node] < index[ch.node]
    requires Reach(g, ch.node, ch.caller.node) && Reach(g, ch.caller.node, ch.node)
    requires ch.caller.pos < |Neighbours(g, list, ch.caller.node)| && Next(g, list, ch.caller) == ch.node
    ensures LowExact(g, list, index, MergedLow(low, ch), Merge(ch))
  {
    var n, c, ch', low' := ch.node, ch.caller, Merge(ch), MergedLow(low, ch);
    MergeFlat(ch);
    assert c.node in c.segment && c.node !in Flat(c.caller);
    LowExactFrame(g, list, index, index, low, low', c.caller);
    if low'[c.node] == low[c.node] {
      var z :| LowWitness(g, index, low, c, z);
      assert LowWitness(g, index, low', ch', z);
    } else {
      var z :| LowWitness(g, index, low, ch, z);
      ReachTrans(g, c.node, n, z);
      assert LowWitness(g, index, low', ch', z);
    }
    MergeLowBound(g, list, index, low[c.node], low[n], ch);
  }

  lemma MergeLowBound<V(!new)>(g: Graph<V>, list: set<V> -> seq<V>, index: map<V, nat>,
                               above: nat, below: nat, ch: Chain<V>)
    requires Lists(list) && Ordered(index, ch)
    requires Finished(g, list, ch) && ch.caller.Call?
    requires ch.caller.pos < |Neighbours(g, list, ch.caller.node)| && Next(g, list, ch.caller) == ch.node
    requires LowBound(g, list, index, below, ch) && LowBound(g, list, index, above, ch.caller)
    requires ch.caller.node in index && above <= index[ch.caller.node]
    ensures LowBound(g, list, index, Min(above, below), Merge(ch))
  {
    var n, c, ch' := ch.node, ch.caller, Merge(ch);
    forall y, z | y in ch'.segment && Explored(g, list, ch', y, z) && z in Flat(ch') && z in index
      ensures Min(above, below) <= index[z]
    {
      assert c.segment[0] in Flat(c);
      if y in ch.segment {
        assert z in Flat(ch);
        assert Explored(g, list, ch, y, z) by {
          if y == n { assert z in Succ(g, n); }
        }
      } else if z in Flat(c) {
        if y == c.node {
          InTake(Neighbours(g, list, y), c.pos, z);
        }
        assert Explored(g, list, c, y, z);
      } else {
        assert z in ch.segment;
      }
    }
  }

  // ---- A call returns as the root of a component ----

  lemma DropKeeps<V(!new)>(g: Graph<V>, list: set<V> -> seq<V>, index: map<V, nat>, low: map<V, nat>,
                           result: seq<set<V>>, ch: Chain<V>)
    requires Inv(g, list, index, low, result, ch)
    requires Finished(g, list, ch) && ch.node in index && ch.node in low && low[ch.node] == index[ch.node]
    ensures Inv(g, list, index, low, result + [Elems(ch.segment)], Drop(ch))
  {
    var scc, result' := Elems(ch.segment), result + [Elems(ch.segment)];
    assert result'[..|result'| - 1] == result;
    DropClosed(g, list, index, low, Union(result), ch);
    DropScc(g, list, Union(result), ch);
    DropAccounted(index, low, Union(result), ch);
    DropOpen(g, list, index, low, ch);
  }

  // Nothing leaves the segment of a root, except into finished components.
  lemma DropClosed<V(!new)>(g: Graph<V>, list: set<V> -> seq<V>, index: map<V, nat>, low: map<V, nat>,
                            done: set<V>, ch: Chain<V>)
    requires Lists(list) && Open(g, list, index, low, ch) && Closed(g, done)
    requires index.Keys == Elems(Flat(ch)) + done
    requires Finished(g, list, ch) && ch.node in index && ch.node in low && low[ch.node] == index[ch.node]
    ensures Closed(g, done + Elems(ch.segment))
  {
    var n := ch.node;
    FinishedSucc(g, list, index.Keys, ch);
    forall y, z | y in ch.segment && z in Succ(g, y) ensures z in done + Elems(ch.segment) {
      assert z in index;
      if z !in done && z !in ch.segment {
        assert z in Elems(Flat(ch));
        assert z in Flat(ch.caller);
        assert Explored(g, list, ch, y, z) by {
          if y == n { assert z in Neighbours(g, list, n); }
        }
        assert false;
      }
    }
  }

  lemma DropScc<V(!new)>(g: Graph<V>, list: set<V> -> seq<V>, done: set<V>, ch: Chain<V>)
    requires Linked(g, list, ch) && ch.Call? && ch.segment != []
    requires Closed(g, done) && Elems(ch.segment) !! done
    requires Closed(g, done + Elems(ch.segment))
    ensures IsScc(g, Elems(ch.segment))
  {
    var scc, n := Elems(ch.segment), ch.node;
    assert ch.segment[0] in scc;
    forall u, v | u in scc ensures v in scc <==> Reach(g, u, v) && Reach(g, v, u) {
      if v in scc {
        ReachTrans(g, u, n, v);
        ReachTrans(g, v, n, u);
      } else if Reach(g, u, v) && Reach(g, v, u) {
        ReachStaysInClosed(g, done + scc, u, v);
        ReachStaysInClosed(g, done, v, u);
      }
    }
  }

  lemma DropAccounted<V(!new)>(index: map<V, nat>, low: map<V, nat>, done: set<V>, ch: Chain<V>)
    requires Ordered(index, ch) && ch.Call?
    requires Accounted(index.Keys, low.Keys, Elems(Flat(ch)), done)
    ensures Accounted(index.Keys, low.Keys, Elems(Flat(Drop(ch))), done + Elems(ch.segment))
    ensures Elems(ch.segment) !! done
  {
    assert Flat(Drop(ch)) == Flat(ch.caller);
    assert Elems(Flat(ch)) == Elems(Flat(ch.caller)) + Elems(ch.segment);
    forall x | x in Flat(ch.caller) ensures x !in ch.segment {}
  }

  lemma DropOpen<V(!new)>(g: Graph<V>, list: set<V> -> seq<V>, index: map<V, nat>, low: map<V, nat>, ch: Chain<V>)
    requires Lists(list) && Open(g, list, index, low, ch) && ch.Call?
    ensures Open(g, list, index, low, Drop(ch))
  {
    if ch.caller.Call? {
      assert Next(g, list, ch.caller) == ch.node && ch.node !in Flat(ch.caller);
      AdvanceShape(g, list, index, ch.caller);
      AdvanceLowExact(g, list, index, low, ch.caller, low);
    }
  }
}
