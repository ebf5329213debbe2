/** The iterative form of Tarjan's algorithm: one search, with an explicit stack of frames. */
module Tarjan {
  import opened Digraphs
  import opened SccSearch

  datatype Phase = Visiting | PostVisit

  /** One entry of the explicit call stack. */
  datatype Frame<V> = Frame(node: V, neighbourIdx: nat, phase: Phase)

  /** The variables of the algorithm. */
  class TarjanState<V(!new, ==)> {
    const graph: Graph<V>
    const sorted: set<V> -> seq<V>
    var indexCounter: nat
    var stack: seq<V>
    var lowlinks: map<V, nat>
    var index: map<V, nat>
    var onStack: set<V>
    var result: seq<set<V>>
    var sortedCache: map<V, seq<V>>

    ghost predicate Valid()
      reads this
    {
      && onStack == Elems(stack)
      && (forall v :: v in index ==> index[v] < indexCounter)
      && (forall v :: v in sortedCache ==> sortedCache[v] == Neighbours(graph, sorted, v))
    }

    // The bookkeeping is that of a search whose open calls are `ch`.
    ghost predicate At(ch: Chain<V>)
      reads this
    {
      && Valid() && Lists(sorted)
      && stack == Flat(ch)
      && Inv(graph, sorted, index, lowlinks, result, ch)
    }

    constructor (graph: Graph<V>, sorted: set<V> -> seq<V>)
      requires Lists(sorted)
      ensures this.graph == graph && this.sorted == sorted
      ensures At(Bottom) && index == map[] && result == []
    {
      this.graph, this.sorted := graph, sorted;
      indexCounter, stack, onStack, result := 0, [], {}, [];
      lowlinks, index, sortedCache := map[], map[], map[];
    }

    method GetSortedNeighbours(node: V) returns (neighbours: seq<V>)
      requires Valid()
      modifies `sortedCache
      ensures Valid() && neighbours == Neighbours(graph, sorted, node)
    {
      if node !in sortedCache {
        sortedCache := sortedCache[node := sorted(Succ(graph, node))];
      }
      neighbours := sortedCache[node];
    }

    // Pops the stack down to and including `root`, which sits at height `k`.
    method ExtractScc(root: V, ghost k: nat)
      requires NoDup(stack) && onStack == Elems(stack)
      requires k < |stack| && stack[k] == root
      modifies `stack, `onStack, `result
      ensures stack == old(stack)[..k] && onStack == Elems(stack)
      ensures result == old(result) + [Elems(old(stack)[k..])]
    {
      var scc: set<V> := {};
      while true
        invariant k < |stack| <= |old(stack)| && stack == old(stack)[..|stack|]
        invariant onStack == Elems(stack) && result == old(result)
        invariant scc == Elems(old(stack)[|stack|..])
        decreases |stack|
      {
        ghost var above := old(stack)[|stack|..];
        var w := stack[|stack| - 1];
        stack, onStack := stack[..|stack| - 1], onStack - {w};
        scc := scc + {w};
        assert old(stack)[|stack|..] == [w] + above;
        assert scc == Elems(old(stack)[|stack|..]);
        if w == root {
          assert old(stack)[|stack|] == root == old(stack)[k];
          assert |stack| == k;
          break;
        }
      }
      result := result + [scc];
    }

    method InitializeNode(node: V, ghost ch: Chain<V>)
      requires At(ch) && node !in index
      requires ch.Call? ==> ch.pos < |Neighbours(graph, sorted, ch.node)| && Next(graph, sorted, ch) == node
      modifies `index, `lowlinks, `indexCounter, `stack, `onStack
      ensures At(Visit(ch, node))
      ensures index.Keys == old(index).Keys + {node}
    {
      hide Inv;
      VisitKeeps(graph, sorted, index, lowlinks, result, ch, node, indexCounter);
      index, lowlinks := index[node := indexCounter], lowlinks[node := indexCounter];
      indexCounter := indexCounter + 1;
      stack := stack + [node];
      onStack := onStack + {node};
    }
  }

  // The frames wait for their children: each was pushed with the index of the child under way.
  ghost predicate Waiting<V(!new)>(frames: seq<Frame<V>>, ch: Chain<V>) {
    match ch
    case Bottom => frames == []
    case Call(n, _, pos, caller) =>
      && frames != [] && frames[|frames| - 1] == Frame(n, pos, PostVisit)
      && Waiting(frames[..|frames| - 1], caller)
  }

  // The call under `f` was interrupted for a child that has meanwhile become a component.
  ghost predicate ChildDropped<V(!new)>(state: TarjanState<V>, f: Frame<V>, ch: Chain<V>)
    reads state
  {
    && ch.Call? && f.node == ch.node && ch.pos == f.neighbourIdx + 1
    && ch.pos <= |Neighbours(state.graph, state.sorted, ch.node)|
    && ch.node in state.lowlinks
    && Neighbours(state.graph, state.sorted, ch.node)[f.neighbourIdx] in state.lowlinks
    && state.lowlinks[ch.node] <= state.lowlinks[Neighbours(state.graph, state.sorted, ch.node)[f.neighbourIdx]]
  }

  // The innermost call of `ch` is over and leaves its segment to its caller.
  ghost predicate ChildReturned<V(!new)>(state: TarjanState<V>, ch: Chain<V>)
    reads state
  {
    && Finished(state.graph, state.sorted, ch) && ch.caller.Call?
    && ch.node in state.index && ch.node in state.lowlinks && ch.caller.node in state.lowlinks
    && state.lowlinks[ch.node] < state.index[ch.node]
  }

  // How the explicit call stack stands for the open calls between two rounds of the loop.
  ghost predicate Stands<V(!new)>(state: TarjanState<V>, frames: seq<Frame<V>>, ch: Chain<V>)
    reads state
  {
    if frames == [] then ch == Bottom else
      var f, below := frames[|frames| - 1], frames[..|frames| - 1];
      match f.phase
      case Visiting => ch.Call? && f.node == ch.node && f.neighbourIdx == ch.pos == 0 && Waiting(below, ch.caller)
      case PostVisit =>
        || (ChildReturned(state, ch) && Waiting(frames, ch.caller))
        || (ChildDropped(state, f, ch) && Waiting(below, ch.caller))
  }

  // Post-visit: the low link of a child that has returned counts for its parent.
  method FinishChild<V(!new, ==)>(state: TarjanState<V>, frame: Frame<V>, neighbours: seq<V>,
                                  ghost below: seq<Frame<V>>, ghost ch: Chain<V>) returns (ghost ch': Chain<V>)
    requires state.At(ch) && frame.phase == PostVisit
    requires neighbours == Neighbours(state.graph, state.sorted, frame.node)
    requires Stands(state, below + [frame], ch)
    modifies state`lowlinks
    ensures state.At(ch') && ch'.Call?
    ensures ch'.node == frame.node && ch'.pos == frame.neighbourIdx + 1 <= |neighbours|
    ensures Waiting(below, ch'.caller)
  {
    hide Inv;
    ghost var frames := below + [frame];
    assert frames[..|frames| - 1] == below;
    CallFacts(state.graph, state.sorted, state.index, state.lowlinks, state.result, ch);
    var node, child := frame.node, neighbours[frame.neighbourIdx];
    if ChildReturned(state, ch) && Waiting(frames, ch.caller) {
      MergeKeeps(state.graph, state.sorted, state.index, state.lowlinks, state.result, ch);
      MergeFlat(ch);
      assert child == ch.node;
      ch' := Merge(ch);
    } else {
      ch' := ch;
      assert state.lowlinks[node := state.lowlinks[node]] == state.lowlinks;
    }
    state.lowlinks := state.lowlinks[node := Min(state.lowlinks[node], state.lowlinks[child])];
  }

  // The next neighbour `w` has an index already, which counts if `w` is still on the stack.
  method PassVisited<V(!new, ==)>(state: TarjanState<V>, node: V, w: V, ghost ch: Chain<V>)
    requires state.At(ch) && ch.Call? && ch.node == node
    requires ch.pos < |Neighbours(state.graph, state.sorted, node)| && Next(state.graph, state.sorted, ch) == w
    requires w in state.index
    modifies state`lowlinks
    ensures state.At(Advance(ch))
  {
    hide Inv;
    CallFacts(state.graph, state.sorted, state.index, state.lowlinks, state.result, ch);
    ghost var low := state.lowlinks;
    if w in state.onStack {
      state.lowlinks := state.lowlinks[node := Min(state.lowlinks[node], state.index[w])];
    }
    assert Lowered(state.graph, state.sorted, state.index, low, ch, state.lowlinks);
    AdvanceKeeps(state.graph, state.sorted, state.index, low, state.result, ch, state.lowlinks);
  }

  // All neighbours are dealt with: a node that still has its own index as low link is a root.
  method FinishNode<V(!new, ==)>(state: TarjanState<V>, node: V, ghost frames: seq<Frame<V>>, ghost ch: Chain<V>)
      returns (ghost ch': Chain<V>)
    requires state.At(ch) && Finished(state.graph, state.sorted, ch) && node == ch.node
    requires Waiting(frames, ch.caller)
    modifies state`stack, state`onStack, state`result
    ensures state.At(ch') && Stands(state, frames, ch')
  {
    hide Inv;
    CallFacts(state.graph, state.sorted, state.index, state.lowlinks, state.result, ch);
    if state.lowlinks[node] == state.index[node] {
      DropKeeps(state.graph, state.sorted, state.index, state.lowlinks, state.result, ch);
      state.ExtractScc(node, |Flat(ch.caller)|);
      ch' := Drop(ch);
    } else {
      ch' := ch;
    }
  }

  // What an open call knows about its node and its caller.
  lemma CallFacts<V(!new)>(g: Graph<V>, list: set<V> -> seq<V>, index: map<V, nat>, low: map<V, nat>,
                           result: seq<set<V>>, ch: Chain<V>)
    requires Inv(g, list, index, low, result, ch) && ch.Call?
    ensures NoDup(Flat(ch)) && ch.segment != [] && ch.segment[0] == ch.node
    ensures index.Keys == low.Keys
    ensures ch.node in index && low[ch.node] <= index[ch.node]
    ensures low[ch.node] < index[ch.node] ==> ch.caller.Call?
    ensures ch.caller.Call? ==>
      && ch.caller.node in index
      && low[ch.caller.node] <= index[ch.caller.node] < index[ch.node]
      && ch.caller.pos < |Neighbours(g, list, ch.caller.node)| && Next(g, list, ch.caller) == ch.node
  {
    OrderedNoDup(index, ch);
    OpenFacts(g, list, index, low, ch);
  }

  lemma OpenFacts<V(!new)>(g: Graph<V>, list: set<V> -> seq<V>, index: map<V, nat>, low: map<V, nat>, ch: Chain<V>)
    requires Lists(list) && Open(g, list, index, low, ch) && ch.Call?
    ensures ch.segment != [] && ch.segment[0] == ch.node
    ensures ch.node in low && ch.node in index && low[ch.node] <= index[ch.node]
    ensures low[ch.node] < index[ch.node] ==> ch.caller.Call?
    ensures ch.caller.Call? ==>
      && ch.caller.node in low && ch.caller.node in index
      && low[ch.caller.node] <= index[ch.caller.node] < index[ch.node]
      && ch.caller.pos < |Neighbours(g, list, ch.caller.node)| && Next(g, list, ch.caller) == ch.node
  {
    if low[ch.node] < index[ch.node] {
      MergeReaches(g, list, index, low, ch);
    }
    if ch.caller.Call? {
      assert Ordered(index, ch.caller) && LowExact(g, list, index, low, ch.caller);
      assert ch.caller.segment[0] in Flat(ch.caller);
    }
  }

  lemma {:induction false} OrderedNoDup<V(!new)>(index: map<V, nat>, ch: Chain<V>)
    requires Ordered(index, ch)
    ensures NoDup(Flat(ch))
  {
    if ch.Call? {
      OrderedNoDup(index, ch.caller);
      var k := |Flat(ch.caller)|;
      forall i, j | 0 <= i < j < |Flat(ch)| ensures Flat(ch)[i] != Flat(ch)[j] {
        if i < k <= j {
          assert Flat(ch)[i] in Flat(ch.caller) && Flat(ch)[j] in ch.segment;
        } else if k <= i {
          assert Flat(ch)[i] == ch.segment[i - k] && Flat(ch)[j] == ch.segment[j - k];
        }
      }
    }
  }

  lemma NeighboursAreNodes<V(!new)>(g: Graph<V>, list: set<V> -> seq<V>, v: V, w: V)
    requires Lists(list) && w in Neighbours(g, list, v)
    ensures w in Nodes(g)
  {
    assert w in Succ(g, v);
  }

  method StrongConnect<V(!new, ==)>(state: TarjanState<V>, start: V)
    requires state.At(Bottom)
    requires start in Nodes(state.graph) && start !in state.index
    modifies state
    ensures state.At(Bottom)
    ensures old(state.index).Keys < state.index.Keys <= old(state.index).Keys + Nodes(state.graph)
    ensures start in state.index
  {
    hide Inv, TarjanState.Valid, Nodes, Succ, Flat, Lists;
    state.InitializeNode(start, Bottom);
    ghost var ch := Visit(Bottom, start);
    var callStack := [Frame(start, 0, Visiting)];

    while callStack != []
      invariant state.At(ch) && Stands(state, callStack, ch)
      invariant old(state.index).Keys < state.index.Keys <= old(state.index).Keys + Nodes(state.graph)
      invariant start in state.index
      decreases Nodes(state.graph) - state.index.Keys, |callStack|
    {
      var frame := callStack[|callStack| - 1];
      assert callStack == callStack[..|callStack| - 1] + [frame];
      callStack := callStack[..|callStack| - 1];
      var node := frame.node;
      var neighbours := state.GetSortedNeighbours(node);
      var neighbourIdx := frame.neighbourIdx;

      if frame.phase == PostVisit {
        ch := FinishChild(state, frame, neighbours, callStack, ch);
        neighbourIdx := neighbourIdx + 1;
      }

      ghost var visited := state.index.Keys;
      var interrupted := false;
      while neighbourIdx < |neighbours|
        invariant state.At(ch) && neighbours == Neighbours(state.graph, state.sorted, node)
        invariant ch.Call? && ch.node == node && ch.pos == neighbourIdx <= |neighbours|
        invariant Waiting(callStack, ch.caller)
        invariant state.index.Keys == visited && !interrupted
      {
        var w := neighbours[neighbourIdx];
        if w !in state.index {
          NeighboursAreNodes(state.graph, state.sorted, node, w);
          callStack := callStack + [Frame(node, neighbourIdx, PostVisit)];
          state.InitializeNode(w, ch);
          callStack := callStack + [Frame(w, 0, Visiting)];
          ch := Visit(ch, w);
          interrupted := true;
          break;
        }
        PassVisited(state, node, w, ch);
        ch := Advance(ch);
        neighbourIdx := neighbourIdx + 1;
      }
      if !interrupted {
        ch := FinishNode(state, node, callStack, ch);
      }
    }
  }
}
