/**
 The typed change manager: the lists and dictionaries the source keeps, tied to the world of
 bindings, subjects and edges that they stand for.
 */
module DagChangeTyped {

  import opened Multimaps
  import opened TypeBindings
  import opened BindingTheorems

  ghost predicate EdgesAre<V(!new)>(deps: Multimap<V>, edges: map<Edge<V>, nat>) {
    forall s, o :: Mult(deps, s, o) == Count(edges, Edge(s, o))
  }

  ghost predicate EdgesTied<V(!new)>(deps: Multimap<V>, reverse: Multimap<V>, edges: map<Edge<V>, nat>) {
    && Mirrored(deps, reverse) && NoEmptyEntry(deps) && NoEmptyEntry(reverse)
    && EdgesAre(deps, edges)
  }

  ghost predicate AutoIs<V(!new)>(auto: map<V, set<V>>, edges: set<Edge<V>>) {
    forall s, o :: (s in auto && o in auto[s]) <==> Edge(s, o) in edges
  }

  ghost predicate BindingsAre<V(!new)>(bindings: seq<Binding<V>>, bound: multiset<Binding<V>>) {
    multiset(bindings) == bound
  }

  ghost predicate OfType<V(!new)>(typeOf: V -> string, q: seq<V>, t: string) {
    forall s :: s in q ==> typeOf(s) == t
  }

  /** The subjects by type hold each live subject under its own type. */
  ghost predicate SubjectsAre<V(!new)>(typeOf: V -> string, subjects: map<string, seq<V>>, live: multiset<V>) {
    && (forall t :: t in subjects ==> OfType(typeOf, subjects[t], t))
    && (forall s :: live[s] == Tally(Listed(subjects, typeOf(s)), s))
  }

  function Tally<V(==)>(q: seq<V>, v: V): nat {
    multiset(q)[v]
  }

  /** `r` has `d` more of `v` than `q`. */
  ghost predicate Tallied<V(!new)>(q: seq<V>, r: seq<V>, v: V, d: int) {
    forall x :: Tally(r, x) == Tally(q, x) + (if x == v then d else 0)
  }

  lemma TallyMember<V(!new)>(q: seq<V>, v: V)
    ensures v in q <==> Tally(q, v) > 0
  {
    assert v in q <==> v in multiset(q);
  }

  lemma TallyAppend<V(!new)>(q: seq<V>, v: V)
    ensures Tallied(q, q + [v], v, 1)
  {
  }

  function Listed<V>(subjects: map<string, seq<V>>, t: string): seq<V> {
    if t in subjects then subjects[t] else []
  }

  lemma ListedAreLive<V(!new)>(typeOf: V -> string, subjects: map<string, seq<V>>, live: multiset<V>, t: string, s: V)
    requires SubjectsAre(typeOf, subjects, live)
    ensures s in Listed(subjects, t) <==> s in live && typeOf(s) == t
  {
    TallyMember(Listed(subjects, typeOf(s)), s);
  }

  lemma CountPlus<V(!new)>(edges: map<Edge<V>, nat>, more: set<Edge<V>>, e: Edge<V>)
    ensures Count(Plus(edges, more), e) == Count(edges, e) + (if e in more then 1 else 0)
  {
  }

  lemma CountMinus<V(!new)>(edges: map<Edge<V>, nat>, less: set<Edge<V>>, e: Edge<V>)
    ensures Count(Minus(edges, less), e) == Count(edges, e) - (if e in less && Count(edges, e) > 0 then 1 else 0)
  {
  }

  class TypedDagChangeManager<V(!new, ==)> {
    const typeOf: V -> string
    var deps: Multimap<V>
    var reverseDeps: Multimap<V>
    var typeBindings: seq<Binding<V>>
    var subjects: map<string, seq<V>>
    var autoEdges: map<V, set<V>>
    ghost var world: World<V>
    ghost var ops: seq<Op<V>> // the operations called so far

    ghost predicate EdgesOk()
      reads this
    {
      EdgesTied(deps, reverseDeps, world.edges)
    }

    ghost predicate TypesOk()
      reads this
    {
      && AutoIs(autoEdges, world.auto)
      && SubjectsAre(typeOf, subjects, world.live)
      && BindingsAre(typeBindings, world.bound)
    }

    ghost predicate Valid()
      reads this
    {
      EdgesOk() && TypesOk() && world == ApplyAll(typeOf, ops)
    }

    constructor (typeOf: V -> string)
      ensures Valid() && this.typeOf == typeOf && ops == []
    {
      this.typeOf := typeOf;
      deps, reverseDeps, typeBindings, subjects, autoEdges := map[], map[], [], map[], map[];
      world, ops := Initial(), [];
    }

    /** One more edge; the world changes by exactly that. */
    method AddEdge(subject: V, observer: V)
      requires EdgesOk()
      modifies this`deps, this`reverseDeps, this`world
      ensures EdgesOk() && world == Apply(typeOf, old(world), Op.Register(subject, observer))
    {
      hide Mirrored, Shifted, NoEmptyEntry, EdgesAre;
      ghost var before := deps;
      deps, reverseDeps := AddPair(deps, reverseDeps, subject, observer);
      OneMoreEdge(before, deps, world.edges, subject, observer);
      world := Apply(typeOf, world, Op.Register(subject, observer));
    }

    method RemoveEdge(subject: V, observer: V)
      requires EdgesOk()
      modifies this`deps, this`reverseDeps, this`world
      ensures EdgesOk() && world == Apply(typeOf, old(world), Op.Unregister(subject, observer))
    {
      hide Mirrored, Shifted, NoEmptyEntry, EdgesAre;
      ghost var before := deps;
      deps, reverseDeps := RemovePair(deps, reverseDeps, subject, observer);
      OneFewerEdge(before, deps, world.edges, subject, observer);
      world := Apply(typeOf, world, Op.Unregister(subject, observer));
    }

    /** Registration by hand. */
    method Register(subject: V, observer: V)
      requires Valid()
      modifies this`deps, this`reverseDeps, this`world, this`ops
      ensures Valid() && ops == old(ops) + [Op.Register(subject, observer)]
      ensures world == Apply(typeOf, old(world), Op.Register(subject, observer))
    {
      hide EdgesTied, AutoIs, SubjectsAre, BindingsAre, ApplyAll;
      AppliedOneMore(typeOf, ops, Op.Register(subject, observer));
      AddEdge(subject, observer);
      ops := ops + [Op.Register(subject, observer)];
    }

    method Unregister(subject: V, observer: V)
      requires Valid()
      modifies this`deps, this`reverseDeps, this`world, this`ops
      ensures Valid() && ops == old(ops) + [Op.Unregister(subject, observer)]
      ensures world == Apply(typeOf, old(world), Op.Unregister(subject, observer))
    {
      hide EdgesTied, AutoIs, SubjectsAre, BindingsAre, ApplyAll;
      AppliedOneMore(typeOf, ops, Op.Unregister(subject, observer));
      RemoveEdge(subject, observer);
      ops := ops + [Op.Unregister(subject, observer)];
    }

    /** After a proper history, the edges of two different nodes are the ones the history asks for. */
    method HasEdge(subject: V, observer: V) returns (found: bool)
      requires EdgesOk()
      ensures found <==> Count(world.edges, Edge(subject, observer)) > 0
      ensures Valid() && Proper(ops) && subject != observer ==>
        (found <==> Manual(ops, subject, observer) > 0 || (Live(ops, subject) && Bound(ops, typeOf(subject), observer)))
    {
      hide ApplyAll, Manual, Live, Bound, Proper, EdgeMatches, Mirrored;
      if Valid() && Proper(ops) && subject != observer {
        BindingsRefineTheRelation(typeOf, ops, subject, observer);
      }
      var observers := Get(deps, subject);
      assert Mult(deps, subject, observer) == Count(world.edges, Edge(subject, observer));
      assert observer in observers <==> observer in multiset(observers);
      for i := 0 to |observers|
        invariant observer !in observers[..i]
      {
        if observers[i] == observer {
          return true;
        }
      }
      assert observers[..|observers|] == observers;
      found := false;
    }

    method MarkAutoEdge(subject: V, observer: V)
      requires AutoIs(autoEdges, world.auto)
      modifies this`autoEdges, this`world
      ensures AutoIs(autoEdges, world.auto)
      ensures world == old(world).(auto := old(world).auto + {Edge(subject, observer)})
    {
      autoEdges := autoEdges[subject := (if subject in autoEdges then autoEdges[subject] else {}) + {observer}];
      world := world.(auto := world.auto + {Edge(subject, observer)});
    }

    /** Bind the type, and make the edges to its subjects that are there already. */
    method RegisterByType(subjectType: string, observer: V)
      requires Valid()
      modifies this
      ensures Valid() && ops == old(ops) + [Op.RegisterByType(subjectType, observer)]
      ensures world == Apply(typeOf, old(world), Op.RegisterByType(subjectType, observer))
    {
      hide EdgesTied, AutoIs, SubjectsAre, BindingsAre, Apply, BoundTo, ApplyAll;
      AppliedOneMore(typeOf, ops, Op.RegisterByType(subjectType, observer));
      OneMoreBinding(typeBindings, world.bound, Binding(subjectType, observer));
      typeBindings := typeBindings + [Binding(subjectType, observer)];
      ghost var start := world;
      world := world.(bound := world.bound + multiset{Binding(subjectType, observer)});
      var known := Listed(subjects, subjectType);
      BoundToAll(typeOf, start, subjects, subjectType, known, observer);
      ConnectAll(known, observer);
      ops := ops + [Op.RegisterByType(subjectType, observer)];
    }

    /** An edge from each of the subjects that has none to the observer, marked as made by a binding. */
    method ConnectAll(known: seq<V>, observer: V)
      requires EdgesOk() && AutoIs(autoEdges, world.auto)
      modifies this`deps, this`reverseDeps, this`world, this`autoEdges
      ensures EdgesOk() && AutoIs(autoEdges, world.auto)
      ensures world == BoundTo(old(world), known, observer)
      ensures world.live == old(world).live && world.bound == old(world).bound
    {
      hide EdgesTied, AutoIs, Apply, BoundTo;
      ghost var start := world;
      BoundNone(start, observer);
      for i := 0 to |known|
        invariant EdgesOk() && AutoIs(autoEdges, world.auto)
        invariant world == BoundTo(start, known[..i], observer) && world.live == start.live && world.bound == start.bound
      {
        var already := HasEdge(known[i], observer);
        BindOneMore(start, known, i, observer);
        if !already {
          RegisteredAndMarked(typeOf, world, known[i], observer);
          AddEdge(known[i], observer);
          MarkAutoEdge(known[i], observer);
        }
      }
      assert known[..|known|] == known;
    }

    /** Take the binding back, and the edges to present subjects that it has created. */
    method UnregisterByType(subjectType: string, observer: V)
      requires Valid()
      modifies this
      ensures Valid() && ops == old(ops) + [Op.UnregisterByType(subjectType, observer)]
      ensures world == Apply(typeOf, old(world), Op.UnregisterByType(subjectType, observer))
    {
      hide EdgesTied, AutoIs, SubjectsAre, BindingsAre, Apply, Unbound, ApplyAll, Dropped;
      AppliedOneMore(typeOf, ops, Op.UnregisterByType(subjectType, observer));
      typeBindings := RemoveBinding(typeBindings, world, subjectType, observer);
      ghost var start := world;
      world := Dropped(world, subjectType, observer);
      var known := Listed(subjects, subjectType);
      UnboundFromAll(typeOf, start, subjects, subjectType, known, observer);
      DisconnectAll(known, observer);
      ops := ops + [Op.UnregisterByType(subjectType, observer)];
    }

    /** Take back the edges from these subjects to the observer that bindings have made. */
    method DisconnectAll(known: seq<V>, observer: V)
      requires EdgesOk() && AutoIs(autoEdges, world.auto)
      modifies this`deps, this`reverseDeps, this`world, this`autoEdges
      ensures EdgesOk() && AutoIs(autoEdges, world.auto)
      ensures world == Unbound(old(world), known, observer)
      ensures world.live == old(world).live && world.bound == old(world).bound
    {
      hide EdgesTied, AutoIs, Apply, Unbound;
      ghost var start := world;
      UnboundNone(start, observer);
      for i := 0 to |known|
        invariant EdgesOk() && AutoIs(autoEdges, world.auto)
        invariant world == Unbound(start, known[..i], observer) && world.live == start.live && world.bound == start.bound
      {
        AutoSays(autoEdges, world.auto, known[i], observer);
        UnbindOneMore(start, known, i, observer);
        if IsAutoEdge(known[i], observer) {
          UnregisteredIs(typeOf, world, known[i], observer);
          RemoveEdge(known[i], observer);
          ForgetAutoEdge(known[i], observer);
        }
      }
      assert known[..|known|] == known;
    }

    method ForgetAutoEdge(subject: V, observer: V)
      requires AutoIs(autoEdges, world.auto) && IsAutoEdge(subject, observer)
      modifies this`autoEdges, this`world
      ensures AutoIs(autoEdges, world.auto)
      ensures world == old(world).(auto := old(world).auto - {Edge(subject, observer)})
    {
      autoEdges := autoEdges[subject := autoEdges[subject] - {observer}];
      world := world.(auto := world.auto - {Edge(subject, observer)});
    }

    /** The subject appears; every binding of its type makes an edge, except to the subject itself. */
    method AddSubject(subject: V)
      requires Valid()
      modifies this
      ensures Valid() && ops == old(ops) + [Op.AddSubject(subject)]
      ensures world == Apply(typeOf, old(world), Op.AddSubject(subject))
    {
      hide EdgesTied, AutoIs, SubjectsAre, BindingsAre, Apply, Joining, ApplyAll;
      AppliedOneMore(typeOf, ops, Op.AddSubject(subject));
      ghost var start := world;
      var typ := typeOf(subject);
      OneMoreSubject(typeOf, subjects, world.live, subject);
      subjects := subjects[typ := Listed(subjects, typ) + [subject]];
      ghost var live := world.live + multiset{subject};
      world := world.(live := live);
      JoiningNone(typeOf, start, live, subject);
      for i := 0 to |typeBindings|
        invariant EdgesOk() && AutoIs(autoEdges, world.auto)
        invariant SubjectsAre(typeOf, subjects, live) && typeBindings == old(typeBindings) && ops == old(ops)
        invariant world == Joining(typeOf, start, live, subject, typeBindings[..i]) && world.live == live && world.bound == start.bound
      {
        var binding := typeBindings[i];
        JoinOneMore(typeOf, start, live, subject, typeBindings, i);
        if binding.subjectType == typ && subject != binding.observer {
          var already := HasEdge(subject, binding.observer);
          if !already {
            RegisteredAndMarked(typeOf, world, subject, binding.observer);
            AddEdge(subject, binding.observer);
            MarkAutoEdge(subject, binding.observer);
          }
        }
      }
      assert typeBindings[..|typeBindings|] == typeBindings;
      JoinedAll(typeOf, start, subject, typeBindings);
      ops := ops + [Op.AddSubject(subject)];
    }

    /** The subject disappears, and every edge from it. */
    method RemoveSubject(subject: V)
      requires Valid()
      modifies this
      ensures Valid() && ops == old(ops) + [Op.RemoveSubject(subject)]
      ensures world == Apply(typeOf, old(world), Op.RemoveSubject(subject))
    {
      hide Mirrored, NoEmptyEntry, EdgesAre, Detached, AutoIs, SubjectsAre, BindingsAre, Apply, WithoutKey, Tally, Tallied, ApplyAll;
      AppliedOneMore(typeOf, ops, Op.RemoveSubject(subject));
      ghost var before, subjectsBefore := deps, subjects;
      deps, reverseDeps := RemoveKey(deps, reverseDeps, subject);
      autoEdges := WithoutKey(autoEdges, subject);
      var typ := typeOf(subject);
      var others := WithoutFirst(Listed(subjects, typ), subject);
      if typ in subjects {
        subjects := subjects[typ := others];
      }
      ghost var after := Apply(typeOf, world, Op.RemoveSubject(subject));
      NoEdgesFrom(typeOf, before, deps, world, subject);
      NoAutoFrom(typeOf, old(autoEdges), world, subject);
      OneFewerSubject(typeOf, subjectsBefore, others, world, subject);
      assert after.bound == world.bound by {
        RemovedKeepsBindings(typeOf, world, subject);
      }
      world := after;
      ops := ops + [Op.RemoveSubject(subject)];
    }

    predicate IsAutoEdge(subject: V, observer: V)
      reads this
    {
      subject in autoEdges && observer in autoEdges[subject]
    }
  }

  lemma AppliedOneMore<V(!new)>(typeOf: V -> string, ops: seq<Op<V>>, op: Op<V>)
    ensures ApplyAll(typeOf, ops + [op]) == Apply(typeOf, ApplyAll(typeOf, ops), op)
  {
    hide Apply;
    assert (ops + [op])[..|ops|] == ops;
  }

  // ---- Binding a type, one subject after the other ----

  /** The edges to the observer from these subjects, where there was none at the start. */
  function MissingEdges<V(==)>(start: World<V>, from: seq<V>, o: V): set<Edge<V>> {
    set s | s in from && Count(start.edges, Edge(s, o)) == 0 :: Edge(s, o)
  }

  function BoundTo<V(==)>(start: World<V>, from: seq<V>, o: V): World<V> {
    var created := MissingEdges(start, from, o);
    start.(edges := Plus(start.edges, created), auto := start.auto + created)
  }

  lemma BoundNone<V(!new)>(start: World<V>, o: V)
    ensures start == BoundTo(start, [], o)
  {
    assert Plus(start.edges, {}) == start.edges;
    assert MissingEdges(start, [], o) == {};
  }

  lemma BindOneMore<V(!new)>(start: World<V>, known: seq<V>, i: nat, o: V)
    requires i < |known|
    ensures BoundTo(start, known[..i + 1], o).live == start.live && BoundTo(start, known[..i + 1], o).bound == start.bound
    ensures var now, next := BoundTo(start, known[..i], o), BoundTo(start, known[..i + 1], o);
      && (Count(now.edges, Edge(known[i], o)) > 0 ==> next == now)
      && (Count(now.edges, Edge(known[i], o)) == 0 ==>
            next == now.(edges := Plus(now.edges, {Edge(known[i], o)}), auto := now.auto + {Edge(known[i], o)}))
  {
    var e := Edge(known[i], o);
    var before, after := MissingEdges(start, known[..i], o), MissingEdges(start, known[..i + 1], o);
    assert known[..i + 1] == known[..i] + [known[i]];
    CountPlus(start.edges, before, e);
    if Count(start.edges, e) == 0 {
      assert after == before + {e};
      PlusOne(start.edges, before, e);
    } else {
      assert after == before;
    }
  }

  lemma PlusOne<V(!new)>(edges: map<Edge<V>, nat>, more: set<Edge<V>>, e: Edge<V>)
    ensures e in more ==> Plus(edges, more + {e}) == Plus(edges, more)
    ensures e !in more ==> Plus(edges, more + {e}) == Plus(Plus(edges, more), {e})
  {
    if e in more {
      assert more + {e} == more;
    } else {
      var a, b := Plus(edges, more + {e}), Plus(Plus(edges, more), {e});
      assert a.Keys == b.Keys;
      forall x | x in a ensures a[x] == b[x] {
        CountPlus(edges, more, x);
      }
    }
  }

  lemma OneMoreBinding<V(!new)>(bindings: seq<Binding<V>>, bound: multiset<Binding<V>>, b: Binding<V>)
    requires BindingsAre(bindings, bound)
    ensures BindingsAre(bindings + [b], bound + multiset{b})
  {
  }

  lemma RegisteredAndMarked<V(!new)>(typeOf: V -> string, w: World<V>, s: V, o: V)
    ensures Apply(typeOf, w, Op.Register(s, o)).(auto := w.auto + {Edge(s, o)})
         == w.(edges := Plus(w.edges, {Edge(s, o)}), auto := w.auto + {Edge(s, o)})
    ensures Apply(typeOf, w, Op.Register(s, o)).auto == w.auto
  {
  }

  lemma BoundToAll<V(!new)>(typeOf: V -> string, start: World<V>, subjects: map<string, seq<V>>, t: string, known: seq<V>, o: V)
    requires SubjectsAre(typeOf, subjects, start.live) && known == Listed(subjects, t)
    ensures BoundTo(start.(bound := start.bound + multiset{Binding(t, o)}), known, o) == Apply(typeOf, start, Op.RegisterByType(t, o))
  {
    assert MissingEdges(start, known, o) == BindingEdges(typeOf, start, t, o) by {
      forall s ensures s in known <==> s in start.live && typeOf(s) == t {
        ListedAreLive(typeOf, subjects, start.live, t, s);
      }
    }
  }

  // ---- Taking a binding back ----

  /** The world with the binding made once less. */
  function Dropped<V(==)>(w: World<V>, t: string, o: V): World<V> {
    w.(bound := w.bound - multiset{Binding(t, o)})
  }

  method RemoveBinding<V(!new, ==)>(bindings: seq<Binding<V>>, ghost w: World<V>, t: string, o: V)
      returns (rest: seq<Binding<V>>)
    requires BindingsAre(bindings, w.bound)
    ensures BindingsAre(rest, Dropped(w, t, o).bound)
  {
    for i := 0 to |bindings|
      invariant Binding(t, o) !in bindings[..i]
    {
      if bindings[i].subjectType == t && bindings[i].observer == o {
        WithoutCounts(bindings, i);
        return Without(bindings, i);
      }
    }
    assert bindings[..|bindings|] == bindings;
    assert Binding(t, o) !in multiset(bindings);
    rest := bindings;
  }

  method WithoutFirst<V(!new, ==)>(q: seq<V>, v: V) returns (rest: seq<V>)
    ensures Tallied(q, rest, v, if Tally(q, v) > 0 then -1 else 0)
  {
    TallyMember(q, v);
    for i := 0 to |q|
      invariant v !in q[..i]
    {
      if q[i] == v {
        WithoutCounts(q, i);
        return Without(q, i);
      }
    }
    assert q[..|q|] == q;
    rest := q;
  }

  /** The edges to the observer from these subjects that a binding had created at the start. */
  function AutoFrom<V(==)>(start: World<V>, from: seq<V>, o: V): set<Edge<V>> {
    set s | s in from && Edge(s, o) in start.auto :: Edge(s, o)
  }

  function Unbound<V(==)>(start: World<V>, from: seq<V>, o: V): World<V> {
    var gone := AutoFrom(start, from, o);
    start.(edges := Minus(start.edges, gone), auto := start.auto - gone)
  }

  lemma UnboundNone<V(!new)>(start: World<V>, o: V)
    ensures start == Unbound(start, [], o)
  {
    assert Minus(start.edges, {}) == start.edges;
    assert AutoFrom(start, [], o) == {};
  }

  lemma UnbindOneMore<V(!new)>(start: World<V>, known: seq<V>, i: nat, o: V)
    requires i < |known|
    ensures Unbound(start, known[..i + 1], o).live == start.live && Unbound(start, known[..i + 1], o).bound == start.bound
    ensures var now, next := Unbound(start, known[..i], o), Unbound(start, known[..i + 1], o);
      && (Edge(known[i], o) !in now.auto ==> next == now)
      && (Edge(known[i], o) in now.auto ==>
            next == now.(edges := Minus(now.edges, {Edge(known[i], o)}), auto := now.auto - {Edge(known[i], o)}))
  {
    var e := Edge(known[i], o);
    var before, after := AutoFrom(start, known[..i], o), AutoFrom(start, known[..i + 1], o);
    assert known[..i + 1] == known[..i] + [known[i]];
    if e in start.auto {
      assert after == before + {e};
      MinusOne(start.edges, before, e);
    } else {
      assert after == before;
    }
  }

  lemma MinusOne<V(!new)>(edges: map<Edge<V>, nat>, less: set<Edge<V>>, e: Edge<V>)
    ensures e in less ==> Minus(edges, less + {e}) == Minus(edges, less)
    ensures e !in less ==> Minus(edges, less + {e}) == Minus(Minus(edges, less), {e})
  {
    if e in less {
      assert less + {e} == less;
    } else {
      assert Minus(edges, less + {e}) == Minus(Minus(edges, less), {e});
    }
  }

  lemma AutoSays<V(!new)>(auto: map<V, set<V>>, edges: set<Edge<V>>, s: V, o: V)
    requires AutoIs(auto, edges)
    ensures (s in auto && o in auto[s]) <==> Edge(s, o) in edges
  {
  }

  lemma UnregisteredIs<V(!new)>(typeOf: V -> string, w: World<V>, s: V, o: V)
    ensures Apply(typeOf, w, Op.Unregister(s, o)).(auto := w.auto - {Edge(s, o)})
         == w.(edges := Minus(w.edges, {Edge(s, o)}), auto := w.auto - {Edge(s, o)})
    ensures Apply(typeOf, w, Op.Unregister(s, o)).auto == w.auto
  {
  }

  lemma UnboundFromAll<V(!new)>(typeOf: V -> string, start: World<V>, subjects: map<string, seq<V>>, t: string, known: seq<V>, o: V)
    requires SubjectsAre(typeOf, subjects, start.live) && known == Listed(subjects, t)
    ensures Dropped(start, t, o).live == start.live && Dropped(start, t, o).edges == start.edges
    ensures Dropped(start, t, o).auto == start.auto
    ensures Unbound(Dropped(start, t, o), known, o) == Apply(typeOf, start, Op.UnregisterByType(t, o))
  {
    assert AutoFrom(start, known, o) == CreatedEdges(typeOf, start, t, o) by {
      forall s ensures s in known <==> s in start.live && typeOf(s) == t {
        ListedAreLive(typeOf, subjects, start.live, t, s);
      }
    }
  }

  // ---- A subject that appears ----

  /** The edges from the subject that these bindings ask for and that were missing at the start. */
  function AskedEdges<V(==)>(typeOf: V -> string, start: World<V>, s: V, bindings: seq<Binding<V>>): set<Edge<V>> {
    set b | b in bindings && b.subjectType == typeOf(s) && b.observer != s && Count(start.edges, Edge(s, b.observer)) == 0
      :: Edge(s, b.observer)
  }

  function Joining<V(==)>(typeOf: V -> string, start: World<V>, live: multiset<V>, s: V, bindings: seq<Binding<V>>): World<V> {
    var created := AskedEdges(typeOf, start, s, bindings);
    start.(live := live, edges := Plus(start.edges, created), auto := start.auto + created)
  }

  lemma JoiningNone<V(!new)>(typeOf: V -> string, start: World<V>, live: multiset<V>, s: V)
    ensures start.(live := live) == Joining(typeOf, start, live, s, [])
  {
    assert Plus(start.edges, {}) == start.edges;
    assert AskedEdges(typeOf, start, s, []) == {};
  }

  lemma JoinOneMore<V(!new)>(typeOf: V -> string, start: World<V>, live: multiset<V>, s: V, bindings: seq<Binding<V>>, i: nat)
    requires i < |bindings|
    ensures
      var now, next := Joining(typeOf, start, live, s, bindings[..i]), Joining(typeOf, start, live, s, bindings[..i + 1]);
      var e := Edge(s, bindings[i].observer);
      && next.live == live && next.bound == start.bound
      && (!(bindings[i].subjectType == typeOf(s) && s != bindings[i].observer) || Count(now.edges, e) > 0 ==> next == now)
      && (bindings[i].subjectType == typeOf(s) && s != bindings[i].observer && Count(now.edges, e) == 0 ==>
            next == now.(edges := Plus(now.edges, {e}), auto := now.auto + {e}))
  {
    var e := Edge(s, bindings[i].observer);
    var before, after := AskedEdges(typeOf, start, s, bindings[..i]), AskedEdges(typeOf, start, s, bindings[..i + 1]);
    assert bindings[..i + 1] == bindings[..i] + [bindings[i]];
    CountPlus(start.edges, before, e);
    if bindings[i].subjectType == typeOf(s) && s != bindings[i].observer && Count(start.edges, e) == 0 {
      assert after == before + {e};
      PlusOne(start.edges, before, e);
    } else {
      assert after == before;
    }
  }

  lemma JoinedAll<V(!new)>(typeOf: V -> string, start: World<V>, s: V, bindings: seq<Binding<V>>)
    requires BindingsAre(bindings, start.bound)
    ensures Joining(typeOf, start, start.live + multiset{s}, s, bindings) == Apply(typeOf, start, Op.AddSubject(s))
  {
    forall b ensures b in bindings <==> b in start.bound {
      assert b in bindings <==> b in multiset(bindings);
    }
    assert AskedEdges(typeOf, start, s, bindings) == SubjectEdges(typeOf, start, s);
  }

  lemma OneMoreSubject<V(!new)>(typeOf: V -> string, subjects: map<string, seq<V>>, live: multiset<V>, s: V)
    requires SubjectsAre(typeOf, subjects, live)
    ensures SubjectsAre(typeOf, subjects[typeOf(s) := Listed(subjects, typeOf(s)) + [s]], live + multiset{s})
  {
    TallyAppend(Listed(subjects, typeOf(s)), s);
    hide Tally;
  }

  // ---- A subject that disappears ----

  lemma RemovedKeepsBindings<V(!new)>(typeOf: V -> string, w: World<V>, s: V)
    ensures Apply(typeOf, w, Op.RemoveSubject(s)).bound == w.bound
  {
  }

  lemma NoEdgesFrom<V(!new)>(typeOf: V -> string, m: Multimap<V>, r: Multimap<V>, w: World<V>, s: V)
    requires EdgesAre(m, w.edges) && Detached(m, r, s)
    ensures EdgesAre(r, Apply(typeOf, w, Op.RemoveSubject(s)).edges)
  {
    var rest := EdgesFromOthers(w.edges, s);
    forall x, y ensures Mult(r, x, y) == Count(rest, Edge(x, y)) {
      assert Mult(m, x, y) == Count(w.edges, Edge(x, y));
    }
  }

  function WithoutKey<V(==)>(auto: map<V, set<V>>, s: V): map<V, set<V>> {
    map x | x in auto && x != s :: auto[x]
  }

  lemma NoAutoFrom<V(!new)>(typeOf: V -> string, auto: map<V, set<V>>, w: World<V>, s: V)
    requires AutoIs(auto, w.auto)
    ensures AutoIs(WithoutKey(auto, s), Apply(typeOf, w, Op.RemoveSubject(s)).auto)
  {
  }

  lemma OneFewerSubject<V(!new)>(typeOf: V -> string, subjects: map<string, seq<V>>, others: seq<V>, w: World<V>, s: V)
    requires SubjectsAre(typeOf, subjects, w.live)
    requires Tallied(Listed(subjects, typeOf(s)), others, s, if Tally(Listed(subjects, typeOf(s)), s) > 0 then -1 else 0)
    ensures SubjectsAre(typeOf, if typeOf(s) in subjects then subjects[typeOf(s) := others] else subjects,
                        Apply(typeOf, w, Op.RemoveSubject(s)).live)
  {
    hide Tally, Apply, OfType;
    LiveAfterRemoval(typeOf, w, s);
    TallyMember(Listed(subjects, typeOf(s)), s);
    assert w.live[s] == Tally(Listed(subjects, typeOf(s)), s);
    if typeOf(s) in subjects {
      OthersOfType(typeOf, subjects[typeOf(s)], others, s);
    }
  }

  lemma LiveAfterRemoval<V(!new)>(typeOf: V -> string, w: World<V>, s: V)
    ensures forall x :: Apply(typeOf, w, Op.RemoveSubject(s)).live[x] == w.live[x] - (if x == s && w.live[s] > 0 then 1 else 0)
  {
  }

  lemma OthersOfType<V(!new)>(typeOf: V -> string, q: seq<V>, others: seq<V>, s: V)
    requires OfType(typeOf, q, typeOf(s))
    requires Tallied(q, others, s, if Tally(q, s) > 0 then -1 else 0)
    ensures OfType(typeOf, others, typeOf(s))
  {
    forall x | x in others ensures typeOf(x) == typeOf(s) {
      TallyMember(others, x);
      TallyMember(q, x);
    }
  }

  lemma OneMoreEdge<V(!new)>(m: Multimap<V>, r: Multimap<V>, edges: map<Edge<V>, nat>, s: V, o: V)
    requires EdgesAre(m, edges) && Shifted(m, r, s, o, 1)
    ensures EdgesAre(r, Plus(edges, {Edge(s, o)}))
  {
    forall x, y ensures Mult(r, x, y) == Count(Plus(edges, {Edge(s, o)}), Edge(x, y)) {
      CountPlus(edges, {Edge(s, o)}, Edge(x, y));
      assert Mult(m, x, y) == Count(edges, Edge(x, y));
    }
  }

  lemma OneFewerEdge<V(!new)>(m: Multimap<V>, r: Multimap<V>, edges: map<Edge<V>, nat>, s: V, o: V)
    requires EdgesAre(m, edges) && Shifted(m, r, s, o, if Mult(m, s, o) > 0 then -1 else 0)
    ensures EdgesAre(r, Minus(edges, {Edge(s, o)}))
  {
    forall x, y ensures Mult(r, x, y) == Count(Minus(edges, {Edge(s, o)}), Edge(x, y)) {
      CountMinus(edges, {Edge(s, o)}, Edge(x, y));
      assert Mult(m, x, y) == Count(edges, Edge(x, y));
    }
  }
}
