/** The edge relation that bindings, subjects and registrations amount to, and where it fails. */
module BindingTheorems {
  import opened TypeBindings

  // ---- The relation the bindings refine ----

  ghost predicate TablesMatch<V(!new)>(ops: seq<Op<V>>, w: World<V>) {
    && (forall s :: w.live[s] == if Live(ops, s) then 1 else 0)
    && (forall t, o :: w.bound[Binding(t, o)] == if Bound(ops, t, o) then 1 else 0)
  }

  ghost predicate EdgeMatches<V(!new)>(typeOf: V -> string, ops: seq<Op<V>>, w: World<V>, s: V, o: V) {
    && Count(w.edges, Edge(s, o)) == Manual(ops, s, o) + (if Edge(s, o) in w.auto then 1 else 0)
    && (Edge(s, o) in w.auto ==> Live(ops, s) && Bound(ops, typeOf(s), o))
    && (Live(ops, s) && Bound(ops, typeOf(s), o) ==> Edge(s, o) in w.auto || Manual(ops, s, o) > 0)
  }

  lemma {:induction false} TablesFollow<V(!new)>(typeOf: V -> string, ops: seq<Op<V>>)
    requires Proper(ops)
    ensures TablesMatch(ops, ApplyAll(typeOf, ops))
  {
    if ops != [] {
      var before, op := ops[..|ops| - 1], ops[|ops| - 1];
      TablesFollow(typeOf, before);
      assert ops == before + [op];
      hide Apply, Live, Bound, TablesMatch;
      TablesStep(typeOf, before, op, ApplyAll(typeOf, before));
    }
  }

  lemma TablesStep<V(!new)>(typeOf: V -> string, before: seq<Op<V>>, op: Op<V>, w: World<V>)
    requires Proper(before + [op]) && TablesMatch(before, w)
    ensures TablesMatch(before + [op], Apply(typeOf, w, op))
  {
    hide Apply, Proper, Live, Bound;
    forall s ensures Apply(typeOf, w, op).live[s] == if Live(before + [op], s) then 1 else 0 {
      LiveStep(typeOf, before, op, w, s);
    }
    forall t, o ensures Apply(typeOf, w, op).bound[Binding(t, o)] == if Bound(before + [op], t, o) then 1 else 0 {
      BoundStep(typeOf, before, op, w, t, o);
    }
  }

  lemma LiveStep<V(!new)>(typeOf: V -> string, before: seq<Op<V>>, op: Op<V>, w: World<V>, s: V)
    requires Proper(before + [op]) && w.live[s] == (if Live(before, s) then 1 else 0)
    ensures Apply(typeOf, w, op).live[s] == if Live(before + [op], s) then 1 else 0
  {
    assert (before + [op])[..|before|] == before;
  }

  lemma BoundStep<V(!new)>(typeOf: V -> string, before: seq<Op<V>>, op: Op<V>, w: World<V>, t: string, o: V)
    requires Proper(before + [op]) && w.bound[Binding(t, o)] == (if Bound(before, t, o) then 1 else 0)
    ensures Apply(typeOf, w, op).bound[Binding(t, o)] == if Bound(before + [op], t, o) then 1 else 0
  {
    assert (before + [op])[..|before|] == before;
  }

  lemma {:induction false} EdgesFollow<V(!new)>(typeOf: V -> string, ops: seq<Op<V>>, s: V, o: V)
    requires Proper(ops) && s != o
    ensures EdgeMatches(typeOf, ops, ApplyAll(typeOf, ops), s, o)
  {
    if ops != [] {
      var before, op := ops[..|ops| - 1], ops[|ops| - 1];
      EdgesFollow(typeOf, before, s, o);
      TablesFollow(typeOf, before);
      var w := ApplyAll(typeOf, before);
      assert s in w.live <==> Live(before, s);
      assert Binding(typeOf(s), o) in w.bound <==> Bound(before, typeOf(s), o);
      StepFollows(typeOf, before, op, w, s, o);
    }
  }

  lemma StepFollows<V(!new)>(typeOf: V -> string, before: seq<Op<V>>, op: Op<V>, w: World<V>, s: V, o: V)
    requires Proper(before + [op]) && s != o && EdgeMatches(typeOf, before, w, s, o)
    requires (s in w.live <==> Live(before, s)) && (Binding(typeOf(s), o) in w.bound <==> Bound(before, typeOf(s), o))
    ensures EdgeMatches(typeOf, before + [op], Apply(typeOf, w, op), s, o)
  {
    var ops := before + [op];
    assert ops[..|ops| - 1] == before;
    match op
    case Register(_, _) =>
    case Unregister(_, _) =>
    case RegisterByType(t, p) =>
      assert Edge(s, o) in BindingEdges(typeOf, w, t, p) <==>
        p == o && s in w.live && typeOf(s) == t && Count(w.edges, Edge(s, o)) == 0;
    case UnregisterByType(t, p) =>
      assert Edge(s, o) in CreatedEdges(typeOf, w, t, p) <==>
        p == o && s in w.live && typeOf(s) == t && Edge(s, o) in w.auto;
    case AddSubject(r) =>
      assert Edge(s, o) in SubjectEdges(typeOf, w, r) <==>
        r == s && Binding(typeOf(s), o) in w.bound && Count(w.edges, Edge(s, o)) == 0;
    case RemoveSubject(_) =>
  }

  /**
   For two different nodes there is an edge exactly if it was registered by hand since the subject
   was last removed, or the subject is there and its type is bound to the observer.
   */
  lemma BindingsRefineTheRelation<V(!new)>(typeOf: V -> string, ops: seq<Op<V>>, s: V, o: V)
    requires Proper(ops) && s != o
    ensures HasEdge(ApplyAll(typeOf, ops), s, o) <==>
      Manual(ops, s, o) > 0 || (Live(ops, s) && Bound(ops, typeOf(s), o))
  {
    EdgesFollow(typeOf, ops, s, o);
  }

  // ---- Order does not matter ----

  predicate OnlyAdds<V(==)>(ops: seq<Op<V>>) {
    forall i :: 0 <= i < |ops| ==> ops[i].Register? || ops[i].RegisterByType? || ops[i].AddSubject?
  }

  lemma {:induction false} AddedMeansListed<V(!new)>(ops: seq<Op<V>>, s: V, o: V, t: string)
    requires OnlyAdds(ops)
    ensures Manual(ops, s, o) > 0 <==> Register(s, o) in ops
    ensures Live(ops, s) <==> AddSubject(s) in ops
    ensures Bound(ops, t, o) <==> RegisterByType(t, o) in ops
  {
    if ops != [] {
      AddedMeansListed(ops[..|ops| - 1], s, o, t);
      assert ops == ops[..|ops| - 1] + [ops[|ops| - 1]];
    }
  }

  /** Registrations, bindings and subjects in any other order lead to the same edges. */
  lemma AnyOrderGivesTheSameEdges<V(!new)>(typeOf: V -> string, ops: seq<Op<V>>, other: seq<Op<V>>, s: V, o: V)
    requires OnlyAdds(ops) && Proper(ops) && Proper(other) && multiset(ops) == multiset(other) && s != o
    ensures HasEdge(ApplyAll(typeOf, ops), s, o) <==> HasEdge(ApplyAll(typeOf, other), s, o)
  {
    forall op ensures op in ops <==> op in other {
      assert op in ops <==> op in multiset(ops);
      assert op in other <==> op in multiset(other);
    }
    assert OnlyAdds(other) by {
      forall i | 0 <= i < |other| ensures other[i].Register? || other[i].RegisterByType? || other[i].AddSubject? {
        assert other[i] in ops;
      }
    }
    AddedMeansListed(ops, s, o, typeOf(s));
    AddedMeansListed(other, s, o, typeOf(s));
    BindingsRefineTheRelation(typeOf, ops, s, o);
    BindingsRefineTheRelation(typeOf, other, s, o);
  }

  // ---- Where it does ----

  /** A subject that is bound to its own type gets an edge to itself or not, depending on which came first. */
  lemma SelfEdgeDependsOnOrder<V(!new)>(typeOf: V -> string, s: V)
    ensures HasEdge(ApplyAll(typeOf, [AddSubject(s), RegisterByType(typeOf(s), s)]), s, s)
    ensures !HasEdge(ApplyAll(typeOf, [RegisterByType(typeOf(s), s), AddSubject(s)]), s, s)
  {
    var add, bind := AddSubject(s), RegisterByType(typeOf(s), s);
    TwoSteps(typeOf, add, bind);
    TwoSteps(typeOf, bind, add);
    var added, bound := Apply(typeOf, Initial(), add), Apply(typeOf, Initial(), bind);
    assert Edge(s, s) in BindingEdges(typeOf, added, typeOf(s), s);
    assert Edge(s, s) !in SubjectEdges(typeOf, bound, s);
    assert Edge(s, s) !in BindingEdges(typeOf, Initial(), typeOf(s), s);
  }

  /** The relation holds over every proper history for all pairs but those of a node with itself. */
  lemma OnlySelfEdgesAreExceptions<V(!new)>(typeOf: V -> string, s: V, o: V)
    ensures (forall ops :: Proper(ops) ==>
              (HasEdge(ApplyAll(typeOf, ops), s, o) <==>
                 Manual(ops, s, o) > 0 || (Live(ops, s) && Bound(ops, typeOf(s), o)))) <==> s != o
  {
    if s != o {
      forall ops | Proper(ops)
        ensures HasEdge(ApplyAll(typeOf, ops), s, o) <==>
                  Manual(ops, s, o) > 0 || (Live(ops, s) && Bound(ops, typeOf(s), o))
      {
        BindingsRefineTheRelation(typeOf, ops, s, o);
      }
    } else {
      BoundFirst(typeOf, s);
    }
  }

  lemma BoundFirst<V(!new)>(typeOf: V -> string, s: V)
    ensures exists ops :: Proper(ops) && Live(ops, s) && Bound(ops, typeOf(s), s) && !HasEdge(ApplyAll(typeOf, ops), s, s)
  {
    SelfEdgeDependsOnOrder(typeOf, s);
    var bind, add := RegisterByType(typeOf(s), s), AddSubject(s);
    hide ApplyAll, HasEdge;
    assert Proper<V>([]) && !Live([], s) && !Bound([], typeOf(s), s);
    OneAfter([], bind);
    OneAfter([bind], add);
    assert [] + [bind] == [bind] && [bind] + [add] == [bind, add];
    assert Proper([bind]) && !Live([bind], s) && Bound([bind], typeOf(s), s);
    assert Proper([bind, add]) && Live([bind, add], s) && Bound([bind, add], typeOf(s), s);
  }

  lemma OneAfter<V(!new)>(before: seq<Op<V>>, op: Op<V>)
    ensures (before + [op])[..|before|] == before && (before + [op])[|before|] == op
  {
  }

  lemma TwoSteps<V(!new)>(typeOf: V -> string, a: Op<V>, b: Op<V>)
    ensures ApplyAll(typeOf, [a, b]) == Apply(typeOf, Apply(typeOf, Initial(), a), b)
  {
    hide Apply;
    assert [a, b][..1] == [a] && [a][..0] == [];
    assert ApplyAll(typeOf, []) == Initial<V>();
    assert ApplyAll(typeOf, [a]) == Apply(typeOf, ApplyAll(typeOf, [a][..0]), a);
  }

  /** A binding made twice and taken back once is still there, but its edges are gone. */
  lemma DoubleBindingLosesItsEdges<V(!new)>(typeOf: V -> string, s: V, o: V)
    requires s != o
    ensures var bind, unbind := RegisterByType(typeOf(s), o), UnregisterByType(typeOf(s), o);
      var w := Apply(typeOf, Apply(typeOf, Apply(typeOf, Apply(typeOf, Initial(), AddSubject(s)), bind), bind), unbind);
      s in w.live && Binding(typeOf(s), o) in w.bound && !HasEdge(w, s, o)
  {
    var bind, unbind := RegisterByType(typeOf(s), o), UnregisterByType(typeOf(s), o);
    var a := Apply(typeOf, Initial(), AddSubject(s));
    var b := Apply(typeOf, a, bind);
    var c := Apply(typeOf, b, bind);
    assert Edge(s, o) !in SubjectEdges(typeOf, Initial(), s);
    assert Edge(s, o) in BindingEdges(typeOf, a, typeOf(s), o);
    assert Edge(s, o) !in BindingEdges(typeOf, b, typeOf(s), o);
    assert Edge(s, o) in CreatedEdges(typeOf, c, typeOf(s), o);
  }
}
