/** Type bindings: what each operation does to the edges, bindings and subjects, and histories of operations. */
module TypeBindings {

  datatype Edge<V> = Edge(subject: V, observer: V)

  datatype Binding<V> = Binding(subjectType: string, observer: V)

  /** `edges` counts registrations; `auto` are the edges that a binding has created. */
  datatype World<!V> = World(edges: map<Edge<V>, nat>, bound: multiset<Binding<V>>, live: multiset<V>, auto: set<Edge<V>>)

  function Count<V(==)>(edges: map<Edge<V>, nat>, e: Edge<V>): nat {
    if e in edges then edges[e] else 0
  }

  function Plus<V(==)>(edges: map<Edge<V>, nat>, more: set<Edge<V>>): map<Edge<V>, nat> {
    map e | e in edges.Keys + more :: Count(edges, e) + (if e in more then 1 else 0)
  }

  function Minus<V(==)>(edges: map<Edge<V>, nat>, less: set<Edge<V>>): map<Edge<V>, nat> {
    map e | e in edges :: if e in less && edges[e] > 0 then edges[e] - 1 else edges[e]
  }

  function Initial<V>(): World<V> {
    World(map[], multiset{}, multiset{}, {})
  }

  // ---- Operations ----

  datatype Op<V> =
    | Register(subject: V, observer: V)
    | Unregister(subject: V, observer: V)
    | RegisterByType(subjectType: string, observer: V)
    | UnregisterByType(subjectType: string, observer: V)
    | AddSubject(subject: V)
    | RemoveSubject(subject: V)

  /** Edges to the observer from the live subjects of a type, where there is none yet. */
  function BindingEdges<V(==)>(typeOf: V -> string, w: World<V>, t: string, o: V): set<Edge<V>> {
    set s | s in w.live && typeOf(s) == t && Count(w.edges, Edge(s, o)) == 0 :: Edge(s, o)
  }

  /** Edges from the subject to the observers bound to its type, except itself, where there is none yet. */
  function SubjectEdges<V(==)>(typeOf: V -> string, w: World<V>, s: V): set<Edge<V>> {
    set b | b in w.bound && b.subjectType == typeOf(s) && b.observer != s && Count(w.edges, Edge(s, b.observer)) == 0
      :: Edge(s, b.observer)
  }

  /** Edges to the observer that bindings have created for live subjects of a type. */
  function CreatedEdges<V(==)>(typeOf: V -> string, w: World<V>, t: string, o: V): set<Edge<V>> {
    set s | s in w.live && typeOf(s) == t && Edge(s, o) in w.auto :: Edge(s, o)
  }

  function EdgesFromOthers<V(==)>(edges: map<Edge<V>, nat>, s: V): map<Edge<V>, nat> {
    map e | e in edges && e.subject != s :: edges[e]
  }

  function AutoFromOthers<V(==)>(auto: set<Edge<V>>, s: V): set<Edge<V>> {
    set e | e in auto && e.subject != s
  }

  function Apply<V(==)>(typeOf: V -> string, w: World<V>, op: Op<V>): World<V> {
    match op
    case Register(s, o) => w.(edges := Plus(w.edges, {Edge(s, o)}))
    case Unregister(s, o) => w.(edges := Minus(w.edges, {Edge(s, o)}))
    case RegisterByType(t, o) =>
      var created := BindingEdges(typeOf, w, t, o);
      w.(bound := w.bound + multiset{Binding(t, o)}, edges := Plus(w.edges, created), auto := w.auto + created)
    case UnregisterByType(t, o) =>
      var gone := CreatedEdges(typeOf, w, t, o);
      w.(bound := w.bound - multiset{Binding(t, o)}, edges := Minus(w.edges, gone), auto := w.auto - gone)
    case AddSubject(s) =>
      var created := SubjectEdges(typeOf, w, s);
      w.(live := w.live + multiset{s}, edges := Plus(w.edges, created), auto := w.auto + created)
    case RemoveSubject(s) =>
      w.(live := w.live - multiset{s}, edges := EdgesFromOthers(w.edges, s), auto := AutoFromOthers(w.auto, s))
  }

  function ApplyAll<V(==)>(typeOf: V -> string, ops: seq<Op<V>>): World<V> {
    if ops == [] then Initial()
    else Apply(typeOf, ApplyAll(typeOf, ops[..|ops| - 1]), ops[|ops| - 1])
  }

  // ---- Histories ----

  /** How often the pair was registered by hand since the subject was last removed. */
  function Manual<V(==)>(ops: seq<Op<V>>, s: V, o: V): nat {
    if ops == [] then 0
    else
      var before, op := Manual(ops[..|ops| - 1], s, o), ops[|ops| - 1];
      if op == Register(s, o) then before + 1 else if op == RemoveSubject(s) then 0 else before
  }

  predicate Live<V(==)>(ops: seq<Op<V>>, s: V) {
    if ops == [] then false
    else
      var op := ops[|ops| - 1];
      op == AddSubject(s) || (op != RemoveSubject(s) && Live(ops[..|ops| - 1], s))
  }

  predicate Bound<V(==)>(ops: seq<Op<V>>, t: string, o: V) {
    if ops == [] then false
    else
      var op := ops[|ops| - 1];
      op == RegisterByType(t, o) || (op != UnregisterByType(t, o) && Bound(ops[..|ops| - 1], t, o))
  }

  /** Each subject is added once and each binding made once at a time, and nothing is unregistered by hand. */
  predicate Proper<V(==)>(ops: seq<Op<V>>) {
    ops == [] ||
      var before, op := ops[..|ops| - 1], ops[|ops| - 1];
      && Proper(before)
      && match op
         case Unregister(_, _) => false
         case AddSubject(s) => !Live(before, s)
         case RegisterByType(t, o) => !Bound(before, t, o)
         case _ => true
  }

  predicate HasEdge<V(==)>(w: World<V>, s: V, o: V) {
    Count(w.edges, Edge(s, o)) > 0
  }
}
