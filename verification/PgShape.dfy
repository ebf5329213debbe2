/**
 Which queries the compiler can collapse without losing an equality, and that every visit then
 succeeds and touches the collected equalities only below its own path.
 */
module PgShape {
  import opened Options
  import opened Json
  import opened Query
  import opened Relations
  import opened PgSql
  import opened PgCompiler

  predicate Operand(v: Json) {
    IsScalar(v) && !v.Null?
  }

  predicate Operands(vs: Items) {
    match vs
    case INil => true
    case ICons(v, rest) => Operand(v) && Operands(rest)
  }

  /** The operator puts an equality into the dict of collected equalities. */
  predicate Collects(q: Query) {
    match q
    case Eq(_) => true
    case And(qs) => AnyCollects(qs)
    case Composite(fs) => true
    case _ => false
  }

  predicate AnyCollects(qs: Queries) {
    match qs
    case QNil => false
    case QCons(q, rest) => Collects(q) || AnyCollects(rest)
  }

  /**
   Where a query is asked: of a whole document, of the value of a field, or of neither, and then a
   bare $rel has no reference to follow.
   */
  datatype Place = Document | Field(name: string) | Elsewhere

  /** The resolver and the place that decide what a $rel refers to. */
  datatype Scope = Scope(resolver: Option<Resolver>, place: Place)

  /** The scope of the operands of an And, and of elements: only a whole document is still itself. */
  function Inside(sc: Scope): Scope {
    if sc.place.Document? then sc else sc.(place := Elsewhere)
  }

  /** The scope of the query under a field; a $rel there is resolved before descending. */
  function Under(r: Option<Resolver>, f: string, q: Query): Scope {
    Scope(if q.Rel? then r else Descend(r, f), Field(f))
  }

  function FieldOf(place: Place): Option<string> {
    if place.Field? then Some(place.name) else None
  }

  /** The relation that a $rel follows. */
  function Relation(sc: Scope): Option<RelationInfo> {
    if sc.resolver.None? || sc.place.Elsewhere? then None else Resolve(sc.resolver.value, FieldOf(sc.place))
  }

  /**
   Parsed queries without null operands: normal, never empty where SQL would drop the part, with
   at most one collecting operand under each And, and with a relation for each $rel.
   */
  predicate Compilable(q: Query, sc: Scope) {
    match q
    case Eq(v) => Operand(v)
    case EqOf(_) => false
    case Cmp(_, v) => Operand(v)
    case In(vs) => vs.ICons? && Operands(vs)
    case IsNull(_) => true
    case And(qs) => qs.QCons? && CompilableAll(qs, Inside(sc)) && OneCollects(qs)
    case Or(qs) => qs.QCons? && CompilableAll(qs, sc)
    case Not(p) => Compilable(p, sc)
    case AnyElement(p) => Compilable(p, Inside(sc))
    case AllElements(p) => Compilable(p, Inside(sc))
    case Len(p) => ScalarQuery(p)
    case Composite(fs) => fs.FsCons? && CompilableFields(fs, sc.resolver)
    case Rel(fs) => fs.FsCons? && Relation(sc).Some? && CompilableFields(fs, Relation(sc).value.nested)
  }

  predicate CompilableAll(qs: Queries, sc: Scope) {
    match qs
    case QNil => true
    case QCons(q, rest) => Compilable(q, sc) && CompilableAll(rest, sc)
  }

  predicate CompilableFields(fs: QFields, r: Option<Resolver>) {
    match fs
    case FsNil => true
    case FsCons(f, q, rest) => !HasField(rest, f) && Compilable(q, Under(r, f, q)) && CompilableFields(rest, r)
  }

  predicate OneCollects(qs: Queries) {
    match qs
    case QNil => true
    case QCons(q, rest) => !(Collects(q) && AnyCollects(rest)) && OneCollects(rest)
  }

  predicate Numbers(vs: Items) {
    match vs
    case INil => true
    case ICons(v, rest) => v.Num? && Numbers(rest)
  }

  /** Predicates over a number. */
  predicate ScalarQuery(q: Query) {
    match q
    case Eq(v) => v.Num?
    case Cmp(_, v) => v.Num?
    case In(vs) => vs.ICons? && Numbers(vs)
    case IsNull(_) => true
    case Not(p) => ScalarQuery(p)
    case And(qs) => qs.QCons? && ScalarQueries(qs)
    case Or(qs) => qs.QCons? && ScalarQueries(qs)
    case _ => false
  }

  predicate ScalarQueries(qs: Queries) {
    match qs
    case QNil => true
    case QCons(q, rest) => ScalarQuery(q) && ScalarQueries(rest)
  }

  // ---- Room in the dict of collected equalities ----

  /** Nothing is stored at the path, and no value cuts it off. */
  predicate Vacant(eq: Fields, path: seq<string>)
    decreases |path|
  {
    if path == [] then eq.FNil?
    else
      match Get(eq, path[0])
      case None => true
      case Some(Obj(sub)) => |path| > 1 && Vacant(sub, path[1..])
      case _ => false
  }

  predicate Diverges(p: seq<string>, r: seq<string>)
    decreases |p|
  {
    p != [] && r != [] && (p[0] != r[0] || Diverges(p[1..], r[1..]))
  }

  /** Whatever was free away from `path` is still free. */
  ghost predicate OnlyBelow(eq: Fields, eq': Fields, path: seq<string>) {
    forall r :: Diverges(path, r) && Vacant(eq, r) ==> Vacant(eq', r)
  }

  lemma {:induction false} VacantBelow(eq: Fields, path: seq<string>, f: string)
    requires Vacant(eq, path)
    ensures Vacant(eq, path + [f])
    decreases |path|
  {
    var longer := path + [f];
    if path != [] {
      assert longer[0] == path[0] && longer[1..] == path[1..] + [f];
      match Get(eq, path[0])
      case Some(Obj(sub)) => VacantBelow(sub, path[1..], f);
      case _ =>
    }
  }

  lemma {:induction false} DivergesLonger(p: seq<string>, r: seq<string>, f: string)
    requires Diverges(p, r)
    ensures Diverges(p + [f], r)
    decreases |p|
  {
    if p[0] == r[0] {
      DivergesLonger(p[1..], r[1..], f);
      assert (p + [f])[1..] == p[1..] + [f];
    }
  }

  lemma {:induction false} SiblingsDiverge(p: seq<string>, f: string, g: string)
    requires f != g
    ensures Diverges(p + [f], p + [g])
    decreases |p|
  {
    if p != [] {
      SiblingsDiverge(p[1..], f, g);
      assert (p + [f])[1..] == p[1..] + [f] && (p + [g])[1..] == p[1..] + [g];
    }
  }

  lemma {:induction false} CollectSucceeds(eq: Fields, path: seq<string>, v: Json)
    requires path != [] && Vacant(eq, path)
    ensures Collect(eq, path, v).Some? && Collect(eq, path, v).value.FCons?
    ensures OnlyBelow(eq, Collect(eq, path, v).value, path)
    decreases |path|
  {
    if |path| == 1 {
      var eq' := Put(eq, path[0], v);
      forall r | Diverges(path, r) && Vacant(eq, r) ensures Vacant(eq', r) {
        assert path[1..] == [] && !Diverges([], r[1..]);
      }
    } else {
      var sub := if Get(eq, path[0]).Some? then Get(eq, path[0]).value.fields else FNil;
      CollectSucceeds(sub, path[1..], v);
      var sub' := Collect(sub, path[1..], v).value;
      var eq' := Put(eq, path[0], Obj(sub'));
      forall r | Diverges(path, r) && Vacant(eq, r) ensures Vacant(eq', r) {
        if r[0] == path[0] {
          assert Vacant(sub, r[1..]) by {
            if Get(eq, path[0]).None? {
              NothingIsVacant(r[1..]);
            }
          }
          assert Diverges(path[1..], r[1..]);
          assert r[1..] != [];
        }
      }
    }
  }

  lemma NothingIsVacant(r: seq<string>)
    ensures Vacant(FNil, r)
  {
  }

  // ---- Every visit succeeds ----

  ghost predicate SamePlace(st: State, st': State) {
    st'.base == st.base && st'.path == st.path && st'.resolver == st.resolver
  }

  ghost predicate IsEmpty(st: State) {
    st.eq.FNil? && st.parts.PNil?
  }

  /** A compiler's base is no alias that it has still to give out. */
  predicate Older(st: State) {
    match st.base
    case Root => true
    case Element(n) => n <= st.alias
    case Related(n) => n <= st.alias
  }

  /** The compiler has the resolver of the scope and is at its place. */
  predicate InScope(st: State, sc: Scope) {
    && Older(st)
    && st.resolver == sc.resolver
    && (sc.place.Document? ==> st.path == [])
    && (sc.place.Field? ==> st.path != [] && st.path[|st.path| - 1] == sc.place.name)
  }

  /** What a visit leaves behind, whatever the document; a $rel under a field leaves its path. */
  ghost predicate Visited(q: Query, st: State, r: Option<State>) {
    && r.Some?
    && r.value.base == st.base
    && r.value.alias >= st.alias
    && ((q.Rel? && st.path != []) || SamePlace(st, r.value))
    && !IsEmpty(r.value)
    && OnlyBelow(st.eq, r.value.eq, st.path)
    && (!Collects(q) ==> r.value.eq == st.eq)
  }

  lemma {:induction false} VisitSucceeds(q: Query, st: State, sc: Scope)
    requires Compilable(q, sc) && InScope(st, sc) && (Collects(q) ==> Vacant(st.eq, st.path))
    ensures Visited(q, st, Visit(q, st))
    decreases q, 0
  {
    match q
    case Eq(v) =>
      if st.path != [] { CollectSucceeds(st.eq, st.path, v); }
    case And(qs) =>
      VisitAllSucceeds(qs, st, Inside(sc));
    case Or(qs) =>
      AlternativesSucceed(qs, st, sc);
    case Not(p) =>
      NothingIsVacant(st.path);
      VisitSucceeds(p, Sub(st), sc);
    case AnyElement(p) =>
      VisitSucceeds(p, SubElement(st), Inside(sc));
    case AllElements(p) =>
      VisitSucceeds(p, SubElement(st), Inside(sc));
    case Len(p) =>
      ScalarSucceeds(p, ArrayLength(Path(st.base, st.path)));
      AppendNotEmpty(st.parts, VisitScalar(p, ArrayLength(Path(st.base, st.path))).value);
    case Composite(fs) =>
      forall f ensures Vacant(st.eq, st.path + [f]) {
        VacantBelow(st.eq, st.path, f);
      }
      VisitFieldsSucceed(fs, st);
    case Rel(fs) =>
      RelSucceeds(fs, FieldOf(sc.place), if st.path == [] then st else st.(path := st.path[..|st.path| - 1]));
    case _ =>
  }

  lemma AppendNotEmpty<H>(a: Preds<H>, b: Preds<H>)
    requires b.PCons?
    ensures Append(a, b).PCons?
  {
  }

  lemma {:induction false} VisitAllSucceeds(qs: Queries, st: State, sc: Scope)
    requires CompilableAll(qs, sc) && InScope(st, sc) && !sc.place.Field?
    requires OneCollects(qs) && (AnyCollects(qs) ==> Vacant(st.eq, st.path))
    ensures VisitAll(qs, st).Some?
    ensures
      var st' := VisitAll(qs, st).value;
      && SamePlace(st, st') && st'.alias >= st.alias
      && (!IsEmpty(st) || qs.QCons? ==> !IsEmpty(st'))
      && OnlyBelow(st.eq, st'.eq, st.path)
      && (!AnyCollects(qs) ==> st'.eq == st.eq)
    decreases qs, 0
  {
    match qs
    case QNil =>
    case QCons(q, rest) =>
      VisitSucceeds(q, st, sc);
      VisitAllSucceeds(rest, Visit(q, st).value, sc);
  }

  lemma {:induction false} AlternativesSucceed(qs: Queries, st: State, sc: Scope)
    requires CompilableAll(qs, sc) && InScope(st, sc)
    ensures VisitAlternatives(qs, st).Some?
    ensures VisitAlternatives(qs, st).value.alias >= st.alias
    ensures qs.QCons? ==> VisitAlternatives(qs, st).value.alts.ACons?
    decreases qs, 0
  {
    match qs
    case QNil =>
    case QCons(q, rest) =>
      NothingIsVacant(st.path);
      VisitSucceeds(q, Sub(st), sc);
      AlternativesSucceed(rest, st.(alias := Visit(q, Sub(st)).value.alias), sc);
  }

  ghost predicate FieldsVacant(eq: Fields, path: seq<string>, fs: QFields) {
    forall f :: HasField(fs, f) ==> Vacant(eq, path + [f])
  }

  lemma {:induction false} VisitFieldsSucceed(fs: QFields, st: State)
    requires CompilableFields(fs, st.resolver) && Older(st) && FieldsVacant(st.eq, st.path, fs)
    ensures VisitFields(fs, st).Some?
    ensures
      var st' := VisitFields(fs, st).value;
      && SamePlace(st, st') && st'.alias >= st.alias
      && (!IsEmpty(st) || fs.FsCons? ==> !IsEmpty(st'))
      && OnlyBelow(st.eq, st'.eq, st.path)
    decreases fs, 0
  {
    match fs
    case FsNil =>
    case FsCons(f, q, rest) =>
      assert HasField(fs, f);
      VisitFieldSucceeds(f, q, st);
      var st' := VisitField(f, q, st).value;
      forall g | HasField(rest, g) ensures Vacant(st'.eq, st.path + [g]) {
        assert HasField(fs, g) && g != f;
        SiblingsDiverge(st.path, f, g);
      }
      VisitFieldsSucceed(rest, st');
      forall r | Diverges(st.path, r) && Vacant(st.eq, r) ensures Vacant(VisitFields(fs, st).value.eq, r) {
        DivergesLonger(st.path, r, f);
      }
  }

  lemma {:induction false} VisitFieldSucceeds(f: string, q: Query, st: State)
    requires Compilable(q, Under(st.resolver, f, q)) && Older(st) && Vacant(st.eq, st.path + [f])
    ensures VisitField(f, q, st).Some?
    ensures
      var st' := VisitField(f, q, st).value;
      && SamePlace(st, st') && st'.alias >= st.alias
      && !IsEmpty(st') && OnlyBelow(st.eq, st'.eq, st.path + [f])
    decreases q, 1
  {
    if q.Rel? {
      RelSucceeds(q.criteria, Some(f), st);
    } else {
      var inner := st.(path := st.path + [f], resolver := Descend(st.resolver, f));
      VisitSucceeds(q, inner, Under(st.resolver, f, q));
      assert inner.path[..|inner.path| - 1] == st.path;
    }
  }

  /** The compiler that a $rel starts on the rows of the related table. */
  function ForeignStart(info: RelationInfo, alias: nat): State {
    State(Related(alias), info.nested, [], FNil, PNil, alias)
  }

  lemma {:induction false} RelSucceeds(fs: QFields, field: Option<string>, st: State)
    requires fs.FsCons? && st.resolver.Some? && Resolve(st.resolver.value, field).Some?
    requires CompilableFields(fs, Resolve(st.resolver.value, field).value.nested)
    ensures
      var sub := VisitFields(fs, ForeignStart(Resolve(st.resolver.value, field).value, st.alias + 1));
      sub.Some? && Flush(sub.value).PCons?
    ensures CompileRel(field, fs, st).Some?
    ensures
      var st' := CompileRel(field, fs, st).value;
      SamePlace(st, st') && st'.alias >= st.alias && st'.parts.PCons? && st'.eq == st.eq
    decreases fs, 1
  {
    var start := ForeignStart(Resolve(st.resolver.value, field).value, st.alias + 1);
    forall f ensures Vacant(FNil, [] + [f]) {
      NothingIsVacant([] + [f]);
    }
    VisitFieldsSucceed(fs, start);
  }

  lemma {:induction false} ScalarSucceeds(q: Query, e: Expr)
    requires ScalarQuery(q)
    ensures VisitScalar(q, e).Some? && VisitScalar(q, e).value.PCons?
    decreases q, 0
  {
    match q
    case Not(p) => ScalarSucceeds(p, e);
    case And(qs) => ScalarsSucceed(qs, e);
    case Or(qs) => ScalarsSucceed(qs, e);
    case _ =>
  }

  lemma {:induction false} ScalarsSucceed(qs: Queries, e: Expr)
    requires ScalarQueries(qs)
    ensures VisitScalars(qs, e).Some? && (qs.QCons? ==> VisitScalars(qs, e).value.PCons?)
    ensures ScalarAlternatives(qs, e).Some? && (qs.QCons? ==> ScalarAlternatives(qs, e).value.ACons?)
    decreases qs, 0
  {
    match qs
    case QNil =>
    case QCons(q, rest) =>
      ScalarSucceeds(q, e);
      ScalarsSucceed(rest, e);
  }
}
