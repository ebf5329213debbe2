/** What a compiled $rel asks of the related table, and where it parts from the evaluator. */
module PgRelations {
  import opened Options
  import opened Json
  import opened Query
  import opened Relations
  import opened EvaluateWalker
  import opened PgSql
  import opened PgCompiler
  import opened PgShape
  import opened PgMeaning
  import opened PgCorrectness

  // ---- The row that decides ----

  /** `{field: {'$rel': criteria}}`, or `{'$rel': criteria}` on the value itself. */
  function RelQuery(field: Option<string>, fs: QFields): Query {
    match field
    case None => Rel(fs)
    case Some(f) => Composite(FsCons(f, Rel(fs), FsNil))
  }

  /** The key that the query follows. */
  function KeyOf(field: Option<string>, doc: Json): Option<Json> {
    match field
    case None => Some(doc)
    case Some(f) => if doc.Obj? then Get(doc.fields, f) else None
  }

  function RunWith(q: Query, resolver: Resolver, doc: Json, db: Database): Truth {
    match Compile(q, Some(resolver))
    case None => Err
    case Some(sql) => Run(EraseAll(sql), IntendedAll(sql), doc, db)
  }

  /** A row of the table whose document meets the criteria. */
  predicate Qualifies(row: Row, fs: QFields, info: RelationInfo, tables: Tables) {
    Walk(Composite(fs), row.document, None, Walker(info.nested, tables)) == Says(true)
  }

  /** Some row of the table has the key in its key column and a document that meets the criteria. */
  ghost predicate SomeRowQualifies(key: Option<Json>, fs: QFields, info: RelationInfo, tables: Tables)
    requires info.table in tables
  {
    exists row :: Listed(row, tables[info.table]) && key.Some? && HasKey(row, info.pk, key.value)
      && Qualifies(row, fs, info, tables)
  }

  /** The criteria can be asked of the related table. */
  ghost predicate Answerable(fs: QFields, info: RelationInfo, db: Database) {
    RawAsScalar(db.driver) && fs.FsCons? && CompilableFields(fs, info.nested) && FitsRelation(fs, info, db.tables)
  }

  /**
   The statement is true exactly if some row of the related table has the document's value at the
   field in its key column and a document that meets the criteria.
   */
  lemma {:induction false} RelatedRowDecides(field: Option<string>, fs: QFields, resolver: Resolver, doc: Json, db: Database)
    requires field in resolver.relations && Answerable(fs, resolver.relations[field], db)
    requires field.Some? ==> doc.Obj?
    ensures RunWith(RelQuery(field, fs), resolver, doc, db) == T <==>
      SomeRowQualifies(KeyOf(field, doc), fs, resolver.relations[field], db.tables)
  {
    hide Compile, Run, Find, Fits, Compilable, SomeRowQualifies;
    var q, info, key := RelQuery(field, fs), resolver.relations[field], KeyOf(field, doc);
    RelationFits(field, fs, Some(resolver), doc, Document, db.tables);
    QueryMeans(q, Some(resolver), doc, db);
    WalkFollows(field, fs, doc, None, Walker(Some(resolver), db.tables));
    NullIsNoKey(db.tables[info.table], info.pk);
    FollowedMeans(fs, info, key, db.tables);
  }

  /** One level deeper, with the resolver of the outer field, or the same one if that has none. */
  lemma {:induction false} RelatedRowDecidesBelow(
    g: string, f: string, fs: QFields, resolver: Resolver, doc: Fields, db: Database)
    requires Get(doc, g).Some? && Get(doc, g).value.Obj?
    requires var r := if g in resolver.children then resolver.children[g] else resolver;
      Some(f) in r.relations && Answerable(fs, r.relations[Some(f)], db)
    ensures
      var r := if g in resolver.children then resolver.children[g] else resolver;
      RunWith(Composite(FsCons(g, RelQuery(Some(f), fs), FsNil)), resolver, Obj(doc), db) == T <==>
        SomeRowQualifies(KeyOf(Some(f), Get(doc, g).value), fs, r.relations[Some(f)], db.tables)
  {
    hide Compile, Run, Find, Fits, Compilable, SomeRowQualifies;
    var r := if g in resolver.children then resolver.children[g] else resolver;
    var inner, v, info := RelQuery(Some(f), fs), Get(doc, g).value, r.relations[Some(f)];
    RelationFits(Some(f), fs, Some(r), v, Field(g), db.tables);
    OneFieldFits(g, inner, Some(resolver), doc, db.tables);
    QueryMeans(Composite(FsCons(g, inner, FsNil)), Some(resolver), Obj(doc), db);
    WalksOneField(g, inner, doc, Walker(Some(resolver), db.tables));
    WalkFollows(Some(f), fs, v, Some(Context(g, v)), Walker(Some(r), db.tables));
    NullIsNoKey(db.tables[info.table], info.pk);
    FollowedMeans(fs, info, KeyOf(Some(f), v), db.tables);
  }

  lemma {:induction false} RelationFits(
    field: Option<string>, fs: QFields, r: Option<Resolver>, doc: Json, place: Place, tables: Tables)
    requires r.Some? && field in r.value.relations && (if field.Some? then doc.Obj? else place.Document?)
    requires fs.FsCons? && CompilableFields(fs, r.value.relations[field].nested)
    requires FitsRelation(fs, r.value.relations[field], tables)
    ensures Compilable(RelQuery(field, fs), Scope(r, place))
    ensures forall top :: Fits(RelQuery(field, fs), Some(doc), top, Scope(r, place), tables)
  {
    if field.Some? {
      var one, sc := FsCons(field.value, Rel(fs), FsNil), Under(r, field.value, Rel(fs));
      assert Compilable(Rel(fs), sc) && Fits(Rel(fs), Get(doc.fields, field.value), false, sc, tables);
      assert CompilableFields(FsNil, r) && FitsFields(FsNil, doc.fields, r, tables);
      assert CompilableFields(one, r) && FitsFields(one, doc.fields, r, tables);
    }
  }

  lemma {:induction false} OneFieldFits(g: string, q: Query, r: Option<Resolver>, doc: Fields, tables: Tables)
    requires Compilable(q, Under(r, g, q)) && Fits(q, Get(doc, g), false, Under(r, g, q), tables)
    ensures Compilable(Composite(FsCons(g, q, FsNil)), Top(r))
    ensures Fits(Composite(FsCons(g, q, FsNil)), Some(Obj(doc)), true, Top(r), tables)
  {
    assert CompilableFields(FsNil, r) && FitsFields(FsNil, doc, r, tables);
    assert CompilableFields(FsCons(g, q, FsNil), r) && FitsFields(FsCons(g, q, FsNil), doc, r, tables);
  }

  lemma {:induction false} WalkFollows(field: Option<string>, fs: QFields, doc: Json, context: Option<Context>, w: Walker)
    requires w.resolver.Some? && (if field.Some? then doc.Obj? else context.None?)
    ensures Walk(RelQuery(field, fs), doc, context, w) ==
      WalkForeign(fs, Fetch(w.resolver.value, w.tables, field, OrNull(KeyOf(field, doc))), w)
  {
    if field.Some? {
      var v := FieldValue(doc.fields, field.value);
      assert Walk(RelQuery(field, fs), doc, context, w) == WalkFields(FsCons(field.value, Rel(fs), FsNil), doc.fields, w);
      assert WalkFields(FsNil, doc.fields, w) == Says(true);
      assert WalkField(field.value, Rel(fs), v, w) == WalkForeign(fs, Fetch(w.resolver.value, w.tables, field, v), w);
    }
  }

  // Asking the row that is found is asking for a row.
  lemma {:induction false} FollowedMeans(fs: QFields, info: RelationInfo, key: Option<Json>, tables: Tables)
    requires info.table in tables && Keyed(tables[info.table], info.pk)
    ensures AskFound(fs, FindAt(tables[info.table], info.pk, key), Walker(info.nested, tables)) == Says(true) <==>
      SomeRowQualifies(key, fs, info, tables)
  {
    hide Keyed, Find;
    var rows := tables[info.table];
    if key.Some? {
      forall row | Listed(row, rows) && HasKey(row, info.pk, key.value)
        ensures Find(rows, info.pk, key.value) == Some(row.document)
      {
        FindMeans(rows, info.pk, key.value, row.document);
      }
      if Find(rows, info.pk, key.value).Some? {
        FindMeans(rows, info.pk, key.value, Find(rows, info.pk, key.value).value);
      }
    }
  }

  // ---- Fields that are no reference ----

  // Distinct fields, and no compound operand of an equality.
  predicate PlainCriteria(fs: QFields) {
    match fs
    case FsNil => true
    case FsCons(f, q, rest) => !HasField(rest, f) && PlainCriterion(q) && PlainCriteria(rest)
  }

  predicate PlainCriterion(q: Query) {
    match q
    case Eq(v) => IsScalar(v)
    case EqOf(_) => false
    case Composite(fs) => PlainCriteria(fs)
    case _ => true
  }

  /** The criteria without everything that is no equality with a value, at any depth. */
  function Equalities(fs: QFields): QFields {
    match fs
    case FsNil => FsNil
    case FsCons(f, q, rest) =>
      match EqualityPart(q)
      case None => Equalities(rest)
      case Some(p) => FsCons(f, p, Equalities(rest))
  }

  function EqualityPart(q: Query): Option<Query> {
    match q
    case Eq(v) => if v.Null? then None else Some(q)
    case Composite(fs) => if Equalities(fs).FsNil? then None else Some(Composite(Equalities(fs)))
    case _ => None
  }

  const NOWHERE := Scope(None, Elsewhere)

  // The dict of an operator is contained in exactly the values that its equalities accept.
  lemma {:induction false} ToDictMeans(q: Query, x: Option<Json>, sc: Scope)
    requires PlainCriterion(q) && sc.resolver.None?
    requires EqualityPart(q).Some? ==> Fits(EqualityPart(q).value, x, false, sc, map[])
    ensures EqualityPart(q).None? ==> ToDict(q).Nothing?
    ensures EqualityPart(q).Some? ==>
      && ToDict(q).Is?
      && Evaluate(EqualityPart(q).value, OrNull(x)) == Says(x.Some? && ContainsNested(x.value, ToDict(q).value))
    decreases q, 0
  {
    match q
    case Eq(v) => if !v.Null? { OperandEquality(x, v, false); }
    case Composite(fs) =>
      if Equalities(fs).FsNil? {
        NoDict(fs, FNil);
      } else {
        CollectDictMeans(fs, FNil, x.value.fields);
        assert ContainsFields(x.value.fields, FNil);
      }
    case _ =>
  }

  lemma {:induction false} NoDict(fs: QFields, result: Fields)
    requires PlainCriteria(fs) && Equalities(fs).FsNil?
    ensures CollectDict(fs, result) == Some(result)
    decreases fs, 1
  {
    match fs
    case FsNil =>
    case FsCons(_, q, rest) =>
      ToDictMeans(q, None, NOWHERE);
      NoDict(rest, result);
  }

  lemma {:induction false} CollectDictMeans(fs: QFields, result: Fields, doc: Fields)
    requires PlainCriteria(fs) && FitsFields(Equalities(fs), doc, None, map[])
    requires forall f :: HasField(fs, f) ==> !Has(result, f)
    ensures CollectDict(fs, result).Some?
    ensures Equalities(fs).FsCons? || result.FCons? ==> CollectDict(fs, result).value.FCons?
    ensures Evaluates(Equalities(fs), doc, ContainsFields(doc, result), ContainsFields(doc, CollectDict(fs, result).value))
    decreases fs, 1
  {
    match fs
    case FsNil =>
    case FsCons(f, q, rest) =>
      assert HasField(fs, f);
      forall g | HasField(rest, g) ensures HasField(fs, g) && g != f {}
      ToDictMeans(q, Get(doc, f), Under(None, f, q));
      match EqualityPart(q)
      case None =>
        CollectDictMeans(rest, result, doc);
      case Some(p) =>
        ContainsPut(doc, result, f, ToDict(q).value);
        CollectDictMeans(rest, Put(result, f, ToDict(q).value), doc);
  }

  // The verdict on the fields, after what has been asked before.
  ghost predicate Evaluates(fs: QFields, doc: Fields, before: bool, after: bool) {
    EvaluateFields(fs, doc).Says? && (after <==> before && EvaluateFields(fs, doc).b)
  }

  /**
   On a field that is no reference, the statement asks the equalities among the criteria of the
   field's own value and nothing else, while the evaluator always says no: the two agree exactly
   where these equalities do not hold.
   */
  lemma {:induction false} PlainFieldMeans(f: string, fs: QFields, resolver: Resolver, doc: Fields, db: Database)
    requires Resolve(resolver, Some(f)).None? && PlainCriteria(fs)
    requires Fits(Composite(Equalities(fs)), Get(doc, f), false, NOWHERE, map[])
    ensures Walk(RelQuery(Some(f), fs), Obj(doc), None, Walker(Some(resolver), db.tables)) == Says(false)
    ensures RunWith(RelQuery(Some(f), fs), resolver, Obj(doc), db) ==
      FromBool(Satisfies(Get(doc, f).value, Composite(Equalities(fs))))
  {
    WalkFollows(Some(f), fs, Obj(doc), None, Walker(Some(resolver), db.tables));
    ToDictMeans(Composite(fs), Get(doc, f), NOWHERE);
    var start := State(Root, Some(resolver), [], FNil, PNil, 0);
    CompilesOneField(f, fs, start);
    if Equalities(fs).FsNil? {
      assert Compile(RelQuery(Some(f), fs), Some(resolver)) == Some(PNil);
      BindAllErased(PNil);
      assert Evaluate(Composite(FsNil), Get(doc, f).value) == EvaluateFields(FsNil, Get(doc, f).value.fields);
      assert EvalAll(PNil, Env(map[Root := Obj(doc)], db)) == T;
    } else {
      var d := ToDict(Composite(fs)).value;
      assert Compile(RelQuery(Some(f), fs), Some(resolver)) == Some(FieldTest(f, d));
      RunsFieldTest(f, d, doc, db);
    }
  }

  /** `value @> {f: d}` */
  function FieldTest(f: string, d: Json): Preds<Param> {
    PCons(ContainsP(Root, Jsonb(Obj(FCons(f, d, FNil)))), PNil)
  }

  lemma {:induction false} RunsFieldTest(f: string, d: Json, doc: Fields, db: Database)
    ensures Run(EraseAll(FieldTest(f, d)), IntendedAll(FieldTest(f, d)), Obj(doc), db) ==
      FromBool(Has(doc, f) && ContainsNested(Get(doc, f).value, d))
  {
    hide EraseAll, IntendedAll, BindAll, HolesAll;
    BindAllErased(FieldTest(f, d));
    var env, one := Env(map[Root := Obj(doc)], db), FCons(f, d, FNil);
    assert EvalAll(FieldTest(f, d), env) == And3(Eval(FieldTest(f, d).head, env), EvalAll(PNil, env));
    assert EvalAll(PNil, env) == T;
    assert ContainsFields(doc, FNil);
    assert ContainsFields(doc, one) <==> Has(doc, f) && ContainsNested(Get(doc, f).value, d);
    assert Contains(Obj(doc), Obj(one)) <==> ContainsFields(doc, one);
  }

  lemma {:induction false} CompilesOneField(f: string, fs: QFields, st: State)
    ensures Visit(RelQuery(Some(f), fs), st) == CompileRel(Some(f), fs, st)
  {
    assert VisitField(f, Rel(fs), st) == CompileRel(Some(f), fs, st);
    if CompileRel(Some(f), fs, st).Some? {
      assert VisitFields(FsNil, CompileRel(Some(f), fs, st).value) == CompileRel(Some(f), fs, st);
    }
  }

  // ---- Queries that ask nothing ----

  /** Relations without criteria, and what is made of nothing else. */
  predicate Vacuous(q: Query, sc: Scope) {
    match q
    case Rel(fs) => Relation(sc).Some? && VacuousFields(fs, Relation(sc).value.nested)
    case And(qs) => VacuousAll(qs, Inside(sc))
    case Or(qs) => VacuousAll(qs, sc)
    case Not(p) => Vacuous(p, sc)
    case AnyElement(p) => Vacuous(p, Inside(sc))
    case AllElements(p) => Vacuous(p, Inside(sc))
    case Composite(fs) => VacuousFields(fs, sc.resolver)
    case _ => false
  }

  predicate VacuousAll(qs: Queries, sc: Scope) {
    match qs
    case QNil => true
    case QCons(q, rest) => Vacuous(q, sc) && VacuousAll(rest, sc)
  }

  predicate VacuousFields(fs: QFields, r: Option<Resolver>) {
    match fs
    case FsNil => true
    case FsCons(f, q, rest) => Vacuous(q, Under(r, f, q)) && VacuousFields(rest, r)
  }

  /** The visit raised nothing, emitted nothing and collected nothing. */
  predicate Silent(st: State, r: Option<State>) {
    && r.Some? && r.value.parts == st.parts && r.value.eq == st.eq
    && r.value.base == st.base && r.value.resolver == st.resolver && r.value.alias >= st.alias
  }

  lemma {:induction false} VacuousIsSilent(q: Query, st: State, sc: Scope)
    requires Vacuous(q, sc) && InScope(st, sc)
    ensures Silent(st, Visit(q, st))
    ensures !q.Rel? || st.path == [] ==> Visit(q, st).value.path == st.path
    decreases q, 0
  {
    match q
    case Rel(fs) =>
      RelIsSilent(fs, FieldOf(sc.place), if st.path == [] then st else st.(path := st.path[..|st.path| - 1]));
    case And(qs) => AllAreSilent(qs, st, Inside(sc));
    case Or(qs) => NoAlternatives(qs, st, sc);
    case Not(p) => VacuousIsSilent(p, Sub(st), sc);
    case AnyElement(p) => VacuousIsSilent(p, SubElement(st), Inside(sc));
    case AllElements(p) => VacuousIsSilent(p, SubElement(st), Inside(sc));
    case Composite(fs) => FieldsAreSilent(fs, st);
  }

  lemma {:induction false} AllAreSilent(qs: Queries, st: State, sc: Scope)
    requires VacuousAll(qs, sc) && InScope(st, sc) && !sc.place.Field?
    ensures Silent(st, VisitAll(qs, st)) && VisitAll(qs, st).value.path == st.path
    decreases qs, 0
  {
    match qs
    case QNil =>
    case QCons(q, rest) =>
      VacuousIsSilent(q, st, sc);
      AllAreSilent(rest, Visit(q, st).value, sc);
  }

  lemma {:induction false} NoAlternatives(qs: Queries, st: State, sc: Scope)
    requires VacuousAll(qs, sc) && InScope(st, sc)
    ensures VisitAlternatives(qs, st).Some? && VisitAlternatives(qs, st).value.alts.ANil?
    ensures VisitAlternatives(qs, st).value.alias >= st.alias
    decreases qs, 0
  {
    match qs
    case QNil =>
    case QCons(q, rest) =>
      VacuousIsSilent(q, Sub(st), sc);
      NoAlternatives(rest, st.(alias := Visit(q, Sub(st)).value.alias), sc);
  }

  lemma {:induction false} FieldsAreSilent(fs: QFields, st: State)
    requires VacuousFields(fs, st.resolver) && Older(st)
    ensures Silent(st, VisitFields(fs, st)) && VisitFields(fs, st).value.path == st.path
    decreases fs, 0
  {
    match fs
    case FsNil =>
    case FsCons(f, q, rest) =>
      if q.Rel? {
        RelIsSilent(q.criteria, Some(f), st);
      } else {
        var inner := st.(path := st.path + [f], resolver := Descend(st.resolver, f));
        VacuousIsSilent(q, inner, Under(st.resolver, f, q));
        assert inner.path[..|inner.path| - 1] == st.path;
      }
      FieldsAreSilent(rest, VisitField(f, q, st).value);
  }

  lemma {:induction false} RelIsSilent(fs: QFields, field: Option<string>, st: State)
    requires st.resolver.Some? && Resolve(st.resolver.value, field).Some?
    requires VacuousFields(fs, Resolve(st.resolver.value, field).value.nested)
    ensures Silent(st, CompileRel(field, fs, st)) && CompileRel(field, fs, st).value.path == st.path
    decreases fs, 1
  {
    FieldsAreSilent(fs, ForeignStart(Resolve(st.resolver.value, field).value, st.alias + 1));
  }

  /** A query that asks nothing compiles to no condition at all, and beside others it leaves no trace. */
  lemma {:induction false} VacuousVanishes(q: Query, others: Queries, st: State, sc: Scope)
    requires Vacuous(q, sc) && InScope(st, sc)
    ensures Silent(st, Visit(q, st)) && Silent(Sub(st), Visit(q, Sub(st)))
    ensures
      var next := st.(alias := Visit(q, Sub(st)).value.alias);
      VisitAlternatives(QCons(q, others), st) == VisitAlternatives(others, next)
  {
    VacuousIsSilent(q, st, sc);
    VacuousIsSilent(q, Sub(st), sc);
  }

  // ---- Where the fragment is left ----

  /** A $rel without criteria asks that the object exists; the statement asks nothing. */
  lemma {:induction false} RelWithoutCriteriaDiffers(f: string, resolver: Resolver, doc: Fields, db: Database)
    requires Resolve(resolver, Some(f)).Some?
    requires Fetch(resolver, db.tables, Some(f), FieldValue(doc, f)).None?
    ensures Walk(RelQuery(Some(f), FsNil), Obj(doc), None, Walker(Some(resolver), db.tables)) == Says(false)
    ensures RunWith(RelQuery(Some(f), FsNil), resolver, Obj(doc), db) == T
  {
    WalkFollows(Some(f), FsNil, Obj(doc), None, Walker(Some(resolver), db.tables));
    var start := State(Root, Some(resolver), [], FNil, PNil, 0);
    CompilesOneField(f, FsNil, start);
    var foreign := ForeignStart(Resolve(resolver, Some(f)).value, 1);
    assert VisitFields(FsNil, foreign) == Some(foreign);
    BindAllErased(PNil);
    assert EvalAll(PNil, Env(map[Root := Obj(doc)], db)) == T;
  }

  /** A $rel on the value itself that leads nowhere is dropped, while the evaluator says no. */
  lemma {:induction false} TopRelWithoutRelationDiffers(fs: QFields, resolver: Resolver, doc: Json, db: Database)
    requires None !in resolver.relations
    ensures Walk(Rel(fs), doc, None, Walker(Some(resolver), db.tables)) == Says(false)
    ensures RunWith(Rel(fs), resolver, doc, db) == T
  {
    var start := State(Root, Some(resolver), [], FNil, PNil, 0);
    assert Visit(Rel(fs), start) == Some(start);
    BindAllErased(PNil);
    assert EvalAll(PNil, Env(map[Root := doc], db)) == T;
  }

  /** Without a resolver, compiling a $rel raises. */
  lemma {:induction false} RelWithoutResolverRaises(field: Option<string>, fs: QFields)
    ensures Compile(RelQuery(field, fs), None) == None
  {
    var start := State(Root, None, [], FNil, PNil, 0);
    if field.Some? {
      CompilesOneField(field.value, fs, start);
    }
    assert Visit(RelQuery(field, fs), start) == CompileRel(field, fs, start);
  }

  function BesideNe(fs: QFields, v: Json): Query {
    And(QCons(Rel(fs), QCons(Cmp(Ne, v), QNil)))
  }

  // A $rel takes its field off the path, and the next operator is at the place above.
  lemma {:induction false} BesideNeVisits(fs: QFields, v: Json, st: State)
    requires |st.path| == 1
    ensures
      var related := CompileRel(Some(st.path[0]), fs, st.(path := []));
      Visit(BesideNe(fs, v), st) ==
        if related.None? then None
        else Some(Emit(related.value, NotP(PCons(ContainsP(st.base, Jsonb(v)), PNil))))
  {
    var related := CompileRel(Some(st.path[0]), fs, st.(path := []));
    assert st.path[..0] == [];
    assert Visit(Rel(fs), st) == related;
    var rest := QCons(Cmp(Ne, v), QNil);
    assert VisitAll(QCons(Rel(fs), rest), st) == if related.None? then None else VisitAll(rest, related.value);
    if related.Some? {
      CompileRelKeepsPlace(Some(st.path[0]), fs, st.(path := []));
      assert Nested([], v) == v;
      var end := Emit(related.value, NotP(PCons(ContainsP(st.base, Jsonb(v)), PNil)));
      assert Visit(Cmp(Ne, v), related.value) == Some(end);
      assert VisitAll(QNil, end) == Some(end);
    }
  }

  lemma {:induction false} CompileRelKeepsPlace(field: Option<string>, fs: QFields, st: State)
    ensures CompileRel(field, fs, st).Some? ==> SamePlace(st, CompileRel(field, fs, st).value)
  {
  }

  /** A $rel beside another operator of its field raises: the path is empty when the field is left. */
  lemma {:induction false} RelBesideOperatorRaises(f: string, fs: QFields, v: Json, resolver: Resolver)
    ensures Compile(Composite(FsCons(f, BesideNe(fs, v), FsNil)), Some(resolver)) == None
  {
    var start := State(Root, Some(resolver), [], FNil, PNil, 0);
    var inner := start.(path := [] + [f], resolver := Descend(Some(resolver), f));
    BesideNeVisits(fs, v, inner);
    CompileRelKeepsPlace(Some(f), fs, inner.(path := []));
    assert VisitField(f, BesideNe(fs, v), start) == None;
    assert VisitFields(FsCons(f, BesideNe(fs, v), FsNil), start) == None;
  }

  // A statement is as true as the state its compiler ends in.
  lemma {:induction false} RunsState(q: Query, resolver: Resolver, st: State, doc: Json, db: Database)
    requires Visit(q, State(Root, Some(resolver), [], FNil, PNil, 0)) == Some(st) && st.base == Root
    ensures RunWith(q, resolver, doc, db) == StateTruth(st, Env(map[Root := doc], db))
  {
    FlushMeans(st, Env(map[Root := doc], db));
    BindAllErased(Flush(st));
  }

  // A query on one field.
  lemma {:induction false} VisitsOneField(f: string, q: Query, st: State, end: State)
    requires !q.Rel? && st.path == []
    requires Visit(q, st.(path := [f], resolver := Descend(st.resolver, f))) == Some(end) && end.path == [f]
    ensures Visit(Composite(FsCons(f, q, FsNil)), st) == Some(end.(path := [], resolver := st.resolver))
  {
    var left := end.(path := [], resolver := st.resolver);
    assert [] + [f] == [f];
    assert VisitField(f, q, st) == Some(left);
    assert VisitFields(FsNil, left) == Some(left);
    assert VisitFields(FsCons(f, q, FsNil), st) == Some(left);
  }

  lemma {:induction false} WalksOneField(f: string, q: Query, doc: Fields, w: Walker)
    requires !q.Rel?
    ensures Walk(Composite(FsCons(f, q, FsNil)), Obj(doc), None, w) ==
      Walk(q, FieldValue(doc, f), Some(Context(f, FieldValue(doc, f))), w.(resolver := Descend(w.resolver, f)))
  {
    hide Walk, FieldValue, Descend;
    var v := FieldValue(doc, f);
    assert WalkField(f, q, v, w) == Walk(q, v, Some(Context(f, v)), w.(resolver := Descend(w.resolver, f)));
    assert WalkFields(FsNil, doc, w) == Says(true);
    assert WalkFields(FsCons(f, q, FsNil), doc, w) == WalkField(f, q, v, w);
    WalksFields(FsCons(f, q, FsNil), doc, w);
  }

  lemma {:induction false} WalksFields(fs: QFields, doc: Fields, w: Walker)
    ensures Walk(Composite(fs), Obj(doc), None, w) == WalkFields(fs, doc, w)
  {
  }

  /**
   Under a negation nothing raises, but the operator beside the $rel is asked of the place above:
   here "not (related and different from v)" is true of a field that is v, and false in SQL.
   */
  lemma {:induction false} RelBesideOperatorUnderNotDiffers(
    f: string, fs: QFields, v: Json, resolver: Resolver, doc: Fields, db: Database)
    requires Operand(v) && Get(doc, f) == Some(v)
    requires var r := Descend(Some(resolver), f).value;
      && Some(f) in r.relations && Answerable(fs, r.relations[Some(f)], db)
      && WalkForeign(fs, Fetch(r, db.tables, Some(f), v), Walker(Some(r), db.tables)) == Says(true)
    ensures
      var q := Composite(FsCons(f, Not(BesideNe(fs, v)), FsNil));
      && Walk(q, Obj(doc), None, Walker(Some(resolver), db.tables)) == Says(true)
      && RunWith(q, resolver, Obj(doc), db) == F
  {
    hide StateTruth, CompileRel, WalkForeign, FitsRelation, CompilableFields, Fetch, Run, Compile, Visit;
    var r := Descend(Some(resolver), f).value;
    var q, w := Not(BesideNe(fs, v)), Walker(Some(r), db.tables);
    var env, start := Env(map[Root := Obj(doc)], db), State(Root, Some(resolver), [], FNil, PNil, 0);
    WalksOneField(f, q, doc, Walker(Some(resolver), db.tables));
    WalksBesideNe(fs, v, f, v, w);
    FieldPath(doc, f);
    var end := BesideNeTruth(fs, v, start.(path := [f], resolver := Some(r)), env);
    VisitsOneField(f, q, start, end);
    var left := end.(path := [], resolver := Some(resolver));
    RunsState(Composite(FsCons(f, q, FsNil)), resolver, left, Obj(doc), db);
    PlaceIsSilent(end, left, env);
  }

  // The compiler asks the document, not its field, to be different.
  lemma {:induction false} BesideNeTruth(fs: QFields, v: Json, st: State, env: Env) returns (end: State)
    requires |st.path| == 1 && st.resolver.Some? && Some(st.path[0]) in st.resolver.value.relations
    requires Answerable(fs, st.resolver.value.relations[Some(st.path[0])], env.db)
    requires IsEmpty(st) && st.base == Root && Root in env.docs && env.docs[Root].Obj?
    requires Operand(v) && Here(st, env) == Some(v)
    requires WalkForeign(fs, Fetch(st.resolver.value, env.db.tables, Some(st.path[0]), v), WalkerOf(st, env)) == Says(true)
    ensures Visit(Not(BesideNe(fs, v)), st) == Some(end) && end.path == st.path && end.base == st.base
    ensures StateTruth(end, env) == F
  {
    hide StateTruth, CompileRel, WalkForeign, FitsRelation, CompilableFields, Fetch, Eval;
    var above, f := st.(path := []), st.path[0];
    assert [] + [f] == st.path;
    RelMeans(fs, Some(f), above, env);
    RelSucceeds(fs, Some(f), above);
    FreshTruth(above, env);
    var related := CompileRel(Some(f), fs, above).value;
    var p := NotP(PCons(ContainsP(Root, Jsonb(v)), PNil));
    NotContainedInObject(v, env);
    EmitMeans(related, p, env);
    BesideNeVisits(fs, v, st);
    assert Sub(st) == st;
    var sub := Emit(related, p);
    FlushMeans(sub, env);
    assert Flush(sub).PCons?;
    NotTruth(Flush(sub), env);
    end := Emit(st.(alias := sub.alias), NotP(Flush(sub)));
    assert Visit(Not(BesideNe(fs, v)), st) == Some(end);
    EmitMeans(st.(alias := sub.alias), NotP(Flush(sub)), env);
    FreshTruth(st.(alias := sub.alias), env);
  }

  lemma {:induction false} NotTruth(ps: Preds<Param>, env: Env)
    ensures Eval(NotP(ps), env) == Not3(EvalAll(ps, env))
  {
  }

  lemma {:induction false} WalksBesideNe(fs: QFields, v: Json, f: string, x: Json, w: Walker)
    requires w.resolver.Some? && WalkForeign(fs, Fetch(w.resolver.value, w.tables, Some(f), x), w) == Says(true)
    ensures Walk(BesideNe(fs, v), x, Some(Context(f, x)), w) == Says(!PyEq(x, v))
  {
    var rest, context := QCons(Cmp(Ne, v), QNil), Some(Context(f, x));
    assert Walk(Rel(fs), x, context, w) == Says(true);
    assert WalkAll(QNil, x, context, w) == Says(true);
    assert WalkAll(rest, x, context, w) == Says(!PyEq(x, v));
    assert WalkAll(QCons(Rel(fs), rest), x, context, w) == WalkAll(rest, x, context, w);
  }

  lemma {:induction false} NotContainedInObject(v: Json, env: Env)
    requires Operand(v) && Root in env.docs && env.docs[Root].Obj?
    ensures Eval(NotP(PCons(ContainsP(Root, Jsonb(v)), PNil)), env) == T
  {
    var inner := PCons(ContainsP(Root, Jsonb(v)), PNil);
    assert EvalAll(PNil, env) == T;
    assert EvalAll(inner, env) == And3(Eval(inner.head, env), T);
  }

  lemma {:induction false} FieldPath(doc: Fields, f: string)
    ensures AtPath(Obj(doc), [f]) == Get(doc, f) && [] + [f] == [f]
  {
    assert [f][1..] == [];
  }

  /**
   Directly under $any of a field, the evaluator follows the whole array under the field's name, and
   the statement follows each element under no name.
   */
  lemma {:induction false} ElementRelDiffers(
    f: string, fs: QFields, x: Json, resolver: Resolver, doc: Fields, db: Database)
    requires Get(doc, f) == Some(Arr(ICons(x, INil)))
    requires var r := Descend(Some(resolver), f).value;
      && Resolve(r, Some(f)).None? && None in r.relations && Answerable(fs, r.relations[None], db)
      && WalkForeign(fs, Fetch(r, db.tables, None, x), Walker(Some(r), db.tables)) == Says(true)
    ensures
      var q := Composite(FsCons(f, AnyElement(Rel(fs)), FsNil));
      && Walk(q, Obj(doc), None, Walker(Some(resolver), db.tables)) == Says(false)
      && RunWith(q, resolver, Obj(doc), db) == T
  {
    hide StateTruth, CompileRel, FitsRelation, CompilableFields, Run, Compile, Visit;
    var r := Descend(Some(resolver), f).value;
    var q, w := AnyElement(Rel(fs)), Walker(Some(r), db.tables);
    var env, start := Env(map[Root := Obj(doc)], db), State(Root, Some(resolver), [], FNil, PNil, 0);
    var inner := start.(path := [f], resolver := Some(r));
    WalksOneField(f, q, doc, Walker(Some(resolver), db.tables));
    var context := Some(Context(f, Get(doc, f).value));
    assert Walk(Rel(fs), x, context, w) == Says(false);
    assert WalkSomeElement(Rel(fs), INil, context, w) == Says(false);
    FieldPath(doc, f);
    var end := ElementTruth(fs, x, inner, env);
    VisitsOneField(f, q, start, end);
    var left := end.(path := [], resolver := Some(resolver));
    RunsState(Composite(FsCons(f, q, FsNil)), resolver, left, Obj(doc), db);
    PlaceIsSilent(end, left, env);
  }

  // The compiler follows the element itself.
  lemma {:induction false} ElementTruth(fs: QFields, x: Json, st: State, env: Env) returns (end: State)
    requires st.resolver.Some? && None in st.resolver.value.relations
    requires Answerable(fs, st.resolver.value.relations[None], env.db)
    requires IsEmpty(st) && Older(st) && st.base in env.docs && Here(st, env) == Some(Arr(ICons(x, INil)))
    requires WalkForeign(fs, Fetch(st.resolver.value, env.db.tables, None, x), WalkerOf(st, env)) == Says(true)
    ensures Visit(AnyElement(Rel(fs)), st) == Some(end) && end.path == st.path && end.base == st.base
    ensures StateTruth(end, env) == T
  {
    hide StateTruth, CompileRel, FitsRelation, CompilableFields;
    var n := st.alias + 1;
    var element, at := SubElement(st), With(env, Element(n), x);
    RelMeans(fs, None, element, at);
    RelSucceeds(fs, None, element);
    FreshTruth(element, at);
    var related := CompileRel(None, fs, element).value;
    assert Visit(Rel(fs), element) == Some(related);
    FlushMeans(related, at);
    var e := ExistsP(n, Path(st.base, st.path), Flush(related));
    assert EvalExists(n, Flush(related), INil, env) == F;
    assert Eval(e, env) == EvalExists(n, Flush(related), ICons(x, INil), env);
    end := Emit(st.(alias := related.alias), e);
    EmitMeans(st.(alias := related.alias), e, env);
    FreshTruth(st.(alias := related.alias), env);
  }

  lemma OneEquality(v: Json)
    requires Operand(v)
    ensures
      var criteria, doc := FsCons("a", Eq(v), FsNil), FCons("a", v, FNil);
      EvaluateFields(criteria, doc) == Says(true) && FieldsToDict(criteria) == Is(Obj(doc))
  {
    var doc := FCons("a", v, FNil);
    assert EvaluateFields(FsNil, doc) == Says(true);
    assert Put(FNil, "a", v) == doc && CollectDict(FsNil, doc) == Some(doc);
    assert CollectDict(FsCons("a", Eq(v), FsNil), FNil) == CollectDict(FsNil, doc);
  }

  /** The fallback for a field that is no reference looks for it at the top, wherever it is. */
  lemma {:induction false} NestedPlainFieldDiffers(g: string, f: string, v: Json, resolver: Resolver, db: Database)
    requires f != g && Operand(v) && Resolve(Descend(Some(resolver), g).value, Some(f)).None?
    ensures
      var criteria := FsCons("a", Eq(v), FsNil);
      var q := Composite(FsCons(g, RelQuery(Some(f), criteria), FsNil));
      var doc := Obj(FCons(g, Obj(FCons(f, Obj(FCons("a", v, FNil)), FNil)), FNil));
      Evaluate(q, doc) == Says(true) && RunWith(q, resolver, doc, db) == F
  {
    var criteria := FsCons("a", Eq(v), FsNil);
    var inner := FCons(f, Obj(FCons("a", v, FNil)), FNil);
    var doc := FCons(g, Obj(inner), FNil);
    OneEquality(v);
    EvaluatesOneField(f, Rel(criteria), inner);
    EvaluatesOneField(g, RelQuery(Some(f), criteria), doc);
    var start := State(Root, Some(resolver), [], FNil, PNil, 0);
    var there := start.(path := [g], resolver := Descend(Some(resolver), g));
    var q := RelQuery(Some(f), criteria);
    CompilesOneField(f, criteria, there);
    var end := there.(parts := FieldTest(f, Obj(FCons("a", v, FNil))));
    VisitsOneField(g, q, start, end);
    assert Compile(Composite(FsCons(g, q, FsNil)), Some(resolver)) == Some(end.parts);
    RunsFieldTest(f, Obj(FCons("a", v, FNil)), doc, db);
  }
}
