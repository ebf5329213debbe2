/** The compiled statement means what the evaluator computes, relations included. */
module PgMeaning {
  import opened Options
  import opened Json
  import opened Query
  import opened Relations
  import opened EvaluateWalker
  import opened PgSql
  import opened PgCompiler
  import opened PgShape

  // ---- Documents of matching shape ----

  // Equality of a stored value with an operand is the same for Python and for jsonb: Python
  // takes True for 1, and jsonb lets an array at the top contain a primitive.
  predicate FitsOperand(x: Option<Json>, v: Json, top: bool) {
    x.Some? ==>
      && !(x.value.Bool? && v.Num?) && !(x.value.Num? && v.Bool?)
      && !(top && x.value.Arr?)
  }

  predicate FitsOperands(x: Option<Json>, vs: Items, top: bool) {
    match vs
    case INil => true
    case ICons(v, rest) => FitsOperand(x, v, top) && FitsOperands(x, rest, top)
  }

  predicate SameType(x: Json, v: Json) {
    (x.Num? && v.Num?) || (x.Str? && v.Str?) || (x.Bool? && v.Bool?)
  }

  /**
   The value `x` (None: missing) has the shape the query asks for: objects where fields are
   named, arrays where elements are, values of the operand's type where order is, no JSON null
   where $is_null asks, and for a $rel a table with a proper key column and documents that have
   the shape the criteria ask for. `top` says that `x` is a whole document or array element.
   */
  ghost predicate Fits(q: Query, x: Option<Json>, top: bool, sc: Scope, tables: Tables)
    decreases q, 0, x
  {
    match q
    case Eq(v) => FitsOperand(x, v, top)
    case Cmp(Ne, v) => FitsOperand(x, v, top)
    case Cmp(_, v) => x.Some? && SameType(x.value, v)
    case In(vs) => FitsOperands(x, vs, top)
    case IsNull(_) => x.Some? ==> !x.value.Null?
    case And(qs) => FitsAll(qs, x, top, Inside(sc), tables)
    case Or(qs) => FitsAll(qs, x, top, sc, tables)
    case Not(p) => Fits(p, x, top, sc, tables)
    case AnyElement(p) => x.Some? ==> x.value.Arr? && FitsElements(p, x.value.items, Inside(sc), tables)
    case AllElements(p) => x.Some? && x.value.Arr? && FitsElements(p, x.value.items, Inside(sc), tables)
    case Len(p) => x.Some? && x.value.Arr?
    case Composite(fs) => x.Some? && x.value.Obj? && FitsFields(fs, x.value.fields, sc.resolver, tables)
    case Rel(fs) => Relation(sc).Some? && FitsRelation(fs, Relation(sc).value, tables)
    case _ => false
  }

  ghost predicate FitsAll(qs: Queries, x: Option<Json>, top: bool, sc: Scope, tables: Tables)
    decreases qs, 0, x
  {
    match qs
    case QNil => true
    case QCons(q, rest) => Fits(q, x, top, sc, tables) && FitsAll(rest, x, top, sc, tables)
  }

  ghost predicate FitsElements(q: Query, items: Items, sc: Scope, tables: Tables)
    decreases q, 1, items
  {
    match items
    case INil => true
    case ICons(x, rest) => Fits(q, Some(x), true, sc, tables) && FitsElements(q, rest, sc, tables)
  }

  ghost predicate FitsFields(fs: QFields, doc: Fields, r: Option<Resolver>, tables: Tables)
    decreases fs, 0
  {
    match fs
    case FsNil => true
    case FsCons(f, q, rest) =>
      Fits(q, Get(doc, f), false, Under(r, f, q), tables) && FitsFields(rest, doc, r, tables)
  }

  ghost predicate FitsRelation(fs: QFields, info: RelationInfo, tables: Tables)
    decreases fs, 2
  {
    && info.table in tables
    && Keyed(tables[info.table], info.pk)
    && FitsRows(fs, tables[info.table], info.nested, tables)
  }

  ghost predicate FitsRows(fs: QFields, rows: Rows, r: Option<Resolver>, tables: Tables)
    decreases fs, 1, rows
  {
    match rows
    case RNil => true
    case RCons(row, rest) =>
      row.document.Obj? && FitsFields(fs, row.document.fields, r, tables) && FitsRows(fs, rest, r, tables)
  }

  // ---- One containment test for many equalities ----

  lemma {:induction false} ContainsPut(fs: Fields, eq: Fields, k: string, v: Json)
    ensures Get(eq, k).None? ==>
      (ContainsFields(fs, Put(eq, k, v)) <==> ContainsFields(fs, eq) && Has(fs, k) && ContainsNested(Get(fs, k).value, v))
  {
    if eq.FCons? { ContainsPut(fs, eq.rest, k, v); }
  }

  lemma {:induction false} ContainsReplace(fs: Fields, eq: Fields, k: string, v: Json, more: bool)
    requires Get(eq, k).Some?
    requires Has(fs, k) ==>
      (ContainsNested(Get(fs, k).value, v) <==> ContainsNested(Get(fs, k).value, Get(eq, k).value) && more)
    requires !Has(fs, k) ==> !more
    ensures ContainsFields(fs, Put(eq, k, v)) <==> ContainsFields(fs, eq) && more
  {
    if eq.key != k { ContainsReplace(fs, eq.rest, k, v, more); }
  }

  // Storing one more equality asks for one more value.
  lemma {:induction false} CollectMeans(eq: Fields, path: seq<string>, v: Json, doc: Json)
    requires path != [] && Vacant(eq, path) && Operand(v)
    ensures Collect(eq, path, v).Some?
    ensures ContainsNested(doc, Obj(Collect(eq, path, v).value)) <==>
      (eq.FNil? || ContainsNested(doc, Obj(eq))) && AtPath(doc, path) == Some(v)
    decreases |path|
  {
    CollectSucceeds(eq, path, v);
    var k := path[0];
    if |path| == 1 {
      assert path[1..] == [];
      if doc.Obj? {
        ContainsPut(doc.fields, eq, k, v);
        if Has(doc.fields, k) {
          assert AtPath(doc, path) == Get(doc.fields, k);
        }
      }
    } else if doc.Obj? {
      var sub := if Get(eq, k).Some? then Get(eq, k).value.fields else FNil;
      var sub' := Collect(sub, path[1..], v).value;
      if Has(doc.fields, k) {
        CollectMeans(sub, path[1..], v, Get(doc.fields, k).value);
        AtDeepPath(Get(doc.fields, k).value, path[1..]);
      }
      if Get(eq, k).None? {
        ContainsPut(doc.fields, eq, k, Obj(sub'));
      } else {
        ContainsReplace(doc.fields, eq, k, Obj(sub'), AtPath(doc, path) == Some(v));
      }
    }
  }

  // Only an object has anything at a path.
  lemma AtDeepPath(j: Json, path: seq<string>)
    requires path != []
    ensures AtPath(j, path).Some? ==> j.Obj? && ContainsNested(j, Obj(FNil))
  {
  }

  lemma {:induction false} NestedMeans(doc: Json, path: seq<string>, v: Json)
    requires Operand(v) && (path == [] ==> !doc.Arr?)
    ensures Contains(doc, Nested(path, v)) <==> AtPath(doc, path) == Some(v)
  {
    NestedContained(doc, path, v);
  }

  lemma {:induction false} NestedContained(doc: Json, path: seq<string>, v: Json)
    requires Operand(v)
    ensures ContainsNested(doc, Nested(path, v)) <==> AtPath(doc, path) == Some(v)
    decreases |path|
  {
    if path != [] {
      var inner := Nested(path[1..], v);
      assert Nested(path, v) == Obj(FCons(path[0], inner, FNil));
      if doc.Obj? {
        assert ContainsFields(doc.fields, FNil);
        assert ContainsFields(doc.fields, FCons(path[0], inner, FNil)) <==>
          Has(doc.fields, path[0]) && ContainsNested(Get(doc.fields, path[0]).value, inner);
        if Has(doc.fields, path[0]) {
          NestedContained(Get(doc.fields, path[0]).value, path[1..], v);
        }
      }
    }
  }

  // ---- The truth of a compiler's state ----

  function EqTruth(eq: Fields, doc: Json): Truth {
    if eq.FNil? then T else FromBool(Contains(doc, Obj(eq)))
  }

  function StateTruth(st: State, env: Env): Truth
    requires st.base in env.docs
  {
    And3(EqTruth(st.eq, env.docs[st.base]), EvalAll(st.parts, env))
  }

  lemma {:induction false} FlushMeans(st: State, env: Env)
    requires st.base in env.docs
    ensures EvalAll(Flush(st), env) == StateTruth(st, env)
  {
  }

  lemma {:induction false} EmitMeans(st: State, p: Pred<Param>, env: Env)
    requires st.base in env.docs
    ensures StateTruth(Emit(st, p), env) == And3(StateTruth(st, env), Eval(p, env))
  {
    EvalAppend(st.parts, PCons(p, PNil), env);
  }

  function OrNull(x: Option<Json>): Json {
    match x
    case None => Null
    case Some(v) => v
  }

  // The evaluator says yes or no, and the predicate is definite about the same.
  ghost predicate Same(verdict: Verdict, t: Truth) {
    verdict.Says? && t == FromBool(verdict.b)
  }

  lemma OperandEquality(x: Option<Json>, v: Json, top: bool)
    requires Operand(v) && FitsOperand(x, v, top)
    ensures PyEq(OrNull(x), v) <==> x == Some(v)
  {
  }

  // ---- Leaves ----

  lemma {:induction false} EqMeans(st: State, v: Json, env: Env)
    requires Operand(v) && st.base in env.docs && Vacant(st.eq, st.path)
    requires FitsOperand(AtPath(env.docs[st.base], st.path), v, st.path == [])
    ensures Visit(Eq(v), st).Some?
    ensures Visit(Eq(v), st).value.base == st.base
    ensures StateTruth(Visit(Eq(v), st).value, env) ==
      And3(StateTruth(st, env), FromBool(AtPath(env.docs[st.base], st.path) == Some(v)))
  {
    var doc := env.docs[st.base];
    if st.path == [] {
      EmitMeans(st, ContainsP(st.base, Jsonb(v)), env);
      NestedMeans(doc, [], v);
    } else {
      CollectMeans(st.eq, st.path, v, doc);
      CollectSucceeds(st.eq, st.path, v);
    }
  }

  lemma {:induction false} NeMeans(st: State, v: Json, env: Env)
    requires Operand(v) && st.base in env.docs
    requires FitsOperand(AtPath(env.docs[st.base], st.path), v, st.path == [])
    ensures Eval(NotP(PCons(ContainsP(st.base, Jsonb(Nested(st.path, v))), PNil)), env) ==
      FromBool(AtPath(env.docs[st.base], st.path) != Some(v))
  {
    NestedMeans(env.docs[st.base], st.path, v);
    var inner := PCons(ContainsP(st.base, Jsonb(Nested(st.path, v))), PNil);
    assert EvalAll(PNil, env) == T;
    assert EvalAll(inner, env) == And3(Eval(inner.head, env), T);
  }

  lemma {:induction false} InMeans(st: State, vs: Items, env: Env)
    requires Operands(vs) && st.base in env.docs
    requires FitsOperands(AtPath(env.docs[st.base], st.path), vs, st.path == [])
    ensures EvalSome(InParts(st, vs), env) == FromBool(PyIn(OrNull(AtPath(env.docs[st.base], st.path)), vs))
  {
    match vs
    case INil =>
    case ICons(v, rest) =>
      OperandEquality(AtPath(env.docs[st.base], st.path), v, st.path == []);
      NestedMeans(env.docs[st.base], st.path, v);
      var p := ContainsP(st.base, Jsonb(Nested(st.path, v)));
      assert EvalAll(PNil, env) == T;
      assert EvalAll(PCons(p, PNil), env) == And3(Eval(p, env), T);
      InMeans(st, rest, env);
  }

  lemma OrderMeans(op: CmpOp, x: Json, v: Json)
    requires SameType(x, v) && op != Ne
    ensures Same(Compare(op, x, v), CompareScalars(SqlOpOf(op), x, v))
  {
  }

  // ---- Predicates over an array length ----

  lemma {:induction false} ScalarMeans(q: Query, e: Expr, env: Env, n: real)
    requires ScalarQuery(q) && e.ArrayLength? && ExprValue(env, e) == Some(Num(n))
    requires PathValue(env, e.path).Some? && PathValue(env, e.path).value.Arr?
    ensures VisitScalar(q, e).Some? && Same(Evaluate(q, Num(n)), EvalAll(VisitScalar(q, e).value, env))
    decreases q, 0
  {
    ScalarSucceeds(q, e);
    assert EvalAll(PNil, env) == T;
    match q
    case In(vs) =>
      ScalarInMeans(vs, e, env, n);
    case Not(p) =>
      ScalarMeans(p, e, env, n);
      ScalarSucceeds(p, e);
    case And(qs) => ScalarAndMeans(qs, e, env, n);
    case Or(qs) =>
      ScalarsSucceed(qs, e);
      ScalarOrMeans(qs, e, env, n);
    case _ =>
  }

  lemma {:induction false} ScalarInMeans(vs: Items, e: Expr, env: Env, n: real)
    requires Numbers(vs) && e.ArrayLength? && ExprValue(env, e) == Some(Num(n))
    requires PathValue(env, e.path).Some? && PathValue(env, e.path).value.Arr?
    ensures EvalSome(ScalarInParts(vs, e), env) == FromBool(PyIn(Num(n), vs))
  {
    match vs
    case INil =>
    case ICons(v, rest) =>
      assert EvalAll(PNil, env) == T;
      assert EvalAll(PCons(CompareP(e, EqOp, Raw(v)), PNil), env) == And3(Eval(CompareP(e, EqOp, Raw(v)), env), T);
      ScalarInMeans(rest, e, env, n);
  }

  lemma {:induction false} ScalarAndMeans(qs: Queries, e: Expr, env: Env, n: real)
    requires ScalarQueries(qs) && e.ArrayLength? && ExprValue(env, e) == Some(Num(n))
    requires PathValue(env, e.path).Some? && PathValue(env, e.path).value.Arr?
    ensures VisitScalars(qs, e).Some? && Same(EvaluateAll(qs, Num(n)), EvalAll(VisitScalars(qs, e).value, env))
    decreases qs, 0
  {
    match qs
    case QNil =>
    case QCons(q, rest) =>
      ScalarMeans(q, e, env, n);
      ScalarAndMeans(rest, e, env, n);
      EvalAppend(VisitScalar(q, e).value, VisitScalars(rest, e).value, env);
  }

  lemma {:induction false} ScalarOrMeans(qs: Queries, e: Expr, env: Env, n: real)
    requires ScalarQueries(qs) && e.ArrayLength? && ExprValue(env, e) == Some(Num(n))
    requires PathValue(env, e.path).Some? && PathValue(env, e.path).value.Arr?
    ensures ScalarAlternatives(qs, e).Some? && Same(EvaluateSome(qs, Num(n)), EvalSome(ScalarAlternatives(qs, e).value, env))
    decreases qs, 0
  {
    match qs
    case QNil =>
    case QCons(q, rest) =>
      ScalarMeans(q, e, env, n);
      ScalarSucceeds(q, e);
      ScalarOrMeans(rest, e, env, n);
  }

  // ---- Every operator ----

  function Here(st: State, env: Env): Option<Json>
    requires st.base in env.docs
  {
    AtPath(env.docs[st.base], st.path)
  }

  /** A raw operand compared with jsonb counts as the jsonb scalar of the same value. */
  ghost predicate RawAsScalar(driver: Json -> Option<Json>) {
    forall v :: Operand(v) ==> driver(v) == Some(v)
  }

  /** Visiting adds to the truth of the state exactly the evaluator's verdict. */
  ghost predicate Adds(verdict: Verdict, st: State, st': State, env: Env)
    requires st.base in env.docs && st'.base in env.docs
  {
    verdict.Says? && StateTruth(st', env) == And3(StateTruth(st, env), FromBool(verdict.b))
  }

  lemma And3Associates(a: Truth, b: Truth, c: Truth)
    ensures And3(And3(a, b), c) == And3(a, And3(b, c))
    ensures And3(a, T) == a && And3(T, a) == a
  {
  }

  /** The walker at the compiler's place. */
  function WalkerOf(st: State, env: Env): Walker {
    Walker(st.resolver, env.db.tables)
  }

  // The walker's context is the field that the compiler is at.
  predicate Follows(place: Place, context: Option<Context>, x: Option<Json>) {
    match place
    case Document => context.None?
    case Field(f) => context == Some(Context(f, OrNull(x)))
    case Elsewhere => true
  }

  /** Compiler, statement and walker look at the same place. */
  ghost predicate Meets(st: State, sc: Scope, env: Env, context: Option<Context>) {
    && RawAsScalar(env.db.driver)
    && InScope(st, sc)
    && st.base in env.docs
    && Follows(sc.place, context, Here(st, env))
  }

  lemma {:induction false} VisitMeans(q: Query, st: State, sc: Scope, env: Env, context: Option<Context>)
    requires Meets(st, sc, env, context) && Compilable(q, sc) && (Collects(q) ==> Vacant(st.eq, st.path))
    requires Fits(q, Here(st, env), st.path == [], sc, env.db.tables)
    ensures Visited(q, st, Visit(q, st))
    ensures Adds(Walk(q, OrNull(Here(st, env)), context, WalkerOf(st, env)), st, Visit(q, st).value, env)
    decreases q, 0
  {
    hide StateTruth, Vacant;
    VisitSucceeds(q, st, sc);
    var x := Here(st, env);
    match q
    case Eq(v) =>
      EqMeans(st, v, env);
      OperandEquality(x, v, st.path == []);
    case Cmp(Ne, v) =>
      NeMeans(st, v, env);
      OperandEquality(x, v, st.path == []);
      EmitMeans(st, NotP(PCons(ContainsP(st.base, Jsonb(Nested(st.path, v))), PNil)), env);
    case Cmp(op, v) =>
      OrderMeans(op, x.value, v);
      EmitMeans(st, CompareP(Value(Path(st.base, st.path)), SqlOpOf(op), Raw(v)), env);
    case In(vs) =>
      InOperatorMeans(st, vs, env);
    case IsNull(flag) =>
      EmitMeans(st, NullP(Value(Path(st.base, st.path)), flag), env);
    case And(qs) =>
      VisitAllMeans(qs, st, Inside(sc), env, context);
    case Or(qs) =>
      AlternativesMean(qs, st, sc, env, context);
      AlternativesSucceed(qs, st, sc);
      var b := VisitAlternatives(qs, st).value;
      AliasIsSilent(st, b.alias, env);
      EmitMeans(st.(alias := b.alias), OrP(b.alts), env);
    case Not(p) =>
      NotMeans(p, st, sc, env, context);
    case AnyElement(p) =>
      AnyMeans(p, st, sc, env, context);
    case AllElements(p) =>
      AllMeans(p, st, sc, env, context);
    case Len(p) =>
      LenMeans(p, st, sc, env, context);
    case Composite(fs) =>
      forall f | HasField(fs, f) ensures Vacant(st.eq, st.path + [f]) {
        VacantBelow(st.eq, st.path, f);
      }
      VisitFieldsMean(fs, st, env, x.value.fields);
    case Rel(fs) =>
      BareRelMeans(fs, st, sc, env, context);
  }

  lemma {:induction false} AliasIsSilent(st: State, alias: nat, env: Env)
    requires st.base in env.docs
    ensures StateTruth(st.(alias := alias), env) == StateTruth(st, env)
  {
  }

  lemma {:induction false} FreshTruth(st: State, env: Env)
    requires st.base in env.docs && IsEmpty(st)
    ensures StateTruth(st, env) == T
  {
  }

  lemma {:induction false} InOperatorMeans(st: State, vs: Items, env: Env)
    requires vs.ICons? && Operands(vs) && st.base in env.docs
    requires FitsOperands(Here(st, env), vs, st.path == [])
    ensures Adds(Says(PyIn(OrNull(Here(st, env)), vs)), st, Visit(In(vs), st).value, env)
  {
    InMeans(st, vs, env);
    if vs.tail.INil? {
      var p := ContainsP(st.base, Jsonb(Nested(st.path, vs.head)));
      assert EvalAll(PNil, env) == T;
      assert InParts(st, vs) == ACons(PCons(p, PNil), ANil);
      assert EvalAll(PCons(p, PNil), env) == And3(Eval(p, env), T);
      assert EvalSome(ACons(PCons(p, PNil), ANil), env) == Or3(EvalAll(PCons(p, PNil), env), F);
      EmitMeans(st, p, env);
    } else {
      EmitMeans(st, OrP(InParts(st, vs)), env);
    }
  }

  // A sub-compiler's statement is the verdict.
  lemma {:induction false} SubMeans(q: Query, st: State, sc: Scope, env: Env, context: Option<Context>)
    requires Meets(st, sc, env, context) && Compilable(q, sc) && IsEmpty(st)
    requires Fits(q, Here(st, env), st.path == [], sc, env.db.tables)
    ensures Visited(q, st, Visit(q, st)) && Flush(Visit(q, st).value).PCons?
    ensures Same(Walk(q, OrNull(Here(st, env)), context, WalkerOf(st, env)), EvalAll(Flush(Visit(q, st).value), env))
    decreases q, 1
  {
    NothingIsVacant(st.path);
    VisitMeans(q, st, sc, env, context);
    FreshTruth(st, env);
    FlushMeans(Visit(q, st).value, env);
  }

  lemma {:induction false} NotMeans(p: Query, st: State, sc: Scope, env: Env, context: Option<Context>)
    requires Meets(st, sc, env, context) && Compilable(p, sc)
    requires Fits(p, Here(st, env), st.path == [], sc, env.db.tables)
    ensures Visit(Not(p), st).Some? && Visit(Not(p), st).value.base == st.base
    ensures Adds(Walk(Not(p), OrNull(Here(st, env)), context, WalkerOf(st, env)), st, Visit(Not(p), st).value, env)
    decreases p, 2
  {
    hide StateTruth;
    SubMeans(p, Sub(st), sc, env, context);
    var sub := Visit(p, Sub(st)).value;
    AliasIsSilent(st, sub.alias, env);
    EmitMeans(st.(alias := sub.alias), NotP(Flush(sub)), env);
  }

  lemma {:induction false} ElementMeets(st: State, sc: Scope, x: Json, env: Env, context: Option<Context>)
    requires Meets(st, sc, env, context)
    ensures
      var env' := With(env, Element(st.alias + 1), x);
      && Meets(SubElement(st), Inside(sc), env', context)
      && Here(SubElement(st), env') == Some(x)
      && IsEmpty(SubElement(st))
  {
  }

  lemma {:induction false} AnyMeans(p: Query, st: State, sc: Scope, env: Env, context: Option<Context>)
    requires Meets(st, sc, env, context) && Compilable(p, Inside(sc))
    requires Fits(AnyElement(p), Here(st, env), st.path == [], sc, env.db.tables)
    ensures Visit(AnyElement(p), st).Some? && Visit(AnyElement(p), st).value.base == st.base
    ensures
      Adds(Walk(AnyElement(p), OrNull(Here(st, env)), context, WalkerOf(st, env)), st, Visit(AnyElement(p), st).value, env)
    decreases p, 3
  {
    hide StateTruth;
    VisitSucceeds(p, SubElement(st), Inside(sc));
    var sub := Visit(p, SubElement(st)).value;
    var e := ExistsP(st.alias + 1, Path(st.base, st.path), Flush(sub));
    if Here(st, env).Some? {
      SomeElementMeans(p, st, sc, Here(st, env).value.items, env, context);
    }
    AliasIsSilent(st, sub.alias, env);
    EmitMeans(st.(alias := sub.alias), e, env);
  }

  lemma {:induction false} SomeElementMeans(p: Query, st: State, sc: Scope, items: Items, env: Env, context: Option<Context>)
    requires Meets(st, sc, env, context) && Compilable(p, Inside(sc)) && FitsElements(p, items, Inside(sc), env.db.tables)
    ensures Visit(p, SubElement(st)).Some?
    ensures Same(WalkSomeElement(p, items, context, WalkerOf(st, env)),
                 EvalExists(st.alias + 1, Flush(Visit(p, SubElement(st)).value), items, env))
    decreases p, 2, items
  {
    VisitSucceeds(p, SubElement(st), Inside(sc));
    hide Meets, Compilable, Fits, Visit, Flush, Eval, Walk;
    match items
    case INil =>
    case ICons(x, rest) =>
      ElementMeets(st, sc, x, env, context);
      SubMeans(p, SubElement(st), Inside(sc), With(env, Element(st.alias + 1), x), context);
      SomeElementMeans(p, st, sc, rest, env, context);
  }

  lemma {:induction false} AllMeans(p: Query, st: State, sc: Scope, env: Env, context: Option<Context>)
    requires Meets(st, sc, env, context) && Compilable(p, Inside(sc))
    requires Fits(AllElements(p), Here(st, env), st.path == [], sc, env.db.tables)
    ensures Visit(AllElements(p), st).Some? && Visit(AllElements(p), st).value.base == st.base
    ensures
      Adds(Walk(AllElements(p), OrNull(Here(st, env)), context, WalkerOf(st, env)), st, Visit(AllElements(p), st).value, env)
    decreases p, 3
  {
    hide StateTruth;
    VisitSucceeds(p, SubElement(st), Inside(sc));
    var sub := Visit(p, SubElement(st)).value;
    var e := NotExistsP(st.alias + 1, Path(st.base, st.path), Flush(sub));
    EveryElementMeans(p, st, sc, Here(st, env).value.items, env, context);
    AliasIsSilent(st, sub.alias, env);
    EmitMeans(st.(alias := sub.alias), e, env);
  }

  lemma {:induction false} EveryElementMeans(p: Query, st: State, sc: Scope, items: Items, env: Env, context: Option<Context>)
    requires Meets(st, sc, env, context) && Compilable(p, Inside(sc)) && FitsElements(p, items, Inside(sc), env.db.tables)
    ensures Visit(p, SubElement(st)).Some?
    ensures Same(WalkEveryElement(p, items, context, WalkerOf(st, env)),
                 Not3(EvalExistsNot(st.alias + 1, Flush(Visit(p, SubElement(st)).value), items, env)))
    decreases p, 2, items
  {
    VisitSucceeds(p, SubElement(st), Inside(sc));
    hide Meets, Compilable, Fits, Visit, Flush, Eval, Walk;
    match items
    case INil =>
    case ICons(x, rest) =>
      ElementMeets(st, sc, x, env, context);
      SubMeans(p, SubElement(st), Inside(sc), With(env, Element(st.alias + 1), x), context);
      EveryElementMeans(p, st, sc, rest, env, context);
  }

  lemma {:induction false} LenMeans(p: Query, st: State, sc: Scope, env: Env, context: Option<Context>)
    requires ScalarQuery(p) && st.base in env.docs && Fits(Len(p), Here(st, env), st.path == [], sc, env.db.tables)
    ensures Visit(Len(p), st).Some? && Visit(Len(p), st).value.base == st.base
    ensures Adds(Walk(Len(p), OrNull(Here(st, env)), context, WalkerOf(st, env)), st, Visit(Len(p), st).value, env)
  {
    var e := ArrayLength(Path(st.base, st.path));
    var n := Length(Here(st, env).value.items) as real;
    ScalarMeans(p, e, env, n);
    ScalarIsRelFree(p);
    WalkIsEvaluate(p, Num(n), context, WalkerOf(st, env));
    EvalAppend(st.parts, VisitScalar(p, e).value, env);
    And3Associates(EqTruth(st.eq, env.docs[st.base]), EvalAll(st.parts, env), EvalAll(VisitScalar(p, e).value, env));
  }

  lemma {:induction false} ScalarIsRelFree(q: Query)
    requires ScalarQuery(q)
    ensures RelFree(q)
  {
    match q
    case Not(p) => ScalarIsRelFree(p);
    case And(qs) => ScalarsAreRelFree(qs);
    case Or(qs) => ScalarsAreRelFree(qs);
    case _ =>
  }

  lemma {:induction false} ScalarsAreRelFree(qs: Queries)
    requires ScalarQueries(qs)
    ensures AllRelFree(qs)
  {
    match qs
    case QNil =>
    case QCons(q, rest) =>
      ScalarIsRelFree(q);
      ScalarsAreRelFree(rest);
  }

  lemma {:induction false} VisitAllMeans(qs: Queries, st: State, sc: Scope, env: Env, context: Option<Context>)
    requires Meets(st, sc, env, context) && CompilableAll(qs, sc) && !sc.place.Field?
    requires OneCollects(qs) && (AnyCollects(qs) ==> Vacant(st.eq, st.path))
    requires FitsAll(qs, Here(st, env), st.path == [], sc, env.db.tables)
    ensures VisitAll(qs, st).Some? && VisitAll(qs, st).value.base == st.base
    ensures Adds(WalkAll(qs, OrNull(Here(st, env)), context, WalkerOf(st, env)), st, VisitAll(qs, st).value, env)
    decreases qs, 0
  {
    hide StateTruth, Vacant;
    match qs
    case QNil => And3Associates(StateTruth(st, env), T, T);
    case QCons(q, rest) =>
      VisitMeans(q, st, sc, env, context);
      VisitAllMeans(rest, Visit(q, st).value, sc, env, context);
  }

  lemma {:induction false} AlternativesMean(qs: Queries, st: State, sc: Scope, env: Env, context: Option<Context>)
    requires Meets(st, sc, env, context) && CompilableAll(qs, sc)
    requires FitsAll(qs, Here(st, env), st.path == [], sc, env.db.tables)
    ensures VisitAlternatives(qs, st).Some?
    ensures Same(WalkSome(qs, OrNull(Here(st, env)), context, WalkerOf(st, env)),
                 EvalSome(VisitAlternatives(qs, st).value.alts, env))
    decreases qs, 0
  {
    match qs
    case QNil =>
    case QCons(q, rest) =>
      SubMeans(q, Sub(st), sc, env, context);
      AlternativesMean(rest, st.(alias := Visit(q, Sub(st)).value.alias), sc, env, context);
  }

  lemma {:induction false} VisitFieldsMean(fs: QFields, st: State, env: Env, doc: Fields)
    requires RawAsScalar(env.db.driver) && CompilableFields(fs, st.resolver) && Older(st) && st.base in env.docs
    requires FieldsVacant(st.eq, st.path, fs)
    requires Here(st, env) == Some(Obj(doc)) && FitsFields(fs, doc, st.resolver, env.db.tables)
    ensures VisitFields(fs, st).Some? && VisitFields(fs, st).value.base == st.base
    ensures Adds(WalkFields(fs, doc, WalkerOf(st, env)), st, VisitFields(fs, st).value, env)
    decreases fs, 0
  {
    hide StateTruth, Vacant;
    match fs
    case FsNil => And3Associates(StateTruth(st, env), T, T);
    case FsCons(f, q, rest) =>
      assert HasField(fs, f);
      VisitFieldMeans(f, q, st, env, doc);
      var st' := VisitField(f, q, st).value;
      forall g | HasField(rest, g) ensures Vacant(st'.eq, st.path + [g]) {
        assert HasField(fs, g) && g != f;
        SiblingsDiverge(st.path, f, g);
      }
      VisitFieldsMean(rest, st', env, doc);
  }

  lemma {:induction false} VisitFieldMeans(f: string, q: Query, st: State, env: Env, doc: Fields)
    requires RawAsScalar(env.db.driver) && Compilable(q, Under(st.resolver, f, q)) && Older(st) && st.base in env.docs
    requires Vacant(st.eq, st.path + [f])
    requires Here(st, env) == Some(Obj(doc)) && Fits(q, Get(doc, f), false, Under(st.resolver, f, q), env.db.tables)
    ensures VisitField(f, q, st).Some?
    ensures
      var st' := VisitField(f, q, st).value;
      && SamePlace(st, st') && st'.alias >= st.alias && OnlyBelow(st.eq, st'.eq, st.path + [f])
      && Adds(WalkField(f, q, FieldValue(doc, f), WalkerOf(st, env)), st, st', env)
    decreases q, 1
  {
    VisitFieldSucceeds(f, q, st);
    AtPathStep(env.docs[st.base], st.path, f);
    if q.Rel? {
      RelMeans(q.criteria, Some(f), st, env);
    } else {
      var inner := st.(path := st.path + [f], resolver := Descend(st.resolver, f));
      VisitMeans(q, inner, Under(st.resolver, f, q), env, Some(Context(f, FieldValue(doc, f))));
    }
  }

  // ---- Relations ----

  function JoinKeys(field: Option<string>, path: seq<string>): seq<string> {
    match field
    case None => []
    case Some(f) => path + [f]
  }

  /** The value that a $rel follows, if it is there. */
  function KeyAt(field: Option<string>, st: State, env: Env): Option<Json>
    requires st.base in env.docs
  {
    AtPath(env.docs[st.base], JoinKeys(field, st.path))
  }

  lemma {:induction false} BareRelMeans(fs: QFields, st: State, sc: Scope, env: Env, context: Option<Context>)
    requires Meets(st, sc, env, context) && Compilable(Rel(fs), sc)
    requires Fits(Rel(fs), Here(st, env), st.path == [], sc, env.db.tables)
    ensures Visit(Rel(fs), st).Some? && Visit(Rel(fs), st).value.base == st.base
    ensures Adds(Walk(Rel(fs), OrNull(Here(st, env)), context, WalkerOf(st, env)), st, Visit(Rel(fs), st).value, env)
    decreases fs, 4
  {
    hide StateTruth;
    if st.path == [] {
      RelMeans(fs, None, st, env);
    } else {
      var outer := st.(path := st.path[..|st.path| - 1]);
      assert outer.path + [sc.place.name] == st.path;
      RelMeans(fs, Some(sc.place.name), outer, env);
      PlaceIsSilent(st, outer, env);
    }
  }

  lemma {:induction false} PlaceIsSilent(st: State, st': State, env: Env)
    requires st.base in env.docs && st'.base == st.base && st'.eq == st.eq && st'.parts == st.parts
    ensures StateTruth(st', env) == StateTruth(st, env)
  {
  }

  lemma {:induction false} RelMeans(fs: QFields, field: Option<string>, st: State, env: Env)
    requires RawAsScalar(env.db.driver) && Older(st) && st.base in env.docs
    requires fs.FsCons? && st.resolver.Some? && Resolve(st.resolver.value, field).Some?
    requires CompilableFields(fs, Resolve(st.resolver.value, field).value.nested)
    requires FitsRelation(fs, Resolve(st.resolver.value, field).value, env.db.tables)
    ensures CompileRel(field, fs, st).Some? && CompileRel(field, fs, st).value.base == st.base
    ensures
      var found := Fetch(st.resolver.value, env.db.tables, field, OrNull(KeyAt(field, st, env)));
      Adds(WalkForeign(fs, found, WalkerOf(st, env)), st, CompileRel(field, fs, st).value, env)
    decreases fs, 3
  {
    hide StateTruth, Flush, WalkComposite, EvalRelated, VisitFields;
    var info := Resolve(st.resolver.value, field).value;
    var n := st.alias + 1;
    var rows, join := env.db.tables[info.table], Path(st.base, JoinKeys(field, st.path));
    RelSucceeds(fs, field, st);
    RowsMean(fs, info, n, join, rows, env);
    var sub := VisitFields(fs, ForeignStart(info, n)).value;
    NullIsNoKey(rows, info.pk);
    AliasIsSilent(st, sub.alias, env);
    EmitMeans(st.(alias := sub.alias), RelatedP(info.table, n, Flush(sub), info.pk, join), env);
  }

  // One row: the criteria, asked of its document.
  lemma {:induction false} RowMeans(fs: QFields, info: RelationInfo, n: nat, doc: Fields, env: Env)
    requires RawAsScalar(env.db.driver) && fs.FsCons? && CompilableFields(fs, info.nested)
    requires FitsFields(fs, doc, info.nested, env.db.tables)
    ensures VisitFields(fs, ForeignStart(info, n)).Some?
    ensures
      var sub := VisitFields(fs, ForeignStart(info, n)).value;
      && Flush(sub).PCons?
      && Same(WalkFields(fs, doc, Walker(info.nested, env.db.tables)),
              EvalAll(Flush(sub), With(env, Related(n), Obj(doc))))
    decreases fs, 1
  {
    var start, inner := ForeignStart(info, n), With(env, Related(n), Obj(doc));
    forall f ensures Vacant(FNil, [] + [f]) {
      NothingIsVacant([] + [f]);
    }
    VisitFieldsSucceed(fs, start);
    VisitFieldsMean(fs, start, inner, doc);
    FreshTruth(start, inner);
    FlushMeans(VisitFields(fs, start).value, inner);
  }

  /** What is found under a key that may be missing. */
  function FindAt(rows: Rows, pk: string, key: Option<Json>): Option<Json> {
    match key
    case None => None
    case Some(k) => Find(rows, pk, k)
  }

  function AskFound(fs: QFields, found: Option<Json>, w: Walker): Verdict {
    match found
    case None => Says(false)
    case Some(doc) => WalkComposite(fs, doc, w)
  }

  // All rows: the criteria, asked of the row with the key.
  lemma {:induction false} RowsMean(fs: QFields, info: RelationInfo, n: nat, join: Path, rows: Rows, env: Env)
    requires RawAsScalar(env.db.driver) && fs.FsCons? && CompilableFields(fs, info.nested)
    requires Keyed(rows, info.pk) && FitsRows(fs, rows, info.nested, env.db.tables) && join.base != Related(n)
    requires VisitFields(fs, ForeignStart(info, n)).Some?
    ensures
      var sub := Flush(VisitFields(fs, ForeignStart(info, n)).value);
      Same(AskFound(fs, FindAt(rows, info.pk, PathValue(env, join)), Walker(info.nested, env.db.tables)),
           EvalRelated(n, sub, info.pk, join, rows, env))
    decreases fs, 2, rows
  {
    match rows
    case RNil =>
    case RCons(row, rest) =>
      var sub := Flush(VisitFields(fs, ForeignStart(info, n)).value);
      var inner := With(env, Related(n), row.document);
      RowMeans(fs, info, n, row.document.fields, env);
      RowsMean(fs, info, n, join, rest, env);
      var key := PathValue(env, join);
      assert PathValue(inner, join) == key;
      RowDecides(EvalAll(sub, inner), KeyTruth(row, info.pk, key), EvalRelated(n, sub, info.pk, join, rest, env));
      assert Keyed(rest, info.pk) && KeyIsNew(row, info.pk, rest);
      if key.Some? && HasKey(row, info.pk, key.value) {
        assert FindAt(rest, info.pk, key).None?;
      }
  }

  lemma RowDecides(t: Truth, key: Truth, rest: Truth)
    requires t == T || t == F
    requires rest == T || rest == F
    ensures key == T && rest == F ==> Or3(Kept(And3(t, key)), rest) == t
    ensures key == F || key == U ==> Or3(Kept(And3(t, key)), rest) == rest
  {
  }
}
