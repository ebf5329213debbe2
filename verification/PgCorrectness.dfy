/** From a query dict to a statement: parsing, compiling and running agree with evaluating. */
module PgCorrectness {
  import opened Options
  import opened Json
  import opened Query
  import opened Relations
  import opened EvaluateWalker
  import opened QueryParser
  import opened PgSql
  import opened PgCompiler
  import opened PgShape
  import opened PgMeaning

  // ---- What the parser guarantees ----

  /** No empty operands, distinct fields, and one place for equalities under each And. */
  predicate Parsed(q: Query) {
    match q
    case EqOf(_) => false
    case In(vs) => vs.ICons?
    case And(qs) => qs.QCons? && ParsedAll(qs) && OneCollects(qs)
    case Or(qs) => qs.QCons? && ParsedAll(qs)
    case Not(p) => Parsed(p)
    case AnyElement(p) => Parsed(p)
    case AllElements(p) => Parsed(p)
    case Len(p) => Parsed(p)
    case Composite(fs) => fs.FsCons? && ParsedFields(fs)
    case Rel(fs) => ParsedFields(fs)
    case _ => true
  }

  predicate ParsedAll(qs: Queries) {
    match qs
    case QNil => true
    case QCons(q, rest) => Parsed(q) && ParsedAll(rest)
  }

  predicate ParsedFields(fs: QFields) {
    match fs
    case FsNil => true
    case FsCons(f, q, rest) => !HasField(rest, f) && Parsed(q) && ParsedFields(rest)
  }

  lemma {:induction false} ParseGuarantees(query: Json)
    requires DistinctKeys(query) && Parse(query).Some?
    ensures Parsed(Normalize(Parse(query).value))
    decreases query, 0
  {
    match query
    case Obj(fields) =>
      if HasOperators(fields) {
        if fields.rest.FNil? {
          SingleGuarantees(fields.key, fields.value);
        } else {
          EachGuarantees(fields);
        }
      } else {
        FieldsGuarantee(fields);
      }
    case _ =>
  }

  lemma {:induction false} SingleGuarantees(name: string, value: Json)
    requires DistinctKeys(value) && ParseSingle(name, value).Some?
    ensures Parsed(Normalize(ParseSingle(name, value).value))
    ensures name != "$eq" ==> !Collects(Normalize(ParseSingle(name, value).value))
    decreases value, 1
  {
    if name == "$eq" {
      if value.Obj? { ParseGuarantees(value); }
    } else if name == "$or" {
      ItemsGuarantee(value.items);
    } else if name == "$not" || name == "$any" || name == "$all" || name == "$len" {
      ParseGuarantees(value);
    } else if name == "$rel" {
      FieldsGuarantee(value.fields);
    }
  }

  lemma {:induction false} EachGuarantees(operators: Fields)
    requires DistinctInFields(operators) && ParseEach(operators).Some?
    ensures
      var qs := NormalizeAll(ParseEach(operators).value);
      && ParsedAll(qs) && OneCollects(qs)
      && (!Has(operators, "$eq") ==> !AnyCollects(qs))
      && (operators.FCons? ==> qs.QCons?)
    decreases operators, 1
  {
    match operators
    case FNil =>
    case FCons(name, value, rest) =>
      SingleGuarantees(name, value);
      EachGuarantees(rest);
  }

  lemma {:induction false} ItemsGuarantee(items: Items)
    requires DistinctInItems(items) && ParseItems(items).Some?
    ensures ParsedAll(NormalizeAll(ParseItems(items).value))
    ensures items.ICons? ==> ParseItems(items).value.QCons?
    decreases items, 0
  {
    match items
    case INil =>
    case ICons(x, rest) =>
      ParseGuarantees(x);
      ItemsGuarantee(rest);
  }

  lemma {:induction false} FieldsGuarantee(fields: Fields)
    requires DistinctInFields(fields) && ParseFields(fields).Some?
    ensures ParsedFields(NormalizeFields(ParseFields(fields).value))
    ensures fields.FCons? ==> ParseFields(fields).value.FsCons?
    ensures forall f :: HasField(NormalizeFields(ParseFields(fields).value), f) <==> Has(fields, f)
    decreases fields, 0
  {
    match fields
    case FNil =>
    case FCons(k, v, rest) =>
      ParseGuarantees(v);
      FieldsGuarantee(rest);
      var fs, more := NormalizeFields(ParseFields(fields).value), NormalizeFields(ParseFields(rest).value);
      forall f ensures HasField(fs, f) <==> Has(fields, f) {
        assert Lookup(fs, f) == if f == k then Some(fs.query) else Lookup(more, f);
        assert HasField(more, f) <==> Has(rest, f);
      }
  }

  // ---- The fragment with a meaning in SQL ----

  /**
   Non-null scalar operands, numbers under $len, and each $rel with criteria, at a place where the
   resolver knows what it refers to: a whole document or a field of its own, not beside other
   operators of that field or directly under its $any or $all.
   */
  predicate InFragment(q: Query, sc: Scope) {
    match q
    case Eq(v) => Operand(v)
    case EqOf(_) => false
    case Cmp(_, v) => Operand(v)
    case In(vs) => Operands(vs)
    case IsNull(_) => true
    case And(qs) => AllInFragment(qs, Inside(sc))
    case Or(qs) => AllInFragment(qs, sc)
    case Not(p) => InFragment(p, sc)
    case AnyElement(p) => InFragment(p, Inside(sc))
    case AllElements(p) => InFragment(p, Inside(sc))
    case Len(p) => NumberFragment(p)
    case Composite(fs) => FieldsInFragment(fs, sc.resolver)
    case Rel(fs) => fs.FsCons? && Relation(sc).Some? && FieldsInFragment(fs, Relation(sc).value.nested)
  }

  predicate AllInFragment(qs: Queries, sc: Scope) {
    match qs
    case QNil => true
    case QCons(q, rest) => InFragment(q, sc) && AllInFragment(rest, sc)
  }

  predicate FieldsInFragment(fs: QFields, r: Option<Resolver>) {
    match fs
    case FsNil => true
    case FsCons(f, q, rest) => InFragment(q, Under(r, f, q)) && FieldsInFragment(rest, r)
  }

  predicate NumberFragment(q: Query) {
    match q
    case Eq(v) => v.Num?
    case Cmp(_, v) => v.Num?
    case In(vs) => Numbers(vs)
    case IsNull(_) => true
    case Not(p) => NumberFragment(p)
    case And(qs) => AllNumberFragment(qs)
    case Or(qs) => AllNumberFragment(qs)
    case _ => false
  }

  predicate AllNumberFragment(qs: Queries) {
    match qs
    case QNil => true
    case QCons(q, rest) => NumberFragment(q) && AllNumberFragment(rest)
  }

  lemma {:induction false} FragmentCompiles(q: Query, sc: Scope)
    requires Parsed(q) && InFragment(q, sc)
    ensures Compilable(q, sc)
  {
    match q
    case And(qs) => FragmentsCompile(qs, Inside(sc));
    case Or(qs) => FragmentsCompile(qs, sc);
    case Not(p) => FragmentCompiles(p, sc);
    case AnyElement(p) => FragmentCompiles(p, Inside(sc));
    case AllElements(p) => FragmentCompiles(p, Inside(sc));
    case Len(p) => NumbersCompile(p);
    case Composite(fs) => FieldFragmentsCompile(fs, sc.resolver);
    case Rel(fs) => FieldFragmentsCompile(fs, Relation(sc).value.nested);
    case _ =>
  }

  lemma {:induction false} FragmentsCompile(qs: Queries, sc: Scope)
    requires ParsedAll(qs) && AllInFragment(qs, sc)
    ensures CompilableAll(qs, sc)
  {
    match qs
    case QNil =>
    case QCons(q, rest) =>
      FragmentCompiles(q, sc);
      FragmentsCompile(rest, sc);
  }

  lemma {:induction false} FieldFragmentsCompile(fs: QFields, r: Option<Resolver>)
    requires ParsedFields(fs) && FieldsInFragment(fs, r)
    ensures CompilableFields(fs, r)
  {
    match fs
    case FsNil =>
    case FsCons(f, q, rest) =>
      FragmentCompiles(q, Under(r, f, q));
      FieldFragmentsCompile(rest, r);
  }

  lemma {:induction false} NumbersCompile(q: Query)
    requires Parsed(q) && NumberFragment(q)
    ensures ScalarQuery(q)
  {
    match q
    case Not(p) => NumbersCompile(p);
    case And(qs) => AllNumbersCompile(qs);
    case Or(qs) => AllNumbersCompile(qs);
    case _ =>
  }

  lemma {:induction false} AllNumbersCompile(qs: Queries)
    requires ParsedAll(qs) && AllNumberFragment(qs)
    ensures ScalarQueries(qs)
  {
    match qs
    case QNil =>
    case QCons(q, rest) =>
      NumbersCompile(q);
      AllNumbersCompile(rest);
  }

  // ---- The theorem ----

  /** The scope of a whole query. */
  function Top(resolver: Option<Resolver>): Scope {
    Scope(resolver, Document)
  }

  /**
   For every query dict of the fragment, and every document and database of matching shape,
   compiling succeeds, the evaluator with an object resolver does not raise, and running the
   statement with its parameters gives the evaluator's verdict, never NULL and never an error. The
   compiler encodes the operands of containment tests but not those of order comparisons; it relies
   on a driver that lets these count as jsonb scalars.
   */
  lemma {:induction false} CompilationPreservesMeaning(query: Json, resolver: Option<Resolver>, doc: Json, db: Database)
    requires RawAsScalar(db.driver)
    requires DistinctKeys(query) && ParseQuery(query).Some?
    requires InFragment(ParseQuery(query).value, Top(resolver))
    requires Fits(ParseQuery(query).value, Some(doc), true, Top(resolver), db.tables)
    ensures
      var q := ParseQuery(query).value;
      && Compile(q, resolver).Some?
      && var sql := Compile(q, resolver).value;
      Same(Walk(q, doc, None, Walker(resolver, db.tables)), Run(EraseAll(sql), IntendedAll(sql), doc, db))
  {
    var q := ParseQuery(query).value;
    ParseGuarantees(query);
    FragmentCompiles(q, Top(resolver));
    QueryMeans(q, resolver, doc, db);
  }

  // The same for a query that is parsed already.
  lemma {:induction false} QueryMeans(q: Query, resolver: Option<Resolver>, doc: Json, db: Database)
    requires RawAsScalar(db.driver) && Compilable(q, Top(resolver))
    requires Fits(q, Some(doc), true, Top(resolver), db.tables)
    ensures Compile(q, resolver).Some?
    ensures
      var sql := Compile(q, resolver).value;
      Same(Walk(q, doc, None, Walker(resolver, db.tables)), Run(EraseAll(sql), IntendedAll(sql), doc, db))
  {
    var env := Env(map[Root := doc], db);
    SubMeans(q, State(Root, resolver, [], FNil, PNil, 0), Top(resolver), env, None);
    BindAllErased(Compile(q, resolver).value);
  }

  // ---- Where the shape or the fragment is left, the two sides part ----

  function OnField(q: Query): Query {
    Composite(FsCons("a", q, FsNil))
  }

  /** The verdict of the compiled statement on a document. */
  function RunQuery(q: Query, doc: Json, db: Database): Truth {
    match Compile(q, None)
    case None => Err
    case Some(sql) => Run(EraseAll(sql), IntendedAll(sql), doc, db)
  }

  const AT_A := State(Root, None, ["a"], FNil, PNil, 0)

  // What a query on one field compiles to, when it ends in one fragment.
  lemma {:induction false} OneFragment(q: Query, st: State, p: Pred<Param>, doc: Json, db: Database)
    requires !q.Rel? && Visit(q, AT_A) == Some(st) && st.path == ["a"] && Flush(st) == PCons(p, PNil)
    ensures RunQuery(OnField(q), doc, db) == Eval(p, Env(map[Root := doc], db))
  {
    CompileOnField(q, st);
    RunOne(OnField(q), p, doc, db);
  }

  lemma EvaluatesOneField(f: string, q: Query, doc: Fields)
    ensures Evaluate(Composite(FsCons(f, q, FsNil)), Obj(doc)) == Evaluate(q, FieldValue(doc, f))
  {
    assert EvaluateFields(FsNil, doc) == Says(true);
    assert Evaluate(Composite(FsCons(f, q, FsNil)), Obj(doc)) == EvaluateFields(FsCons(f, q, FsNil), doc);
  }

  lemma EvaluateOnField(q: Query, doc: Fields)
    ensures Evaluate(OnField(q), Obj(doc)) == Evaluate(q, FieldValue(doc, "a"))
  {
    EvaluatesOneField("a", q, doc);
  }

  lemma {:induction false} CompileOnField(q: Query, st: State)
    requires !q.Rel? && Visit(q, AT_A) == Some(st) && st.path == ["a"]
    ensures Compile(OnField(q), None) == Some(Flush(st))
  {
    hide Flush, Visit;
    var start := State(Root, None, [], FNil, PNil, 0);
    assert start.path + ["a"] == ["a"];
    VisitOnField(q, start);
    var end := st.(path := [], resolver := None);
    assert VisitField("a", q, start) == Some(end);
    assert VisitFields(FsNil, end) == Some(end);
    FlushIgnoresPlace(st, end);
  }

  lemma {:induction false} VisitOnField(q: Query, st: State)
    ensures Visit(OnField(q), st) == VisitFields(FsCons("a", q, FsNil), st)
  {
  }

  lemma {:induction false} FlushIgnoresPlace(st: State, st': State)
    requires st.base == st'.base && st.eq == st'.eq && st.parts == st'.parts
    ensures Flush(st) == Flush(st')
  {
  }

  lemma {:induction false} RunOne(q: Query, p: Pred<Param>, doc: Json, db: Database)
    requires Compile(q, None) == Some(PCons(p, PNil))
    ensures RunQuery(q, doc, db) == Eval(p, Env(map[Root := doc], db))
  {
    hide Compile, Eval;
    BindAllErased(PCons(p, PNil));
    assert EvalAll(PNil, Env(map[Root := doc], db)) == T;
  }

  /** `$all` on a missing field: the evaluator finds no list, NOT EXISTS finds no counterexample. */
  lemma {:induction false} AllOnMissingFieldDiffers(db: Database)
    ensures
      var q := OnField(AllElements(Eq(Num(1.0))));
      Evaluate(q, Obj(FNil)) == Says(false) && RunQuery(q, Obj(FNil), db) == T
  {
    hide RunQuery, OnField;
    var q := AllElements(Eq(Num(1.0)));
    var sub := PCons(ContainsP(Element(1), Jsonb(Num(1.0))), PNil);
    assert Visit(Eq(Num(1.0)), SubElement(AT_A)) == Some(SubElement(AT_A).(parts := sub));
    OneFragment(q, AT_A.(parts := PCons(NotExistsP(1, Path(Root, ["a"]), sub), PNil), alias := 1),
                NotExistsP(1, Path(Root, ["a"]), sub), Obj(FNil), db);
    EvaluateOnField(q, FNil);
  }

  /** Equality with null: a missing field counts as None, but contains nothing. */
  lemma {:induction false} NullOnMissingFieldDiffers(db: Database)
    ensures Evaluate(OnField(Eq(Null)), Obj(FNil)) == Says(true) && RunQuery(OnField(Eq(Null)), Obj(FNil), db) == F
  {
    hide RunQuery, OnField;
    OneFragment(Eq(Null), AT_A.(eq := FCons("a", Null, FNil)), ContainsP(Root, Jsonb(Obj(FCons("a", Null, FNil)))), Obj(FNil), db);
    EvaluateOnField(Eq(Null), FNil);
  }

  /** Python's True equals 1; jsonb's true does not. */
  lemma {:induction false} TrueAgainstOneDiffers(db: Database)
    ensures
      var q, doc := OnField(Eq(Num(1.0))), Obj(FCons("a", Bool(true), FNil));
      Evaluate(q, doc) == Says(true) && RunQuery(q, doc, db) == F
  {
    hide RunQuery, OnField;
    var doc := FCons("a", Bool(true), FNil);
    var eq := FCons("a", Num(1.0), FNil);
    OneFragment(Eq(Num(1.0)), AT_A.(eq := eq), ContainsP(Root, Jsonb(Obj(eq))), Obj(doc), db);
    EvaluateOnField(Eq(Num(1.0)), doc);
    assert Get(doc, "a") == Some(Bool(true)) && !ContainsNested(Bool(true), Num(1.0));
    assert !ContainsFields(doc, eq);
  }

  /** Two equalities under one And, which no parsed query has: the second overwrites the first. */
  lemma {:induction false} TwoEqualitiesLoseOne(db: Database)
    ensures
      var q := OnField(And(QCons(Eq(Num(1.0)), QCons(Eq(Num(2.0)), QNil))));
      var doc := Obj(FCons("a", Num(2.0), FNil));
      Evaluate(q, doc) == Says(false) && RunQuery(q, doc, db) == T
  {
    hide RunQuery, OnField;
    var q := And(QCons(Eq(Num(1.0)), QCons(Eq(Num(2.0)), QNil)));
    var doc := FCons("a", Num(2.0), FNil);
    SecondOverwritesFirst();
    OneFragment(q, AT_A.(eq := doc), ContainsP(Root, Jsonb(Obj(doc))), Obj(doc), db);
    EvaluateOnField(q, doc);
    assert Get(doc, "a") == Some(Num(2.0)) && ContainsFields(doc, FNil);
    assert ContainsFields(doc, doc);
  }

  lemma SecondOverwritesFirst()
    ensures VisitAll(QCons(Eq(Num(1.0)), QCons(Eq(Num(2.0)), QNil)), AT_A) == Some(AT_A.(eq := FCons("a", Num(2.0), FNil)))
  {
    var st1, st2 := AT_A.(eq := FCons("a", Num(1.0), FNil)), AT_A.(eq := FCons("a", Num(2.0), FNil));
    assert Visit(Eq(Num(1.0)), AT_A) == Some(st1);
    assert Put(st1.eq, "a", Num(2.0)) == st2.eq;
    assert Visit(Eq(Num(2.0)), st1) == Some(st2);
    assert VisitAll(QNil, st2) == Some(st2);
  }

  /** A JSON null is None for the evaluator and a value, not NULL, for SQL. */
  lemma {:induction false} IsNullOnJsonNullDiffers(db: Database)
    ensures
      var q, doc := OnField(IsNull(true)), Obj(FCons("a", Null, FNil));
      Evaluate(q, doc) == Says(true) && RunQuery(q, doc, db) == F
  {
    hide RunQuery, OnField;
    var doc := FCons("a", Null, FNil);
    var p := NullP(Value(Path(Root, ["a"])), true);
    OneFragment(IsNull(true), AT_A.(parts := PCons(p, PNil)), p, Obj(doc), db);
    EvaluateOnField(IsNull(true), doc);
    FieldAtPath(doc, Null);
  }

  /** Equality with a list is containment in SQL: a longer list will do. */
  lemma {:induction false} ListEqualityDiffers(db: Database)
    ensures
      var one, two := Arr(ICons(Num(1.0), INil)), Arr(ICons(Num(1.0), ICons(Num(2.0), INil)));
      var q, doc := OnField(Eq(one)), Obj(FCons("a", two, FNil));
      Evaluate(q, doc) == Says(false) && RunQuery(q, doc, db) == T
  {
    hide RunQuery, OnField;
    var one, two := Arr(ICons(Num(1.0), INil)), Arr(ICons(Num(1.0), ICons(Num(2.0), INil)));
    var doc, eq := FCons("a", two, FNil), FCons("a", one, FNil);
    OneFragment(Eq(one), AT_A.(eq := eq), ContainsP(Root, Jsonb(Obj(eq))), Obj(doc), db);
    EvaluateOnField(Eq(one), doc);
    assert SomeItemContains(two.items, Num(1.0)) && ContainsItems(two.items, INil);
    assert ContainsNested(two, one);
    assert ContainsFields(doc, FNil);
    assert ContainsFields(doc, eq);
  }

  // What an order comparison on one field compiles to.
  lemma {:induction false} OrderOnField(v: Json, doc: Fields, db: Database)
    ensures RunQuery(OnField(Cmp(Gt, v)), Obj(doc), db) ==
      Eval(CompareP(Value(Path(Root, ["a"])), GtOp, Raw(v)), Env(map[Root := Obj(doc)], db))
  {
    hide RunQuery, OnField;
    var p := CompareP(Value(Path(Root, ["a"])), GtOp, Raw(v));
    OneFragment(Cmp(Gt, v), AT_A.(parts := PCons(p, PNil)), p, Obj(doc), db);
  }

  lemma FieldAtPath(doc: Fields, v: Json)
    requires Get(doc, "a") == Some(v)
    ensures AtPath(Obj(doc), ["a"]) == Some(v)
  {
    assert ["a"][1..] == [];
  }

  /** An order on a missing field: a TypeError for the evaluator, NULL in SQL. */
  lemma {:induction false} OrderOnMissingFieldDiffers(db: Database)
    requires RawAsScalar(db.driver)
    ensures
      var q := OnField(Cmp(Gt, Num(1.0)));
      Evaluate(q, Obj(FNil)) == Raises && RunQuery(q, Obj(FNil), db) == U
  {
    hide RunQuery, OnField;
    assert db.driver(Num(1.0)) == Some(Num(1.0));
    OrderOnField(Num(1.0), FNil, db);
    EvaluateOnField(Cmp(Gt, Num(1.0)), FNil);
  }

  /** The driver matters: where the database rejects the raw operand, so is the whole statement. */
  lemma {:induction false} RejectedOperandDiffers(db: Database)
    requires db.driver(Num(1.0)) == None
    ensures
      var q, doc := OnField(Cmp(Gt, Num(1.0))), Obj(FCons("a", Num(2.0), FNil));
      Evaluate(q, doc) == Says(true) && RunQuery(q, doc, db) == Err
  {
    hide RunQuery, OnField;
    var doc := FCons("a", Num(2.0), FNil);
    OrderOnField(Num(1.0), doc, db);
    EvaluateOnField(Cmp(Gt, Num(1.0)), doc);
  }
}
