/**
 The PostgreSQL query compiler as an object: visitors append SQL fragments to one list and
 parameters to another, sub-compilers are spliced in, and the collected equalities go to the
 front. Text and parameters stay aligned: each method ends in the state that PgCompiler
 describes, with its fragments as text and its intended parameters as the parameter list.
 */
module PgQueryCompiler {
  import opened Options
  import opened Json
  import opened Query
  import opened Relations
  import opened PgSql
  import opened PgCompiler

  // ---- A measure for recursion through loops ----

  function Weight(q: Query): nat {
    match q
    case EqOf(p) => 1 + Weight(p)
    case And(qs) => 1 + WeightAll(qs)
    case Or(qs) => 1 + WeightAll(qs)
    case Not(p) => 1 + Weight(p)
    case AnyElement(p) => 1 + Weight(p)
    case AllElements(p) => 1 + Weight(p)
    case Len(p) => 1 + Weight(p)
    case Rel(fs) => 1 + WeightFields(fs)
    case Composite(fs) => 1 + WeightFields(fs)
    case _ => 1
  }

  function WeightAll(qs: Queries): nat {
    match qs
    case QNil => 0
    case QCons(q, rest) => Weight(q) + WeightAll(rest)
  }

  function WeightFields(fs: QFields): nat {
    match fs
    case FsNil => 0
    case FsCons(_, q, rest) => Weight(q) + WeightFields(rest)
  }

  /** The compiler of predicates over a plain SQL value. */
  class ScalarPgQueryCompiler {
    const targetExpr: Expr
    var sqlParts: Preds<()>
    var params: seq<Param>

    // Text and parameters are those of `parts`.
    ghost predicate Holds(parts: Preds<Param>)
      reads this
    {
      sqlParts == EraseAll(parts) && params == IntendedAll(parts)
    }

    constructor (targetExpr: Expr)
      ensures this.targetExpr == targetExpr && Holds(PNil)
    {
      this.targetExpr := targetExpr;
      sqlParts, params := PNil, [];
    }

    method Append1(p: Pred<()>, more: seq<Param>, ghost parts: Preds<Param>, ghost meant: Pred<Param>)
      requires Holds(parts) && p == Erase(meant) && more == Intended(meant)
      modifies this
      ensures Holds(Append(parts, PCons(meant, PNil)))
    {
      AppendErases(parts, PCons(meant, PNil));
      sqlParts := Append(sqlParts, PCons(p, PNil));
      params := params + more;
    }

    /** One visit; false where it raises. */
    method Accept(q: Query, ghost parts: Preds<Param>) returns (ok: bool)
      requires Holds(parts)
      modifies this
      ensures ok <==> VisitScalar(q, targetExpr).Some?
      ensures ok ==> Holds(Append(parts, VisitScalar(q, targetExpr).value))
      decreases Weight(q), 0
    {
      ok := true;
      match q {
        case Eq(v) =>
          Append1(CompareP(targetExpr, EqOp, ()), [Raw(v)], parts, CompareP(targetExpr, EqOp, Raw(v)));
        case Cmp(op, v) =>
          Append1(CompareP(targetExpr, SqlOpOf(op), ()), [Raw(v)], parts, CompareP(targetExpr, SqlOpOf(op), Raw(v)));
        case In(vs) =>
          VisitIn(vs, parts);
        case IsNull(flag) =>
          Append1(NullP(targetExpr, flag), [], parts, NullP(targetExpr, flag));
        case Not(p) =>
          var sub := new ScalarPgQueryCompiler(targetExpr);
          ok := sub.Accept(p, PNil);
          if ok {
            ghost var ps := VisitScalar(p, targetExpr).value;
            if sub.sqlParts.PCons? {
              Append1(NotP(sub.sqlParts), sub.params, parts, NotP(ps));
            } else {
              AppendNil(parts);
            }
          }
        case And(qs) => ok := VisitAnd(qs, parts);
        case Or(qs) => ok := VisitOr(qs, parts);
        case _ => ok := false;
      }
    }

    method VisitIn(vs: Items, ghost parts: Preds<Param>)
      requires Holds(parts)
      modifies this
      ensures Holds(Append(parts, VisitScalar(In(vs), targetExpr).value))
    {
      var orParts: Alts<()> := ANil;
      ghost var meant: Alts<Param> := ANil;
      var rest := vs;
      var values: seq<Param> := [];
      while rest.ICons?
        invariant Holds(parts)
        invariant orParts == EraseAlts(meant) && values == IntendedAlts(meant)
        invariant AppendAlts(meant, ScalarInParts(rest, targetExpr)) == ScalarInParts(vs, targetExpr)
        decreases rest
      {
        ghost var p := CompareP(targetExpr, EqOp, Raw(rest.head));
        ghost var one := ACons(PCons(p, PNil), ANil);
        AppendAltsAssociates(meant, one, ScalarInParts(rest.tail, targetExpr));
        AppendAltsErases(meant, one);
        OneAlternative(p);
        orParts := AppendAlts(orParts, ACons(PCons(CompareP(targetExpr, EqOp, ()), PNil), ANil));
        values := values + [Raw(rest.head)];
        meant := AppendAlts(meant, one);
        rest := rest.tail;
      }
      AppendAltsNil(meant);
      if vs.ICons? && vs.tail.INil? {
        OneAlternative(meant.first.head);
        Append1(orParts.first.head, values, parts, meant.first.head);
      } else {
        Append1(OrP(orParts), values, parts, OrP(meant));
      }
    }

    method VisitAnd(qs: Queries, ghost parts: Preds<Param>) returns (ok: bool)
      requires Holds(parts)
      modifies this
      ensures ok <==> VisitScalars(qs, targetExpr).Some?
      ensures ok ==> Holds(Append(parts, VisitScalars(qs, targetExpr).value))
      decreases WeightAll(qs), 1
    {
      var rest := qs;
      ghost var done: Preds<Param> := PNil;
      AppendNil(parts);
      NothingBefore(VisitScalars(qs, targetExpr));
      while rest.QCons?
        invariant Holds(Append(parts, done)) && WeightAll(rest) <= WeightAll(qs)
        invariant VisitScalars(qs, targetExpr) == Before(done, VisitScalars(rest, targetExpr))
        decreases rest
      {
        ok := Accept(rest.head, Append(parts, done));
        if !ok { return; }
        ghost var ps := VisitScalar(rest.head, targetExpr).value;
        AppendAssociates(parts, done, ps);
        BeforeAppended(done, ps, VisitScalars(rest.tail, targetExpr));
        done := Append(done, ps);
        rest := rest.tail;
      }
      AppendNil(done);
      ok := true;
    }

    method VisitOr(qs: Queries, ghost parts: Preds<Param>) returns (ok: bool)
      requires Holds(parts)
      modifies this
      ensures ok <==> VisitScalar(Or(qs), targetExpr).Some?
      ensures ok ==> Holds(Append(parts, VisitScalar(Or(qs), targetExpr).value))
      decreases WeightAll(qs), 1
    {
      var orParts: Alts<()> := ANil;
      ghost var meant: Alts<Param> := ANil;
      var rest := qs;
      var values: seq<Param> := [];
      NothingBeforeAlts(ScalarAlternatives(qs, targetExpr));
      while rest.QCons?
        invariant Holds(parts) && WeightAll(rest) <= WeightAll(qs)
        invariant orParts == EraseAlts(meant) && values == IntendedAlts(meant)
        invariant ScalarAlternatives(qs, targetExpr) == BeforeAlts(meant, ScalarAlternatives(rest, targetExpr))
        decreases rest
      {
        var sub := new ScalarPgQueryCompiler(targetExpr);
        ok := sub.Accept(rest.head, PNil);
        if !ok { return; }
        ghost var ps := VisitScalar(rest.head, targetExpr).value;
        if sub.sqlParts.PCons? {
          AppendAltsErases(meant, ACons(ps, ANil));
          if ScalarAlternatives(rest.tail, targetExpr).Some? {
            BeforeAltsAppended(meant, ps, ScalarAlternatives(rest.tail, targetExpr));
          }
          orParts := AppendAlts(orParts, ACons(sub.sqlParts, ANil));
          values := values + sub.params;
          meant := AppendAlts(meant, ACons(ps, ANil));
        }
        rest := rest.tail;
      }
      AppendAltsNil(meant);
      if orParts.ACons? {
        Append1(OrP(orParts), values, parts, OrP(meant));
      } else {
        AppendNil(parts);
      }
      ok := true;
    }
  }

  lemma OneAlternative(p: Pred<Param>)
    ensures EraseAll(PCons(p, PNil)) == PCons(Erase(p), PNil)
    ensures IntendedAll(PCons(p, PNil)) == Intended(p)
    ensures EraseAlts(ACons(PCons(p, PNil), ANil)) == ACons(PCons(Erase(p), PNil), ANil)
    ensures IntendedAlts(ACons(PCons(p, PNil), ANil)) == Intended(p)
  {
    assert EraseAll(PCons(p, PNil)) == PCons(Erase(p), EraseAll(PNil));
    assert IntendedAll(PCons(p, PNil)) == Intended(p) + IntendedAll(PNil);
  }

  function Before(done: Preds<Param>, more: Option<Preds<Param>>): Option<Preds<Param>> {
    match more
    case None => None
    case Some(ps) => Some(Append(done, ps))
  }

  lemma NothingBefore(more: Option<Preds<Param>>)
    ensures Before(PNil, more) == more
  {
  }

  lemma BeforeAppended(done: Preds<Param>, ps: Preds<Param>, more: Option<Preds<Param>>)
    ensures Before(Append(done, ps), more) == Before(done, Before(ps, more))
  {
    if more.Some? { AppendAssociates(done, ps, more.value); }
  }

  function BeforeAlts(done: Alts<Param>, more: Option<Alts<Param>>): Option<Alts<Param>> {
    match more
    case None => None
    case Some(alts) => Some(AppendAlts(done, alts))
  }

  lemma NothingBeforeAlts(more: Option<Alts<Param>>)
    ensures BeforeAlts(ANil, more) == more
  {
  }

  lemma BeforeAltsAppended(done: Alts<Param>, ps: Preds<Param>, more: Option<Alts<Param>>)
    requires more.Some?
    ensures BeforeAlts(AppendAlts(done, ACons(ps, ANil)), more) == Some(AppendAlts(done, ACons(ps, more.value)))
  {
    AppendAltsAssociates(done, ACons(ps, ANil), more.value);
  }

  lemma {:induction false} AppendAltsAssociates<H>(a: Alts<H>, b: Alts<H>, c: Alts<H>)
    ensures AppendAlts(AppendAlts(a, b), c) == AppendAlts(a, AppendAlts(b, c))
  {
    if a.ACons? { AppendAltsAssociates(a.rest, b, c); }
  }

  lemma {:induction false} AppendAltsNil<H>(a: Alts<H>)
    ensures AppendAlts(a, ANil) == a
  {
    if a.ACons? { AppendAltsNil(a.rest); }
  }

  /** The counter of aliases that a compiler shares with all its sub-compilers. */
  class AliasSeq {
    var n: nat

    constructor ()
      ensures n == 0
    {
      n := 0;
    }
  }

  class PgQueryCompiler {
    const targetValueExpr: Base
    const aliasSeq: AliasSeq
    var relationResolver: Option<Resolver>
    var fieldPath: seq<string>
    var eqValues: Fields
    var sqlParts: Preds<()>
    var params: seq<Param>

    /** The compiler is in the state `st`: its text and its parameters are those of the same fragments. */
    ghost predicate Holds(st: State)
      reads this, aliasSeq
    {
      && targetValueExpr == st.base && relationResolver == st.resolver && fieldPath == st.path
      && eqValues == st.eq && aliasSeq.n == st.alias
      && sqlParts == EraseAll(st.parts) && params == IntendedAll(st.parts)
    }

    constructor (targetValueExpr: Base, relationResolver: Option<Resolver>, aliasSeq: AliasSeq)
      ensures this.aliasSeq == aliasSeq
      ensures Holds(State(targetValueExpr, relationResolver, [], FNil, PNil, aliasSeq.n))
    {
      this.targetValueExpr, this.relationResolver, this.aliasSeq := targetValueExpr, relationResolver, aliasSeq;
      fieldPath, eqValues, sqlParts, params := [], FNil, PNil, [];
    }

    method EmitPart(p: Pred<()>, more: seq<Param>, ghost st: State, ghost meant: Pred<Param>)
      requires Holds(st) && p == Erase(meant) && more == Intended(meant)
      modifies this
      ensures Holds(Emit(st, meant))
    {
      AppendErases(st.parts, PCons(meant, PNil));
      OneAlternative(meant);
      sqlParts := Append(sqlParts, PCons(p, PNil));
      params := params + more;
    }

    method NextAlias() returns (alias: nat)
      modifies aliasSeq
      ensures aliasSeq.n == old(aliasSeq.n) + 1 && alias == aliasSeq.n
    {
      aliasSeq.n := aliasSeq.n + 1;
      alias := aliasSeq.n;
    }

    method FlushEq(ghost st: State)
      requires Holds(st)
      modifies this
      ensures sqlParts == EraseAll(Flush(st)) && params == IntendedAll(Flush(st))
      ensures aliasSeq.n == st.alias
    {
      if eqValues.FCons? {
        sqlParts := PCons(ContainsP(targetValueExpr, ()), sqlParts);
        params := [Jsonb(Obj(eqValues))] + params;
      }
    }

    /** One visit; false where the compiler raises. */
    method Accept(q: Query, ghost st: State) returns (ok: bool)
      requires Holds(st)
      modifies this, aliasSeq
      ensures ok <==> Visit(q, st).Some?
      ensures ok ==> Holds(Visit(q, st).value)
      decreases Weight(q), 2
    {
      ok := true;
      match q {
        case Eq(v) =>
          if fieldPath != [] {
            var collected := Collect(eqValues, fieldPath, v);
            if collected.None? { return false; }
            eqValues := collected.value;
          } else {
            EmitPart(ContainsP(targetValueExpr, ()), [Jsonb(v)], st, ContainsP(targetValueExpr, Jsonb(v)));
          }
        case EqOf(_) => ok := false;
        case Cmp(op, v) =>
          VisitComparison(op, v, st);
        case In(vs) =>
          VisitIn(vs, st);
        case IsNull(flag) =>
          var path := Path(targetValueExpr, fieldPath);
          EmitPart(NullP(Value(path), flag), [], st, NullP(Value(path), flag));
        case And(qs) => ok := VisitAnd(qs, st);
        case Or(qs) => ok := VisitOr(qs, st);
        case Not(p) => ok := VisitNot(p, st);
        case AnyElement(p) => ok := VisitElements(q, p, st);
        case AllElements(p) => ok := VisitElements(q, p, st);
        case Len(p) => ok := VisitLen(p, st);
        case Composite(fs) => ok := VisitComposite(fs, st);
        case Rel(fs) =>
          if fieldPath != [] {
            var field := fieldPath[|fieldPath| - 1];
            fieldPath := fieldPath[..|fieldPath| - 1];
            ok := CompileRelField(Some(field), fs, st.(path := st.path[..|st.path| - 1]));
          } else {
            ok := CompileRelField(None, fs, st);
          }
      }
    }

    method VisitComparison(op: CmpOp, v: Json, ghost st: State)
      requires Holds(st)
      modifies this
      ensures Holds(Visit(Cmp(op, v), st).value)
    {
      if op == Ne {
        var nested := Nested(fieldPath, v);
        ghost var inner := ContainsP(targetValueExpr, Jsonb(nested));
        OneAlternative(inner);
        EmitPart(NotP(PCons(ContainsP(targetValueExpr, ()), PNil)), [Jsonb(nested)], st, NotP(PCons(inner, PNil)));
      } else {
        var e := Value(Path(targetValueExpr, fieldPath));
        EmitPart(CompareP(e, SqlOpOf(op), ()), [Raw(v)], st, CompareP(e, SqlOpOf(op), Raw(v)));
      }
    }

    method VisitIn(vs: Items, ghost st: State)
      requires Holds(st)
      modifies this
      ensures Holds(Visit(In(vs), st).value)
    {
      var orParts: Alts<()> := ANil;
      ghost var meant: Alts<Param> := ANil;
      var rest := vs;
      while rest.ICons?
        invariant targetValueExpr == st.base && relationResolver == st.resolver && fieldPath == st.path
        invariant eqValues == st.eq && aliasSeq.n == st.alias && sqlParts == EraseAll(st.parts)
        invariant params == IntendedAll(st.parts) + IntendedAlts(meant)
        invariant orParts == EraseAlts(meant)
        invariant AppendAlts(meant, InParts(st, rest)) == InParts(st, vs)
        decreases rest
      {
        var nested := Nested(fieldPath, rest.head);
        ghost var p := ContainsP(targetValueExpr, Jsonb(nested));
        ghost var one := ACons(PCons(p, PNil), ANil);
        AppendAltsAssociates(meant, one, InParts(st, rest.tail));
        AppendAltsErases(meant, one);
        OneAlternative(p);
        orParts := AppendAlts(orParts, ACons(PCons(ContainsP(targetValueExpr, ()), PNil), ANil));
        params := params + [Jsonb(nested)];
        meant := AppendAlts(meant, one);
        rest := rest.tail;
      }
      AppendAltsNil(meant);
      var part := if vs.ICons? && vs.tail.INil? then orParts.first.head else OrP(orParts);
      ghost var whole := if vs.ICons? && vs.tail.INil? then meant.first.head else OrP(meant);
      assert part == Erase(whole) && IntendedAlts(meant) == Intended(whole) by {
        if vs.ICons? && vs.tail.INil? {
          OneAlternative(meant.first.head);
        }
      }
      AppendErases(st.parts, PCons(whole, PNil));
      OneAlternative(whole);
      sqlParts := Append(sqlParts, PCons(part, PNil));
    }

    method VisitAnd(qs: Queries, ghost st: State) returns (ok: bool)
      requires Holds(st)
      modifies this, aliasSeq
      ensures ok <==> VisitAll(qs, st).Some?
      ensures ok ==> Holds(VisitAll(qs, st).value)
      decreases WeightAll(qs), 3
    {
      var rest := qs;
      ghost var cur := st;
      while rest.QCons?
        invariant Holds(cur) && WeightAll(rest) <= WeightAll(qs)
        invariant VisitAll(qs, st) == VisitAll(rest, cur)
        decreases rest
      {
        ok := Accept(rest.head, cur);
        if !ok { return; }
        cur := Visit(rest.head, cur).value;
        rest := rest.tail;
      }
      ok := true;
    }

    method VisitOr(qs: Queries, ghost st: State) returns (ok: bool)
      requires Holds(st)
      modifies this, aliasSeq
      ensures ok <==> Visit(Or(qs), st).Some?
      ensures ok ==> Holds(Visit(Or(qs), st).value)
      decreases WeightAll(qs), 3
    {
      hide Flush, Append, Visit, EraseAlts, IntendedAlts, EraseAll, IntendedAll, AppendAlts;
      OrIs(qs, st);
      NoAlternatives();
      var orParts: Alts<()> := ANil;
      ghost var meant: Alts<Param> := ANil;
      ghost var before := params;
      var rest := qs;
      NothingBeforeBranches(VisitAlternatives(qs, st));
      while rest.QCons?
        invariant targetValueExpr == st.base && relationResolver == st.resolver && fieldPath == st.path
        invariant eqValues == st.eq && sqlParts == EraseAll(st.parts) && WeightAll(rest) <= WeightAll(qs)
        invariant params == before + IntendedAlts(meant) && orParts == EraseAlts(meant)
        invariant VisitAlternatives(qs, st) == BeforeBranches(meant, VisitAlternatives(rest, st.(alias := aliasSeq.n)))
        decreases rest
      {
        ghost var cur := st.(alias := aliasSeq.n);
        var sub := new PgQueryCompiler(targetValueExpr, relationResolver, aliasSeq);
        sub.fieldPath := fieldPath;
        ok := sub.Accept(rest.head, Sub(cur));
        if !ok { return; }
        ghost var end := Visit(rest.head, Sub(cur)).value;
        sub.FlushEq(end);
        OneBranch(Flush(end));
        if sub.sqlParts.PCons? {
          AppendAltsErases(meant, ACons(Flush(end), ANil));
          if VisitAlternatives(rest.tail, st.(alias := end.alias)).Some? {
            BranchAppended(meant, Flush(end), VisitAlternatives(rest.tail, st.(alias := end.alias)));
          }
          orParts := AppendAlts(orParts, ACons(sub.sqlParts, ANil));
          params := params + sub.params;
          meant := AppendAlts(meant, ACons(Flush(end), ANil));
        }
        rest := rest.tail;
      }
      AppendAltsNil(meant);
      ErasedShape(meant);
      if orParts.ACons? {
        AppendErases(st.parts, PCons(OrP(meant), PNil));
        OneAlternative(OrP(meant));
        sqlParts := Append(sqlParts, PCons(OrP(orParts), PNil));
      }
      ok := true;
    }

    method VisitNot(p: Query, ghost st: State) returns (ok: bool)
      requires Holds(st)
      modifies this, aliasSeq
      ensures ok <==> Visit(Not(p), st).Some?
      ensures ok ==> Holds(Visit(Not(p), st).value)
      decreases Weight(p), 3
    {
      var sub := new PgQueryCompiler(targetValueExpr, relationResolver, aliasSeq);
      sub.fieldPath := fieldPath;
      ok := sub.Accept(p, Sub(st));
      if ok {
        ghost var end := Visit(p, Sub(st)).value;
        sub.FlushEq(end);
        if sub.sqlParts.PCons? {
          EmitPart(NotP(sub.sqlParts), sub.params, st.(alias := end.alias), NotP(Flush(end)));
        }
      }
    }

    /** $any and $all: a sub-compiler on the elements, under EXISTS or NOT EXISTS. */
    method VisitElements(q: Query, p: Query, ghost st: State) returns (ok: bool)
      requires Holds(st) && (q == AnyElement(p) || q == AllElements(p))
      modifies this, aliasSeq
      ensures ok <==> Visit(q, st).Some?
      ensures ok ==> Holds(Visit(q, st).value)
      decreases Weight(p), 3
    {
      var source := Path(targetValueExpr, fieldPath);
      var alias := NextAlias();
      var sub := new PgQueryCompiler(Element(alias), relationResolver, aliasSeq);
      ok := sub.Accept(p, SubElement(st));
      if ok {
        ghost var end := Visit(p, SubElement(st)).value;
        sub.FlushEq(end);
        if sub.sqlParts.PCons? {
          var part := if q.AnyElement? then ExistsP(alias, source, sub.sqlParts) else NotExistsP(alias, source, sub.sqlParts);
          ghost var meant :=
            if q.AnyElement? then ExistsP(alias, source, Flush(end)) else NotExistsP(alias, source, Flush(end));
          EmitPart(part, sub.params, st.(alias := end.alias), meant);
        }
      }
    }

    method VisitLen(p: Query, ghost st: State) returns (ok: bool)
      requires Holds(st)
      modifies this
      ensures ok <==> Visit(Len(p), st).Some?
      ensures ok ==> Holds(Visit(Len(p), st).value)
    {
      var scalar := new ScalarPgQueryCompiler(ArrayLength(Path(targetValueExpr, fieldPath)));
      ok := scalar.Accept(p, PNil);
      if ok {
        ghost var ps := VisitScalar(p, ArrayLength(Path(st.base, st.path))).value;
        assert Append(PNil, ps) == ps;
        AppendErases(st.parts, ps);
        if scalar.sqlParts.PCons? {
          sqlParts := Append(sqlParts, scalar.sqlParts);
          params := params + scalar.params;
        } else {
          AppendNil(st.parts);
        }
      }
    }

    method VisitComposite(fs: QFields, ghost st: State) returns (ok: bool)
      requires Holds(st)
      modifies this, aliasSeq
      ensures ok <==> VisitFields(fs, st).Some?
      ensures ok ==> Holds(VisitFields(fs, st).value)
      decreases WeightFields(fs), 3
    {
      var rest := fs;
      ghost var cur := st;
      while rest.FsCons?
        invariant Holds(cur) && WeightFields(rest) <= WeightFields(fs)
        invariant VisitFields(fs, st) == VisitFields(rest, cur)
        decreases rest
      {
        var field, op := rest.field, rest.query;
        if op.Rel? {
          ok := CompileRelField(Some(field), op.criteria, cur);
          if !ok { return; }
        } else {
          fieldPath := fieldPath + [field];
          var oldResolver := relationResolver;
          relationResolver := Descend(relationResolver, field);
          ok := Accept(op, cur.(path := cur.path + [field], resolver := Descend(cur.resolver, field)));
          if !ok { return; }
          relationResolver := oldResolver;
          if fieldPath == [] { return false; }
          fieldPath := fieldPath[..|fieldPath| - 1];
        }
        cur := VisitField(field, op, cur).value;
        rest := rest.rest;
      }
      ok := true;
    }

    method CompileRelField(field: Option<string>, fs: QFields, ghost st: State) returns (ok: bool)
      requires Holds(st)
      modifies this, aliasSeq
      ensures ok <==> CompileRel(field, fs, st).Some?
      ensures ok ==> Holds(CompileRel(field, fs, st).value)
      decreases WeightFields(fs), 5
    {
      if relationResolver.None? { return false; }
      var info := Resolve(relationResolver.value, field);
      if info.Some? {
        ok := BuildExistsSubquery(field, fs, info.value, st);
      } else {
        ok := true;
        if field.Some? {
          var nested := FieldsToDict(fs);
          if nested.Unencodable? { return false; }
          if nested.Is? {
            var v := Obj(FCons(field.value, nested.value, FNil));
            EmitPart(ContainsP(targetValueExpr, ()), [Jsonb(v)], st, ContainsP(targetValueExpr, Jsonb(v)));
          }
        }
      }
    }

    method BuildExistsSubquery(field: Option<string>, fs: QFields, info: RelationInfo, ghost st: State) returns (ok: bool)
      requires Holds(st) && st.resolver.Some? && Resolve(st.resolver.value, field) == Some(info)
      modifies this, aliasSeq
      ensures ok <==> CompileRel(field, fs, st).Some?
      ensures ok ==> Holds(CompileRel(field, fs, st).value)
      decreases WeightFields(fs), 4
    {
      var alias := NextAlias();
      var sub := new PgQueryCompiler(Related(alias), info.nested, aliasSeq);
      ghost var start := State(Related(alias), info.nested, [], FNil, PNil, alias);
      ok := sub.VisitComposite(fs, start);
      if ok {
        ghost var end := VisitFields(fs, start).value;
        sub.FlushEq(end);
        if sub.sqlParts.PCons? {
          var join := Path(targetValueExpr, match field { case None => [] case Some(f) => fieldPath + [f] });
          EmitPart(RelatedP(info.table, alias, sub.sqlParts, info.pk, join), sub.params,
                   st.(alias := end.alias), RelatedP(info.table, alias, Flush(end), info.pk, join));
        }
      }
    }
  }

  function BeforeBranches(done: Alts<Param>, more: Option<Branches>): Option<Branches> {
    match more
    case None => None
    case Some(b) => Some(Branches(AppendAlts(done, b.alts), b.alias))
  }

  lemma NoAlternatives()
    ensures EraseAlts(ANil) == ANil && IntendedAlts(ANil) == []
  {
  }

  lemma OneBranch(ps: Preds<Param>)
    ensures EraseAlts(ACons(ps, ANil)) == ACons(EraseAll(ps), ANil)
    ensures IntendedAlts(ACons(ps, ANil)) == IntendedAll(ps)
    ensures EraseAll(ps).PCons? <==> ps.PCons?
  {
  }

  lemma ErasedShape(alts: Alts<Param>)
    ensures EraseAlts(alts).ACons? <==> alts.ACons?
    ensures IntendedAlts(alts) == [] || alts.ACons?
  {
  }

  lemma OrIs(qs: Queries, st: State)
    ensures Visit(Or(qs), st) ==
      match VisitAlternatives(qs, st) {
        case None => None
        case Some(b) =>
          var st' := st.(alias := b.alias);
          Some(if b.alts.ANil? then st' else Emit(st', OrP(b.alts)))
      }
  {
  }

  lemma NothingBeforeBranches(more: Option<Branches>)
    ensures BeforeBranches(ANil, more) == more
  {
  }

  lemma BranchAppended(done: Alts<Param>, ps: Preds<Param>, more: Option<Branches>)
    requires more.Some?
    ensures BeforeBranches(AppendAlts(done, ACons(ps, ANil)), more) ==
      Some(Branches(AppendAlts(done, ACons(ps, more.value.alts)), more.value.alias))
  {
    AppendAltsAssociates(done, ACons(ps, ANil), more.value.alts);
  }
}
