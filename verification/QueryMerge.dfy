/** Equality of query operators, and the merge `a + b`. */
module QueryMerge {
  import opened Options
  import opened Json
  import opened PyEquality
  import opened Query

  // ---- Equality ----

  /** `a == b` of operators: dicts of fields compare without order, tuples of operands in order. */
  predicate QEq(a: Query, b: Query)
    decreases a
  {
    match a
    case Eq(v) => b.Eq? && PyEq(v, b.value)
    case EqOf(p) => b.EqOf? && QEq(p, b.nested)
    case Cmp(op, v) => b.Cmp? && op == b.op && PyEq(v, b.operand)
    case In(vs) => b.In? && PyEqItems(vs, b.values)
    case IsNull(f) => b.IsNull? && f == b.flag
    case And(ps) => b.And? && QEqAll(ps, b.operands)
    case Or(ps) => b.Or? && QEqAll(ps, b.operands)
    case Not(p) => b.Not? && QEq(p, b.query)
    case AnyElement(p) => b.AnyElement? && QEq(p, b.query)
    case AllElements(p) => b.AllElements? && QEq(p, b.query)
    case Len(p) => b.Len? && QEq(p, b.query)
    case Rel(fs) => b.Rel? && FieldCount(fs) == FieldCount(b.criteria) && QEqFields(fs, b.criteria)
    case Composite(fs) => b.Composite? && FieldCount(fs) == FieldCount(b.criteria) && QEqFields(fs, b.criteria)
  }

  predicate QEqAll(ps: Queries, qs: Queries)
    decreases ps
  {
    match ps
    case QNil => qs.QNil?
    case QCons(p, rest) => qs.QCons? && QEq(p, qs.head) && QEqAll(rest, qs.tail)
  }

  predicate QEqFields(fs: QFields, gs: QFields)
    decreases fs
  {
    match fs
    case FsNil => true
    case FsCons(f, q, rest) => HasField(gs, f) && QEq(q, FieldOp(gs, f)) && QEqFields(rest, gs)
  }

  // ---- Well-formed operators: every dict in them has distinct keys ----

  predicate Valid(q: Query) {
    match q
    case Eq(v) => DistinctKeys(v)
    case EqOf(p) => Valid(p)
    case Cmp(_, v) => DistinctKeys(v)
    case In(vs) => DistinctInItems(vs)
    case IsNull(_) => true
    case And(qs) => ValidAll(qs)
    case Or(qs) => ValidAll(qs)
    case Not(p) => Valid(p)
    case AnyElement(p) => Valid(p)
    case AllElements(p) => Valid(p)
    case Len(p) => Valid(p)
    case Rel(fs) => ValidFields(fs)
    case Composite(fs) => ValidFields(fs)
  }

  predicate ValidAll(qs: Queries) {
    match qs
    case QNil => true
    case QCons(q, rest) => Valid(q) && ValidAll(rest)
  }

  predicate ValidFields(fs: QFields) {
    match fs
    case FsNil => true
    case FsCons(f, q, rest) => !HasField(rest, f) && Valid(q) && ValidFields(rest)
  }

  function QDepth(q: Query): nat {
    match q
    case EqOf(p) => 1 + QDepth(p)
    case And(qs) => 1 + AllDepth(qs)
    case Or(qs) => 1 + AllDepth(qs)
    case Not(p) => 1 + QDepth(p)
    case AnyElement(p) => 1 + QDepth(p)
    case AllElements(p) => 1 + QDepth(p)
    case Len(p) => 1 + QDepth(p)
    case Rel(fs) => 1 + QFieldsDepth(fs)
    case Composite(fs) => 1 + QFieldsDepth(fs)
    case _ => 0
  }

  function AllDepth(qs: Queries): nat {
    match qs
    case QNil => 0
    case QCons(q, rest) => var d, e := QDepth(q), AllDepth(rest); if d < e then e else d
  }

  function QFieldsDepth(fs: QFields): nat {
    match fs
    case FsNil => 0
    case FsCons(_, q, rest) => var d, e := QDepth(q), QFieldsDepth(rest); if d < e then e else d
  }

  lemma {:induction false} FieldOpFacts(fs: QFields, f: string)
    requires HasField(fs, f)
    ensures QDepth(FieldOp(fs, f)) <= QFieldsDepth(fs)
    ensures ValidFields(fs) ==> Valid(FieldOp(fs, f))
  {
    if fs.field != f {
      FieldOpFacts(fs.rest, f);
    }
  }

  /** Equality of field dicts, key by key. */
  ghost predicate SameFields(fs: QFields, gs: QFields) {
    && (forall f :: HasField(fs, f) <==> HasField(gs, f))
    && (forall f :: HasField(fs, f) && HasField(gs, f) ==> QEq(FieldOp(fs, f), FieldOp(gs, f)))
  }

  lemma {:induction false} QFieldsCovered(fs: QFields, gs: QFields)
    requires ValidFields(fs)
    ensures QEqFields(fs, gs) <==>
      forall f :: HasField(fs, f) ==> HasField(gs, f) && QEq(FieldOp(fs, f), FieldOp(gs, f))
  {
    match fs
    case FsNil =>
    case FsCons(f, q, rest) =>
      QFieldsCovered(rest, gs);
      assert HasField(fs, f) && Lookup(fs, f) == Some(q);
      forall f' | HasField(rest, f') ensures HasField(fs, f') && Lookup(fs, f') == Lookup(rest, f') {}
  }

  function FieldSet(fs: QFields): set<string> {
    match fs
    case FsNil => {}
    case FsCons(f, _, rest) => {f} + FieldSet(rest)
  }

  lemma {:induction false} FieldSetMeaning(fs: QFields)
    ensures forall f :: f in FieldSet(fs) <==> HasField(fs, f)
    ensures ValidFields(fs) ==> |FieldSet(fs)| == FieldCount(fs)
  {
    match fs
    case FsNil =>
    case FsCons(_, _, rest) => FieldSetMeaning(rest);
  }

  lemma FieldsEquality(fs: QFields, gs: QFields)
    requires ValidFields(fs) && ValidFields(gs)
    ensures FieldCount(fs) == FieldCount(gs) && QEqFields(fs, gs) <==> SameFields(fs, gs)
  {
    QFieldsCovered(fs, gs);
    FieldSetMeaning(fs);
    FieldSetMeaning(gs);
    if FieldCount(fs) == FieldCount(gs) && QEqFields(fs, gs) {
      assert FieldSet(fs) <= FieldSet(gs);
      SubsetOfSameSize(FieldSet(fs), FieldSet(gs));
      forall f ensures HasField(fs, f) <==> HasField(gs, f) {
        assert f in FieldSet(fs) <==> f in FieldSet(gs);
      }
    }
    if SameFields(fs, gs) {
      assert FieldSet(fs) == FieldSet(gs) by {
        forall f ensures f in FieldSet(fs) <==> f in FieldSet(gs) {}
      }
    }
  }

  // ---- Operator equality is an equivalence ----

  lemma {:induction false} QRefl(q: Query)
    requires Valid(q)
    ensures QEq(q, q)
    decreases QDepth(q), 0
  {
    match q
    case Eq(v) => Refl(v);
    case EqOf(p) => QRefl(p);
    case Cmp(_, v) => Refl(v);
    case In(vs) => ReflItems(vs);
    case IsNull(_) =>
    case And(qs) => QReflAll(qs);
    case Or(qs) => QReflAll(qs);
    case Not(p) => QRefl(p);
    case AnyElement(p) => QRefl(p);
    case AllElements(p) => QRefl(p);
    case Len(p) => QRefl(p);
    case Rel(fs) => QReflFields(fs);
    case Composite(fs) => QReflFields(fs);
  }

  lemma {:induction false} QReflAll(qs: Queries)
    requires ValidAll(qs)
    ensures QEqAll(qs, qs)
    decreases AllDepth(qs), 1 + Count(qs)
  {
    match qs
    case QNil =>
    case QCons(q, rest) =>
      QRefl(q);
      QReflAll(rest);
  }

  lemma {:induction false} QReflFields(fs: QFields)
    requires ValidFields(fs)
    ensures FieldCount(fs) == FieldCount(fs) && QEqFields(fs, fs)
    decreases QFieldsDepth(fs), 1
  {
    FieldsEquality(fs, fs);
    forall f | HasField(fs, f) ensures QEq(FieldOp(fs, f), FieldOp(fs, f)) {
      FieldOpFacts(fs, f);
      QRefl(FieldOp(fs, f));
    }
  }

  lemma {:induction false} QSym(a: Query, b: Query)
    requires Valid(a) && Valid(b) && QEq(a, b)
    ensures QEq(b, a)
    decreases QDepth(a), 0
  {
    match a
    case Eq(v) => Sym(v, b.value);
    case EqOf(p) => QSym(p, b.nested);
    case Cmp(_, v) => Sym(v, b.operand);
    case In(vs) => SymItems(vs, b.values);
    case IsNull(_) =>
    case And(ps) => QSymAll(ps, b.operands);
    case Or(ps) => QSymAll(ps, b.operands);
    case Not(p) => QSym(p, b.query);
    case AnyElement(p) => QSym(p, b.query);
    case AllElements(p) => QSym(p, b.query);
    case Len(p) => QSym(p, b.query);
    case Rel(fs) => QSymFields(fs, b.criteria);
    case Composite(fs) => QSymFields(fs, b.criteria);
  }

  lemma {:induction false} QSymAll(ps: Queries, qs: Queries)
    requires ValidAll(ps) && ValidAll(qs) && QEqAll(ps, qs)
    ensures QEqAll(qs, ps)
    decreases AllDepth(ps), 1 + Count(ps)
  {
    if ps.QCons? {
      QSym(ps.head, qs.head);
      QSymAll(ps.tail, qs.tail);
    }
  }

  lemma {:induction false} QSymFields(fs: QFields, gs: QFields)
    requires ValidFields(fs) && ValidFields(gs) && FieldCount(fs) == FieldCount(gs) && QEqFields(fs, gs)
    ensures FieldCount(gs) == FieldCount(fs) && QEqFields(gs, fs)
    decreases QFieldsDepth(fs), 1
  {
    FieldsEquality(fs, gs);
    FieldsEquality(gs, fs);
    forall f | HasField(gs, f) ensures QEq(FieldOp(gs, f), FieldOp(fs, f)) {
      FieldOpFacts(fs, f);
      FieldOpFacts(gs, f);
      QSym(FieldOp(fs, f), FieldOp(gs, f));
    }
  }

  lemma {:induction false} QTrans(a: Query, b: Query, c: Query)
    requires Valid(a) && Valid(b) && Valid(c) && QEq(a, b) && QEq(b, c)
    ensures QEq(a, c)
    decreases QDepth(a), 0
  {
    match a
    case Eq(v) => Trans(v, b.value, c.value);
    case EqOf(p) => QTrans(p, b.nested, c.nested);
    case Cmp(_, v) => Trans(v, b.operand, c.operand);
    case In(vs) => TransItems(vs, b.values, c.values);
    case IsNull(_) =>
    case And(ps) => QTransAll(ps, b.operands, c.operands);
    case Or(ps) => QTransAll(ps, b.operands, c.operands);
    case Not(p) => QTrans(p, b.query, c.query);
    case AnyElement(p) => QTrans(p, b.query, c.query);
    case AllElements(p) => QTrans(p, b.query, c.query);
    case Len(p) => QTrans(p, b.query, c.query);
    case Rel(fs) => QTransFields(fs, b.criteria, c.criteria);
    case Composite(fs) => QTransFields(fs, b.criteria, c.criteria);
  }

  lemma {:induction false} QTransAll(ps: Queries, qs: Queries, rs: Queries)
    requires ValidAll(ps) && ValidAll(qs) && ValidAll(rs) && QEqAll(ps, qs) && QEqAll(qs, rs)
    ensures QEqAll(ps, rs)
    decreases AllDepth(ps), 1 + Count(ps)
  {
    if ps.QCons? {
      QTrans(ps.head, qs.head, rs.head);
      QTransAll(ps.tail, qs.tail, rs.tail);
    }
  }

  lemma {:induction false} QTransFields(fs: QFields, gs: QFields, hs: QFields)
    requires ValidFields(fs) && ValidFields(gs) && ValidFields(hs)
    requires FieldCount(fs) == FieldCount(gs) == FieldCount(hs) && QEqFields(fs, gs) && QEqFields(gs, hs)
    ensures FieldCount(fs) == FieldCount(hs) && QEqFields(fs, hs)
    decreases QFieldsDepth(fs), 1
  {
    FieldsEquality(fs, gs);
    FieldsEquality(gs, hs);
    FieldsEquality(fs, hs);
    forall f | HasField(fs, f) && HasField(hs, f) ensures QEq(FieldOp(fs, f), FieldOp(hs, f)) {
      assert HasField(gs, f);
      FieldOpFacts(fs, f);
      FieldOpFacts(gs, f);
      FieldOpFacts(hs, f);
      QTrans(FieldOp(fs, f), FieldOp(gs, f), FieldOp(hs, f));
    }
  }
}
