/** Evaluation with an object resolver: a $rel is asked of the object that the reference leads to. */
module EvaluateWalker {
  import opened Options
  import opened Json
  import opened Query
  import opened Relations

  /** The walker's resolver, and the tables its repositories read. */
  datatype Walker = Walker(resolver: Option<Resolver>, tables: Tables)

  /** The field that is being evaluated, and its value: what a $rel below it follows. */
  datatype Context = Context(field: string, key: Json)

  function Walk(q: Query, state: Json, context: Option<Context>, w: Walker): Verdict
    decreases q, 0, state
  {
    match q
    case Eq(value) => Says(PyEq(state, value))
    case EqOf(_) => Says(false)
    case Cmp(op, value) => Compare(op, state, value)
    case In(values) => Says(PyIn(state, values))
    case IsNull(flag) => Says(state.Null? == flag)
    case And(operands) => WalkAll(operands, state, context, w)
    case Or(operands) => WalkSome(operands, state, context, w)
    case Not(inner) =>
      (match Walk(inner, state, context, w)
       case Raises => Raises
       case Says(b) => Says(!b))
    case AnyElement(inner) => if state.Arr? then WalkSomeElement(inner, state.items, context, w) else Says(false)
    case AllElements(inner) => if state.Arr? then WalkEveryElement(inner, state.items, context, w) else Says(false)
    case Len(inner) => if state.Arr? then Walk(inner, Num(Length(state.items) as real), context, w) else Says(false)
    case Composite(fields) => WalkComposite(fields, state, w)
    case Rel(fields) =>
      if w.resolver.None? then WalkComposite(fields, state, w)
      else
        match context
        case None => WalkForeign(fields, Fetch(w.resolver.value, w.tables, None, state), w)
        case Some(c) => WalkForeign(fields, Fetch(w.resolver.value, w.tables, Some(c.field), c.key), w)
  }

  function WalkAll(qs: Queries, state: Json, context: Option<Context>, w: Walker): Verdict
    decreases qs, 0, state
  {
    match qs
    case QNil => Says(true)
    case QCons(q, rest) =>
      match Walk(q, state, context, w)
      case Says(true) => WalkAll(rest, state, context, w)
      case verdict => verdict
  }

  function WalkSome(qs: Queries, state: Json, context: Option<Context>, w: Walker): Verdict
    decreases qs, 0, state
  {
    match qs
    case QNil => Says(false)
    case QCons(q, rest) =>
      match Walk(q, state, context, w)
      case Says(false) => WalkSome(rest, state, context, w)
      case verdict => verdict
  }

  function WalkSomeElement(q: Query, items: Items, context: Option<Context>, w: Walker): Verdict
    decreases q, 1, items
  {
    match items
    case INil => Says(false)
    case ICons(x, rest) =>
      match Walk(q, x, context, w)
      case Says(false) => WalkSomeElement(q, rest, context, w)
      case verdict => verdict
  }

  function WalkEveryElement(q: Query, items: Items, context: Option<Context>, w: Walker): Verdict
    decreases q, 1, items
  {
    match items
    case INil => Says(true)
    case ICons(x, rest) =>
      match Walk(q, x, context, w)
      case Says(true) => WalkEveryElement(q, rest, context, w)
      case verdict => verdict
  }

  function WalkComposite(fs: QFields, state: Json, w: Walker): Verdict
    decreases fs, 1
  {
    if state.Obj? then WalkFields(fs, state.fields, w) else Says(false)
  }

  // The criteria, asked of the foreign object by a walker of its own.
  function WalkForeign(fs: QFields, found: Option<Foreign>, w: Walker): Verdict
    decreases fs, 2
  {
    match found
    case None => Says(false)
    case Some(f) => WalkComposite(fs, f.state, w.(resolver := f.nested))
  }

  function WalkFields(fs: QFields, state: Fields, w: Walker): Verdict
    decreases fs, 0
  {
    match fs
    case FsNil => Says(true)
    case FsCons(field, q, rest) =>
      match WalkField(field, q, FieldValue(state, field), w)
      case Says(true) => WalkFields(rest, state, w)
      case verdict => verdict
  }

  function WalkField(field: string, q: Query, value: Json, w: Walker): Verdict
    decreases q, 1
  {
    if q.Rel? && w.resolver.Some? then WalkForeign(q.criteria, Fetch(w.resolver.value, w.tables, Some(field), value), w)
    else Walk(q, value, Some(Context(field, value)), w.(resolver := Descend(w.resolver, field)))
  }

  // ---- Without relations the two evaluators agree ----

  predicate RelFree(q: Query) {
    match q
    case Rel(_) => false
    case And(qs) => AllRelFree(qs)
    case Or(qs) => AllRelFree(qs)
    case Not(p) => RelFree(p)
    case AnyElement(p) => RelFree(p)
    case AllElements(p) => RelFree(p)
    case Len(p) => RelFree(p)
    case Composite(fs) => FieldsRelFree(fs)
    case _ => true
  }

  predicate AllRelFree(qs: Queries) {
    match qs
    case QNil => true
    case QCons(q, rest) => RelFree(q) && AllRelFree(rest)
  }

  predicate FieldsRelFree(fs: QFields) {
    match fs
    case FsNil => true
    case FsCons(_, q, rest) => RelFree(q) && FieldsRelFree(rest)
  }

  /** On queries without $rel, and on all queries without a resolver, it is the synchronous evaluation. */
  lemma {:induction false} WalkIsEvaluate(q: Query, state: Json, context: Option<Context>, w: Walker)
    requires w.resolver.None? || RelFree(q)
    ensures Walk(q, state, context, w) == Evaluate(q, state)
    decreases q, 0, state
  {
    match q
    case And(qs) => WalkAllIsEvaluateAll(qs, state, context, w);
    case Or(qs) => WalkAllIsEvaluateAll(qs, state, context, w);
    case Not(p) => WalkIsEvaluate(p, state, context, w);
    case AnyElement(p) => if state.Arr? { WalkElementsIsElements(p, state.items, context, w); }
    case AllElements(p) => if state.Arr? { WalkElementsIsElements(p, state.items, context, w); }
    case Len(p) => if state.Arr? { WalkIsEvaluate(p, Num(Length(state.items) as real), context, w); }
    case Composite(fs) => if state.Obj? { WalkFieldsIsEvaluateFields(fs, state.fields, w); }
    case Rel(fs) => if state.Obj? { WalkFieldsIsEvaluateFields(fs, state.fields, w); }
    case _ =>
  }

  lemma {:induction false} WalkAllIsEvaluateAll(qs: Queries, state: Json, context: Option<Context>, w: Walker)
    requires w.resolver.None? || AllRelFree(qs)
    ensures WalkAll(qs, state, context, w) == EvaluateAll(qs, state)
    ensures WalkSome(qs, state, context, w) == EvaluateSome(qs, state)
    decreases qs, 0, state
  {
    match qs
    case QNil =>
    case QCons(q, rest) =>
      WalkIsEvaluate(q, state, context, w);
      WalkAllIsEvaluateAll(rest, state, context, w);
  }

  lemma {:induction false} WalkElementsIsElements(q: Query, items: Items, context: Option<Context>, w: Walker)
    requires w.resolver.None? || RelFree(q)
    ensures WalkSomeElement(q, items, context, w) == SomeElement(q, items)
    ensures WalkEveryElement(q, items, context, w) == EveryElement(q, items)
    decreases q, 1, items
  {
    match items
    case INil =>
    case ICons(x, rest) =>
      WalkIsEvaluate(q, x, context, w);
      WalkElementsIsElements(q, rest, context, w);
  }

  lemma {:induction false} WalkFieldsIsEvaluateFields(fs: QFields, state: Fields, w: Walker)
    requires w.resolver.None? || FieldsRelFree(fs)
    ensures WalkFields(fs, state, w) == EvaluateFields(fs, state)
    decreases fs, 0
  {
    match fs
    case FsNil =>
    case FsCons(field, q, rest) =>
      var v := FieldValue(state, field);
      WalkIsEvaluate(q, v, Some(Context(field, v)), w.(resolver := Descend(w.resolver, field)));
      WalkFieldsIsEvaluateFields(rest, state, w);
  }
}
