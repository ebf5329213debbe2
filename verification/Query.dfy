/** The operator tree of the query language and its evaluation against a state. */
module Query {
  import opened Options
  import opened Json

  datatype CmpOp = Ne | Gt | Gte | Lt | Lte

  datatype Query =
    | Eq(value: Json)
    | EqOf(nested: Query) // $eq over a parsed dict, before normalisation
    | Cmp(op: CmpOp, operand: Json)
    | In(values: Items)
    | IsNull(flag: bool)
    | And(operands: Queries)
    | Or(operands: Queries)
    | Not(query: Query)
    | AnyElement(query: Query)
    | AllElements(query: Query)
    | Len(query: Query)
    | Rel(criteria: QFields)
    | Composite(criteria: QFields)

  datatype Queries = QNil | QCons(head: Query, tail: Queries)

  /** The fields of a composite query, in insertion order. */
  datatype QFields = FsNil | FsCons(field: string, query: Query, rest: QFields)

  function Lookup(fs: QFields, field: string): Option<Query> {
    match fs
    case FsNil => None
    case FsCons(f, q, rest) => if f == field then Some(q) else Lookup(rest, field)
  }

  predicate HasField(fs: QFields, field: string) {
    Lookup(fs, field).Some?
  }

  function FieldOp(fs: QFields, field: string): Query
    requires HasField(fs, field)
  {
    Lookup(fs, field).value
  }

  function FieldCount(fs: QFields): nat {
    match fs
    case FsNil => 0
    case FsCons(_, _, rest) => 1 + FieldCount(rest)
  }

  function Count(qs: Queries): nat {
    match qs
    case QNil => 0
    case QCons(_, tail) => 1 + Count(tail)
  }

  /** Python's evaluation: a verdict, or a TypeError from comparing values without an order. */
  datatype Verdict = Raises | Says(b: bool)

  function Compare(op: CmpOp, actual: Json, expected: Json): Verdict {
    match op
    case Ne => Says(!PyEq(actual, expected))
    case Gt => FromOrder(PyLess(expected, actual), true)
    case Lt => FromOrder(PyLess(actual, expected), true)
    case Gte => FromOrder(PyLess(actual, expected), false)
    case Lte => FromOrder(PyLess(expected, actual), false)
  }

  function FromOrder(less: Option<bool>, sign: bool): Verdict {
    match less
    case None => Raises
    case Some(b) => Says(b == sign)
  }

  function Evaluate(q: Query, state: Json): Verdict
    decreases q, 0, state
  {
    match q
    case Eq(value) => Says(PyEq(state, value))
    case EqOf(_) => Says(false)
    case Cmp(op, value) => Compare(op, state, value)
    case In(values) => Says(PyIn(state, values))
    case IsNull(flag) => Says(state.Null? == flag)
    case And(operands) => EvaluateAll(operands, state)
    case Or(operands) => EvaluateSome(operands, state)
    case Not(inner) =>
      (match Evaluate(inner, state)
       case Raises => Raises
       case Says(b) => Says(!b))
    case AnyElement(inner) => if state.Arr? then SomeElement(inner, state.items) else Says(false)
    case AllElements(inner) => if state.Arr? then EveryElement(inner, state.items) else Says(false)
    case Len(inner) => if state.Arr? then Evaluate(inner, Num(Length(state.items) as real)) else Says(false)
    case Composite(fields) => if state.Obj? then EvaluateFields(fields, state.fields) else Says(false)
    case Rel(fields) => if state.Obj? then EvaluateFields(fields, state.fields) else Says(false)
  }

  function EvaluateAll(qs: Queries, state: Json): Verdict
    decreases qs, 0, state
  {
    match qs
    case QNil => Says(true)
    case QCons(q, rest) =>
      match Evaluate(q, state)
      case Says(true) => EvaluateAll(rest, state)
      case verdict => verdict
  }

  function EvaluateSome(qs: Queries, state: Json): Verdict
    decreases qs, 0, state
  {
    match qs
    case QNil => Says(false)
    case QCons(q, rest) =>
      match Evaluate(q, state)
      case Says(false) => EvaluateSome(rest, state)
      case verdict => verdict
  }

  function SomeElement(q: Query, items: Items): Verdict
    decreases q, 1, items
  {
    match items
    case INil => Says(false)
    case ICons(x, rest) =>
      match Evaluate(q, x)
      case Says(false) => SomeElement(q, rest)
      case verdict => verdict
  }

  function EveryElement(q: Query, items: Items): Verdict
    decreases q, 1, items
  {
    match items
    case INil => Says(true)
    case ICons(x, rest) =>
      match Evaluate(q, x)
      case Says(true) => EveryElement(q, rest)
      case verdict => verdict
  }

  // A missing field counts as None.
  function FieldValue(state: Fields, field: string): Json {
    match Get(state, field)
    case None => Null
    case Some(v) => v
  }

  function EvaluateFields(fs: QFields, state: Fields): Verdict
    decreases fs, 0
  {
    match fs
    case FsNil => Says(true)
    case FsCons(field, q, rest) =>
      match Evaluate(q, FieldValue(state, field))
      case Says(true) => EvaluateFields(rest, state)
      case verdict => verdict
  }

  /** The state meets the query. */
  predicate Satisfies(state: Json, q: Query) {
    Evaluate(q, state) == Says(true)
  }
}
