/**
 What the PostgreSQL query compiler emits for each operator, as a function of the compiler's
 state. Each placeholder carries the parameter it is meant for; the compiler itself keeps text
 and parameters apart, see PgQueryCompiler.
 */
module PgCompiler {
  import opened Options
  import opened Json
  import opened Query
  import opened Relations
  import opened PgSql

  /** The variables of one compiler; `eq` is the dict of collected equalities. */
  datatype State = State(
    base: Base,
    resolver: Option<Resolver>,
    path: seq<string>,
    eq: Fields,
    parts: Preds<Param>,
    alias: nat)

  function Emit(st: State, p: Pred<Param>): State {
    st.(parts := Append(st.parts, PCons(p, PNil)))
  }

  /** `{'k1': {'k2': ... value}}` */
  function Nested(path: seq<string>, value: Json): Json
    decreases |path|
  {
    if path == [] then value else Obj(FCons(path[0], Nested(path[1..], value), FNil))
  }

  /** Stores a value in a nested dict; None where a level on the way is no dict. */
  function Collect(eq: Fields, path: seq<string>, value: Json): Option<Fields>
    requires path != []
    decreases |path|
  {
    if |path| == 1 then Some(Put(eq, path[0], value))
    else
      match Get(eq, path[0])
      case Some(Obj(sub)) =>
        (match Collect(sub, path[1..], value)
         case None => None
         case Some(sub') => Some(Put(eq, path[0], Obj(sub'))))
      case None =>
        (match Collect(FNil, path[1..], value)
         case None => None
         case Some(sub') => Some(Put(eq, path[0], Obj(sub'))))
      case _ => None
  }

  /** The collected equalities become one containment test, in front. */
  function Flush(st: State): Preds<Param> {
    if st.eq.FNil? then st.parts else PCons(ContainsP(st.base, Jsonb(Obj(st.eq))), st.parts)
  }

  function SqlOpOf(op: CmpOp): SqlOp {
    match op
    case Ne => NeOp
    case Gt => GtOp
    case Gte => GteOp
    case Lt => LtOp
    case Lte => LteOp
  }

  function InParts(st: State, values: Items): Alts<Param> {
    match values
    case INil => ANil
    case ICons(v, rest) => ACons(PCons(ContainsP(st.base, Jsonb(Nested(st.path, v))), PNil), InParts(st, rest))
  }

  // A sub-compiler at the same place.
  function Sub(st: State): State {
    st.(eq := FNil, parts := PNil)
  }

  // A sub-compiler for the elements of an array.
  function SubElement(st: State): State {
    State(Element(st.alias + 1), st.resolver, [], FNil, PNil, st.alias + 1)
  }

  /** One visit; None where the compiler raises. */
  function Visit(q: Query, st: State): Option<State>
    decreases q, 0
  {
    match q
    case Eq(value) =>
      if st.path == [] then Some(Emit(st, ContainsP(st.base, Jsonb(value))))
      else
        (match Collect(st.eq, st.path, value)
         case None => None
         case Some(eq) => Some(st.(eq := eq)))
    case EqOf(_) => None // an operator cannot be encoded
    case Cmp(Ne, value) => Some(Emit(st, NotP(PCons(ContainsP(st.base, Jsonb(Nested(st.path, value))), PNil))))
    case Cmp(op, value) => Some(Emit(st, CompareP(Value(Path(st.base, st.path)), SqlOpOf(op), Raw(value))))
    case In(values) =>
      if values.ICons? && values.tail.INil?
      then Some(Emit(st, ContainsP(st.base, Jsonb(Nested(st.path, values.head)))))
      else Some(Emit(st, OrP(InParts(st, values))))
    case IsNull(flag) => Some(Emit(st, NullP(Value(Path(st.base, st.path)), flag)))
    case And(qs) => VisitAll(qs, st)
    case Or(qs) =>
      (match VisitAlternatives(qs, st)
       case None => None
       case Some(b) =>
         var st' := st.(alias := b.alias);
         Some(if b.alts.ANil? then st' else Emit(st', OrP(b.alts))))
    case Not(p) =>
      (match Visit(p, Sub(st))
       case None => None
       case Some(sub) =>
         var st' := st.(alias := sub.alias);
         Some(if Flush(sub).PNil? then st' else Emit(st', NotP(Flush(sub)))))
    case AnyElement(p) =>
      (match Visit(p, SubElement(st))
       case None => None
       case Some(sub) =>
         var st' := st.(alias := sub.alias);
         Some(if Flush(sub).PNil? then st'
              else Emit(st', ExistsP(st.alias + 1, Path(st.base, st.path), Flush(sub)))))
    case AllElements(p) =>
      (match Visit(p, SubElement(st))
       case None => None
       case Some(sub) =>
         var st' := st.(alias := sub.alias);
         Some(if Flush(sub).PNil? then st'
              else Emit(st', NotExistsP(st.alias + 1, Path(st.base, st.path), Flush(sub)))))
    case Len(p) =>
      (match VisitScalar(p, ArrayLength(Path(st.base, st.path)))
       case None => None
       case Some(ps) => Some(st.(parts := Append(st.parts, ps))))
    case Composite(fs) => VisitFields(fs, st)
    case Rel(fs) =>
      if st.path == [] then CompileRel(None, fs, st)
      else CompileRel(Some(st.path[|st.path| - 1]), fs, st.(path := st.path[..|st.path| - 1]))
  }

  function VisitAll(qs: Queries, st: State): Option<State>
    decreases qs, 0
  {
    match qs
    case QNil => Some(st)
    case QCons(q, rest) =>
      match Visit(q, st)
      case None => None
      case Some(st') => VisitAll(rest, st')
  }

  /** The branches of an $or, and the alias counter after them. */
  datatype Branches = Branches(alts: Alts<Param>, alias: nat)

  function VisitAlternatives(qs: Queries, st: State): Option<Branches>
    decreases qs, 0
  {
    match qs
    case QNil => Some(Branches(ANil, st.alias))
    case QCons(q, rest) =>
      match Visit(q, Sub(st))
      case None => None
      case Some(sub) =>
        match VisitAlternatives(rest, st.(alias := sub.alias))
        case None => None
        case Some(b) => Some(Branches(if Flush(sub).PNil? then b.alts else ACons(Flush(sub), b.alts), b.alias))
  }

  function VisitFields(fs: QFields, st: State): Option<State>
    decreases fs, 1
  {
    match fs
    case FsNil => Some(st)
    case FsCons(f, q, rest) =>
      match VisitField(f, q, st)
      case None => None
      case Some(st') => VisitFields(rest, st')
  }

  function VisitField(f: string, q: Query, st: State): Option<State>
    decreases q, 1
  {
    if q.Rel? then CompileRel(Some(f), q.criteria, st)
    else
      match Visit(q, st.(path := st.path + [f], resolver := Descend(st.resolver, f)))
      case None => None
      case Some(st') =>
        // a $rel under an And has popped the path already; popping an empty path raises
        if st'.path == [] then None
        else Some(st'.(path := st'.path[..|st'.path| - 1], resolver := st.resolver))
  }

  /** An equality or a composite of equalities as plain JSON. */
  datatype Plain = Nothing | Is(value: Json) | Unencodable

  function ToDict(q: Query): Plain
    decreases q, 0
  {
    match q
    case Eq(value) => if value.Null? then Nothing else Is(value)
    case EqOf(_) => Unencodable
    case Composite(fs) => FieldsToDict(fs)
    case _ => Nothing
  }

  function FieldsToDict(fs: QFields): Plain
    decreases fs, 1
  {
    match CollectDict(fs, FNil)
    case None => Unencodable
    case Some(FNil) => Nothing
    case Some(fields) => Is(Obj(fields))
  }

  function CollectDict(fs: QFields, result: Fields): Option<Fields>
    decreases fs, 0
  {
    match fs
    case FsNil => Some(result)
    case FsCons(f, q, rest) =>
      match ToDict(q)
      case Nothing => CollectDict(rest, result)
      case Is(v) => CollectDict(rest, Put(result, f, v))
      case Unencodable => None
  }

  function CompileRel(field: Option<string>, fs: QFields, st: State): Option<State>
    decreases fs, 2
  {
    if st.resolver.None? then None
    else
      match Resolve(st.resolver.value, field)
      case Some(info) =>
        (match VisitFields(fs, State(Related(st.alias + 1), info.nested, [], FNil, PNil, st.alias + 1))
         case None => None
         case Some(sub) =>
           var st' := st.(alias := sub.alias);
           var join := Path(st.base, match field { case None => [] case Some(f) => st.path + [f] });
           Some(if Flush(sub).PNil? then st'
                else Emit(st', RelatedP(info.table, st.alias + 1, Flush(sub), info.pk, join))))
      case None =>
        match field
        case None => Some(st)
        case Some(f) =>
          match FieldsToDict(fs)
          case Nothing => Some(st)
          case Is(v) => Some(Emit(st, ContainsP(st.base, Jsonb(Obj(FCons(f, v, FNil))))))
          case Unencodable => None
  }

  /** The compiler for plain SQL values, such as an array length. */
  function VisitScalar(q: Query, e: Expr): Option<Preds<Param>>
    decreases q, 0
  {
    match q
    case Eq(value) => Some(PCons(CompareP(e, EqOp, Raw(value)), PNil))
    case EqOf(_) => None
    case Cmp(op, value) => Some(PCons(CompareP(e, SqlOpOf(op), Raw(value)), PNil))
    case In(values) =>
      if values.ICons? && values.tail.INil? then Some(PCons(CompareP(e, EqOp, Raw(values.head)), PNil))
      else Some(PCons(OrP(ScalarInParts(values, e)), PNil))
    case IsNull(flag) => Some(PCons(NullP(e, flag), PNil))
    case Not(p) =>
      (match VisitScalar(p, e)
       case None => None
       case Some(ps) => Some(if ps.PNil? then PNil else PCons(NotP(ps), PNil)))
    case And(qs) => VisitScalars(qs, e)
    case Or(qs) =>
      (match ScalarAlternatives(qs, e)
       case None => None
       case Some(alts) => Some(if alts.ANil? then PNil else PCons(OrP(alts), PNil)))
    case _ => None
  }

  function ScalarInParts(values: Items, e: Expr): Alts<Param> {
    match values
    case INil => ANil
    case ICons(v, rest) => ACons(PCons(CompareP(e, EqOp, Raw(v)), PNil), ScalarInParts(rest, e))
  }

  function VisitScalars(qs: Queries, e: Expr): Option<Preds<Param>>
    decreases qs, 0
  {
    match qs
    case QNil => Some(PNil)
    case QCons(q, rest) =>
      match (VisitScalar(q, e), VisitScalars(rest, e))
      case (Some(ps), Some(more)) => Some(Append(ps, more))
      case _ => None
  }

  function ScalarAlternatives(qs: Queries, e: Expr): Option<Alts<Param>>
    decreases qs, 0
  {
    match qs
    case QNil => Some(ANil)
    case QCons(q, rest) =>
      match (VisitScalar(q, e), ScalarAlternatives(rest, e))
      case (Some(ps), Some(alts)) => Some(if ps.PNil? then alts else ACons(ps, alts))
      case _ => None
  }

  /** The whole statement for a query, as it is meant. */
  function Compile(q: Query, resolver: Option<Resolver>): Option<Preds<Param>> {
    match Visit(q, State(Root, resolver, [], FNil, PNil, 0))
    case None => None
    case Some(st) => Some(Flush(st))
  }
}
