/**
 The SQL predicates that queries compile to, with placeholders for parameters, and their value
 on a stored document in three-valued logic.
 */
module PgSql {
  import opened Options
  import opened Json
  import opened Relations

  /** What a predicate talks about: the document, an array element, or a related row's document. */
  datatype Base = Root | Element(alias: nat) | Related(alias: nat)

  /** `base -> 'k1' -> 'k2' ...` */
  datatype Path = Path(base: Base, keys: seq<string>)

  /** The comparable expressions: a JSON value, or the length of a JSON array. */
  datatype Expr = Value(path: Path) | ArrayLength(path: Path)

  datatype SqlOp = EqOp | NeOp | GtOp | GteOp | LtOp | LteOp

  /** A bound parameter: encoded as jsonb, or passed as it is. */
  datatype Param = Jsonb(value: Json) | Raw(value: Json)

  /** Predicates with holes of type H: nothing yet, or the parameter meant for the place. */
  datatype Pred<H> =
    | ContainsP(base: Base, hole: H)
    | CompareP(expr: Expr, op: SqlOp, hole: H)
    | NullP(expr: Expr, isNull: bool)
    | NotP(conjuncts: Preds<H>)
    | OrP(alternatives: Alts<H>)
    | ExistsP(alias: nat, source: Path, conjuncts: Preds<H>)    // EXISTS (... WHERE conjuncts)
    | NotExistsP(alias: nat, source: Path, conjuncts: Preds<H>) // NOT EXISTS (... WHERE NOT (conjuncts))
    // EXISTS (SELECT 1 FROM table alias WHERE conjuncts AND alias.pk = join)
    | RelatedP(table: string, alias: nat, conjuncts: Preds<H>, pk: string, join: Path)

  /** Predicates joined by AND. */
  datatype Preds<H> = PNil | PCons(head: Pred<H>, tail: Preds<H>)

  /** Conjunctions joined by OR. */
  datatype Alts<H> = ANil | ACons(first: Preds<H>, rest: Alts<H>)

  function Append<H>(a: Preds<H>, b: Preds<H>): Preds<H> {
    match a
    case PNil => b
    case PCons(p, rest) => PCons(p, Append(rest, b))
  }

  lemma {:induction false} AppendAssociates<H>(a: Preds<H>, b: Preds<H>, c: Preds<H>)
    ensures Append(Append(a, b), c) == Append(a, Append(b, c))
  {
    if a.PCons? { AppendAssociates(a.tail, b, c); }
  }

  lemma {:induction false} AppendNil<H>(a: Preds<H>)
    ensures Append(a, PNil) == a
  {
    if a.PCons? { AppendNil(a.tail); }
  }

  function AppendAlts<H>(a: Alts<H>, b: Alts<H>): Alts<H> {
    match a
    case ANil => b
    case ACons(p, rest) => ACons(p, AppendAlts(rest, b))
  }

  // ---- Placeholders and parameters ----

  /** The statement text: every hole is a bare placeholder. */
  function Erase(p: Pred<Param>): Pred<()> {
    match p
    case ContainsP(base, _) => ContainsP(base, ())
    case CompareP(e, op, _) => CompareP(e, op, ())
    case NullP(e, flag) => NullP(e, flag)
    case NotP(ps) => NotP(EraseAll(ps))
    case OrP(alts) => OrP(EraseAlts(alts))
    case ExistsP(n, src, ps) => ExistsP(n, src, EraseAll(ps))
    case NotExistsP(n, src, ps) => NotExistsP(n, src, EraseAll(ps))
    case RelatedP(t, n, ps, pk, join) => RelatedP(t, n, EraseAll(ps), pk, join)
  }

  function EraseAll(ps: Preds<Param>): Preds<()> {
    match ps
    case PNil => PNil
    case PCons(p, rest) => PCons(Erase(p), EraseAll(rest))
  }

  function EraseAlts(alts: Alts<Param>): Alts<()> {
    match alts
    case ANil => ANil
    case ACons(ps, rest) => ACons(EraseAll(ps), EraseAlts(rest))
  }

  /** The parameters a predicate is meant to be run with, in the order of the placeholders. */
  function Intended(p: Pred<Param>): seq<Param> {
    match p
    case ContainsP(_, h) => [h]
    case CompareP(_, _, h) => [h]
    case NullP(_, _) => []
    case NotP(ps) => IntendedAll(ps)
    case OrP(alts) => IntendedAlts(alts)
    case ExistsP(_, _, ps) => IntendedAll(ps)
    case NotExistsP(_, _, ps) => IntendedAll(ps)
    case RelatedP(_, _, ps, _, _) => IntendedAll(ps)
  }

  function IntendedAll(ps: Preds<Param>): seq<Param> {
    match ps
    case PNil => []
    case PCons(p, rest) => Intended(p) + IntendedAll(rest)
  }

  function IntendedAlts(alts: Alts<Param>): seq<Param> {
    match alts
    case ANil => []
    case ACons(ps, rest) => IntendedAll(ps) + IntendedAlts(rest)
  }

  function Holes(p: Pred<()>): nat {
    match p
    case ContainsP(_, _) => 1
    case CompareP(_, _, _) => 1
    case NullP(_, _) => 0
    case NotP(ps) => HolesAll(ps)
    case OrP(alts) => HolesAlts(alts)
    case ExistsP(_, _, ps) => HolesAll(ps)
    case NotExistsP(_, _, ps) => HolesAll(ps)
    case RelatedP(_, _, ps, _, _) => HolesAll(ps)
  }

  function HolesAll(ps: Preds<()>): nat {
    match ps
    case PNil => 0
    case PCons(p, rest) => Holes(p) + HolesAll(rest)
  }

  function HolesAlts(alts: Alts<()>): nat {
    match alts
    case ANil => 0
    case ACons(ps, rest) => HolesAll(ps) + HolesAlts(rest)
  }

  /** Positional binding: the k-th placeholder from the left gets the k-th parameter. */
  function Bind(p: Pred<()>, params: seq<Param>): Pred<Param>
    requires |params| == Holes(p)
  {
    match p
    case ContainsP(base, _) => ContainsP(base, params[0])
    case CompareP(e, op, _) => CompareP(e, op, params[0])
    case NullP(e, flag) => NullP(e, flag)
    case NotP(ps) => NotP(BindAll(ps, params))
    case OrP(alts) => OrP(BindAlts(alts, params))
    case ExistsP(n, src, ps) => ExistsP(n, src, BindAll(ps, params))
    case NotExistsP(n, src, ps) => NotExistsP(n, src, BindAll(ps, params))
    case RelatedP(t, n, ps, pk, join) => RelatedP(t, n, BindAll(ps, params), pk, join)
  }

  function BindAll(ps: Preds<()>, params: seq<Param>): Preds<Param>
    requires |params| == HolesAll(ps)
  {
    match ps
    case PNil => PNil
    case PCons(p, rest) => PCons(Bind(p, params[..Holes(p)]), BindAll(rest, params[Holes(p)..]))
  }

  function BindAlts(alts: Alts<()>, params: seq<Param>): Alts<Param>
    requires |params| == HolesAlts(alts)
  {
    match alts
    case ANil => ANil
    case ACons(ps, rest) => ACons(BindAll(ps, params[..HolesAll(ps)]), BindAlts(rest, params[HolesAll(ps)..]))
  }

  lemma {:induction false} BindErased(p: Pred<Param>)
    ensures |Intended(p)| == Holes(Erase(p)) && Bind(Erase(p), Intended(p)) == p
  {
    match p
    case NotP(ps) => BindAllErased(ps);
    case OrP(alts) => BindAltsErased(alts);
    case ExistsP(_, _, ps) => BindAllErased(ps);
    case NotExistsP(_, _, ps) => BindAllErased(ps);
    case RelatedP(_, _, ps, _, _) => BindAllErased(ps);
    case _ =>
  }

  /** A statement run with its intended parameters is the predicate that was meant. */
  lemma {:induction false} BindAllErased(ps: Preds<Param>)
    ensures |IntendedAll(ps)| == HolesAll(EraseAll(ps)) && BindAll(EraseAll(ps), IntendedAll(ps)) == ps
  {
    match ps
    case PNil =>
    case PCons(p, rest) =>
      BindErased(p);
      BindAllErased(rest);
      var params := IntendedAll(ps);
      assert params[..|Intended(p)|] == Intended(p) && params[|Intended(p)|..] == IntendedAll(rest);
  }

  lemma {:induction false} BindAltsErased(alts: Alts<Param>)
    ensures |IntendedAlts(alts)| == HolesAlts(EraseAlts(alts)) && BindAlts(EraseAlts(alts), IntendedAlts(alts)) == alts
  {
    match alts
    case ANil =>
    case ACons(ps, rest) =>
      BindAllErased(ps);
      BindAltsErased(rest);
      var params := IntendedAlts(alts);
      assert params[..|IntendedAll(ps)|] == IntendedAll(ps) && params[|IntendedAll(ps)|..] == IntendedAlts(rest);
  }

  lemma {:induction false} AppendErases(a: Preds<Param>, b: Preds<Param>)
    ensures EraseAll(Append(a, b)) == Append(EraseAll(a), EraseAll(b))
    ensures IntendedAll(Append(a, b)) == IntendedAll(a) + IntendedAll(b)
  {
    if a.PCons? { AppendErases(a.tail, b); }
  }

  lemma {:induction false} AppendAltsErases(a: Alts<Param>, b: Alts<Param>)
    ensures EraseAlts(AppendAlts(a, b)) == AppendAlts(EraseAlts(a), EraseAlts(b))
    ensures IntendedAlts(AppendAlts(a, b)) == IntendedAlts(a) + IntendedAlts(b)
  {
    if a.ACons? { AppendAltsErases(a.rest, b); }
  }

  // ---- Values ----

  /** True, false, unknown (SQL NULL), or an error of the statement. */
  datatype Truth = T | F | U | Err

  function FromBool(b: bool): Truth {
    if b then T else F
  }

  function Not3(t: Truth): Truth {
    match t
    case T => F
    case F => T
    case _ => t
  }

  function And3(a: Truth, b: Truth): Truth {
    if a == Err || b == Err then Err
    else if a == F || b == F then F
    else if a == U || b == U then U
    else T
  }

  function Or3(a: Truth, b: Truth): Truth {
    Not3(And3(Not3(a), Not3(b)))
  }

  /**
   The database: its tables, and what a raw parameter is worth when it is compared with jsonb; None
   if that comparison is rejected.
   */
  datatype Database = Database(tables: Tables, driver: Json -> Option<Json>)

  /** What a statement sees: the documents its expressions name, and the database. */
  datatype Env = Env(docs: map<Base, Json>, db: Database)

  function With(env: Env, base: Base, doc: Json): Env {
    env.(docs := env.docs[base := doc])
  }

  /** A length is compared with the raw number itself. */
  function Received(env: Env, e: Expr, h: Param): Option<Json> {
    if e.Value? && h.Raw? then env.db.driver(h.value) else Some(h.value)
  }

  function PathValue(env: Env, path: Path): Option<Json> {
    if path.base in env.docs then AtPath(env.docs[path.base], path.keys) else None
  }

  // Comparison of two JSON scalars of the same type; jsonb sorts false before true.
  function CompareScalars(op: SqlOp, a: Json, b: Json): Truth {
    match op
    case EqOp => FromBool(a == b)
    case NeOp => FromBool(a != b)
    case LtOp => FromLess(ScalarLess(a, b), true)
    case GtOp => FromLess(ScalarLess(b, a), true)
    case GteOp => FromLess(ScalarLess(a, b), false)
    case LteOp => FromLess(ScalarLess(b, a), false)
  }

  function FromLess(less: Option<bool>, sign: bool): Truth {
    match less
    case None => Err
    case Some(b) => FromBool(b == sign)
  }

  function ScalarLess(a: Json, b: Json): Option<bool> {
    match (a, b)
    case (Num(m), Num(n)) => Some(m < n)
    case (Str(s), Str(t)) => Some(StringLess(s, t))
    case (Bool(x), Bool(y)) => Some(!x && y)
    case _ => None
  }

  function ExprValue(env: Env, e: Expr): Option<Json> {
    match e
    case Value(path) => PathValue(env, path)
    case ArrayLength(path) =>
      match PathValue(env, path)
      case Some(Arr(items)) => Some(Num(Length(items) as real))
      case other => other
  }

  function Eval(p: Pred<Param>, env: Env): Truth
    decreases p, 0, 0
  {
    match p
    case ContainsP(base, h) => if base in env.docs then FromBool(Contains(env.docs[base], h.value)) else Err
    case CompareP(e, op, h) =>
      if Received(env, e, h).None? then Err
      else if e.ArrayLength? && PathValue(env, e.path).Some? && !PathValue(env, e.path).value.Arr? then Err
      else
        (match ExprValue(env, e)
         case None => U
         case Some(v) => CompareScalars(op, v, Received(env, e, h).value))
    case NullP(e, flag) => FromBool(ExprValue(env, e).None? == flag)
    case NotP(ps) => Not3(EvalAll(ps, env))
    case OrP(alts) => if alts.ANil? then Err else EvalSome(alts, env)
    case ExistsP(n, src, ps) =>
      (match PathValue(env, src)
       case None => F
       case Some(Arr(items)) => EvalExists(n, ps, items, env)
       case _ => Err)
    case NotExistsP(n, src, ps) =>
      (match PathValue(env, src)
       case None => T
       case Some(Arr(items)) => Not3(EvalExistsNot(n, ps, items, env))
       case _ => Err)
    case RelatedP(table, n, ps, pk, join) =>
      if table in env.db.tables then EvalRelated(n, ps, pk, join, env.db.tables[table], env) else Err
  }

  function EvalAll(ps: Preds<Param>, env: Env): Truth
    decreases ps, 0, 0
  {
    match ps
    case PNil => T
    case PCons(p, rest) => And3(Eval(p, env), EvalAll(rest, env))
  }

  function EvalSome(alts: Alts<Param>, env: Env): Truth
    decreases alts, 0, 0
  {
    match alts
    case ANil => F
    case ACons(ps, rest) => Or3(EvalAll(ps, env), EvalSome(rest, env))
  }

  // EXISTS keeps the rows for which the condition is true; a NULL condition drops the row.
  function Kept(t: Truth): Truth {
    if t == U then F else t
  }

  function EvalExists(n: nat, ps: Preds<Param>, items: Items, env: Env): Truth
    decreases ps, 1, items
  {
    match items
    case INil => F
    case ICons(x, rest) => Or3(Kept(EvalAll(ps, With(env, Element(n), x))), EvalExists(n, ps, rest, env))
  }

  function EvalExistsNot(n: nat, ps: Preds<Param>, items: Items, env: Env): Truth
    decreases ps, 1, items
  {
    match items
    case INil => F
    case ICons(x, rest) => Or3(Kept(Not3(EvalAll(ps, With(env, Element(n), x)))), EvalExistsNot(n, ps, rest, env))
  }

  /** `row.pk = key`: an error where there is no such column, unknown where the key is NULL. */
  function KeyTruth(row: Row, pk: string, key: Option<Json>): Truth {
    if pk !in row.columns then Err
    else if key.None? then U
    else FromBool(JsonbEq(row.columns[pk], key.value))
  }

  // The alias stands for the row in all of the condition, the join included.
  function EvalRelated(n: nat, ps: Preds<Param>, pk: string, join: Path, rows: Rows, env: Env): Truth
    decreases ps, 1, rows
  {
    match rows
    case RNil => F
    case RCons(row, rest) =>
      var inner := With(env, Related(n), row.document);
      Or3(Kept(And3(EvalAll(ps, inner), KeyTruth(row, pk, PathValue(inner, join)))),
          EvalRelated(n, ps, pk, join, rest, env))
  }

  /** A compiled statement, run with its parameters on a document; no condition keeps every row. */
  function Run(sql: Preds<()>, params: seq<Param>, doc: Json, db: Database): Truth {
    if |params| != HolesAll(sql) then Err else EvalAll(BindAll(sql, params), Env(map[Root := doc], db))
  }

  lemma {:induction false} EvalAppend(a: Preds<Param>, b: Preds<Param>, env: Env)
    ensures EvalAll(Append(a, b), env) == And3(EvalAll(a, env), EvalAll(b, env))
  {
    if a.PCons? { EvalAppend(a.tail, b, env); }
  }
}
