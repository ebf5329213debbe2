/** From dicts to operator trees and back: the parser, the normaliser and the printer. */
module QueryParser {
  import opened Options
  import opened Json
  import opened Query

  // ---- Parsing; None stands for ValueError ----

  predicate IsOperatorKey(key: string) {
    key != "" && key[0] == '$'
  }

  predicate HasOperators(fields: Fields) {
    match fields
    case FNil => false
    case FCons(k, _, rest) => IsOperatorKey(k) || HasOperators(rest)
  }

  predicate HasPlainFields(fields: Fields) {
    match fields
    case FNil => false
    case FCons(k, _, rest) => !IsOperatorKey(k) || HasPlainFields(rest)
  }

  function CmpFromName(name: string): Option<CmpOp> {
    if name == "$ne" then Some(Ne)
    else if name == "$gt" then Some(Gt)
    else if name == "$gte" then Some(Gte)
    else if name == "$lt" then Some(Lt)
    else if name == "$lte" then Some(Lte)
    else None
  }

  function Parse(query: Json): Option<Query>
    decreases query, 0
  {
    match query
    case Obj(fields) =>
      if fields.FNil? then None
      else if HasOperators(fields) && HasPlainFields(fields) then None
      else if HasOperators(fields) then ParseOperators(fields)
      else ParseComposite(fields)
    case _ => Some(Eq(query))
  }

  function ParseComposite(fields: Fields): Option<Query>
    decreases fields, 1
  {
    match ParseFields(fields)
    case None => None
    case Some(fs) => Some(Composite(fs))
  }

  function ParseOperators(operators: Fields): Option<Query>
    requires operators.FCons?
    decreases operators, 2
  {
    if operators.rest.FNil? then ParseSingle(operators.key, operators.value)
    else
      match ParseEach(operators)
      case None => None
      case Some(qs) => Some(And(qs))
  }

  function ParseEach(operators: Fields): Option<Queries>
    decreases operators, 1
  {
    match operators
    case FNil => Some(QNil)
    case FCons(name, value, rest) =>
      match (ParseSingle(name, value), ParseEach(rest))
      case (Some(q), Some(qs)) => Some(QCons(q, qs))
      case _ => None
  }

  function ParseSingle(name: string, value: Json): Option<Query>
    decreases value, 1
  {
    if name == "$eq" then
      if value.Obj? then Map(Parse(value), q => EqOf(q)) else Some(Eq(value))
    else if CmpFromName(name).Some? then Some(Cmp(CmpFromName(name).value, value))
    else if name == "$in" then
      if value.Arr? && value.items.ICons? then Some(In(value.items)) else None
    else if name == "$or" then
      if value.Arr? && Length(value.items) >= 2 then
        match ParseItems(value.items) {
          case None => None
          case Some(qs) => Some(Or(qs))
        }
      else None
    else if name == "$is_null" then
      if value.Bool? then Some(IsNull(value.b)) else None
    else if name == "$not" then Map(Parse(value), q => Not(q))
    else if name == "$any" then
      if value.Obj? then Map(Parse(value), q => AnyElement(q)) else None
    else if name == "$all" then
      if value.Obj? then Map(Parse(value), q => AllElements(q)) else None
    else if name == "$len" then Map(Parse(value), q => Len(q))
    else if name == "$rel" then
      if value.Obj? then
        match ParseFields(value.fields) {
          case None => None
          case Some(fs) => Some(Rel(fs))
        }
      else None
    else None
  }

  function Map(q: Option<Query>, wrap: Query -> Query): Option<Query> {
    match q
    case None => None
    case Some(p) => Some(wrap(p))
  }

  function ParseItems(items: Items): Option<Queries>
    decreases items, 0
  {
    match items
    case INil => Some(QNil)
    case ICons(x, rest) =>
      match (Parse(x), ParseItems(rest))
      case (Some(q), Some(qs)) => Some(QCons(q, qs))
      case _ => None
  }

  function ParseFields(fields: Fields): Option<QFields>
    decreases fields, 0
  {
    match fields
    case FNil => Some(FsNil)
    case FCons(k, v, rest) =>
      match (Parse(v), ParseFields(rest))
      case (Some(q), Some(fs)) => Some(FsCons(k, q, fs))
      case _ => None
  }

  // ---- The loops that fill a list and a dict ----

  function AppendQueries(qs: Queries, more: Queries): Queries {
    match qs
    case QNil => more
    case QCons(q, rest) => QCons(q, AppendQueries(rest, more))
  }

  /** What has been parsed, followed by what is still to come. */
  function AfterParsed(parsed: Queries, rest: Option<Queries>): Option<Queries> {
    match rest
    case None => None
    case Some(qs) => Some(AppendQueries(parsed, qs))
  }

  lemma {:induction false} AppendedOneMore(parsed: Queries, q: Queries, more: Queries)
    ensures AppendQueries(AppendQueries(parsed, q), more) == AppendQueries(parsed, AppendQueries(q, more))
  {
    if parsed.QCons? {
      AppendedOneMore(parsed.tail, q, more);
    }
  }

  lemma {:induction false} AppendedNothing(parsed: Queries)
    ensures AppendQueries(parsed, QNil) == parsed
  {
    if parsed.QCons? {
      AppendedNothing(parsed.tail);
    }
  }

  /** QueryParser._parse_operators: one operator alone, or the And of a list filled one by one. */
  method ParseOperatorDict(operators: Fields) returns (r: Option<Query>)
    requires operators.FCons?
    ensures r == ParseOperators(operators)
  {
    if operators.rest.FNil? {
      return ParseSingle(operators.key, operators.value);
    }
    var parsed, rest := QNil, operators;
    while rest.FCons?
      invariant ParseEach(operators) == AfterParsed(parsed, ParseEach(rest))
      decreases rest
    {
      var one := ParseSingle(rest.key, rest.value);
      if one.None? {
        return None;
      }
      ghost var rest' := ParseEach(rest.rest);
      if rest'.Some? {
        AppendedOneMore(parsed, QCons(one.value, QNil), rest'.value);
      }
      parsed := AppendQueries(parsed, QCons(one.value, QNil));
      rest := rest.rest;
    }
    AppendedNothing(parsed);
    r := Some(And(parsed));
  }

  function AppendQFields(fs: QFields, more: QFields): QFields {
    match fs
    case FsNil => more
    case FsCons(f, q, rest) => FsCons(f, q, AppendQFields(rest, more))
  }

  function AfterFields(parsed: QFields, rest: Option<QFields>): Option<QFields> {
    match rest
    case None => None
    case Some(fs) => Some(AppendQFields(parsed, fs))
  }

  lemma {:induction false} AppendedOneField(parsed: QFields, f: QFields, more: QFields)
    ensures AppendQFields(AppendQFields(parsed, f), more) == AppendQFields(parsed, AppendQFields(f, more))
  {
    if parsed.FsCons? {
      AppendedOneField(parsed.rest, f, more);
    }
  }

  lemma {:induction false} AppendedNoField(parsed: QFields)
    ensures AppendQFields(parsed, FsNil) == parsed
  {
    if parsed.FsCons? {
      AppendedNoField(parsed.rest);
    }
  }

  /** QueryParser._parse_fields: the keys of a dict are distinct, so each assignment adds a field at the end. */
  method ParseFieldDict(fields: Fields) returns (r: Option<Query>)
    ensures r == ParseComposite(fields)
  {
    var parsed, rest := FsNil, fields;
    while rest.FCons?
      invariant ParseFields(fields) == AfterFields(parsed, ParseFields(rest))
      decreases rest
    {
      var one := Parse(rest.value);
      if one.None? {
        return None;
      }
      ghost var rest' := ParseFields(rest.rest);
      if rest'.Some? {
        AppendedOneField(parsed, FsCons(rest.key, one.value, FsNil), rest'.value);
      }
      parsed := AppendQFields(parsed, FsCons(rest.key, one.value, FsNil));
      rest := rest.rest;
    }
    AppendedNoField(parsed);
    r := Some(Composite(parsed));
  }

  // ---- Normalising ----

  function Normalize(q: Query): Query {
    match q
    case EqOf(p) => Normalize(p)
    case Rel(fs) => Rel(NormalizeFields(fs))
    case Not(p) => Not(Normalize(p))
    case AnyElement(p) => AnyElement(Normalize(p))
    case AllElements(p) => AllElements(Normalize(p))
    case Len(p) => Len(Normalize(p))
    case And(qs) => And(NormalizeAll(qs))
    case Or(qs) => Or(NormalizeAll(qs))
    case Composite(fs) => Composite(NormalizeFields(fs))
    case _ => q
  }

  function NormalizeAll(qs: Queries): Queries {
    match qs
    case QNil => QNil
    case QCons(q, rest) => QCons(Normalize(q), NormalizeAll(rest))
  }

  function NormalizeFields(fs: QFields): QFields {
    match fs
    case FsNil => FsNil
    case FsCons(f, q, rest) => FsCons(f, Normalize(q), NormalizeFields(rest))
  }

  function ParseQuery(query: Json): Option<Query> {
    Map(Parse(query), q => Normalize(q))
  }

  /** No equality holds an operator. */
  predicate IsNormal(q: Query) {
    match q
    case EqOf(_) => false
    case Not(p) => IsNormal(p)
    case AnyElement(p) => IsNormal(p)
    case AllElements(p) => IsNormal(p)
    case Len(p) => IsNormal(p)
    case And(qs) => AllNormal(qs)
    case Or(qs) => AllNormal(qs)
    case Rel(fs) => FieldsNormal(fs)
    case Composite(fs) => FieldsNormal(fs)
    case _ => true
  }

  predicate AllNormal(qs: Queries) {
    match qs
    case QNil => true
    case QCons(q, rest) => IsNormal(q) && AllNormal(rest)
  }

  predicate FieldsNormal(fs: QFields) {
    match fs
    case FsNil => true
    case FsCons(_, q, rest) => IsNormal(q) && FieldsNormal(rest)
  }

  lemma {:induction false} NormalizeIsNormal(q: Query)
    ensures IsNormal(Normalize(q))
  {
    match q
    case EqOf(p) => NormalizeIsNormal(p);
    case Not(p) => NormalizeIsNormal(p);
    case AnyElement(p) => NormalizeIsNormal(p);
    case AllElements(p) => NormalizeIsNormal(p);
    case Len(p) => NormalizeIsNormal(p);
    case And(qs) => NormalizeAllNormal(qs);
    case Or(qs) => NormalizeAllNormal(qs);
    case Rel(fs) => NormalizeFieldsNormal(fs);
    case Composite(fs) => NormalizeFieldsNormal(fs);
    case _ =>
  }

  lemma {:induction false} NormalizeAllNormal(qs: Queries)
    ensures AllNormal(NormalizeAll(qs))
  {
    match qs
    case QNil =>
    case QCons(q, rest) =>
      NormalizeIsNormal(q);
      NormalizeAllNormal(rest);
  }

  lemma {:induction false} NormalizeFieldsNormal(fs: QFields)
    ensures FieldsNormal(NormalizeFields(fs))
  {
    match fs
    case FsNil =>
    case FsCons(_, q, rest) =>
      NormalizeIsNormal(q);
      NormalizeFieldsNormal(rest);
  }

  lemma {:induction false} NormalStays(q: Query)
    requires IsNormal(q)
    ensures Normalize(q) == q
  {
    match q
    case Not(p) => NormalStays(p);
    case AnyElement(p) => NormalStays(p);
    case AllElements(p) => NormalStays(p);
    case Len(p) => NormalStays(p);
    case And(qs) => AllNormalStay(qs);
    case Or(qs) => AllNormalStay(qs);
    case Rel(fs) => FieldsNormalStay(fs);
    case Composite(fs) => FieldsNormalStay(fs);
    case _ =>
  }

  lemma {:induction false} AllNormalStay(qs: Queries)
    requires AllNormal(qs)
    ensures NormalizeAll(qs) == qs
  {
    match qs
    case QNil =>
    case QCons(q, rest) =>
      NormalStays(q);
      AllNormalStay(rest);
  }

  lemma {:induction false} FieldsNormalStay(fs: QFields)
    requires FieldsNormal(fs)
    ensures NormalizeFields(fs) == fs
  {
    match fs
    case FsNil =>
    case FsCons(_, q, rest) =>
      NormalStays(q);
      FieldsNormalStay(rest);
  }

  /** Normalising twice is normalising once. */
  lemma NormalizeIsIdempotent(q: Query)
    ensures Normalize(Normalize(q)) == Normalize(q)
  {
    NormalizeIsNormal(q);
    NormalStays(Normalize(q));
  }

  // ---- Printing ----

  function CmpName(op: CmpOp): (name: string)
    ensures CmpFromName(name) == Some(op) && IsOperatorKey(name)
  {
    match op
    case Ne => "$ne"
    case Gt => "$gt"
    case Gte => "$gte"
    case Lt => "$lt"
    case Lte => "$lte"
  }

  /** Python's `dict.update`. */
  function Update(dict: Fields, more: Fields): Fields
    decreases more
  {
    match more
    case FNil => dict
    case FCons(k, v, rest) => Update(Put(dict, k, v), rest)
  }

  function Entry(key: string, value: Json): Fields {
    FCons(key, value, FNil)
  }

  function Print(q: Query): Fields
    decreases q, 0
  {
    match q
    case Eq(value) => Entry("$eq", value)
    case EqOf(p) => Entry("$eq", Obj(Print(p)))
    case Cmp(op, value) => Entry(CmpName(op), value)
    case In(values) => Entry("$in", Arr(values))
    case IsNull(flag) => Entry("$is_null", Bool(flag))
    case Not(p) => Entry("$not", Obj(Print(p)))
    case AnyElement(p) => Entry("$any", Obj(Print(p)))
    case AllElements(p) => Entry("$all", Obj(Print(p)))
    case Len(p) => Entry("$len", Obj(Print(p)))
    case And(qs) => PrintInto(FNil, qs)
    case Or(qs) => Entry("$or", Arr(PrintItems(qs)))
    case Rel(fs) => Entry("$rel", Obj(PrintFields(fs)))
    case Composite(fs) => PrintFields(fs)
  }

  function PrintInto(dict: Fields, qs: Queries): Fields
    decreases qs, 0
  {
    match qs
    case QNil => dict
    case QCons(q, rest) => PrintInto(Update(dict, Print(q)), rest)
  }

  function PrintItems(qs: Queries): Items
    decreases qs, 0
  {
    match qs
    case QNil => INil
    case QCons(q, rest) => ICons(Obj(Print(q)), PrintItems(rest))
  }

  // A composite query has distinct fields, so its dict comprehension copies them one by one.
  function PrintFields(fs: QFields): Fields
    decreases fs, 0
  {
    match fs
    case FsNil => FNil
    case FsCons(f, q, rest) => FCons(f, Obj(Print(q)), PrintFields(rest))
  }

  /** QueryToDictVisitor.visit_and: the loop that updates one dict with each operand. */
  method PrintAnd(qs: Queries) returns (dict: Fields)
    ensures dict == Print(And(qs))
  {
    dict := FNil;
    var rest := qs;
    while rest.QCons?
      invariant PrintInto(dict, rest) == PrintInto(FNil, qs)
      decreases rest
    {
      dict := Update(dict, Print(rest.head));
      rest := rest.tail;
    }
  }

  // ---- Printing, then parsing ----

  /** The one key under which an operator prints. */
  function OperatorKey(q: Query): string
    requires !q.And? && !q.Composite?
  {
    match q
    case Eq(_) => "$eq"
    case EqOf(_) => "$eq"
    case Cmp(op, _) => CmpName(op)
    case In(_) => "$in"
    case IsNull(_) => "$is_null"
    case Not(_) => "$not"
    case AnyElement(_) => "$any"
    case AllElements(_) => "$all"
    case Len(_) => "$len"
    case Or(_) => "$or"
    case Rel(_) => "$rel"
  }

  predicate UsesKey(qs: Queries, key: string) {
    match qs
    case QNil => false
    case QCons(q, rest) => (!q.And? && !q.Composite? && OperatorKey(q) == key) || UsesKey(rest, key)
  }

  /**
   The trees that print faithfully: normal, with operands where the syntax asks for them, no
   plain dict as an operand of $eq, and, under an And, operators of pairwise distinct keys.
   */
  predicate Printable(q: Query) {
    match q
    case Eq(value) => !value.Obj?
    case EqOf(_) => false
    case Cmp(_, _) => true
    case In(values) => values.ICons?
    case IsNull(_) => true
    case Not(p) => Printable(p)
    case AnyElement(p) => Printable(p)
    case AllElements(p) => Printable(p)
    case Len(p) => Printable(p)
    case And(qs) => Count(qs) >= 2 && PrintableOperands(qs)
    case Or(qs) => Count(qs) >= 2 && PrintableAll(qs)
    case Rel(fs) => PrintableFields(fs)
    case Composite(fs) => fs.FsCons? && PrintableFields(fs) && PlainFields(fs)
  }

  predicate PrintableOperands(qs: Queries) {
    match qs
    case QNil => true
    case QCons(q, rest) =>
      !q.And? && !q.Composite? && Printable(q) && !UsesKey(rest, OperatorKey(q)) && PrintableOperands(rest)
  }

  predicate PrintableAll(qs: Queries) {
    match qs
    case QNil => true
    case QCons(q, rest) => Printable(q) && PrintableAll(rest)
  }

  predicate PrintableFields(fs: QFields) {
    match fs
    case FsNil => true
    case FsCons(f, q, rest) => !HasField(rest, f) && Printable(q) && PrintableFields(rest)
  }

  predicate PlainFields(fs: QFields) {
    match fs
    case FsNil => true
    case FsCons(f, _, rest) => !IsOperatorKey(f) && PlainFields(rest)
  }

  lemma {:induction false} PrintableIsNormal(q: Query)
    requires Printable(q)
    ensures IsNormal(q)
    decreases q, 0
  {
    match q
    case Not(p) => PrintableIsNormal(p);
    case AnyElement(p) => PrintableIsNormal(p);
    case AllElements(p) => PrintableIsNormal(p);
    case Len(p) => PrintableIsNormal(p);
    case And(qs) => OperandsAreNormal(qs);
    case Or(qs) => AllAreNormal(qs);
    case Rel(fs) => FieldsAreNormal(fs);
    case Composite(fs) => FieldsAreNormal(fs);
    case _ =>
  }

  lemma {:induction false} OperandsAreNormal(qs: Queries)
    requires PrintableOperands(qs)
    ensures AllNormal(qs)
    decreases qs, 0
  {
    match qs
    case QNil =>
    case QCons(q, rest) =>
      PrintableIsNormal(q);
      OperandsAreNormal(rest);
  }

  lemma {:induction false} AllAreNormal(qs: Queries)
    requires PrintableAll(qs)
    ensures AllNormal(qs)
    decreases qs, 0
  {
    match qs
    case QNil =>
    case QCons(q, rest) =>
      PrintableIsNormal(q);
      AllAreNormal(rest);
  }

  lemma {:induction false} FieldsAreNormal(fs: QFields)
    requires PrintableFields(fs)
    ensures FieldsNormal(fs)
    decreases fs, 0
  {
    match fs
    case FsNil =>
    case FsCons(_, q, rest) =>
      PrintableIsNormal(q);
      FieldsAreNormal(rest);
  }

  function OperatorValue(q: Query): Json
    requires !q.And? && !q.Composite?
  {
    match q
    case Eq(value) => value
    case EqOf(p) => Obj(Print(p))
    case Cmp(_, value) => value
    case In(values) => Arr(values)
    case IsNull(flag) => Bool(flag)
    case Not(p) => Obj(Print(p))
    case AnyElement(p) => Obj(Print(p))
    case AllElements(p) => Obj(Print(p))
    case Len(p) => Obj(Print(p))
    case Or(qs) => Arr(PrintItems(qs))
    case Rel(fs) => Obj(PrintFields(fs))
  }

  lemma PrintsOneEntry(q: Query)
    requires !q.And? && !q.Composite?
    ensures Print(q) == Entry(OperatorKey(q), OperatorValue(q)) && IsOperatorKey(OperatorKey(q))
  {
  }

  function Entries(qs: Queries): Fields
    requires PrintableOperands(qs)
  {
    match qs
    case QNil => FNil
    case QCons(q, rest) => FCons(OperatorKey(q), OperatorValue(q), Entries(rest))
  }

  function Append(a: Fields, b: Fields): Fields {
    match a
    case FNil => b
    case FCons(k, v, rest) => FCons(k, v, Append(rest, b))
  }

  lemma {:induction false} PutAppends(dict: Fields, k: string, v: Json, more: Fields)
    requires !Has(dict, k)
    ensures Append(Put(dict, k, v), more) == Append(dict, FCons(k, v, more))
    ensures forall k' :: Has(Put(dict, k, v), k') <==> k' == k || Has(dict, k')
  {
    if dict.FCons? {
      PutAppends(dict.rest, k, v, more);
    }
  }

  lemma {:induction false} AppendNothing(dict: Fields)
    ensures Append(dict, FNil) == dict
  {
    if dict.FCons? {
      AppendNothing(dict.rest);
    }
  }

  // Operators of distinct keys end up side by side in the dict.
  lemma {:induction false} PrintIntoAppends(dict: Fields, qs: Queries)
    requires PrintableOperands(qs) && forall k :: UsesKey(qs, k) ==> !Has(dict, k)
    ensures PrintInto(dict, qs) == Append(dict, Entries(qs))
    decreases qs
  {
    match qs
    case QNil => AppendNothing(dict);
    case QCons(q, rest) =>
      PrintsOneEntry(q);
      var k, v := OperatorKey(q), OperatorValue(q);
      assert UsesKey(qs, k);
      PutAppends(dict, k, v, Entries(rest));
      assert Update(dict, Entry(k, v)) == Put(dict, k, v) by {
        assert Update(Put(dict, k, v), FNil) == Put(dict, k, v);
      }
      PrintIntoAppends(Put(dict, k, v), rest);
  }

  /** Printing a tree and parsing the dict gives the tree back. */
  lemma PrintThenParse(q: Query)
    requires Printable(q)
    ensures ParseQuery(Obj(Print(q))) == Some(q)
  {
    ParsesBack(q);
    PrintableIsNormal(q);
    NormalStays(q);
  }

  lemma {:induction false} ParsesBack(q: Query)
    requires Printable(q)
    ensures Parse(Obj(Print(q))) == Some(q)
    decreases q, 2
  {
    match q
    case And(qs) =>
      PrintIntoAppends(FNil, qs);
      EntriesParseBack(qs);
      assert Print(q) == Entries(qs);
      assert Count(qs) == 1 + Count(qs.tail);
      assert qs.tail.QCons? && Entries(qs).rest.FCons?;
    case Composite(fs) =>
      FieldsParseBack(fs);
      PlainOnly(fs);
    case EqOf(_) =>
    case _ =>
      PrintsOneEntry(q);
      SingleParsesBack(q);
      ParsesOneEntry(OperatorKey(q), OperatorValue(q));
  }

  lemma ParsesOneEntry(key: string, value: Json)
    requires IsOperatorKey(key)
    ensures Parse(Obj(Entry(key, value))) == ParseSingle(key, value)
  {
    var fields := Entry(key, value);
    assert fields.rest == FNil;
    assert HasOperators(fields) && !HasPlainFields(fields);
    assert ParseOperators(fields) == ParseSingle(key, value);
  }

  lemma {:induction false} SingleParsesBack(q: Query)
    requires Printable(q) && !q.And? && !q.Composite?
    ensures ParseSingle(OperatorKey(q), OperatorValue(q)) == Some(q)
    decreases q, 1
  {
    match q
    case Not(p) => ParsesBack(p);
    case AnyElement(p) => ParsesBack(p);
    case AllElements(p) => ParsesBack(p);
    case Len(p) => ParsesBack(p);
    case Or(qs) => ItemsParseBack(qs);
    case Rel(fs) => FieldsParseBack(fs);
    case _ =>
  }

  lemma {:induction false} EntriesParseBack(qs: Queries)
    requires PrintableOperands(qs)
    ensures ParseEach(Entries(qs)) == Some(qs)
    ensures !HasPlainFields(Entries(qs)) && (qs.QCons? ==> HasOperators(Entries(qs)))
    decreases qs, 2
  {
    match qs
    case QNil =>
    case QCons(q, rest) =>
      PrintsOneEntry(q);
      SingleParsesBack(q);
      EntriesParseBack(rest);
  }

  lemma {:induction false} ItemsParseBack(qs: Queries)
    requires PrintableAll(qs)
    ensures ParseItems(PrintItems(qs)) == Some(qs) && Length(PrintItems(qs)) == Count(qs)
    decreases qs, 2
  {
    match qs
    case QNil =>
    case QCons(q, rest) =>
      ParsesBack(q);
      ItemsParseBack(rest);
  }

  lemma {:induction false} FieldsParseBack(fs: QFields)
    requires PrintableFields(fs)
    ensures ParseFields(PrintFields(fs)) == Some(fs)
    decreases fs, 2
  {
    match fs
    case FsNil =>
    case FsCons(_, q, rest) =>
      ParsesBack(q);
      FieldsParseBack(rest);
  }

  lemma {:induction false} PlainOnly(fs: QFields)
    requires PlainFields(fs)
    ensures !HasOperators(PrintFields(fs))
  {
    if fs.FsCons? {
      PlainOnly(fs.rest);
    }
  }

  // ---- Operators that share a key ----

  predicate SingleOperators(qs: Queries) {
    match qs
    case QNil => true
    case QCons(q, rest) => !q.And? && !q.Composite? && Printable(q) && SingleOperators(rest)
  }

  predicate DistinctOperatorKeys(qs: Queries)
    requires SingleOperators(qs)
  {
    match qs
    case QNil => true
    case QCons(q, rest) => !UsesKey(rest, OperatorKey(q)) && DistinctOperatorKeys(rest)
  }

  lemma {:induction false} DistinctArePrintable(qs: Queries)
    requires SingleOperators(qs) && DistinctOperatorKeys(qs)
    ensures PrintableOperands(qs)
  {
    if qs.QCons? {
      DistinctArePrintable(qs.tail);
    }
  }

  lemma {:induction false} PutSize(dict: Fields, k: string, v: Json)
    ensures Size(Put(dict, k, v)) == Size(dict) + (if Has(dict, k) then 0 else 1)
    ensures forall k' :: Has(Put(dict, k, v), k') <==> k' == k || Has(dict, k')
  {
    if dict.FCons? {
      PutSize(dict.rest, k, v);
    }
  }

  lemma PrintsByPut(dict: Fields, q: Query)
    requires !q.And? && !q.Composite?
    ensures Update(dict, Print(q)) == Put(dict, OperatorKey(q), OperatorValue(q))
  {
    PrintsOneEntry(q);
    var k, v := OperatorKey(q), OperatorValue(q);
    assert Update(dict, Entry(k, v)) == Update(Put(dict, k, v), FNil);
  }

  // Each operator adds an entry at most, and none where its key is there already.
  lemma {:induction false} PrintIntoSize(dict: Fields, qs: Queries)
    requires SingleOperators(qs)
    ensures Size(PrintInto(dict, qs)) <= Size(dict) + Count(qs)
    ensures (!DistinctOperatorKeys(qs) || exists k :: UsesKey(qs, k) && Has(dict, k)) ==>
              Size(PrintInto(dict, qs)) < Size(dict) + Count(qs)
    decreases qs
  {
    match qs
    case QNil =>
    case QCons(q, rest) =>
      var k, v := OperatorKey(q), OperatorValue(q);
      PrintsByPut(dict, q);
      PutSize(dict, k, v);
      PrintIntoSize(Put(dict, k, v), rest);
      if UsesKey(rest, k) {
        assert Has(Put(dict, k, v), k);
      }
  }

  lemma {:induction false} ParseEachSize(fields: Fields)
    ensures ParseEach(fields).Some? ==> Count(ParseEach(fields).value) == Size(fields)
  {
    if fields.FCons? {
      ParseEachSize(fields.rest);
    }
  }

  lemma {:induction false} NormalizeKeepsCount(qs: Queries)
    ensures Count(NormalizeAll(qs)) == Count(qs)
  {
    if qs.QCons? {
      NormalizeKeepsCount(qs.tail);
    }
  }

  /** No $eq in the dict holds a dict. */
  predicate PlainEquals(fields: Fields) {
    match fields
    case FNil => true
    case FCons(k, v, rest) => (k == "$eq" ==> !v.Obj?) && PlainEquals(rest)
  }

  lemma {:induction false} PutKeepsPlainEquals(dict: Fields, k: string, v: Json)
    requires PlainEquals(dict) && (k == "$eq" ==> !v.Obj?)
    ensures PlainEquals(Put(dict, k, v))
  {
    if dict.FCons? {
      PutKeepsPlainEquals(dict.rest, k, v);
    }
  }

  lemma {:induction false} PrintsPlainEquals(dict: Fields, qs: Queries)
    requires SingleOperators(qs) && PlainEquals(dict)
    ensures PlainEquals(PrintInto(dict, qs))
    decreases qs
  {
    match qs
    case QNil =>
    case QCons(q, rest) =>
      PrintsByPut(dict, q);
      PutKeepsPlainEquals(dict, OperatorKey(q), OperatorValue(q));
      PrintsPlainEquals(Put(dict, OperatorKey(q), OperatorValue(q)), rest);
  }

  lemma OneOperatorIsNoAnd(name: string, value: Json)
    requires name == "$eq" ==> !value.Obj?
    ensures Map(ParseSingle(name, value), q => Normalize(q)).Some? ==>
              !Map(ParseSingle(name, value), q => Normalize(q)).value.And?
  {
  }

  /** A dict without nested equalities yields an And only of as many operands as it has entries. */
  lemma ParsedAndHasEveryEntry(fields: Fields)
    requires PlainEquals(fields)
    ensures var r := ParseQuery(Obj(fields));
      r.Some? && r.value.And? ==> Count(r.value.operands) == Size(fields)
  {
    if fields.FCons? && HasOperators(fields) && !HasPlainFields(fields) {
      assert Parse(Obj(fields)) == ParseOperators(fields);
      if fields.rest.FNil? {
        OneOperatorIsNoAnd(fields.key, fields.value);
      } else {
        ParseEachSize(fields);
        if ParseEach(fields).Some? {
          NormalizeKeepsCount(ParseEach(fields).value);
        }
      }
    } else if fields.FCons? && !HasOperators(fields) {
      assert Parse(Obj(fields)) == ParseComposite(fields);
    }
  }

  /**
   An And of single operators survives printing and parsing exactly if no two of them have the same
   key: operators that share one overwrite each other in the dict.
   */
  lemma AndSurvivesExactly(qs: Queries)
    requires Count(qs) >= 2 && SingleOperators(qs)
    ensures ParseQuery(Obj(Print(And(qs)))) == Some(And(qs)) <==> DistinctOperatorKeys(qs)
  {
    if DistinctOperatorKeys(qs) {
      DistinctArePrintable(qs);
      PrintThenParse(And(qs));
    } else {
      PrintIntoSize(FNil, qs);
      PrintsPlainEquals(FNil, qs);
      ParsedAndHasEveryEntry(Print(And(qs)));
    }
  }
}
