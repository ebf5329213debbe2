/** Which values are queries, and that `$eq` can be spelled out or left out wherever a query stands. */
module QuerySyntax {
  import opened Options
  import opened Json
  import opened Query
  import opened QueryParser

  /** `{'$eq': v}` */
  function Explicit(v: Json): Json {
    Obj(Entry("$eq", v))
  }

  predicate IsExplicit(v: Json) {
    v.Obj? && v.fields.FCons? && v.fields == Entry("$eq", v.fields.value)
  }

  /** The two are equal but for `$eq` spelled out or left out, at any depth, where a query stands. */
  predicate Respelled(a: Json, b: Json)
    decreases a, b, 1
  {
    || a == b
    || (IsExplicit(a) && Respelled(a.fields.value, b))
    || (IsExplicit(b) && Respelled(a, b.fields.value))
    || (a.Obj? && b.Obj? && RespelledEntries(a.fields, b.fields))
  }

  predicate RespelledEntries(fs: Fields, gs: Fields)
    decreases fs, gs, 0
  {
    match fs
    case FNil => gs.FNil?
    case FCons(k, v, rest) =>
      && gs.FCons? && gs.key == k
      && (if IsOperatorKey(k) then RespelledOperand(k, v, gs.value) else Respelled(v, gs.value))
      && RespelledEntries(rest, gs.rest)
  }

  /** Queries stand under $not, $len, $any, $all, in the list of $or, and in the fields of $rel. */
  predicate RespelledOperand(name: string, v: Json, w: Json)
    decreases v, w, 2
  {
    || v == w
    || (name in {"$not", "$len"} && Respelled(v, w))
    || (name in {"$eq", "$any", "$all"} && v.Obj? && w.Obj? && Respelled(v, w))
    || (name == "$or" && v.Arr? && w.Arr? && RespelledItems(v.items, w.items))
    || (name == "$rel" && v.Obj? && w.Obj? && RespelledFields(v.fields, w.fields))
  }

  predicate RespelledItems(xs: Items, ys: Items)
    decreases xs, ys, 0
  {
    match xs
    case INil => ys.INil?
    case ICons(x, rest) => ys.ICons? && Respelled(x, ys.head) && RespelledItems(rest, ys.tail)
  }

  // Under $rel every key is a field.
  predicate RespelledFields(fs: Fields, gs: Fields)
    decreases fs, gs, 0
  {
    match fs
    case FNil => gs.FNil?
    case FCons(k, v, rest) => gs.FCons? && gs.key == k && Respelled(v, gs.value) && RespelledFields(rest, gs.rest)
  }

  // ---- What the parser makes of both ----

  function Normal(q: Option<Query>): Option<Query> {
    match q
    case None => None
    case Some(p) => Some(Normalize(p))
  }

  function NormalList(qs: Option<Queries>): Option<Queries> {
    match qs
    case None => None
    case Some(ps) => Some(NormalizeAll(ps))
  }

  function NormalDict(fs: Option<QFields>): Option<QFields> {
    match fs
    case None => None
    case Some(gs) => Some(NormalizeFields(gs))
  }

  // `$eq` alone is its operand.
  lemma ExplicitParses(v: Json)
    ensures Normal(Parse(Explicit(v))) == Normal(Parse(v))
  {
    ParsesOneEntry("$eq", v);
  }

  lemma {:induction false} RespelledParses(a: Json, b: Json)
    requires Respelled(a, b)
    ensures Normal(Parse(a)) == Normal(Parse(b))
    decreases a, b, 1
  {
    if a == b {
    } else if IsExplicit(a) && Respelled(a.fields.value, b) {
      ExplicitParses(a.fields.value);
      RespelledParses(a.fields.value, b);
    } else if IsExplicit(b) && Respelled(a, b.fields.value) {
      ExplicitParses(b.fields.value);
      RespelledParses(a, b.fields.value);
    } else {
      EntriesParse(a.fields, b.fields);
      DictParses(a.fields, b.fields);
    }
  }

  // From the entries to the dict.
  lemma DictParses(fs: Fields, gs: Fields)
    requires HasOperators(fs) == HasOperators(gs) && HasPlainFields(fs) == HasPlainFields(gs) && (fs.FNil? <==> gs.FNil?)
    requires fs.FCons? ==> (fs.rest.FNil? <==> gs.rest.FNil?)
    requires !HasPlainFields(fs) ==> NormalList(ParseEach(fs)) == NormalList(ParseEach(gs))
    requires !HasOperators(fs) ==> NormalDict(ParseFields(fs)) == NormalDict(ParseFields(gs))
    requires fs.FCons? && IsOperatorKey(fs.key) ==>
      Normal(ParseSingle(fs.key, fs.value)) == Normal(ParseSingle(gs.key, gs.value))
    ensures Normal(Parse(Obj(fs))) == Normal(Parse(Obj(gs)))
  {
    hide ParseSingle, ParseEach, ParseFields, IsOperatorKey;
  }

  lemma {:induction false} EntriesParse(fs: Fields, gs: Fields)
    requires RespelledEntries(fs, gs)
    ensures HasOperators(fs) == HasOperators(gs) && HasPlainFields(fs) == HasPlainFields(gs) && (fs.FNil? <==> gs.FNil?)
    ensures fs.FCons? ==> (fs.rest.FNil? <==> gs.rest.FNil?)
    ensures !HasPlainFields(fs) ==> NormalList(ParseEach(fs)) == NormalList(ParseEach(gs))
    ensures !HasOperators(fs) ==> NormalDict(ParseFields(fs)) == NormalDict(ParseFields(gs))
    ensures fs.FCons? && IsOperatorKey(fs.key) ==>
      Normal(ParseSingle(fs.key, fs.value)) == Normal(ParseSingle(gs.key, gs.value))
    decreases fs, gs, 0
  {
    match fs
    case FNil =>
    case FCons(k, v, rest) =>
      if IsOperatorKey(k) {
        OperandParses(k, v, gs.value);
      } else {
        RespelledParses(v, gs.value);
      }
      EntriesParse(rest, gs.rest);
  }

  lemma {:induction false} OperandParses(name: string, v: Json, w: Json)
    requires RespelledOperand(name, v, w)
    ensures Normal(ParseSingle(name, v)) == Normal(ParseSingle(name, w))
    decreases v, w, 2
  {
    hide Parse, Respelled;
    if v == w {
    } else if name == "$or" {
      ItemsParse(v.items, w.items);
    } else if name == "$rel" {
      FieldsParse(v.fields, w.fields);
    } else {
      RespelledParses(v, w);
      UnaryParses(name, v);
      UnaryParses(name, w);
    }
  }

  /** An operator over one query, after normalising. */
  function Applied(name: string, q: Query): Query {
    if name == "$not" then Not(q)
    else if name == "$len" then Len(q)
    else if name == "$any" then AnyElement(q)
    else if name == "$all" then AllElements(q)
    else q
  }

  lemma UnaryParses(name: string, v: Json)
    requires name in {"$not", "$len"} || (name in {"$eq", "$any", "$all"} && v.Obj?)
    ensures Normal(ParseSingle(name, v)) == match Normal(Parse(v)) { case None => None case Some(q) => Some(Applied(name, q)) }
  {
    hide Parse;
  }

  lemma {:induction false} ItemsParse(xs: Items, ys: Items)
    requires RespelledItems(xs, ys)
    ensures NormalList(ParseItems(xs)) == NormalList(ParseItems(ys)) && Length(xs) == Length(ys)
    decreases xs, ys, 0
  {
    match xs
    case INil =>
    case ICons(x, rest) =>
      RespelledParses(x, ys.head);
      ItemsParse(rest, ys.tail);
  }

  lemma {:induction false} FieldsParse(fs: Fields, gs: Fields)
    requires RespelledFields(fs, gs)
    ensures NormalDict(ParseFields(fs)) == NormalDict(ParseFields(gs))
    decreases fs, gs, 0
  {
    match fs
    case FNil =>
    case FCons(_, v, rest) =>
      RespelledParses(v, gs.value);
      FieldsParse(rest, gs.rest);
  }

  /** Both spellings are the same query; in particular a value alone is its equality. */
  lemma SpellingIsFree(a: Json, b: Json)
    requires Respelled(a, b)
    ensures ParseQuery(a) == ParseQuery(b)
  {
    RespelledParses(a, b);
  }

  /** `$eq` can be put around any query, a bare value or a dict. */
  lemma EqIsImplicit(v: Json)
    ensures ParseQuery(v) == ParseQuery(Explicit(v))
    ensures !v.Obj? ==> ParseQuery(v) == Some(Eq(v))
  {
    ExplicitParses(v);
  }

  // ---- Which values are queries ----

  /** A bare value, a dict of fields with queries, or a dict of operators with proper operands. */
  predicate IsQuery(j: Json)
    decreases j, 1
  {
    j.Obj? ==>
      && j.fields.FCons?
      && (if IsOperatorKey(j.fields.key) then AreOperators(j.fields) else AreFields(j.fields) && !HasOperators(j.fields))
  }

  predicate AreOperators(fields: Fields)
    decreases fields, 0
  {
    match fields
    case FNil => true
    case FCons(k, v, rest) => IsOperatorKey(k) && IsOperand(k, v) && AreOperators(rest)
  }

  predicate AreFields(fields: Fields)
    decreases fields, 0
  {
    match fields
    case FNil => true
    case FCons(_, v, rest) => IsQuery(v) && AreFields(rest)
  }

  predicate AreQueries(items: Items)
    decreases items, 0
  {
    match items
    case INil => true
    case ICons(x, rest) => IsQuery(x) && AreQueries(rest)
  }

  predicate IsOperand(name: string, v: Json)
    decreases v, 2
  {
    || (name == "$eq" && IsQuery(v))
    || name in {"$ne", "$gt", "$gte", "$lt", "$lte"}
    || (name == "$in" && v.Arr? && Length(v.items) >= 1)
    || (name == "$or" && v.Arr? && Length(v.items) >= 2 && AreQueries(v.items))
    || (name == "$is_null" && v.Bool?)
    || (name in {"$not", "$len"} && IsQuery(v))
    || (name in {"$any", "$all"} && v.Obj? && IsQuery(v))
    || (name == "$rel" && v.Obj? && AreFields(v.fields))
  }

  /** The parser accepts exactly these. */
  lemma AcceptsExactly(j: Json)
    ensures ParseQuery(j).Some? <==> IsQuery(j)
  {
    ParsesExactly(j);
  }

  lemma {:induction false} ParsesExactly(j: Json)
    ensures Parse(j).Some? <==> IsQuery(j)
    decreases j, 1
  {
    if j.Obj? {
      var fields := j.fields;
      OperatorsParseExactly(fields);
      FieldsParseExactly(fields);
      if fields.FCons? && IsOperatorKey(fields.key) {
        if !HasPlainFields(fields) {
          assert Parse(j) == ParseOperators(fields);
          assert AreOperators(FNil);
        }
      } else if fields.FCons? && !HasOperators(fields) {
        assert Parse(j) == ParseComposite(fields);
      }
    }
  }

  lemma {:induction false} OperatorsParseExactly(fields: Fields)
    ensures !HasPlainFields(fields) ==> (ParseEach(fields).Some? <==> AreOperators(fields))
    ensures HasPlainFields(fields) ==> !AreOperators(fields)
    ensures fields.FCons? ==> (ParseSingle(fields.key, fields.value).Some? <==> IsOperand(fields.key, fields.value))
    decreases fields, 0
  {
    match fields
    case FNil =>
    case FCons(k, v, rest) =>
      SingleParsesExactly(k, v);
      OperatorsParseExactly(rest);
  }

  lemma {:induction false} SingleParsesExactly(name: string, v: Json)
    ensures ParseSingle(name, v).Some? <==> IsOperand(name, v)
    decreases v, 2
  {
    assert !v.Obj? ==> IsQuery(v);
    hide Parse, IsQuery;
    if name == "$or" {
      if v.Arr? {
        ItemsParseExactly(v.items);
      }
    } else if name == "$rel" {
      if v.Obj? {
        FieldsParseExactly(v.fields);
      }
    } else {
      ParsesExactly(v);
    }
  }

  lemma {:induction false} ItemsParseExactly(items: Items)
    ensures ParseItems(items).Some? <==> AreQueries(items)
    decreases items, 0
  {
    match items
    case INil =>
    case ICons(x, rest) =>
      ParsesExactly(x);
      ItemsParseExactly(rest);
  }

  lemma {:induction false} FieldsParseExactly(fields: Fields)
    ensures ParseFields(fields).Some? <==> AreFields(fields)
    decreases fields, 0
  {
    match fields
    case FNil =>
    case FCons(_, v, rest) =>
      ParsesExactly(v);
      FieldsParseExactly(rest);
  }

  /** An equality that still holds an operator prints as that operator under `$eq`, and is read back without it. */
  lemma NestedEqualityParsesBack(q: Query)
    requires Printable(q)
    ensures Print(EqOf(q)) == Entry("$eq", Obj(Print(q))) && ParseQuery(Obj(Print(EqOf(q)))) == Some(q)
  {
    PrintThenParse(q);
    EqIsImplicit(Obj(Print(q)));
  }
}
