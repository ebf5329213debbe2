/**
 JSON values, as Python and PostgreSQL see them. The same datatype serves for stored documents,
 for query operands and for queries before parsing.
 */
module Json {

  import opened Options

  datatype Json =
    | Null
    | Bool(b: bool)
    | Num(n: real)
    | Str(s: string)
    | Arr(items: Items)
    | Obj(fields: Fields)

  datatype Items = INil | ICons(head: Json, tail: Items)

  /** The members of an object, in insertion order. */
  datatype Fields = FNil | FCons(key: string, value: Json, rest: Fields)

  function Get(fields: Fields, key: string): Option<Json> {
    match fields
    case FNil => None
    case FCons(k, v, rest) => if k == key then Some(v) else Get(rest, key)
  }

  predicate Has(fields: Fields, key: string) {
    Get(fields, key).Some?
  }

  /** Python's `d[key] = value`: in place for a key that is there, else at the end. */
  function Put(fields: Fields, key: string, value: Json): (r: Fields)
    ensures forall k :: Get(r, k) == if k == key then Some(value) else Get(fields, k)
  {
    match fields
    case FNil => FCons(key, value, FNil)
    case FCons(k, v, rest) => if k == key then FCons(k, value, rest) else FCons(k, v, Put(rest, key, value))
  }

  function Size(fields: Fields): nat {
    match fields
    case FNil => 0
    case FCons(_, _, rest) => 1 + Size(rest)
  }

  function Length(items: Items): nat {
    match items
    case INil => 0
    case ICons(_, tail) => 1 + Length(tail)
  }

  /** No object anywhere in the value repeats a key, as in every Python dict. */
  predicate DistinctKeys(j: Json) {
    match j
    case Arr(items) => DistinctInItems(items)
    case Obj(fields) => DistinctInFields(fields)
    case _ => true
  }

  predicate DistinctInItems(items: Items) {
    match items
    case INil => true
    case ICons(head, tail) => DistinctKeys(head) && DistinctInItems(tail)
  }

  predicate DistinctInFields(fields: Fields) {
    match fields
    case FNil => true
    case FCons(k, v, rest) => !Has(rest, k) && DistinctKeys(v) && DistinctInFields(rest)
  }

  // ---- Python ----

  // A bool is the number 0 or 1.
  function AsNumber(j: Json): Option<real> {
    match j
    case Bool(b) => Some(if b then 1.0 else 0.0)
    case Num(n) => Some(n)
    case _ => None
  }

  /** Python's `==`. */
  predicate PyEq(a: Json, b: Json)
    decreases a
  {
    match a
    case Null => b.Null?
    case Str(s) => b.Str? && s == b.s
    case Arr(xs) => b.Arr? && PyEqItems(xs, b.items)
    case Obj(fs) => b.Obj? && Size(fs) == Size(b.fields) && PyEqFields(fs, b.fields)
    case _ => AsNumber(a) == AsNumber(b) // Bool and Num
  }

  predicate PyEqItems(xs: Items, ys: Items)
    decreases xs
  {
    match xs
    case INil => ys.INil?
    case ICons(x, rest) => ys.ICons? && PyEq(x, ys.head) && PyEqItems(rest, ys.tail)
  }

  predicate PyEqFields(fs: Fields, gs: Fields)
    decreases fs
  {
    match fs
    case FNil => true
    case FCons(k, v, rest) => Has(gs, k) && PyEq(v, Get(gs, k).value) && PyEqFields(rest, gs)
  }

  predicate PyIn(a: Json, items: Items) {
    match items
    case INil => false
    case ICons(head, tail) => PyEq(a, head) || PyIn(a, tail)
  }

  /** Code point order. */
  predicate StringLess(s: string, t: string) {
    if t == "" then false
    else if s == "" then true
    else if s[0] == t[0] then StringLess(s[1..], t[1..])
    else s[0] < t[0]
  }

  /** Python's `<`; None where it raises TypeError. */
  function PyLess(a: Json, b: Json): Option<bool>
    decreases a
  {
    match a
    case Str(s) => if b.Str? then Some(StringLess(s, b.s)) else None
    case Arr(xs) => if b.Arr? then PyLessItems(xs, b.items) else None
    case _ =>
      if AsNumber(a).Some? && AsNumber(b).Some? then Some(AsNumber(a).value < AsNumber(b).value) else None
  }

  function PyLessItems(xs: Items, ys: Items): Option<bool>
    decreases xs
  {
    match xs
    case INil => Some(ys.ICons?)
    case ICons(x, rest) =>
      if ys.INil? then Some(false)
      else if PyEq(x, ys.head) then PyLessItems(rest, ys.tail)
      else PyLess(x, ys.head)
  }

  // ---- PostgreSQL ----

  predicate IsScalar(j: Json) {
    !j.Arr? && !j.Obj?
  }

  /**
   `outer @> inner` on jsonb, section 8.14.3 of the PostgreSQL manual: an object contains an
   object that asks for a subset of what it holds, an array contains an array of whose elements
   it contains each, and a scalar contains an equal scalar.
   */
  predicate ContainsNested(outer: Json, inner: Json)
    decreases inner, outer
  {
    match inner
    case Obj(gs) => outer.Obj? && ContainsFields(outer.fields, gs)
    case Arr(ys) => outer.Arr? && ContainsItems(outer.items, ys)
    case _ => outer == inner
  }

  predicate ContainsFields(fs: Fields, gs: Fields)
    decreases gs
  {
    match gs
    case FNil => true
    case FCons(k, v, rest) => Has(fs, k) && ContainsNested(Get(fs, k).value, v) && ContainsFields(fs, rest)
  }

  predicate ContainsItems(xs: Items, ys: Items)
    decreases ys
  {
    match ys
    case INil => true
    case ICons(y, rest) => SomeItemContains(xs, y) && ContainsItems(xs, rest)
  }

  predicate SomeItemContains(xs: Items, y: Json)
    decreases y, xs
  {
    match xs
    case INil => false
    case ICons(x, rest) => ContainsNested(x, y) || SomeItemContains(rest, y)
  }

  /** With the exception the manual makes at the top: an array may contain a primitive value. */
  predicate Contains(outer: Json, inner: Json) {
    if outer.Arr? && IsScalar(inner) then SomeItemContains(outer.items, inner) else ContainsNested(outer, inner)
  }

  /** `=` on jsonb: the order of an object's keys is not kept, and a boolean is no number. */
  predicate JsonbEq(a: Json, b: Json)
    decreases a
  {
    match a
    case Arr(xs) => b.Arr? && JsonbEqItems(xs, b.items)
    case Obj(fs) => b.Obj? && Size(fs) == Size(b.fields) && JsonbEqFields(fs, b.fields)
    case _ => a == b
  }

  predicate JsonbEqItems(xs: Items, ys: Items)
    decreases xs
  {
    match xs
    case INil => ys.INil?
    case ICons(x, rest) => ys.ICons? && JsonbEq(x, ys.head) && JsonbEqItems(rest, ys.tail)
  }

  predicate JsonbEqFields(fs: Fields, gs: Fields)
    decreases fs
  {
    match fs
    case FNil => true
    case FCons(k, v, rest) => Has(gs, k) && JsonbEq(v, Get(gs, k).value) && JsonbEqFields(rest, gs)
  }

  /** `value -> 'k1' -> 'k2' ...`; None is SQL NULL. */
  function AtPath(j: Json, path: seq<string>): Option<Json>
    decreases |path|
  {
    if path == [] then Some(j)
    else if j.Obj? && Has(j.fields, path[0]) then AtPath(Get(j.fields, path[0]).value, path[1..])
    else None
  }

  lemma {:induction false} AtPathStep(j: Json, path: seq<string>, key: string)
    ensures AtPath(j, path + [key]) ==
      match AtPath(j, path) {
        case Some(Obj(fields)) => Get(fields, key)
        case _ => None
      }
    decreases |path|
  {
    if path == [] {
      assert [key][1..] == [];
      if j.Obj? && Has(j.fields, key) {
        assert AtPath(Get(j.fields, key).value, []) == Get(j.fields, key);
      }
    } else {
      assert (path + [key])[1..] == path[1..] + [key];
      if j.Obj? && Has(j.fields, path[0]) {
        AtPathStep(Get(j.fields, path[0]).value, path[1..], key);
      }
    }
  }
}
