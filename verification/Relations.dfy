/** References between aggregates: where a resolver sends them, and the tables they lead to. */
module Relations {
  import opened Options
  import opened Json

  /** The metadata behind IRelationResolver and IObjectResolver, which wrap the same providers. */
  datatype Resolver = Resolver(relations: map<Option<string>, RelationInfo>, children: map<string, Resolver>)

  datatype RelationInfo = RelationInfo(table: string, pk: string, nested: Option<Resolver>)

  /** The relation of a field, or of the value itself when there is no field. */
  function Resolve(r: Resolver, field: Option<string>): Option<RelationInfo> {
    if field in r.relations then Some(r.relations[field]) else None
  }

  function Descend(r: Option<Resolver>, field: string): Option<Resolver> {
    if r.Some? && field in r.value.children then Some(r.value.children[field]) else r
  }

  /** A row: its jsonb columns other than `value`, and the document in `value`. */
  datatype Row = Row(columns: map<string, Json>, document: Json)

  datatype Rows = RNil | RCons(head: Row, tail: Rows)

  type Tables = map<string, Rows>

  predicate HasKey(row: Row, pk: string, key: Json) {
    pk in row.columns && JsonbEq(row.columns[pk], key)
  }

  /** The first row with the key, as a repository fetches it. */
  function Find(rows: Rows, pk: string, key: Json): Option<Json> {
    match rows
    case RNil => None
    case RCons(row, rest) => if HasKey(row, pk, key) then Some(row.document) else Find(rest, pk, key)
  }

  /** The state of a foreign object, and the resolver for its own references. */
  datatype Foreign = Foreign(state: Json, nested: Option<Resolver>)

  /** Follows a reference; None where it is None, is no reference, or leads to nothing. */
  function Fetch(r: Resolver, tables: Tables, field: Option<string>, key: Json): Option<Foreign> {
    if key.Null? then None
    else
      match Resolve(r, field)
      case None => None
      case Some(info) =>
        if info.table !in tables then None
        else
          match Find(tables[info.table], info.pk, key)
          case None => None
          case Some(state) => Some(Foreign(state, info.nested))
  }

  // ---- The key column ----

  // No other row has the key of this one.
  ghost predicate KeyIsNew(row: Row, pk: string, rest: Rows) {
    forall key :: HasKey(row, pk, key) ==> Find(rest, pk, key).None?
  }

  /** The column is there in every row, holds no null, and is unique, as the tables declare it. */
  ghost predicate Keyed(rows: Rows, pk: string) {
    match rows
    case RNil => true
    case RCons(row, rest) => pk in row.columns && !row.columns[pk].Null? && KeyIsNew(row, pk, rest) && Keyed(rest, pk)
  }

  /** The row is one of the table's. */
  predicate Listed(row: Row, rows: Rows) {
    match rows
    case RNil => false
    case RCons(head, rest) => row == head || Listed(row, rest)
  }

  /** What is found by a key is the document of the one row that has it. */
  lemma {:induction false} FindMeans(rows: Rows, pk: string, key: Json, doc: Json)
    requires Keyed(rows, pk)
    ensures Find(rows, pk, key) == Some(doc) <==>
      exists row :: Listed(row, rows) && HasKey(row, pk, key) && row.document == doc
  {
    match rows
    case RNil =>
    case RCons(row, rest) =>
      FindMeans(rest, pk, key, doc);
      assert Listed(row, rows);
      forall other | Listed(other, rest) ensures Listed(other, rows) {}
      if HasKey(row, pk, key) {
        forall other | Listed(other, rest) && HasKey(other, pk, key) ensures false {
          FindMeans(rest, pk, key, other.document);
        }
      }
  }

  lemma {:induction false} NullIsNoKey(rows: Rows, pk: string)
    requires Keyed(rows, pk)
    ensures Find(rows, pk, Null).None?
  {
    if rows.RCons? { NullIsNoKey(rows.tail, pk); }
  }
}
