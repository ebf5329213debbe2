/** When a merge fails, and with which error: the first pair of operators that do not merge decides. */
module QueryClashes {
  import opened Options
  import opened Query
  import opened QueryMerge
  import opened QueryMergeLaws

  /** The Python class of an operator; an equality is one whether it holds a value or an operator. */
  datatype OperatorClass =
    | EqOperator | ComparisonOperator | InOperator | IsNullOperator | AndOperator | OrOperator | NotOperator
    | AnyElementOperator | AllElementsOperator | LenOperator | RelOperator | CompositeQuery

  function ClassOf(q: Query): OperatorClass {
    match q
    case Eq(_) => EqOperator
    case EqOf(_) => EqOperator
    case Cmp(_, _) => ComparisonOperator
    case In(_) => InOperator
    case IsNull(_) => IsNullOperator
    case And(_) => AndOperator
    case Or(_) => OrOperator
    case Not(_) => NotOperator
    case AnyElement(_) => AnyElementOperator
    case AllElements(_) => AllElementsOperator
    case Len(_) => LenOperator
    case Rel(_) => RelOperator
    case Composite(_) => CompositeQuery
  }

  /** Two composites or two relations merge field by field. */
  predicate BothDicts(a: Query, b: Query) {
    (a.Composite? && b.Composite?) || (a.Rel? && b.Rel?)
  }

  /** All operators that meet are equal. */
  predicate Compatible(a: Query, b: Query)
    decreases b
  {
    if BothDicts(a, b) then CompatibleFields(a.criteria, b.criteria) else QEq(a, b)
  }

  predicate CompatibleFields(fs: QFields, gs: QFields)
    decreases gs
  {
    match gs
    case FsNil => true
    case FsCons(f, q, rest) => (HasField(fs, f) ==> Compatible(FieldOp(fs, f), q)) && CompatibleFields(fs, rest)
  }

  /** The operators under these fields are the first, in the right operand's order, that meet and are not equal. */
  predicate ClashAt(a: Query, b: Query, path: seq<string>)
    decreases b
  {
    if BothDicts(a, b) then path != [] && ClashInFields(a.criteria, b.criteria, path[0], path[1..])
    else path == [] && !QEq(a, b)
  }

  // Every field before the clashing one merges.
  predicate ClashInFields(fs: QFields, gs: QFields, field: string, path: seq<string>)
    decreases gs
  {
    match gs
    case FsNil => false
    case FsCons(f, q, rest) =>
      if f == field then HasField(fs, f) && ClashAt(FieldOp(fs, f), q, path)
      else (HasField(fs, f) ==> Compatible(FieldOp(fs, f), q)) && ClashInFields(fs, rest, field, path)
  }

  /** The operator under these fields. */
  function At(q: Query, path: seq<string>): Option<Query>
    decreases |path|
  {
    if path == [] then Some(q)
    else if (q.Composite? || q.Rel?) && HasField(q.criteria, path[0]) then At(FieldOp(q.criteria, path[0]), path[1..])
    else None
  }

  function ErrorFor(a: Option<Query>, b: Option<Query>): Merge<Query> {
    if a.Some? && b.Some? && ClassOf(a.value) == ClassOf(b.value) then Conflict else Unsupported
  }

  /** Operators that are not both dicts: equal ones merge, others of one class conflict, the rest are unsupported. */
  lemma LeavesMerge(a: Query, b: Query)
    requires !BothDicts(a, b)
    ensures Add(a, b) == if QEq(a, b) then Merged(a) else ErrorFor(Some(a), Some(b))
  {
  }

  lemma ClashHere(a: Query, b: Query, nowhere: seq<string>)
    requires !BothDicts(a, b) && !QEq(a, b) && nowhere == []
    ensures exists path :: ClashAt(a, b, path)
  {
    assert ClashAt(a, b, nowhere);
  }

  lemma ClashBelow(a: Query, b: Query, field: string, path: seq<string>, longer: seq<string>)
    requires BothDicts(a, b) && ClashInFields(a.criteria, b.criteria, field, path) && longer == [field] + path
    ensures exists path :: ClashAt(a, b, path)
  {
    assert longer[0] == field && longer[1..] == path;
    assert ClashAt(a, b, longer);
  }

  ghost predicate NoClash(fs: QFields, gs: QFields) {
    forall field, path :: !ClashInFields(fs, gs, field, path)
  }

  // The sum of two dicts failed with this error.
  predicate FailsWith(sum: Merge<QFields>, error: Merge<Query>) {
    (sum.Conflict? && error.Conflict?) || (sum.Unsupported? && error.Unsupported?)
  }

  ghost predicate ClashesDecide(fs: QFields, gs: QFields, sum: Merge<QFields>) {
    forall field, path :: ClashInFields(fs, gs, field, path) ==> ClashError(fs, gs, sum, field, path)
  }

  ghost predicate ClashError(fs: QFields, gs: QFields, sum: Merge<QFields>, field: string, path: seq<string>) {
    && HasField(fs, field) && HasField(gs, field)
    && FailsWith(sum, ErrorFor(At(FieldOp(fs, field), path), At(FieldOp(gs, field), path)))
  }

  lemma ClashGivesError(fs: QFields, gs: QFields, sum: Merge<QFields>, field: string, path: seq<string>)
    requires ClashesDecide(fs, gs, sum) && ClashInFields(fs, gs, field, path)
    ensures ClashError(fs, gs, sum, field, path) && !NoClash(fs, gs)
  {
  }

  // `merged` still holds what `fs` held under the fields to come.
  ghost predicate StillHolds(fs: QFields, merged: QFields, gs: QFields) {
    forall f :: HasField(gs, f) ==> Lookup(merged, f) == Lookup(fs, f)
  }

  lemma {:induction false} ClashIsThere(fs: QFields, gs: QFields, field: string, path: seq<string>)
    requires ClashInFields(fs, gs, field, path)
    ensures HasField(fs, field) && HasField(gs, field)
  {
    if gs.field != field {
      ClashIsThere(fs, gs.rest, field, path);
    }
  }

  /**
   Merging succeeds exactly if all operators that meet are equal; otherwise the error is that of the
   first two that are not: MergeConflict if they are of one class, TypeError if they are of two.
   */
  lemma {:induction false} FirstClashDecides(a: Query, b: Query)
    requires Valid(a) && Valid(b)
    ensures Add(a, b).Merged? <==> Compatible(a, b)
    ensures !Compatible(a, b) <==> exists path :: ClashAt(a, b, path)
    ensures forall path :: ClashAt(a, b, path) ==> Add(a, b) == ErrorFor(At(a, path), At(b, path))
    decreases b, 2
  {
    if BothDicts(a, b) {
      var fs, gs := a.criteria, b.criteria;
      FirstFieldDecides(fs, fs, gs);
      forall path | ClashAt(a, b, path)
        ensures Add(a, b) == ErrorFor(At(a, path), At(b, path))
        ensures !NoClash(fs, gs)
      {
        ClashGivesError(fs, gs, AddFields(fs, gs), path[0], path[1..]);
      }
      if !NoClash(fs, gs) {
        var field, path :| ClashInFields(fs, gs, field, path);
        ClashBelow(a, b, field, path, [field] + path);
      }
    } else {
      LeavesMerge(a, b);
      assert Compatible(a, b) == QEq(a, b);
      forall path | ClashAt(a, b, path)
        ensures !Compatible(a, b) && Add(a, b) == ErrorFor(At(a, path), At(b, path))
      {
        assert path == [] && At(a, path) == Some(a) && At(b, path) == Some(b);
      }
      if !QEq(a, b) {
        ClashHere(a, b, []);
      }
    }
  }

  lemma {:induction false} FirstFieldDecides(fs: QFields, merged: QFields, gs: QFields)
    requires ValidFields(fs) && ValidFields(merged) && ValidFields(gs) && StillHolds(fs, merged, gs)
    ensures AddFields(merged, gs).Merged? <==> CompatibleFields(fs, gs)
    ensures CompatibleFields(fs, gs) <==> NoClash(fs, gs)
    ensures ClashesDecide(fs, gs, AddFields(merged, gs))
    decreases gs, 1
  {
    match gs
    case FsNil =>
    case FsCons(f, q, rest) =>
      assert HasField(gs, f);
      if HasField(fs, f) {
        var p := FieldOp(fs, f);
        FieldOpFacts(fs, f);
        FirstClashDecides(p, q);
        if Compatible(p, q) {
          AddValid(p, q);
          NextFieldDecides(fs, merged, Add(p, q).result, gs);
        } else {
          ThisFieldDecides(fs, merged, gs);
        }
      } else {
        NextFieldDecides(fs, merged, q, gs);
      }
  }

  // Where the first field does not merge, it decides.
  lemma {:induction false} ThisFieldDecides(fs: QFields, merged: QFields, gs: QFields)
    requires gs.FsCons? && HasField(fs, gs.field) && Lookup(merged, gs.field) == Lookup(fs, gs.field)
    requires var p, q := FieldOp(fs, gs.field), gs.query;
      && !Compatible(p, q) && !Add(p, q).Merged?
      && (exists path :: ClashAt(p, q, path))
      && (forall path :: ClashAt(p, q, path) ==> Add(p, q) == ErrorFor(At(p, path), At(q, path)))
    ensures !AddFields(merged, gs).Merged? && !CompatibleFields(fs, gs) && !NoClash(fs, gs)
    ensures ClashesDecide(fs, gs, AddFields(merged, gs))
  {
    var p, q := FieldOp(fs, gs.field), gs.query;
    var first :| ClashAt(p, q, first);
    assert ClashInFields(fs, gs, gs.field, first);
    assert FieldOp(gs, gs.field) == q;
    forall field, path | ClashInFields(fs, gs, field, path) ensures ClashError(fs, gs, AddFields(merged, gs), field, path) {
      assert field == gs.field && ClashAt(p, q, path);
    }
  }

  // Where it merges, the rest decides.
  lemma {:induction false} NextFieldDecides(fs: QFields, merged: QFields, sum: Query, gs: QFields)
    requires gs.FsCons? && ValidFields(fs) && ValidFields(merged) && ValidFields(gs) && Valid(sum)
    requires StillHolds(fs, merged, gs)
    requires HasField(fs, gs.field) ==>
      && Compatible(FieldOp(fs, gs.field), gs.query)
      && (forall path :: !ClashAt(FieldOp(fs, gs.field), gs.query, path))
    ensures var rest := AddFields(PutField(merged, gs.field, sum), gs.rest);
      && (rest.Merged? <==> CompatibleFields(fs, gs))
      && (CompatibleFields(fs, gs) <==> NoClash(fs, gs))
      && ClashesDecide(fs, gs, rest)
    decreases gs, 0
  {
    var merged' := PutField(merged, gs.field, sum);
    forall f | HasField(gs.rest, f) ensures Lookup(merged', f) == Lookup(fs, f) {
      assert HasField(gs, f) && f != gs.field;
    }
    FirstFieldDecides(fs, merged', gs.rest);
    forall field, path ensures ClashInFields(fs, gs, field, path) <==> ClashInFields(fs, gs.rest, field, path) {
      if ClashInFields(fs, gs.rest, field, path) {
        ClashIsThere(fs, gs.rest, field, path);
      }
    }
    forall field, path | ClashInFields(fs, gs, field, path)
      ensures ClashError(fs, gs, AddFields(merged', gs.rest), field, path)
    {
      ClashGivesError(fs, gs.rest, AddFields(merged', gs.rest), field, path);
      assert field != gs.field && FieldOp(gs, field) == FieldOp(gs.rest, field);
    }
  }
}
