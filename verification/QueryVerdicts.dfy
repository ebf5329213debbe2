/** What the evaluator's verdicts say, without its order of evaluation where that does not matter. */
module QueryVerdicts {
  import opened Options
  import opened Json
  import opened Query

  function ItemAt(items: Items, i: nat): Json
    requires i < Length(items)
  {
    if i == 0 then items.head else ItemAt(items.tail, i - 1)
  }

  function QueryAt(qs: Queries, i: nat): Query
    requires i < Count(qs)
  {
    if i == 0 then qs.head else QueryAt(qs.tail, i - 1)
  }

  // The query refuses the state, without raising.
  predicate Refuses(state: Json, q: Query) {
    Evaluate(q, state) == Says(false)
  }

  ghost predicate EachItem(items: Items, p: Json -> bool) {
    forall i :: 0 <= i < Length(items) ==> p(ItemAt(items, i))
  }

  lemma EachItemStep(items: Items, p: Json -> bool)
    requires items.ICons?
    ensures EachItem(items, p) <==> p(items.head) && EachItem(items.tail, p)
  {
    assert ItemAt(items, 0) == items.head;
    if EachItem(items, p) {
      forall i | 0 <= i < Length(items.tail) ensures p(ItemAt(items.tail, i)) {
        assert p(ItemAt(items, i + 1));
      }
    }
    if p(items.head) && EachItem(items.tail, p) {
      forall i | 0 <= i < Length(items) ensures p(ItemAt(items, i)) {
        assert i > 0 ==> ItemAt(items, i) == ItemAt(items.tail, i - 1);
      }
    }
  }

  /** $all is met by the lists whose elements all meet the query. */
  lemma {:induction false} AllElementsMeans(q: Query, state: Json)
    ensures Satisfies(state, AllElements(q)) <==> state.Arr? && EachItem(state.items, x => Satisfies(x, q))
  {
    if state.Arr? { EveryElementMeans(q, state.items); }
  }

  lemma {:induction false} EveryElementMeans(q: Query, items: Items)
    ensures EveryElement(q, items) == Says(true) <==> EachItem(items, x => Satisfies(x, q))
  {
    if items.ICons? {
      EveryElementMeans(q, items.tail);
      EachItemStep(items, x => Satisfies(x, q));
    }
  }

  // The element meets the query, and those before it refuse it.
  ghost predicate DecidesAt(q: Query, items: Items, i: nat) {
    && i < Length(items) && Satisfies(ItemAt(items, i), q)
    && forall j :: 0 <= j < i ==> Refuses(ItemAt(items, j), q)
  }

  /** $any is met by the lists with an element that meets the query before any on which it raises. */
  lemma {:induction false} AnyElementMeans(q: Query, state: Json)
    ensures Satisfies(state, AnyElement(q)) <==> state.Arr? && exists i: nat :: DecidesAt(q, state.items, i)
    ensures Refuses(state, AnyElement(q)) <==> (state.Arr? ==> EachItem(state.items, x => Refuses(x, q)))
  {
    if state.Arr? { SomeElementMeans(q, state.items); }
  }

  lemma {:induction false} SomeElementMeans(q: Query, items: Items)
    ensures SomeElement(q, items) == Says(true) <==> exists i: nat :: DecidesAt(q, items, i)
    ensures SomeElement(q, items) == Says(false) <==> EachItem(items, x => Refuses(x, q))
  {
    if items.ICons? {
      SomeElementMeans(q, items.tail);
      EachItemStep(items, x => Refuses(x, q));
      FirstElementDecides(q, items);
    }
  }

  lemma {:induction false} FirstElementDecides(q: Query, items: Items)
    requires items.ICons?
    ensures (exists i: nat :: DecidesAt(q, items, i)) <==>
      Satisfies(items.head, q) || (Refuses(items.head, q) && exists i: nat :: DecidesAt(q, items.tail, i))
  {
    if Satisfies(items.head, q) {
      assert DecidesAt(q, items, 0);
    }
    if Refuses(items.head, q) && exists i: nat :: DecidesAt(q, items.tail, i) {
      var i: nat :| DecidesAt(q, items.tail, i);
      forall j | 0 <= j < i + 1 ensures Refuses(ItemAt(items, j), q) {
        assert j > 0 ==> ItemAt(items, j) == ItemAt(items.tail, j - 1);
      }
      assert DecidesAt(q, items, i + 1);
    }
    if (exists i: nat :: DecidesAt(q, items, i)) && !Satisfies(items.head, q) {
      var i: nat :| DecidesAt(q, items, i);
      assert i > 0 && Refuses(ItemAt(items, 0), q);
      forall j | 0 <= j < i - 1 ensures Refuses(ItemAt(items.tail, j), q) {
        assert Refuses(ItemAt(items, j + 1), q);
      }
      assert DecidesAt(q, items.tail, i - 1);
    }
  }

  ghost predicate EachQuery(qs: Queries, p: Query -> bool) {
    forall i :: 0 <= i < Count(qs) ==> p(QueryAt(qs, i))
  }

  lemma EachQueryStep(qs: Queries, p: Query -> bool)
    requires qs.QCons?
    ensures EachQuery(qs, p) <==> p(qs.head) && EachQuery(qs.tail, p)
  {
    assert QueryAt(qs, 0) == qs.head;
    if EachQuery(qs, p) {
      forall i | 0 <= i < Count(qs.tail) ensures p(QueryAt(qs.tail, i)) {
        assert p(QueryAt(qs, i + 1));
      }
    }
    if p(qs.head) && EachQuery(qs.tail, p) {
      forall i | 0 <= i < Count(qs) ensures p(QueryAt(qs, i)) {
        assert i > 0 ==> QueryAt(qs, i) == QueryAt(qs.tail, i - 1);
      }
    }
  }

  /** An And is met where all of its operands are, and an Or refuses where all of them do. */
  lemma {:induction false} AndOrMean(qs: Queries, state: Json)
    ensures Satisfies(state, And(qs)) <==> EachQuery(qs, q => Satisfies(state, q))
    ensures Refuses(state, Or(qs)) <==> EachQuery(qs, q => Refuses(state, q))
    ensures Satisfies(state, Or(qs)) ==> !EachQuery(qs, q => !Satisfies(state, q))
    ensures Refuses(state, And(qs)) ==> !EachQuery(qs, q => !Refuses(state, q))
  {
    AllMean(qs, state);
    SomeMean(qs, state);
  }

  lemma {:induction false} AllMean(qs: Queries, state: Json)
    ensures EvaluateAll(qs, state) == Says(true) <==> EachQuery(qs, q => Satisfies(state, q))
    ensures EvaluateAll(qs, state) == Says(false) ==> !EachQuery(qs, q => !Refuses(state, q))
  {
    if qs.QCons? {
      AllMean(qs.tail, state);
      EachQueryStep(qs, q => Satisfies(state, q));
      EachQueryStep(qs, q => !Refuses(state, q));
    }
  }

  lemma {:induction false} SomeMean(qs: Queries, state: Json)
    ensures EvaluateSome(qs, state) == Says(false) <==> EachQuery(qs, q => Refuses(state, q))
    ensures EvaluateSome(qs, state) == Says(true) ==> !EachQuery(qs, q => !Satisfies(state, q))
  {
    if qs.QCons? {
      SomeMean(qs.tail, state);
      EachQueryStep(qs, q => Refuses(state, q));
      EachQueryStep(qs, q => !Satisfies(state, q));
    }
  }

  predicate DistinctFields(fs: QFields) {
    match fs
    case FsNil => true
    case FsCons(f, _, rest) => !HasField(rest, f) && DistinctFields(rest)
  }

  /** A composite is met by the dicts whose fields meet its operators, a missing field counting as None. */
  lemma CompositeMeans(fs: QFields, state: Json)
    requires DistinctFields(fs)
    ensures Satisfies(state, Composite(fs)) <==>
      state.Obj? && forall f :: HasField(fs, f) ==> Satisfies(FieldOrNone(state.fields, f), FieldOp(fs, f))
  {
    if state.Obj? { FieldsMean(fs, state.fields); }
  }

  function FieldOrNone(state: Fields, f: string): Json {
    if Has(state, f) then Get(state, f).value else Null
  }

  lemma {:induction false} FieldsMean(fs: QFields, state: Fields)
    requires DistinctFields(fs)
    ensures EvaluateFields(fs, state) == Says(true) <==>
      forall f :: HasField(fs, f) ==> Satisfies(FieldOrNone(state, f), FieldOp(fs, f))
  {
    match fs
    case FsNil =>
    case FsCons(f, q, rest) =>
      FieldsMean(rest, state);
      assert HasField(fs, f) && FieldOp(fs, f) == q;
      forall g | HasField(rest, g) ensures HasField(fs, g) && FieldOp(fs, g) == FieldOp(rest, g) {}
      forall g | HasField(fs, g) && g != f ensures HasField(rest, g) && FieldOp(fs, g) == FieldOp(rest, g) {}
  }

  /** $len asks a list for its length, $not turns a verdict round, and a bare $rel asks what its criteria ask. */
  lemma UnaryMean(q: Query, fs: QFields, state: Json)
    ensures Satisfies(state, Len(q)) <==> state.Arr? && Satisfies(Num(Length(state.items) as real), q)
    ensures Satisfies(state, Not(q)) <==> Refuses(state, q)
    ensures Refuses(state, Not(q)) <==> Satisfies(state, q)
    ensures Evaluate(Rel(fs), state) == Evaluate(Composite(fs), state)
  {
  }

  /** $is_null with true is equality with None, and with false its negation. */
  lemma IsNullMeans(state: Json)
    ensures Evaluate(IsNull(true), state) == Evaluate(Eq(Null), state)
    ensures Evaluate(IsNull(false), state) == Evaluate(Not(IsNull(true)), state)
  {
  }
}
