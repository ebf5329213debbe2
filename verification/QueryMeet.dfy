/** What a merged query means: both of its parts, except where evaluating one of them raises. */
module QueryMeet {
  import opened Options
  import opened Json
  import opened PyEquality
  import opened Query
  import opened QueryMerge
  import opened QueryMergeLaws

  // ---- Equal operators, equal verdicts ----

  // Equal operators give the same verdict, unless one of them raises.
  ghost predicate Agree(x: Verdict, y: Verdict) {
    x == Raises || y == Raises || x == y
  }

  lemma {:induction false} EqualVerdicts(a: Query, b: Query, s: Json)
    requires Valid(a) && Valid(b) && DistinctKeys(s) && QEq(a, b)
    ensures Agree(Evaluate(a, s), Evaluate(b, s))
    decreases QDepth(a), 0, 0
  {
    match a
    case Eq(v) => EqRespects(v, b.value, s);
    case EqOf(_) =>
    case Cmp(_, v) =>
      EqRespects(v, b.operand, s);
      LessRespects(v, b.operand, s);
    case In(vs) => InRespects(vs, b.values, s);
    case IsNull(_) =>
    case And(ps) => EqualAll(ps, b.operands, s);
    case Or(ps) => EqualSome(ps, b.operands, s);
    case Not(p) => EqualVerdicts(p, b.query, s);
    case AnyElement(p) => if s.Arr? { EqualElements(p, b.query, s.items); }
    case AllElements(p) => if s.Arr? { EqualElements(p, b.query, s.items); }
    case Len(p) => if s.Arr? { EqualVerdicts(p, b.query, Num(Length(s.items) as real)); }
    case Rel(fs) => if s.Obj? { EqualFields(fs, b.criteria, s.fields); }
    case Composite(fs) => if s.Obj? { EqualFields(fs, b.criteria, s.fields); }
  }

  lemma {:induction false} InRespects(vs: Items, ws: Items, s: Json)
    requires DistinctInItems(vs) && DistinctInItems(ws) && DistinctKeys(s) && PyEqItems(vs, ws)
    ensures PyIn(s, vs) == PyIn(s, ws)
  {
    match (vs, ws)
    case (ICons(v, vs'), ICons(w, ws')) =>
      EqRespects(v, w, s);
      InRespects(vs', ws', s);
    case _ =>
  }

  lemma {:induction false} EqualAll(ps: Queries, qs: Queries, s: Json)
    requires ValidAll(ps) && ValidAll(qs) && DistinctKeys(s) && QEqAll(ps, qs)
    ensures Agree(EvaluateAll(ps, s), EvaluateAll(qs, s))
    decreases AllDepth(ps), 1, Count(ps)
  {
    match (ps, qs)
    case (QCons(p, ps'), QCons(q, qs')) =>
      EqualVerdicts(p, q, s);
      EqualAll(ps', qs', s);
    case _ =>
  }

  lemma {:induction false} EqualSome(ps: Queries, qs: Queries, s: Json)
    requires ValidAll(ps) && ValidAll(qs) && DistinctKeys(s) && QEqAll(ps, qs)
    ensures Agree(EvaluateSome(ps, s), EvaluateSome(qs, s))
    decreases AllDepth(ps), 1, Count(ps)
  {
    match (ps, qs)
    case (QCons(p, ps'), QCons(q, qs')) =>
      EqualVerdicts(p, q, s);
      EqualSome(ps', qs', s);
    case _ =>
  }

  lemma {:induction false} EqualElements(p: Query, q: Query, xs: Items)
    requires Valid(p) && Valid(q) && DistinctInItems(xs) && QEq(p, q)
    ensures Agree(SomeElement(p, xs), SomeElement(q, xs))
    ensures Agree(EveryElement(p, xs), EveryElement(q, xs))
    decreases QDepth(p), 1, Length(xs)
  {
    match xs
    case INil =>
    case ICons(x, rest) =>
      EqualVerdicts(p, q, x);
      EqualElements(p, q, rest);
  }

  // Which field decides depends on the order of the fields, but not what they decide.
  lemma {:induction false} EqualFields(fs: QFields, gs: QFields, s: Fields)
    requires ValidFields(fs) && ValidFields(gs) && DistinctInFields(s)
    requires FieldCount(fs) == FieldCount(gs) && QEqFields(fs, gs)
    ensures Agree(EvaluateFields(fs, s), EvaluateFields(gs, s))
    decreases QFieldsDepth(fs), 1, 0
  {
    FieldsEquality(fs, gs);
    forall f | HasField(fs, f)
      ensures Agree(Evaluate(FieldOp(fs, f), FieldValue(s, f)), Evaluate(FieldOp(gs, f), FieldValue(s, f)))
    {
      FieldOpFacts(fs, f);
      FieldOpFacts(gs, f);
      FieldValueDistinct(s, f);
      EqualVerdicts(FieldOp(fs, f), FieldOp(gs, f), FieldValue(s, f));
    }
    if EvaluateFields(fs, s) == Says(true) {
      FieldsAllTrue(fs, s);
      TrueOrRaises(gs, s);
    } else if EvaluateFields(gs, s) == Says(true) {
      FieldsAllTrue(gs, s);
      TrueOrRaises(fs, s);
    }
  }

  lemma FieldValueDistinct(s: Fields, f: string)
    requires DistinctInFields(s)
    ensures DistinctKeys(FieldValue(s, f))
  {
    if Has(s, f) {
      GetFacts(s, f);
    }
  }

  lemma {:induction false} FieldsAllTrue(fs: QFields, s: Fields)
    requires ValidFields(fs)
    ensures EvaluateFields(fs, s) == Says(true) <==>
      forall f :: HasField(fs, f) ==> Evaluate(FieldOp(fs, f), FieldValue(s, f)) == Says(true)
  {
    match fs
    case FsNil =>
    case FsCons(f, q, rest) =>
      FieldsAllTrue(rest, s);
      assert HasField(fs, f) && Lookup(fs, f) == Some(q);
      forall f' | HasField(rest, f') ensures HasField(fs, f') && Lookup(fs, f') == Lookup(rest, f') {}
  }

  // If no field can say no, the dict says yes or raises.
  lemma {:induction false} TrueOrRaises(fs: QFields, s: Fields)
    requires ValidFields(fs)
    requires forall f :: HasField(fs, f) ==> Agree(Evaluate(FieldOp(fs, f), FieldValue(s, f)), Says(true))
    ensures Agree(EvaluateFields(fs, s), Says(true))
  {
    match fs
    case FsNil =>
    case FsCons(f, q, rest) =>
      assert HasField(fs, f) && Lookup(fs, f) == Some(q);
      forall f' | HasField(rest, f') ensures HasField(fs, f') && Lookup(fs, f') == Lookup(rest, f') {}
      TrueOrRaises(rest, s);
  }

  // ---- The meet ----

  ghost predicate MeetAt(c: Query, a: Query, b: Query, s: Json) {
    && (Satisfies(s, a) && Satisfies(s, b) ==> Satisfies(s, c))
    && (Satisfies(s, c) ==> Satisfies(s, a) && Agree(Evaluate(b, s), Says(true)))
  }

  lemma {:induction false} MergeMeets(a: Query, b: Query, s: Json)
    requires Valid(a) && Valid(b) && DistinctKeys(s) && Add(a, b).Merged?
    ensures MeetAt(Add(a, b).result, a, b, s)
    decreases QDepth(a), 0
  {
    if ShapeOf(a) == ShapeOf(b) != Plain {
      if s.Obj? {
        FieldsMeet(a.criteria, b.criteria, s.fields);
      }
    } else {
      hide QEq, Evaluate;
      AddKeepsShape(a, b);
      AddPlain(a, b);
      EqualVerdicts(a, b, s);
    }
  }

  lemma {:induction false} FieldsMeet(fs: QFields, gs: QFields, s: Fields)
    requires ValidFields(fs) && ValidFields(gs) && DistinctInFields(s) && AddFields(fs, gs).Merged?
    ensures
      var hs := AddFields(fs, gs).result;
      && (EvaluateFields(fs, s) == Says(true) && EvaluateFields(gs, s) == Says(true) ==> EvaluateFields(hs, s) == Says(true))
      && (EvaluateFields(hs, s) == Says(true) ==>
            EvaluateFields(fs, s) == Says(true) && Agree(EvaluateFields(gs, s), Says(true)))
    decreases QFieldsDepth(fs), 1
  {
    hide QEq, Evaluate, EvaluateFields, AddFields, Add;
    var hs := AddFields(fs, gs).result;
    AddFieldsIsSum(fs, gs);
    forall f ensures MeetUnder(fs, gs, hs, s, f) {
      OnePresent(fs, gs, hs, f);
      if HasField(fs, f) && HasField(gs, f) {
        FieldOpFacts(fs, f);
        FieldOpFacts(gs, f);
        FieldValueDistinct(s, f);
        BothPresent(fs, gs, hs, f);
        MergeMeets(FieldOp(fs, f), FieldOp(gs, f), FieldValue(s, f));
      }
    }
    FieldsMeetPointwise(fs, gs, hs, s);
  }

  lemma BothPresent(fs: QFields, gs: QFields, hs: QFields, f: string)
    requires IsSum(fs, gs, Merged(hs)) && HasField(fs, f) && HasField(gs, f)
    ensures HasField(hs, f) && Add(FieldOp(fs, f), FieldOp(gs, f)) == Merged(FieldOp(hs, f))
  {
    assert SlotOf(hs, f) == Plus(SlotOf(fs, f), SlotOf(gs, f));
  }

  lemma OnePresent(fs: QFields, gs: QFields, hs: QFields, f: string)
    requires IsSum(fs, gs, Merged(hs))
    ensures HasField(hs, f) <==> HasField(fs, f) || HasField(gs, f)
    ensures HasField(fs, f) != HasField(gs, f) ==>
      FieldOp(hs, f) == if HasField(fs, f) then FieldOp(fs, f) else FieldOp(gs, f)
  {
    assert SlotOf(hs, f) == Plus(SlotOf(fs, f), SlotOf(gs, f));
  }

  // The entries of `hs` under `f` are the merge of those of `fs` and `gs`, as far as `s` can tell.
  ghost predicate MeetUnder(fs: QFields, gs: QFields, hs: QFields, s: Fields, f: string) {
    && (HasField(hs, f) <==> HasField(fs, f) || HasField(gs, f))
    && (HasField(fs, f) && HasField(gs, f) ==> MeetAt(FieldOp(hs, f), FieldOp(fs, f), FieldOp(gs, f), FieldValue(s, f)))
    && (HasField(fs, f) && !HasField(gs, f) ==> FieldOp(hs, f) == FieldOp(fs, f))
    && (HasField(gs, f) && !HasField(fs, f) ==> FieldOp(hs, f) == FieldOp(gs, f))
  }

  lemma FieldsMeetPointwise(fs: QFields, gs: QFields, hs: QFields, s: Fields)
    requires ValidFields(fs) && ValidFields(gs) && ValidFields(hs)
    requires forall f :: MeetUnder(fs, gs, hs, s, f)
    ensures EvaluateFields(fs, s) == Says(true) && EvaluateFields(gs, s) == Says(true) ==> EvaluateFields(hs, s) == Says(true)
    ensures EvaluateFields(hs, s) == Says(true) ==>
      EvaluateFields(fs, s) == Says(true) && Agree(EvaluateFields(gs, s), Says(true))
  {
    hide Evaluate, EvaluateFields, HasField, FieldOp;
    FieldsAllTrue(fs, s);
    FieldsAllTrue(gs, s);
    FieldsAllTrue(hs, s);
    if EvaluateFields(fs, s) == Says(true) && EvaluateFields(gs, s) == Says(true) {
      forall f | HasField(hs, f) ensures Evaluate(FieldOp(hs, f), FieldValue(s, f)) == Says(true) {
        assert MeetUnder(fs, gs, hs, s, f);
      }
    }
    if EvaluateFields(hs, s) == Says(true) {
      forall f | HasField(fs, f) ensures Evaluate(FieldOp(fs, f), FieldValue(s, f)) == Says(true) {
        assert MeetUnder(fs, gs, hs, s, f);
      }
      forall f | HasField(gs, f) ensures Agree(Evaluate(FieldOp(gs, f), FieldValue(s, f)), Says(true)) {
        assert MeetUnder(fs, gs, hs, s, f);
      }
      TrueOrRaises(gs, s);
    }
  }

  // ---- Exactly when ----

  /**
   Whether a state meets both queries when each field that both mention is taken from the left one:
   decided from the two queries alone, without merging them.
   */
  predicate Meets(a: Query, b: Query, s: Json)
    decreases a, 0
  {
    if (a.Composite? && b.Composite?) || (a.Rel? && b.Rel?) then
      s.Obj? && MeetsEach(a.criteria, b.criteria, s.fields) && MeetsRest(a.criteria, b.criteria, s.fields)
    else Satisfies(s, a)
  }

  predicate MeetsEach(fs: QFields, gs: QFields, s: Fields)
    decreases fs, 1
  {
    match fs
    case FsNil => true
    case FsCons(f, q, rest) =>
      && (if HasField(gs, f) then Meets(q, FieldOp(gs, f), FieldValue(s, f)) else Satisfies(FieldValue(s, f), q))
      && MeetsEach(rest, gs, s)
  }

  /** The fields that only the right query mentions. */
  predicate MeetsRest(fs: QFields, gs: QFields, s: Fields)
    decreases gs
  {
    match gs
    case FsNil => true
    case FsCons(g, q, rest) => (HasField(fs, g) || Satisfies(FieldValue(s, g), q)) && MeetsRest(fs, rest, s)
  }

  predicate MeetsField(fs: QFields, gs: QFields, s: Fields, f: string)
    requires HasField(fs, f)
  {
    if HasField(gs, f) then Meets(FieldOp(fs, f), FieldOp(gs, f), FieldValue(s, f))
    else Satisfies(FieldValue(s, f), FieldOp(fs, f))
  }

  lemma {:induction false} MeetsEachMeans(fs: QFields, gs: QFields, s: Fields)
    requires ValidFields(fs)
    ensures MeetsEach(fs, gs, s) <==> forall f :: HasField(fs, f) ==> MeetsField(fs, gs, s, f)
    decreases fs
  {
    hide Meets, Satisfies;
    match fs
    case FsNil =>
    case FsCons(f, q, rest) =>
      MeetsEachMeans(rest, gs, s);
      assert HasField(fs, f) && FieldOp(fs, f) == q;
      forall f' | HasField(rest, f') ensures HasField(fs, f') && FieldOp(fs, f') == FieldOp(rest, f') {}
      forall f' | HasField(fs, f') ensures f' == f || HasField(rest, f') {}
      assert MeetsField(fs, gs, s, f) <==>
        if HasField(gs, f) then Meets(q, FieldOp(gs, f), FieldValue(s, f)) else Satisfies(FieldValue(s, f), q);
  }

  lemma {:induction false} MeetsRestMeans(fs: QFields, gs: QFields, s: Fields)
    requires ValidFields(gs)
    ensures MeetsRest(fs, gs, s) <==>
      forall f :: HasField(gs, f) && !HasField(fs, f) ==> Satisfies(FieldValue(s, f), FieldOp(gs, f))
    decreases gs
  {
    hide Satisfies;
    match gs
    case FsNil =>
    case FsCons(g, q, rest) =>
      MeetsRestMeans(fs, rest, s);
      assert HasField(gs, g) && FieldOp(gs, g) == q;
      forall f | HasField(rest, f) ensures HasField(gs, f) && FieldOp(gs, f) == FieldOp(rest, f) {}
      forall f | HasField(gs, f) ensures f == g || HasField(rest, f) {}
  }

  /** What the merged query asks, read off its two parts. */
  lemma {:induction false} SumAsksBothFieldByField(a: Query, b: Query, s: Json)
    requires Valid(a) && Valid(b) && Add(a, b).Merged?
    ensures Satisfies(s, Add(a, b).result) <==> Meets(a, b, s)
    decreases QDepth(a), 0
  {
    if (a.Composite? && b.Composite?) || (a.Rel? && b.Rel?) {
      if s.Obj? {
        FieldSumAsksBoth(a.criteria, b.criteria, s.fields);
      }
    } else {
      AddPlain(a, b);
    }
  }

  lemma {:induction false} FieldSumAsksBoth(fs: QFields, gs: QFields, s: Fields)
    requires ValidFields(fs) && ValidFields(gs) && AddFields(fs, gs).Merged?
    ensures EvaluateFields(AddFields(fs, gs).result, s) == Says(true) <==> MeetsEach(fs, gs, s) && MeetsRest(fs, gs, s)
    decreases QFieldsDepth(fs), 1
  {
    hide Add, AddFields, Evaluate, EvaluateFields, Meets, MeetsEach, MeetsRest, HasField, FieldOp;
    var hs := AddFields(fs, gs).result;
    AddFieldsIsSum(fs, gs);
    FieldsAllTrue(hs, s);
    MeetsEachMeans(fs, gs, s);
    MeetsRestMeans(fs, gs, s);
    forall f ensures HasField(hs, f) <==> HasField(fs, f) || HasField(gs, f) {
      OnePresent(fs, gs, hs, f);
    }
    forall f | HasField(hs, f)
      ensures Evaluate(FieldOp(hs, f), FieldValue(s, f)) == Says(true) <==>
        if HasField(fs, f) then MeetsField(fs, gs, s, f) else Satisfies(FieldValue(s, f), FieldOp(gs, f))
    {
      OnePresent(fs, gs, hs, f);
      if HasField(fs, f) && HasField(gs, f) {
        FieldOpFacts(fs, f);
        FieldOpFacts(gs, f);
        BothPresent(fs, gs, hs, f);
        SumAsksBothFieldByField(FieldOp(fs, f), FieldOp(gs, f), FieldValue(s, f));
      }
    }
  }

  /**
   A state meets `a + b` exactly if it meets both, but for one case: evaluating `b` on it raises
   although, with shared fields taken from `a`, it meets both.
   */
  lemma MergeIsMeet(a: Query, b: Query, s: Json)
    requires Valid(a) && Valid(b) && DistinctKeys(s) && Add(a, b).Merged?
    ensures
      (Satisfies(s, Add(a, b).result) <==> Satisfies(s, a) && Satisfies(s, b))
      <==> !(Meets(a, b, s) && Evaluate(b, s) == Raises)
  {
    hide Add, Valid, DistinctKeys, Evaluate, Meets;
    MergeMeets(a, b, s);
    SumAsksBothFieldByField(a, b, s);
  }

  // A state that meets the merged query although evaluating the right part on it raises:
  // the two parts differ only in the order of their fields.
  const IS_ONE := FsCons("y", Eq(Num(1.0)), FsNil)
  const ABOVE_FIVE := FsCons("x", Cmp(Gt, Num(5.0)), FsNil)
  const ONE_FIRST := FsCons("y", Eq(Num(1.0)), ABOVE_FIVE)
  const FIVE_FIRST := FsCons("x", Cmp(Gt, Num(5.0)), IS_ONE)
  const NO_X := FCons("x", Null, FCons("y", Num(0.0), FNil))

  lemma MergeMeetFailsWhereOneRaises()
    ensures Add(Not(Composite(ONE_FIRST)), Not(Composite(FIVE_FIRST))) == Merged(Not(Composite(ONE_FIRST)))
    ensures Satisfies(Obj(NO_X), Not(Composite(ONE_FIRST)))
    ensures Evaluate(Not(Composite(FIVE_FIRST)), Obj(NO_X)) == Raises
    ensures Meets(Not(Composite(ONE_FIRST)), Not(Composite(FIVE_FIRST)), Obj(NO_X))
  {
    SwappedFieldsAreEqual();
    assert Get(NO_X, "y") == Get(FCons("y", Num(0.0), FNil), "y") == Some(Num(0.0));
    assert Evaluate(Composite(ONE_FIRST), Obj(NO_X)) == Says(false);
    assert Get(NO_X, "x") == Some(Null);
    assert Evaluate(Composite(FIVE_FIRST), Obj(NO_X)) == Raises;
  }

  lemma SwappedFieldsAreEqual()
    ensures QEq(Not(Composite(ONE_FIRST)), Not(Composite(FIVE_FIRST)))
  {
    assert Lookup(FIVE_FIRST, "y") == Lookup(IS_ONE, "y") == Some(Eq(Num(1.0)));
    assert QEqFields(ABOVE_FIVE, FIVE_FIRST);
    assert QEqFields(ONE_FIRST, FIVE_FIRST);
  }

  // ---- Any order of merging ----

  /** Criteria merged from left to right. */
  function MergeAll(qs: seq<Query>): Merge<Query>
    requires qs != []
  {
    if |qs| == 1 then Merged(qs[0]) else Then(MergeAll(qs[..|qs| - 1]), qs[|qs| - 1])
  }

  ghost predicate AllValid(qs: seq<Query>) {
    forall q :: q in qs ==> Valid(q)
  }

  ghost predicate ValidMerge(x: Merge<Query>) {
    x.Merged? ==> Valid(x.result)
  }

  lemma ThenValid(x: Merge<Query>, c: Query)
    requires ValidMerge(x) && Valid(c)
    ensures ValidMerge(Then(x, c))
  {
    if x.Merged? { AddValid(x.result, c); }
  }

  lemma {:induction false} MergeAllValid(qs: seq<Query>)
    requires qs != [] && AllValid(qs)
    ensures ValidMerge(MergeAll(qs))
  {
    if |qs| > 1 {
      MergeAllValid(qs[..|qs| - 1]);
      ThenValid(MergeAll(qs[..|qs| - 1]), qs[|qs| - 1]);
    }
  }

  lemma MergeEqTrans(x: Merge<Query>, y: Merge<Query>, z: Merge<Query>)
    requires ValidMerge(x) && ValidMerge(y) && ValidMerge(z) && MergeEq(x, y) && MergeEq(y, z)
    ensures MergeEq(x, z)
  {
    hide QEq;
    if x.Merged? { QTrans(x.result, y.result, z.result); }
  }

  lemma ThenRespects(x: Merge<Query>, y: Merge<Query>, c: Query)
    requires ValidMerge(x) && ValidMerge(y) && Valid(c) && MergeEq(x, y)
    ensures MergeEq(Then(x, c), Then(y, c))
  {
    hide QEq, Add;
    if x.Merged? { AddRespects(x.result, y.result, c); }
  }

  lemma AddRespectsRight(a: Query, b: Query, b': Query)
    requires Valid(a) && Valid(b) && Valid(b') && QEq(b, b')
    ensures MergeEq(Add(a, b), Add(a, b'))
  {
    hide QEq, Add;
    AddCommutes(a, b);
    AddRespects(b, b', a);
    AddCommutes(b', a);
    AddValid(a, b);
    AddValid(b, a);
    AddValid(b', a);
    AddValid(a, b');
    MergeEqTrans(Add(a, b), Add(b, a), Add(b', a));
    MergeEqTrans(Add(a, b), Add(b', a), Add(a, b'));
  }

  // The last two of three operands may change places.
  lemma SwapLast(x: Merge<Query>, b: Query, c: Query)
    requires ValidMerge(x) && Valid(b) && Valid(c)
    ensures MergeEq(Then(Then(x, b), c), Then(Then(x, c), b))
  {
    hide QEq, Add;
    if x.Merged? {
      var a := x.result;
      AddAssociates(a, b, c);
      AddAssociates(a, c, b);
      AddCommutes(b, c);
      ValidNestings(a, b, c);
      ValidNestings(a, c, b);
      if Add(b, c).Merged? {
        AddRespectsRight(a, Add(b, c).result, Add(c, b).result);
      }
      var left, right := Then(Add(a, b), c), Then(Add(a, c), b);
      MergeEqTrans(left, After(a, Add(b, c)), After(a, Add(c, b)));
      MergeEqSym(right, After(a, Add(c, b)));
      MergeEqTrans(left, After(a, Add(c, b)), right);
    }
  }

  lemma MergeEqSym(x: Merge<Query>, y: Merge<Query>)
    requires ValidMerge(x) && ValidMerge(y) && MergeEq(x, y)
    ensures MergeEq(y, x)
  {
    hide QEq;
    if x.Merged? { QSym(x.result, y.result); }
  }

  lemma ValidNestings(a: Query, b: Query, c: Query)
    requires Valid(a) && Valid(b) && Valid(c)
    ensures ValidMerge(Add(a, b)) && ValidMerge(Add(b, c))
    ensures ValidMerge(Then(Add(a, b), c)) && ValidMerge(After(a, Add(b, c)))
  {
    AddValid(a, b);
    AddValid(b, c);
    ThenValid(Add(a, b), c);
    if Add(b, c).Merged? { AddValid(a, Add(b, c).result); }
  }

  function Without(qs: seq<Query>, i: nat): seq<Query>
    requires i < |qs|
  {
    qs[..i] + qs[i + 1..]
  }

  // Any one of the criteria may be merged last.
  lemma {:induction false} MoveToEnd(qs: seq<Query>, i: nat)
    requires |qs| > 1 && i < |qs| && AllValid(qs)
    ensures MergeEq(MergeAll(qs), Then(MergeAll(Without(qs, i)), qs[i]))
  {
    hide QEq, Add, Then, AllValid;
    var k := |qs| - 1;
    var init, z, x := qs[..k], qs[k], qs[i];
    var rest := Without(qs, i);
    AllValidFacts(qs, i);
    MergeAllValid(qs);
    MergeAllValid(rest);
    MergeAllValid(init);
    ThenValid(MergeAll(rest), x);
    if i == k {
      assert rest == init;
      MergeEqRefl(MergeAll(qs));
    } else if k == 1 {
      assert rest == [z] && init == [x];
      PairCommutes(x, z);
    } else {
      var rest' := Without(init, i);
      MoveToEnd(init, i);
      assert rest[..|rest| - 1] == rest' && rest[|rest| - 1] == z;
      AllValidFacts(init, i);
      MergeAllValid(rest');
      var m := MergeAll(rest');
      ThenValid(m, x);
      ThenValid(m, z);
      ThenValid(Then(m, x), z);
      ThenValid(Then(m, z), x);
      ThenRespects(MergeAll(init), Then(m, x), z);
      SwapLast(m, x, z);
      MergeEqTrans(MergeAll(qs), Then(Then(m, x), z), Then(Then(m, z), x));
    }
  }

  lemma MergeEqRefl(x: Merge<Query>)
    requires ValidMerge(x)
    ensures MergeEq(x, x)
  {
    if x.Merged? { QRefl(x.result); }
  }

  lemma PairCommutes(x: Query, z: Query)
    requires Valid(x) && Valid(z)
    ensures MergeEq(MergeAll([x, z]), Then(MergeAll([z]), x))
  {
    hide QEq, Add;
    assert [x, z][..1] == [x];
    AddCommutes(x, z);
  }

  lemma AllValidFacts(qs: seq<Query>, i: nat)
    requires AllValid(qs) && i < |qs|
    ensures Valid(qs[i]) && AllValid(Without(qs, i))
    ensures AllValid(qs[..|qs| - 1]) && Valid(qs[|qs| - 1])
  {
    forall q | q in Without(qs, i) ensures q in qs {}
    forall q | q in qs[..|qs| - 1] ensures q in qs {}
  }

  /** Merging the same criteria in any order fails or succeeds alike, with equal results. */
  lemma {:induction false} MergeAllInAnyOrder(ps: seq<Query>, qs: seq<Query>)
    requires ps != [] && multiset(ps) == multiset(qs) && AllValid(ps)
    ensures qs != [] && MergeEq(MergeAll(ps), MergeAll(qs))
    decreases |ps|
  {
    hide QEq, Add, Then, AllValid, Without;
    var k := |ps| - 1;
    var init, x := ps[..k], ps[k];
    var i := TakeOut(ps, qs);
    MergeAllValid(ps);
    MergeAllValid(qs);
    if k == 0 {
      assert qs == [x] && ps == [x];
      MergeEqRefl(MergeAll(ps));
    } else {
      var rest := Without(qs, i);
      AllValidFacts(ps, k);
      AllValidFacts(qs, i);
      MergeAllInAnyOrder(init, rest);
      MergeAllValid(init);
      MergeAllValid(rest);
      ThenValid(MergeAll(rest), x);
      ThenRespects(MergeAll(init), MergeAll(rest), x);
      MoveToEnd(qs, i);
      MergeEqSym(MergeAll(qs), Then(MergeAll(rest), x));
      MergeEqTrans(MergeAll(ps), Then(MergeAll(rest), x), MergeAll(qs));
    }
  }

  // The last of `ps` stands somewhere in `qs`, and without it the rest agrees.
  lemma TakeOut(ps: seq<Query>, qs: seq<Query>) returns (i: nat)
    requires ps != [] && multiset(ps) == multiset(qs) && AllValid(ps)
    ensures |qs| == |ps| && i < |qs| && qs[i] == ps[|ps| - 1] && AllValid(qs)
    ensures multiset(Without(qs, i)) == multiset(ps[..|ps| - 1])
  {
    hide Valid;
    assert |multiset(ps)| == |ps| && |multiset(qs)| == |qs|;
    forall q | q in qs ensures Valid(q) { assert q in multiset(qs); }
    var init, x := ps[..|ps| - 1], ps[|ps| - 1];
    assert ps == init + [x];
    assert x in multiset(qs);
    i :| 0 <= i < |qs| && qs[i] == x;
    assert qs == qs[..i] + [x] + qs[i + 1..];
    assert multiset(Without(qs, i)) == multiset(qs) - multiset{x};
  }
}
