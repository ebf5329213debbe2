/** The merge `a + b` of query operators is a partial meet. */
module QueryMergeLaws {
  import opened Options
  import opened Query
  import opened QueryMerge

  /** The outcome of `a + b`: an operator, MergeConflict, or TypeError for operators of two kinds. */
  datatype Merge<+T> = Merged(result: T) | Conflict | Unsupported

  function PutField(fs: QFields, field: string, q: Query): (r: QFields)
    ensures forall f :: Lookup(r, f) == if f == field then Some(q) else Lookup(fs, f)
    ensures ValidFields(fs) && Valid(q) ==> ValidFields(r)
  {
    match fs
    case FsNil => FsCons(field, q, FsNil)
    case FsCons(f, p, rest) => if f == field then FsCons(f, q, rest) else FsCons(f, p, PutField(rest, field, q))
  }

  predicate SameKind(a: Query, b: Query) {
    match a
    case Eq(_) => b.Eq? || b.EqOf?
    case EqOf(_) => b.Eq? || b.EqOf?
    case Cmp(_, _) => b.Cmp?
    case In(_) => b.In?
    case IsNull(_) => b.IsNull?
    case And(_) => b.And?
    case Or(_) => b.Or?
    case Not(_) => b.Not?
    case AnyElement(_) => b.AnyElement?
    case AllElements(_) => b.AllElements?
    case Len(_) => b.Len?
    case Rel(_) => b.Rel?
    case Composite(_) => b.Composite?
  }

  function AsComposite(sum: Merge<QFields>): Merge<Query> {
    match sum
    case Merged(fs) => Merged(Composite(fs))
    case Conflict => Conflict
    case Unsupported => Unsupported
  }

  function AsRel(sum: Merge<QFields>): Merge<Query> {
    match sum
    case Merged(fs) => Merged(Rel(fs))
    case Conflict => Conflict
    case Unsupported => Unsupported
  }

  function Add(a: Query, b: Query): Merge<Query>
    decreases b
  {
    if a.Composite? && b.Composite? then AsComposite(AddFields(a.criteria, b.criteria))
    else if a.Rel? && b.Rel? then AsRel(AddFields(a.criteria, b.criteria))
    else if !SameKind(a, b) then Unsupported
    else if QEq(a, b) then Merged(a)
    else Conflict
  }

  // `merged` starts as a copy of the left dict and takes the right one field by field.
  function AddFields(merged: QFields, gs: QFields): Merge<QFields>
    decreases gs
  {
    match gs
    case FsNil => Merged(merged)
    case FsCons(f, q, rest) =>
      if HasField(merged, f) then
        match Add(FieldOp(merged, f), q)
        case Merged(p) => AddFields(PutField(merged, f, p), rest)
        case Conflict => Conflict
        case Unsupported => Unsupported
      else AddFields(PutField(merged, f, q), rest)
  }

  /** CompositeQuery.__add__: the loop over the fields of the right operand. */
  method AddComposite(fs: QFields, gs: QFields) returns (r: Merge<QFields>)
    ensures r == AddFields(fs, gs)
  {
    var merged, rest := fs, gs;
    while rest.FsCons?
      invariant AddFields(merged, rest) == AddFields(fs, gs)
      decreases rest
    {
      if HasField(merged, rest.field) {
        var sum := Add(FieldOp(merged, rest.field), rest.query);
        if sum.Conflict? { return Conflict; }
        if sum.Unsupported? { return Unsupported; }
        merged := PutField(merged, rest.field, sum.result);
      } else {
        merged := PutField(merged, rest.field, rest.query);
      }
      rest := rest.rest;
    }
    r := Merged(merged);
  }

  // ---- Merging dicts is merging their slots ----

  /** What a dict holds under one field. */
  datatype Slot = Absent | Present(q: Query) | Broken

  function SlotOf(fs: QFields, f: string): Slot {
    if HasField(fs, f) then Present(FieldOp(fs, f)) else Absent
  }

  function Plus(x: Slot, y: Slot): Slot {
    match (x, y)
    case (Absent, _) => y
    case (_, Absent) => x
    case (Present(p), Present(q)) => (match Add(p, q) case Merged(r) => Present(r) case _ => Broken)
    case _ => Broken
  }

  predicate SlotEq(x: Slot, y: Slot) {
    x == y || (x.Present? && y.Present? && QEq(x.q, y.q))
  }

  ghost predicate IsSum(fs: QFields, gs: QFields, sum: Merge<QFields>) {
    && (sum.Merged? <==> forall f :: Plus(SlotOf(fs, f), SlotOf(gs, f)) != Broken)
    && (sum.Merged? ==> ValidFields(sum.result))
    && (sum.Merged? ==> forall f :: SlotOf(sum.result, f) == Plus(SlotOf(fs, f), SlotOf(gs, f)))
  }

  lemma {:induction false} AddValid(a: Query, b: Query)
    requires Valid(a) && Valid(b)
    ensures Add(a, b).Merged? ==> Valid(Add(a, b).result)
    decreases b
  {
    match (a, b)
    case (Composite(fs), Composite(gs)) => AddFieldsIsSum(fs, gs);
    case (Rel(fs), Rel(gs)) => AddFieldsIsSum(fs, gs);
    case _ =>
  }

  lemma {:induction false} AddFieldsIsSum(fs: QFields, gs: QFields)
    requires ValidFields(fs) && ValidFields(gs)
    ensures IsSum(fs, gs, AddFields(fs, gs))
    decreases gs
  {
    match gs
    case FsNil =>
    case FsCons(f, q, rest) =>
      FieldOpFactsIfAny(fs, f);
      if HasField(fs, f) {
        AddValid(FieldOp(fs, f), q);
        assert Plus(SlotOf(fs, f), SlotOf(gs, f)) == Plus(Present(FieldOp(fs, f)), Present(q));
      }
      if !HasField(fs, f) || Add(FieldOp(fs, f), q).Merged? {
        var p := if HasField(fs, f) then Add(FieldOp(fs, f), q).result else q;
        var fs' := PutField(fs, f, p);
        AddFieldsIsSum(fs', rest);
        forall k ensures Plus(SlotOf(fs', k), SlotOf(rest, k)) == Plus(SlotOf(fs, k), SlotOf(gs, k)) {
          assert k == f ==> !HasField(rest, k);
        }
      }
  }

  lemma FieldOpFactsIfAny(fs: QFields, f: string)
    requires ValidFields(fs)
    ensures HasField(fs, f) ==> Valid(FieldOp(fs, f))
  {
    if HasField(fs, f) {
      FieldOpFacts(fs, f);
    }
  }

  // ---- Laws ----

  /** The same outcome up to operator equality; which error is raised may differ. */
  predicate MergeEq(x: Merge<Query>, y: Merge<Query>) {
    && x.Merged? == y.Merged?
    && (x.Merged? ==> QEq(x.result, y.result))
  }

  /** `x + c` and `a + y`, where `x` and `y` are themselves sums that may have failed. */
  function Then(x: Merge<Query>, c: Query): Merge<Query> {
    if x.Merged? then Add(x.result, c) else x
  }

  function After(a: Query, y: Merge<Query>): Merge<Query> {
    if y.Merged? then Add(a, y.result) else y
  }

  function ThenFields(x: Merge<QFields>, hs: QFields): Merge<QFields> {
    if x.Merged? then AddFields(x.result, hs) else x
  }

  function AfterFields(fs: QFields, y: Merge<QFields>): Merge<QFields> {
    if y.Merged? then AddFields(fs, y.result) else y
  }

  ghost predicate ValidSlot(x: Slot) {
    x.Present? ==> Valid(x.q)
  }

  function SlotDepth(x: Slot): nat {
    if x.Present? then QDepth(x.q) else 0
  }

  lemma SlotFacts(fs: QFields, f: string)
    requires ValidFields(fs)
    ensures ValidSlot(SlotOf(fs, f)) && SlotDepth(SlotOf(fs, f)) <= QFieldsDepth(fs)
  {
    if HasField(fs, f) {
      FieldOpFacts(fs, f);
    }
  }

  // Dicts with equal slots are equal.
  lemma SlotsDecide(fs: QFields, gs: QFields)
    requires ValidFields(fs) && ValidFields(gs)
    ensures SameFields(fs, gs) <==> forall f :: SlotEq(SlotOf(fs, f), SlotOf(gs, f))
    ensures SameFields(fs, gs) <==> FieldCount(fs) == FieldCount(gs) && QEqFields(fs, gs)
  {
    FieldsEquality(fs, gs);
    forall f ensures SlotEq(SlotOf(fs, f), SlotOf(gs, f)) <==>
        (HasField(fs, f) <==> HasField(gs, f)) &&
        (HasField(fs, f) && HasField(gs, f) ==> QEq(FieldOp(fs, f), FieldOp(gs, f))) {
      if HasField(fs, f) && SlotOf(fs, f) == SlotOf(gs, f) {
        FieldOpFacts(fs, f);
        QRefl(FieldOp(fs, f));
      }
    }
  }

  // Two sums whose slots agree have the same outcome.
  lemma SumsAgree(fs: QFields, gs: QFields, sum: Merge<QFields>, fs': QFields, gs': QFields, sum': Merge<QFields>)
    requires IsSum(fs, gs, sum) && IsSum(fs', gs', sum')
    requires forall f :: SlotEq(Plus(SlotOf(fs, f), SlotOf(gs, f)), Plus(SlotOf(fs', f), SlotOf(gs', f)))
    ensures SumEq(sum, sum')
  {
    if sum.Merged? && sum'.Merged? {
      SlotsDecide(sum.result, sum'.result);
    }
  }

  /** Merging is commutative, in result and in definedness. */
  lemma {:induction false} AddCommutes(a: Query, b: Query)
    requires Valid(a) && Valid(b)
    ensures MergeEq(Add(a, b), Add(b, a))
    decreases QDepth(a), 0
  {
    hide QEq, SameKind;
    if a.Composite? && b.Composite? {
      AddFieldsCommutes(a.criteria, b.criteria);
      LiftSum(AddFields(a.criteria, b.criteria), AddFields(b.criteria, a.criteria));
    } else if a.Rel? && b.Rel? {
      AddFieldsCommutes(a.criteria, b.criteria);
      LiftSum(AddFields(a.criteria, b.criteria), AddFields(b.criteria, a.criteria));
    } else {
      AddPlain(a, b);
      AddPlain(b, a);
      if QEq(a, b) { QSym(a, b); }
      if QEq(b, a) { QSym(b, a); }
    }
  }

  // Two operators that are not both dicts merge only if they are equal.
  lemma AddPlain(a: Query, b: Query)
    requires !(a.Composite? && b.Composite?) && !(a.Rel? && b.Rel?)
    ensures Add(a, b).Merged? <==> QEq(a, b)
    ensures Add(a, b).Merged? ==> Add(a, b) == Merged(a)
  {
    assert QEq(a, b) ==> SameKind(a, b);
  }

  ghost predicate SumEq(x: Merge<QFields>, y: Merge<QFields>) {
    && x.Merged? == y.Merged?
    && (x.Merged? ==> FieldCount(x.result) == FieldCount(y.result) && QEqFields(x.result, y.result))
  }

  lemma LiftSum(x: Merge<QFields>, y: Merge<QFields>)
    requires SumEq(x, y)
    ensures MergeEq(AsComposite(x), AsComposite(y)) && MergeEq(AsRel(x), AsRel(y))
  {
  }

  lemma {:induction false} AddFieldsCommutes(fs: QFields, gs: QFields)
    requires ValidFields(fs) && ValidFields(gs)
    ensures SumEq(AddFields(fs, gs), AddFields(gs, fs))
    decreases QFieldsDepth(fs), 1
  {
    AddFieldsIsSum(fs, gs);
    AddFieldsIsSum(gs, fs);
    forall f ensures SlotEq(Plus(SlotOf(fs, f), SlotOf(gs, f)), Plus(SlotOf(gs, f), SlotOf(fs, f))) {
      SlotFacts(fs, f);
      SlotFacts(gs, f);
      if HasField(fs, f) && HasField(gs, f) {
        AddCommutes(FieldOp(fs, f), FieldOp(gs, f));
      }
    }
    SumsAgree(fs, gs, AddFields(fs, gs), gs, fs, AddFields(gs, fs));
  }

  /** Merging respects equality in its left operand, hence, being commutative, in both. */
  lemma {:induction false} AddRespects(a: Query, a': Query, b: Query)
    requires Valid(a) && Valid(a') && Valid(b) && QEq(a, a')
    ensures MergeEq(Add(a, b), Add(a', b))
    decreases QDepth(a), 0
  {
    hide SameKind;
    QSym(a, a');
    if a.Composite? && b.Composite? {
      AddFieldsRespects(a.criteria, a'.criteria, b.criteria);
      LiftSum(AddFields(a.criteria, b.criteria), AddFields(a'.criteria, b.criteria));
    } else if a.Rel? && b.Rel? {
      AddFieldsRespects(a.criteria, a'.criteria, b.criteria);
      LiftSum(AddFields(a.criteria, b.criteria), AddFields(a'.criteria, b.criteria));
    } else {
      AddPlain(a, b);
      AddPlain(a', b);
      if QEq(a, b) { QTrans(a', a, b); }
      if QEq(a', b) { QTrans(a, a', b); }
    }
  }

  lemma {:induction false} AddFieldsRespects(fs: QFields, fs': QFields, gs: QFields)
    requires ValidFields(fs) && ValidFields(fs') && ValidFields(gs)
    requires FieldCount(fs) == FieldCount(fs') && QEqFields(fs, fs')
    ensures SumEq(AddFields(fs, gs), AddFields(fs', gs))
    decreases QFieldsDepth(fs), 2
  {
    AddFieldsIsSum(fs, gs);
    AddFieldsIsSum(fs', gs);
    SlotsDecide(fs, fs');
    forall f ensures SlotEq(Plus(SlotOf(fs, f), SlotOf(gs, f)), Plus(SlotOf(fs', f), SlotOf(gs, f))) {
      SlotFacts(fs, f);
      SlotFacts(fs', f);
      SlotFacts(gs, f);
      assert SlotEq(SlotOf(fs, f), SlotOf(fs', f));
      PlusRespects(fs, fs', gs, f);
    }
    SumsAgree(fs, gs, AddFields(fs, gs), fs', gs, AddFields(fs', gs));
  }

  lemma {:induction false} PlusRespects(fs: QFields, fs': QFields, gs: QFields, f: string)
    requires ValidFields(fs) && ValidFields(fs') && ValidFields(gs)
    requires SlotEq(SlotOf(fs, f), SlotOf(fs', f))
    ensures SlotEq(Plus(SlotOf(fs, f), SlotOf(gs, f)), Plus(SlotOf(fs', f), SlotOf(gs, f)))
    decreases QFieldsDepth(fs), 1
  {
    if HasField(fs, f) && HasField(gs, f) {
      SlotFacts(fs, f);
      SlotFacts(fs', f);
      SlotFacts(gs, f);
      var p, p', q := FieldOp(fs, f), FieldOp(fs', f), FieldOp(gs, f);
      QRefl(p);
      assert QEq(p, p');
      AddRespects(p, p', q);
    }
  }

  /** Merging an operator with itself changes nothing. */
  lemma {:induction false} AddIsIdempotent(a: Query)
    requires Valid(a)
    ensures Add(a, a).Merged? && QEq(Add(a, a).result, a)
    decreases QDepth(a), 0
  {
    QRefl(a);
    if a.Composite? || a.Rel? {
      AddFieldsIsIdempotent(a.criteria);
    } else {
      AddPlain(a, a);
    }
  }

  lemma {:induction false} AddFieldsIsIdempotent(fs: QFields)
    requires ValidFields(fs)
    ensures SumEq(AddFields(fs, fs), Merged(fs))
    decreases QFieldsDepth(fs), 1
  {
    AddFieldsIsSum(fs, fs);
    forall f ensures SlotEq(Plus(SlotOf(fs, f), SlotOf(fs, f)), SlotOf(fs, f)) {
      if HasField(fs, f) {
        SlotFacts(fs, f);
        AddIsIdempotent(FieldOp(fs, f));
      }
    }
    if AddFields(fs, fs).Merged? {
      SlotsDecide(AddFields(fs, fs).result, fs);
    }
  }

  datatype Shape = Plain | FieldDict | Relation

  function ShapeOf(q: Query): Shape {
    if q.Composite? then FieldDict else if q.Rel? then Relation else Plain
  }

  lemma AddKeepsShape(a: Query, b: Query)
    ensures Add(a, b).Merged? ==> ShapeOf(a) == ShapeOf(b) == ShapeOf(Add(a, b).result)
  {
    if ShapeOf(a) != ShapeOf(b) || ShapeOf(a) == Plain {
      hide Add, QEq;
      AddPlain(a, b);
      EqualShapes(a, b);
    }
  }

  lemma EqualShapes(a: Query, b: Query)
    ensures QEq(a, b) ==> ShapeOf(a) == ShapeOf(b)
  {
  }

  /** Merging is associative, in result and in definedness. */
  lemma {:induction false} AddAssociates(a: Query, b: Query, c: Query)
    requires Valid(a) && Valid(b) && Valid(c)
    ensures MergeEq(Then(Add(a, b), c), After(a, Add(b, c)))
    decreases QDepth(a), 0, 1
  {
    hide Add, QEq, SameKind, Valid, MergeEq, Then, After;
    if ShapeOf(a) == ShapeOf(b) == ShapeOf(c) != Plain {
      DictsAssociate(a, b, c);
    } else if ShapeOf(a) == ShapeOf(b) == ShapeOf(c) {
      PlainsAssociate(a, b, c);
    } else {
      MixedAssociate(a, b, c);
    }
  }

  lemma {:induction false} DictsAssociate(a: Query, b: Query, c: Query)
    requires Valid(a) && Valid(b) && Valid(c) && ShapeOf(a) == ShapeOf(b) == ShapeOf(c) != Plain
    ensures MergeEq(Then(Add(a, b), c), After(a, Add(b, c)))
    decreases QDepth(a), 0, 0
  {
    hide QEq, SameKind, MergeEq;
    var fs, gs, hs := a.criteria, b.criteria, c.criteria;
    AddFieldsAssociates(fs, gs, hs);
    LiftSum(ThenFields(AddFields(fs, gs), hs), AfterFields(fs, AddFields(gs, hs)));
  }

  lemma PlainsAssociate(a: Query, b: Query, c: Query)
    requires Valid(a) && Valid(b) && Valid(c) && ShapeOf(a) == ShapeOf(b) == ShapeOf(c) == Plain
    ensures MergeEq(Then(Add(a, b), c), After(a, Add(b, c)))
  {
    hide Add, QEq, SameKind, Valid;
    AddPlain(a, b);
    AddPlain(b, c);
    AddPlain(a, c);
    PlainAssociates(a, b, c);
  }

  lemma MixedAssociate(a: Query, b: Query, c: Query)
    requires !(ShapeOf(a) == ShapeOf(b) == ShapeOf(c))
    ensures MergeEq(Then(Add(a, b), c), After(a, Add(b, c)))
  {
    hide Add, QEq, SameKind;
    AddKeepsShape(a, b);
    AddKeepsShape(b, c);
    if Add(a, b).Merged? { AddKeepsShape(Add(a, b).result, c); }
    if Add(b, c).Merged? { AddKeepsShape(a, Add(b, c).result); }
  }

  lemma PlainAssociates(a: Query, b: Query, c: Query)
    requires Valid(a) && Valid(b) && Valid(c)
    ensures QEq(a, b) ==> (QEq(b, c) <==> QEq(a, c))
    ensures QEq(a, b) ==> QEq(a, a)
  {
    hide QEq;
    QRefl(a);
    if QEq(a, b) {
      QSym(a, b);
      if QEq(b, c) { QTrans(a, b, c); }
      if QEq(a, c) { QTrans(b, a, c); }
    }
  }

  lemma {:induction false} AddFieldsAssociates(fs: QFields, gs: QFields, hs: QFields)
    requires ValidFields(fs) && ValidFields(gs) && ValidFields(hs)
    ensures SumEq(ThenFields(AddFields(fs, gs), hs), AfterFields(fs, AddFields(gs, hs)))
    decreases QFieldsDepth(fs), 2, 0
  {
    AddFieldsIsSum(fs, gs);
    AddFieldsIsSum(gs, hs);
    var x, y := AddFields(fs, gs), AddFields(gs, hs);
    if x.Merged? { AddFieldsIsSum(x.result, hs); }
    if y.Merged? { AddFieldsIsSum(fs, y.result); }
    forall f ensures SlotEq(Plus(Plus(SlotOf(fs, f), SlotOf(gs, f)), SlotOf(hs, f)),
                            Plus(SlotOf(fs, f), Plus(SlotOf(gs, f), SlotOf(hs, f)))) {
      PlusAssociates(fs, gs, hs, f);
    }
    ThreeSums(fs, gs, hs);
  }

  lemma {:induction false} PlusAssociates(fs: QFields, gs: QFields, hs: QFields, f: string)
    requires ValidFields(fs) && ValidFields(gs) && ValidFields(hs)
    ensures SlotEq(Plus(Plus(SlotOf(fs, f), SlotOf(gs, f)), SlotOf(hs, f)),
                   Plus(SlotOf(fs, f), Plus(SlotOf(gs, f), SlotOf(hs, f))))
    decreases QFieldsDepth(fs), 1, 0
  {
    SlotFacts(fs, f);
    SlotFacts(gs, f);
    SlotFacts(hs, f);
    if HasField(fs, f) && HasField(gs, f) && HasField(hs, f) {
      AddAssociates(FieldOp(fs, f), FieldOp(gs, f), FieldOp(hs, f));
    }
  }

  // Slot by slot agreement of two nestings of three dicts is agreement of the sums.
  lemma ThreeSums(fs: QFields, gs: QFields, hs: QFields)
    requires ValidFields(fs) && ValidFields(gs) && ValidFields(hs)
    requires forall f :: SlotEq(Plus(Plus(SlotOf(fs, f), SlotOf(gs, f)), SlotOf(hs, f)),
                                Plus(SlotOf(fs, f), Plus(SlotOf(gs, f), SlotOf(hs, f))))
    ensures SumEq(ThenFields(AddFields(fs, gs), hs), AfterFields(fs, AddFields(gs, hs)))
  {
    hide Plus, SlotOf, AddFields, ThenFields, AfterFields;
    var left, right := ThenFields(AddFields(fs, gs), hs), AfterFields(fs, AddFields(gs, hs));
    LeftSum(fs, gs, hs);
    RightSum(fs, gs, hs);
    if left.Merged? && right.Merged? {
      SlotsDecide(left.result, right.result);
    }
  }

  lemma LeftSum(fs: QFields, gs: QFields, hs: QFields)
    requires ValidFields(fs) && ValidFields(gs) && ValidFields(hs)
    ensures
      var sum := ThenFields(AddFields(fs, gs), hs);
      && (sum.Merged? <==> forall f :: Plus(Plus(SlotOf(fs, f), SlotOf(gs, f)), SlotOf(hs, f)) != Broken)
      && (sum.Merged? ==> ValidFields(sum.result))
      && (sum.Merged? ==> forall f :: SlotOf(sum.result, f) == Plus(Plus(SlotOf(fs, f), SlotOf(gs, f)), SlotOf(hs, f)))
  {
    hide Plus, SlotOf;
    AddFieldsIsSum(fs, gs);
    if AddFields(fs, gs).Merged? {
      AddFieldsIsSum(AddFields(fs, gs).result, hs);
    } else {
      var f :| Plus(SlotOf(fs, f), SlotOf(gs, f)) == Broken;
      BrokenStays(SlotOf(hs, f));
    }
  }

  lemma RightSum(fs: QFields, gs: QFields, hs: QFields)
    requires ValidFields(fs) && ValidFields(gs) && ValidFields(hs)
    ensures
      var sum := AfterFields(fs, AddFields(gs, hs));
      && (sum.Merged? <==> forall f :: Plus(SlotOf(fs, f), Plus(SlotOf(gs, f), SlotOf(hs, f))) != Broken)
      && (sum.Merged? ==> ValidFields(sum.result))
      && (sum.Merged? ==> forall f :: SlotOf(sum.result, f) == Plus(SlotOf(fs, f), Plus(SlotOf(gs, f), SlotOf(hs, f))))
  {
    hide Plus, SlotOf;
    AddFieldsIsSum(gs, hs);
    if AddFields(gs, hs).Merged? {
      AddFieldsIsSum(fs, AddFields(gs, hs).result);
    } else {
      var f :| Plus(SlotOf(gs, f), SlotOf(hs, f)) == Broken;
      BrokenStays(SlotOf(fs, f));
    }
  }

  lemma BrokenStays(x: Slot)
    ensures Plus(Broken, x) == Broken && Plus(x, Broken) == Broken
  {
  }
}
