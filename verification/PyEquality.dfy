/** Python's `==` on JSON values is an equivalence, and ordering comparisons respect it. */
module PyEquality {
  import opened Options
  import opened Json

  lemma {:induction false} Refl(a: Json)
    requires DistinctKeys(a)
    ensures PyEq(a, a)
    decreases a
  {
    match a
    case Arr(items) => ReflItems(items);
    case Obj(fields) => ReflFields(fields, fields);
    case _ =>
  }

  lemma {:induction false} ReflItems(xs: Items)
    requires DistinctInItems(xs)
    ensures PyEqItems(xs, xs)
    decreases xs
  {
    match xs
    case INil =>
    case ICons(x, rest) =>
      Refl(x);
      ReflItems(rest);
  }

  // `fs` is a part of `all`, entry by entry.
  lemma {:induction false} ReflFields(fs: Fields, all: Fields)
    requires DistinctInFields(fs)
    requires forall k :: Has(fs, k) ==> Get(all, k) == Get(fs, k)
    ensures PyEqFields(fs, all)
    decreases fs
  {
    match fs
    case FNil =>
    case FCons(k, v, rest) =>
      Refl(v);
      assert Has(fs, k);
      forall k' | Has(rest, k') ensures Get(all, k') == Get(rest, k') {
        assert Has(fs, k');
      }
      ReflFields(rest, all);
  }

  // ---- Dict equality, key by key ----

  /** Equality of dicts as Python documents it: the same keys, with equal values. */
  ghost predicate SameDict(fs: Fields, gs: Fields) {
    && (forall k :: Has(fs, k) <==> Has(gs, k))
    && (forall k :: Has(fs, k) && Has(gs, k) ==> PyEq(Get(fs, k).value, Get(gs, k).value))
  }

  lemma {:induction false} FieldsCovered(fs: Fields, gs: Fields)
    requires DistinctInFields(fs)
    ensures PyEqFields(fs, gs) <==>
      forall k :: Has(fs, k) ==> Has(gs, k) && PyEq(Get(fs, k).value, Get(gs, k).value)
  {
    match fs
    case FNil =>
    case FCons(k, v, rest) =>
      FieldsCovered(rest, gs);
      assert Has(fs, k) && Get(fs, k) == Some(v);
      forall k' | Has(rest, k') ensures Has(fs, k') && Get(fs, k') == Get(rest, k') {}
  }

  function KeySet(fs: Fields): set<string> {
    match fs
    case FNil => {}
    case FCons(k, _, rest) => {k} + KeySet(rest)
  }

  lemma {:induction false} KeySetMeaning(fs: Fields)
    ensures forall k :: k in KeySet(fs) <==> Has(fs, k)
    ensures DistinctInFields(fs) ==> |KeySet(fs)| == Size(fs)
  {
    match fs
    case FNil =>
    case FCons(k, _, rest) => KeySetMeaning(rest);
  }

  lemma SubsetOfSameSize<T>(a: set<T>, b: set<T>)
    requires a <= b && |a| == |b|
    ensures a == b
  {
    assert b == a + (b - a) && |b - a| == |b| - |a|;
  }

  // Comparing sizes and looking every key up is dict equality.
  lemma DictEquality(fs: Fields, gs: Fields)
    requires DistinctInFields(fs) && DistinctInFields(gs)
    ensures Size(fs) == Size(gs) && PyEqFields(fs, gs) <==> SameDict(fs, gs)
  {
    FieldsCovered(fs, gs);
    KeySetMeaning(fs);
    KeySetMeaning(gs);
    if Size(fs) == Size(gs) && PyEqFields(fs, gs) {
      assert KeySet(fs) <= KeySet(gs);
      SubsetOfSameSize(KeySet(fs), KeySet(gs));
      forall k ensures Has(fs, k) <==> Has(gs, k) {
        assert k in KeySet(fs) <==> k in KeySet(gs);
      }
    }
    if SameDict(fs, gs) {
      assert KeySet(fs) == KeySet(gs) by {
        forall k ensures k in KeySet(fs) <==> k in KeySet(gs) {}
      }
    }
  }

  // A value found in a dict is well formed and smaller.
  function Depth(j: Json): nat {
    match j
    case Arr(items) => 1 + ItemsDepth(items)
    case Obj(fields) => 1 + FieldsDepth(fields)
    case _ => 0
  }

  function ItemsDepth(xs: Items): nat {
    match xs
    case INil => 0
    case ICons(x, rest) => var d, e := Depth(x), ItemsDepth(rest); if d < e then e else d
  }

  function FieldsDepth(fs: Fields): nat {
    match fs
    case FNil => 0
    case FCons(_, v, rest) => var d, e := Depth(v), FieldsDepth(rest); if d < e then e else d
  }

  lemma {:induction false} GetFacts(fs: Fields, k: string)
    requires DistinctInFields(fs) && Has(fs, k)
    ensures DistinctKeys(Get(fs, k).value) && Depth(Get(fs, k).value) <= FieldsDepth(fs)
  {
    if fs.key != k {
      GetFacts(fs.rest, k);
    }
  }

  // ---- Symmetry and transitivity ----

  lemma {:induction false} Sym(a: Json, b: Json)
    requires DistinctKeys(a) && DistinctKeys(b) && PyEq(a, b)
    ensures PyEq(b, a)
    decreases Depth(a), 0, 0
  {
    match a
    case Arr(xs) => SymItems(xs, b.items);
    case Obj(fs) =>
      var gs := b.fields;
      DictEquality(fs, gs);
      DictEquality(gs, fs);
      forall k | Has(gs, k) ensures PyEq(Get(gs, k).value, Get(fs, k).value) {
        GetFacts(fs, k);
        GetFacts(gs, k);
        Sym(Get(fs, k).value, Get(gs, k).value);
      }
    case _ =>
  }

  lemma {:induction false} SymItems(xs: Items, ys: Items)
    requires DistinctInItems(xs) && DistinctInItems(ys) && PyEqItems(xs, ys)
    ensures PyEqItems(ys, xs)
    decreases ItemsDepth(xs), 1, Length(xs)
  {
    if xs.ICons? {
      Sym(xs.head, ys.head);
      SymItems(xs.tail, ys.tail);
    }
  }

  lemma {:induction false} Trans(a: Json, b: Json, c: Json)
    requires DistinctKeys(a) && DistinctKeys(b) && DistinctKeys(c) && PyEq(a, b) && PyEq(b, c)
    ensures PyEq(a, c)
    decreases Depth(a), 0, 0
  {
    match a
    case Arr(xs) => TransItems(xs, b.items, c.items);
    case Obj(fs) =>
      var gs, hs := b.fields, c.fields;
      DictEquality(fs, gs);
      DictEquality(gs, hs);
      DictEquality(fs, hs);
      forall k | Has(fs, k) && Has(hs, k) ensures PyEq(Get(fs, k).value, Get(hs, k).value) {
        assert Has(gs, k);
        GetFacts(fs, k);
        GetFacts(gs, k);
        GetFacts(hs, k);
        Trans(Get(fs, k).value, Get(gs, k).value, Get(hs, k).value);
      }
    case _ =>
  }

  lemma {:induction false} TransItems(xs: Items, ys: Items, zs: Items)
    requires DistinctInItems(xs) && DistinctInItems(ys) && DistinctInItems(zs)
    requires PyEqItems(xs, ys) && PyEqItems(ys, zs)
    ensures PyEqItems(xs, zs)
    decreases ItemsDepth(xs), 1, Length(xs)
  {
    if xs.ICons? {
      Trans(xs.head, ys.head, zs.head);
      TransItems(xs.tail, ys.tail, zs.tail);
    }
  }

  /** Equal operands are interchangeable in `==`. */
  lemma EqRespects(a: Json, b: Json, x: Json)
    requires DistinctKeys(a) && DistinctKeys(b) && DistinctKeys(x) && PyEq(a, b)
    ensures PyEq(x, a) <==> PyEq(x, b)
  {
    Sym(a, b);
    if PyEq(x, a) { Trans(x, a, b); }
    if PyEq(x, b) { Trans(x, b, a); }
  }

  // ---- Order ----

  lemma {:induction false} LessRespects(a: Json, b: Json, x: Json)
    requires DistinctKeys(a) && DistinctKeys(b) && DistinctKeys(x) && PyEq(a, b)
    ensures PyLess(x, a) == PyLess(x, b)
    ensures PyLess(a, x) == PyLess(b, x)
    decreases a
  {
    if a.Arr? && x.Arr? {
      LessItemsRespects(a.items, b.items, x.items);
    }
  }

  lemma {:induction false} LessItemsRespects(as': Items, bs: Items, xs: Items)
    requires DistinctInItems(as') && DistinctInItems(bs) && DistinctInItems(xs) && PyEqItems(as', bs)
    ensures PyLessItems(xs, as') == PyLessItems(xs, bs)
    ensures PyLessItems(as', xs) == PyLessItems(bs, xs)
    decreases as'
  {
    if as'.ICons? && xs.ICons? {
      var a, b, x := as'.head, bs.head, xs.head;
      LessRespects(a, b, x);
      LessItemsRespects(as'.tail, bs.tail, xs.tail);
      EqRespects(a, b, x);
      Sym(a, b);
      if PyEq(a, x) { Trans(b, a, x); }
      if PyEq(b, x) { Trans(a, b, x); }
    }
  }
}
