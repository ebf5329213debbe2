/** Maps to lists, as the change managers keep them, and pairs of such maps that mirror each other. */
module Multimaps {

  type Multimap<!V> = map<V, seq<V>>

  function Get<V>(m: Multimap<V>, k: V): seq<V> {
    if k in m then m[k] else []
  }

  /** How often `v` is listed under `k`. */
  function Mult<V(!new)>(m: Multimap<V>, k: V, v: V): nat {
    multiset(Get(m, k))[v]
  }

  ghost predicate NoEmptyEntry<V(!new)>(m: Multimap<V>) {
    forall k :: k in m ==> m[k] != []
  }

  /** The two maps list the same pairs, each as often as the other. */
  ghost predicate Mirrored<V(!new)>(m: Multimap<V>, r: Multimap<V>) {
    forall k, v :: Mult(m, k, v) == Mult(r, v, k)
  }

  /** `t` is `s` with `d` more listings of `v` under `k`. */
  ghost predicate Shifted<V(!new)>(s: Multimap<V>, t: Multimap<V>, k: V, v: V, d: int) {
    forall x, y :: Mult(t, x, y) == Mult(s, x, y) + (if x == k && y == v then d else 0)
  }

  ghost predicate SameListings<V(!new)>(s: Multimap<V>, t: Multimap<V>) {
    forall x, y :: Mult(s, x, y) == Mult(t, x, y)
  }

  lemma ShiftThenSame<V(!new)>(s: Multimap<V>, t: Multimap<V>, u: Multimap<V>, k: V, v: V, d: int)
    requires Shifted(s, t, k, v, d) && SameListings(t, u)
    ensures Shifted(s, u, k, v, d)
  {
  }

  lemma ShiftBoth<V(!new)>(m: Multimap<V>, r: Multimap<V>, m': Multimap<V>, r': Multimap<V>, k: V, v: V, d: int)
    requires Mirrored(m, r) && Shifted(m, m', k, v, d) && Shifted(r, r', v, k, d)
    ensures Mirrored(m', r')
  {
    forall x, y ensures Mult(m', x, y) == Mult(r', y, x) {
      assert Mult(m, x, y) == Mult(r, y, x);
    }
  }

  lemma AppendShifts<V(!new)>(m: Multimap<V>, k: V, v: V)
    ensures Shifted(m, m[k := Get(m, k) + [v]], k, v, 1)
    ensures NoEmptyEntry(m) ==> NoEmptyEntry(m[k := Get(m, k) + [v]])
  {
  }

  /** `q` without its element at `i`. */
  function Without<V>(q: seq<V>, i: nat): seq<V>
    requires i < |q|
  {
    q[..i] + q[i + 1..]
  }

  lemma WithoutCounts<V(!new)>(q: seq<V>, i: nat)
    requires i < |q|
    ensures multiset(Without(q, i)) == multiset(q) - multiset{q[i]}
  {
    assert q == q[..i] + [q[i]] + q[i + 1..];
  }

  lemma WithoutShifts<V(!new)>(m: Multimap<V>, k: V, i: nat)
    requires k in m && i < |m[k]|
    ensures Mult(m, k, m[k][i]) > 0 && Shifted(m, m[k := Without(m[k], i)], k, m[k][i], -1)
  {
    WithoutCounts(m[k], i);
    assert m[k][i] in multiset(m[k]);
  }

  lemma NotListed<V(!new)>(m: Multimap<V>, k: V, v: V)
    requires v !in Get(m, k)
    ensures Mult(m, k, v) == 0 && Shifted(m, m, k, v, 0)
  {
  }

  /** Delete the first listing of `v` under `k`, if there is one. */
  method RemoveFirst<V(!new, ==)>(m: Multimap<V>, k: V, v: V) returns (r: Multimap<V>)
    ensures Shifted(m, r, k, v, if Mult(m, k, v) > 0 then -1 else 0)
    ensures r.Keys == m.Keys && forall x :: x in m && x != k ==> r[x] == m[x]
  {
    hide Shifted, Mult;
    if k !in m {
      NotListed(m, k, v);
      return m;
    }
    var i := 0;
    while i < |m[k]|
      invariant 0 <= i <= |m[k]| && v !in m[k][..i]
    {
      if m[k][i] == v {
        r := m[k := Without(m[k], i)];
        WithoutShifts(m, k, i);
        return;
      }
      i := i + 1;
    }
    assert m[k][..i] == m[k];
    r := m;
    NotListed(m, k, v);
  }

  /** Delete the entry of `k` when nothing is listed there any more. */
  method DropEmpty<V(!new, ==)>(m: Multimap<V>, k: V) returns (r: Multimap<V>)
    requires forall x :: x in m && x != k ==> m[x] != []
    ensures NoEmptyEntry(r)
    ensures SameListings(m, r)
    ensures r.Keys <= m.Keys
  {
    if k in m && |m[k]| == 0 {
      r := map x | x in m && x != k :: m[x];
    } else {
      r := m;
    }
  }

  /** List the pair once more in both maps. */
  method AddPair<V(!new, ==)>(m: Multimap<V>, r: Multimap<V>, k: V, v: V) returns (m': Multimap<V>, r': Multimap<V>)
    requires Mirrored(m, r) && NoEmptyEntry(m) && NoEmptyEntry(r)
    ensures Mirrored(m', r') && NoEmptyEntry(m') && NoEmptyEntry(r')
    ensures Shifted(m, m', k, v, 1)
    ensures m' == m[k := Get(m, k) + [v]] && r' == r[v := Get(r, v) + [k]]
  {
    hide Mirrored, Shifted, NoEmptyEntry;
    AppendShifts(m, k, v);
    AppendShifts(r, v, k);
    m' := m[k := Get(m, k) + [v]];
    r' := r[v := Get(r, v) + [k]];
    ShiftBoth(m, r, m', r', k, v, 1);
  }

  /** Take one listing of the pair out of both maps, and the entries that this empties. */
  method RemovePair<V(!new, ==)>(m: Multimap<V>, r: Multimap<V>, k: V, v: V) returns (m': Multimap<V>, r': Multimap<V>)
    requires Mirrored(m, r) && NoEmptyEntry(m) && NoEmptyEntry(r)
    ensures Mirrored(m', r') && NoEmptyEntry(m') && NoEmptyEntry(r') && m'.Keys <= m.Keys
    ensures Shifted(m, m', k, v, if Mult(m, k, v) > 0 then -1 else 0)
  {
    assert Mult(m, k, v) == Mult(r, v, k);
    ghost var change := if Mult(m, k, v) > 0 then -1 else 0;
    hide Mirrored, Shifted, SameListings, Mult;
    var less := RemoveFirst(m, k, v);
    var rless := RemoveFirst(r, v, k);
    m' := DropEmpty(less, k);
    r' := DropEmpty(rless, v);
    ShiftThenSame(m, less, m', k, v, change);
    ShiftThenSame(r, rless, r', v, k, change);
    ShiftBoth(m, r, m', r', k, v, change);
  }

  /** `r` no longer lists `k` anywhere, and is otherwise as it was. */
  ghost predicate Detached<V(!new)>(m: Multimap<V>, r: Multimap<V>, k: V) {
    forall x, y :: Mult(r, x, y) == if x == k then 0 else Mult(m, x, y)
  }

  /** Take every listing under `k` out of both maps. */
  method RemoveKey<V(!new, ==)>(m: Multimap<V>, r: Multimap<V>, k: V) returns (m': Multimap<V>, r': Multimap<V>)
    requires Mirrored(m, r) && NoEmptyEntry(m) && NoEmptyEntry(r)
    ensures Mirrored(m', r') && NoEmptyEntry(m') && NoEmptyEntry(r') && m'.Keys <= m.Keys
    ensures Detached(m, m', k)
  {
    var values := Get(m, k);
    r' := r;
    for i := 0 to |values|
      invariant NoEmptyEntry(r')
      invariant forall x, y :: Mult(r', y, x) == if x == k then multiset(values[i..])[y] else Mult(m, x, y)
    {
      assert multiset(values[i..]) == multiset{values[i]} + multiset(values[i + 1..]) by {
        assert values[i..] == [values[i]] + values[i + 1..];
      }
      var less := RemoveFirst(r', values[i], k);
      r' := DropEmpty(less, values[i]);
    }
    m' := map x | x in m && x != k :: m[x];
  }
}
