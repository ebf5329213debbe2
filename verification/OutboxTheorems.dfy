/** What the outbox protocol guarantees in every reachable state. */
module OutboxTheorems {
  import opened OutboxProtocol

  // ---- Whole runs ----

  /** The states `ss` follow one another by the events `es`. */
  ghost predicate IsRun(cfg: Config, ss: seq<State>, es: seq<Event>) {
    |ss| == |es| + 1 && forall i :: 0 <= i < |es| ==> Step(cfg, ss[i], es[i], ss[i + 1])
  }

  lemma {:induction false} RunKeepsInv(cfg: Config, ss: seq<State>, es: seq<Event>)
    requires IsRun(cfg, ss, es) && Inv(cfg, ss[0])
    ensures Inv(cfg, ss[|es|])
    decreases |es|
  {
    if es != [] {
      var n := |es| - 1;
      RunKeepsInv(cfg, ss[..n + 1], es[..n]);
      StepKeepsInv(cfg, ss[n], es[n], ss[n + 1]);
    }
  }

  /**
   No message is passed over, in any reachable state: a committed row a group wants and whose key
   is not above the group's offset has been delivered, and whatever may still be published or
   committed will come after the offset.
   */
  lemma NoMessagePassedOver(cfg: Config, ss: seq<State>, es: seq<Event>, g: Group)
    requires IsRun(cfg, ss, es) && Init(ss[0]) && g in ss[|es|].offsets
    ensures var s := ss[|es|];
      && (forall r: Row :: CommittedRow(s, r) && cfg.matches(g, r.msg) && !After(r, s.offsets[g]) ==>
            r in Log(s.delivered, g))
      && (forall r: Row :: InProgress(s, r.xid) || r.xid >= s.nextXid ==> After(r, s.offsets[g]))
  {
    InitInv(cfg, ss[0]);
    RunKeepsInv(cfg, ss, es);
  }

  /**
   The acknowledged batches of a group, end to end, are exactly the committed rows it wants up to
   its offset, by (transaction_id, position), each once.
   */
  lemma AcknowledgedExactly(cfg: Config, ss: seq<State>, es: seq<Event>, g: Group)
    requires IsRun(cfg, ss, es) && Init(ss[0]) && g in ss[|es|].offsets
    ensures var s := ss[|es|];
      && (forall i, j :: 0 <= i < j < |Log(s.acked, g)| ==> RowLess(Log(s.acked, g)[i], Log(s.acked, g)[j]))
      && (forall r: Row :: r in Log(s.acked, g) <==>
            CommittedRow(s, r) && cfg.matches(g, r.msg) && !After(r, s.offsets[g]))
  {
    InitInv(cfg, ss[0]);
    RunKeepsInv(cfg, ss, es);
  }

  // ---- Replay after a crash ----

  /** Two sorted batches where what one lacks comes after its last. */
  ghost predicate SameStart(a: seq<Row>, b: seq<Row>) {
    && Sorted(a) && Sorted(b) && a != [] && b != []
    && (forall r :: r in a && r !in b ==> RowLess(b[|b| - 1], r))
    && (forall r :: r in b && r !in a ==> RowLess(a[|a| - 1], r))
    && (forall r, q :: r in a && q in b && r.pos == q.pos ==> r == q)
  }

  lemma EarlierAreLess(a: seq<Row>, b: seq<Row>, k: nat)
    requires Sorted(b) && k <= |a| && k < |b| && a[..k] == b[..k]
    ensures forall m :: 0 <= m < k ==> RowLess(a[m], b[k])
  {
    forall m | 0 <= m < k ensures RowLess(a[m], b[k]) {
      assert a[m] == a[..k][m] == b[..k][m] == b[m];
    }
  }

  lemma NotAhead(a: seq<Row>, b: seq<Row>, k: nat)
    requires SameStart(a, b) && k < |a| && k < |b| && a[..k] == b[..k]
    ensures !RowLess(b[k], a[k])
  {
    EarlierAreLess(a, b, k);
    if b[k] in a {
      var m :| 0 <= m < |a| && a[m] == b[k];
    }
  }

  lemma {:induction false} OneIsAPrefix(a: seq<Row>, b: seq<Row>, k: nat)
    requires SameStart(a, b) && k <= |a| && k <= |b|
    ensures a[..k] == b[..k]
  {
    if k > 0 {
      OneIsAPrefix(a, b, k - 1);
      NotAhead(a, b, k - 1);
      NotAhead(b, a, k - 1);
      assert a[k - 1] in a && b[k - 1] in b;
      assert a[..k] == a[..k - 1] + [a[k - 1]] && b[..k] == b[..k - 1] + [b[k - 1]];
    }
  }

  lemma ExtendsTransitive(s: State, t: State, u: State)
    requires Extends(s, t) && Extends(t, u)
    ensures Extends(s, u)
  {
  }

  lemma ExtendsItself(s: State)
    ensures Extends(s, s)
  {
  }

  lemma {:induction false} RunExtends(cfg: Config, ss: seq<State>, es: seq<Event>, i: nat, j: nat)
    requires IsRun(cfg, ss, es) && Inv(cfg, ss[0]) && i <= j <= |es|
    ensures Inv(cfg, ss[i]) && Inv(cfg, ss[j]) && Extends(ss[i], ss[j])
    decreases j
  {
    hide Inv, Step, Extends;
    if j == 0 {
      ExtendsItself(ss[0]);
    } else {
      RunExtends(cfg, ss, es, if i < j then i else j - 1, j - 1);
      StepKeepsInv(cfg, ss[j - 1], es[j - 1], ss[j]);
      if i < j {
        ExtendsTransitive(ss[i], ss[j - 1], ss[j]);
      } else {
        ExtendsItself(ss[j]);
      }
    }
  }

  lemma BatchInHand(cfg: Config, s: State, id: nat)
    requires Inv(cfg, s) && id in s.dispatchers && IsHolder(s.dispatchers[id])
    ensures NextUp(cfg, s, s.dispatchers[id].group, s.dispatchers[id].xmin, s.dispatchers[id].batch)
  {
    assert DispatcherOk(cfg, s, s.dispatchers[id]);
  }

  lemma NextUpsStartAlike(cfg: Config, s: State, g: Group, m: nat, n: nat, a: seq<Row>, b: seq<Row>)
    requires TablesOk(s) && NextUp(cfg, s, g, m, a) && NextUp(cfg, s, g, n, b)
    ensures a <= b || b <= a
  {
    assert SameStart(a, b);
    OneIsAPrefix(a, b, if |a| <= |b| then |a| else |b|);
  }

  /**
   As long as the offset has not moved, whatever crashed or committed in between, a later fetch
   hands out the same rows in the same order: one batch is an initial piece of the other.
   */
  lemma ReplayFromTheSameOffset(cfg: Config, ss: seq<State>, es: seq<Event>, i: nat, j: nat, c: nat, d: nat, g: Group)
    requires IsRun(cfg, ss, es) && Init(ss[0]) && i <= j <= |es|
    requires c in ss[i].dispatchers && IsHolder(ss[i].dispatchers[c]) && ss[i].dispatchers[c].group == g
    requires d in ss[j].dispatchers && IsHolder(ss[j].dispatchers[d]) && ss[j].dispatchers[d].group == g
    requires g in ss[i].offsets && g in ss[j].offsets && ss[i].offsets[g] == ss[j].offsets[g]
    ensures var earlier, later := ss[i].dispatchers[c].batch, ss[j].dispatchers[d].batch;
      earlier <= later || later <= earlier
  {
    InitInv(cfg, ss[0]);
    RunExtends(cfg, ss, es, i, j);
    var x, y := ss[i].dispatchers[c], ss[j].dispatchers[d];
    BatchInHand(cfg, ss[i], c);
    BatchInHand(cfg, ss[j], d);
    hide NextUp, Extends, TablesOk, OneHolder, DispatchersOk, GroupsOk, Step;
    NextUpStays(cfg, ss[i], ss[j], g, x.xmin, x.batch);
    NextUpsStartAlike(cfg, ss[j], g, x.xmin, y.xmin, x.batch, y.batch);
  }

  // ---- What a fetch finds ----

  lemma NothingLeft(cfg: Config, s: State, g: Group, xmin: nat, seen: set<Row>)
    requires g in s.offsets && GroupOk(cfg, s, g) && SnapshotOk(s, xmin, seen)
    requires cfg.limit > 0 && IsBatch(cfg, g, s.offsets[g], xmin, seen, [])
    ensures forall r: Row :: CommittedRow(s, r) && cfg.matches(g, r.msg) && r.xid < xmin ==> r in Log(s.acked, g)
  {
  }

  /** A fetch that comes back empty means the group has had every settled row it wants. */
  lemma EmptyFetchMeansCaughtUp(cfg: Config, s: State, id: nat, t: State)
    requires Inv(cfg, s) && cfg.limit > 0 && Step(cfg, s, Fetch(id, []), t)
    ensures var d := s.dispatchers[id];
      forall r: Row :: CommittedRow(s, r) && cfg.matches(d.group, r.msg) && r.xid < d.xmin ==>
        r in Log(s.acked, d.group)
  {
    var d := s.dispatchers[id];
    assert DispatcherOk(cfg, s, d);
    NothingLeft(cfg, s, d.group, d.xmin, d.seen);
  }

  lemma {:induction false} LeastRow(rows: set<Row>) returns (least: Row)
    requires rows != {}
    requires forall r, q :: r in rows && q in rows && r.pos == q.pos ==> r == q
    ensures least in rows && forall r :: r in rows && r != least ==> RowLess(least, r)
    decreases |rows|
  {
    var r :| r in rows;
    if rows == {r} {
      least := r;
    } else {
      var rest := rows - {r};
      assert rows == rest + {r};
      var q := LeastRow(rest);
      assert q in rows && q.pos != r.pos;
      assert forall x :: x in rows ==> x == r || x in rest;
      least := if RowLess(r, q) then r else q;
    }
  }

  /** The statement that fetches always has exactly one answer to give: this is one. */
  lemma {:induction false} SomeBatch(cfg: Config, g: Group, o: Offset, xmin: nat, seen: set<Row>) returns (batch: seq<Row>)
    requires forall r, q :: r in seen && q in seen && r.pos == q.pos ==> r == q
    ensures IsBatch(cfg, g, o, xmin, seen, batch)
    decreases cfg.limit
  {
    if cfg.limit == 0 {
      batch := [];
    } else {
      var fewer := cfg.(limit := cfg.limit - 1);
      batch := SomeBatch(fewer, g, o, xmin, seen);
      var rest := set r | r in seen && Wanted(cfg, g, o, xmin, r) && r !in batch;
      assert forall r :: r in seen && Wanted(cfg, g, o, xmin, r) && r !in batch ==> r in rest;
      if rest != {} {
        assert forall r :: Wanted(cfg, g, o, xmin, r) == Wanted(fewer, g, o, xmin, r);
        var least := LeastRow(rest);
        SortedJoin(batch, [least]);
        var more := batch + [least];
        assert forall r :: r in seen && Wanted(cfg, g, o, xmin, r) && r !in more ==> r in rest;
        batch := more;
      }
    }
  }

  /** And there is no other. */
  lemma BatchIsUnique(cfg: Config, g: Group, o: Offset, xmin: nat, seen: set<Row>, a: seq<Row>, b: seq<Row>)
    requires forall r, q :: r in seen && q in seen && r.pos == q.pos ==> r == q
    requires IsBatch(cfg, g, o, xmin, seen, a) && IsBatch(cfg, g, o, xmin, seen, b)
    ensures a == b
  {
    if a != [] && b != [] {
      assert a[|a| - 1] in a && b[|b| - 1] in b;
      assert SameStart(a, b);
      OneIsAPrefix(a, b, if |a| <= |b| then |a| else |b|);
    }
    if a <= b {
      NoLonger(cfg, g, o, xmin, seen, b, a);
    } else {
      NoLonger(cfg, g, o, xmin, seen, a, b);
    }
  }

  lemma BeyondIsNew(a: seq<Row>, b: seq<Row>)
    requires Sorted(a) && b <= a
    ensures forall i :: |b| <= i < |a| ==> a[i] !in b
  {
  }

  lemma StopsOnlyAtTheLimit(cfg: Config, g: Group, o: Offset, xmin: nat, seen: set<Row>, a: seq<Row>, b: seq<Row>)
    requires Sorted(a) && b <= a && |b| < |a| && IsBatch(cfg, g, o, xmin, seen, b)
    requires forall r :: r in a ==> r in seen && Wanted(cfg, g, o, xmin, r)
    ensures |b| == cfg.limit
  {
    BeyondIsNew(a, b);
    assert a[|b|] in a;
  }

  lemma NoLonger(cfg: Config, g: Group, o: Offset, xmin: nat, seen: set<Row>, a: seq<Row>, b: seq<Row>)
    requires IsBatch(cfg, g, o, xmin, seen, a) && IsBatch(cfg, g, o, xmin, seen, b)
    requires b <= a
    ensures |a| <= |b|
  {
    if |b| < |a| {
      StopsOnlyAtTheLimit(cfg, g, o, xmin, seen, a, b);
    }
  }
}
