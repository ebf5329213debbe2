/**
 A worker's scan while other workers lock, process and release rows: what the growing offset can
 pass over and what it cannot.
 */
module InboxScans {

  import opened Options
  import opened Digraphs
  import opened InboxProtocol
  import opened InboxTheorems

  // ---- One scan within a run ----

  /** Since event `b` worker `id` has begun a scan and done nothing but fetch and check, up to state `e`. */
  ghost predicate InScan(es: seq<Event>, id: nat, b: nat, e: nat) {
    && b < e <= |es| && es[b] == Begin(id)
    && forall i :: b < i < e && Moves(es[i], id) ==> es[i].Fetch? || es[i].Check?
  }

  /** Every fetch of the scan could have returned the row: unprocessed, in the partition, locked by nobody else. */
  ghost predicate Offered(cfg: Config, ss: seq<State>, es: seq<Event>, id: nat, b: nat, e: nat, x: Key)
    requires |ss| == |es| + 1 && e <= |es|
  {
    forall i :: b < i < e && es[i].Fetch? && es[i].id == id ==> Free(cfg, ss[i], id, x)
  }

  /** The worker looks at the row and finds a dependency that is not processed. */
  predicate Rejects(s: State, id: nat, x: Key) {
    var w := WorkerOf(s, id);
    && w.Checking? && w.key == x && x in s.rows && w.checked < |s.rows[x].msg.deps|
    && !Processed(s, s.rows[x].msg.deps[w.checked])
  }

  /** The scan has fetched the row and found it not ready. */
  ghost predicate RuledOut(ss: seq<State>, es: seq<Event>, id: nat, b: nat, e: nat, x: Key)
    requires |ss| == |es| + 1 && e <= |es|
  {
    exists c :: b < c < e && es[c] == Check(id) && Rejects(ss[c], id, x)
  }

  lemma RejectedIsUnready(s: State, id: nat, x: Key)
    requires Rejects(s, id, x)
    ensures !Ready(s, x)
  {
    var n := WorkerOf(s, id).checked;
    assert !Processed(s, s.rows[x].msg.deps[n]);
  }

  // ---- Locked rows stay available ----

  /** Rows are locked only by workers of their partition. */
  ghost predicate LocksMine(cfg: Config, s: State) {
    forall w, k :: w in s.workers && k in LocksOf(s.workers[w]) ==> k in s.rows && cfg.mine(w, s.rows[k].msg)
  }

  lemma StepKeepsLocksMine(cfg: Config, s: State, e: Event, t: State)
    requires Step(cfg, s, e, t) && Extends(s, t) && LocksMine(cfg, s)
    ensures LocksMine(cfg, t)
  {
    forall w, k | w in t.workers && k in LocksOf(t.workers[w]) ensures k in t.rows && cfg.mine(w, t.rows[k].msg) {
      hide Step, LockedByOther;
      if Moves(e, w) {
        MoverLocks(cfg, s, e, t, w, k);
      } else {
        OthersStay(cfg, s, e, t, w);
      }
      assert k in s.rows && cfg.mine(w, s.rows[k].msg);
    }
  }

  lemma {:induction false} RunKeepsLocksMine(cfg: Config, ss: seq<State>, es: seq<Event>, i: nat)
    requires IsRun(cfg, ss, es) && Init(ss[0]) && i <= |es|
    ensures LocksMine(cfg, ss[i])
  {
    if i == 0 {
      hide IsRun, Step;
    } else {
      hide LocksMine, Inv, Extends, Step;
      RunKeepsLocksMine(cfg, ss, es, i - 1);
      InitInv(ss[0]);
      RunExtends(cfg, ss, es, i - 1, i);
      StepKeepsLocksMine(cfg, ss[i - 1], es[i - 1], ss[i]);
    }
  }

  /** What a worker has locked, no matter how long ago, it can still fetch. */
  lemma LockedIsAvailable(cfg: Config, s: State, id: nat)
    requires Inv(s) && LocksMine(cfg, s)
    ensures LocksOf(WorkerOf(s, id)) <= Available(cfg, s, id)
  {
    forall k | k in LocksOf(WorkerOf(s, id)) ensures Free(cfg, s, id, k) {
      assert WorkerOk(s, s.workers[id]);
      forall w | w in s.workers && w != id ensures k !in LocksOf(s.workers[w]) {
        assert LocksOf(s.workers[id]) !! LocksOf(s.workers[w]);
      }
    }
  }

  // ---- The offset never runs past a row that is offered ----

  /** The rows before `x` that the worker has locked. */
  function Passed(s: State, id: nat, x: Key): set<Key> {
    if x in s.rows then set j | j in LocksOf(WorkerOf(s, id)) && j in s.rows && s.rows[j].received < s.rows[x].received
    else {}
  }

  /**
   Either the row has been fetched, or at least as many rows before it are locked as the offset
   counts, so that the scan is still to come to it.
   */
  ghost predicate Ahead(s: State, id: nat, x: Key, ruledOut: bool) {
    var w := WorkerOf(s, id);
    && (w.Scanning? || w.Checking?)
    && (ruledOut || (w.Checking? && w.key == x) || |Passed(s, id, x)| >= w.offset + if w.Checking? then 1 else 0)
    && (w.Checking? && !ruledOut && w.key != x ==>
          w.key in s.rows && x in s.rows && s.rows[w.key].received < s.rows[x].received)
  }

  lemma BegunIsAhead(s: State, id: nat, x: Key)
    requires WorkerOf(s, id) == Scanning({}, 0)
    ensures Ahead(s, id, x, false)
  {
  }

  // Whatever others do, the worker's locks and what it has passed stay.
  lemma AheadStays(s: State, t: State, id: nat, x: Key, ruledOut: bool)
    requires Ahead(s, id, x, ruledOut) && Extends(s, t) && WorkerOf(t, id) == WorkerOf(s, id)
    ensures Ahead(t, id, x, ruledOut)
  {
    SubsetSize(Passed(s, id, x), Passed(t, id, x));
  }

  /** The offset of a row grows with the position at which it was received. */
  lemma OffsetsFollowArrival(s: State, among: set<Key>, j: Key, k: Key)
    requires RowsOk(s) && among <= s.rows.Keys && j in among && k in among
    requires s.rows[j].received < s.rows[k].received
    ensures |Earlier(s, among, j)| < |Earlier(s, among, k)|
  {
    assert Earlier(s, among, j) + {j} <= Earlier(s, among, k);
    SubsetSize(Earlier(s, among, j) + {j}, Earlier(s, among, k));
  }

  lemma OffsetIsBelowSize(s: State, among: set<Key>, k: Key)
    requires among <= s.rows.Keys && k in among
    ensures |Earlier(s, among, k)| < |among|
  {
    SubsetSize(Earlier(s, among, k) + {k}, among);
  }

  // A fetch that may return `x` returns it, or a row before it.
  lemma FetchedComesFirst(s: State, available: set<Key>, passed: set<Key>, k: Key, x: Key)
    requires RowsOk(s) && available <= s.rows.Keys && k in available && x in available && k != x
    requires passed <= Earlier(s, available, x) && |Earlier(s, available, k)| <= |passed|
    ensures s.rows[k].received < s.rows[x].received
  {
    SubsetSize(passed, Earlier(s, available, x));
    if s.rows[x].received < s.rows[k].received {
      OffsetsFollowArrival(s, available, x, k);
    }
  }

  lemma FetchKeepsAhead(cfg: Config, s: State, id: nat, k: Key, t: State, x: Key, ruledOut: bool)
    requires Inv(s) && LocksMine(cfg, s) && Fetches(cfg, s, id, k, t) && Free(cfg, s, id, x)
    requires Ahead(s, id, x, ruledOut)
    ensures Ahead(t, id, x, ruledOut)
  {
    if !ruledOut && k != x {
      var available := Available(cfg, s, id);
      LockedIsAvailable(cfg, s, id);
      FreeIsAvailable(cfg, s, id, x);
      assert RowsOk(s);
      assert Passed(s, id, x) <= Earlier(s, available, x);
      hide Inv, RowsOk, LocksMine, Free, Available, Passed, Earlier;
      FetchedComesFirst(s, available, Passed(s, id, x), k, x);
      PassedOneMore(s, t, id, available, k, x);
    }
  }

  lemma PassedOneMore(s: State, t: State, id: nat, available: set<Key>, k: Key, x: Key)
    requires t.rows == s.rows && available <= s.rows.Keys && k in s.rows && x in s.rows
    requires Earlier(s, available, k) + {k} <= LocksOf(WorkerOf(t, id))
    requires s.rows[k].received < s.rows[x].received
    ensures |Earlier(s, available, k)| + 1 <= |Passed(t, id, x)|
  {
    SubsetSize(Earlier(s, available, k) + {k}, Passed(t, id, x));
  }

  lemma FreeIsAvailable(cfg: Config, s: State, id: nat, x: Key)
    requires Free(cfg, s, id, x)
    ensures x in Available(cfg, s, id)
  {
  }

  lemma CheckKeepsAhead(s: State, id: nat, t: State, x: Key, ruledOut: bool)
    requires Checks(s, id, t) && Ahead(s, id, x, ruledOut)
    ensures Ahead(t, id, x, ruledOut || Rejects(s, id, x))
  {
    assert Passed(t, id, x) == Passed(s, id, x);
  }

  lemma {:induction false} ScanIsAhead(cfg: Config, ss: seq<State>, es: seq<Event>, id: nat, b: nat, e: nat, x: Key)
    requires IsRun(cfg, ss, es) && Init(ss[0]) && InScan(es, id, b, e) && Offered(cfg, ss, es, id, b, e, x)
    ensures Ahead(ss[e], id, x, RuledOut(ss, es, id, b, e, x))
    decreases e
  {
    hide Inv, Extends, LocksMine, Fetches, Checks, Free, Rejects, Ahead;
    InitInv(ss[0]);
    RunExtends(cfg, ss, es, e - 1, e);
    RunKeepsLocksMine(cfg, ss, es, e - 1);
    var s, t, now := ss[e - 1], ss[e], es[e - 1];
    assert Step(cfg, s, now, t);
    if e == b + 1 {
      BegunIsAhead(t, id, x);
    } else {
      ScanIsAhead(cfg, ss, es, id, b, e - 1, x);
      var before := RuledOut(ss, es, id, b, e - 1, x);
      if now.Fetch? && now.id == id {
        FetchKeepsAhead(cfg, s, id, now.key, t, x, before);
      } else if now.Check? && now.id == id {
        CheckKeepsAhead(s, id, t, x, before);
      } else {
        BystanderStays(cfg, s, now, t, id);
        AheadStays(s, t, id, x, before);
      }
      RuledOutGrows(ss, es, id, b, e, x);
    }
  }

  lemma RuledOutGrows(ss: seq<State>, es: seq<Event>, id: nat, b: nat, e: nat, x: Key)
    requires |ss| == |es| + 1 && b + 1 < e <= |es|
    ensures RuledOut(ss, es, id, b, e, x) <==>
      RuledOut(ss, es, id, b, e - 1, x) || (es[e - 1] == Check(id) && Rejects(ss[e - 1], id, x))
  {
    hide Rejects;
  }

  lemma BystanderStays(cfg: Config, s: State, e: Event, t: State, id: nat)
    requires Step(cfg, s, e, t) && !Moves(e, id)
    ensures WorkerOf(t, id) == WorkerOf(s, id)
  {
    hide Available, KeyPending;
  }

  // ---- What a scan cannot miss ----

  /**
   However the other workers interleave, a scan that ends with nothing has fetched every row that
   each of its fetches could have returned, and has found it not ready.
   */
  lemma EndedScanMissedNothing(cfg: Config, ss: seq<State>, es: seq<Event>, id: nat, b: nat, e: nat, x: Key)
    requires IsRun(cfg, ss, es) && Init(ss[0]) && InScan(es, id, b, e)
    requires e < |es| && es[e] == FetchNone(id)
    requires Offered(cfg, ss, es, id, b, e, x) && Free(cfg, ss[e], id, x)
    ensures RuledOut(ss, es, id, b, e, x)
  {
    ScanIsAhead(cfg, ss, es, id, b, e, x);
    RunKeepsLocksMine(cfg, ss, es, e);
    InitInv(ss[0]);
    RunExtends(cfg, ss, es, e, e);
    var s := ss[e];
    assert Step(cfg, s, es[e], ss[e + 1]);
    LockedIsAvailable(cfg, s, id);
    FreeIsAvailable(cfg, s, id, x);
    hide Inv, Free, LocksMine, IsRun, RuledOut, Offered;
    SubsetSize(Passed(s, id, x) + {x}, Available(cfg, s, id));
  }

  /**
   And a scan that settles on a message takes a ready one; every row received before it that each of
   its fetches could have returned, it has fetched and found not ready.
   */
  lemma SettlesOnTheEarliest(cfg: Config, ss: seq<State>, es: seq<Event>, id: nat, b: nat, e: nat, pos: nat, x: Key)
    requires IsRun(cfg, ss, es) && Init(ss[0]) && InScan(es, id, b, e)
    requires e < |es| && es[e] == Mark(id, pos)
    ensures WorkerOf(ss[e], id).Checking?
    ensures var k := WorkerOf(ss[e], id).key;
      && Ready(ss[e], k)
      && (x in ss[e].rows && ss[e].rows[x].received < ss[e].rows[k].received && Offered(cfg, ss, es, id, b, e, x) ==>
            RuledOut(ss, es, id, b, e, x))
  {
    InitInv(ss[0]);
    RunExtends(cfg, ss, es, e, e);
    assert Step(cfg, ss[e], es[e], ss[e + 1]);
    assert WorkerOk(ss[e], ss[e].workers[id]);
    if Offered(cfg, ss, es, id, b, e, x) {
      ScanIsAhead(cfg, ss, es, id, b, e, x);
    }
  }

  // ---- What a scan can miss ----

  // Worker 1 holds the ready row A at the first fetch of worker 0, and then gives it back.
  const A := Key("t", "s", "a", 0)
  const B := Key("t", "s", "b", 0)
  const ROW_A := Row(Message(A, "", "", []), 1, None)
  const ROW_B := Row(Message(B, "", "", [Key("t", "s", "absent", 0)]), 2, None)
  const ALL := Config((w, m) => true)

  const EVENTS := [Insert(0, ROW_A.msg, 1), CommitInsert(0), Insert(0, ROW_B.msg, 2), CommitInsert(0),
                   Begin(1), Fetch(1, A), Begin(0), Fetch(0, B), Check(0), Rollback(1),
                   Fetch(0, B), Check(0), FetchNone(0)]

  function At(workers: map<nat, Worker>): State {
    State(map[A := ROW_A, B := ROW_B], map[], 3, workers, [])
  }

  const HOLDS_A := Checking({A}, 0, A, 0)

  const STATES := [
    State(map[], map[], 0, map[], []),
    State(map[], map[0 := ROW_A], 2, map[], []),
    State(map[A := ROW_A], map[], 2, map[], []),
    State(map[A := ROW_A], map[0 := ROW_B], 3, map[], []),
    At(map[]),
    At(map[1 := Scanning({}, 0)]),
    At(map[1 := HOLDS_A]),
    At(map[1 := HOLDS_A, 0 := Scanning({}, 0)]),
    At(map[1 := HOLDS_A, 0 := Checking({B}, 0, B, 0)]),
    At(map[1 := HOLDS_A, 0 := Scanning({B}, 1)]),
    At(map[1 := Idle, 0 := Scanning({B}, 1)]),
    At(map[1 := Idle, 0 := Checking({A, B}, 1, B, 0)]),
    At(map[1 := Idle, 0 := Scanning({A, B}, 2)]),
    At(map[1 := Idle, 0 := Idle])
  ]

  lemma NobodyElse(id: nat, w: Worker, other: Worker)
    requires id <= 1 && LocksOf(other) == {}
    ensures Available(ALL, At(map[1 - id := other, id := w]), id) == {A, B}
  {
    var s := At(map[1 - id := other, id := w]);
    forall k ensures !LockedByOther(s, id, k) {}
  }

  lemma FirstSteps(i: nat)
    requires i < 5
    ensures Step(ALL, STATES[i], EVENTS[i], STATES[i + 1])
  {
    hide Available, Earlier, Fetches, Checks, Marks, Commits;
    if i == 1 {
      assert STATES[1].pending - {0} == map[];
    } else if i == 3 {
      assert STATES[3].pending - {0} == map[];
      assert map[A := ROW_A][B := ROW_B] == map[A := ROW_A, B := ROW_B];
    }
  }

  lemma WorkerOneFetches()
    ensures Fetches(ALL, STATES[5], 1, A, STATES[6])
  {
    var s := STATES[5];
    forall k ensures !LockedByOther(s, 1, k) {}
    assert Available(ALL, s, 1) == {A, B};
    assert Earlier(s, {A, B}, A) == {};
  }

  lemma WorkerZeroFetchesPastIt()
    ensures Fetches(ALL, STATES[7], 0, B, STATES[8])
  {
    var s := STATES[7];
    assert s.workers[1] == HOLDS_A && A in LocksOf(HOLDS_A);
    assert LockedByOther(s, 0, A) && !LockedByOther(s, 0, B);
    assert Available(ALL, s, 0) == {B};
    assert Earlier(s, {B}, B) == {};
  }

  lemma WorkerZeroFetchesAgain()
    ensures Fetches(ALL, STATES[10], 0, B, STATES[11])
  {
    NobodyElse(0, Scanning({B}, 1), Idle);
    var s := STATES[10];
    assert Available(ALL, s, 0) == {A, B};
    assert Earlier(s, {A, B}, B) == {A};
    assert {B} + {A} + {B} == {A, B};
  }

  lemma NothingIsLeft()
    ensures Step(ALL, STATES[12], EVENTS[12], STATES[13])
  {
    NobodyElse(0, Scanning({A, B}, 2), Idle);
  }

  lemma LockSteps(i: nat)
    requires i == 6 || i == 9
    ensures Step(ALL, STATES[i], EVENTS[i], STATES[i + 1])
  {
    hide Available, Earlier;
  }

  lemma CheckSteps(i: nat)
    requires i == 8 || i == 11
    ensures Step(ALL, STATES[i], EVENTS[i], STATES[i + 1])
  {
    hide Available, Earlier;
  }

  lemma FetchSteps(i: nat)
    requires i == 5 || i == 7 || i == 10
    ensures Step(ALL, STATES[i], EVENTS[i], STATES[i + 1])
  {
    hide Fetches;
    if i == 5 {
      WorkerOneFetches();
    } else if i == 7 {
      WorkerZeroFetchesPastIt();
    } else {
      WorkerZeroFetchesAgain();
    }
  }

  lemma MissingRun(i: nat)
    requires i < |EVENTS|
    ensures Step(ALL, STATES[i], EVENTS[i], STATES[i + 1])
  {
    hide Step;
    if i < 5 {
      FirstSteps(i);
    } else if i == 12 {
      NothingIsLeft();
    } else if i == 5 || i == 7 || i == 10 {
      FetchSteps(i);
    } else if i == 8 || i == 11 {
      CheckSteps(i);
    } else {
      LockSteps(i);
    }
  }

  /**
   The condition cannot be spared: a ready row that all fetches of a scan but one could have
   returned is missed when another worker holds it at that one and then rolls back.
   */
  lemma ReleasedRowIsMissed()
    ensures IsRun(ALL, STATES, EVENTS) && Init(STATES[0])
    ensures InScan(EVENTS, 0, 6, 12) && EVENTS[12] == FetchNone(0)
    ensures Ready(STATES[12], A) && Free(ALL, STATES[12], 0, A)
    ensures forall i :: 6 < i < 12 && EVENTS[i].Fetch? && EVENTS[i].id == 0 && i != 7 ==> Free(ALL, STATES[i], 0, A)
    ensures !RuledOut(STATES, EVENTS, 0, 6, 12, A)
  {
    forall i | 0 <= i < |EVENTS| ensures Step(ALL, STATES[i], EVENTS[i], STATES[i + 1]) {
      MissingRun(i);
    }
    NobodyElse(0, Scanning({A, B}, 2), Idle);
    NobodyElse(0, Scanning({B}, 1), Idle);
    assert A in Available(ALL, STATES[12], 0) && A in Available(ALL, STATES[10], 0);
  }
}
