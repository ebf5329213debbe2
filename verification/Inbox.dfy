/**
 The inbox itself: each method performs its statements one after another on the database, so the
 whole life of the object is one run of the protocol.
 */
module Inboxes {

  import opened Options
  import opened Digraphs
  import opened InboxProtocol
  import opened InboxTheorems
  import opened InboxScans

  // ---- Rows in the order they were received ----

  lemma {:induction false} LastReceived(s: State, among: set<Key>) returns (last: Key)
    requires RowsOk(s) && among <= s.rows.Keys && among != {}
    ensures last in among && Earlier(s, among, last) == among - {last}
    decreases |among|
  {
    var k :| k in among;
    var rest := among - {k};
    assert among == rest + {k};
    if rest == {} {
      last := k;
    } else {
      var j := LastReceived(s, rest);
      assert forall x :: x in rest && x != j ==> x in Earlier(s, rest, j);
      last := if s.rows[j].received < s.rows[k].received then k else j;
    }
  }

  /** Below the number of rows, every offset names a row. */
  lemma {:induction false} RowAtOffset(s: State, among: set<Key>, offset: nat) returns (k: Key)
    requires RowsOk(s) && among <= s.rows.Keys && offset < |among|
    ensures k in among && |Earlier(s, among, k)| == offset
    decreases |among|
  {
    k := LastReceived(s, among);
    var rest := among - {k};
    if offset < |among| - 1 {
      var last := k;
      k := RowAtOffset(s, rest, offset);
      assert k in Earlier(s, among, last);
      assert Earlier(s, among, k) == Earlier(s, rest, k);
    }
  }

  /** None of the rows at an offset below this one is ready. */
  ghost predicate NoneReadyBelow(s: State, among: set<Key>, offset: nat)
    requires among <= s.rows.Keys
  {
    forall k :: k in among && |Earlier(s, among, k)| < offset ==> !Ready(s, k)
  }

  lemma NextOffset(s: State, among: set<Key>, k: Key)
    requires RowsOk(s) && among <= s.rows.Keys && k in among && !Ready(s, k)
    requires NoneReadyBelow(s, among, |Earlier(s, among, k)|)
    ensures NoneReadyBelow(s, among, |Earlier(s, among, k)| + 1)
  {
    forall j | j in among && |Earlier(s, among, j)| <= |Earlier(s, among, k)| ensures !Ready(s, j) {
      if j != k {
        if s.rows[k].received < s.rows[j].received {
          OffsetsFollowArrival(s, among, k, j);
        } else {
          OffsetsFollowArrival(s, among, j, k);
        }
      }
    }
  }

  // The scan stops at the earliest row that is ready.
  lemma FoundIsEarliest(s: State, among: set<Key>, k: Key)
    requires RowsOk(s) && among <= s.rows.Keys && k in among
    requires NoneReadyBelow(s, among, |Earlier(s, among, k)|)
    ensures forall j :: j in Earlier(s, among, k) ==> !Ready(s, j)
  {
    forall j | j in Earlier(s, among, k) ensures !Ready(s, j) {
      OffsetsFollowArrival(s, among, j, k);
    }
  }

  lemma NoneReadyAtAll(s: State, among: set<Key>, offset: nat)
    requires among <= s.rows.Keys && |among| <= offset && NoneReadyBelow(s, among, offset)
    ensures forall k :: k in among ==> !Ready(s, k)
  {
    forall k | k in among ensures !Ready(s, k) {
      OffsetIsBelowSize(s, among, k);
    }
  }

  /** Between the two states only worker `id` has moved, and only its locks and its scan. */
  ghost predicate OnlyScanned(s: State, t: State, id: nat) {
    && t.rows == s.rows && t.pending == s.pending && t.log == s.log && t.next == s.next
    && forall w :: w != id ==> WorkerOf(t, w) == WorkerOf(s, w)
  }

  /** What a worker may lock does not depend on what it has locked itself. */
  lemma SameAvailable(cfg: Config, s: State, t: State, id: nat)
    requires OnlyScanned(s, t, id)
    ensures Available(cfg, t, id) == Available(cfg, s, id)
    ensures forall k :: Ready(s, k) == Ready(t, k)
  {
    forall k ensures LockedByOther(s, id, k) == LockedByOther(t, id, k) {
      if w :| w in s.workers && w != id && k in LocksOf(s.workers[w]) {
        assert WorkerOf(t, w) == WorkerOf(s, w);
      }
      if w :| w in t.workers && w != id && k in LocksOf(t.workers[w]) {
        assert WorkerOf(t, w) == WorkerOf(s, w);
      }
    }
    forall k ensures Ready(s, k) == Ready(t, k) {
      assert forall d :: Processed(s, d) == Processed(t, d);
    }
  }

  /** The ready row that was received first among those this worker may lock. */
  ghost predicate EarliestReady(cfg: Config, s: State, id: nat, k: Key) {
    && k in Available(cfg, s, id) && Ready(s, k)
    && forall j :: j in Available(cfg, s, id) && Ready(s, j) ==> s.rows[k].received <= s.rows[j].received
  }

  ghost predicate NoneReady(cfg: Config, s: State, id: nat) {
    forall j :: j in Available(cfg, s, id) ==> !Ready(s, j)
  }

  /** How a call to dispatch ends: nothing to do, one message processed, or the subscriber's exception. */
  datatype Outcome = NoMessage | Done(key: Key) | Raised

  class Inbox {
    const cfg: Config
    var db: State
    ghost var states: seq<State>
    ghost var events: seq<Event>

    ghost predicate Valid()
      reads this
    {
      IsRun(cfg, states, events) && Init(states[0]) && states[|events|] == db
    }

    constructor (cfg: Config, next: nat)
      ensures Valid() && this.cfg == cfg && events == []
    {
      this.cfg := cfg;
      db := State(map[], map[], next, map[], []);
      states := [State(map[], map[], next, map[], [])];
      events := [];
    }

    lemma ValidMeansInv()
      requires Valid()
      ensures Inv(db)
    {
      Reachable(cfg, states, events);
    }

    method Perform(ghost e: Event, after: State)
      requires Valid() && Step(cfg, db, e, after)
      modifies this
      ensures Valid() && db == after && events == old(events) + [e]
    {
      db := after;
      states := states + [after];
      events := events + [e];
    }

    /**
     Insert the message and commit. A key that is already there keeps its first message; one that
     another open transaction is inserting makes the statement wait.
     */
    method Publish(tx: nat, message: Message) returns (done: bool)
      requires Valid() && tx !in db.pending
      modifies this
      ensures Valid() && db.pending == old(db.pending) && db.workers == old(db.workers) && db.log == old(db.log)
      ensures done <==> !KeyPending(old(db), message.key)
      ensures db.rows == if !done || message.key in old(db.rows) then old(db.rows)
                         else old(db.rows)[message.key := Row(message, old(db.next), None)]
    {
      if KeyPending(db, message.key) {
        return false;
      }
      done := true;
      var row := Row(message, db.next, None);
      if message.key in db.rows {
        Perform(Insert(tx, message, db.next), db.(next := db.next + 1));
      } else {
        ghost var before := db.pending;
        Perform(Insert(tx, message, db.next), db.(pending := db.pending[tx := row], next := db.next + 1));
        assert db.pending - {tx} == before;
        Perform(CommitInsert(tx), db.(rows := db.rows[message.key := row], pending := db.pending - {tx}));
      }
    }

    /** Read and lock the row at the worker's offset; without one the transaction ends. */
    method FetchUnprocessed(id: nat) returns (found: Option<Key>)
      requires Valid() && WorkerOf(db, id).Scanning?
      modifies this
      ensures Valid() && OnlyScanned(old(db), db, id)
      ensures found.None? ==> |Available(cfg, old(db), id)| <= old(WorkerOf(db, id)).offset && WorkerOf(db, id).Idle?
      ensures found.Some? ==>
        && found.value in Available(cfg, old(db), id)
        && |Earlier(old(db), Available(cfg, old(db), id), found.value)| == old(WorkerOf(db, id)).offset
        && WorkerOf(db, id).Checking? && WorkerOf(db, id).key == found.value
        && WorkerOf(db, id).checked == 0 && WorkerOf(db, id).offset == old(WorkerOf(db, id)).offset
    {
      ValidMeansInv();
      var w := WorkerOf(db, id);
      var available := Available(cfg, db, id);
      if w.offset < |available| {
        ghost var there := RowAtOffset(db, available, w.offset);
        var k :| k in available && |Earlier(db, available, k)| == w.offset;
        var locked := w.locked + Earlier(db, available, k) + {k};
        Perform(Fetch(id, k), db.(workers := db.workers[id := Checking(locked, w.offset, k, 0)]));
        found := Some(k);
      } else {
        Perform(FetchNone(id), db.(workers := db.workers[id := Idle]));
        found := None;
      }
    }

    /** Look the dependencies up one by one; the first that is not processed sends the worker on. */
    method AreDependenciesSatisfied(id: nat) returns (satisfied: bool)
      requires Valid() && WorkerOf(db, id).Checking? && WorkerOf(db, id).checked == 0
      requires WorkerOf(db, id).key in db.rows && db.rows[WorkerOf(db, id).key].processed.None?
      modifies this
      ensures Valid() && OnlyScanned(old(db), db, id)
      ensures satisfied == Ready(old(db), old(WorkerOf(db, id)).key)
      ensures satisfied ==>
        WorkerOf(db, id) == old(WorkerOf(db, id)).(checked := |db.rows[old(WorkerOf(db, id)).key].msg.deps|)
      ensures !satisfied ==> WorkerOf(db, id) == Scanning(old(WorkerOf(db, id)).locked, old(WorkerOf(db, id)).offset + 1)
    {
      hide Inbox.Valid;
      var w := WorkerOf(db, id);
      var dependencies := db.rows[w.key].msg.deps;
      var i := 0;
      while i < |dependencies|
        invariant 0 <= i <= |dependencies|
        invariant Valid() && OnlyScanned(old(db), db, id)
        invariant WorkerOf(db, id) == w.(checked := i)
        invariant DependenciesProcessed(old(db), w.key, i)
      {
        var processed := Processed(db, dependencies[i]);
        var now := if processed then w.(checked := i + 1) else Scanning(w.locked, w.offset + 1);
        Perform(Check(id), db.(workers := db.workers[id := now]));
        if !processed {
          return false;
        }
        i := i + 1;
      }
      satisfied := true;
    }

    /** Scan from the first row on; the answer is the ready message received first, or none is ready. */
    method FetchNextProcessable(id: nat) returns (found: Option<Key>)
      requires Valid() && WorkerOf(db, id) == Scanning({}, 0)
      modifies this
      ensures Valid() && OnlyScanned(old(db), db, id)
      ensures found.None? ==> NoneReady(cfg, old(db), id) && WorkerOf(db, id).Idle?
      ensures found.Some? ==>
        && EarliestReady(cfg, old(db), id, found.value)
        && WorkerOf(db, id).Checking? && WorkerOf(db, id).key == found.value
        && WorkerOf(db, id).checked == |db.rows[found.value].msg.deps|
    {
      hide Inbox.Valid;
      ghost var start := db;
      ghost var available := Available(cfg, db, id);
      ValidMeansInv();
      while true
        invariant Valid() && OnlyScanned(start, db, id)
        invariant WorkerOf(db, id).Scanning?
        invariant NoneReadyBelow(start, available, WorkerOf(db, id).offset)
        decreases |available| - WorkerOf(db, id).offset
      {
        SameAvailable(cfg, start, db, id);
        ghost var offset := WorkerOf(db, id).offset;
        found := FetchUnprocessed(id);
        if found.None? {
          NoneReadyAtAll(start, available, offset);
          return;
        }
        var satisfied := AreDependenciesSatisfied(id);
        if satisfied {
          FoundIsEarliest(start, available, found.value);
          return;
        }
        NextOffset(start, available, found.value);
        OffsetIsBelowSize(start, available, found.value);
      }
    }

    /** One round of dispatching; the subscriber raises unless `succeeds`. */
    method Dispatch(id: nat, succeeds: bool) returns (outcome: Outcome)
      requires Valid() && WorkerOf(db, id).Idle?
      modifies this
      ensures Valid() && WorkerOf(db, id).Idle? && db.pending == old(db.pending)
      ensures forall w :: w != id ==> WorkerOf(db, w) == old(WorkerOf(db, w))
      ensures outcome.NoMessage? <==> NoneReady(cfg, old(db), id)
      ensures !outcome.NoMessage? ==> outcome.Done? == succeeds
      ensures outcome.Done? ==>
        && EarliestReady(cfg, old(db), id, outcome.key)
        && db.rows == old(db.rows)[outcome.key := old(db.rows[outcome.key]).(processed := Some(old(db.next)))]
        && db.log == old(db.log) + [outcome.key]
      ensures !outcome.Done? ==> db.rows == old(db.rows) && db.log == old(db.log)
    {
      Perform(Begin(id), db.(workers := db.workers[id := Scanning({}, 0)]));
      SameAvailable(cfg, old(db), db, id);
      var found := FetchNextProcessable(id);
      if found.None? {
        return NoMessage;
      }
      var w := WorkerOf(db, id);
      if !succeeds {
        Perform(Rollback(id), db.(workers := db.workers[id := Idle]));
        return Raised;
      }
      Perform(Mark(id, db.next), db.(workers := db.workers[id := Marked(w.locked, w.key, db.next)], next := db.next + 1));
      Perform(CommitWork(id), db.(rows := db.rows[w.key := db.rows[w.key].(processed := Some(db.next - 1))],
                                  workers := db.workers[id := Idle], log := db.log + [w.key]));
      outcome := Done(w.key);
    }

    /** One worker alone: dispatch until there is nothing to do, and count the messages. */
    method RunUntilIdle(id: nat) returns (count: nat)
      requires Valid() && Alone(cfg, db, id)
      modifies this
      ensures Valid() && Alone(cfg, db, id) && old(db.log) <= db.log
      ensures SameQuestions(old(db), db)
      ensures count == |db.log| - |old(db.log)| && count == |Unprocessed(old(db))| - |Unprocessed(db)|
      ensures forall k :: k in db.rows ==> (k in Unprocessed(db) <==> Tangled(WaitGraph(old(db)), k))
    {
      count := 0;
      hide Inbox.Valid, WaitGraph, Tangled;
      while true
        invariant Valid() && Alone(cfg, db, id) && old(db.log) <= db.log && SameQuestions(old(db), db)
        invariant count == |db.log| - |old(db.log)| && count == |Unprocessed(old(db))| - |Unprocessed(db)|
        decreases |Unprocessed(db)|
      {
        ghost var before := db;
        var outcome := Dispatch(id, true);
        if outcome.NoMessage? {
          ValidMeansInv();
          WaitingIsSame(old(db), db);
          IdleMeansStuck(cfg, before, db, id);
          return;
        }
        OneLess(before, db, outcome.key);
        count := count + 1;
      }
    }
  }

  function Unprocessed(s: State): set<Key> {
    set k | k in s.rows && s.rows[k].processed.None?
  }

  /** One worker without a partition filter, and nobody else at work. */
  ghost predicate Alone(cfg: Config, s: State, id: nat) {
    (forall w :: WorkerOf(s, w).Idle?) && forall m :: cfg.mine(id, m)
  }

  /** The same messages with the same dependencies. */
  ghost predicate SameQuestions(s: State, t: State) {
    s.rows.Keys == t.rows.Keys && forall k :: k in s.rows ==> s.rows[k].msg == t.rows[k].msg
  }

  lemma AloneSeesAll(cfg: Config, s: State, id: nat)
    requires Alone(cfg, s, id)
    ensures forall k :: k in s.rows && Ready(s, k) ==> k in Available(cfg, s, id)
  {
    forall k ensures !LockedByOther(s, id, k) {
      assert forall w :: w in s.workers ==> WorkerOf(s, w) == s.workers[w];
    }
  }

  lemma IdleMeansStuck(cfg: Config, s: State, t: State, id: nat)
    requires Alone(cfg, s, id) && NoneReady(cfg, s, id) && t.rows == s.rows && LogOk(t)
    ensures forall k :: k in t.rows ==> (k in Unprocessed(t) <==> Tangled(WaitGraph(t), k))
  {
    hide Tangled, WaitGraph;
    AloneSeesAll(cfg, s, id);
    forall j | j in t.rows ensures !Ready(t, j) {
      assert Ready(t, j) ==> Ready(s, j) by {
        assert forall d :: Processed(s, d) == Processed(t, d);
      }
    }
    forall k | k in t.rows ensures k in Unprocessed(t) <==> Tangled(WaitGraph(t), k) {
      StuckIsTangled(t, k);
    }
  }

  lemma WaitingIsSame(s: State, t: State)
    requires SameQuestions(s, t)
    ensures WaitGraph(s) == WaitGraph(t)
  {
    assert Mentioned(s) == Mentioned(t);
    forall d ensures Waiting(s, d) == Waiting(t, d) {
    }
  }

  lemma OneLess(s: State, t: State, k: Key)
    requires k in s.rows && s.rows[k].processed.None? && t.rows.Keys == s.rows.Keys
    requires t.rows[k].processed.Some? && forall j :: j in s.rows && j != k ==> t.rows[j] == s.rows[j]
    ensures |Unprocessed(t)| == |Unprocessed(s)| - 1
  {
    assert Unprocessed(s) == Unprocessed(t) + {k};
  }

  /**
   With every dependency in the inbox and no cycle among them, a worker alone drains it, in exactly
   as many rounds as there are unprocessed messages.
   */
  method Drain(inbox: Inbox, id: nat) returns (count: nat)
    requires inbox.Valid() && Alone(inbox.cfg, inbox.db, id)
    requires forall k :: k in inbox.db.rows ==> !Tangled(WaitGraph(inbox.db), k)
    modifies inbox
    ensures inbox.Valid() && count == |Unprocessed(old(inbox.db))| && Unprocessed(inbox.db) == {}
  {
    count := inbox.RunUntilIdle(id);
    assert Unprocessed(inbox.db) == {};
  }
}
