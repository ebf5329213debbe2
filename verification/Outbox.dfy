/**
 The outbox itself: each method performs its statements one after another on the database, so the
 whole life of the object is one run of the protocol.
 */
module Outboxes {

  import opened Options
  import opened OutboxProtocol
  import opened OutboxTheorems

  /**
   How far a call to dispatch gets: still waiting for the lock, without messages, with all of them
   handled, or with the subscriber's exception.
   */
  datatype Outcome = Waits | NoMessages | Dispatched | Raised

  class Outbox {
    const cfg: Config
    var db: State
    ghost var states: seq<State>
    ghost var events: seq<Event>

    ghost predicate Valid()
      reads this
    {
      IsRun(cfg, states, events) && Init(states[0]) && states[|events|] == db
    }

    constructor (cfg: Config, xid: nat, position: nat)
      requires xid > 0 && position > 0
      ensures Valid() && this.cfg == cfg && events == []
    {
      this.cfg := cfg;
      db := State(map[], xid, position, {}, map[], map[], map[], map[]);
      states := [State(map[], xid, position, {}, map[], map[], map[], map[])];
      events := [];
    }

    method Perform(ghost e: Event, after: State)
      requires Valid() && Step(cfg, db, e, after)
      modifies this
      ensures Valid() && db == after && events == old(events) + [e]
    {
      db := after;
      states := states + [after];
      events := events + [e];
    }

    /** Insert a message in the caller's open transaction; it gets the next position. */
    method Publish(xid: nat, msg: Message)
      requires Valid() && InProgress(db, xid)
      modifies this
      ensures Valid() && events == old(events) + [Event.Publish(xid, old(db.nextPos), msg)]
      ensures db.rows == old(db.rows) + {Row(xid, old(db.nextPos), msg)}
      ensures db.offsets == old(db.offsets) && db.delivered == old(db.delivered) && db.acked == old(db.acked)
    {
      var pos := db.nextPos;
      Perform(Event.Publish(xid, pos, msg), db.(rows := db.rows + {Row(xid, pos, msg)}, nextPos := pos + 1));
    }

    method EnsureConsumerGroup(group: Group)
      requires Valid()
      modifies this
      ensures Valid() && events == old(events) + [EnsureGroup(group)]
      ensures db == old(db).(offsets := old(db).offsets[group := OffsetOf(old(db), group)])
    {
      var after := if group in db.offsets then db else db.(offsets := db.offsets[group := Offset(0, 0)]);
      assert group in db.offsets ==> db.offsets[group := OffsetOf(db, group)] == db.offsets;
      Perform(EnsureGroup(group), after);
    }

    /**
     Take a snapshot, lock the offsets row and read the next batch, which the database answers. While
     another dispatcher holds the row there is no answer yet, and the statement waits.
     */
    method FetchMessages(id: nat, group: Group, xmin: nat, answer: seq<Row>) returns (messages: Option<seq<Row>>)
      requires Valid() && group in db.offsets && DispatcherOf(db, id).Idle? && IsXmin(db, xmin)
      requires Locked(db, group) || IsBatch(cfg, group, db.offsets[group], xmin, CommittedRows(db), answer)
      modifies this
      ensures Valid() && db.rows == old(db.rows) && db.offsets == old(db.offsets)
      ensures db.delivered == old(db.delivered) && db.acked == old(db.acked)
      ensures if Locked(old(db), group) then
          && messages == None && events == old(events) + [TakeSnapshot(id, group, xmin)]
          && DispatcherOf(db, id) == Waiting(group, xmin, CommittedRows(old(db)))
        else
          && messages == Some(answer) && events == old(events) + [TakeSnapshot(id, group, xmin), Fetch(id, answer)]
          && db.txs == old(db.txs)[old(db.nextXid) := if answer == [] then Committed else Open]
          && DispatcherOf(db, id) == if answer == [] then Idle else Holding(group, xmin, old(db.nextXid), answer, 0)
    {
      ghost var started := db;
      var locked, waiting := Locked(db, group), Waiting(group, xmin, CommittedRows(db));
      Perform(TakeSnapshot(id, group, xmin), db.(dispatchers := db.dispatchers[id := waiting]));
      if locked {
        return None;
      }
      NobodyElseLocks(started, db, id, group);
      Perform(Fetch(id, answer), FetchResult(db, id, waiting, answer));
      messages := Some(answer);
    }

    /** Move the offsets row to the last message and commit, which releases it. */
    method AckMessage(id: nat)
      requires Valid() && DispatcherOf(db, id).Holding?
      requires DispatcherOf(db, id).batch != [] && DispatcherOf(db, id).sent == |DispatcherOf(db, id).batch|
      modifies this
      ensures Valid() && events == old(events) + [Ack(id), CommitAck(id)]
      ensures var d := old(DispatcherOf(db, id));
        && db.offsets == old(db.offsets)[d.group := OffsetAt(d.batch[|d.batch| - 1])]
        && db.acked == old(db.acked)[d.group := Log(old(db.acked), d.group) + d.batch]
      ensures db.rows == old(db.rows) && db.delivered == old(db.delivered) && DispatcherOf(db, id).Idle?
    {
      var d := db.dispatchers[id];
      Perform(Ack(id), db.(dispatchers := db.dispatchers[id := Acked(d.group, d.xmin, d.xid, d.batch)]));
      Perform(CommitAck(id), db.(txs := db.txs[d.xid := Committed],
                                 offsets := db.offsets[d.group := OffsetAt(d.batch[|d.batch| - 1])],
                                 dispatchers := db.dispatchers[id := Idle],
                                 acked := db.acked[d.group := Log(db.acked, d.group) + d.batch]));
    }

    /** The subscriber gets one message. */
    method Deliver(id: nat)
      requires Valid() && DispatcherOf(db, id).Holding?
      requires DispatcherOf(db, id).sent < |DispatcherOf(db, id).batch|
      modifies this
      ensures Valid() && events == old(events) + [Event.Deliver(id)]
      ensures var d := old(DispatcherOf(db, id));
        db == old(db).(dispatchers := old(db.dispatchers)[id := d.(sent := d.sent + 1)],
                       delivered := old(db.delivered)[d.group := Log(old(db.delivered), d.group) + [d.batch[d.sent]]])
    {
      var d := db.dispatchers[id];
      Perform(Event.Deliver(id),
              db.(dispatchers := db.dispatchers[id := d.(sent := d.sent + 1)],
                  delivered := db.delivered[d.group := Log(db.delivered, d.group) + [d.batch[d.sent]]]));
    }

    /** The exception leaves the transaction, which rolls back. */
    method Abandon(id: nat)
      requires Valid() && DispatcherOf(db, id).Holding?
      modifies this
      ensures Valid() && events == old(events) + [Crash(id)] && DispatcherOf(db, id).Idle?
      ensures db.rows == old(db.rows) && db.offsets == old(db.offsets)
      ensures db.delivered == old(db.delivered) && db.acked == old(db.acked)
    {
      var d := db.dispatchers[id];
      Perform(Crash(id), db.(txs := db.txs[d.xid := Aborted], dispatchers := db.dispatchers[id := Idle]));
    }

    lemma CaughtUp(g: Group, xmin: nat)
      requires Valid() && cfg.limit > 0 && g in db.offsets && IsXmin(db, xmin)
      requires IsBatch(cfg, g, db.offsets[g], xmin, CommittedRows(db), [])
      ensures forall r: Row :: CommittedRow(db, r) && cfg.matches(g, r.msg) && r.xid < xmin ==> r in Log(db.acked, g)
    {
      InitInv(cfg, states[0]);
      RunKeepsInv(cfg, states, events);
      NothingLeft(cfg, db, g, xmin, CommittedRows(db));
    }

    /**
     One round of dispatching. The subscriber raises on message `failsAt`, if the batch is that long.
     A round either acknowledges the whole batch or leaves the offset where it was.
     */
    method Dispatch(id: nat, group: Group, xmin: nat, answer: seq<Row>, failsAt: nat) returns (outcome: Outcome)
      requires Valid() && DispatcherOf(db, id).Idle? && IsXmin(db, xmin)
      requires Locked(db, group) || IsBatch(cfg, group, OffsetOf(db, group), xmin, CommittedRows(db), answer)
      modifies this
      ensures Valid() && db.rows == old(db.rows)
      ensures if outcome == Waits then DispatcherOf(db, id).Waiting? else DispatcherOf(db, id).Idle?
      ensures outcome ==
        if Locked(old(db), group) then Waits
        else if answer == [] then NoMessages else if failsAt < |answer| then Raised else Dispatched
      ensures var handled :=
          if outcome == Waits then [] else answer[..if failsAt < |answer| then failsAt else |answer|];
        Log(db.delivered, group) == Log(old(db.delivered), group) + handled
      ensures outcome == Dispatched ==>
        && Log(db.acked, group) == Log(old(db.acked), group) + answer
        && OffsetOf(db, group) == OffsetAt(answer[|answer| - 1])
      ensures outcome != Dispatched ==>
        db.acked == old(db.acked) && OffsetOf(db, group) == OffsetOf(old(db), group)
      ensures forall g | g != group :: OthersUnchanged(old(db), db, g)
      ensures outcome == NoMessages && cfg.limit > 0 ==>
        forall r: Row :: CommittedRow(db, r) && cfg.matches(group, r.msg) && r.xid < xmin ==> r in Log(db.acked, group)
    {
      hide Outbox.Valid, IsBatch, Locked;
      EnsureConsumerGroup(group);
      ghost var ensured := db;
      SameView(old(db), db, xmin, group);
      if !Locked(db, group) && answer == [] && cfg.limit > 0 {
        CaughtUp(group, xmin);
      }
      var messages := FetchMessages(id, group, xmin, answer);
      if messages.None? {
        return Waits;
      }
      if messages.value == [] {
        return NoMessages;
      }
      var done := HandOut(id, messages.value, failsAt);
      if done {
        AckMessage(id);
        outcome := Dispatched;
      } else {
        outcome := Raised;
      }
    }

    /** The subscriber gets the messages in order, up to the one it raises on. */
    method HandOut(id: nat, messages: seq<Row>, failsAt: nat) returns (done: bool)
      requires Valid() && DispatcherOf(db, id).Holding? && messages != []
      requires DispatcherOf(db, id).batch == messages && DispatcherOf(db, id).sent == 0
      modifies this
      ensures Valid() && db.rows == old(db.rows) && db.offsets == old(db.offsets) && db.acked == old(db.acked)
      ensures done == (failsAt >= |messages|)
      ensures !done ==> DispatcherOf(db, id).Idle?
      ensures done ==> DispatcherOf(db, id) == old(DispatcherOf(db, id)).(sent := |messages|)
      ensures var group := old(DispatcherOf(db, id)).group;
        && Log(db.delivered, group) == Log(old(db.delivered), group) + messages[..if done then |messages| else failsAt]
        && forall g | g != group :: Log(db.delivered, g) == Log(old(db.delivered), g)
    {
      hide Outbox.Valid;
      ghost var started := DispatcherOf(db, id);
      var i := 0;
      while i < |messages|
        invariant 0 <= i <= |messages| && i <= failsAt
        invariant Valid() && DispatcherOf(db, id) == started.(sent := i)
        invariant db.rows == old(db.rows) && db.offsets == old(db.offsets) && db.acked == old(db.acked)
        invariant Log(db.delivered, started.group) == Log(old(db.delivered), started.group) + messages[..i]
        invariant forall g | g != started.group :: Log(db.delivered, g) == Log(old(db.delivered), g)
      {
        if i == failsAt {
          Abandon(id);
          return false;
        }
        assert messages[..i + 1] == messages[..i] + [messages[i]];
        Deliver(id);
        i := i + 1;
      }
      done := true;
    }
  }

  function OffsetOf(s: State, g: Group): Offset {
    if g in s.offsets then s.offsets[g] else Offset(0, 0)
  }

  predicate OthersUnchanged(s: State, t: State, g: Group) {
    && Log(t.delivered, g) == Log(s.delivered, g) && Log(t.acked, g) == Log(s.acked, g)
    && OffsetOf(t, g) == OffsetOf(s, g)
  }

  /** Creating the offsets row changes nothing that a snapshot shows. */
  lemma SameView(s: State, t: State, xmin: nat, g: Group)
    requires t.txs == s.txs && t.nextXid == s.nextXid && t.rows == s.rows && t.dispatchers == s.dispatchers
    ensures CommittedRows(t) == CommittedRows(s) && (IsXmin(s, xmin) ==> IsXmin(t, xmin))
    ensures Locked(t, g) == Locked(s, g)
    ensures forall r :: CommittedRow(s, r) == CommittedRow(t, r)
  {
  }

  lemma NobodyElseLocks(s: State, t: State, id: nat, g: Group)
    requires !Locked(s, g) && t.dispatchers.Keys == s.dispatchers.Keys + {id}
    requires t.dispatchers[id].Waiting?
    requires forall d :: d in s.dispatchers && d != id ==> t.dispatchers[d] == s.dispatchers[d]
    ensures !Locked(t, g)
  {
  }
}
