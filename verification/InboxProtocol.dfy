/**
 The inbox as a protocol on a database: publishers that insert idempotently, and workers that scan
 under row locks, check causal dependencies, handle a message and mark it. Each SQL statement is
 one atomic step.
 */
module InboxProtocol {

  import opened Options
  import opened Digraphs

  /** The primary key: tenant_id, stream_type, stream_id, stream_position. */
  datatype Key = Key(tenant: string, streamType: string, streamId: string, position: int)

  datatype Message = Message(key: Key, uri: string, payload: string, deps: seq<Key>)

  datatype Row = Row(msg: Message, received: nat, processed: Option<nat>)

  datatype Worker =
    | Idle
    | Scanning(locked: set<Key>, offset: nat)
    | Checking(locked: set<Key>, offset: nat, key: Key, checked: nat)
    | Marked(locked: set<Key>, key: Key, position: nat)

  datatype State = State(
    rows: map<Key, Row>,        // committed
    pending: map<nat, Row>,     // inserted by a publisher's open transaction
    next: nat,                  // the sequence behind received_position and processed_position
    workers: map<nat, Worker>,
    log: seq<Key>)              // the messages whose processing was committed, in that order

  /** The fixed partition filter of each worker. */
  datatype Config = Config(mine: (nat, Message) -> bool)

  datatype Event =
    | Insert(tx: nat, msg: Message, pos: nat)
    | CommitInsert(tx: nat)
    | AbortInsert(tx: nat)
    | Begin(id: nat)
    | Fetch(id: nat, key: Key)
    | FetchNone(id: nat)
    | Check(id: nat)
    | Mark(id: nat, pos: nat)
    | CommitWork(id: nat)
    | Rollback(id: nat)

  // ---- Rows as a worker sees them ----

  predicate Processed(s: State, k: Key) {
    k in s.rows && s.rows[k].processed.Some?
  }

  function WorkerOf(s: State, id: nat): Worker {
    if id in s.workers then s.workers[id] else Idle
  }

  function LocksOf(w: Worker): set<Key> {
    if w.Idle? then {} else w.locked
  }

  predicate LockedByOther(s: State, id: nat, k: Key) {
    exists w :: w in s.workers && w != id && k in LocksOf(s.workers[w])
  }

  /** WHERE processed_position IS NULL, in this worker's partition, SKIP LOCKED. */
  predicate Free(cfg: Config, s: State, id: nat, k: Key) {
    k in s.rows && s.rows[k].processed.None? && cfg.mine(id, s.rows[k].msg) && !LockedByOther(s, id, k)
  }

  function Available(cfg: Config, s: State, id: nat): set<Key> {
    set k | k in s.rows && Free(cfg, s, id, k)
  }

  /** Those received before `k`. */
  function Earlier(s: State, among: set<Key>, k: Key): set<Key>
    requires k in s.rows && among <= s.rows.Keys
  {
    set j | j in among && s.rows[j].received < s.rows[k].received
  }

  predicate DependenciesProcessed(s: State, k: Key, n: nat)
    requires k in s.rows && n <= |s.rows[k].msg.deps|
  {
    forall i :: 0 <= i < n ==> Processed(s, s.rows[k].msg.deps[i])
  }

  // ---- Steps ----

  ghost predicate Init(s: State) {
    s.rows == map[] && s.pending == map[] && s.workers == map[] && s.log == []
  }

  predicate KeyPending(s: State, k: Key) {
    exists tx :: tx in s.pending && s.pending[tx].msg.key == k
  }

  // An insert of a key that another open transaction has inserted waits for that one to end.
  predicate Inserts(s: State, tx: nat, msg: Message, pos: nat, t: State) {
    && tx !in s.pending && !KeyPending(s, msg.key) && pos >= s.next
    && t == if msg.key in s.rows then s.(next := pos + 1)
            else s.(pending := s.pending[tx := Row(msg, pos, None)], next := pos + 1)
  }

  // The row at the offset, and every row before it, gets locked.
  predicate Fetches(cfg: Config, s: State, id: nat, k: Key, t: State) {
    var w := WorkerOf(s, id);
    && w.Scanning? && k in Available(cfg, s, id)
    && |Earlier(s, Available(cfg, s, id), k)| == w.offset
    && t == s.(workers := s.workers[id := Checking(w.locked + Earlier(s, Available(cfg, s, id), k) + {k}, w.offset, k, 0)])
  }

  predicate Checks(s: State, id: nat, t: State) {
    var w := WorkerOf(s, id);
    && w.Checking? && w.key in s.rows && w.checked < |s.rows[w.key].msg.deps|
    && t == s.(workers := s.workers[id :=
         if Processed(s, s.rows[w.key].msg.deps[w.checked]) then w.(checked := w.checked + 1)
         else Scanning(w.locked, w.offset + 1)])
  }

  // The subscriber has handled the message in this transaction.
  predicate Marks(s: State, id: nat, pos: nat, t: State) {
    var w := WorkerOf(s, id);
    && w.Checking? && w.key in s.rows && w.checked == |s.rows[w.key].msg.deps| && pos >= s.next
    && t == s.(workers := s.workers[id := Marked(w.locked, w.key, pos)], next := pos + 1)
  }

  predicate Commits(s: State, id: nat, t: State) {
    var w := WorkerOf(s, id);
    && w.Marked? && w.key in s.rows
    && t == s.(rows := s.rows[w.key := s.rows[w.key].(processed := Some(w.position))],
               workers := s.workers[id := Idle],
               log := s.log + [w.key])
  }

  ghost predicate Step(cfg: Config, s: State, e: Event, t: State) {
    match e
    case Insert(tx, msg, pos) => Inserts(s, tx, msg, pos, t)
    case CommitInsert(tx) =>
      && tx in s.pending
      && t == s.(rows := s.rows[s.pending[tx].msg.key := s.pending[tx]], pending := s.pending - {tx})
    case AbortInsert(tx) =>
      tx in s.pending && t == s.(pending := s.pending - {tx})
    case Begin(id) =>
      WorkerOf(s, id).Idle? && t == s.(workers := s.workers[id := Scanning({}, 0)])
    case Fetch(id, k) => Fetches(cfg, s, id, k, t)
    case FetchNone(id) =>
      && WorkerOf(s, id).Scanning? && |Available(cfg, s, id)| <= WorkerOf(s, id).offset
      && t == s.(workers := s.workers[id := Idle])
    case Check(id) => Checks(s, id, t)
    case Mark(id, pos) => Marks(s, id, pos, t)
    case CommitWork(id) => Commits(s, id, t)
    case Rollback(id) =>
      !WorkerOf(s, id).Idle? && t == s.(workers := s.workers[id := Idle])
  }

  // ---- The invariant ----

  ghost predicate RowsOk(s: State) {
    && (forall k :: k in s.rows ==> s.rows[k].msg.key == k && s.rows[k].received < s.next)
    && (forall j, k :: j in s.rows && k in s.rows && j != k ==> s.rows[j].received != s.rows[k].received)
  }

  ghost predicate PendingOk(s: State) {
    && (forall x :: x in s.pending ==>
          s.pending[x].msg.key !in s.rows && s.pending[x].received < s.next && s.pending[x].processed.None?)
    && (forall x, k :: x in s.pending && k in s.rows ==> s.pending[x].received != s.rows[k].received)
    && (forall x, y :: x in s.pending && y in s.pending && x != y ==>
          s.pending[x].msg.key != s.pending[y].msg.key && s.pending[x].received != s.pending[y].received)
  }

  /** No row is locked by two workers. */
  ghost predicate LocksOk(s: State) {
    forall v, w :: v in s.workers && w in s.workers && v != w ==>
      LocksOf(s.workers[v]) !! LocksOf(s.workers[w])
  }

  ghost predicate WorkerOk(s: State, w: Worker) {
    && (forall k :: k in LocksOf(w) ==> k in s.rows && s.rows[k].processed.None?)
    && match w
       case Idle => true
       case Scanning(_, _) => true
       case Checking(locked, _, k, n) =>
         k in locked && k in s.rows && n <= |s.rows[k].msg.deps| && DependenciesProcessed(s, k, n)
       case Marked(locked, k, p) =>
         k in locked && k in s.rows && p < s.next && ReadyAt(s, k, p) && Unused(s, p)
  }

  /** Every dependency was processed, before position `p`. */
  ghost predicate ReadyAt(s: State, k: Key, p: nat)
    requires k in s.rows
  {
    forall d :: d in s.rows[k].msg.deps ==> Processed(s, d) && s.rows[d].processed.value < p
  }

  ghost predicate Unused(s: State, p: nat) {
    forall k :: Processed(s, k) ==> s.rows[k].processed.value != p
  }

  ghost predicate WorkersOk(s: State) {
    && (forall w :: w in s.workers ==> WorkerOk(s, s.workers[w]))
    && (forall v, w :: v in s.workers && w in s.workers && v != w && s.workers[v].Marked? && s.workers[w].Marked? ==>
          s.workers[v].position != s.workers[w].position)
  }

  /** A processed row follows all it depends on, at a position of its own. */
  ghost predicate CausalOk(s: State) {
    && (forall k :: Processed(s, k) ==> s.rows[k].processed.value < s.next && ReadyAt(s, k, s.rows[k].processed.value))
    && (forall j, k :: Processed(s, j) && Processed(s, k) && j != k ==>
          s.rows[j].processed.value != s.rows[k].processed.value)
  }

  ghost predicate LogOk(s: State) {
    && NoDup(s.log)
    && (forall k :: k in s.log <==> Processed(s, k))
    && (forall i, d :: 0 <= i < |s.log| && s.log[i] in s.rows && d in s.rows[s.log[i]].msg.deps ==> d in s.log[..i])
  }

  ghost predicate Inv(s: State) {
    RowsOk(s) && PendingOk(s) && LocksOk(s) && WorkersOk(s) && CausalOk(s) && LogOk(s)
  }

  lemma InitInv(s: State)
    requires Init(s)
    ensures Inv(s)
  {
  }

  // ---- What no step takes back ----

  /** Rows stay as they were received; a processed one keeps its position. */
  ghost predicate Extends(s: State, t: State) {
    && s.next <= t.next
    && (forall k :: k in s.rows ==> k in t.rows && t.rows[k].msg == s.rows[k].msg && t.rows[k].received == s.rows[k].received)
    && (forall k :: Processed(s, k) ==> t.rows[k] == s.rows[k])
    && s.log <= t.log
  }

  lemma CommitterIsOk(s: State, id: nat, t: State)
    requires WorkersOk(s) && Commits(s, id, t)
    ensures id in s.workers && WorkerOk(s, s.workers[id])
    ensures !Processed(s, s.workers[id].key)
  {
  }

  predicate IsWork(e: Event) {
    !(e.Insert? || e.CommitInsert? || e.AbortInsert?)
  }

  predicate Moves(e: Event, w: nat) {
    IsWork(e) && e.id == w
  }

  ghost predicate SameMessages(s: State, t: State) {
    && t.pending == s.pending && s.next <= t.next && t.rows.Keys == s.rows.Keys
    && forall k :: k in s.rows ==> t.rows[k].msg == s.rows[k].msg && t.rows[k].received == s.rows[k].received
  }

  lemma WorkLeavesMessages(cfg: Config, s: State, e: Event, t: State)
    requires Step(cfg, s, e, t) && IsWork(e)
    ensures SameMessages(s, t)
  {
    hide Available, Earlier, Processed;
  }

  lemma CheckLeavesRows(s: State, id: nat, t: State)
    requires Checks(s, id, t)
    ensures t.rows == s.rows && t.log == s.log
  {
  }

  lemma WorkKeepsPositions(cfg: Config, s: State, e: Event, t: State)
    requires WorkersOk(s) && Step(cfg, s, e, t) && IsWork(e)
    ensures (forall k :: Processed(s, k) ==> t.rows[k] == s.rows[k]) && s.log <= t.log
  {
    hide Available, Earlier, Checks, WorkersOk;
    if e.CommitWork? {
      CommitterIsOk(s, e.id, t);
    } else if e.Check? {
      CheckLeavesRows(s, e.id, t);
    }
  }

  lemma StepExtends(cfg: Config, s: State, e: Event, t: State)
    requires Inv(s) && Step(cfg, s, e, t)
    ensures Extends(s, t)
  {
    hide WorkersOk, LocksOk, CausalOk, LogOk, RowsOk;
    if IsWork(e) {
      hide Step, PendingOk, Processed;
      WorkLeavesMessages(cfg, s, e, t);
      WorkKeepsPositions(cfg, s, e, t);
    } else {
      hide KeyPending;
    }
  }

  lemma SameMessagesKeepRows(s: State, t: State)
    requires RowsOk(s) && SameMessages(s, t)
    ensures RowsOk(t)
  {
  }

  lemma StepKeepsRows(cfg: Config, s: State, e: Event, t: State)
    requires Inv(s) && Step(cfg, s, e, t)
    ensures RowsOk(t)
  {
    hide WorkersOk, LocksOk, CausalOk, LogOk, SameMessages, KeyPending;
    if IsWork(e) {
      hide Step, PendingOk, RowsOk;
      WorkLeavesMessages(cfg, s, e, t);
      SameMessagesKeepRows(s, t);
    } else if !e.CommitInsert? {
      hide PendingOk;
    }
  }

  lemma StepKeepsPending(cfg: Config, s: State, e: Event, t: State)
    requires Inv(s) && Step(cfg, s, e, t)
    ensures PendingOk(t)
  {
    hide WorkersOk, LocksOk, CausalOk, LogOk, RowsOk;
    if IsWork(e) {
      WorkLeavesMessages(cfg, s, e, t);
      hide Step;
    } else if e.Insert? {
      InsertKeepsPending(s, e.tx, e.msg, e.pos, t);
    }
  }

  lemma InsertKeepsPending(s: State, tx: nat, msg: Message, pos: nat, t: State)
    requires PendingOk(s) && RowsOk(s) && Inserts(s, tx, msg, pos, t)
    ensures PendingOk(t)
  {
  }

  lemma OthersStay(cfg: Config, s: State, e: Event, t: State, w: nat)
    requires Step(cfg, s, e, t) && w in t.workers && !Moves(e, w)
    ensures w in s.workers && t.workers[w] == s.workers[w]
  {
    hide Available, KeyPending;
  }

  // What the worker that moves has locked afterwards: only rows nobody else holds.
  lemma MoverLocks(cfg: Config, s: State, e: Event, t: State, w: nat, k: Key)
    requires Step(cfg, s, e, t) && w in t.workers && Moves(e, w) && k in LocksOf(t.workers[w])
    ensures k in LocksOf(WorkerOf(s, w)) || Free(cfg, s, w, k)
  {
    hide Free, LockedByOther;
  }

  lemma StepKeepsLocks(cfg: Config, s: State, e: Event, t: State)
    requires Inv(s) && Step(cfg, s, e, t)
    ensures LocksOk(t)
  {
    forall v, w | v in t.workers && w in t.workers && v != w
      ensures LocksOf(t.workers[v]) !! LocksOf(t.workers[w])
    {
      hide Step, RowsOk, PendingOk, WorkersOk, CausalOk, LogOk;
      forall k | k in LocksOf(t.workers[v]) ensures k !in LocksOf(t.workers[w]) {
        if Moves(e, v) {
          OthersStay(cfg, s, e, t, w);
          MoverLocks(cfg, s, e, t, v, k);
        } else {
          OthersStay(cfg, s, e, t, v);
          if Moves(e, w) {
            if k in LocksOf(t.workers[w]) {
              MoverLocks(cfg, s, e, t, w, k);
            }
          } else {
            OthersStay(cfg, s, e, t, w);
          }
        }
      }
    }
  }

  lemma OnlyCommitProcesses(cfg: Config, s: State, e: Event, t: State)
    requires Inv(s) && Step(cfg, s, e, t)
    ensures t.log == if e.CommitWork? then s.log + [WorkerOf(s, e.id).key] else s.log
    ensures forall k :: Processed(t, k) <==> Processed(s, k) || (e.CommitWork? && k == WorkerOf(s, e.id).key)
    ensures e.CommitWork? ==>
      t.rows[WorkerOf(s, e.id).key].processed == Some(WorkerOf(s, e.id).position)
  {
    hide Available, Earlier, Checks, KeyPending, WorkersOk, LocksOk, CausalOk, LogOk, RowsOk;
    if e.Check? {
      CheckLeavesRows(s, e.id, t);
    }
  }

  // ---- Workers ----

  lemma WorkerStays(s: State, t: State, w: Worker)
    requires Extends(s, t) && WorkerOk(s, w)
    requires forall k :: k in LocksOf(w) ==> !Processed(t, k)
    requires w.Marked? ==> Unused(t, w.position)
    ensures WorkerOk(t, w)
  {
  }

  lemma FetcherIsOk(cfg: Config, s: State, id: nat, k: Key, t: State)
    requires Fetches(cfg, s, id, k, t) && WorkerOk(s, WorkerOf(s, id))
    ensures WorkerOk(t, WorkerOf(t, id))
  {
    assert forall j :: j in LocksOf(WorkerOf(t, id)) ==> j in s.rows && s.rows[j].processed.None? by {
      hide LockedByOther;
    }
  }

  lemma CheckerIsOk(s: State, id: nat, t: State)
    requires Checks(s, id, t) && WorkerOk(s, WorkerOf(s, id))
    ensures WorkerOk(t, WorkerOf(t, id))
  {
  }

  // A position drawn now is above every position in use.
  lemma MarkerIsOk(s: State, id: nat, pos: nat, t: State)
    requires Marks(s, id, pos, t) && WorkerOk(s, WorkerOf(s, id)) && CausalOk(s)
    ensures WorkerOk(t, WorkerOf(t, id))
  {
    var w := WorkerOf(s, id);
    assert forall d :: d in s.rows[w.key].msg.deps ==> Processed(s, d);
  }

  lemma MoverIsOk(cfg: Config, s: State, e: Event, t: State)
    requires Inv(s) && Step(cfg, s, e, t) && IsWork(e)
    ensures WorkerOk(t, WorkerOf(t, e.id))
  {
    assert WorkerOk(s, WorkerOf(s, e.id));
    hide WorkerOk, Available, Earlier, Checks, Fetches, Marks, WorkersOk, LocksOk, CausalOk, LogOk, RowsOk, PendingOk;
    match e
    case Begin(id) => FreshWorkerIsOk(t, WorkerOf(t, id));
    case Fetch(id, k) => FetcherIsOk(cfg, s, id, k, t);
    case FetchNone(id) => FreshWorkerIsOk(t, WorkerOf(t, id));
    case Check(id) => CheckerIsOk(s, id, t);
    case Mark(id, pos) => MarkerIsOk(s, id, pos, t);
    case CommitWork(id) => FreshWorkerIsOk(t, WorkerOf(t, id));
    case Rollback(id) => FreshWorkerIsOk(t, WorkerOf(t, id));
  }

  lemma FreshWorkerIsOk(t: State, w: Worker)
    requires w.Idle? || w == Scanning({}, 0)
    ensures WorkerOk(t, w)
  {
  }

  // The message another worker commits is not one this worker has locked.
  lemma OtherWorkerStays(cfg: Config, s: State, e: Event, t: State, w: nat)
    requires Inv(s) && Step(cfg, s, e, t) && Extends(s, t)
    requires w in s.workers && !Moves(e, w)
    ensures WorkerOk(t, s.workers[w])
  {
    var it := s.workers[w];
    assert WorkerOk(s, it);
    OnlyCommitProcesses(cfg, s, e, t);
    if e.CommitWork? {
      CommitterIsOk(s, e.id, t);
      assert s.workers[e.id].key in LocksOf(s.workers[e.id]);
      assert LocksOf(it) !! LocksOf(s.workers[e.id]);
    }
    hide Step, RowsOk, PendingOk, LogOk, CausalOk, LocksOk;
    assert it.Marked? ==> Unused(s, it.position) && Unused(t, it.position) by {
      hide ReadyAt;
    }
    WorkerStays(s, t, it);
  }

  lemma PositionsStayApart(cfg: Config, s: State, e: Event, t: State, v: nat, w: nat)
    requires Inv(s) && Step(cfg, s, e, t)
    requires v in t.workers && w in t.workers && v != w && t.workers[v].Marked? && t.workers[w].Marked?
    ensures t.workers[v].position != t.workers[w].position
  {
    MarkedBefore(cfg, s, e, t, v);
    MarkedBefore(cfg, s, e, t, w);
    hide Step, RowsOk, PendingOk, LogOk, CausalOk, LocksOk;
    if v in s.workers && s.workers[v] == t.workers[v] {
      assert WorkerOk(s, s.workers[v]);
    }
    if w in s.workers && s.workers[w] == t.workers[w] {
      assert WorkerOk(s, s.workers[w]);
    }
  }

  lemma MarkedBefore(cfg: Config, s: State, e: Event, t: State, w: nat)
    requires Step(cfg, s, e, t) && w in t.workers && t.workers[w].Marked?
    ensures (w in s.workers && s.workers[w] == t.workers[w]) || (e == Mark(w, t.workers[w].position) && t.workers[w].position >= s.next)
  {
    hide Available, KeyPending;
  }

  lemma StepKeepsWorkers(cfg: Config, s: State, e: Event, t: State)
    requires Inv(s) && Step(cfg, s, e, t) && Extends(s, t)
    ensures WorkersOk(t)
  {
    hide Step, RowsOk, PendingOk, LogOk, CausalOk, LocksOk, WorkerOk, Extends;
    forall w | w in t.workers ensures WorkerOk(t, t.workers[w]) {
      hide WorkersOk;
      if Moves(e, w) {
        MoverIsOk(cfg, s, e, t);
      } else {
        OthersStay(cfg, s, e, t, w);
        OtherWorkerStays(cfg, s, e, t, w);
      }
    }
    forall v, w | v in t.workers && w in t.workers && v != w && t.workers[v].Marked? && t.workers[w].Marked?
      ensures t.workers[v].position != t.workers[w].position
    {
      hide WorkersOk;
      PositionsStayApart(cfg, s, e, t, v, w);
    }
  }

  // ---- Positions and the log ----

  lemma ReadyStays(s: State, t: State, k: Key, p: nat)
    requires Extends(s, t) && k in s.rows && ReadyAt(s, k, p)
    ensures ReadyAt(t, k, p)
  {
  }

  lemma StepKeepsCausal(cfg: Config, s: State, e: Event, t: State)
    requires Inv(s) && Step(cfg, s, e, t) && Extends(s, t)
    ensures CausalOk(t)
  {
    OnlyCommitProcesses(cfg, s, e, t);
    if e.CommitWork? {
      CommitterIsOk(s, e.id, t);
      var w := s.workers[e.id];
      hide Step, RowsOk, PendingOk, LogOk, WorkersOk, LocksOk, CausalOk;
      OneMoreProcessed(s, t, w.key, w.position);
    } else {
      hide Step, RowsOk, PendingOk, LogOk, WorkersOk, LocksOk, CausalOk;
      SameProcessed(s, t);
    }
  }

  lemma SameProcessed(s: State, t: State)
    requires CausalOk(s) && Extends(s, t) && forall k :: Processed(t, k) <==> Processed(s, k)
    ensures CausalOk(t)
  {
    forall k | Processed(t, k) ensures ReadyAt(t, k, t.rows[k].processed.value) {
      ReadyStays(s, t, k, s.rows[k].processed.value);
    }
  }

  lemma OneMoreProcessed(s: State, t: State, k: Key, p: nat)
    requires CausalOk(s) && Extends(s, t) && k in s.rows && !Processed(s, k)
    requires forall j :: Processed(t, j) <==> Processed(s, j) || j == k
    requires t.rows[k].processed == Some(p) && p < s.next && ReadyAt(s, k, p) && Unused(s, p)
    ensures CausalOk(t)
  {
    hide ReadyAt;
    forall j | Processed(t, j) ensures t.rows[j].processed.value < t.next && ReadyAt(t, j, t.rows[j].processed.value) {
      ReadyStays(s, t, j, t.rows[j].processed.value);
    }
  }

  lemma StepKeepsLog(cfg: Config, s: State, e: Event, t: State)
    requires Inv(s) && Step(cfg, s, e, t) && Extends(s, t)
    ensures LogOk(t)
  {
    OnlyCommitProcesses(cfg, s, e, t);
    if e.CommitWork? {
      CommitterIsOk(s, e.id, t);
      var k := s.workers[e.id].key;
      assert forall d :: d in s.rows[k].msg.deps ==> d in s.log;
      hide Step, RowsOk, PendingOk, WorkersOk, LocksOk, CausalOk;
      LogGrows(s, t, k);
    } else {
      hide Step, RowsOk, PendingOk, WorkersOk, LocksOk, CausalOk;
    }
  }

  lemma LogGrows(s: State, t: State, k: Key)
    requires LogOk(s) && Extends(s, t) && t.log == s.log + [k] && k in s.rows && !Processed(s, k)
    requires forall j :: Processed(t, j) <==> Processed(s, j) || j == k
    requires forall d :: d in s.rows[k].msg.deps ==> d in s.log
    ensures LogOk(t)
  {
    forall i, d | 0 <= i < |t.log| && t.log[i] in t.rows && d in t.rows[t.log[i]].msg.deps
      ensures d in t.log[..i]
    {
      if i < |s.log| {
        assert t.log[i] == s.log[i] && t.log[..i] == s.log[..i];
        assert Processed(s, s.log[i]);
      } else {
        assert t.log[..i] == s.log;
      }
    }
  }

  lemma StepKeepsInv(cfg: Config, s: State, e: Event, t: State)
    requires Inv(s) && Step(cfg, s, e, t)
    ensures Inv(t) && Extends(s, t)
  {
    StepExtends(cfg, s, e, t);
    StepKeepsRows(cfg, s, e, t);
    StepKeepsPending(cfg, s, e, t);
    StepKeepsLocks(cfg, s, e, t);
    StepKeepsWorkers(cfg, s, e, t);
    StepKeepsCausal(cfg, s, e, t);
    StepKeepsLog(cfg, s, e, t);
  }
}
