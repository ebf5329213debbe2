/**
 The transactional outbox as a protocol on a database: producers whose transactions commit in
 any order, and dispatchers that read below the oldest open transaction, deliver and acknowledge.
 Each SQL statement is one atomic step.
 */
module OutboxProtocol {

  datatype Message = Message(uri: string, payload: string)

  /** A row of the outbox table. */
  datatype Row = Row(xid: nat, pos: nat, msg: Message)

  /** The last processed transaction and offset of a consumer group. */
  datatype Offset = Offset(xid: nat, pos: nat)

  /** A row of the offsets table: an effective consumer group with its uri filter. */
  datatype Group = Group(name: string, uri: string)

  datatype Status = Open | Committed | Aborted

  /**
   One dispatcher. The statement that fetches takes its snapshot first and may then wait for the
   lock on the offsets row; what it reads of that row is the latest committed version.
   */
  datatype Dispatcher =
    | Idle
    | Waiting(group: Group, xmin: nat, seen: set<Row>)
    | Holding(group: Group, xmin: nat, xid: nat, batch: seq<Row>, sent: nat)
    | Acked(group: Group, xmin: nat, xid: nat, batch: seq<Row>)

  datatype State = State(
    txs: map<nat, Status>,
    nextXid: nat,
    nextPos: nat,
    rows: set<Row>,
    offsets: map<Group, Offset>,
    dispatchers: map<nat, Dispatcher>,
    delivered: map<Group, seq<Row>>, // every delivery, acknowledged or not
    acked: map<Group, seq<Row>>)     // the batches whose acknowledgement was committed, in order

  /** The batch size, and the fixed uri and partition filter of each group. */
  datatype Config = Config(limit: nat, matches: (Group, Message) -> bool)

  datatype Event =
    | Begin
    | Publish(xid: nat, pos: nat, msg: Message)
    | Commit(xid: nat)
    | Abort(xid: nat)
    | EnsureGroup(group: Group)
    | TakeSnapshot(id: nat, group: Group, xmin: nat)
    | Fetch(id: nat, batch: seq<Row>)
    | Deliver(id: nat)
    | Ack(id: nat)
    | CommitAck(id: nat)
    | Crash(id: nat)

  // ---- Order and filters ----

  /** The order (transaction_id, position). */
  predicate KeyLess(axid: nat, apos: nat, bxid: nat, bpos: nat) {
    axid < bxid || (axid == bxid && apos < bpos)
  }

  predicate RowLess(a: Row, b: Row) {
    KeyLess(a.xid, a.pos, b.xid, b.pos)
  }

  predicate After(r: Row, o: Offset) {
    KeyLess(o.xid, o.pos, r.xid, r.pos)
  }

  ghost predicate Sorted(q: seq<Row>) {
    forall i, j :: 0 <= i < j < |q| ==> RowLess(q[i], q[j])
  }

  predicate IsCommitted(s: State, r: Row) {
    r.xid in s.txs && s.txs[r.xid] == Committed
  }

  /** No transaction below `xmin` is in progress. */
  ghost predicate SettledBelow(s: State, xmin: nat) {
    xmin <= s.nextXid && forall x :: x in s.txs && x < xmin ==> s.txs[x] != Open
  }

  /** `pg_snapshot_xmin`: the least transaction in progress, or the next one to come. */
  ghost predicate IsXmin(s: State, xmin: nat) {
    SettledBelow(s, xmin) && (xmin == s.nextXid || (xmin in s.txs && s.txs[xmin] == Open))
  }

  /** The WHERE clause of the fetch, on the rows a snapshot shows. */
  predicate Wanted(cfg: Config, g: Group, o: Offset, xmin: nat, r: Row) {
    After(r, o) && r.xid < xmin && cfg.matches(g, r.msg)
  }

  /** ORDER BY transaction_id, position LIMIT n over the wanted rows of `seen`. */
  ghost predicate IsBatch(cfg: Config, g: Group, o: Offset, xmin: nat, seen: set<Row>, batch: seq<Row>) {
    && Sorted(batch) && |batch| <= cfg.limit
    && (forall r :: r in batch ==> r in seen && Wanted(cfg, g, o, xmin, r))
    && (forall r :: r in seen && Wanted(cfg, g, o, xmin, r) && r !in batch ==>
          |batch| == cfg.limit && forall b :: b in batch ==> RowLess(b, r))
  }

  predicate Locked(s: State, g: Group) {
    exists d :: d in s.dispatchers && HoldsLock(s.dispatchers[d], g)
  }

  predicate HoldsLock(d: Dispatcher, g: Group) {
    (d.Holding? || d.Acked?) && d.group == g
  }

  function DispatcherOf(s: State, id: nat): Dispatcher {
    if id in s.dispatchers then s.dispatchers[id] else Idle
  }

  function Log(m: map<Group, seq<Row>>, g: Group): seq<Row> {
    if g in m then m[g] else []
  }

  function CommittedRows(s: State): set<Row> {
    set r | r in s.rows && IsCommitted(s, r)
  }

  function OffsetAt(r: Row): Offset {
    Offset(r.xid, r.pos)
  }

  // ---- Steps ----

  ghost predicate Init(s: State) {
    && s.txs == map[] && s.nextXid > 0 && s.nextPos > 0 && s.rows == {}
    && s.offsets == map[] && s.dispatchers == map[] && s.delivered == map[] && s.acked == map[]
  }

  ghost predicate Step(cfg: Config, s: State, e: Event, t: State) {
    match e
    case Begin =>
      t == s.(txs := s.txs[s.nextXid := Open], nextXid := s.nextXid + 1)
    case Publish(x, pos, msg) => // sequences may skip values
      && x in s.txs && s.txs[x] == Open && pos >= s.nextPos
      && t == s.(rows := s.rows + {Row(x, pos, msg)}, nextPos := pos + 1)
    case Commit(x) =>
      && x in s.txs && s.txs[x] == Open && !OwnedByDispatcher(s, x)
      && t == s.(txs := s.txs[x := Committed])
    case Abort(x) =>
      && x in s.txs && s.txs[x] == Open && !OwnedByDispatcher(s, x)
      && t == s.(txs := s.txs[x := Aborted])
    case EnsureGroup(g) =>
      t == if g in s.offsets then s else s.(offsets := s.offsets[g := Offset(0, 0)])
    case TakeSnapshot(id, g, xmin) =>
      && DispatcherOf(s, id).Idle? && IsXmin(s, xmin)
      && t == s.(dispatchers := s.dispatchers[id := Waiting(g, xmin, CommittedRows(s))])
    case Fetch(id, batch) =>
      var d := DispatcherOf(s, id);
      && d.Waiting? && d.group in s.offsets && !Locked(s, d.group)
      && IsBatch(cfg, d.group, s.offsets[d.group], d.xmin, d.seen, batch)
      && t == FetchResult(s, id, d, batch)
    case Deliver(id) =>
      var d := DispatcherOf(s, id);
      && d.Holding? && d.sent < |d.batch|
      && t == s.(dispatchers := s.dispatchers[id := d.(sent := d.sent + 1)],
                 delivered := s.delivered[d.group := Log(s.delivered, d.group) + [d.batch[d.sent]]])
    case Ack(id) =>
      var d := DispatcherOf(s, id);
      && d.Holding? && d.sent == |d.batch|
      && t == s.(dispatchers := s.dispatchers[id := Acked(d.group, d.xmin, d.xid, d.batch)])
    case CommitAck(id) =>
      var d := DispatcherOf(s, id);
      && d.Acked? && d.batch != []
      && t == s.(txs := s.txs[d.xid := Committed],
                 offsets := s.offsets[d.group := OffsetAt(d.batch[|d.batch| - 1])],
                 dispatchers := s.dispatchers[id := Idle],
                 acked := s.acked[d.group := Log(s.acked, d.group) + d.batch])
    case Crash(id) =>
      var d := DispatcherOf(s, id);
      && !d.Idle?
      && t == s.(txs := if d.Waiting? then s.txs else s.txs[d.xid := Aborted],
                 dispatchers := s.dispatchers[id := Idle])
  }

  // FOR UPDATE gives the dispatcher's transaction an xid; an empty batch ends it at once.
  function FetchResult(s: State, id: nat, d: Dispatcher, batch: seq<Row>): State
    requires d.Waiting?
  {
    var started := s.(nextXid := s.nextXid + 1);
    if batch == [] then
      started.(txs := s.txs[s.nextXid := Committed], dispatchers := s.dispatchers[id := Idle])
    else
      started.(txs := s.txs[s.nextXid := Open],
               dispatchers := s.dispatchers[id := Holding(d.group, d.xmin, s.nextXid, batch, 0)])
  }

  ghost predicate OwnedByDispatcher(s: State, x: nat) {
    exists d :: d in s.dispatchers && (s.dispatchers[d].Holding? || s.dispatchers[d].Acked?) && s.dispatchers[d].xid == x
  }

  // ---- The invariant ----

  predicate CommittedRow(s: State, r: Row) {
    r in s.rows && IsCommitted(s, r)
  }

  ghost predicate TablesOk(s: State) {
    && s.nextXid > 0 && s.nextPos > 0
    && (forall x :: x in s.txs ==> 0 < x < s.nextXid)
    && (forall r :: r in s.rows ==> r.xid in s.txs && 0 < r.pos < s.nextPos)
    && (forall r, q :: r in s.rows && q in s.rows && r.pos == q.pos ==> r == q)
  }

  /** A snapshot shows exactly the committed rows among the settled ones. */
  ghost predicate SnapshotOk(s: State, xmin: nat, seen: set<Row>) {
    && SettledBelow(s, xmin)
    && forall r: Row :: r.xid < xmin ==> (r in seen <==> CommittedRow(s, r))
  }

  /** `batch` holds the first settled rows a group still wants, in order and without a gap. */
  ghost predicate NextUp(cfg: Config, s: State, g: Group, xmin: nat, batch: seq<Row>) {
    && g in s.offsets && batch != [] && SettledBelow(s, xmin) && Sorted(batch)
    && (forall r :: r in batch ==> CommittedRow(s, r) && Wanted(cfg, g, s.offsets[g], xmin, r))
    && (forall r :: CommittedRow(s, r) && cfg.matches(g, r.msg) && After(r, s.offsets[g]) && r !in batch ==>
          RowLess(batch[|batch| - 1], r))
  }

  ghost predicate Sent(s: State, g: Group, batch: seq<Row>) {
    forall r :: r in batch ==> r in Log(s.delivered, g)
  }

  predicate InProgress(s: State, x: nat) {
    x in s.txs && s.txs[x] == Open
  }

  ghost predicate DispatcherOk(cfg: Config, s: State, d: Dispatcher) {
    match d
    case Idle => true
    case Waiting(g, xmin, seen) => SnapshotOk(s, xmin, seen)
    case Holding(g, xmin, xid, batch, sent) =>
      NextUp(cfg, s, g, xmin, batch) && InProgress(s, xid) && sent <= |batch| && Sent(s, g, batch[..sent])
    case Acked(g, xmin, xid, batch) =>
      NextUp(cfg, s, g, xmin, batch) && InProgress(s, xid) && Sent(s, g, batch)
  }

  ghost predicate DispatchersOk(cfg: Config, s: State) {
    forall d :: d in s.dispatchers ==> DispatcherOk(cfg, s, s.dispatchers[d])
  }

  predicate IsHolder(d: Dispatcher) {
    d.Holding? || d.Acked?
  }

  /** No two dispatchers hold the lock on one offsets row, or share a transaction. */
  ghost predicate OneHolder(s: State) {
    forall d, e :: d in s.dispatchers && e in s.dispatchers && d != e
                   && IsHolder(s.dispatchers[d]) && IsHolder(s.dispatchers[e]) ==>
      s.dispatchers[d].group != s.dispatchers[e].group && s.dispatchers[d].xid != s.dispatchers[e].xid
  }

  /** Up to the offset everything is settled, acknowledged in order, and delivered. */
  ghost predicate GroupOk(cfg: Config, s: State, g: Group)
    requires g in s.offsets
  {
    && SettledBelow(s, s.offsets[g].xid + 1)
    && Sorted(Log(s.acked, g))
    && (forall r: Row :: r in Log(s.acked, g) <==>
          CommittedRow(s, r) && cfg.matches(g, r.msg) && !After(r, s.offsets[g]))
    && Sent(s, g, Log(s.acked, g))
  }

  ghost predicate GroupsOk(cfg: Config, s: State) {
    && (forall g :: g in s.offsets ==> GroupOk(cfg, s, g))
    && (forall g :: g !in s.offsets ==> Log(s.acked, g) == [])
  }

  ghost predicate Inv(cfg: Config, s: State) {
    TablesOk(s) && OneHolder(s) && DispatchersOk(cfg, s) && GroupsOk(cfg, s)
  }

  lemma InitInv(cfg: Config, s: State)
    requires Init(s)
    ensures Inv(cfg, s)
  {
  }

  // ---- What no step takes back ----

  /** Ended transactions stay as they ended. */
  ghost predicate EndedStay(s: State, t: State) {
    && s.nextXid <= t.nextXid
    && (forall x :: x in s.txs ==> x in t.txs)
    && (forall x :: x in s.txs && s.txs[x] != Open ==> t.txs[x] == s.txs[x])
    && (forall x :: x in t.txs && x !in s.txs ==> s.nextXid <= x)
  }

  /** Rows stay, and only open or coming transactions add to them. */
  ghost predicate RowsStay(s: State, t: State) {
    && s.rows <= t.rows
    && forall r :: r in t.rows && r !in s.rows ==> r.xid >= s.nextXid || InProgress(s, r.xid)
  }

  /** Groups stay, and what was delivered was delivered. */
  ghost predicate LogsStay(s: State, t: State) {
    && (forall g :: g in s.offsets ==> g in t.offsets)
    && (forall g, r :: r in Log(s.delivered, g) ==> r in Log(t.delivered, g))
  }

  ghost predicate Extends(s: State, t: State) {
    EndedStay(s, t) && RowsStay(s, t) && LogsStay(s, t)
  }

  /** A dispatcher that holds the lock is inside a transaction of its own. */
  lemma HolderIsInProgress(cfg: Config, s: State, id: nat)
    requires DispatchersOk(cfg, s) && id in s.dispatchers && IsHolder(s.dispatchers[id])
    ensures InProgress(s, s.dispatchers[id].xid) && s.dispatchers[id].group in s.offsets
  {
    assert DispatcherOk(cfg, s, s.dispatchers[id]);
  }

  lemma StepKeepsEnded(cfg: Config, s: State, e: Event, t: State)
    requires Inv(cfg, s) && Step(cfg, s, e, t)
    ensures EndedStay(s, t)
  {
    hide DispatchersOk, GroupsOk, OneHolder, IsBatch, IsXmin, CommittedRows, OwnedByDispatcher;
    match e
    case CommitAck(id) => HolderIsInProgress(cfg, s, id);
    case Crash(id) => if !s.dispatchers[id].Waiting? { HolderIsInProgress(cfg, s, id); }
    case _ =>
  }

  lemma StepKeepsRowsAndLogs(cfg: Config, s: State, e: Event, t: State)
    requires Step(cfg, s, e, t)
    ensures RowsStay(s, t) && LogsStay(s, t)
  {
    hide IsBatch, IsXmin, CommittedRows, OwnedByDispatcher, Locked;
  }

  lemma StepKeepsTables(cfg: Config, s: State, e: Event, t: State)
    requires Inv(cfg, s) && Step(cfg, s, e, t)
    ensures TablesOk(t)
  {
    hide DispatchersOk, GroupsOk, OneHolder, IsBatch, IsXmin, CommittedRows;
    match e
    case CommitAck(id) => HolderIsInProgress(cfg, s, id);
    case Crash(id) => if !s.dispatchers[id].Waiting? { HolderIsInProgress(cfg, s, id); }
    case _ =>
  }

  lemma OpenIsOld(s: State, x: nat)
    requires TablesOk(s) && InProgress(s, x)
    ensures x < s.nextXid
  {
  }

  /** Only a fetch takes a lock. */
  lemma LocksOnlyByFetch(cfg: Config, s: State, e: Event, t: State, d: nat)
    requires Step(cfg, s, e, t) && d in t.dispatchers && IsHolder(t.dispatchers[d])
    requires !(e.Fetch? && e.id == d)
    ensures d in s.dispatchers && IsHolder(s.dispatchers[d])
    ensures t.dispatchers[d].group == s.dispatchers[d].group && t.dispatchers[d].xid == s.dispatchers[d].xid
  {
    hide IsBatch, IsXmin, CommittedRows, OwnedByDispatcher;
  }

  /** The lock a fetch takes was free, and its transaction is new. */
  lemma FetchTakesFreeLock(cfg: Config, s: State, e: Event, t: State, d: nat)
    requires Inv(cfg, s) && Step(cfg, s, e, t) && e.Fetch?
    requires d in s.dispatchers && IsHolder(s.dispatchers[d])
    ensures s.dispatchers[d].xid < s.nextXid && s.dispatchers[d].group != DispatcherOf(s, e.id).group
  {
    hide DispatchersOk, GroupsOk, IsBatch, IsXmin, CommittedRows, OwnedByDispatcher, TablesOk;
    HolderIsInProgress(cfg, s, d);
    OpenIsOld(s, s.dispatchers[d].xid);
    assert HoldsLock(s.dispatchers[d], s.dispatchers[d].group);
  }

  lemma StepKeepsOneHolder(cfg: Config, s: State, e: Event, t: State)
    requires Inv(cfg, s) && Step(cfg, s, e, t)
    ensures OneHolder(t)
  {
    forall c, d | c in t.dispatchers && d in t.dispatchers && c != d
                  && IsHolder(t.dispatchers[c]) && IsHolder(t.dispatchers[d])
      ensures t.dispatchers[c].group != t.dispatchers[d].group && t.dispatchers[c].xid != t.dispatchers[d].xid
    {
      hide DispatchersOk, GroupsOk, IsBatch, IsXmin, CommittedRows, OwnedByDispatcher, TablesOk, Step;
      if e.Fetch? && e.id == c {
        LocksOnlyByFetch(cfg, s, e, t, d);
        FetchTakesFreeLock(cfg, s, e, t, d);
        FetcherHolds(cfg, s, e, t);
      } else if e.Fetch? && e.id == d {
        LocksOnlyByFetch(cfg, s, e, t, c);
        FetchTakesFreeLock(cfg, s, e, t, c);
        FetcherHolds(cfg, s, e, t);
      } else {
        LocksOnlyByFetch(cfg, s, e, t, c);
        LocksOnlyByFetch(cfg, s, e, t, d);
      }
    }
  }

  lemma FetcherHolds(cfg: Config, s: State, e: Event, t: State)
    requires Step(cfg, s, e, t) && e.Fetch? && IsHolder(DispatcherOf(t, e.id))
    ensures DispatcherOf(t, e.id).group == DispatcherOf(s, e.id).group && DispatcherOf(t, e.id).xid == s.nextXid
  {
    hide IsBatch, Locked;
  }

  lemma SettledStays(s: State, t: State, xmin: nat)
    requires Extends(s, t) && TablesOk(s) && SettledBelow(s, xmin)
    ensures SettledBelow(t, xmin)
    ensures forall r: Row :: r.xid < xmin ==> (CommittedRow(s, r) <==> CommittedRow(t, r))
  {
  }

  lemma NextUpStays(cfg: Config, s: State, t: State, g: Group, xmin: nat, batch: seq<Row>)
    requires Extends(s, t) && TablesOk(s) && NextUp(cfg, s, g, xmin, batch)
    requires t.offsets[g] == s.offsets[g]
    ensures NextUp(cfg, t, g, xmin, batch)
  {
    SettledStays(s, t, xmin);
    var last := batch[|batch| - 1];
    assert last in batch;
  }

  lemma GroupStays(cfg: Config, s: State, t: State, g: Group)
    requires Extends(s, t) && TablesOk(s) && g in s.offsets && GroupOk(cfg, s, g)
    requires t.offsets[g] == s.offsets[g] && Log(t.acked, g) == Log(s.acked, g)
    ensures GroupOk(cfg, t, g)
  {
    SettledStays(s, t, s.offsets[g].xid + 1);
  }

  // ---- The steps that move a dispatcher ----

  lemma DispatcherStays(cfg: Config, s: State, t: State, d: Dispatcher)
    requires Extends(s, t) && TablesOk(s) && DispatcherOk(cfg, s, d)
    requires IsHolder(d) ==> d.group in s.offsets && d.group in t.offsets && t.offsets[d.group] == s.offsets[d.group] && InProgress(t, d.xid)
    ensures DispatcherOk(cfg, t, d)
  {
    match d
    case Idle =>
    case Waiting(g, xmin, seen) => SettledStays(s, t, xmin);
    case Holding(g, xmin, xid, batch, sent) => NextUpStays(cfg, s, t, g, xmin, batch);
    case Acked(g, xmin, xid, batch) => NextUpStays(cfg, s, t, g, xmin, batch);
  }

  lemma SnapshotIsOk(s: State, xmin: nat)
    requires TablesOk(s) && IsXmin(s, xmin)
    ensures SnapshotOk(s, xmin, CommittedRows(s))
  {
  }

  /** Even when the offset has moved since the snapshot, what is fetched is next for the group. */
  lemma FetchedIsNextUp(cfg: Config, s: State, g: Group, xmin: nat, seen: set<Row>, batch: seq<Row>)
    requires TablesOk(s) && SnapshotOk(s, xmin, seen) && g in s.offsets && batch != []
    requires IsBatch(cfg, g, s.offsets[g], xmin, seen, batch)
    ensures NextUp(cfg, s, g, xmin, batch)
  {
    var last := batch[|batch| - 1];
    assert last in batch;
  }

  lemma DeliveredOneMore(s: State, t: State, g: Group, batch: seq<Row>, sent: nat)
    requires sent < |batch| && Sent(s, g, batch[..sent])
    requires Log(t.delivered, g) == Log(s.delivered, g) + [batch[sent]]
    ensures Sent(t, g, batch[..sent + 1])
  {
    assert batch[..sent + 1] == batch[..sent] + [batch[sent]];
  }

  lemma SnapshotTakerIsOk(cfg: Config, s: State, id: nat, g: Group, xmin: nat, t: State)
    requires TablesOk(s) && Step(cfg, s, TakeSnapshot(id, g, xmin), t) && Extends(s, t)
    ensures DispatcherOk(cfg, t, t.dispatchers[id])
  {
    hide NextUp, SnapshotOk, Extends, Sent, TablesOk;
    SnapshotIsOk(s, xmin);
    DispatcherStays(cfg, s, t, t.dispatchers[id]);
  }

  lemma FetcherIsOk(cfg: Config, s: State, id: nat, batch: seq<Row>, t: State)
    requires TablesOk(s) && Step(cfg, s, Fetch(id, batch), t) && Extends(s, t)
    requires DispatcherOk(cfg, s, DispatcherOf(s, id))
    ensures DispatcherOk(cfg, t, t.dispatchers[id])
  {
    hide NextUp, SnapshotOk, Extends, Sent, IsBatch, TablesOk;
    var d := DispatcherOf(s, id);
    if batch != [] {
      FetchedIsNextUp(cfg, s, d.group, d.xmin, d.seen, batch);
      NextUpStays(cfg, s, t, d.group, d.xmin, batch);
      NothingSent(t, d.group, batch);
    }
  }

  lemma MovedDispatcherIsOk(cfg: Config, s: State, e: Event, t: State)
    requires Inv(cfg, s) && Step(cfg, s, e, t) && Extends(s, t)
    requires e.TakeSnapshot? || e.Fetch? || e.Deliver? || e.Ack? || e.CommitAck? || e.Crash?
    ensures DispatcherOk(cfg, t, DispatcherOf(t, e.id))
  {
    var d := DispatcherOf(s, e.id);
    assert DispatcherOk(cfg, s, d);
    hide NextUp, SnapshotOk, Extends, Sent, IsBatch, GroupsOk, TablesOk, OneHolder, DispatchersOk, IsXmin, CommittedRows;
    match e
    case TakeSnapshot(id, g, xmin) => SnapshotTakerIsOk(cfg, s, id, g, xmin, t);
    case Fetch(id, batch) => FetcherIsOk(cfg, s, id, batch, t);
    case Deliver(id) =>
      NextUpStays(cfg, s, t, d.group, d.xmin, d.batch);
      DeliveredOneMore(s, t, d.group, d.batch, d.sent);
    case Ack(id) =>
      assert d.batch[..d.sent] == d.batch;
      NextUpStays(cfg, s, t, d.group, d.xmin, d.batch);
      SentStays(s, t, d.group, d.batch);
    case CommitAck(id) =>
    case Crash(id) =>
  }

  lemma NothingSent(t: State, g: Group, batch: seq<Row>)
    ensures Sent(t, g, batch[..0])
  {
  }

  lemma SentStays(s: State, t: State, g: Group, batch: seq<Row>)
    requires Extends(s, t) && Sent(s, g, batch)
    ensures Sent(t, g, batch)
  {
  }

  predicate Moves(e: Event, d: nat) {
    (e.TakeSnapshot? || e.Fetch? || e.Deliver? || e.Ack? || e.CommitAck? || e.Crash?) && e.id == d
  }

  /** A step touches no dispatcher but the one it names. */
  lemma OtherDispatcherIsLeftAlone(cfg: Config, s: State, e: Event, t: State, d: nat)
    requires Step(cfg, s, e, t) && d in t.dispatchers && !Moves(e, d)
    ensures d in s.dispatchers && t.dispatchers[d] == s.dispatchers[d]
  {
    hide IsBatch, IsXmin, CommittedRows, OwnedByDispatcher;
  }

  /** A step leaves alone the lock and the transaction of any other dispatcher. */
  lemma OtherHolderIsLeftAlone(cfg: Config, s: State, e: Event, t: State, d: nat)
    requires Inv(cfg, s) && Step(cfg, s, e, t) && d in s.dispatchers && !Moves(e, d)
    requires IsHolder(s.dispatchers[d]) && s.dispatchers[d].group in s.offsets && InProgress(s, s.dispatchers[d].xid)
    ensures var h := s.dispatchers[d];
      h.group in t.offsets && t.offsets[h.group] == s.offsets[h.group] && InProgress(t, h.xid)
  {
    hide DispatchersOk, IsBatch, GroupsOk, IsXmin, CommittedRows, TablesOk;
    assert InProgress(t, s.dispatchers[d].xid) by {
      OpenIsOld(s, s.dispatchers[d].xid);
    }
  }

  lemma StepKeepsDispatchers(cfg: Config, s: State, e: Event, t: State)
    requires Inv(cfg, s) && Step(cfg, s, e, t) && Extends(s, t)
    ensures DispatchersOk(cfg, t)
  {
    forall d | d in t.dispatchers ensures DispatcherOk(cfg, t, t.dispatchers[d]) {
      hide DispatcherOk, GroupsOk, OneHolder, TablesOk, Extends, Step;
      if Moves(e, d) {
        MovedDispatcherIsOk(cfg, s, e, t);
      } else {
        OtherDispatcherIsLeftAlone(cfg, s, e, t, d);
        if IsHolder(s.dispatchers[d]) {
          HolderIsInProgress(cfg, s, d);
          OtherHolderIsLeftAlone(cfg, s, e, t, d);
        }
        DispatcherStays(cfg, s, t, t.dispatchers[d]);
      }
    }
  }

  // ---- The steps that move an offset ----

  lemma SortedJoin(a: seq<Row>, b: seq<Row>)
    requires Sorted(a) && Sorted(b)
    requires forall r, q :: r in a && q in b ==> RowLess(r, q)
    ensures Sorted(a + b)
  {
  }

  /** Acknowledging the batch keeps the log exact: nothing between the old offset and the new is missed. */
  lemma AckMovesExactly(cfg: Config, s: State, t: State, g: Group, xmin: nat, batch: seq<Row>)
    requires TablesOk(s) && Extends(s, t) && g in s.offsets && GroupOk(cfg, s, g)
    requires NextUp(cfg, s, g, xmin, batch) && Sent(s, g, batch)
    requires g in t.offsets && t.offsets[g] == OffsetAt(batch[|batch| - 1])
    requires Log(t.acked, g) == Log(s.acked, g) + batch
    ensures GroupOk(cfg, t, g)
  {
    var o, last := s.offsets[g], batch[|batch| - 1];
    assert last in batch;
    SettledStays(s, t, xmin);
    assert SettledBelow(t, last.xid + 1);
    SortedJoin(Log(s.acked, g), batch);
    forall r: Row
      ensures r in Log(t.acked, g) <==> CommittedRow(t, r) && cfg.matches(g, r.msg) && !After(r, OffsetAt(last))
    {
      if r in batch {
        var i :| 0 <= i < |batch| && batch[i] == r;
      }
    }
  }

  lemma OffsetLeftAlone(cfg: Config, s: State, e: Event, t: State, g: Group)
    requires Step(cfg, s, e, t) && g in s.offsets
    requires !(e.CommitAck? && s.dispatchers[e.id].group == g)
    ensures t.offsets[g] == s.offsets[g] && Log(t.acked, g) == Log(s.acked, g)
  {
    hide IsBatch, IsXmin, CommittedRows, OwnedByDispatcher;
  }

  lemma BatchAcknowledged(cfg: Config, s: State, id: nat, t: State)
    requires Inv(cfg, s) && Step(cfg, s, CommitAck(id), t) && Extends(s, t)
    ensures GroupOk(cfg, t, s.dispatchers[id].group)
  {
    var d := s.dispatchers[id];
    assert DispatcherOk(cfg, s, d);
    hide NextUp, Sent, GroupOk, TablesOk, Extends, OneHolder, DispatchersOk;
    HolderHasGroup(cfg, s, d);
    AckMovesExactly(cfg, s, t, d.group, d.xmin, d.batch);
  }

  lemma HolderHasGroup(cfg: Config, s: State, d: Dispatcher)
    requires DispatcherOk(cfg, s, d) && IsHolder(d)
    ensures d.group in s.offsets
  {
  }

  lemma StepKeepsGroups(cfg: Config, s: State, e: Event, t: State)
    requires Inv(cfg, s) && Step(cfg, s, e, t) && Extends(s, t)
    ensures GroupsOk(cfg, t)
  {
    hide GroupOk, TablesOk, Extends, OneHolder, IsBatch, IsXmin, CommittedRows, OwnedByDispatcher;
    forall g | g in t.offsets ensures GroupOk(cfg, t, g) {
      if g !in s.offsets {
        NewGroupIsOk(cfg, s, e, t, g);
      } else if e.CommitAck? && s.dispatchers[e.id].group == g {
        BatchAcknowledged(cfg, s, e.id, t);
      } else {
        OffsetLeftAlone(cfg, s, e, t, g);
        GroupStays(cfg, s, t, g);
      }
    }
    if e.CommitAck? {
      HolderIsInProgress(cfg, s, e.id);
    }
  }

  lemma NewGroupIsOk(cfg: Config, s: State, e: Event, t: State, g: Group)
    requires Inv(cfg, s) && Step(cfg, s, e, t) && g in t.offsets && g !in s.offsets
    ensures GroupOk(cfg, t, g)
  {
    assert Log(s.acked, g) == [];
    hide OneHolder, IsBatch, IsXmin, CommittedRows, GroupOk, GroupsOk, TablesOk, Sent, OwnedByDispatcher;
    if e.CommitAck? {
      HolderIsInProgress(cfg, s, e.id);
    }
    assert e.EnsureGroup? && t.offsets[g] == Offset(0, 0) && Log(t.acked, g) == [];
    assert t.txs == s.txs && t.nextXid == s.nextXid && t.rows == s.rows;
    FromTheBeginning(cfg, s, t, g);
  }

  /** Every row comes after the offset (0, 0). */
  lemma FromTheBeginning(cfg: Config, s: State, t: State, g: Group)
    requires TablesOk(s) && t.txs == s.txs && t.nextXid == s.nextXid && t.rows == s.rows
    requires g in t.offsets && t.offsets[g] == Offset(0, 0) && Log(t.acked, g) == []
    ensures GroupOk(cfg, t, g)
  {
  }

  lemma StepKeepsInv(cfg: Config, s: State, e: Event, t: State)
    requires Inv(cfg, s) && Step(cfg, s, e, t)
    ensures Inv(cfg, t) && Extends(s, t)
  {
    StepKeepsEnded(cfg, s, e, t);
    StepKeepsRowsAndLogs(cfg, s, e, t);
    StepKeepsTables(cfg, s, e, t);
    StepKeepsOneHolder(cfg, s, e, t);
    StepKeepsDispatchers(cfg, s, e, t);
    StepKeepsGroups(cfg, s, e, t);
  }
}
