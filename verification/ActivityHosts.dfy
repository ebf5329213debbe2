/**
 Activity hosts: the same saga driven by messages. Each message makes one host do or undo one item
 and names the address the slip is sent to next.
 */
module ActivityHosts {

  import opened Options
  import opened Sagas
  import opened SlipTraces
  import opened RoutingSlips

  datatype ActivityType = LeafType(name: string) | ParallelType | FallbackType

  /** The queue addresses of the leaf activities. */
  datatype Addresses = Addresses(work: string -> string, compensation: string -> string)

  function TypeOfItem(item: WorkItem): ActivityType {
    match item
    case Leaf(activity, _, _) => LeafType(activity)
    case Parallel(_) => ParallelType
    case Fallback(_) => FallbackType
  }

  function TypeOfLog(log: WorkLog): ActivityType {
    match log
    case LeafLog(activity, _) => LeafType(activity)
    case ParallelLog(_) => ParallelType
    case FallbackLog(_) => FallbackType
  }

  function WorkItemQueueAddress(a: Addresses, t: ActivityType): string {
    match t
    case LeafType(name) => a.work(name)
    case ParallelType => "sb://./parallel"
    case FallbackType => "sb://./fallback"
  }

  function CompensationQueueAddress(a: Addresses, t: ActivityType): string {
    match t
    case LeafType(name) => a.compensation(name)
    case ParallelType => "sb://./parallelCompensation"
    case FallbackType => "sb://./fallbackCompensation"
  }

  /** Where a slip goes next on the forward path. */
  function ProgressUri(a: Addresses, pending: Items): Option<string> {
    match pending
    case NoItems => None
    case Items(head, _) => Some(WorkItemQueueAddress(a, TypeOfItem(head)))
  }

  /** Where a slip goes next on the backward path. */
  function CompensationUri(a: Addresses, completed: Logs): Option<string> {
    match completed
    case NoLogs => None
    case Logs(head, _) => Some(CompensationQueueAddress(a, TypeOfLog(head)))
  }

  /** An empty address counts as none. */
  function Truthy(uri: Option<string>): Option<string> {
    if uri.Some? && uri.value == "" then None else uri
  }

  lemma LogKeepsType(item: WorkItem)
    requires Outcome(item).Some?
    ensures TypeOfLog(Outcome(item).value) == TypeOfItem(item)
  {
  }

  // ---- One message ----

  datatype SlipState = SlipState(pending: Items, completed: Logs, journal: seq<SlipEvent>)

  function StateOf(slip: RoutingSlip): SlipState
    reads slip
  {
    SlipState(slip.pending, slip.completed, slip.journal)
  }

  /** One item was worked on; the slip goes onward, or back if the work failed. */
  ghost predicate MovedForward(a: Addresses, s: SlipState, t: SlipState, sent: Option<string>) {
    if s.pending == NoItems then
      t == s && sent == None
    else if Outcome(s.pending.head).Some? then
      && t == SlipState(s.pending.tail, Logs(Outcome(s.pending.head).value, s.completed), s.journal + [Worked(s.pending.head, true)])
      && sent == Truthy(ProgressUri(a, t.pending))
    else
      && t == SlipState(s.pending.tail, s.completed, s.journal + [Worked(s.pending.head, false)])
      && sent == Truthy(CompensationUri(a, t.completed))
  }

  /** One log was compensated; the slip goes further back. */
  ghost predicate MovedBackward(a: Addresses, s: SlipState, t: SlipState, sent: Option<string>) {
    if s.completed == NoLogs then
      t == s && sent == None
    else
      && t == SlipState(s.pending, s.completed.tail, s.journal + [Compensated(s.completed.head)])
      && sent == Truthy(CompensationUri(a, t.completed))
  }

  /**
   What the leaf activities did meanwhile: the deeds behind the events that were added, so that
   exactly the effects of the slip's logs are outstanding if they were before.
   */
  ghost predicate Traced(s: SlipState, t: SlipState, before: seq<Deed>, after: seq<Deed>) {
    && s.journal <= t.journal
    && after == before + JournalTrace(t.journal[|s.journal|..])
    && Leaves(before, after, EffectsOfLogs(s.completed), EffectsOfLogs(t.completed))
  }

  lemma TracedNothing(s: SlipState, trace: seq<Deed>)
    ensures Traced(s, s, trace, trace)
  {
    assert s.journal[|s.journal|..] == [] && trace[|trace|..] == [];
  }

  lemma TracedOne(s: SlipState, t: SlipState, event: SlipEvent, before: seq<Deed>)
    requires t.journal == s.journal + [event]
    requires Leaves(before, before + EventTrace(event), EffectsOfLogs(s.completed), EffectsOfLogs(t.completed))
    ensures Traced(s, t, before, before + EventTrace(event))
  {
    assert t.journal[|s.journal|..] == [event];
    OneEventTrace(event);
  }

  lemma TracedBoth(s: SlipState, t: SlipState, u: SlipState, a: seq<Deed>, b: seq<Deed>, c: seq<Deed>)
    requires Traced(s, t, a, b) && Traced(t, u, b, c)
    ensures Traced(s, u, a, c)
  {
    hide Leaves, JournalTrace, EffectsOfLogs;
    var first, second := t.journal[|s.journal|..], u.journal[|t.journal|..];
    assert u.journal == s.journal + (first + second);
    JournalTraceAdds(first, second);
    assert c == a + (JournalTrace(first) + JournalTrace(second));
    LeavesBoth(a, b, c, EffectsOfLogs(s.completed), EffectsOfLogs(t.completed), EffectsOfLogs(u.completed));
  }

  /** No leaf activity did anything new. */
  ghost predicate DidNothing(before: seq<Deed>, after: seq<Deed>) {
    before <= after && DidIn(after[|before|..]) == multiset{}
  }

  class ActivityHost {
    const addresses: Addresses
    const activityType: ActivityType

    constructor (addresses: Addresses, activityType: ActivityType)
      ensures this.addresses == addresses && this.activityType == activityType
    {
      this.addresses := addresses;
      this.activityType := activityType;
    }

    method ProcessForwardMessage(world: World, slip: RoutingSlip) returns (sent: Option<string>)
      modifies slip, world
      ensures MovedForward(addresses, old(StateOf(slip)), StateOf(slip), sent)
      ensures Traced(old(StateOf(slip)), StateOf(slip), old(world.trace), world.trace)
    {
      sent := None;
      TracedNothing(StateOf(slip), world.trace);
      if !slip.IsCompleted() {
        ghost var before, item := StateOf(slip), slip.pending.head;
        var done := slip.ProcessNext(world);
        TracedOne(before, StateOf(slip), Worked(item, done == Yes), old(world.trace));
        if done == Yes {
          sent := Truthy(ProgressUri(addresses, slip.pending));
        } else {
          sent := Truthy(CompensationUri(addresses, slip.completed));
        }
      }
    }

    /** If a compensation had added work, the slip would go onward again. */
    method ProcessBackwardMessage(world: World, slip: RoutingSlip) returns (sent: Option<string>)
      modifies slip, world
      ensures MovedBackward(addresses, old(StateOf(slip)), StateOf(slip), sent)
      ensures Traced(old(StateOf(slip)), StateOf(slip), old(world.trace), world.trace)
      ensures DidNothing(old(world.trace), world.trace)
    {
      sent := None;
      TracedNothing(StateOf(slip), world.trace);
      if slip.IsInProgress() {
        ghost var before, log := StateOf(slip), slip.completed.head;
        var continues := slip.UndoLast(world);
        TracedOne(before, StateOf(slip), Compensated(log), old(world.trace));
        var back, onward := CompensationUri(addresses, slip.completed), ProgressUri(addresses, slip.pending);
        sent := Truthy(if continues == Yes then back else onward);
      }
    }

    /** Take the message if it is addressed to one of this host's two queues. */
    method AcceptMessage(uri: string, world: World, slip: RoutingSlip) returns (accepted: bool, sent: Option<string>)
      modifies slip, world
      ensures accepted <==>
        uri == CompensationQueueAddress(addresses, activityType) || uri == WorkItemQueueAddress(addresses, activityType)
      ensures !accepted ==> sent == None && unchanged(slip) && unchanged(world)
      ensures uri == CompensationQueueAddress(addresses, activityType) ==>
        MovedBackward(addresses, old(StateOf(slip)), StateOf(slip), sent)
      ensures accepted && uri != CompensationQueueAddress(addresses, activityType) ==>
        MovedForward(addresses, old(StateOf(slip)), StateOf(slip), sent)
      ensures Traced(old(StateOf(slip)), StateOf(slip), old(world.trace), world.trace)
      ensures uri == CompensationQueueAddress(addresses, activityType) ==> DidNothing(old(world.trace), world.trace)
    {
      if CompensationQueueAddress(addresses, activityType) == uri {
        sent := ProcessBackwardMessage(world, slip);
        return true, sent;
      }
      if WorkItemQueueAddress(addresses, activityType) == uri {
        sent := ProcessForwardMessage(world, slip);
        return true, sent;
      }
      TracedNothing(StateOf(slip), world.trace);
      return false, None;
    }
  }

  // ---- The hosts together ----

  ghost predicate Deployed(a: Addresses, hosts: seq<ActivityHost>, types: seq<ActivityType>) {
    |types| == |hosts| && forall i :: 0 <= i < |hosts| ==> hosts[i].addresses == a && hosts[i].activityType == types[i]
  }

  /** What becomes of a message: the first host with a matching queue takes it, as compensation first. */
  datatype Route = Lost | AsWork | AsCompensation

  function RouteOf(a: Addresses, types: seq<ActivityType>, uri: string): Route {
    if types == [] then Lost
    else if CompensationQueueAddress(a, types[0]) == uri then AsCompensation
    else if WorkItemQueueAddress(a, types[0]) == uri then AsWork
    else RouteOf(a, types[1..], uri)
  }

  ghost predicate Moved(a: Addresses, types: seq<ActivityType>, uri: string, s: SlipState, t: SlipState, sent: Option<string>) {
    match RouteOf(a, types, uri)
    case Lost => sent == None && t == s
    case AsWork => MovedForward(a, s, t, sent)
    case AsCompensation => MovedBackward(a, s, t, sent)
  }

  /** Offer a message to one host after the other until one takes it. */
  method Deliver(a: Addresses, hosts: seq<ActivityHost>, ghost types: seq<ActivityType>,
                 uri: string, world: World, slip: RoutingSlip) returns (sent: Option<string>)
    requires Deployed(a, hosts, types)
    modifies slip, world
    ensures Moved(a, types, uri, old(StateOf(slip)), StateOf(slip), sent)
    ensures Traced(old(StateOf(slip)), StateOf(slip), old(world.trace), world.trace)
    ensures RouteOf(a, types, uri) == AsCompensation ==> DidNothing(old(world.trace), world.trace)
  {
    hide MovedForward, MovedBackward, Traced, DidNothing;
    TracedNothing(StateOf(slip), world.trace);
    var i := 0;
    while i < |hosts|
      invariant 0 <= i <= |hosts| && RouteOf(a, types, uri) == RouteOf(a, types[i..], uri)
      invariant unchanged(slip) && unchanged(world)
    {
      var accepted, next := hosts[i].AcceptMessage(uri, world, slip);
      if accepted {
        return next;
      }
      assert types[i..][1..] == types[i + 1..];
      i := i + 1;
    }
    sent := None;
  }

  function ItemCount(items: Items): nat {
    match items
    case NoItems => 0
    case Items(_, tail) => 1 + ItemCount(tail)
  }

  function LogCount(logs: Logs): nat {
    match logs
    case NoLogs => 0
    case Logs(_, tail) => 1 + LogCount(tail)
  }

  /** The events of the hosts, for any deployment, from the next message on. */
  function HostJournal(a: Addresses, types: seq<ActivityType>, message: Option<string>, pending: Items, completed: Logs)
      : seq<SlipEvent>
    decreases 2 * ItemCount(pending) + LogCount(completed)
  {
    if message.None? then []
    else
      match RouteOf(a, types, message.value)
      case Lost => []
      case AsWork =>
        (match pending
         case NoItems => []
         case Items(head, tail) =>
           if Outcome(head).Some? then
             var logs := Logs(Outcome(head).value, completed);
             [Worked(head, true)] + HostJournal(a, types, Truthy(ProgressUri(a, tail)), tail, logs)
           else
             [Worked(head, false)] + HostJournal(a, types, Truthy(CompensationUri(a, completed)), tail, completed))
      case AsCompensation =>
        (match completed
         case NoLogs => []
         case Logs(head, tail) =>
           [Compensated(head)] + HostJournal(a, types, Truthy(CompensationUri(a, tail)), pending, tail))
  }

  /** Send the slip on its way and deliver messages until none is left. */
  method RunHosts(a: Addresses, hosts: seq<ActivityHost>, ghost types: seq<ActivityType>, world: World, slip: RoutingSlip)
    requires Deployed(a, hosts, types)
    modifies slip, world
    ensures slip.journal == old(slip.journal) +
      HostJournal(a, types, Truthy(ProgressUri(a, old(slip.pending))), old(slip.pending), old(slip.completed))
    ensures Routed(a, types, old(slip.pending), old(slip.completed)) ==>
      && slip.journal == old(slip.journal) + DirectJournal(old(slip.pending), old(slip.completed))
      && match OutcomeOfItems(old(slip.pending), old(slip.completed)) {
           case Some(logs) => slip.pending == NoItems && slip.completed == logs
           case None => slip.completed == NoLogs
         }
    ensures world.trace == old(world.trace) +
      JournalTrace(HostJournal(a, types, Truthy(ProgressUri(a, old(slip.pending))), old(slip.pending), old(slip.completed)))
    ensures Leaves(old(world.trace), world.trace, EffectsOfLogs(old(slip.completed)), EffectsOfLogs(slip.completed))
  {
    var message := Truthy(ProgressUri(a, slip.pending));
    TracedNothing(StateOf(slip), world.trace);
    ghost var start := StateOf(slip);
    ghost var forward := true;
    HostsMatchExactly(a, types, slip.pending, slip.completed);
    hide HostJournal, OnTrack, Moved, ItemCount, LogCount, Traced;
    if Routed(a, types, start.pending, start.completed) {
      StartsOnTrack(a, types, start);
    }
    while message.Some?
      invariant slip.journal + HostJournal(a, types, message, slip.pending, slip.completed)
             == start.journal + HostJournal(a, types, Truthy(ProgressUri(a, start.pending)), start.pending, start.completed)
      invariant Routed(a, types, start.pending, start.completed) ==>
        OnTrack(a, types, message, start, StateOf(slip), forward)
      invariant Traced(start, StateOf(slip), old(world.trace), world.trace)
      decreases 2 * ItemCount(slip.pending) + LogCount(slip.completed), message.Some?
    {
      ghost var before, trace := StateOf(slip), world.trace;
      var uri := message.value;
      ghost var onward := forward;
      message := Deliver(a, hosts, types, uri, world, slip);
      forward := onward && before.pending.Items? && Outcome(before.pending.head).Some?;
      TracedBoth(start, before, StateOf(slip), old(world.trace), trace, world.trace);
      MessageWritesJournal(a, types, uri, before, StateOf(slip), message);
      if Routed(a, types, start.pending, start.completed) {
        MessageKeepsTrack(a, types, uri, start, before, StateOf(slip), message, onward);
      }
    }
    NoMessageLeft(a, types, start, StateOf(slip), forward);
    TracedMeans(start, StateOf(slip), old(world.trace), world.trace,
                HostJournal(a, types, Truthy(ProgressUri(a, start.pending)), start.pending, start.completed));
  }

  lemma TracedMeans(s: SlipState, t: SlipState, before: seq<Deed>, after: seq<Deed>, events: seq<SlipEvent>)
    requires Traced(s, t, before, after) && t.journal == s.journal + events
    ensures after == before + JournalTrace(events)
    ensures Leaves(before, after, EffectsOfLogs(s.completed), EffectsOfLogs(t.completed))
  {
    assert t.journal[|s.journal|..] == events;
  }

  /** Where a well routed slip stands between two messages. */
  ghost predicate OnTrack(a: Addresses, types: seq<ActivityType>, message: Option<string>,
                          start: SlipState, s: SlipState, forward: bool) {
    if forward then
      && message == Truthy(ProgressUri(a, s.pending)) && Routed(a, types, s.pending, s.completed)
      && OutcomeOfItems(s.pending, s.completed) == OutcomeOfItems(start.pending, start.completed)
    else
      && message == Truthy(CompensationUri(a, s.completed)) && AllRoutedBack(a, types, s.completed)
      && OutcomeOfItems(start.pending, start.completed) == None
  }

  lemma StartsOnTrack(a: Addresses, types: seq<ActivityType>, start: SlipState)
    requires Routed(a, types, start.pending, start.completed)
    ensures OnTrack(a, types, Truthy(ProgressUri(a, start.pending)), start, start, true)
  {
  }

  // One message, on the journal and on the measure.
  lemma MessageWritesJournal(a: Addresses, types: seq<ActivityType>, uri: string, s: SlipState, t: SlipState, sent: Option<string>)
    requires Moved(a, types, uri, s, t, sent)
    ensures t.journal + HostJournal(a, types, sent, t.pending, t.completed)
         == s.journal + HostJournal(a, types, Some(uri), s.pending, s.completed)
    ensures 2 * ItemCount(t.pending) + LogCount(t.completed) < 2 * ItemCount(s.pending) + LogCount(s.completed)
         || (t == s && sent == None)
  {
    hide Truthy, ProgressUri, CompensationUri, RouteOf, Outcome;
    var next := HostJournal(a, types, sent, t.pending, t.completed);
    match RouteOf(a, types, uri)
    case Lost =>
    case AsWork =>
      if s.pending.Items? {
        assert t.journal + next == s.journal + ([Worked(s.pending.head, Outcome(s.pending.head).Some?)] + next);
      }
    case AsCompensation =>
      if s.completed.Logs? {
        assert t.journal + next == s.journal + ([Compensated(s.completed.head)] + next);
      }
  }

  lemma MessageKeepsTrack(a: Addresses, types: seq<ActivityType>, uri: string, start: SlipState,
                          s: SlipState, t: SlipState, sent: Option<string>, forward: bool)
    requires Moved(a, types, uri, s, t, sent) && OnTrack(a, types, Some(uri), start, s, forward)
    ensures OnTrack(a, types, sent, start, t, forward && s.pending.Items? && Outcome(s.pending.head).Some?)
  {
  }

  lemma NoMessageLeft(a: Addresses, types: seq<ActivityType>, start: SlipState, s: SlipState, forward: bool)
    ensures HostJournal(a, types, None, s.pending, s.completed) == []
    ensures OnTrack(a, types, None, start, s, forward) ==>
      match OutcomeOfItems(start.pending, start.completed)
      case Some(logs) => s.pending == NoItems && s.completed == logs
      case None => s.completed == NoLogs
  {
  }

  // ---- When the hosts do what the direct loop does ----

  /** The activity's work queue has an address, and a message to it is taken as work. */
  predicate RoutedOnward(a: Addresses, types: seq<ActivityType>, t: ActivityType) {
    var uri := WorkItemQueueAddress(a, t);
    uri != "" && RouteOf(a, types, uri) == AsWork
  }

  predicate RoutedBack(a: Addresses, types: seq<ActivityType>, t: ActivityType) {
    var uri := CompensationQueueAddress(a, t);
    uri != "" && RouteOf(a, types, uri) == AsCompensation
  }

  predicate AllRoutedBack(a: Addresses, types: seq<ActivityType>, logs: Logs) {
    match logs
    case NoLogs => true
    case Logs(head, tail) => RoutedBack(a, types, TypeOfLog(head)) && AllRoutedBack(a, types, tail)
  }

  /** Each item up to the first failure is routed onward; after a failure, each log is routed back. */
  predicate Routed(a: Addresses, types: seq<ActivityType>, pending: Items, completed: Logs) {
    match pending
    case NoItems => true
    case Items(head, tail) =>
      && RoutedOnward(a, types, TypeOfItem(head))
      && (if Outcome(head).Some? then Routed(a, types, tail, Logs(Outcome(head).value, completed))
          else AllRoutedBack(a, types, completed))
  }

  lemma {:induction false} BackExactly(a: Addresses, types: seq<ActivityType>, pending: Items, completed: Logs)
    ensures HostJournal(a, types, Truthy(CompensationUri(a, completed)), pending, completed) == UnwindJournal(completed)
      <==> AllRoutedBack(a, types, completed)
    decreases completed
  {
    match completed
    case NoLogs =>
    case Logs(head, tail) =>
      BackExactly(a, types, pending, tail);
      var journal := HostJournal(a, types, Truthy(CompensationUri(a, completed)), pending, completed);
      assert UnwindJournal(completed)[0] == Compensated(head);
      if RoutedBack(a, types, TypeOfLog(head)) {
        assert journal[1..] == HostJournal(a, types, Truthy(CompensationUri(a, tail)), pending, tail);
        assert UnwindJournal(completed)[1..] == UnwindJournal(tail);
      } else {
        assert journal == [] || journal[0].Worked?;
      }
  }

  /**
   For every deployment, the message-passing hosts perform exactly the do and undo sequence of the
   direct loop if and only if the messages of that sequence are routed the right way.
   */
  lemma {:induction false} HostsMatchExactly(a: Addresses, types: seq<ActivityType>, pending: Items, completed: Logs)
    ensures HostJournal(a, types, Truthy(ProgressUri(a, pending)), pending, completed) == DirectJournal(pending, completed)
      <==> Routed(a, types, pending, completed)
    decreases pending
  {
    match pending
    case NoItems =>
    case Items(head, tail) =>
      var journal := HostJournal(a, types, Truthy(ProgressUri(a, pending)), pending, completed);
      var direct := DirectJournal(pending, completed);
      assert direct[0] == Worked(head, Outcome(head).Some?);
      if RoutedOnward(a, types, TypeOfItem(head)) {
        if Outcome(head).Some? {
          var logs := Logs(Outcome(head).value, completed);
          HostsMatchExactly(a, types, tail, logs);
          assert journal[1..] == HostJournal(a, types, Truthy(ProgressUri(a, tail)), tail, logs);
          assert direct[1..] == DirectJournal(tail, logs);
        } else {
          BackExactly(a, types, tail, completed);
          assert journal[1..] == HostJournal(a, types, Truthy(CompensationUri(a, completed)), tail, completed);
          assert direct[1..] == UnwindJournal(completed);
        }
      } else {
        assert journal == [] || journal[0].Compensated?;
      }
  }

  /** No work address is a compensation address, none is empty, and each activity has a host. */
  ghost predicate Separate(a: Addresses, types: seq<ActivityType>) {
    && (forall s, t :: s in types && t in types ==> WorkItemQueueAddress(a, s) != CompensationQueueAddress(a, t))
    && (forall t :: t in types ==> WorkItemQueueAddress(a, t) != "" && CompensationQueueAddress(a, t) != "")
  }

  lemma {:induction false} SeparateQueuesRoute(a: Addresses, types: seq<ActivityType>, all: seq<ActivityType>, t: ActivityType)
    requires Separate(a, all) && t in types && (forall s :: s in types ==> s in all)
    ensures RoutedOnward(a, types, t) && RoutedBack(a, types, t)
  {
    if t != types[0] {
      assert t in types[1..];
    }
    if t in types[1..] {
      SeparateQueuesRoute(a, types[1..], all, t);
    }
  }

  ghost predicate Hosted(types: seq<ActivityType>, pending: Items, completed: Logs) {
    match pending
    case NoItems => LogsHosted(types, completed)
    case Items(head, tail) => TypeOfItem(head) in types && Hosted(types, tail, completed)
  }

  ghost predicate LogsHosted(types: seq<ActivityType>, logs: Logs) {
    match logs
    case NoLogs => true
    case Logs(head, tail) => TypeOfLog(head) in types && LogsHosted(types, tail)
  }

  /** Queues kept apart, with a host for each activity, route every slip. */
  lemma {:induction false} SeparateQueuesRouteAll(a: Addresses, types: seq<ActivityType>, pending: Items, completed: Logs)
    requires Separate(a, types) && Hosted(types, pending, completed)
    ensures Routed(a, types, pending, completed) && LogsHosted(types, completed)
    decreases pending
  {
    match pending
    case NoItems =>
    case Items(head, tail) =>
      SeparateQueuesRouteAll(a, types, tail, completed);
      SeparateQueuesRoute(a, types, types, TypeOfItem(head));
      SeparateLogsRoute(a, types, completed);
      if Outcome(head).Some? {
        LogKeepsType(head);
        HostedOneMore(types, tail, completed, Outcome(head).value);
        SeparateQueuesRouteAll(a, types, tail, Logs(Outcome(head).value, completed));
      }
  }

  lemma {:induction false} HostedOneMore(types: seq<ActivityType>, pending: Items, completed: Logs, log: WorkLog)
    requires Hosted(types, pending, completed) && TypeOfLog(log) in types
    ensures Hosted(types, pending, Logs(log, completed))
  {
    if pending.Items? {
      HostedOneMore(types, pending.tail, completed, log);
    }
  }

  lemma {:induction false} SeparateLogsRoute(a: Addresses, types: seq<ActivityType>, logs: Logs)
    requires Separate(a, types) && LogsHosted(types, logs)
    ensures AllRoutedBack(a, types, logs)
  {
    if logs.Logs? {
      SeparateQueuesRoute(a, types, types, TypeOfLog(logs.head));
      SeparateLogsRoute(a, types, logs.tail);
    }
  }

  /** The loop the documentation shows: forward, and on a failure back down the stack. */
  method RunDirectly(world: World, slip: RoutingSlip)
    requires slip.completed == NoLogs
    modifies slip, world
    ensures slip.journal == old(slip.journal) + DirectJournal(old(slip.pending), NoLogs)
    ensures slip.completed == Remaining(old(slip.pending))
    ensures OutcomeOfItems(old(slip.pending), NoLogs).Some? ==> slip.pending == NoItems
    ensures world.trace == old(world.trace) + JournalTrace(DirectJournal(old(slip.pending), NoLogs))
    ensures Leaves(old(world.trace), world.trace, multiset{}, EffectsOfLogs(slip.completed))
  {
    DirectJournalTrace(slip.pending, NoLogs);
    var _ := ExecuteBranch(world, slip);
  }
}
