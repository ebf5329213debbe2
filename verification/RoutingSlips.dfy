/**
 Routing slips and the activities that nest them, as objects and loops. The branches of a parallel
 activity run here one after the other; SagaMachine interleaves them.
 */
module RoutingSlips {

  import opened Options
  import opened Sagas
  import opened SlipTraces

  /** What all leaf activities together have done and undone so far, in order. */
  class World {
    var trace: seq<Deed>

    constructor ()
      ensures trace == []
    {
      trace := [];
    }
  }

  // ---- Sizes, for termination ----

  function Size(item: WorkItem): nat {
    match item
    case Leaf(_, _, _) => 1
    case Parallel(branches) => 1 + SizeOfSlips(branches)
    case Fallback(alternatives) => 1 + SizeOfSlips(alternatives)
  }

  function SizeOfItems(items: Items): nat {
    match items
    case NoItems => 0
    case Items(head, tail) => 1 + Size(head) + SizeOfItems(tail)
  }

  function SizeOfSlips(slips: Slips): nat {
    match slips
    case NoSlips => 0
    case Slips(head, tail) => 1 + SizeOfItems(head) + SizeOfSlips(tail)
  }

  function LogSize(log: WorkLog): nat {
    match log
    case LeafLog(_, _) => 1
    case ParallelLog(branches) => 1 + LogSizeOfStacks(branches)
    case FallbackLog(succeeded) => 1 + LogSizeOfLogs(succeeded)
  }

  function LogSizeOfLogs(logs: Logs): nat {
    match logs
    case NoLogs => 0
    case Logs(head, tail) => 1 + LogSize(head) + LogSizeOfLogs(tail)
  }

  function LogSizeOfStacks(stacks: Stacks): nat {
    match stacks
    case NoStacks => 0
    case Stacks(head, tail) => 1 + LogSizeOfLogs(head) + LogSizeOfStacks(tail)
  }

  // ---- Branches ----

  function Joined(a: Stacks, b: Stacks): Stacks {
    match a
    case NoStacks => b
    case Stacks(head, tail) => Stacks(head, Joined(tail, b))
  }

  lemma JoinOne(a: Stacks, logs: Logs, b: Stacks)
    ensures Joined(Joined(a, Stacks(logs, NoStacks)), b) == Joined(a, Stacks(logs, b))
  {
  }

  ghost predicate AllTrue(results: seq<bool>) {
    forall i :: 0 <= i < |results| ==> results[i]
  }

  lemma OneMoreResult(results: seq<bool>, ok: bool)
    ensures AllTrue(results + [ok]) <==> AllTrue(results) && ok
  {
    var more := results + [ok];
    assert more[|results|] == ok && forall i :: 0 <= i < |results| ==> more[i] == results[i];
  }

  lemma JoinNone(a: Stacks)
    ensures Joined(a, NoStacks) == a
  {
  }

  /** `InvalidOperation` stands for the exception. */
  datatype Answer = Yes | No | InvalidOperation

  /** What a slip has been through, in order. */
  datatype SlipEvent = Worked(item: WorkItem, ok: bool) | Compensated(log: WorkLog)

  class RoutingSlip {
    var pending: Items
    var completed: Logs
    var journal: seq<SlipEvent>

    constructor (items: Items)
      ensures pending == items && completed == NoLogs && journal == []
    {
      pending := items;
      completed := NoLogs;
      journal := [];
    }

    /** A slip as it comes back out of a work log. */
    constructor Resume(logs: Logs)
      ensures pending == NoItems && completed == logs && journal == []
    {
      pending := NoItems;
      completed := logs;
      journal := [];
    }

    predicate IsCompleted()
      reads this
    {
      pending == NoItems
    }

    predicate IsInProgress()
      reads this
    {
      completed != NoLogs
    }

    /** Take the next item off the queue and do its work; log it if it succeeds. */
    method ProcessNext(world: World) returns (r: Answer)
      modifies this, world
      ensures old(pending) == NoItems ==>
        r == InvalidOperation && unchanged(this) && unchanged(world)
      ensures old(pending) != NoItems ==>
        && pending == old(pending).tail
        && var outcome := Outcome(old(pending).head);
          && journal == old(journal) + [Worked(old(pending).head, outcome.Some?)]
          && r == (if outcome.Some? then Yes else No)
          && completed == (if outcome.Some? then Logs(outcome.value, old(completed)) else old(completed))
          && world.trace == old(world.trace) + WorkTrace(old(pending).head)
      ensures Leaves(old(world.trace), world.trace, EffectsOfLogs(old(completed)), EffectsOfLogs(completed))
      decreases SizeOfItems(pending), 0
    {
      ghost var was := EffectsOfLogs(completed);
      if IsCompleted() {
        NothingLeaves(world.trace, was);
        return InvalidOperation;
      }
      var item := pending.head;
      pending := pending.tail;
      var result := DoWork(world, item);
      WorkLeaves(old(world.trace), item, was);
      journal := journal + [Worked(item, result.Some?)];
      if result.Some? {
        completed := Logs(result.value, completed);
        return Yes;
      }
      r := No;
    }

    /** Take the last log off the stack and compensate it. */
    method UndoLast(world: World) returns (r: Answer)
      modifies this, world
      ensures old(completed) == NoLogs ==>
        r == InvalidOperation && unchanged(this) && unchanged(world)
      ensures old(completed) != NoLogs ==>
        && r == Yes && pending == old(pending) && completed == old(completed).tail
        && journal == old(journal) + [Compensated(old(completed).head)]
        && world.trace == old(world.trace) + UndoTrace(old(completed).head)
        && Undoes(old(world.trace), world.trace, Effects(old(completed).head))
      ensures Leaves(old(world.trace), world.trace, EffectsOfLogs(old(completed)), EffectsOfLogs(completed))
      decreases LogSizeOfLogs(completed), 0
    {
      if !IsInProgress() {
        NothingLeaves(world.trace, multiset{});
        return InvalidOperation;
      }
      var log := completed.head;
      completed := completed.tail;
      var continues := Compensate(world, log);
      UndoLeaves(old(world.trace), log, EffectsOfLogs(completed));
      journal := journal + [Compensated(log)];
      r := if continues then Yes else No;
    }
  }

  lemma NothingLeaves(trace: seq<Deed>, was: multiset<int>)
    ensures Leaves(trace, trace, was, was)
  {
    assert trace[|trace|..] == [];
  }

  lemma WorkLeaves(before: seq<Deed>, item: WorkItem, was: multiset<int>)
    ensures Leaves(before, before + WorkTrace(item), was, EffectsLeft(Outcome(item)) + was)
  {
    WorkTraceBalances(item);
    BalancesBeside(WorkTrace(item), multiset{}, EffectsLeft(Outcome(item)), was);
    assert multiset{} + was == was;
    PieceLeaves(before, WorkTrace(item), was, EffectsLeft(Outcome(item)) + was);
  }

  lemma UndoLeaves(before: seq<Deed>, log: WorkLog, below: multiset<int>)
    ensures Undoes(before, before + UndoTrace(log), Effects(log))
    ensures Leaves(before, before + UndoTrace(log), Effects(log) + below, below)
  {
    UndoTraceMeans(log);
    PieceUndoes(before, UndoTrace(log));
    assert (before + UndoTrace(log))[|before|..] == UndoTrace(log);
  }

  // ---- Activities ----

  method DoWork(world: World, item: WorkItem) returns (result: Option<WorkLog>)
    modifies world
    ensures result == Outcome(item)
    ensures world.trace == old(world.trace) + WorkTrace(item)
    decreases Size(item), 1
  {
    match item
    case Leaf(activity, id, ok) =>
      if ok {
        world.trace := world.trace + [Did(id)];
        result := Some(LeafLog(activity, id));
      } else {
        result := None;
      }
    case Parallel(branches) =>
      result := ParallelDoWork(world, branches);
    case Fallback(alternatives) =>
      result := FallbackDoWork(world, alternatives);
  }

  method Compensate(world: World, log: WorkLog) returns (continues: bool)
    modifies world
    ensures continues && world.trace == old(world.trace) + UndoTrace(log)
    decreases LogSize(log), 1
  {
    continues := true;
    match log
    case LeafLog(_, id) =>
      world.trace := world.trace + [Undid(id)];
    case ParallelLog(branches) =>
      CompensateBranches(world, branches);
    case FallbackLog(succeeded) =>
      CompensateAlternative(world, succeeded);
  }

  /** Unwind the alternative that succeeded. */
  method CompensateAlternative(world: World, succeeded: Logs)
    modifies world
    ensures world.trace == old(world.trace) + UndoTraceOfLogs(succeeded)
    ensures Undoes(old(world.trace), world.trace, EffectsOfLogs(succeeded))
    decreases LogSizeOfLogs(succeeded), 2
  {
    var slip := new RoutingSlip.Resume(succeeded);
    Unwind(world, slip);
  }

  /** Undo a slip's logs, last first, until none is left. */
  method Unwind(world: World, slip: RoutingSlip)
    modifies slip, world
    ensures slip.completed == NoLogs && slip.pending == old(slip.pending)
    ensures world.trace == old(world.trace) + UndoTraceOfLogs(old(slip.completed))
    ensures Undoes(old(world.trace), world.trace, EffectsOfLogs(old(slip.completed)))
    ensures slip.journal == old(slip.journal) + UnwindJournal(old(slip.completed))
    decreases LogSizeOfLogs(slip.completed), 1
  {
    while slip.IsInProgress()
      invariant LogSizeOfLogs(slip.completed) <= LogSizeOfLogs(old(slip.completed))
      invariant slip.pending == old(slip.pending)
      invariant world.trace + UndoTraceOfLogs(slip.completed) == old(world.trace) + UndoTraceOfLogs(old(slip.completed))
      invariant slip.journal + UnwindJournal(slip.completed) == old(slip.journal) + UnwindJournal(old(slip.completed))
      decreases LogSizeOfLogs(slip.completed)
    {
      var _ := slip.UndoLast(world);
    }
    UndoLogsMeans(old(slip.completed));
    PieceUndoes(old(world.trace), UndoTraceOfLogs(old(slip.completed)));
  }

  function UnwindJournal(logs: Logs): seq<SlipEvent> {
    match logs
    case NoLogs => []
    case Logs(head, tail) => [Compensated(head)] + UnwindJournal(tail)
  }

  /** Drive a slip forward; when an item fails, unwind it and give up. */
  method ExecuteBranch(world: World, slip: RoutingSlip) returns (ok: bool)
    modifies slip, world
    ensures ok == OutcomeOfItems(old(slip.pending), old(slip.completed)).Some?
    ensures ok ==> slip.pending == NoItems
    ensures slip.completed == Left(old(slip.pending), old(slip.completed))
    ensures world.trace == old(world.trace) + TraceOfItems(old(slip.pending), old(slip.completed))
    ensures Leaves(old(world.trace), world.trace, EffectsOfLogs(old(slip.completed)), EffectsOfLogs(slip.completed))
    ensures slip.journal == old(slip.journal) + DirectJournal(old(slip.pending), old(slip.completed))
    decreases SizeOfItems(slip.pending), 1
  {
    ItemsTraceBalances(slip.pending, slip.completed);
    PieceLeaves(world.trace, TraceOfItems(slip.pending, slip.completed),
                EffectsOfLogs(slip.completed), EffectsOfLogs(Left(slip.pending, slip.completed)));
    hide Leaves, Undoes, Balances, Outcome, Effects, WorkTrace;
    while !slip.IsCompleted()
      invariant SizeOfItems(slip.pending) <= SizeOfItems(old(slip.pending))
      invariant OutcomeOfItems(slip.pending, slip.completed) == OutcomeOfItems(old(slip.pending), old(slip.completed))
      invariant world.trace + TraceOfItems(slip.pending, slip.completed)
             == old(world.trace) + TraceOfItems(old(slip.pending), old(slip.completed))
      invariant slip.journal + DirectJournal(slip.pending, slip.completed)
             == old(slip.journal) + DirectJournal(old(slip.pending), old(slip.completed))
      decreases SizeOfItems(slip.pending)
    {
      DirectTurn(slip.pending, slip.completed, slip.journal);
      TraceTurn(slip.pending, slip.completed, world.trace);
      var done := slip.ProcessNext(world);
      if done != Yes {
        Unwind(world, slip);
        return false;
      }
    }
    ok := true;
  }

  /** The events of the direct loop: forward until an item fails, then back down the stack. */
  function DirectJournal(pending: Items, completed: Logs): seq<SlipEvent> {
    match pending
    case NoItems => []
    case Items(head, tail) =>
      (match Outcome(head)
       case Some(log) => [Worked(head, true)] + DirectJournal(tail, Logs(log, completed))
       case None => [Worked(head, false)] + UnwindJournal(completed))
  }

  /** The leaf deeds behind the events of a slip. */
  function EventTrace(event: SlipEvent): seq<Deed> {
    match event
    case Worked(item, _) => WorkTrace(item)
    case Compensated(log) => UndoTrace(log)
  }

  function JournalTrace(events: seq<SlipEvent>): seq<Deed> {
    if events == [] then [] else EventTrace(events[0]) + JournalTrace(events[1..])
  }

  lemma {:induction false} JournalTraceAdds(a: seq<SlipEvent>, b: seq<SlipEvent>)
    ensures JournalTrace(a + b) == JournalTrace(a) + JournalTrace(b)
  {
    if a == [] {
      assert a + b == b;
    } else {
      assert (a + b)[0] == a[0] && (a + b)[1..] == a[1..] + b;
      JournalTraceAdds(a[1..], b);
    }
  }

  lemma OneEventTrace(event: SlipEvent)
    ensures JournalTrace([event]) == EventTrace(event)
  {
    assert [event][1..] == [];
  }

  lemma {:induction false} UnwindJournalTrace(logs: Logs)
    ensures JournalTrace(UnwindJournal(logs)) == UndoTraceOfLogs(logs)
  {
    if logs.Logs? {
      UnwindJournalTrace(logs.tail);
      assert UnwindJournal(logs)[1..] == UnwindJournal(logs.tail);
    }
  }

  /** The trace of the direct loop is that of its journal. */
  lemma {:induction false} DirectJournalTrace(pending: Items, completed: Logs)
    ensures JournalTrace(DirectJournal(pending, completed)) == TraceOfItems(pending, completed)
    decreases pending
  {
    match pending
    case NoItems =>
    case Items(head, tail) =>
      match Outcome(head)
      case Some(log) =>
        DirectJournalTrace(tail, Logs(log, completed));
        assert DirectJournal(pending, completed)[1..] == DirectJournal(tail, Logs(log, completed));
      case None =>
        UnwindJournalTrace(completed);
        assert DirectJournal(pending, completed)[1..] == UnwindJournal(completed);
  }

  /** The items before the first that fails. */
  function Successes(items: Items): (q: seq<WorkItem>)
    ensures forall i :: 0 <= i < |q| ==> Outcome(q[i]).Some?
  {
    match items
    case NoItems => []
    case Items(head, tail) => if Outcome(head).Some? then [head] + Successes(tail) else []
  }

  function FirstFailure(items: Items): Option<WorkItem> {
    match items
    case NoItems => None
    case Items(head, tail) => if Outcome(head).Some? then FirstFailure(tail) else Some(head)
  }

  function WorkEvents(q: seq<WorkItem>): seq<SlipEvent> {
    seq(|q|, i requires 0 <= i < |q| => Worked(q[i], true))
  }

  /** One compensation for each of the items, in reverse. */
  function UndoEvents(q: seq<WorkItem>): seq<SlipEvent>
    requires forall i :: 0 <= i < |q| ==> Outcome(q[i]).Some?
  {
    seq(|q|, i requires 0 <= i < |q| => Compensated(Outcome(q[|q| - 1 - i]).value))
  }

  /**
   The whole saga: the items up to the first failure; and if there is one, the compensations of all
   items that had succeeded, in exactly the reverse order, and nothing else.
   */
  lemma {:induction false} ThereAndBack(items: Items, done: Logs)
    ensures OutcomeOfItems(items, done).Some? <==> FirstFailure(items).None?
    ensures DirectJournal(items, done) == WorkEvents(Successes(items)) +
      match FirstFailure(items) {
        case None => []
        case Some(failed) => [Worked(failed, false)] + UndoEvents(Successes(items)) + UnwindJournal(done)
      }
  {
    match items
    case NoItems =>
    case Items(head, tail) =>
      if Outcome(head).Some? {
        var log := Outcome(head).value;
        ThereAndBack(tail, Logs(log, done));
        var q, rest := Successes(items), Successes(tail);
        assert q == [head] + rest;
        assert WorkEvents(q) == [Worked(head, true)] + WorkEvents(rest);
        assert UndoEvents(q) == UndoEvents(rest) + [Compensated(log)];
        assert UnwindJournal(Logs(log, done)) == [Compensated(log)] + UnwindJournal(done);
      }
  }

  // One turn of the forward loop, on the journal and on the outcome.
  lemma DirectTurn(pending: Items, completed: Logs, written: seq<SlipEvent>)
    requires pending != NoItems
    ensures var outcome := Outcome(pending.head);
      && written + DirectJournal(pending, completed)
         == written + [Worked(pending.head, outcome.Some?)]
            + (if outcome.Some? then DirectJournal(pending.tail, Logs(outcome.value, completed)) else UnwindJournal(completed))
      && OutcomeOfItems(pending, completed)
         == (if outcome.Some? then OutcomeOfItems(pending.tail, Logs(outcome.value, completed)) else None)
  {
  }

  // And on the trace.
  lemma TraceTurn(pending: Items, completed: Logs, before: seq<Deed>)
    requires pending != NoItems
    ensures var outcome := Outcome(pending.head);
      before + TraceOfItems(pending, completed)
      == before + WorkTrace(pending.head)
         + (if outcome.Some? then TraceOfItems(pending.tail, Logs(outcome.value, completed)) else UndoTraceOfLogs(completed))
  {
    hide WorkTrace, Outcome, UndoTraceOfLogs;
    var outcome := Outcome(pending.head);
    var rest := if outcome.Some? then TraceOfItems(pending.tail, Logs(outcome.value, completed)) else UndoTraceOfLogs(completed);
    assert TraceOfItems(pending, completed) == WorkTrace(pending.head) + rest;
    assert before + (WorkTrace(pending.head) + rest) == before + WorkTrace(pending.head) + rest;
  }

  lemma ParallelWork(branches: Slips, before: seq<Deed>)
    ensures Outcome(Parallel(branches)) == if AllSucceed(branches) then Some(ParallelLog(RemainingOfAll(branches))) else None
    ensures before + WorkTrace(Parallel(branches)) ==
      if AllSucceed(branches) then before + TraceOfAll(branches)
      else before + TraceOfAll(branches) + UndoTraceOfStacks(RemainingOfAll(branches))
    ensures Leaves(before, before + WorkTrace(Parallel(branches)), multiset{}, EffectsLeft(Outcome(Parallel(branches))))
  {
    OutcomeOfAllIs(branches);
    NestedLeaves(Parallel(branches), before);
    hide TraceOfAll, AllSucceed, UndoTraceOfStacks, RemainingOfAll, Leaves;
    assert TraceOfAll(branches) + [] == TraceOfAll(branches);
  }

  lemma NestedLeaves(item: WorkItem, before: seq<Deed>)
    ensures Leaves(before, before + WorkTrace(item), multiset{}, EffectsLeft(Outcome(item)))
  {
    WorkTraceBalances(item);
    PieceLeaves(before, WorkTrace(item), multiset{}, EffectsLeft(Outcome(item)));
  }

  /** Drive every branch to its end, and collect what each is left with and whether it succeeded. */
  method ExecuteBranches(world: World, branches: Slips) returns (done: Stacks, results: seq<bool>)
    modifies world
    ensures done == RemainingOfAll(branches) && AllSucceed(branches) == AllTrue(results)
    ensures world.trace == old(world.trace) + TraceOfAll(branches)
    decreases SizeOfSlips(branches), 0
  {
    hide Leaves, TraceOfItems;
    var todo := branches;
    done, results := NoStacks, [];
    while todo != NoSlips
      invariant SizeOfSlips(todo) <= SizeOfSlips(branches)
      invariant Joined(done, RemainingOfAll(todo)) == RemainingOfAll(branches)
      invariant AllSucceed(branches) == (AllTrue(results) && AllSucceed(todo))
      invariant world.trace + TraceOfAll(todo) == old(world.trace) + TraceOfAll(branches)
      decreases SizeOfSlips(todo)
    {
      var slip := new RoutingSlip(todo.head);
      var ok := ExecuteBranch(world, slip);
      JoinOne(done, slip.completed, RemainingOfAll(todo.tail));
      done := Joined(done, Stacks(slip.completed, NoStacks));
      OneMoreResult(results, ok);
      results := results + [ok];
      todo := todo.tail;
    }
    JoinNone(done);
  }

  method ParallelDoWork(world: World, branches: Slips) returns (result: Option<WorkLog>)
    modifies world
    ensures result == Outcome(Parallel(branches))
    ensures world.trace == old(world.trace) + WorkTrace(Parallel(branches))
    ensures Leaves(old(world.trace), world.trace, multiset{}, EffectsLeft(result))
    decreases SizeOfSlips(branches), 1
  {
    ParallelWork(branches, world.trace);
    hide Leaves, WorkTrace, Outcome, EffectsLeft, RemainingOfAll, TraceOfAll;
    var done, results := ExecuteBranches(world, branches);
    var i := 0;
    while i < |results|
      invariant 0 <= i <= |results|
      invariant forall j :: 0 <= j < i ==> results[j]
    {
      if !results[i] {
        CompensateBranches(world, done);
        return None;
      }
      i := i + 1;
    }
    result := Some(ParallelLog(done));
  }

  method CompensateBranches(world: World, branches: Stacks)
    modifies world
    ensures world.trace == old(world.trace) + UndoTraceOfStacks(branches)
    ensures Undoes(old(world.trace), world.trace, EffectsOfStacks(branches))
    decreases LogSizeOfStacks(branches), 0
  {
    var todo := branches;
    while todo != NoStacks
      invariant LogSizeOfStacks(todo) <= LogSizeOfStacks(branches)
      invariant world.trace + UndoTraceOfStacks(todo) == old(world.trace) + UndoTraceOfStacks(branches)
      decreases LogSizeOfStacks(todo)
    {
      var slip := new RoutingSlip.Resume(todo.head);
      Unwind(world, slip);
      todo := todo.tail;
    }
    UndoStacksMeans(branches);
    PieceUndoes(old(world.trace), UndoTraceOfStacks(branches));
  }

  lemma FallbackWork(alternatives: Slips, before: seq<Deed>)
    ensures Outcome(Fallback(alternatives)) == match OutcomeOfFirst(alternatives) {
        case Some(logs) => Some(FallbackLog(logs))
        case None => None
      }
    ensures before + WorkTrace(Fallback(alternatives)) == before + TraceOfFirst(alternatives)
    ensures Leaves(before, before + WorkTrace(Fallback(alternatives)), multiset{}, EffectsLeft(Outcome(Fallback(alternatives))))
  {
    NestedLeaves(Fallback(alternatives), before);
  }

  // One turn of the loop over alternatives.
  lemma AlternativeTurn(todo: Slips, before: seq<Deed>)
    requires todo != NoSlips
    ensures var ok := OutcomeOfItems(todo.head, NoLogs).Some?;
      && before + TraceOfFirst(todo) == before + TraceOfItems(todo.head, NoLogs) + (if ok then [] else TraceOfFirst(todo.tail))
      && OutcomeOfFirst(todo) == if ok then OutcomeOfItems(todo.head, NoLogs) else OutcomeOfFirst(todo.tail)
  {
    hide TraceOfItems;
  }

  method FallbackDoWork(world: World, alternatives: Slips) returns (result: Option<WorkLog>)
    modifies world
    ensures result == Outcome(Fallback(alternatives))
    ensures world.trace == old(world.trace) + WorkTrace(Fallback(alternatives))
    ensures Leaves(old(world.trace), world.trace, multiset{}, EffectsLeft(result))
    decreases SizeOfSlips(alternatives), 0
  {
    FallbackWork(alternatives, world.trace);
    hide Leaves, WorkTrace, Outcome, EffectsLeft, TraceOfItems, TraceOfFirst, OutcomeOfItems, OutcomeOfFirst;
    var todo := alternatives;
    while todo != NoSlips
      invariant SizeOfSlips(todo) <= SizeOfSlips(alternatives)
      invariant OutcomeOfFirst(todo) == OutcomeOfFirst(alternatives)
      invariant world.trace + TraceOfFirst(todo) == old(world.trace) + TraceOfFirst(alternatives)
      decreases SizeOfSlips(todo)
    {
      AlternativeTurn(todo, world.trace);
      var slip := new RoutingSlip(todo.head);
      var ok := ExecuteBranch(world, slip);
      if ok {
        return Some(FallbackLog(slip.completed));
      }
      todo := todo.tail;
    }
    result := None;
  }
}
