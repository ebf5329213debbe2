/**
 What leaf activities do and undo, in order, when a slip is driven by one loop: the trace that each
 item leaves, what remains outstanding after it, and that undoing mirrors doing.
 */
module SlipTraces {

  import opened Options
  import opened Sagas

  datatype Deed = Did(id: int) | Undid(id: int)

  function DidIn(trace: seq<Deed>): multiset<int> {
    if trace == [] then multiset{}
    else (if trace[0].Did? then multiset{trace[0].id} else multiset{}) + DidIn(trace[1..])
  }

  function UndoneIn(trace: seq<Deed>): multiset<int> {
    if trace == [] then multiset{}
    else (if trace[0].Undid? then multiset{trace[0].id} else multiset{}) + UndoneIn(trace[1..])
  }

  lemma {:induction false} CountsAdd(a: seq<Deed>, b: seq<Deed>)
    ensures DidIn(a + b) == DidIn(a) + DidIn(b) && UndoneIn(a + b) == UndoneIn(a) + UndoneIn(b)
  {
    if a == [] {
      assert a + b == b;
    } else {
      assert (a + b)[0] == a[0] && (a + b)[1..] == a[1..] + b;
      CountsAdd(a[1..], b);
    }
  }

  // ---- What is outstanding ----

  /** Of what had been outstanding, `was`, and what the trace did, exactly `now` is left. */
  ghost predicate Balances(trace: seq<Deed>, was: multiset<int>, now: multiset<int>) {
    UndoneIn(trace) + now == DidIn(trace) + was
  }

  /** The trace grew by a piece with that balance. */
  ghost predicate Leaves(before: seq<Deed>, after: seq<Deed>, was: multiset<int>, now: multiset<int>) {
    before <= after && Balances(after[|before|..], was, now)
  }

  /** The trace grew by a piece that did nothing and undid exactly `effects`. */
  ghost predicate Undoes(before: seq<Deed>, after: seq<Deed>, effects: multiset<int>) {
    before <= after && DidIn(after[|before|..]) == multiset{} && UndoneIn(after[|before|..]) == effects
  }

  lemma PieceLeaves(before: seq<Deed>, piece: seq<Deed>, was: multiset<int>, now: multiset<int>)
    requires Balances(piece, was, now)
    ensures Leaves(before, before + piece, was, now)
  {
    assert (before + piece)[|before|..] == piece;
  }

  lemma PieceUndoes(before: seq<Deed>, piece: seq<Deed>)
    requires DidIn(piece) == multiset{}
    ensures Undoes(before, before + piece, UndoneIn(piece))
  {
    assert (before + piece)[|before|..] == piece;
  }

  lemma LeavesBoth(a: seq<Deed>, b: seq<Deed>, c: seq<Deed>, was: multiset<int>, now: multiset<int>, last: multiset<int>)
    requires Leaves(a, b, was, now) && Leaves(b, c, now, last)
    ensures Leaves(a, c, was, last)
  {
    var first, second := b[|a|..], c[|b|..];
    assert c[|a|..] == first + second;
    BalancesBoth(first, second, was, now, last);
  }

  lemma BalancesBoth(a: seq<Deed>, b: seq<Deed>, was: multiset<int>, now: multiset<int>, last: multiset<int>)
    requires Balances(a, was, now) && Balances(b, now, last)
    ensures Balances(a + b, was, last)
  {
    CountsAdd(a, b);
    forall x: int ensures (UndoneIn(a + b) + last)[x] == (DidIn(a + b) + was)[x] {
      assert (UndoneIn(a) + now)[x] == (DidIn(a) + was)[x];
      assert (UndoneIn(b) + last)[x] == (DidIn(b) + now)[x];
    }
  }

  lemma BalancesBeside(trace: seq<Deed>, was: multiset<int>, now: multiset<int>, more: multiset<int>)
    requires Balances(trace, was, now)
    ensures Balances(trace, was + more, now + more)
  {
    assert (UndoneIn(trace) + now) + more == (DidIn(trace) + was) + more;
    assert UndoneIn(trace) + (now + more) == (UndoneIn(trace) + now) + more;
  }

  // ---- What a slip is left with ----

  /** The stack of a slip driven to its end; one that fails unwinds itself. */
  function Left(pending: Items, completed: Logs): Logs {
    var outcome := OutcomeOfItems(pending, completed);
    if outcome.Some? then outcome.value else NoLogs
  }

  function Remaining(items: Items): Logs {
    Left(items, NoLogs)
  }

  function RemainingOfAll(slips: Slips): Stacks {
    match slips
    case NoSlips => NoStacks
    case Slips(head, tail) => Stacks(Remaining(head), RemainingOfAll(tail))
  }

  predicate AllSucceed(slips: Slips) {
    match slips
    case NoSlips => true
    case Slips(head, tail) => OutcomeOfItems(head, NoLogs).Some? && AllSucceed(tail)
  }

  lemma OutcomeOfAllIs(slips: Slips)
    ensures OutcomeOfAll(slips) == if AllSucceed(slips) then Some(RemainingOfAll(slips)) else None
  {
  }

  function EffectsLeft(log: Option<WorkLog>): multiset<int> {
    match log
    case None => multiset{}
    case Some(l) => Effects(l)
  }

  // ---- The traces ----

  function UndoTrace(log: WorkLog): seq<Deed> {
    match log
    case LeafLog(_, id) => [Undid(id)]
    case ParallelLog(branches) => UndoTraceOfStacks(branches)
    case FallbackLog(succeeded) => UndoTraceOfLogs(succeeded)
  }

  function UndoTraceOfLogs(logs: Logs): seq<Deed> {
    match logs
    case NoLogs => []
    case Logs(head, tail) => UndoTrace(head) + UndoTraceOfLogs(tail)
  }

  /** One branch after the other. */
  function UndoTraceOfStacks(stacks: Stacks): seq<Deed> {
    match stacks
    case NoStacks => []
    case Stacks(head, tail) => UndoTraceOfLogs(head) + UndoTraceOfStacks(tail)
  }

  function WorkTrace(item: WorkItem): seq<Deed> {
    match item
    case Leaf(_, id, ok) => if ok then [Did(id)] else []
    case Parallel(branches) =>
      TraceOfAll(branches) + (if AllSucceed(branches) then [] else UndoTraceOfStacks(RemainingOfAll(branches)))
    case Fallback(alternatives) => TraceOfFirst(alternatives)
  }

  /** Forward until an item fails, then back down the stack. */
  function TraceOfItems(pending: Items, completed: Logs): seq<Deed> {
    match pending
    case NoItems => []
    case Items(head, tail) =>
      WorkTrace(head) +
      (match Outcome(head)
       case Some(log) => TraceOfItems(tail, Logs(log, completed))
       case None => UndoTraceOfLogs(completed))
  }

  /** All branches, one after the other. */
  function TraceOfAll(slips: Slips): seq<Deed> {
    match slips
    case NoSlips => []
    case Slips(head, tail) => TraceOfItems(head, NoLogs) + TraceOfAll(tail)
  }

  /** The alternatives up to the first that succeeds. */
  function TraceOfFirst(slips: Slips): seq<Deed> {
    match slips
    case NoSlips => []
    case Slips(head, tail) =>
      TraceOfItems(head, NoLogs) + (if OutcomeOfItems(head, NoLogs).Some? then [] else TraceOfFirst(tail))
  }

  // ---- Undoing undoes exactly the effects ----

  lemma {:induction false} UndoTraceMeans(log: WorkLog)
    ensures DidIn(UndoTrace(log)) == multiset{} && UndoneIn(UndoTrace(log)) == Effects(log)
  {
    match log
    case LeafLog(_, id) =>
      assert [Undid(id)][1..] == [];
    case ParallelLog(branches) => UndoStacksMeans(branches);
    case FallbackLog(succeeded) => UndoLogsMeans(succeeded);
  }

  lemma {:induction false} UndoLogsMeans(logs: Logs)
    ensures DidIn(UndoTraceOfLogs(logs)) == multiset{} && UndoneIn(UndoTraceOfLogs(logs)) == EffectsOfLogs(logs)
  {
    match logs
    case NoLogs =>
    case Logs(head, tail) =>
      UndoTraceMeans(head);
      UndoLogsMeans(tail);
      CountsAdd(UndoTrace(head), UndoTraceOfLogs(tail));
  }

  lemma {:induction false} UndoStacksMeans(stacks: Stacks)
    ensures DidIn(UndoTraceOfStacks(stacks)) == multiset{} && UndoneIn(UndoTraceOfStacks(stacks)) == EffectsOfStacks(stacks)
  {
    match stacks
    case NoStacks =>
    case Stacks(head, tail) =>
      UndoLogsMeans(head);
      UndoStacksMeans(tail);
      CountsAdd(UndoTraceOfLogs(head), UndoTraceOfStacks(tail));
  }

  lemma UndoingBalances(trace: seq<Deed>, effects: multiset<int>)
    requires DidIn(trace) == multiset{} && UndoneIn(trace) == effects
    ensures Balances(trace, effects, multiset{})
  {
  }

  // ---- Working leaves exactly the effects of the log ----

  /** An item leaves the effects of its log outstanding, and nothing if it fails. */
  lemma {:induction false} WorkTraceBalances(item: WorkItem)
    ensures Balances(WorkTrace(item), multiset{}, EffectsLeft(Outcome(item)))
  {
    match item
    case Leaf(_, id, ok) =>
      assert [Did(id)][1..] == [];
    case Parallel(branches) =>
      AllTracesBalance(branches);
      OutcomeOfAllIs(branches);
      var stacks := RemainingOfAll(branches);
      if AllSucceed(branches) {
        assert TraceOfAll(branches) + [] == TraceOfAll(branches);
      } else {
        UndoStacksMeans(stacks);
        UndoingBalances(UndoTraceOfStacks(stacks), EffectsOfStacks(stacks));
        BalancesBoth(TraceOfAll(branches), UndoTraceOfStacks(stacks), multiset{}, EffectsOfStacks(stacks), multiset{});
      }
    case Fallback(alternatives) => FirstTraceBalances(alternatives);
  }

  /** A slip is left with all of its effects or, after a failure, with none. */
  lemma {:induction false} ItemsTraceBalances(pending: Items, completed: Logs)
    ensures Balances(TraceOfItems(pending, completed), EffectsOfLogs(completed), EffectsOfLogs(Left(pending, completed)))
    decreases pending
  {
    match pending
    case NoItems =>
    case Items(head, tail) =>
      var was := EffectsOfLogs(completed);
      WorkTraceBalances(head);
      BalancesBeside(WorkTrace(head), multiset{}, EffectsLeft(Outcome(head)), was);
      assert multiset{} + was == was;
      match Outcome(head)
      case Some(log) =>
        ItemsTraceBalances(tail, Logs(log, completed));
        BalancesBoth(WorkTrace(head), TraceOfItems(tail, Logs(log, completed)),
                     was, Effects(log) + was, EffectsOfLogs(Left(pending, completed)));
      case None =>
        UndoLogsMeans(completed);
        UndoingBalances(UndoTraceOfLogs(completed), was);
        BalancesBoth(WorkTrace(head), UndoTraceOfLogs(completed), was, was, multiset{});
  }

  lemma {:induction false} AllTracesBalance(slips: Slips)
    ensures Balances(TraceOfAll(slips), multiset{}, EffectsOfStacks(RemainingOfAll(slips)))
  {
    match slips
    case NoSlips =>
    case Slips(head, tail) =>
      var first, rest := EffectsOfLogs(Remaining(head)), EffectsOfStacks(RemainingOfAll(tail));
      ItemsTraceBalances(head, NoLogs);
      AllTracesBalance(tail);
      BalancesBeside(TraceOfAll(tail), multiset{}, rest, first);
      assert multiset{} + first == first && rest + first == first + rest;
      BalancesBoth(TraceOfItems(head, NoLogs), TraceOfAll(tail), multiset{}, first, first + rest);
  }

  lemma {:induction false} FirstTraceBalances(slips: Slips)
    ensures Balances(TraceOfFirst(slips), multiset{},
                     if OutcomeOfFirst(slips).Some? then EffectsOfLogs(OutcomeOfFirst(slips).value) else multiset{})
  {
    match slips
    case NoSlips =>
    case Slips(head, tail) =>
      ItemsTraceBalances(head, NoLogs);
      var first := TraceOfItems(head, NoLogs);
      if OutcomeOfItems(head, NoLogs).Some? {
        assert first + [] == first;
      } else {
        FirstTraceBalances(tail);
        BalancesBoth(first, TraceOfFirst(tail), multiset{}, multiset{},
                     if OutcomeOfFirst(tail).Some? then EffectsOfLogs(OutcomeOfFirst(tail).value) else multiset{});
      }
  }

  // ---- Undoing mirrors doing ----

  /** Plays a trace on a stack of effects; None where something other than the newest is undone. */
  function Play(trace: seq<Deed>, stack: seq<int>): Option<seq<int>> {
    if trace == [] then Some(stack)
    else
      match trace[0]
      case Did(id) => Play(trace[1..], stack + [id])
      case Undid(id) =>
        if stack != [] && stack[|stack| - 1] == id then Play(trace[1..], stack[..|stack| - 1]) else None
  }

  lemma {:induction false} PlayBoth(a: seq<Deed>, b: seq<Deed>, stack: seq<int>)
    ensures Play(a + b, stack) == if Play(a, stack).Some? then Play(b, Play(a, stack).value) else None
  {
    if a == [] {
      assert a + b == b;
    } else {
      assert (a + b)[0] == a[0] && (a + b)[1..] == a[1..] + b;
      match a[0]
      case Did(id) => PlayBoth(a[1..], b, stack + [id]);
      case Undid(id) =>
        if stack != [] && stack[|stack| - 1] == id {
          PlayBoth(a[1..], b, stack[..|stack| - 1]);
        }
    }
  }

  /** The outstanding effects of a stack of logs, oldest first. */
  function Outstanding(logs: Logs): seq<int> {
    match logs
    case NoLogs => []
    case Logs(head, tail) => Outstanding(tail) + OutstandingOf(head)
  }

  function OutstandingOf(log: WorkLog): seq<int> {
    match log
    case LeafLog(_, id) => [id]
    case ParallelLog(branches) => OutstandingOfStacks(branches)
    case FallbackLog(succeeded) => Outstanding(succeeded)
  }

  function OutstandingOfStacks(stacks: Stacks): seq<int> {
    match stacks
    case NoStacks => []
    case Stacks(head, tail) => Outstanding(head) + OutstandingOfStacks(tail)
  }

  /** Nothing runs in parallel, at any depth. */
  predicate Sequential(item: WorkItem) {
    match item
    case Leaf(_, _, _) => true
    case Parallel(_) => false
    case Fallback(alternatives) => SequentialSlips(alternatives)
  }

  predicate SequentialItems(items: Items) {
    match items
    case NoItems => true
    case Items(head, tail) => Sequential(head) && SequentialItems(tail)
  }

  predicate SequentialSlips(slips: Slips) {
    match slips
    case NoSlips => true
    case Slips(head, tail) => SequentialItems(head) && SequentialSlips(tail)
  }

  predicate SequentialLog(log: WorkLog) {
    match log
    case LeafLog(_, _) => true
    case ParallelLog(_) => false
    case FallbackLog(succeeded) => SequentialLogs(succeeded)
  }

  predicate SequentialLogs(logs: Logs) {
    match logs
    case NoLogs => true
    case Logs(head, tail) => SequentialLog(head) && SequentialLogs(tail)
  }

  lemma {:induction false} UndoMirrors(log: WorkLog, below: seq<int>)
    requires SequentialLog(log)
    ensures Play(UndoTrace(log), below + OutstandingOf(log)) == Some(below)
  {
    match log
    case LeafLog(_, id) =>
      assert [Undid(id)][1..] == [] && (below + [id])[..|below|] == below;
      assert Play([], below) == Some(below);
    case FallbackLog(succeeded) => UndoLogsMirrors(succeeded, below);
  }

  lemma {:induction false} UndoLogsMirrors(logs: Logs, below: seq<int>)
    requires SequentialLogs(logs)
    ensures Play(UndoTraceOfLogs(logs), below + Outstanding(logs)) == Some(below)
  {
    match logs
    case NoLogs =>
      assert below + [] == below;
    case Logs(head, tail) =>
      assert below + Outstanding(logs) == (below + Outstanding(tail)) + OutstandingOf(head);
      UndoMirrors(head, below + Outstanding(tail));
      UndoLogsMirrors(tail, below);
      PlayBoth(UndoTrace(head), UndoTraceOfLogs(tail), below + Outstanding(logs));
  }

  lemma {:induction false} WorkMirrors(item: WorkItem, below: seq<int>)
    requires Sequential(item)
    ensures Outcome(item).Some? ==> SequentialLog(Outcome(item).value)
    ensures Play(WorkTrace(item), below) ==
      Some(below + if Outcome(item).Some? then OutstandingOf(Outcome(item).value) else [])
  {
    match item
    case Leaf(_, id, ok) =>
      assert [Did(id)][1..] == [] && below + [] == below;
      assert Play([], below + [id]) == Some(below + [id]);
    case Fallback(alternatives) => FirstMirrors(alternatives, below);
  }

  /**
   Last done, first undone: in the whole trace of a sequential slip, the failed alternatives of its
   fallbacks and its unwinding included, every undo takes back the newest effect outstanding.
   */
  lemma {:induction false} LastDoneFirstUndone(pending: Items, completed: Logs, below: seq<int>)
    requires SequentialItems(pending) && SequentialLogs(completed)
    ensures SequentialLogs(Left(pending, completed))
    ensures Play(TraceOfItems(pending, completed), below + Outstanding(completed)) ==
      Some(below + Outstanding(Left(pending, completed)))
    decreases pending
  {
    match pending
    case NoItems =>
    case Items(head, tail) =>
      var stack := below + Outstanding(completed);
      WorkMirrors(head, stack);
      match Outcome(head)
      case Some(log) =>
        var logs := Logs(log, completed);
        assert stack + OutstandingOf(log) == below + Outstanding(logs);
        LastDoneFirstUndone(tail, logs, below);
        PlayBoth(WorkTrace(head), TraceOfItems(tail, logs), stack);
      case None =>
        assert stack + [] == stack && below + [] == below;
        UndoLogsMirrors(completed, below);
        PlayBoth(WorkTrace(head), UndoTraceOfLogs(completed), stack);
  }

  lemma {:induction false} FirstMirrors(slips: Slips, below: seq<int>)
    requires SequentialSlips(slips)
    ensures OutcomeOfFirst(slips).Some? ==> SequentialLogs(OutcomeOfFirst(slips).value)
    ensures Play(TraceOfFirst(slips), below) ==
      Some(below + if OutcomeOfFirst(slips).Some? then Outstanding(OutcomeOfFirst(slips).value) else [])
  {
    assert below + [] == below;
    match slips
    case NoSlips =>
    case Slips(head, tail) =>
      LastDoneFirstUndone(head, NoLogs, below);
      var first := TraceOfItems(head, NoLogs);
      if OutcomeOfItems(head, NoLogs).Some? {
        assert first + [] == first;
      } else {
        FirstMirrors(tail, below);
        PlayBoth(first, TraceOfFirst(tail), below);
      }
  }
}
