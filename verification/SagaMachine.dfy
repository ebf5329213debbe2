/**
 Sagas as a machine that takes one small step at a time. Parallel branches, and their compensations,
 may interleave in any way: a step of a parallel activity is a step of any of its branches.
 */
module SagaMachine {

  import opened Options
  import opened Sagas

  datatype Action = Tau | Done(id: int) | Undone(id: int)

  /** The loop that unwinds a slip: the compensation under way and the logs still on the stack. */
  datatype Undo = Undo(now: Comp, rest: Logs)
  datatype Comp = Nothing | UndoLeaf(id: int) | UndoBranches(undos: Undos) | UndoAlternative(undo: Undo)
  datatype Undos = NoUndos | Undos(head: Undo, tail: Undos)

  /** A slip that is driven to its end, forward and, after a failure, backward. */
  datatype Run =
    | Forward(pending: Items, done: Logs)
    | Working(work: Work, pending: Items, done: Logs)
    | Backward(undo: Undo)
    | Succeeded(done: Logs)
    | Failed // with nothing left on its stack
  datatype Runs = NoRuns | Runs(head: Run, tail: Runs)

  /** An activity's do_work. */
  datatype Work =
    | DoLeaf(activity: string, id: int, ok: bool)
    | DoParallel(runs: Runs)
    | RollBack(undos: Undos)
    | DoFallback(run: Run, untried: Slips)
    | Result(log: Option<WorkLog>)

  // ---- Starting and ending ----

  function Start(item: WorkItem): Work {
    match item
    case Leaf(activity, id, ok) => DoLeaf(activity, id, ok)
    case Parallel(branches) => DoParallel(StartAll(branches))
    case Fallback(alternatives) => TryNext(alternatives)
  }

  function StartAll(slips: Slips): Runs {
    match slips
    case NoSlips => NoRuns
    case Slips(head, tail) => Runs(Forward(head, NoLogs), StartAll(tail))
  }

  function TryNext(untried: Slips): Work {
    match untried
    case NoSlips => Result(None)
    case Slips(head, tail) => DoFallback(Forward(head, NoLogs), tail)
  }

  function StartUndo(log: WorkLog): Comp {
    match log
    case LeafLog(_, id) => UndoLeaf(id)
    case ParallelLog(branches) => UndoBranches(UndoAll(branches))
    case FallbackLog(succeeded) => UndoAlternative(Undo(Nothing, succeeded))
  }

  function UndoAll(stacks: Stacks): Undos {
    match stacks
    case NoStacks => NoUndos
    case Stacks(head, tail) => Undos(Undo(Nothing, head), UndoAll(tail))
  }

  predicate Unwound(u: Undo) {
    u.now == Nothing && u.rest == NoLogs
  }

  predicate AllUnwound(us: Undos) {
    match us
    case NoUndos => true
    case Undos(head, tail) => Unwound(head) && AllUnwound(tail)
  }

  predicate Ended(r: Run) {
    r.Succeeded? || r.Failed?
  }

  predicate AllEnded(rs: Runs) {
    match rs
    case NoRuns => true
    case Runs(head, tail) => Ended(head) && AllEnded(tail)
  }

  predicate AllSucceeded(rs: Runs) {
    match rs
    case NoRuns => true
    case Runs(head, tail) => head.Succeeded? && AllSucceeded(tail)
  }

  /** The stacks the branches are left with; a failed branch has unwound its own. */
  function StacksOf(rs: Runs): Stacks
    requires AllEnded(rs)
  {
    match rs
    case NoRuns => NoStacks
    case Runs(head, tail) => Stacks(if head.Succeeded? then head.done else NoLogs, StacksOf(tail))
  }

  // ---- Steps ----

  predicate StepUndo(u: Undo, a: Action, v: Undo) {
    match u.now
    case Nothing =>
      u.rest.Logs? && a == Tau && v == Undo(StartUndo(u.rest.head), u.rest.tail)
    case UndoLeaf(id) =>
      a == Undone(id) && v == Undo(Nothing, u.rest)
    case UndoBranches(undos) =>
      if AllUnwound(undos) then a == Tau && v == Undo(Nothing, u.rest)
      else v.rest == u.rest && v.now.UndoBranches? && StepUndos(undos, a, v.now.undos)
    case UndoAlternative(undo) =>
      if Unwound(undo) then a == Tau && v == Undo(Nothing, u.rest)
      else v.rest == u.rest && v.now.UndoAlternative? && StepUndo(undo, a, v.now.undo)
  }

  predicate StepUndos(us: Undos, a: Action, vs: Undos) {
    && us.Undos? && vs.Undos?
    && ((vs.tail == us.tail && StepUndo(us.head, a, vs.head)) || (vs.head == us.head && StepUndos(us.tail, a, vs.tail)))
  }

  predicate StepRun(r: Run, a: Action, t: Run) {
    match r
    case Forward(NoItems, done) =>
      a == Tau && t == Succeeded(done)
    case Forward(Items(head, tail), done) =>
      a == Tau && t == Working(Start(head), tail, done)
    case Working(work, pending, done) =>
      if work.Result? then
        a == Tau && t == if work.log.Some? then Forward(pending, Logs(work.log.value, done)) else Backward(Undo(Nothing, done))
      else
        t.Working? && t.pending == pending && t.done == done && StepWork(work, a, t.work)
    case Backward(undo) =>
      if Unwound(undo) then a == Tau && t == Failed
      else t.Backward? && StepUndo(undo, a, t.undo)
    case Succeeded(_) => false
    case Failed => false
  }

  predicate StepRuns(rs: Runs, a: Action, ts: Runs) {
    && rs.Runs? && ts.Runs?
    && ((ts.tail == rs.tail && StepRun(rs.head, a, ts.head)) || (ts.head == rs.head && StepRuns(rs.tail, a, ts.tail)))
  }

  predicate StepWork(w: Work, a: Action, t: Work) {
    match w
    case DoLeaf(activity, id, ok) =>
      if ok then a == Done(id) && t == Result(Some(LeafLog(activity, id))) else a == Tau && t == Result(None)
    case DoParallel(runs) =>
      if AllEnded(runs) then
        a == Tau && t == if AllSucceeded(runs) then Result(Some(ParallelLog(StacksOf(runs))))
                         else RollBack(UndoAll(StacksOf(runs)))
      else
        t.DoParallel? && StepRuns(runs, a, t.runs)
    case RollBack(undos) =>
      if AllUnwound(undos) then a == Tau && t == Result(None)
      else t.RollBack? && StepUndos(undos, a, t.undos)
    case DoFallback(run, untried) =>
      if Ended(run) then
        a == Tau && t == if run.Succeeded? then Result(Some(FallbackLog(run.done))) else TryNext(untried)
      else
        t.DoFallback? && t.untried == untried && StepRun(run, a, t.run)
    case Result(_) => false
  }

  // ---- Effects outstanding ----

  function HeldUndo(u: Undo): multiset<int> {
    HeldComp(u.now) + EffectsOfLogs(u.rest)
  }

  function HeldComp(c: Comp): multiset<int> {
    match c
    case Nothing => multiset{}
    case UndoLeaf(id) => multiset{id}
    case UndoBranches(undos) => HeldUndos(undos)
    case UndoAlternative(undo) => HeldUndo(undo)
  }

  function HeldUndos(us: Undos): multiset<int> {
    match us
    case NoUndos => multiset{}
    case Undos(head, tail) => HeldUndo(head) + HeldUndos(tail)
  }

  function HeldRun(r: Run): multiset<int> {
    match r
    case Forward(_, done) => EffectsOfLogs(done)
    case Working(work, _, done) => HeldWork(work) + EffectsOfLogs(done)
    case Backward(undo) => HeldUndo(undo)
    case Succeeded(done) => EffectsOfLogs(done)
    case Failed => multiset{}
  }

  function HeldRuns(rs: Runs): multiset<int> {
    match rs
    case NoRuns => multiset{}
    case Runs(head, tail) => HeldRun(head) + HeldRuns(tail)
  }

  function HeldWork(w: Work): multiset<int> {
    match w
    case DoLeaf(_, _, _) => multiset{}
    case DoParallel(runs) => HeldRuns(runs)
    case RollBack(undos) => HeldUndos(undos)
    case DoFallback(run, _) => HeldRun(run)
    case Result(log) => if log.Some? then Effects(log.value) else multiset{}
  }

  function DoneBy(a: Action): multiset<int> {
    if a.Done? then multiset{a.id} else multiset{}
  }

  function UndoneBy(a: Action): multiset<int> {
    if a.Undone? then multiset{a.id} else multiset{}
  }

  /** One step accounts for its effect: what is done becomes outstanding, what is undone was. */
  predicate Balances(before: multiset<int>, a: Action, after: multiset<int>) {
    before + DoneBy(a) == after + UndoneBy(a)
  }

  lemma BalancesBeside(x: multiset<int>, a: Action, y: multiset<int>, z: multiset<int>)
    requires Balances(x, a, y)
    ensures Balances(x + z, a, y + z) && Balances(z + x, a, z + y)
  {
    assert x + z + DoneBy(a) == (x + DoneBy(a)) + z;
    assert y + z + UndoneBy(a) == (y + UndoneBy(a)) + z;
    assert x + z == z + x && y + z == z + y;
  }

  lemma {:induction false} HeldUndoAll(stacks: Stacks)
    ensures HeldUndos(UndoAll(stacks)) == EffectsOfStacks(stacks)
  {
    if stacks.Stacks? {
      HeldUndoAll(stacks.tail);
      assert HeldUndo(Undo(Nothing, stacks.head)) == EffectsOfLogs(stacks.head);
    }
  }

  lemma StartUndoHolds(log: WorkLog)
    ensures HeldComp(StartUndo(log)) == Effects(log)
  {
    match log
    case LeafLog(_, _) =>
    case ParallelLog(branches) => HeldUndoAll(branches);
    case FallbackLog(succeeded) => assert HeldUndo(Undo(Nothing, succeeded)) == EffectsOfLogs(succeeded);
  }

  lemma {:induction false} HeldAllEnded(rs: Runs)
    requires AllEnded(rs)
    ensures HeldRuns(rs) == EffectsOfStacks(StacksOf(rs))
  {
    if rs.Runs? {
      HeldAllEnded(rs.tail);
    }
  }

  lemma {:induction false} HeldStartAll(slips: Slips)
    ensures HeldRuns(StartAll(slips)) == multiset{}
  {
    if slips.Slips? {
      HeldStartAll(slips.tail);
    }
  }

  lemma {:induction false} NothingHeldWhenUnwound(us: Undos)
    requires AllUnwound(us)
    ensures HeldUndos(us) == multiset{}
  {
    if us.Undos? {
      NothingHeldWhenUnwound(us.tail);
    }
  }

  lemma {:induction false} UndoBalances(u: Undo, a: Action, v: Undo)
    requires StepUndo(u, a, v)
    ensures !a.Done? && Balances(HeldUndo(u), a, HeldUndo(v))
  {
    match u.now
    case Nothing => StartUndoHolds(u.rest.head);
    case UndoLeaf(id) =>
    case UndoBranches(undos) =>
      if AllUnwound(undos) {
        NothingHeldWhenUnwound(undos);
      } else {
        UndosBalance(undos, a, v.now.undos);
        BalancesBeside(HeldUndos(undos), a, HeldUndos(v.now.undos), EffectsOfLogs(u.rest));
      }
    case UndoAlternative(undo) =>
      if !Unwound(undo) {
        UndoBalances(undo, a, v.now.undo);
        BalancesBeside(HeldUndo(undo), a, HeldUndo(v.now.undo), EffectsOfLogs(u.rest));
      }
  }

  lemma {:induction false} UndosBalance(us: Undos, a: Action, vs: Undos)
    requires StepUndos(us, a, vs)
    ensures !a.Done? && Balances(HeldUndos(us), a, HeldUndos(vs))
  {
    if vs.tail == us.tail && StepUndo(us.head, a, vs.head) {
      UndoBalances(us.head, a, vs.head);
      BalancesBeside(HeldUndo(us.head), a, HeldUndo(vs.head), HeldUndos(us.tail));
    } else {
      UndosBalance(us.tail, a, vs.tail);
      BalancesBeside(HeldUndos(us.tail), a, HeldUndos(vs.tail), HeldUndo(us.head));
    }
  }

  lemma {:induction false} RunBalances(r: Run, a: Action, t: Run)
    requires StepRun(r, a, t)
    ensures Balances(HeldRun(r), a, HeldRun(t))
  {
    match r
    case Forward(NoItems, _) =>
    case Forward(Items(head, _), _) =>
      NothingHeldAtStart(head);
    case Working(work, _, done) =>
      if !work.Result? {
        WorkBalances(work, a, t.work);
        BalancesBeside(HeldWork(work), a, HeldWork(t.work), EffectsOfLogs(done));
      } else if work.log.None? {
        assert HeldUndo(t.undo) == EffectsOfLogs(done);
      } else {
        assert HeldRun(t) == Effects(work.log.value) + EffectsOfLogs(done);
      }
    case Backward(undo) =>
      if !Unwound(undo) {
        UndoBalances(undo, a, t.undo);
      }
  }

  lemma NothingHeldAtStart(item: WorkItem)
    ensures HeldWork(Start(item)) == multiset{}
  {
    if item.Parallel? {
      HeldStartAll(item.branches);
    }
  }

  lemma {:induction false} RunsBalance(rs: Runs, a: Action, ts: Runs)
    requires StepRuns(rs, a, ts)
    ensures Balances(HeldRuns(rs), a, HeldRuns(ts))
  {
    if ts.tail == rs.tail && StepRun(rs.head, a, ts.head) {
      RunBalances(rs.head, a, ts.head);
      BalancesBeside(HeldRun(rs.head), a, HeldRun(ts.head), HeldRuns(rs.tail));
    } else {
      RunsBalance(rs.tail, a, ts.tail);
      BalancesBeside(HeldRuns(rs.tail), a, HeldRuns(ts.tail), HeldRun(rs.head));
    }
  }

  lemma {:induction false} WorkBalances(w: Work, a: Action, t: Work)
    requires StepWork(w, a, t)
    ensures Balances(HeldWork(w), a, HeldWork(t))
  {
    match w
    case DoLeaf(_, _, _) =>
    case DoParallel(runs) =>
      if AllEnded(runs) {
        HeldAllEnded(runs);
        HeldUndoAll(StacksOf(runs));
      } else {
        RunsBalance(runs, a, t.runs);
      }
    case RollBack(undos) =>
      if AllUnwound(undos) {
        NothingHeldWhenUnwound(undos);
      } else {
        UndosBalance(undos, a, t.undos);
      }
    case DoFallback(run, untried) =>
      if !Ended(run) {
        RunBalances(run, a, t.run);
      }
  }

  // ---- The outcome does not depend on the schedule ----

  function WillRun(r: Run): Option<Logs> {
    match r
    case Forward(pending, done) => OutcomeOfItems(pending, done)
    case Working(work, pending, done) =>
      (match WillWork(work)
       case Some(log) => OutcomeOfItems(pending, Logs(log, done))
       case None => None)
    case Backward(_) => None
    case Succeeded(done) => Some(done)
    case Failed => None
  }

  function WillRuns(rs: Runs): Option<Stacks> {
    match rs
    case NoRuns => Some(NoStacks)
    case Runs(head, tail) =>
      var first, rest := WillRun(head), WillRuns(tail);
      if first.Some? && rest.Some? then Some(Stacks(first.value, rest.value)) else None
  }

  function WillWork(w: Work): Option<WorkLog> {
    match w
    case DoLeaf(activity, id, ok) => if ok then Some(LeafLog(activity, id)) else None
    case DoParallel(runs) =>
      (match WillRuns(runs)
       case Some(stacks) => Some(ParallelLog(stacks))
       case None => None)
    case RollBack(_) => None
    case DoFallback(run, untried) =>
      var first := WillRun(run);
      if first.Some? then Some(FallbackLog(first.value))
      else (match OutcomeOfFirst(untried)
            case Some(logs) => Some(FallbackLog(logs))
            case None => None)
    case Result(log) => log
  }

  lemma {:induction false} StartAllWill(slips: Slips)
    ensures WillRuns(StartAll(slips)) == OutcomeOfAll(slips)
  {
    if slips.Slips? {
      StartAllWill(slips.tail);
    }
  }

  lemma StartWill(item: WorkItem)
    ensures WillWork(Start(item)) == Outcome(item)
  {
    if item.Parallel? {
      StartAllWill(item.branches);
    }
  }

  lemma {:induction false} EndedWill(rs: Runs)
    requires AllEnded(rs)
    ensures WillRuns(rs) == if AllSucceeded(rs) then Some(StacksOf(rs)) else None
  {
    if rs.Runs? {
      EndedWill(rs.tail);
    }
  }

  lemma {:induction false} RunKeepsOutcome(r: Run, a: Action, t: Run)
    requires StepRun(r, a, t)
    ensures WillRun(t) == WillRun(r)
  {
    match r
    case Forward(NoItems, _) =>
    case Forward(Items(head, _), _) => StartWill(head);
    case Working(work, _, _) =>
      if !work.Result? {
        WorkKeepsOutcome(work, a, t.work);
      }
    case Backward(undo) =>
  }

  lemma {:induction false} RunsKeepOutcome(rs: Runs, a: Action, ts: Runs)
    requires StepRuns(rs, a, ts)
    ensures WillRuns(ts) == WillRuns(rs)
  {
    if ts.tail == rs.tail && StepRun(rs.head, a, ts.head) {
      RunKeepsOutcome(rs.head, a, ts.head);
    } else {
      RunsKeepOutcome(rs.tail, a, ts.tail);
    }
  }

  lemma {:induction false} WorkKeepsOutcome(w: Work, a: Action, t: Work)
    requires StepWork(w, a, t)
    ensures WillWork(t) == WillWork(w)
  {
    match w
    case DoLeaf(_, _, _) =>
    case DoParallel(runs) =>
      if AllEnded(runs) {
        EndedWill(runs);
      } else {
        RunsKeepOutcome(runs, a, t.runs);
      }
    case RollBack(undos) =>
    case DoFallback(run, untried) =>
      if !Ended(run) {
        RunKeepsOutcome(run, a, t.run);
      }
  }

  // ---- Every step uses up a bounded supply ----

  function UndoCost(log: WorkLog): nat {
    match log
    case LeafLog(_, _) => 2
    case ParallelLog(branches) => 2 + UndoCostOfStacks(branches)
    case FallbackLog(succeeded) => 2 + UndoCostOfLogs(succeeded)
  }

  function UndoCostOfLogs(logs: Logs): nat {
    match logs
    case NoLogs => 0
    case Logs(head, tail) => UndoCost(head) + UndoCostOfLogs(tail)
  }

  function UndoCostOfStacks(stacks: Stacks): nat {
    match stacks
    case NoStacks => 0
    case Stacks(head, tail) => UndoCostOfLogs(head) + UndoCostOfStacks(tail)
  }

  /** Steps enough for doing the item and undoing it. */
  function Cost(item: WorkItem): nat {
    match item
    case Leaf(_, _, _) => 5
    case Parallel(branches) => 5 + CostOfSlips(branches)
    case Fallback(alternatives) => 5 + CostOfSlips(alternatives)
  }

  function CostOfItems(items: Items): nat {
    match items
    case NoItems => 0
    case Items(head, tail) => Cost(head) + CostOfItems(tail)
  }

  function CostOfSlips(slips: Slips): nat {
    match slips
    case NoSlips => 0
    case Slips(head, tail) => CostOfItems(head) + 4 + CostOfSlips(tail)
  }

  function LeftUndo(u: Undo): nat {
    LeftComp(u.now) + UndoCostOfLogs(u.rest)
  }

  function LeftComp(c: Comp): nat {
    match c
    case Nothing => 0
    case UndoLeaf(_) => 1
    case UndoBranches(undos) => 1 + LeftUndos(undos)
    case UndoAlternative(undo) => 1 + LeftUndo(undo)
  }

  function LeftUndos(us: Undos): nat {
    match us
    case NoUndos => 0
    case Undos(head, tail) => LeftUndo(head) + LeftUndos(tail)
  }

  function LeftRun(r: Run): nat {
    match r
    case Forward(pending, done) => CostOfItems(pending) + UndoCostOfLogs(done) + 3
    case Working(work, pending, done) => LeftWork(work) + CostOfItems(pending) + UndoCostOfLogs(done) + 2
    case Backward(undo) => LeftUndo(undo) + 1
    case Succeeded(done) => UndoCostOfLogs(done)
    case Failed => 0
  }

  function LeftRuns(rs: Runs): nat {
    match rs
    case NoRuns => 0
    case Runs(head, tail) => LeftRun(head) + LeftRuns(tail)
  }

  function LeftWork(w: Work): nat {
    match w
    case DoLeaf(_, _, _) => 5
    case DoParallel(runs) => LeftRuns(runs) + 5
    case RollBack(undos) => LeftUndos(undos) + 1
    case DoFallback(run, untried) => LeftRun(run) + CostOfSlips(untried) + 5
    case Result(log) => if log.Some? then UndoCost(log.value) + 2 else 0
  }

  lemma {:induction false} StartAllCost(slips: Slips)
    ensures LeftRuns(StartAll(slips)) <= CostOfSlips(slips)
  {
    if slips.Slips? {
      StartAllCost(slips.tail);
    }
  }

  lemma StartCost(item: WorkItem)
    ensures LeftWork(Start(item)) <= Cost(item)
  {
    if item.Parallel? {
      StartAllCost(item.branches);
    }
  }

  lemma {:induction false} UndoAllCost(stacks: Stacks)
    ensures LeftUndos(UndoAll(stacks)) == UndoCostOfStacks(stacks)
  {
    if stacks.Stacks? {
      UndoAllCost(stacks.tail);
      assert LeftUndo(Undo(Nothing, stacks.head)) == UndoCostOfLogs(stacks.head);
    }
  }

  lemma StartUndoCost(log: WorkLog)
    ensures LeftComp(StartUndo(log)) < UndoCost(log)
  {
    match log
    case LeafLog(_, _) =>
    case ParallelLog(branches) => UndoAllCost(branches);
    case FallbackLog(succeeded) => assert LeftUndo(Undo(Nothing, succeeded)) == UndoCostOfLogs(succeeded);
  }

  lemma {:induction false} EndedCost(rs: Runs)
    requires AllEnded(rs)
    ensures LeftRuns(rs) == UndoCostOfStacks(StacksOf(rs))
  {
    if rs.Runs? {
      EndedCost(rs.tail);
    }
  }

  lemma {:induction false} UndoShrinks(u: Undo, a: Action, v: Undo)
    requires StepUndo(u, a, v)
    ensures LeftUndo(v) < LeftUndo(u)
  {
    match u.now
    case Nothing => StartUndoCost(u.rest.head);
    case UndoLeaf(_) =>
    case UndoBranches(undos) =>
      if !AllUnwound(undos) {
        UndosShrink(undos, a, v.now.undos);
      }
    case UndoAlternative(undo) =>
      if !Unwound(undo) {
        UndoShrinks(undo, a, v.now.undo);
      }
  }

  lemma {:induction false} UndosShrink(us: Undos, a: Action, vs: Undos)
    requires StepUndos(us, a, vs)
    ensures LeftUndos(vs) < LeftUndos(us)
  {
    if vs.tail == us.tail && StepUndo(us.head, a, vs.head) {
      UndoShrinks(us.head, a, vs.head);
    } else {
      UndosShrink(us.tail, a, vs.tail);
    }
  }

  lemma {:induction false} RunShrinks(r: Run, a: Action, t: Run)
    requires StepRun(r, a, t)
    ensures LeftRun(t) < LeftRun(r)
  {
    match r
    case Forward(NoItems, _) =>
    case Forward(Items(head, _), _) => StartCost(head);
    case Working(work, _, _) =>
      if !work.Result? {
        WorkShrinks(work, a, t.work);
      }
    case Backward(undo) =>
      if !Unwound(undo) {
        UndoShrinks(undo, a, t.undo);
      }
  }

  lemma {:induction false} RunsShrink(rs: Runs, a: Action, ts: Runs)
    requires StepRuns(rs, a, ts)
    ensures LeftRuns(ts) < LeftRuns(rs)
  {
    if ts.tail == rs.tail && StepRun(rs.head, a, ts.head) {
      RunShrinks(rs.head, a, ts.head);
    } else {
      RunsShrink(rs.tail, a, ts.tail);
    }
  }

  lemma {:induction false} WorkShrinks(w: Work, a: Action, t: Work)
    requires StepWork(w, a, t)
    ensures LeftWork(t) < LeftWork(w)
  {
    match w
    case DoLeaf(_, _, _) =>
    case DoParallel(runs) =>
      if AllEnded(runs) {
        EndedCost(runs);
        UndoAllCost(StacksOf(runs));
      } else {
        RunsShrink(runs, a, t.runs);
      }
    case RollBack(undos) =>
      if !AllUnwound(undos) {
        UndosShrink(undos, a, t.undos);
      }
    case DoFallback(run, untried) =>
      if !Ended(run) {
        RunShrinks(run, a, t.run);
      }
  }

  // ---- No run gets stuck ----

  lemma {:induction false} UndoGoesOn(u: Undo) returns (a: Action, v: Undo)
    requires !Unwound(u)
    ensures StepUndo(u, a, v)
  {
    match u.now
    case Nothing =>
      a, v := Tau, Undo(StartUndo(u.rest.head), u.rest.tail);
    case UndoLeaf(id) =>
      a, v := Undone(id), Undo(Nothing, u.rest);
    case UndoBranches(undos) =>
      if AllUnwound(undos) {
        a, v := Tau, Undo(Nothing, u.rest);
      } else {
        var vs;
        a, vs := UndosGoOn(undos);
        v := Undo(UndoBranches(vs), u.rest);
      }
    case UndoAlternative(undo) =>
      if Unwound(undo) {
        a, v := Tau, Undo(Nothing, u.rest);
      } else {
        var next;
        a, next := UndoGoesOn(undo);
        v := Undo(UndoAlternative(next), u.rest);
      }
  }

  lemma {:induction false} UndosGoOn(us: Undos) returns (a: Action, vs: Undos)
    requires !AllUnwound(us)
    ensures StepUndos(us, a, vs)
  {
    if Unwound(us.head) {
      var rest;
      a, rest := UndosGoOn(us.tail);
      vs := Undos(us.head, rest);
    } else {
      var first;
      a, first := UndoGoesOn(us.head);
      vs := Undos(first, us.tail);
    }
  }

  lemma {:induction false} RunGoesOn(r: Run) returns (a: Action, t: Run)
    requires !Ended(r)
    ensures StepRun(r, a, t)
  {
    match r
    case Forward(NoItems, done) =>
      a, t := Tau, Succeeded(done);
    case Forward(Items(head, tail), done) =>
      a, t := Tau, Working(Start(head), tail, done);
    case Working(work, pending, done) =>
      if work.Result? {
        a := Tau;
        t := if work.log.Some? then Forward(pending, Logs(work.log.value, done)) else Backward(Undo(Nothing, done));
      } else {
        var next;
        a, next := WorkGoesOn(work);
        t := Working(next, pending, done);
      }
    case Backward(undo) =>
      if Unwound(undo) {
        a, t := Tau, Failed;
      } else {
        var next;
        a, next := UndoGoesOn(undo);
        t := Backward(next);
      }
  }

  lemma {:induction false} RunsGoOn(rs: Runs) returns (a: Action, ts: Runs)
    requires !AllEnded(rs)
    ensures StepRuns(rs, a, ts)
  {
    if Ended(rs.head) {
      var rest;
      a, rest := RunsGoOn(rs.tail);
      ts := Runs(rs.head, rest);
    } else {
      var first;
      a, first := RunGoesOn(rs.head);
      ts := Runs(first, rs.tail);
    }
  }

  lemma {:induction false} WorkGoesOn(w: Work) returns (a: Action, t: Work)
    requires !w.Result?
    ensures StepWork(w, a, t)
  {
    match w
    case DoLeaf(activity, id, ok) =>
      a := if ok then Done(id) else Tau;
      t := Result(if ok then Some(LeafLog(activity, id)) else None);
    case DoParallel(runs) =>
      if AllEnded(runs) {
        a := Tau;
        t := if AllSucceeded(runs) then Result(Some(ParallelLog(StacksOf(runs)))) else RollBack(UndoAll(StacksOf(runs)));
      } else {
        var next;
        a, next := RunsGoOn(runs);
        t := DoParallel(next);
      }
    case RollBack(undos) =>
      if AllUnwound(undos) {
        a, t := Tau, Result(None);
      } else {
        var next;
        a, next := UndosGoOn(undos);
        t := RollBack(next);
      }
    case DoFallback(run, untried) =>
      if Ended(run) {
        a := Tau;
        t := if run.Succeeded? then Result(Some(FallbackLog(run.done))) else TryNext(untried);
      } else {
        var next;
        a, next := RunGoesOn(run);
        t := DoFallback(next, untried);
      }
  }
}
