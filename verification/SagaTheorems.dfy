/** What every run of the saga machine comes to, whatever the schedule. */
module SagaTheorems {
  import opened Sagas
  import opened SagaMachine

  // ---- Whole runs ----

  function Did(actions: seq<Action>): multiset<int> {
    if actions == [] then multiset{}
    else Did(actions[..|actions| - 1]) + DoneBy(actions[|actions| - 1])
  }

  function WasUndone(actions: seq<Action>): multiset<int> {
    if actions == [] then multiset{}
    else WasUndone(actions[..|actions| - 1]) + UndoneBy(actions[|actions| - 1])
  }

  ghost predicate IsWorkRun(ws: seq<Work>, actions: seq<Action>) {
    |ws| == |actions| + 1 && forall i :: 0 <= i < |actions| ==> StepWork(ws[i], actions[i], ws[i + 1])
  }

  ghost predicate IsSlipRun(rs: seq<Run>, actions: seq<Action>) {
    |rs| == |actions| + 1 && forall i :: 0 <= i < |actions| ==> StepRun(rs[i], actions[i], rs[i + 1])
  }

  ghost predicate IsUndoRun(us: seq<Undo>, actions: seq<Action>) {
    |us| == |actions| + 1 && forall i :: 0 <= i < |actions| ==> StepUndo(us[i], actions[i], us[i + 1])
  }

  lemma BalancesAdd(start: multiset<int>, did: multiset<int>, undid: multiset<int>,
                    now: multiset<int>, a: Action, next: multiset<int>)
    requires start + did == now + undid && Balances(now, a, next)
    ensures start + (did + DoneBy(a)) == next + (undid + UndoneBy(a))
  {
    assert start + (did + DoneBy(a)) == (start + did) + DoneBy(a);
    assert now + undid + DoneBy(a) == now + DoneBy(a) + undid;
    assert next + (undid + UndoneBy(a)) == next + UndoneBy(a) + undid;
  }

  lemma {:induction false} WorkRunFacts(ws: seq<Work>, actions: seq<Action>)
    requires IsWorkRun(ws, actions)
    ensures HeldWork(ws[0]) + Did(actions) == HeldWork(ws[|actions|]) + WasUndone(actions)
    ensures WillWork(ws[|actions|]) == WillWork(ws[0])
    ensures |actions| + LeftWork(ws[|actions|]) <= LeftWork(ws[0])
    decreases |actions|
  {
    if actions != [] {
      var n := |actions| - 1;
      WorkRunFacts(ws[..n + 1], actions[..n]);
      WorkBalances(ws[n], actions[n], ws[n + 1]);
      BalancesAdd(HeldWork(ws[0]), Did(actions[..n]), WasUndone(actions[..n]),
                  HeldWork(ws[n]), actions[n], HeldWork(ws[n + 1]));
      WorkKeepsOutcome(ws[n], actions[n], ws[n + 1]);
      WorkShrinks(ws[n], actions[n], ws[n + 1]);
    }
  }

  lemma {:induction false} SlipRunFacts(rs: seq<Run>, actions: seq<Action>)
    requires IsSlipRun(rs, actions)
    ensures HeldRun(rs[0]) + Did(actions) == HeldRun(rs[|actions|]) + WasUndone(actions)
    ensures WillRun(rs[|actions|]) == WillRun(rs[0])
    ensures |actions| + LeftRun(rs[|actions|]) <= LeftRun(rs[0])
    decreases |actions|
  {
    if actions != [] {
      var n := |actions| - 1;
      SlipRunFacts(rs[..n + 1], actions[..n]);
      RunBalances(rs[n], actions[n], rs[n + 1]);
      BalancesAdd(HeldRun(rs[0]), Did(actions[..n]), WasUndone(actions[..n]),
                  HeldRun(rs[n]), actions[n], HeldRun(rs[n + 1]));
      RunKeepsOutcome(rs[n], actions[n], rs[n + 1]);
      RunShrinks(rs[n], actions[n], rs[n + 1]);
    }
  }

  lemma {:induction false} UndoRunFacts(us: seq<Undo>, actions: seq<Action>)
    requires IsUndoRun(us, actions)
    ensures Did(actions) == multiset{}
    ensures HeldUndo(us[0]) == HeldUndo(us[|actions|]) + WasUndone(actions)
    ensures |actions| + LeftUndo(us[|actions|]) <= LeftUndo(us[0])
    decreases |actions|
  {
    if actions != [] {
      var n := |actions| - 1;
      UndoRunFacts(us[..n + 1], actions[..n]);
      UndoBalances(us[n], actions[n], us[n + 1]);
      BalancesAdd(HeldUndo(us[0]), Did(actions[..n]), WasUndone(actions[..n]),
                  HeldUndo(us[n]), actions[n], HeldUndo(us[n + 1]));
      UndoShrinks(us[n], actions[n], us[n + 1]);
    }
  }

  /**
   All or nothing: under any interleaving, do_work ends with the outcome its item determines; what
   it did and did not undo is exactly the effects of its log, and nothing when it failed.
   */
  lemma DoWorkIsAllOrNothing(item: WorkItem, ws: seq<Work>, actions: seq<Action>)
    requires IsWorkRun(ws, actions) && ws[0] == Start(item) && ws[|actions|].Result?
    ensures var log := ws[|actions|].log;
      && log == Outcome(item)
      && Did(actions) == WasUndone(actions) + if log.Some? then Effects(log.value) else multiset{}
  {
    WorkRunFacts(ws, actions);
    StartWill(item);
    NothingHeldAtStart(item);
    hide Start, Outcome, StepWork, IsWorkRun, Did, WasUndone, Effects;
    assert Did(actions) == multiset{} + Did(actions);
    ghost var last := ws[|actions|];
    assert HeldWork(last) == if last.log.Some? then Effects(last.log.value) else multiset{};
    assert WillWork(last) == last.log;
  }

  /** At no moment has more been undone than done. */
  lemma NothingUndoneTooEarly(item: WorkItem, ws: seq<Work>, actions: seq<Action>, id: int)
    requires IsWorkRun(ws, actions) && ws[0] == Start(item)
    ensures WasUndone(actions)[id] <= Did(actions)[id]
  {
    WorkRunFacts(ws, actions);
    NothingHeldAtStart(item);
    assert Did(actions) == multiset{} + Did(actions);
  }

  /** The loop that runs a slip forward and unwinds it after a failure is all or nothing too. */
  lemma SlipIsAllOrNothing(items: Items, rs: seq<Run>, actions: seq<Action>)
    requires IsSlipRun(rs, actions) && rs[0] == Forward(items, NoLogs) && Ended(rs[|actions|])
    ensures var last := rs[|actions|];
      && last == (if OutcomeOfItems(items, NoLogs).Some? then Succeeded(OutcomeOfItems(items, NoLogs).value) else Failed)
      && Did(actions) == WasUndone(actions) + if last.Succeeded? then EffectsOfLogs(last.done) else multiset{}
  {
    SlipRunFacts(rs, actions);
    assert Did(actions) == multiset{} + Did(actions);
  }

  /** Unwinding a stack does nothing new and undoes each effect on it exactly once. */
  lemma UnwindingUndoesExactlyOnce(logs: Logs, us: seq<Undo>, actions: seq<Action>)
    requires IsUndoRun(us, actions) && us[0] == Undo(Nothing, logs) && Unwound(us[|actions|])
    ensures Did(actions) == multiset{} && WasUndone(actions) == EffectsOfLogs(logs)
  {
    UndoRunFacts(us, actions);
    assert WasUndone(actions) == HeldUndo(us[|actions|]) + WasUndone(actions);
  }

  /** A slip that ran to its end and is unwound later leaves nothing: all it did was undone once. */
  lemma RunThenUnwindLeavesNothing(items: Items, rs: seq<Run>, actions: seq<Action>, us: seq<Undo>, undoing: seq<Action>)
    requires IsSlipRun(rs, actions) && rs[0] == Forward(items, NoLogs) && rs[|actions|].Succeeded?
    requires IsUndoRun(us, undoing) && us[0] == Undo(Nothing, rs[|actions|].done) && Unwound(us[|undoing|])
    ensures Did(actions) + Did(undoing) == WasUndone(actions) + WasUndone(undoing)
  {
    SlipIsAllOrNothing(items, rs, actions);
    UnwindingUndoesExactlyOnce(rs[|actions|].done, us, undoing);
  }

  /** No schedule takes more than `Cost(item)` steps, and until do_work has returned a step is possible. */
  lemma EveryScheduleEnds(item: WorkItem, ws: seq<Work>, actions: seq<Action>)
    requires IsWorkRun(ws, actions) && ws[0] == Start(item)
    ensures |actions| <= Cost(item)
    ensures !ws[|actions|].Result? ==> exists a, t :: StepWork(ws[|actions|], a, t)
  {
    WorkRunFacts(ws, actions);
    StartCost(item);
    if !ws[|actions|].Result? {
      var a, t := WorkGoesOn(ws[|actions|]);
    }
  }
}
