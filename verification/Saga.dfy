/** Work items, work logs, and what a saga is meant to achieve. */
module Sagas {

  import opened Options

  /**
   A leaf has one effect, `id`, unless it fails (`ok` is false), and then it has none. The others
   nest whole routing slips.
   */
  datatype WorkItem =
    | Leaf(activity: string, id: int, ok: bool)
    | Parallel(branches: Slips)
    | Fallback(alternatives: Slips)
  datatype Items = NoItems | Items(head: WorkItem, tail: Items)
  datatype Slips = NoSlips | Slips(head: Items, tail: Slips)

  /** What completed work leaves behind for its compensation. */
  datatype WorkLog =
    | LeafLog(activity: string, id: int)
    | ParallelLog(branches: Stacks)
    | FallbackLog(succeeded: Logs)
  datatype Logs = NoLogs | Logs(head: WorkLog, tail: Logs) // the last completed comes first
  datatype Stacks = NoStacks | Stacks(head: Logs, tail: Stacks)

  // ---- The effects a log stands for ----

  function Effects(log: WorkLog): multiset<int> {
    match log
    case LeafLog(_, id) => multiset{id}
    case ParallelLog(branches) => EffectsOfStacks(branches)
    case FallbackLog(succeeded) => EffectsOfLogs(succeeded)
  }

  function EffectsOfLogs(logs: Logs): multiset<int> {
    match logs
    case NoLogs => multiset{}
    case Logs(head, tail) => Effects(head) + EffectsOfLogs(tail)
  }

  function EffectsOfStacks(stacks: Stacks): multiset<int> {
    match stacks
    case NoStacks => multiset{}
    case Stacks(head, tail) => EffectsOfLogs(head) + EffectsOfStacks(tail)
  }

  // ---- The outcome, whatever the schedule ----

  function Outcome(item: WorkItem): Option<WorkLog> {
    match item
    case Leaf(activity, id, ok) => if ok then Some(LeafLog(activity, id)) else None
    case Parallel(branches) =>
      (match OutcomeOfAll(branches)
       case Some(stacks) => Some(ParallelLog(stacks))
       case None => None)
    case Fallback(alternatives) =>
      (match OutcomeOfFirst(alternatives)
       case Some(logs) => Some(FallbackLog(logs))
       case None => None)
  }

  /** The stack of a slip after all of `items`, on top of what was done before. */
  function OutcomeOfItems(items: Items, done: Logs): Option<Logs> {
    match items
    case NoItems => Some(done)
    case Items(head, tail) =>
      (match Outcome(head)
       case Some(log) => OutcomeOfItems(tail, Logs(log, done))
       case None => None)
  }

  /** Every branch must succeed. */
  function OutcomeOfAll(slips: Slips): Option<Stacks> {
    match slips
    case NoSlips => Some(NoStacks)
    case Slips(head, tail) =>
      var first, rest := OutcomeOfItems(head, NoLogs), OutcomeOfAll(tail);
      if first.Some? && rest.Some? then Some(Stacks(first.value, rest.value)) else None
  }

  /** The first alternative that succeeds. */
  function OutcomeOfFirst(slips: Slips): Option<Logs> {
    match slips
    case NoSlips => None
    case Slips(head, tail) =>
      var first := OutcomeOfItems(head, NoLogs);
      if first.Some? then first else OutcomeOfFirst(tail)
  }
}
