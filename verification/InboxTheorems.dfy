/** What the inbox protocol guarantees in every reachable state. */
module InboxTheorems {
  import opened Digraphs
  import opened InboxProtocol

  // ---- Whole runs ----

  ghost predicate IsRun(cfg: Config, ss: seq<State>, es: seq<Event>) {
    |ss| == |es| + 1 && forall i :: 0 <= i < |es| ==> Step(cfg, ss[i], es[i], ss[i + 1])
  }

  lemma ExtendsItself(s: State)
    ensures Extends(s, s)
  {
  }

  lemma ExtendsTransitive(s: State, t: State, u: State)
    requires Extends(s, t) && Extends(t, u)
    ensures Extends(s, u)
  {
    assert forall k :: Processed(s, k) ==> Processed(t, k);
  }

  lemma {:induction false} RunExtends(cfg: Config, ss: seq<State>, es: seq<Event>, i: nat, j: nat)
    requires IsRun(cfg, ss, es) && Inv(ss[0]) && i <= j <= |es|
    ensures Inv(ss[i]) && Inv(ss[j]) && Extends(ss[i], ss[j])
    decreases j
  {
    hide Inv, Step, Extends;
    if j == 0 {
      ExtendsItself(ss[0]);
    } else {
      RunExtends(cfg, ss, es, if i < j then i else j - 1, j - 1);
      StepKeepsInv(cfg, ss[j - 1], es[j - 1], ss[j]);
      if i < j {
        ExtendsTransitive(ss[i], ss[j - 1], ss[j]);
      } else {
        ExtendsItself(ss[j]);
      }
    }
  }

  lemma Reachable(cfg: Config, ss: seq<State>, es: seq<Event>)
    requires IsRun(cfg, ss, es) && Init(ss[0])
    ensures Inv(ss[|es|])
  {
    InitInv(ss[0]);
    RunExtends(cfg, ss, es, |es|, |es|);
  }

  /** Whatever the workers do at the same time, a processed message comes after all it depends on. */
  lemma CausalOrder(cfg: Config, ss: seq<State>, es: seq<Event>, k: Key)
    requires IsRun(cfg, ss, es) && Init(ss[0]) && Processed(ss[|es|], k)
    ensures var s := ss[|es|];
      forall d :: d in s.rows[k].msg.deps ==>
        Processed(s, d) && s.rows[d].processed.value < s.rows[k].processed.value
  {
    Reachable(cfg, ss, es);
  }

  /**
   No message is processed twice: the processing of each is committed once, at a position no other
   message has, and nothing that happens later changes that or the message as first received.
   */
  lemma ProcessedOnce(cfg: Config, ss: seq<State>, es: seq<Event>, i: nat, j: nat)
    requires IsRun(cfg, ss, es) && Init(ss[0]) && i <= j <= |es|
    ensures NoDup(ss[j].log) && forall k :: k in ss[j].log <==> Processed(ss[j], k)
    ensures forall k, m :: Processed(ss[j], k) && Processed(ss[j], m) && k != m ==>
              ss[j].rows[k].processed != ss[j].rows[m].processed
    ensures forall k :: Processed(ss[i], k) ==> Processed(ss[j], k) && ss[j].rows[k] == ss[i].rows[k]
    ensures forall k :: k in ss[i].rows ==>
              k in ss[j].rows && ss[j].rows[k].msg == ss[i].rows[k].msg && ss[j].rows[k].received == ss[i].rows[k].received
  {
    InitInv(ss[0]);
    RunExtends(cfg, ss, es, i, j);
  }

  // ---- What can never be processed ----

  function Mentioned(s: State): set<Key> {
    s.rows.Keys + set k, d | k in s.rows && d in s.rows[k].msg.deps :: d
  }

  /** From a message to those that wait for it; one that is not in the inbox waits for itself. */
  function WaitGraph(s: State): Graph<Key> {
    map d | d in Mentioned(s) :: Waiting(s, d)
  }

  function Waiting(s: State, d: Key): set<Key> {
    (set k | k in s.rows && d in s.rows[k].msg.deps) + if d in s.rows then {} else {d}
  }

  lemma LogIsInOrder(s: State)
    requires LogOk(s)
    ensures InOrder(WaitGraph(s), s.log)
  {
    forall i, u | 0 <= i < |s.log| && u in WaitGraph(s) && s.log[i] in Succ(WaitGraph(s), u)
      ensures u in s.log[..i]
    {
      assert Processed(s, s.log[i]);
    }
  }

  /** A message on a cycle of dependencies, or behind one, or behind a missing message, stays unprocessed. */
  lemma TangledIsNeverProcessed(cfg: Config, ss: seq<State>, es: seq<Event>, k: Key)
    requires IsRun(cfg, ss, es) && Init(ss[0]) && Tangled(WaitGraph(ss[|es|]), k)
    ensures !Processed(ss[|es|], k)
  {
    Reachable(cfg, ss, es);
    var s := ss[|es|];
    LogIsInOrder(s);
    hide InOrder, Tangled, WaitGraph;
    if k in s.log {
      OrderedIsUntangled(WaitGraph(s), s.log, k);
    }
  }

  predicate Ready(s: State, k: Key) {
    k in s.rows && s.rows[k].processed.None? && DependenciesProcessed(s, k, |s.rows[k].msg.deps|)
  }

  lemma UnreadyWaits(s: State, k: Key)
    requires LogOk(s) && k in Mentioned(s) - Elems(s.log) && !Ready(s, k)
    ensures HasPredecessorIn(WaitGraph(s), Mentioned(s) - Elems(s.log), k)
  {
    var left := Mentioned(s) - Elems(s.log);
    if k in s.rows {
      var i :| 0 <= i < |s.rows[k].msg.deps| && !Processed(s, s.rows[k].msg.deps[i]);
      var d := s.rows[k].msg.deps[i];
      assert d in s.rows[k].msg.deps;
      assert d in left && k in Succ(WaitGraph(s), d);
    } else {
      assert k in left && k in Succ(WaitGraph(s), k);
    }
  }

  /** When no message is ready any more, exactly the messages that never can be are left. */
  lemma StuckIsTangled(s: State, k: Key)
    requires LogOk(s) && k in s.rows && forall j :: j in s.rows ==> !Ready(s, j)
    ensures !Processed(s, k) <==> Tangled(WaitGraph(s), k)
  {
    var left := Mentioned(s) - Elems(s.log);
    forall x | x in left ensures HasPredecessorIn(WaitGraph(s), left, x) {
      UnreadyWaits(s, x);
    }
    LogIsInOrder(s);
    hide WaitGraph, Tangled, InOrder;
    KahnLeftover(WaitGraph(s), s.log, left, k);
  }
}
