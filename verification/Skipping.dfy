/** Agreement among N nodes that may take each other for dead: when order survives the skipping of messages. */
module Skipping {
  import opened Order
  import opened Heap
  import opened Votes
  import opened Node
  import opened Isis
  import Counting
  import TotalOrder

  ghost predicate Follows(s: State, s': State) {
    exists a :: Isis.Next(s, a, s')
  }

  /** A run from the start, in which every node may take any set of nodes for live at any time. */
  ghost predicate IsRun(run: seq<State>) {
    && run != [] && (exists members :: run[0] == Initial(members))
    && forall i :: 0 <= i < |run| - 1 ==> Follows(run[i], run[i + 1])
  }

  /** N times the messages submitted stays below 2^64. */
  ghost predicate WithinCounters(s: State) {
    |s.asked| * |s.members| < UINT64_SPAN
  }

  lemma NextAdds(s: State, a: Action, s': State)
    requires Isis.Next(s, a, s')
    ensures s'.members == s.members && s.asked.Keys <= s'.asked.Keys
  {
    hide Learns;
  }

  lemma WithinCountersBefore(s: State, s': State)
    requires WithinCounters(s') && s'.members == s.members && s.asked.Keys <= s'.asked.Keys
    ensures WithinCounters(s)
  {
    Counting.SubsetSize(s.asked.Keys, s'.asked.Keys);
    assert |s.asked| == |s.asked.Keys| && |s'.asked| == |s'.asked.Keys|;
    assert |s'.asked| * |s.members| == |s.asked| * |s.members| + (|s'.asked| - |s.asked|) * |s.members|;
  }

  lemma {:induction false} RunKeepsInv(run: seq<State>, i: nat)
    requires IsRun(run) && i < |run| && WithinCounters(run[i])
    ensures Inv(run[i]) && Counting.Counted(run[i])
  {
    hide Inv, Isis.Next, WithinCounters, Counting.Counted;
    if i == 0 {
      var members :| run[0] == Initial(members);
      InitialInv(members);
      Counting.InitialCounted(members);
    } else {
      assert Follows(run[i - 1], run[i]);
      var a :| Isis.Next(run[i - 1], a, run[i]);
      NextAdds(run[i - 1], a, run[i]);
      WithinCountersBefore(run[i - 1], run[i]);
      RunKeepsInv(run, i - 1);
      Counting.NextKeepsCounted(run[i - 1], a, run[i]);
      NextKeepsShape(run[i - 1], a, run[i]);
      HandledFits(run[i]);
      NextKeepsInv(run[i - 1], a, run[i]);
    }
  }

  lemma HandledFits(s: State)
    requires Counting.Counted(s) && Shape(s) && WithinCounters(s)
    ensures s.handled < UINT64_SPAN
  {
    Counting.HandledIsBounded(s);
  }

  /**
   Total order under timeouts, exactly. At any moment of any run, of two nodes' logs one is a prefix of the
   other if and only if neither node has skipped a message that the other has delivered within the length of
   the shorter log.
   */
  lemma LogsComparableIff(run: seq<State>, i: nat, a: NodeId, b: NodeId)
    requires IsRun(run) && i < |run| && WithinCounters(run[i]) && a in run[i].members && b in run[i].members
    ensures a in run[i].locals && b in run[i].locals
    ensures var x, y := TotalOrder.LogOf(run[i], a), TotalOrder.LogOf(run[i], b);
            x <= y || y <= x <==> !TotalOrder.Missed(run[i], a, b) && !TotalOrder.Missed(run[i], b, a)
  {
    hide IsRun, WithinCounters, Inv, TotalOrder.Missed;
    RunKeepsInv(run, i);
    TotalOrder.MemberHasLog(run[i], a);
    TotalOrder.MemberHasLog(run[i], b);
    TotalOrder.LogsArePrefixesIff(run[i], a, b);
  }

  // ---------- When nothing is skipped ----------

  /** The delivery loop of this step stops, if at all, at a message whose source is taken for live. */
  ghost predicate StopsAtLive(s: State, a: Action) {
    a.Learn? && a.n in s.locals && a.m in s.agreed && a.m in s.locals[a.n].node.hold ==>
      forall u :: IsHead(DeliverAll(Raise(s.locals[a.n].node, a.m, s.agreed[a.m]), a.xs).hold, u) && !u.agreed ==> u.procId in a.alive
  }

  ghost predicate NothingSkipped(s: State) {
    forall n :: n in s.members && n in s.locals ==> s.locals[n].node.skipped == []
  }

  lemma LearnSkipsNothing(n: Node, m: MsgId, k: Key, alive: set<NodeId>, now: int, xs: seq<Item>, n': Node)
    requires Learns(n, m, k, alive, now, xs, n') && n.skipped == []
    requires m in n.hold ==> forall u :: IsHead(DeliverAll(Raise(n, m, k), xs).hold, u) && !u.agreed ==> u.procId in alive
    ensures n'.skipped == []
  {
    DeliverAllKeepsWaiting(Raise(n, m, k), xs);
  }

  lemma StepSkipsNothing(s: State, a: Action, s': State)
    requires Isis.Next(s, a, s') && StopsAtLive(s, a) && NothingSkipped(s)
    ensures NothingSkipped(s')
  {
    hide DoTally, DeliverAll;
    match a
    case Submit(m, src, body) =>
    case Handle(n, m) =>
    case Tally(l) => TallyTouches(s, l);
    case Learn(n, m, alive, now, xs) =>
      var node :| Learns(s.locals[n].node, m, s.agreed[m], alive, now, xs, node) && s' == Learned(s, n, m, node);
      assert n in s.members && s.locals[n].node.skipped == [];
      LearnSkipsNothing(s.locals[n].node, m, s.agreed[m], alive, now, xs, node);
      assert s' == Learned(s, n, m, node);
      assert s'.locals[n] == Local(node, s.locals[n].proposed, s.locals[n].heard + {m});
  }

  ghost predicate FollowsSeeing(s: State, s': State) {
    exists a :: Isis.Next(s, a, s') && StopsAtLive(s, a)
  }

  lemma {:induction false} NothingSkippedSoFar(run: seq<State>, i: nat)
    requires IsRun(run) && i < |run| && forall k :: 0 <= k < i ==> FollowsSeeing(run[k], run[k + 1])
    ensures NothingSkipped(run[i])
  {
    hide Isis.Next, StopsAtLive;
    if i > 0 {
      NothingSkippedSoFar(run, i - 1);
      assert FollowsSeeing(run[i - 1], run[i - 1 + 1]);
      var a :| Isis.Next(run[i - 1], a, run[i]) && StopsAtLive(run[i - 1], a);
      StepSkipsNothing(run[i - 1], a, run[i]);
    }
  }

  /** Total order holds as long as every unagreed head a delivery loop stops at has its source taken for live. */
  lemma OrderedWhileSourcesAreSeen(run: seq<State>, i: nat, a: NodeId, b: NodeId)
    requires IsRun(run) && i < |run| && WithinCounters(run[i]) && a in run[i].members && b in run[i].members
    requires forall k :: 0 <= k < i ==> FollowsSeeing(run[k], run[k + 1])
    ensures a in run[i].locals && b in run[i].locals
    ensures var x, y := TotalOrder.LogOf(run[i], a), TotalOrder.LogOf(run[i], b); x <= y || y <= x
  {
    hide IsRun, WithinCounters, FollowsSeeing;
    NothingSkippedSoFar(run, i);
    LogsComparableIff(run, i, a, b);
  }
}
