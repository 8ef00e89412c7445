/** What the whole stack guarantees over its runs. */
module Guarantees {
  import opened Order
  import opened Heap
  import opened Votes
  import opened Node
  import opened System
  import Counting
  import Isis
  import TotalOrder
  import RM = RMulticast

  ghost predicate Follows(s: State, s': State) {
    exists a :: System.Next(s, a, s')
  }

  /** A run from the start: each state follows from the one before by a step. */
  ghost predicate IsRun(run: seq<State>) {
    && run != [] && (exists members :: run[0] == Initial(members))
    && forall i :: 0 <= i < |run| - 1 ==> Follows(run[i], run[i + 1])
  }

  /** N times the messages submitted stays below 2^64: the uint64 sequence counters cannot run out. */
  ghost predicate WithinCounters(s: State) {
    |s.core.asked| * |s.core.members| < UINT64_SPAN
  }

  ghost predicate Sound(s: State) {
    System.Inv(s) && Counting.Counted(s.core)
  }

  /** Members never change and messages are only added. */
  lemma NextAdds(s: State, a: Action, s': State)
    requires System.Next(s, a, s')
    ensures s'.core.members == s.core.members && s.core.asked.Keys <= s'.core.asked.Keys
    ensures a.Submit? || s'.core.asked == s.core.asked
  {
    hide Issues, Handles, RM.Step;
    match a
    case Submit(m, src, body) =>
    case Receive(j, k, now, xs) => ReceiveTouches(s, j, k, now, xs, s');
    case Collect(letter) =>
  }

  lemma WithinCountersBefore(s: State, s': State)
    requires WithinCounters(s') && s'.core.members == s.core.members && s.core.asked.Keys <= s'.core.asked.Keys
    ensures WithinCounters(s)
  {
    Counting.SubsetSize(s.core.asked.Keys, s'.core.asked.Keys);
    assert |s.core.asked| == |s.core.asked.Keys| && |s'.core.asked| == |s'.core.asked.Keys|;
    ProductMonotone(|s.core.asked|, |s'.core.asked|, |s.core.members|);
  }

  lemma ProductMonotone(x: nat, y: nat, n: nat)
    requires x <= y
    ensures x * n <= y * n
  {
    assert y * n == x * n + (y - x) * n;
  }

  lemma NextKeepsSound(s: State, a: Action, s': State)
    requires Sound(s) && System.Next(s, a, s') && WithinCounters(s')
    ensures Sound(s')
  {
    hide Submits, Collects, Handles, RM.Step, Isis.Inv, Counting.Counted, NoFailures, Linked, InStep, ProposesInOrder, Isis.Next;
    IsisInvShape(s.core);
    StepRefinesIsis(s, a, s');
    if CoreAction(s, a).Some? {
      Counting.NextKeepsCounted(s.core, CoreAction(s, a).value, s'.core);
      Isis.NextKeepsShape(s.core, CoreAction(s, a).value, s'.core);
    }
    Counting.HandledIsBounded(s'.core);
    System.NextKeepsInv(s, a, s');
  }

  lemma {:induction false} RunIsSound(run: seq<State>, i: nat)
    requires IsRun(run) && i < |run| && WithinCounters(run[i])
    ensures Sound(run[i])
  {
    hide Sound, System.Next, WithinCounters;
    if i == 0 {
      var members :| run[0] == Initial(members);
      InitialSound(members);
    } else {
      assert Follows(run[i - 1], run[i]);
      var a :| System.Next(run[i - 1], a, run[i]);
      NextAdds(run[i - 1], a, run[i]);
      WithinCountersBefore(run[i - 1], run[i]);
      RunIsSound(run, i - 1);
      NextKeepsSound(run[i - 1], a, run[i]);
    }
  }

  lemma InitialSound(members: set<NodeId>)
    ensures Sound(Initial(members))
  {
    System.InitialInv(members);
    Counting.InitialCounted(members);
  }

  // ---------- Logs along a run ----------

  lemma {:induction false} RunAdds(run: seq<State>, i: nat, j: nat)
    requires IsRun(run) && i <= j < |run|
    ensures run[j].core.members == run[i].core.members && run[i].core.asked.Keys <= run[j].core.asked.Keys
    ensures WithinCounters(run[j]) ==> WithinCounters(run[i])
  {
    hide System.Next, WithinCounters;
    if i < j {
      RunAdds(run, i, j - 1);
      assert Follows(run[j - 1], run[j]);
      var a :| System.Next(run[j - 1], a, run[j]);
      NextAdds(run[j - 1], a, run[j]);
      if WithinCounters(run[j]) {
        WithinCountersBefore(run[j - 1], run[j]);
      }
    }
  }

  lemma MemberIsLocal(s: State, n: NodeId)
    requires Sound(s) && n in s.core.members
    ensures n in s.core.locals
  {
  }

  lemma StepGrowsLog(s: State, a: Action, s': State, n: NodeId)
    requires Sound(s) && System.Next(s, a, s') && n in s.core.members
    ensures n in s.core.locals && n in s'.core.locals && TotalOrder.LogOf(s.core, n) <= TotalOrder.LogOf(s'.core, n)
  {
    hide Submits, Collects, Handles, RM.Step, Isis.Inv, Counting.Counted, NoFailures, Linked, InStep, ProposesInOrder, Isis.Next;
    IsisInvShape(s.core);
    StepRefinesIsis(s, a, s');
    if CoreAction(s, a).Some? {
      TotalOrder.LogsGrow(s.core, CoreAction(s, a).value, s'.core, n);
    }
  }

  /** Logs are append-only. */
  lemma {:induction false} LogsOnlyGrow(run: seq<State>, i: nat, j: nat, n: NodeId)
    requires IsRun(run) && i <= j < |run| && WithinCounters(run[j]) && n in run[i].core.members
    ensures n in run[i].core.locals && n in run[j].core.locals
    ensures TotalOrder.LogOf(run[i].core, n) <= TotalOrder.LogOf(run[j].core, n)
  {
    hide System.Next, WithinCounters, Sound;
    RunAdds(run, i, j);
    if i < j {
      RunAdds(run, i, j - 1);
      RunAdds(run, j - 1, j);
      LogsOnlyGrow(run, i, j - 1, n);
      RunIsSound(run, j - 1);
      assert Follows(run[j - 1], run[j]);
      var a :| System.Next(run[j - 1], a, run[j]);
      StepGrowsLog(run[j - 1], a, run[j], n);
    } else {
      RunIsSound(run, i);
      MemberIsLocal(run[i], n);
    }
  }

  /**
   Total order, across nodes and across time: of what node `a` has delivered by one moment and node `b` by
   another, one is a prefix of the other.
   */
  lemma TotalOrderDelivery(run: seq<State>, i: nat, a: NodeId, j: nat, b: NodeId)
    requires IsRun(run) && i < |run| && j < |run| && WithinCounters(run[|run| - 1])
    requires a in run[i].core.members && b in run[j].core.members
    ensures a in run[i].core.locals && b in run[j].core.locals
    ensures var x, y := TotalOrder.LogOf(run[i].core, a), TotalOrder.LogOf(run[j].core, b); x <= y || y <= x
  {
    hide WithinCounters, Isis.Inv;
    var last := |run| - 1;
    LogsOnlyGrow(run, i, last, a);
    LogsOnlyGrow(run, j, last, b);
    RunAdds(run, i, last);
    RunAdds(run, j, last);
    RunIsSound(run, last);
    TotalOrder.LogsArePrefixes(run[last].core, a, b);
  }

  /**
   No late arrivals: whatever is ever agreed below a key that node `n` has delivered, even if submitted
   afterwards, `n` had already delivered before it.
   */
  lemma NothingArrivesLate(run: seq<State>, i: nat, n: NodeId, x: nat, j: nat, m: MsgId) returns (p: nat)
    requires IsRun(run) && i <= j < |run| && WithinCounters(run[j]) && n in run[i].core.locals && n in run[i].core.members
    requires x < |TotalOrder.LogOf(run[i].core, n)|
    requires m in run[j].core.agreed && KeyLess(run[j].core.agreed[m], KeyOf(TotalOrder.LogOf(run[i].core, n)[x]))
    ensures p < x && TotalOrder.LogOf(run[i].core, n)[p].msgId == m
  {
    hide WithinCounters, Isis.Inv, IsRun;
    LogsOnlyGrow(run, i, j, n);
    RunAdds(run, i, j);
    RunIsSound(run, j);
    p := TotalOrder.LogsHaveNoGaps(run[j].core, n, x, m);
  }

  // ---------- Agreement along a run ----------

  /** An announced key is the greatest of all members' proposals for its message, one of each member. */
  lemma AnnouncedIsGreatest(run: seq<State>, i: nat, m: MsgId, n: NodeId)
    requires IsRun(run) && i < |run| && WithinCounters(run[i]) && m in run[i].core.agreed && n in run[i].core.members
    ensures var core, k := run[i].core, run[i].core.agreed[m];
            && n in core.locals && m in core.locals[n].proposed && KeyLeq(Key(core.locals[n].proposed[m], n), k)
            && k.proposer in core.locals && m in core.locals[k.proposer].proposed
            && core.locals[k.proposer].proposed[m] == k.seqNum
  {
    hide IsRun, WithinCounters, NoFailures, Linked, InStep, ProposesInOrder, Counting.Counted;
    hide Isis.NodesOk, Isis.BagOk, Isis.TablesOk, Isis.NoVoteLost;
    RunIsSound(run, i);
    assert Isis.IsQuorumKey(run[i].core, m, run[i].core.agreed[m]);
  }

  lemma StepKeepsAgreed(s: State, a: Action, s': State, m: MsgId)
    requires Sound(s) && System.Next(s, a, s') && m in s.core.agreed
    ensures m in s'.core.agreed && s'.core.agreed[m] == s.core.agreed[m]
  {
    hide Issues, RM.Step, Handles, Isis.DoTally, NoFailures, Linked, InStep, ProposesInOrder, Counting.Counted;
    hide Isis.NodesOk, Isis.AgreedOk, Isis.NoVoteLost;
    match a
    case Submit(_, _, _) =>
    case Receive(j, k, now, xs) => ReceiveTouches(s, j, k, now, xs, s');
    case Collect(letter) =>
      Isis.LetterReachesMember(s.core, letter);
      Isis.TallyRevisesNothing(s.core, letter);
  }

  /** A message is announced under one key for good, and no other message under that key. */
  lemma {:induction false} AgreementsStand(run: seq<State>, i: nat, j: nat, m: MsgId, other: MsgId)
    requires IsRun(run) && i <= j < |run| && WithinCounters(run[j]) && m in run[i].core.agreed
    ensures m in run[j].core.agreed && run[j].core.agreed[m] == run[i].core.agreed[m]
    ensures other in run[j].core.agreed && other != m ==> run[j].core.agreed[other] != run[i].core.agreed[m]
  {
    hide System.Next, WithinCounters, NoFailures, Linked, InStep, ProposesInOrder, Counting.Counted, Isis.BagOk, Isis.TablesOk, Isis.NoVoteLost;
    if i < j {
      RunAdds(run, j - 1, j);
      AgreementsStand(run, i, j - 1, m, other);
      RunIsSound(run, j - 1);
      assert Follows(run[j - 1], run[j]);
      var a :| System.Next(run[j - 1], a, run[j]);
      StepKeepsAgreed(run[j - 1], a, run[j], m);
    }
    RunIsSound(run, j);
    Isis.AgreedKeysDistinct(run[j].core);
  }

  /** A copy under way to node `k` that it has not received yet. */
  ghost predicate Arriving(s: State, j: NodeId, k: NodeId) {
    && (j, k) in s.rm.chan && s.rm.chan[(j, k)] != [] && k in s.rm.received && RM.IsNew(s.rm, j, k)
    && RM.Head(s.rm, j, k) < |s.payload| && k in s.core.members && k in s.core.locals
  }

  /** A node is asked about no message it already holds or has delivered. */
  lemma AsksAreNew(run: seq<State>, i: nat, j: NodeId, k: NodeId)
    requires IsRun(run) && i < |run| && WithinCounters(run[i]) && Arriving(run[i], j, k)
    requires run[i].payload[RM.Head(run[i].rm, j, k)].Asking?
    ensures var m, l := run[i].payload[RM.Head(run[i].rm, j, k)].msgId, run[i].core.locals[k];
            m !in l.node.hold && !Isis.InLog(l, m)
  {
    hide IsRun, WithinCounters, NoFailures, Linked, InStep, ProposesInOrder, Counting.Counted;
    hide Isis.AgreedOk, Isis.BagOk, Isis.TablesOk, Isis.NoVoteLost;
    RunIsSound(run, i);
    var s := run[i];
    var m, l := s.payload[RM.Head(s.rm, j, k)].msgId, s.core.locals[k];
    NewHasNoProposal(s, j, k, m);
    assert Isis.NodeSettled(s.core, k);
  }

  lemma NewIsUnheard(s: State, j: NodeId, k: NodeId, m: MsgId)
    requires Linked(s) && InStep(s) && Arriving(s, j, k)
    requires s.payload[RM.Head(s.rm, j, k)].Announcing? && s.payload[RM.Head(s.rm, j, k)].msgId == m
    ensures m in s.core.agreed && s.payload[RM.Head(s.rm, j, k)].key == s.core.agreed[m] && m !in s.core.locals[k].heard
  {
    assert AnnLinked(s, m) && AnnInStep(s, k, m);
  }

  /**
   An announcement never overtakes its ask: when it first reaches a node, the message is pending there, not
   yet agreed, and the announced key is strictly above the one it is held under.
   */
  lemma AnnouncementsFindTheirItem(run: seq<State>, i: nat, j: NodeId, k: NodeId)
    requires IsRun(run) && i < |run| && WithinCounters(run[i]) && Arriving(run[i], j, k)
    requires run[i].payload[RM.Head(run[i].rm, j, k)].Announcing?
    ensures var load, hold := run[i].payload[RM.Head(run[i].rm, j, k)], run[i].core.locals[k].node.hold;
            && load.msgId in hold && !hold[load.msgId].agreed
            && ItemLess(hold[load.msgId], Rekeyed(hold[load.msgId], load.key))
  {
    hide IsRun, WithinCounters, NoFailures, Linked, InStep, ProposesInOrder, Counting.Counted;
    hide Isis.BagOk, Isis.TablesOk, Isis.NoVoteLost, Isis.IsQuorumKey;
    RunIsSound(run, i);
    var s := run[i];
    var load, l := s.payload[RM.Head(s.rm, j, k)], s.core.locals[k];
    NewIsUnheard(s, j, k, load.msgId);
    Isis.QuorumCovers(s.core, load.msgId, s.core.agreed[load.msgId], k);
    assert Isis.NodeSettled(s.core, k);
    Isis.AgreementRaises(l, s.core.asked, s.core.agreed, load.msgId);
  }

  /** Sequence bound: in every run no number exceeds N times the messages submitted. */
  lemma SequenceBound(run: seq<State>, i: nat, n: NodeId, m: MsgId)
    requires IsRun(run) && i < |run| && WithinCounters(run[i]) && n in run[i].core.members
    ensures n in run[i].core.locals
    ensures var core, bound := run[i].core, |run[i].core.asked| * |run[i].core.members|;
            && core.locals[n].node.maxAgreed <= bound && core.locals[n].node.maxProposed <= bound
            && (m in core.locals[n].proposed ==> core.locals[n].proposed[m] <= bound)
            && (m in core.agreed ==> core.agreed[m].seqNum <= bound)
  {
    hide IsRun, WithinCounters, NoFailures, Linked, InStep, ProposesInOrder, Isis.Inv, Counting.Counted;
    RunIsSound(run, i);
    MemberIsLocal(run[i], n);
    Counting.NumbersAreBounded(run[i].core, n, m);
  }

  /** Every log of every run is strictly increasing in agreed key. */
  lemma LogsInKeyOrder(run: seq<State>, i: nat, n: NodeId, p: nat, q: nat)
    requires IsRun(run) && i < |run| && WithinCounters(run[i]) && n in run[i].core.members && n in run[i].core.locals
    requires p < q < |TotalOrder.LogOf(run[i].core, n)|
    ensures var x, y := TotalOrder.LogOf(run[i].core, n)[p], TotalOrder.LogOf(run[i].core, n)[q];
            && KeyLess(KeyOf(x), KeyOf(y)) && x.msgId in run[i].core.agreed && KeyOf(x) == run[i].core.agreed[x.msgId]
  {
    hide IsRun, WithinCounters, Isis.Inv;
    RunIsSound(run, i);
    TotalOrder.LogEntryFacts(run[i].core, n, p);
    TotalOrder.LogsAreSorted(run[i].core, n, p, q);
  }

  // ---------- Per-sender order ----------

  /** Agreed keys follow each sender's submission order. */
  lemma KeysFollowSubmission(s: State, a: MsgId, b: MsgId)
    requires Sound(s) && SubmittedBefore(s, a, b) && a in s.core.agreed && b in s.core.agreed
    ensures KeyLess(s.core.agreed[a], s.core.agreed[b])
  {
    hide NoFailures, Linked, InStep, Isis.NodesOk, Isis.BagOk, Isis.TablesOk, Isis.NoVoteLost, Counting.Counted;
    var ka, kb := s.core.agreed[a], s.core.agreed[b];
    assert Isis.IsQuorumKey(s.core, a, ka) && Isis.IsQuorumKey(s.core, b, kb);
    Isis.QuorumCovers(s.core, b, kb, ka.proposer);
    assert OrderedAt(s, ka.proposer, a, b);
  }

  /** A node that has delivered a message has delivered every earlier message of the same sender before it. */
  lemma DeliversInSubmissionOrder(s: State, n: NodeId, a: MsgId, b: MsgId, q: nat) returns (p: nat)
    requires Sound(s) && n in s.core.locals && n in s.core.members && SubmittedBefore(s, a, b)
    requires q < |TotalOrder.LogOf(s.core, n)| && TotalOrder.LogOf(s.core, n)[q].msgId == b
    ensures p < q && TotalOrder.LogOf(s.core, n)[p].msgId == a
  {
    hide NoFailures, Linked, InStep, ProposesInOrder, Isis.Inv, Counting.Counted, SubmittedBefore;
    TotalOrder.LogEntryFacts(s.core, n, q);
    LoggedWasProposed(s.core, n, q);
    HandlesInSubmissionOrder(s, n, a, b);
    p := EarlierIsLogged(s, n, a, b, q);
  }

  lemma LoggedWasProposed(core: Isis.State, n: NodeId, q: nat)
    requires Isis.Inv(core) && n in core.members && q < |TotalOrder.LogOf(core, n)|
    ensures var m := TotalOrder.LogOf(core, n)[q].msgId;
            m in core.locals[n].proposed && m in core.agreed && core.locals[n].proposed[m] <= core.agreed[m].seqNum
            && KeyOf(TotalOrder.LogOf(core, n)[q]) == core.agreed[m]
  {
    TotalOrder.LogEntryFacts(core, n, q);
    var m := TotalOrder.LogOf(core, n)[q].msgId;
    assert Isis.IsQuorumKey(core, m, core.agreed[m]);
    Isis.QuorumCovers(core, m, core.agreed[m], n);
  }

  lemma EarlierIsLogged(s: State, n: NodeId, a: MsgId, b: MsgId, q: nat) returns (p: nat)
    requires Sound(s) && n in s.core.locals && n in s.core.members && SubmittedBefore(s, a, b)
    requires q < |TotalOrder.LogOf(s.core, n)| && TotalOrder.LogOf(s.core, n)[q].msgId == b
    requires a in s.core.locals[n].proposed
    ensures p < q && TotalOrder.LogOf(s.core, n)[p].msgId == a
  {
    hide NoFailures, Linked, InStep, Isis.AgreedOk, Isis.BagOk, Isis.TablesOk, Isis.NoVoteLost, Counting.Counted;
    var l := s.core.locals[n];
    LoggedWasProposed(s.core, n, q);
    assert OrderedAt(s, n, a, b);
    assert Isis.NodeSettled(s.core, n);
    if a in l.node.hold {
      assert Isis.ItemOk(l, s.core.asked, s.core.agreed, a, l.node.hold[a]);
      assert ItemLess(l.node.log[q], l.node.hold[a]);
    }
    assert a in l.heard || Isis.InLog(l, a);
    AgreedIfHeardOrLogged(s.core, n, a);
    KeysFollowSubmission(s, a, b);
    p := TotalOrder.LogsHaveNoGaps(s.core, n, q, a);
  }

  lemma AgreedIfHeardOrLogged(core: Isis.State, n: NodeId, a: MsgId)
    requires Isis.Inv(core) && n in core.members && n in core.locals && (a in core.locals[n].heard || Isis.InLog(core.locals[n], a))
    ensures a in core.agreed
  {
    assert Isis.NodeSettled(core, n);
    if Isis.InLog(core.locals[n], a) {
      var i :| 0 <= i < |core.locals[n].node.log| && core.locals[n].node.log[i].msgId == a;
      TotalOrder.LogEntryFacts(core, n, i);
    }
  }

  /** The same along every run: node `n`'s log at one moment, against what has been submitted by any later one. */
  lemma RunDeliversInSubmissionOrder(run: seq<State>, i: nat, n: NodeId, j: nat, a: MsgId, b: MsgId, q: nat) returns (p: nat)
    requires IsRun(run) && i <= j < |run| && WithinCounters(run[j])
    requires n in run[i].core.members && n in run[i].core.locals && SubmittedBefore(run[j], a, b)
    requires q < |TotalOrder.LogOf(run[i].core, n)| && TotalOrder.LogOf(run[i].core, n)[q].msgId == b
    ensures p < q && TotalOrder.LogOf(run[i].core, n)[p].msgId == a
  {
    hide IsRun, WithinCounters, Sound, SubmittedBefore;
    LogsOnlyGrow(run, i, j, n);
    RunAdds(run, i, j);
    RunIsSound(run, j);
    p := DeliversInSubmissionOrder(run[j], n, a, b, q);
  }
}
