/**
 A run of a whole group of two in which order is lost to a timeout: node "a" delivers its own message 0, while
 node "b" takes "a" for dead, is told late, and skips it.
 */
module Divergence {
  import opened Order
  import opened Heap
  import opened Votes
  import opened Node
  import opened Isis
  import Failures
  import Ledger
  import Skipping
  import TotalOrder

  const AB: set<NodeId> := {"a", "b"}

  function Source(m: MsgId): NodeId {
    if m == 0 then "a" else "b"
  }

  function Asked(body: Ledger.Operation, k: nat): map<MsgId, Ask> {
    if k == 0 then map[] else Asked(body, k - 1)[k - 1 := Ask(Source(k - 1), body)]
  }

  function Held(body: Ledger.Operation, k: nat): map<MsgId, Item> {
    if k == 0 then map[] else Held(body, k - 1)[k - 1 := Item(body, k, Source(k - 1), false, k - 1)]
  }

  function Proposed(k: nat): (proposed: map<MsgId, nat>)
    ensures forall m :: m in proposed ==> m < k
  {
    if k == 0 then map[] else Proposed(k - 1)[k - 1 := k]
  }

  function Agreed(k: nat): map<MsgId, Key> {
    if k == 0 then map[] else Agreed(k - 1)[k - 1 := Key(k, "b")]
  }

  /** Messages below `k` have been submitted, proposed for under the same numbers by both, voted on and announced. */
  function NodeAfter(body: Ledger.Operation, k: nat): Node {
    Node(0, k, Held(body, k), map[], map[], [], [])
  }

  function LocalAfter(body: Ledger.Operation, k: nat): Local {
    Local(NodeAfter(body, k), Proposed(k), {})
  }

  function StateAfter(body: Ledger.Operation, k: nat): State {
    State(AB, Asked(body, k), map["a" := LocalAfter(body, k), "b" := LocalAfter(body, k)], multiset{}, Agreed(k), 2 * k)
  }

  lemma {:induction false} AskedBelow(body: Ledger.Operation, k: nat)
    ensures forall m :: m in Asked(body, k) <==> 0 <= m < k
  {
    if k > 0 {
      AskedBelow(body, k - 1);
    }
  }

  lemma Extended(run: seq<State>, a: Action, s': State) returns (more: seq<State>)
    requires run != [] && Skipping.IsRun(run) && Isis.Next(run[|run| - 1], a, s')
    ensures more == run + [s'] && Skipping.IsRun(more)
  {
    hide Isis.Next;
    more := run + [s'];
    assert Skipping.Follows(run[|run| - 1], s');
    forall i | 0 <= i < |more| - 1
      ensures Skipping.Follows(more[i], more[i + 1])
    {
      assert i < |run| - 1 ==> Skipping.Follows(run[i], run[i + 1]);
    }
  }

  /** Both nodes propose one above their last number. */
  lemma Proposes(body: Ledger.Operation, k: nat)
    requires k + 1 < UINT64_SPAN
    ensures ProposeAt(LocalAfter(body, k), k, Source(k), body) == LocalAfter(body, k + 1)
  {
    ProposeNumber(LocalAfter(body, k), k, Source(k), body);
  }

  function VoteOf(n: NodeId, m: MsgId): Vote {
    Vote(n, m, m + 1)
  }

  /** Message `k` submitted and proposed for by both nodes. */
  function Voted(body: Ledger.Operation, k: nat): State {
    var src := Source(k);
    StateAfter(body, k).(asked := StateAfter(body, k + 1).asked, locals := StateAfter(body, k + 1).locals,
                         bag := multiset{Letter(src, VoteOf("a", k)), Letter(src, VoteOf("b", k))}, handled := 2 * k + 2)
  }

  /** Message `k` submitted. */
  function Submitted(body: Ledger.Operation, k: nat): State {
    DoAsk(StateAfter(body, k), k, Source(k), body)
  }

  /** Message `k` submitted and proposed for by "a". */
  function HalfVoted(body: Ledger.Operation, k: nat): State {
    DoPropose(Submitted(body, k), "a", k, Source(k), body)
  }

  lemma FirstVote(body: Ledger.Operation, k: nat)
    requires k + 1 < UINT64_SPAN
    ensures HalfVoted(body, k) ==
              Submitted(body, k).(locals := map["a" := LocalAfter(body, k + 1), "b" := LocalAfter(body, k)],
                                  bag := multiset{Letter(Source(k), VoteOf("a", k))}, handled := 2 * k + 1)
  {
    hide Propose, NodeAfter, Asked, Proposed, Agreed;
    Proposes(body, k);
    NumberAfter(body, k + 1);
    assert "a"[0] != "b"[0];
  }

  lemma SecondVote(body: Ledger.Operation, k: nat)
    requires k + 1 < UINT64_SPAN
    ensures DoPropose(HalfVoted(body, k), "b", k, Source(k), body) == Voted(body, k)
    ensures HalfVoted(body, k).locals == StateAfter(body, k).locals["a" := LocalAfter(body, k + 1)]
  {
    hide Propose, NodeAfter, HalfVoted, Proposed, Agreed;
    FirstVote(body, k);
    Proposes(body, k);
    NumberAfter(body, k + 1);
    assert "a"[0] != "b"[0];
  }

  lemma VotingRound(body: Ledger.Operation, k: nat, run: seq<State>) returns (more: seq<State>)
    requires run != [] && Skipping.IsRun(run) && run[|run| - 1] == StateAfter(body, k) && k + 1 < UINT64_SPAN
    ensures more != [] && Skipping.IsRun(more) && more[|more| - 1] == Voted(body, k)
  {
    hide Skipping.IsRun, Propose, NodeAfter, Isis.Next, Voted;
    SecondVote(body, k);
    AskedBelow(body, k);
    assert "a"[0] != "b"[0];
    MaySubmit(StateAfter(body, k), k, Source(k), body);
    more := Extended(run, Submit(k, Source(k), body), Submitted(body, k));
    MayHandle(Submitted(body, k), "a", k);
    more := Extended(more, Handle("a", k), HalfVoted(body, k));
    MayHandle(HalfVoted(body, k), "b", k);
    more := Extended(more, Handle("b", k), Voted(body, k));
  }

  lemma MaySubmit(s: State, m: MsgId, src: NodeId, body: Ledger.Operation)
    requires src in s.members && m !in s.asked
    ensures Isis.Next(s, Submit(m, src, body), DoAsk(s, m, src, body))
  {
  }

  lemma MayHandle(s: State, n: NodeId, m: MsgId)
    requires n in s.members && n in s.locals && m in s.asked && m !in s.locals[n].proposed
    ensures Isis.Next(s, Handle(n, m), DoPropose(s, n, m, s.asked[m].src, s.asked[m].body))
  {
    hide DoPropose;
  }

  lemma MayTally(s: State, l: Letter)
    requires l in s.bag && l.dst in s.locals
    ensures Isis.Next(s, Tally(l), DoTally(s, l).0)
  {
    hide DoTally;
  }

  lemma NumberAfter(body: Ledger.Operation, k: nat)
    ensures NodeAfter(body, k).maxProposed == k && NodeAfter(body, k).waiting == map[]
  {
  }

  /** The first vote on message `k` counted. */
  function HalfTallied(body: Ledger.Operation, k: nat): State {
    var s, src := Voted(body, k), Source(k);
    var l := LocalAfter(body, k + 1);
    s.(locals := s.locals[src := l.(node := l.node.(waiting := map[k := [VoteOf("a", k)]]))],
       bag := multiset{Letter(src, VoteOf("b", k))})
  }

  lemma FirstTally(body: Ledger.Operation, k: nat)
    ensures DoTally(Voted(body, k), Letter(Source(k), VoteOf("a", k))).0 == HalfTallied(body, k)
  {
    hide NodeAfter, Collect;
    NumberAfter(body, k + 1);
    assert "a"[0] != "b"[0] && |AB| == 2;
    CountsTwo(NodeAfter(body, k + 1), VoteOf("a", k), VoteOf("b", k));
  }

  lemma SecondTally(body: Ledger.Operation, k: nat)
    ensures DoTally(HalfTallied(body, k), Letter(Source(k), VoteOf("b", k))).0 == StateAfter(body, k + 1)
  {
    hide NodeAfter, Collect, MaxVote, Agreed, Asked, Proposed;
    NumberAfter(body, k + 1);
    TwoVotes(k);
    assert "a"[0] != "b"[0] && |AB| == 2;
    CountsTwo(NodeAfter(body, k + 1), VoteOf("a", k), VoteOf("b", k));
    AgreedNext(k);
    var l, src := LocalAfter(body, k + 1), Source(k);
    assert l.node.(waiting := map[]) == l.node;
    RestoresOne(l, src, l.(node := l.node.(waiting := map[k := [VoteOf("a", k)]])));
  }

  lemma AgreedNext(k: nat)
    ensures Agreed(k + 1) == Agreed(k)[k := Key(k + 1, "b")]
  {
  }

  /** Changing the entry of one node and changing it back. */
  lemma RestoresOne(l: Local, src: NodeId, other: Local)
    requires src == "a" || src == "b"
    ensures var both := map["a" := l, "b" := l]; both[src := other][src := l] == both
  {
  }

  /** The two votes on message `k` are counted, "b" winning, and it is announced. */
  lemma TallyRound(body: Ledger.Operation, k: nat, run: seq<State>) returns (more: seq<State>)
    requires run != [] && Skipping.IsRun(run) && run[|run| - 1] == Voted(body, k)
    ensures more != [] && Skipping.IsRun(more) && more[|more| - 1] == StateAfter(body, k + 1)
  {
    hide Skipping.IsRun, NodeAfter, Isis.Next, DoTally;
    var la, lb := Letter(Source(k), VoteOf("a", k)), Letter(Source(k), VoteOf("b", k));
    FirstTally(body, k);
    SecondTally(body, k);
    MayTally(Voted(body, k), la);
    more := Extended(run, Tally(la), HalfTallied(body, k));
    MayTally(HalfTallied(body, k), lb);
    more := Extended(more, Tally(lb), StateAfter(body, k + 1));
  }

  lemma TwoVotes(k: MsgId)
    ensures MaxVote([VoteOf("a", k), VoteOf("b", k)]) == VoteOf("b", k)
  {
    assert "a"[0] < "b"[0];
    assert [VoteOf("a", k), VoteOf("b", k)][..1] == [VoteOf("a", k)];
  }

  lemma CountsTwo(n: Node, v: Vote, w: Vote)
    requires n.waiting == map[] && v.msgId == w.msgId
    ensures Collect(n, v, 2) == (n.(waiting := map[v.msgId := [v]]), None)
    ensures Collect(n.(waiting := map[v.msgId := [v]]), w, 2) == (n, Some(MaxVote([v, w])))
  {
    var none: seq<Vote> := [];
    assert none + [v] == [v] && [v] + [w] == [v, w];
    assert n.(waiting := map[v.msgId := [v]]).waiting - {v.msgId} == n.waiting;
  }

  /** Four messages are announced before any announcement is handled. */
  lemma {:induction false} Rounds(body: Ledger.Operation, k: nat) returns (run: seq<State>)
    requires k <= 4
    ensures run != [] && Skipping.IsRun(run) && run[|run| - 1] == StateAfter(body, k)
  {
    hide Skipping.IsRun, StateAfter, Voted;
    if k == 0 {
      StartIs(body);
      run := [Initial(AB)];
    } else {
      run := Rounds(body, k - 1);
      run := VotingRound(body, k - 1, run);
      run := TallyRound(body, k - 1, run);
    }
  }

  lemma StartIs(body: Ledger.Operation)
    ensures StateAfter(body, 0) == Initial(AB) && Skipping.IsRun([Initial(AB)])
  {
    assert LocalAfter(body, 0) == Local(Fresh, map[], {});
    assert Initial(AB).locals == StateAfter(body, 0).locals;
  }

  /** Node `n` handles an announcement and becomes `node`. */
  lemma LearnStep(run: seq<State>, n: NodeId, m: MsgId, k: Key, alive: set<NodeId>, now: int, xs: seq<Item>, node: Node)
    returns (more: seq<State>)
    requires run != [] && Skipping.IsRun(run) && CanHear(run[|run| - 1], n, m, k)
    requires Learns(run[|run| - 1].locals[n].node, m, k, alive, now, xs, node)
    ensures more != [] && Skipping.IsRun(more) && more[|more| - 1] == Learned(run[|run| - 1], n, m, node)
  {
    hide Skipping.IsRun, Learns;
    var s := run[|run| - 1];
    assert DoLearn(s, n, m, k, alive, now, xs, Learned(s, n, m, node));
    more := Extended(run, Learn(n, m, alive, now, xs), Learned(s, n, m, node));
  }

  ghost predicate CanHear(s: State, n: NodeId, m: MsgId, k: Key) {
    n in s.members && n in s.locals && m in s.agreed && s.agreed[m] == k && m !in s.locals[n].heard
  }

  /** Both nodes have all four asks and no announcement; node "a" is told of message 0. */
  lemma ToldInTime(body: Ledger.Operation) returns (run: seq<State>)
    ensures run != [] && Skipping.IsRun(run) && FourWithZero(body, run[|run| - 1])
  {
    hide Skipping.IsRun, Learns;
    run := Rounds(body, 4);
    FourAre(body);
    assert "a"[0] != "b"[0];
    var na := Failures.ZeroIsDelivered(body);
    run := LearnStep(run, "a", 0, Key(1, "b"), {"a", "b"}, 0, [Failures.Agreed(body, 0)], na);
    SizeOfFour(body);
  }

  ghost predicate FourWithZero(body: Ledger.Operation, s: State) {
    && s.members == AB && s.locals.Keys == AB && |s.asked| == 4
    && s.locals["a"].node.log == [Failures.Agreed(body, 0)]
    && s.locals["b"].node == Failures.FourAsked(body) && s.locals["b"].heard == {}
    && (forall m :: m in {1, 2, 3} ==> m in s.agreed && s.agreed[m] == Key(m + 1, "b"))
  }

  lemma SizeOfFour(body: Ledger.Operation)
    ensures |Asked(body, 4)| == 4
  {
    AskedBelow(body, 4);
    assert Asked(body, 4).Keys == {0, 1, 2, 3};
  }

  /**
   Total order fails in a group that takes a live node for dead: in this run both nodes have delivered messages,
   and neither log is a prefix of the other.
   */
  lemma GroupDiverges(body: Ledger.Operation) returns (run: seq<State>)
    ensures run != [] && Skipping.IsRun(run) && Skipping.WithinCounters(run[|run| - 1])
    ensures var s := run[|run| - 1];
            && "a" in s.locals && "b" in s.locals
            && TotalOrder.LogOf(s, "a") == [Failures.Agreed(body, 0)]
            && TotalOrder.LogOf(s, "b") == [Failures.Agreed(body, 1), Failures.Agreed(body, 2), Failures.Agreed(body, 3)]
            && !(TotalOrder.LogOf(s, "a") <= TotalOrder.LogOf(s, "b")) && !(TotalOrder.LogOf(s, "b") <= TotalOrder.LogOf(s, "a"))
  {
    hide Skipping.IsRun, Learns, Failures.StuckBehind, Failures.FourAsked;
    var late := NODE_CRASH_TIMEOUT + 1;
    assert "a"[0] != "b"[0];
    run := ToldInTime(body);
    var n1 := Failures.FirstIsTimed(body);
    Failures.StuckIsLearned(Failures.FourAsked(body), 1, Key(2, "b"), 0, n1);
    run := LearnStep(run, "b", 1, Key(2, "b"), {"b"}, 0, [], n1);
    var n2 := Failures.SecondIsSkipped(body, n1, late);
    Failures.StuckIsLearned(n1, 2, Key(3, "b"), late, n2);
    run := LearnStep(run, "b", 2, Key(3, "b"), {"b"}, late, [], n2);
    var n3 := Failures.ThirdDelivers(body, n2, late);
    var xs := [Failures.Agreed(body, 1), Failures.Agreed(body, 2), Failures.Agreed(body, 3)];
    run := LearnStep(run, "b", 3, Key(4, "b"), {"b"}, late, xs, n3);
    assert |AB| == 2;
    assert TotalOrder.LogOf(run[|run| - 1], "a")[0] != TotalOrder.LogOf(run[|run| - 1], "b")[0];
  }

  lemma HeldNext(body: Ledger.Operation, k: nat)
    ensures Held(body, k + 1) == Held(body, k)[k := Item(body, k + 1, Source(k), false, k)]
  {
  }

  lemma FourAre(body: Ledger.Operation)
    ensures NodeAfter(body, 4) == Failures.FourAsked(body)
    ensures forall m :: m in {0, 1, 2, 3} ==> m in Agreed(4) && Agreed(4)[m] == Key(m + 1, "b")
  {
    Failures.FourAskedIs(body);
    AgreedNext(0);
    AgreedNext(1);
    AgreedNext(2);
    AgreedNext(3);
    HeldNext(body, 0);
    HeldNext(body, 1);
    HeldNext(body, 2);
    HeldNext(body, 3);
    assert Held(body, 4) == Failures.FourAsked(body).hold;
  }
}
