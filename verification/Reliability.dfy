/** What R-multicast guarantees over whole runs, crashes included. */
module Reliability {
  import opened Order
  import opened RMulticast
  import opened Sums

  ghost predicate Follows(s: State, s': State) {
    exists a :: Enabled(s, a) && s' == Step(s, a)
  }

  /** A run: each state follows from the one before by an enabled step. */
  ghost predicate IsRun(run: seq<State>) {
    && run != [] && (exists members :: run[0] == Initial(members))
    && forall i :: 0 <= i < |run| - 1 ==> Follows(run[i], run[i + 1])
  }

  lemma {:induction false} RunKeepsInv(run: seq<State>, i: nat)
    requires IsRun(run) && i < |run|
    ensures Inv(run[i])
  {
    hide Inv, Enabled, Step;
    if i == 0 {
      var members :| run[0] == Initial(members);
      RMulticast.InitialInv(members);
    } else {
      RunKeepsInv(run, i - 1);
      assert Follows(run[i - 1], run[i]);
      var a :| Enabled(run[i - 1], a) && run[i] == Step(run[i - 1], a);
      StepKeepsInv(run[i - 1], a);
    }
  }

  /** Nothing is under way between live nodes. */
  ghost predicate Drained(s: State) {
    forall p :: p in s.chan && Live(s, p.0) && Live(s, p.1) ==> s.chan[p] == []
  }

  lemma DrainedMeansShared(s: State, j: NodeId, k: NodeId, r: Rid)
    requires Inv(s) && Drained(s) && Live(s, j) && Live(s, k) && Knows(s, j, r)
    ensures r in s.received[k]
  {
    hide Genuine, AtMostOnce, LiveStay, FifoInFlight, FifoReceipt, SendsBounded;
    assert (j, k) in s.chan;
  }

  lemma MemberReceives(s: State, k: NodeId)
    requires Inv(s) && k in s.members
    ensures k in s.received
  {
  }

  /**
   Agreement: once nothing is under way between live nodes, all of them have received the same messages,
   and every message a live node issued.
   */
  lemma Agreement(run: seq<State>, i: nat, j: NodeId, k: NodeId, r: Rid)
    requires IsRun(run) && i < |run| && Live(run[i], j) && Live(run[i], k) && Drained(run[i])
    ensures j in run[i].received && k in run[i].received
    ensures r in run[i].received[j] ==> r in run[i].received[k]
    ensures r < |run[i].origin| && run[i].origin[r] == j ==> r in run[i].received[k]
  {
    hide IsRun, Inv, Drained;
    RunKeepsInv(run, i);
    MemberReceives(run[i], j);
    MemberReceives(run[i], k);
    if r in run[i].received[j] {
      ReceivedWasIssued(run[i], j, r);
    }
    if Knows(run[i], j, r) {
      DrainedMeansShared(run[i], j, k, r);
    }
  }

  lemma ReceivedWasIssued(s: State, k: NodeId, r: Rid)
    requires Inv(s) && k in s.members && r in s.received[k]
    ensures r < |s.origin|
  {
    hide AtMostOnce, LiveStay, Reliable, FifoInFlight, FifoReceipt, SendsBounded;
  }

  /** Integrity and order: every node receives each message at most once, and one issuer's messages in issue order. */
  lemma OrderedIntegrity(run: seq<State>, i: nat, k: NodeId, q: nat, a: Rid)
    requires IsRun(run) && i < |run| && k in run[i].members && k in run[i].received && q < |run[i].received[k]|
    ensures var s, r := run[i], run[i].received[k][q];
            r < |s.origin| && r !in s.received[k][..q] && (Earlier(s, a, r) ==> a in s.received[k][..q])
  {
    hide IsRun, Reliable, LiveStay, FifoInFlight, SendsBounded;
    RunKeepsInv(run, i);
    assert run[i].received[k][q] in run[i].received[k];
  }

  lemma CostWithin(s: State, r: Rid)
    requires Inv(s) && r < |s.sends|
    ensures s.sends[r] <= |s.members| * (|s.members| + 1)
  {
    hide Genuine, AtMostOnce, LiveStay, Reliable, FifoInFlight, FifoReceipt;
    SubsetSize(Receivers(s, r), s.members);
    ProductMonotone(|s.members|, 1 + |Receivers(s, r)|, |s.members| + 1);
  }

  /** One R-multicast to N members costs at most N * (N + 1) sends. */
  lemma RelayCost(run: seq<State>, i: nat, r: Rid)
    requires IsRun(run) && i < |run| && r < |run[i].sends|
    ensures run[i].sends[r] <= |run[i].members| * (|run[i].members| + 1)
  {
    hide Inv, IsRun;
    RunKeepsInv(run, i);
    CostWithin(run[i], r);
  }

  lemma ProductMonotone(n: nat, x: nat, y: nat)
    requires x <= y
    ensures n * x <= n * y
  {
    assert n * y == n * x + n * (y - x);
  }

  // ---------- The relay measure ----------

  ghost function ChannelLengths(s: State): map<(NodeId, NodeId), nat> {
    map p | p in s.chan :: |s.chan[p]|
  }

  ghost function ReceiptCounts(s: State): map<NodeId, nat> {
    map n | n in s.received :: |s.received[n]|
  }

  /** Copies under way. */
  ghost function InFlight(s: State): nat {
    Total(ChannelLengths(s))
  }

  /** Receipts so far, repeats not counted. */
  ghost function Receipts(s: State): nat {
    Total(ReceiptCounts(s))
  }

  /** Copies under way, plus N for every node and message where the message has still to be received. */
  ghost function Measure(s: State): int {
    InFlight(s) + |s.members| * (|s.members| * |s.origin| - Receipts(s))
  }

  lemma {:induction false} DistinctBelow(xs: seq<nat>, bound: nat)
    requires forall p, q :: 0 <= p < q < |xs| ==> xs[p] != xs[q]
    requires forall p :: 0 <= p < |xs| ==> xs[p] < bound
    ensures |xs| <= bound
  {
    if xs != [] {
      assert xs[0] < bound;
      var top := bound - 1;
      if top in xs {
        var p :| 0 <= p < |xs| && xs[p] == top;
        var rest := xs[..p] + xs[p + 1..];
        forall q | 0 <= q < |rest|
          ensures rest[q] < top
        {
          assert rest[q] == if q < p then xs[q] else xs[q + 1];
        }
        DistinctBelow(rest, top);
      } else {
        forall p | 0 <= p < |xs|
          ensures xs[p] < top
        {
          assert xs[p] in xs;
        }
        DistinctBelow(xs, top);
      }
    }
  }

  lemma ReceivedBounded(s: State, n: NodeId)
    requires Shape(s) && Genuine(s) && AtMostOnce(s) && n in s.members
    ensures |s.received[n]| <= |s.origin|
  {
    forall p | 0 <= p < |s.received[n]|
      ensures s.received[n][p] < |s.origin|
    {
      assert s.received[n][p] in s.received[n];
    }
    DistinctBelow(s.received[n], |s.origin|);
  }

  lemma ReceiptsBounded(s: State)
    requires Shape(s) && Genuine(s) && AtMostOnce(s)
    ensures Receipts(s) <= |s.members| * |s.origin|
  {
    hide Genuine, AtMostOnce;
    var counts := ReceiptCounts(s);
    forall n | n in s.members
      ensures counts[n] <= |s.origin|
    {
      ReceivedBounded(s, n);
    }
    assert counts.Keys == s.members && |counts| == |counts.Keys|;
    TotalAtMost(counts, |s.origin|);
  }

  lemma MeasureIsNatural(s: State)
    requires Shape(s) && Genuine(s) && AtMostOnce(s)
    ensures Measure(s) >= 0
  {
    hide Shape, Genuine, AtMostOnce, Receipts, InFlight;
    ReceiptsBounded(s);
    NonNegativeProduct(|s.members|, |s.members| * |s.origin| - Receipts(s));
  }

  lemma NonNegativeProduct(x: nat, y: nat)
    ensures x * y >= 0
  {
  }

  lemma AppendedInFlight(s: State, chan: map<(NodeId, NodeId), seq<Rid>>, o: NodeId, dests: set<NodeId>, r: Rid)
    requires forall d :: d in dests ==> (o, d) in chan
    ensures Total(map p | p in chan :: |Appended(chan, o, dests, r)[p]|) == Total(map p | p in chan :: |chan[p]|) + |dests|
  {
    var before := map p | p in chan :: |chan[p]|;
    var pairs := set d | d in dests :: (o, d);
    PairCount(o, dests);
    TotalRaised(before, pairs);
    assert Raised(before, pairs) == map p | p in chan :: |Appended(chan, o, dests, r)[p]|;
  }

  lemma {:induction false} PairCount(o: NodeId, dests: set<NodeId>)
    ensures |set d | d in dests :: (o, d)| == |dests|
  {
    if dests != {} {
      var d :| d in dests;
      PairCount(o, dests - {d});
      assert (set x | x in dests :: (o, x)) == (set x | x in dests - {d} :: (o, x)) + {(o, d)};
    }
  }

  /** Taking one copy off a channel. */
  lemma PoppedInFlight(s: State, j: NodeId, k: NodeId)
    requires (j, k) in s.chan && s.chan[(j, k)] != []
    ensures InFlight(Popped(s, j, k)) == InFlight(s) - 1
  {
    TotalUpdated(ChannelLengths(s), (j, k), |s.chan[(j, k)]| - 1);
    assert ChannelLengths(Popped(s, j, k)) == ChannelLengths(s)[(j, k) := |s.chan[(j, k)]| - 1];
  }

  lemma MarkedReceipts(s: State, k: NodeId, r: Rid)
    requires k in s.received
    ensures Receipts(Marked(s, k, r)) == Receipts(s) + 1
  {
    TotalUpdated(ReceiptCounts(s), k, |s.received[k]| + 1);
    assert ReceiptCounts(Marked(s, k, r)) == ReceiptCounts(s)[k := |s.received[k]| + 1];
  }

  lemma MulticastInFlight(s: State, o: NodeId, r: Rid, dests: set<NodeId>, crash: bool)
    requires r < |s.sends| && forall d :: d in dests ==> (o, d) in s.chan
    ensures InFlight(BMulticast(s, o, r, dests, crash)) == InFlight(s) + |dests|
    ensures Receipts(BMulticast(s, o, r, dests, crash)) == Receipts(s)
  {
    AppendedInFlight(s, s.chan, o, dests, r);
    assert ChannelLengths(BMulticast(s, o, r, dests, crash)) == map p | p in s.chan :: |Appended(s.chan, o, dests, r)[p]|;
  }

  /** What one receipt does to the copies under way and the receipts counted. */
  lemma DeliverCounts(s: State, j: NodeId, k: NodeId, dests: set<NodeId>, crash: bool)
    requires Shape(s) && Enabled(s, Deliver(j, k, dests, crash))
    ensures var s' := Delivered(s, j, k, dests, crash);
            && InFlight(s') == InFlight(s) - 1 + (if IsRelayed(s, j, k) then |dests| else 0)
            && Receipts(s') == Receipts(s) + (if IsNew(s, j, k) then 1 else 0)
  {
    var r := Head(s, j, k);
    PoppedInFlight(s, j, k);
    if IsNew(s, j, k) {
      MarkedReceipts(Popped(s, j, k), k, r);
      if j != k {
        MulticastInFlight(Marked(Popped(s, j, k), k, r), k, r, dests, crash);
      }
    }
  }

  /** The relay measure falls at every receipt, first or repeated: an R-multicast comes to rest. */
  lemma MeasureFalls(s: State, j: NodeId, k: NodeId, dests: set<NodeId>, crash: bool)
    requires Shape(s) && Enabled(s, Deliver(j, k, dests, crash))
    ensures Measure(Delivered(s, j, k, dests, crash)) < Measure(s)
  {
    hide Delivered, InFlight, Receipts, BMulticast;
    DeliverFacts(s, j, k, dests, crash);
    DeliverCounts(s, j, k, dests, crash);
    SubsetSize(dests, s.members);
    var n := |s.members|;
    var open := n * |s.origin| - Receipts(s);
    assert n * (open - 1) == n * open - n;
  }

  lemma LoseCounts(s: State, j: NodeId, k: NodeId, kept: nat)
    requires Enabled(s, Lose(j, k, kept))
    ensures InFlight(Step(s, Lose(j, k, kept))) <= InFlight(s)
  {
    TotalUpdated(ChannelLengths(s), (j, k), kept);
    assert ChannelLengths(Step(s, Lose(j, k, kept))) == ChannelLengths(s)[(j, k) := kept];
  }

  /** Crashes, ejections and losses never raise the relay measure. */
  lemma FailuresKeepMeasure(s: State, a: Action)
    requires Enabled(s, a) && IsFailure(a)
    ensures Measure(Step(s, a)) <= Measure(s)
  {
    var s' := Step(s, a);
    assert ReceiptCounts(s') == ReceiptCounts(s);
    if a.Lose? {
      LoseCounts(s, a.j, a.k, a.kept);
    } else {
      assert ChannelLengths(s') == ChannelLengths(s);
    }
  }

  ghost function ReceiptSteps(acts: seq<Action>): nat {
    if acts == [] then 0 else ReceiptSteps(acts[..|acts| - 1]) + if acts[|acts| - 1].Deliver? then 1 else 0
  }

  /** The last part of a run, from `i` on: `acts` are its steps, none of which issues a message. */
  ghost predicate IssuesNoMore(run: seq<State>, i: nat, acts: seq<Action>) {
    && i + |acts| == |run| - 1
    && forall k :: 0 <= k < |acts| ==>
         !acts[k].Issue? && Enabled(run[i + k], acts[k]) && run[i + k + 1] == Step(run[i + k], acts[k])
  }

  lemma StepKeepsMeasure(s: State, a: Action)
    requires Inv(s) && Enabled(s, a) && !a.Issue?
    ensures Measure(Step(s, a)) + (if a.Deliver? then 1 else 0) <= Measure(s)
  {
    hide Genuine, AtMostOnce, LiveStay, Reliable, FifoInFlight, FifoReceipt, SendsBounded, Measure, Delivered;
    match a
    case Deliver(j, k, dests, crash) => MeasureFalls(s, j, k, dests, crash);
    case _ => FailuresKeepMeasure(s, a);
  }

  lemma {:induction false} MeasurePaysForReceipts(run: seq<State>, i: nat, acts: seq<Action>, k: nat)
    requires IsRun(run) && IssuesNoMore(run, i, acts) && k <= |acts|
    ensures Measure(run[i + k]) + ReceiptSteps(acts[..k]) <= Measure(run[i])
  {
    hide Inv, Enabled, Step, Measure;
    if k > 0 {
      MeasurePaysForReceipts(run, i, acts, k - 1);
      RunKeepsInv(run, i + k - 1);
      assert Enabled(run[i + (k - 1)], acts[k - 1]);
      StepKeepsMeasure(run[i + k - 1], acts[k - 1]);
      assert acts[..k][..k - 1] == acts[..k - 1];
    }
  }

  /** Relaying comes to rest: after its last issue a run, failures included, holds at most so many receipts. */
  lemma RelayingEnds(run: seq<State>, i: nat, acts: seq<Action>)
    requires IsRun(run) && IssuesNoMore(run, i, acts)
    ensures ReceiptSteps(acts) <= Measure(run[i])
  {
    hide Inv, Enabled, Step, Measure;
    MeasurePaysForReceipts(run, i, acts, |acts|);
    assert acts[..|acts|] == acts;
    RunKeepsInv(run, |run| - 1);
    NaturalOfInv(run[|run| - 1]);
  }

  lemma NaturalOfInv(s: State)
    requires Inv(s)
    ensures Measure(s) >= 0
  {
    hide Measure;
    MeasureIsNatural(s);
  }
}
