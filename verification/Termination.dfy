/** Every run comes to rest once submissions stop, and at rest every node has delivered everything. */
module Termination {
  import opened Order
  import opened Heap
  import opened Votes
  import opened Node
  import opened System
  import opened Guarantees
  import Counting
  import Isis
  import Reliability
  import TotalOrder
  import RM = RMulticast

  /** What is still to happen: copies to take, receipts to come, votes to count, votes to cast, announcements to make. */
  ghost function Work(s: State): int {
    var n := |s.core.members|;
    Reliability.Measure(s.rm)
    + |s.core.bag|
    + (n * |s.core.asked| - s.core.handled)
    + (|s.core.asked| - |s.core.agreed|) * (n + n * n)
  }

  lemma WorkIsNatural(s: State)
    requires Sound(s)
    ensures Work(s) >= 0
  {
    hide Linked, InStep, ProposesInOrder, Isis.AllUndisturbed, Isis.Inv, Isis.Shape, RM.Inv, RM.Shape, RM.Genuine, RM.AtMostOnce, Counting.Counted, Reliability.Measure;
    IsisInvShape(s.core);
    RestrictToShape(s.rm);
    Reliability.MeasureIsNatural(s.rm);
    Counting.HandledIsBounded(s.core);
    AgreedWithinAsked(s.core);
    Reliability.NonNegativeProduct(|s.core.asked| - |s.core.agreed|, |s.core.members| + |s.core.members| * |s.core.members|);
  }

  lemma RestrictToShape(rm: RM.State)
    requires RM.Inv(rm)
    ensures RM.Shape(rm) && RM.Genuine(rm) && RM.AtMostOnce(rm)
  {
  }

  lemma AgreedWithinAsked(core: Isis.State)
    requires Isis.Shape(core)
    ensures |core.agreed| <= |core.asked|
  {
    Counting.SubsetSize(core.agreed.Keys, core.asked.Keys);
    assert |core.agreed| == |core.agreed.Keys| && |core.asked| == |core.asked.Keys|;
  }

  lemma ReceiveIsWork(s: State, j: NodeId, k: NodeId, now: int, xs: seq<Item>, s': State)
    requires Sound(s) && Receives(s, j, k, now, xs, s')
    ensures Work(s') < Work(s)
  {
    hide Linked, InStep, ProposesInOrder, Isis.AllUndisturbed, Isis.Inv, Counting.Counted, Reliability.Measure, RM.Inv, RM.Delivered, Learns;
    RMInvShape(s.rm);
    Reliability.MeasureFalls(s.rm, j, k, s.rm.members, false);
  }

  /** Issuing costs N copies and opens N receipts. */
  lemma IssueIsWork(s: State, o: NodeId, rm': RM.State)
    requires NoFailures(s) && Issues(s, o, rm')
    ensures var n := |s.core.members|; Reliability.Measure(rm') == Reliability.Measure(s.rm) + n + n * n
  {
    hide RM.Inv, Reliability.InFlight, Reliability.Receipts, RM.BMulticast;
    RMInvShape(s.rm);
    var n := |s.core.members|;
    var t := s.rm.(origin := s.rm.origin + [o], sends := s.rm.sends + [0]);
    SameChannels(s.rm, t);
    Reliability.MulticastInFlight(t, o, |s.rm.origin|, s.rm.members, false);
    FullReach(s, o);
    assert rm' == RM.BMulticast(t, o, |s.rm.origin|, s.rm.members, false);
    MulticastKeeps(t, o, |s.rm.origin|, s.rm.members);
    var open := n * |s.rm.origin| - Reliability.Receipts(s.rm);
    assert n * (|s.rm.origin| + 1) == n * |s.rm.origin| + n;
    assert n * (open + n) == n * open + n * n;
  }

  lemma FullReach(s: State, o: NodeId)
    requires NoFailures(s) && o in s.rm.members
    ensures forall d :: d in s.rm.members ==> (o, d) in s.rm.chan
  {
  }

  lemma SameChannels(s: RM.State, t: RM.State)
    requires t.chan == s.chan && t.received == s.received
    ensures Reliability.InFlight(t) == Reliability.InFlight(s) && Reliability.Receipts(t) == Reliability.Receipts(s)
  {
    assert Reliability.ChannelLengths(t) == Reliability.ChannelLengths(s);
    assert Reliability.ReceiptCounts(t) == Reliability.ReceiptCounts(s);
  }

  lemma MulticastKeeps(t: RM.State, o: NodeId, r: RM.Rid, dests: set<NodeId>)
    requires r < |t.sends|
    ensures var t' := RM.BMulticast(t, o, r, dests, false); t'.members == t.members && t'.origin == t.origin
  {
  }

  lemma CollectIsWork(s: State, letter: Isis.Letter, s': State)
    requires Sound(s) && Collects(s, letter, s')
    ensures Work(s') < Work(s)
  {
    hide NoFailures, Linked, InStep, ProposesInOrder, Isis.AllUndisturbed, Isis.Inv, Counting.Counted, Reliability.Measure, Issues;
    CollectTouches(s, letter, s');
    TallyCounts(s.core, letter);
    var n := |s.core.members|;
    if Isis.DoTally(s.core, letter).1.Some? {
      IssueIsWork(s, letter.dst, s'.rm);
      var open := |s.core.asked| - |s.core.agreed|;
      assert (open - 1) * (n + n * n) == open * (n + n * n) - (n + n * n);
    }
  }

  lemma TallyTakesOne(core: Isis.State, letter: Isis.Letter)
    requires letter in core.bag && letter.dst in core.locals
    ensures var core' := Isis.Tallying(core, letter); |core'.bag| == |core.bag| - 1 && core'.handled == core.handled
  {
  }

  lemma OneMore(m: map<MsgId, Key>, k: MsgId, v: Key)
    requires k !in m
    ensures |m[k := v]| == |m| + 1
  {
    assert m[k := v].Keys == m.Keys + {k};
    assert |m[k := v]| == |m[k := v].Keys| && |m| == |m.Keys|;
  }

  lemma TallyCounts(core: Isis.State, letter: Isis.Letter)
    requires Isis.Inv(core) && letter in core.bag && letter.dst in core.locals
    ensures var (core', best) := Isis.DoTally(core, letter);
            && |core'.bag| == |core.bag| - 1 && core'.handled == core.handled
            && |core'.agreed| == |core.agreed| + (if best.Some? then 1 else 0)
  {
    hide Isis.NodesOk, Isis.AgreedOk, Isis.NoVoteLost, Isis.IsQuorumKey, Isis.DoTally, Isis.TableWith;
    Isis.LetterReachesMember(core, letter);
    Isis.TallyAnnounces(core, letter);
    TallyTakesOne(core, letter);
    var best := Isis.DoTally(core, letter).1;
    if best.Some? {
      OneMore(core.agreed, letter.vote.msgId, VoteKey(best.value));
    }
  }

  /** Termination: every step that is not a submission does work. */
  lemma WorkFalls(s: State, a: Action, s': State)
    requires Sound(s) && System.Next(s, a, s') && !a.Submit?
    ensures Work(s') < Work(s)
  {
    hide Sound, Receives, Collects, Work;
    match a
    case Receive(j, k, now, xs) => ReceiveIsWork(s, j, k, now, xs, s');
    case Collect(letter) => CollectIsWork(s, letter, s');
  }

  ghost predicate FollowsQuietly(s: State, s': State) {
    exists a :: System.Next(s, a, s') && !a.Submit?
  }

  /** Without further submissions a run takes at most `Work` more steps. */
  lemma {:induction false} QuietRunsAreShort(run: seq<State>)
    requires run != [] && Sound(run[0]) && WithinCounters(run[0])
    requires forall i :: 0 <= i < |run| - 1 ==> FollowsQuietly(run[i], run[i + 1])
    ensures |run| - 1 <= Work(run[0])
  {
    hide Sound, WithinCounters, Work, System.Next;
    WorkIsNatural(run[0]);
    if |run| > 1 {
      assert FollowsQuietly(run[0], run[1]);
      var a :| System.Next(run[0], a, run[1]) && !a.Submit?;
      WorkFalls(run[0], a, run[1]);
      QuietKeepsCounters(run[0], a, run[1]);
      NextKeepsSound(run[0], a, run[1]);
      forall i | 0 <= i < |run[1..]| - 1
        ensures FollowsQuietly(run[1..][i], run[1..][i + 1])
      {
        assert FollowsQuietly(run[i + 1], run[i + 1 + 1]);
      }
      QuietRunsAreShort(run[1..]);
    }
  }

  lemma QuietKeepsCounters(s: State, a: Action, s': State)
    requires System.Next(s, a, s') && !a.Submit? && WithinCounters(s)
    ensures WithinCounters(s')
  {
    hide System.Next;
    NextAdds(s, a, s');
  }

  // ---------- Progress ----------

  /** Nothing is under way and no vote waits to be counted. */
  ghost predicate AtRest(s: State) {
    (forall p :: p in s.rm.chan ==> s.rm.chan[p] == []) && s.core.bag == multiset{}
  }

  /** Items know the message they are held for. */
  ghost predicate Labelled(hold: map<MsgId, Item>) {
    forall m :: m in hold ==> hold[m].msgId == m
  }

  lemma {:induction false} HeadExists(hold: map<MsgId, Item>) returns (x: Item)
    requires hold != map[] && Labelled(hold)
    ensures IsHead(hold, x)
    decreases |hold|
  {
    var m :| m in hold;
    var rest := hold - {m};
    KeyLessIrreflexive(KeyOf(hold[m]));
    if rest == map[] {
      assert forall k :: k in hold ==> k == m by {
        assert forall k :: k in hold && k != m ==> k in rest;
      }
      x := hold[m];
    } else {
      assert rest.Keys == hold.Keys - {m};
      assert |rest| == |rest.Keys| && |hold| == |hold.Keys|;
      var y := HeadExists(rest);
      x := LesserHead(hold, m, y);
    }
  }

  lemma LesserHead(hold: map<MsgId, Item>, m: MsgId, y: Item) returns (x: Item)
    requires m in hold && Labelled(hold) && IsHead(hold - {m}, y)
    ensures IsHead(hold, x)
  {
    KeyLessIrreflexive(KeyOf(hold[m]));
    if ItemLess(hold[m], y) {
      x := hold[m];
      ItemLessIsLeq(x, y);
      forall k | k in hold
        ensures ItemLeq(x, hold[k])
      {
        if k != m {
          assert k in hold - {m};
          ItemLeqTransitive(x, y, hold[k]);
        }
      }
    } else {
      x := y;
      assert forall k :: k in hold ==> k == m || k in hold - {m};
    }
  }

  /** Delivering heads while they are agreed always comes to an end, and then the node settles. */
  lemma {:induction false} CanSettle(n: Node, xs: seq<Item>, alive: set<NodeId>, now: int) returns (ys: seq<Item>, n': Node)
    requires CanDeliver(n, xs) && Labelled(DeliverAll(n, xs).hold)
    ensures CanDeliver(n, ys) && Settles(DeliverAll(n, ys), alive, now, n')
    decreases |DeliverAll(n, xs).hold|
  {
    var d := DeliverAll(n, xs);
    if d.hold == map[] {
      ys, n' := xs, d;
    } else {
      var x := HeadExists(d.hold);
      if x.agreed {
        DeliverAllSnoc(n, xs, x);
        assert (d.hold - {x.msgId}).Keys == d.hold.Keys - {x.msgId};
        assert |d.hold - {x.msgId}| == |(d.hold - {x.msgId}).Keys| && |d.hold| == |d.hold.Keys|;
        ys, n' := CanSettle(n, xs + [x], alive, now);
      } else {
        ys, n' := xs, Timeout(d, x, alive, now);
      }
    }
  }

  lemma CanLearnAlways(n: Node, m: MsgId, k: Key, alive: set<NodeId>, now: int) returns (xs: seq<Item>, n': Node)
    requires Labelled(n.hold)
    ensures Learns(n, m, k, alive, now, xs, n')
  {
    if m in n.hold {
      xs, n' := CanSettle(Raise(n, m, k), [], alive, now);
    } else {
      xs, n' := [], Raise(n, m, k);
    }
  }

  lemma HoldIsLabelled(core: Isis.State, n: NodeId)
    requires Isis.Inv(core) && n in core.members
    ensures n in core.locals && Labelled(core.locals[n].node.hold)
  {
    assert Isis.NodeSettled(core, n);
    var l := core.locals[n];
    forall m | m in l.node.hold
      ensures l.node.hold[m].msgId == m
    {
      assert Isis.ItemOk(l, core.asked, core.agreed, m, l.node.hold[m]);
    }
  }

  lemma CanHandleLoad(core: Isis.State, k: NodeId, load: Payload, now: int) returns (xs: seq<Item>, core': Isis.State)
    requires Isis.Inv(core) && k in core.members && k in core.locals
    ensures Handles(core, k, load, now, xs, core')
  {
    hide Isis.Inv, Learns;
    HoldIsLabelled(core, k);
    match load
    case Asking(m, src, body) =>
      xs, core' := [], Isis.DoPropose(core, k, m, src, body);
    case Announcing(m, key) =>
      var l := core.locals[k];
      var node: Node;
      xs, node := CanLearnAlways(l.node, m, key, core.members, now);
      core' := Isis.Learned(core, k, m, node);
  }

  lemma CanTake(s: State, j: NodeId, k: NodeId)
    requires NoFailures(s) && Isis.Shape(s.core) && (j, k) in s.rm.chan && s.rm.chan[(j, k)] != []
    ensures RM.Enabled(s.rm, RM.Deliver(j, k, s.rm.members, false))
    ensures k in s.core.members && k in s.core.locals && k in s.rm.received && RM.Head(s.rm, j, k) < |s.payload|
  {
    var r := RM.Head(s.rm, j, k);
    assert r in s.rm.chan[(j, k)] && RM.Knows(s.rm, j, r);
  }

  /** A copy under way can be taken. */
  lemma CanReceive(s: State, j: NodeId, k: NodeId, now: int) returns (xs: seq<Item>, s': State)
    requires Sound(s) && (j, k) in s.rm.chan && s.rm.chan[(j, k)] != []
    ensures Receives(s, j, k, now, xs, s')
  {
    hide NoFailures, Linked, InStep, ProposesInOrder, Isis.AllUndisturbed, Isis.Inv, Isis.Shape, Counting.Counted, Handles, RM.Enabled, RM.Step;
    IsisInvShape(s.core);
    CanTake(s, j, k);
    var core' := s.core;
    xs := [];
    if RM.IsNew(s.rm, j, k) {
      xs, core' := CanHandleLoad(s.core, k, s.payload[RM.Head(s.rm, j, k)], now);
    }
    s' := s.(rm := RM.Step(s.rm, RM.Deliver(j, k, s.rm.members, false)), core := core');
  }

  /** A vote under way can be counted. */
  lemma CanCollect(s: State, letter: Isis.Letter) returns (s': State)
    requires Sound(s) && letter in s.core.bag
    ensures Collects(s, letter, s')
  {
    hide Linked, InStep, ProposesInOrder, Isis.NodesOk, Isis.AgreedOk, Isis.TablesOk, Isis.NoVoteLost, Counting.Counted, Isis.DoTally, RM.Issued;
    Isis.LetterReachesMember(s.core, letter);
    var (core', best) := Isis.DoTally(s.core, letter);
    s' := s.(core := core');
    if best.Some? {
      var a := RM.Issue(letter.dst, s.rm.members, false);
      assert RM.Enabled(s.rm, a);
      s' := s.(core := core', rm := RM.Step(s.rm, a),
               payload := s.payload + [Announcing(best.value.msgId, VoteKey(best.value))],
               annRid := s.annRid[best.value.msgId := |s.payload|]);
    }
  }

  /** Progress: unless the group is at rest, some step other than a submission can be taken. */
  lemma StepsUntilRest(s: State, now: int) returns (a: Action, s': State)
    requires Sound(s) && !AtRest(s)
    ensures System.Next(s, a, s') && !a.Submit?
  {
    hide Sound, Receives, Collects;
    if s.core.bag != multiset{} {
      var letter :| letter in s.core.bag;
      s' := CanCollect(s, letter);
      a := Collect(letter);
    } else {
      var p :| p in s.rm.chan && s.rm.chan[p] != [];
      assert p == (p.0, p.1);
      var xs: seq<Item>;
      xs, s' := CanReceive(s, p.0, p.1, now);
      a := Receive(p.0, p.1, now, xs);
    }
  }

  /** From any state a quiet run leads to rest, and by `QuietRunsAreShort` every quiet run that is not cut short ends there. */
  lemma {:induction false} ComesToRest(s: State, now: int) returns (run: seq<State>)
    requires Sound(s) && WithinCounters(s)
    ensures run != [] && run[0] == s && Sound(run[|run| - 1]) && AtRest(run[|run| - 1])
    ensures forall i :: 0 <= i < |run| - 1 ==> FollowsQuietly(run[i], run[i + 1])
    decreases Work(s)
  {
    hide Sound, WithinCounters, Work, System.Next, AtRest;
    WorkIsNatural(s);
    if AtRest(s) {
      run := [s];
    } else {
      var a, s' := StepsUntilRest(s, now);
      WorkFalls(s, a, s');
      WorkIsNatural(s);
      QuietKeepsCounters(s, a, s');
      NextKeepsSound(s, a, s');
      var rest := ComesToRest(s', now);
      assert FollowsQuietly(s, s');
      run := [s] + rest;
    }
  }

  // ---------- At rest ----------

  lemma RestMeansReceived(s: State, n: NodeId, r: RM.Rid)
    requires NoFailures(s) && AtRest(s) && n in s.rm.members && r < |s.rm.origin|
    ensures r in s.rm.received[n]
  {
    var o := s.rm.origin[r];
    assert RM.Knows(s.rm, o, r) && RM.Live(s.rm, o) && RM.Live(s.rm, n);
    assert (o, n) in s.rm.chan;
  }

  lemma RestMeansHandled(s: State, n: NodeId, m: MsgId)
    requires Sound(s) && AtRest(s) && n in s.core.members && m in s.core.asked
    ensures n in s.core.locals && m in s.core.locals[n].proposed
  {
    hide RM.Inv, Isis.Inv, ProposesInOrder, Counting.Counted, AtRest;
    assert AskLinked(s, m) && AskInStep(s, n, m);
    RestMeansReceived(s, n, s.askRid[m]);
  }

  lemma VoteIsTallied(s: State, n: NodeId, m: MsgId)
    requires Sound(s) && AtRest(s) && n in s.core.members && m in s.core.asked && m !in s.core.agreed
    ensures var src := s.core.asked[m].src;
            src in s.core.locals && m in s.core.locals[src].node.waiting
            && n in Voters(s.core.locals[src].node.waiting[m])
  {
    hide NoFailures, Linked, InStep, ProposesInOrder, Isis.AllUndisturbed, Counting.Counted, Isis.NodesOk, Isis.AgreedOk, Isis.BagOk, Isis.TablesOk;
    RestMeansHandled(s, n, m);
    var src := s.core.asked[m].src;
    var v := Isis.CastVote(s.core, n, m);
    assert Isis.Tallied(s.core, src, v);
    var votes := s.core.locals[src].node.waiting[m];
    var i :| 0 <= i < |votes| && votes[i] == v;
  }

  /** Every message is agreed: a full vote table is never kept. */
  lemma RestMeansAgreed(s: State, m: MsgId)
    requires Sound(s) && AtRest(s) && m in s.core.asked
    ensures m in s.core.agreed
  {
    hide NoFailures, Linked, InStep, ProposesInOrder, Isis.AllUndisturbed, Counting.Counted, Isis.NodesOk, Isis.AgreedOk, Isis.BagOk, Isis.NoVoteLost, AtRest;
    if m !in s.core.agreed {
      var src := s.core.asked[m].src;
      VoteIsTallied(s, src, m);
      var votes := s.core.locals[src].node.waiting[m];
      assert Isis.TableOk(s.core, src, m, votes);
      VotersCount(votes);
      forall n | n in s.core.members
        ensures n in Voters(votes)
      {
        VoteIsTallied(s, n, m);
      }
      Counting.SubsetSize(s.core.members, Voters(votes));
    }
  }

  lemma RestMeansHeard(s: State, n: NodeId, m: MsgId)
    requires Sound(s) && AtRest(s) && n in s.core.members && m in s.core.asked
    ensures n in s.core.locals && m in s.core.locals[n].heard
  {
    RestMeansAgreed(s, m);
    hide RM.Inv, Isis.Inv, ProposesInOrder, Counting.Counted, AtRest;
    assert AnnLinked(s, m) && AnnInStep(s, n, m);
    RestMeansReceived(s, n, s.annRid[m]);
  }

  lemma RestMeansNothingHeld(s: State, n: NodeId)
    requires Sound(s) && AtRest(s) && n in s.core.members
    ensures n in s.core.locals && s.core.locals[n].node.hold == map[]
  {
    hide NoFailures, Linked, InStep, ProposesInOrder, Counting.Counted, Isis.AgreedOk, Isis.BagOk, Isis.TablesOk, Isis.NoVoteLost, AtRest;
    HoldIsLabelled(s.core, n);
    assert Isis.NodeSettled(s.core, n);
    var l := s.core.locals[n];
    if l.node.hold != map[] {
      var x := HeadExists(l.node.hold);
      assert Isis.ItemOk(l, s.core.asked, s.core.agreed, x.msgId, x);
      RestMeansHeard(s, n, x.msgId);
    }
  }

  lemma RestMeansNoTables(s: State, n: NodeId)
    requires Sound(s) && AtRest(s) && n in s.core.members
    ensures n in s.core.locals && s.core.locals[n].node.waiting == map[]
  {
    hide NoFailures, Linked, InStep, ProposesInOrder, Isis.AllUndisturbed, Counting.Counted, Isis.NodesOk, Isis.AgreedOk, Isis.BagOk, Isis.NoVoteLost, AtRest;
    var waiting := s.core.locals[n].node.waiting;
    if waiting != map[] {
      var k :| k in waiting;
      assert Isis.TableOk(s.core, n, k, waiting[k]);
      RestMeansAgreed(s, k);
    }
  }

  /** Drain: at rest every node has delivered every message submitted and no other, and holds and awaits nothing. */
  lemma RestMeansDelivered(s: State, n: NodeId, m: MsgId)
    requires Sound(s) && AtRest(s) && n in s.core.members
    ensures n in s.core.locals && s.core.locals[n].node.hold == map[] && s.core.locals[n].node.waiting == map[]
    ensures m in s.core.asked <==> Isis.InLog(s.core.locals[n], m)
  {
    hide NoFailures, Linked, InStep, ProposesInOrder, Counting.Counted, Isis.Inv, AtRest;
    RestMeansNothingHeld(s, n);
    RestMeansNoTables(s, n);
    if m in s.core.asked {
      RestMeansAgreed(s, m);
      TotalOrder.AgreedIsSomewhere(s.core, n, m);
    } else if Isis.InLog(s.core.locals[n], m) {
      var i :| 0 <= i < |TotalOrder.LogOf(s.core, n)| && TotalOrder.LogOf(s.core, n)[i].msgId == m;
      TotalOrder.LogEntryFacts(s.core, n, i);
    }
  }

  lemma NoLongerLog(s: State, a: NodeId, b: NodeId)
    requires Sound(s) && AtRest(s) && a in s.core.members && b in s.core.members && a in s.core.locals && b in s.core.locals
    requires TotalOrder.LogOf(s.core, a) <= TotalOrder.LogOf(s.core, b)
    ensures TotalOrder.LogOf(s.core, a) == TotalOrder.LogOf(s.core, b)
  {
    hide NoFailures, Linked, InStep, ProposesInOrder, Isis.AllUndisturbed, Counting.Counted, Isis.Inv, AtRest;
    var x, y := TotalOrder.LogOf(s.core, a), TotalOrder.LogOf(s.core, b);
    if |x| < |y| {
      var m := y[|x|].msgId;
      TotalOrder.LogEntryFacts(s.core, b, |x|);
      RestMeansDelivered(s, a, m);
      assert Isis.InLog(s.core.locals[a], m);
      var i :| 0 <= i < |x| && x[i].msgId == m;
      TotalOrder.LogEntryFacts(s.core, b, i);
      TotalOrder.LogsAreSorted(s.core, b, i, |x|);
      KeyLessIrreflexive(KeyOf(y[i]));
    }
  }

  /** At rest all logs are equal. */
  lemma RestMeansEqualLogs(s: State, a: NodeId, b: NodeId)
    requires Sound(s) && AtRest(s) && a in s.core.members && b in s.core.members
    ensures a in s.core.locals && b in s.core.locals && TotalOrder.LogOf(s.core, a) == TotalOrder.LogOf(s.core, b)
  {
    hide NoFailures, Linked, InStep, ProposesInOrder, Isis.AllUndisturbed, Counting.Counted, Isis.Inv, AtRest;
    MemberIsLocal(s, a);
    MemberIsLocal(s, b);
    TotalOrder.LogsArePrefixes(s.core, a, b);
    if TotalOrder.LogOf(s.core, a) <= TotalOrder.LogOf(s.core, b) {
      NoLongerLog(s, a, b);
    } else {
      NoLongerLog(s, b, a);
    }
  }

  // ---------- Along a run ----------

  /** After the last submission of a run, at `i`, it takes at most `Work` more steps. */
  lemma RunsEnd(run: seq<State>, i: nat)
    requires IsRun(run) && i < |run| && WithinCounters(run[i])
    requires forall k :: i <= k < |run| - 1 ==> FollowsQuietly(run[k], run[k + 1])
    ensures |run| - 1 - i <= Work(run[i])
  {
    hide Sound, WithinCounters, Work, System.Next;
    RunIsSound(run, i);
    var rest := run[i..];
    forall k | 0 <= k < |rest| - 1
      ensures FollowsQuietly(rest[k], rest[k + 1])
    {
      assert FollowsQuietly(run[i + k], run[i + k + 1]);
    }
    QuietRunsAreShort(rest);
  }

  /** Every state a run reaches can be followed by steps that are not submissions until the group is at rest. */
  lemma RunsCanEnd(run: seq<State>, i: nat, now: int) returns (rest: seq<State>)
    requires IsRun(run) && i < |run| && WithinCounters(run[i])
    ensures rest != [] && rest[0] == run[i] && AtRest(rest[|rest| - 1])
    ensures forall k :: 0 <= k < |rest| - 1 ==> FollowsQuietly(rest[k], rest[k + 1])
  {
    hide Sound, WithinCounters, AtRest, FollowsQuietly, IsRun;
    RunIsSound(run, i);
    rest := ComesToRest(run[i], now);
  }

  /**
   Drain: when a run has come to rest, every queue and vote table is empty, and the logs are all one and the
   same list of exactly the messages submitted.
   */
  lemma RunsDrain(run: seq<State>, i: nat, a: NodeId, b: NodeId, m: MsgId)
    requires IsRun(run) && i < |run| && WithinCounters(run[i]) && AtRest(run[i])
    requires a in run[i].core.members && b in run[i].core.members
    ensures var core := run[i].core;
            && a in core.locals && b in core.locals && TotalOrder.LogOf(core, a) == TotalOrder.LogOf(core, b)
            && core.locals[a].node.hold == map[] && core.locals[a].node.waiting == map[]
            && (m in core.asked <==> Isis.InLog(core.locals[a], m))
  {
    hide Sound, WithinCounters, AtRest, IsRun, Isis.InLog;
    RunIsSound(run, i);
    RestMeansEqualLogs(run[i], a, b);
    RestMeansDelivered(run[i], a, m);
  }
}
