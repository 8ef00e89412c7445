/** What the failure of others costs a node: exactly when it skips a message, and what order and quorum are left. */
module Failures {
  import opened Order
  import opened Heap
  import opened Votes
  import opened Node
  import opened NodeRuns
  import Ledger

  // ---------- When a message is skipped ----------

  /** A proposal exceeds both counters exactly while neither has reached the last uint64. */
  lemma ProposalIsNewIff(n: Node, m: MsgId, src: NodeId, body: Ledger.Operation)
    requires n.maxAgreed < UINT64_SPAN && n.maxProposed < UINT64_SPAN
    ensures var q := Propose(n, m, src, body).maxProposed;
            q > n.maxAgreed && q > n.maxProposed <==> n.maxAgreed != UINT64_SPAN - 1 && n.maxProposed != UINT64_SPAN - 1
  {
    NextRisesIff(MaxUint64(n.maxAgreed, n.maxProposed));
    hide Next;
  }

  /** Unagreed messages are held under distinct numbers, none above the node's last proposal. */
  ghost predicate Spread(n: Node) {
    && (forall m :: m in n.hold && !n.hold[m].agreed ==> n.hold[m].seqNum <= n.maxProposed)
    && (forall m, m' :: m in n.hold && m' in n.hold && m != m' && !n.hold[m].agreed && !n.hold[m'].agreed ==>
          n.hold[m].seqNum != n.hold[m'].seqNum)
  }

  /** The counters have not run out. */
  ghost predicate CountersLast(n: Node) {
    n.maxAgreed < UINT64_SPAN - 1 && n.maxProposed < UINT64_SPAN - 1
  }

  lemma AskedStaysSpread(n: Node, m: MsgId, src: NodeId, body: Ledger.Operation)
    requires Spread(n) && CountersLast(n)
    ensures Spread(Propose(n, m, src, body))
  {
    hide Next;
    ProposalIsNewIff(n, m, src, body);
  }

  /** `n'` holds nothing unagreed that `n` does not hold in the same way. */
  ghost predicate Shrinks(n: Node, n': Node) {
    n'.maxProposed == n.maxProposed
    && forall m :: m in n'.hold && !n'.hold[m].agreed ==> m in n.hold && n.hold[m] == n'.hold[m]
  }

  lemma {:induction false} DeliverAllShrinks(n: Node, xs: seq<Item>)
    ensures Shrinks(n, DeliverAll(n, xs)) && DeliverAll(n, xs).crashSeen == n.crashSeen
    ensures DeliverAll(n, xs).skipped == n.skipped
  {
    if xs != [] {
      DeliverAllShrinks(n, xs[..|xs| - 1]);
    }
  }

  lemma RaisedShrinks(n: Node, m: MsgId, k: Key, xs: seq<Item>)
    ensures var d := DeliverAll(Raise(n, m, k), xs);
            Shrinks(n, d) && d.crashSeen == n.crashSeen && d.skipped == n.skipped
  {
    DeliverAllShrinks(Raise(n, m, k), xs);
  }

  lemma AnnouncedShrinks(n: Node, m: MsgId, k: Key, alive: set<NodeId>, now: int, xs: seq<Item>, n': Node)
    requires Learns(n, m, k, alive, now, xs, n')
    ensures Shrinks(n, n')
  {
    RaisedShrinks(n, m, k, xs);
  }

  lemma ReactStaysSpread(n: Node, e: Event, n': Node)
    requires Spread(n) && CountersLast(n) && Reacts(n, e, n')
    ensures Spread(n')
  {
    hide Learns, Propose;
    match e
    case Asked(m, src, body) => AskedStaysSpread(n, m, src, body);
    case Voted(vote, members) =>
    case Rechecked(published) =>
    case Announced(m, key, alive, now, xs) => AnnouncedShrinks(n, m, key, alive, now, xs, n');
  }

  lemma {:induction false} RunStaysSpread(nodes: seq<Node>, events: seq<Event>, i: nat)
    requires IsRun(nodes, events) && i <= |events| && forall k :: 0 <= k < i ==> CountersLast(nodes[k])
    ensures Spread(nodes[i])
  {
    hide Reacts, CountersLast;
    if i > 0 {
      RunStaysSpread(nodes, events, i - 1);
      ReactStaysSpread(nodes[i - 1], events[i - 1], nodes[i]);
    }
  }

  /** Nothing ties with an unagreed head. */
  lemma UnagreedHeadIsOne(n: Node, u: Item, v: Item)
    requires Spread(n) && IsHead(n.hold, u) && IsHead(n.hold, v) && !u.agreed && !v.agreed
    ensures u == v
  {
    assert ItemLeq(u, v) && ItemLeq(v, u);
  }

  ghost predicate LeavesBySkipping(n: Node, n': Node, m: MsgId) {
    m in n.hold && m !in n'.hold && Occurs(n'.skipped, m)
  }

  /** `e` announces a held message, and the deliveries it brings leave `m`, a message of `a`, at the head and unagreed. */
  ghost predicate StopsAt(n: Node, e: Event, m: MsgId, a: NodeId) {
    && e.Announced? && e.m in n.hold
    && var hold := DeliverAll(Raise(n, e.m, e.key), e.xs).hold;
       m in hold && IsHead(hold, hold[m]) && !hold[m].agreed && hold[m].procId == a
  }

  /** The source of `m`, at whose message the node stops, is not live and was timed more than the timeout ago. */
  ghost predicate TimedOut(n: Node, e: Event, m: MsgId) {
    exists a :: StopsAt(n, e, m, a) && a !in e.alive && a in n.crashSeen && e.now - n.crashSeen[a] > NODE_CRASH_TIMEOUT
  }

  lemma SettlingSkipsIff(d: Node, alive: set<NodeId>, now: int, n': Node, m: MsgId)
    requires Tidy(d) && Spread(d) && Settles(d, alive, now, n') && !Occurs(d.skipped, m)
    ensures Occurs(n'.skipped, m) <==>
              && m in d.hold && IsHead(d.hold, d.hold[m]) && !d.hold[m].agreed
              && d.hold[m].procId !in alive && d.hold[m].procId in d.crashSeen
              && now - d.crashSeen[d.hold[m].procId] > NODE_CRASH_TIMEOUT
    ensures |d.skipped| <= |n'.skipped| <= |d.skipped| + 1 && (Occurs(n'.skipped, m) ==> m !in n'.hold)
  {
    hide Spread;
    if d.hold != map[] {
      var u :| IsHead(d.hold, u) && !u.agreed && n' == Timeout(d, u, alive, now);
      OccursSnoc(d.skipped, u, m);
      assert u.msgId in d.hold && d.hold[u.msgId] == u;
      if m in d.hold && IsHead(d.hold, d.hold[m]) && !d.hold[m].agreed {
        UnagreedHeadIsOne(d, u, d.hold[m]);
        assert d.hold[m].msgId == m;
      }
    }
  }

  lemma HeldIsNotSkipped(n: Node, m: MsgId)
    requires Tidy(n) && m in n.hold
    ensures !Occurs(n.skipped, m)
  {
  }

  lemma ReactSkipsIff(n: Node, e: Event, n': Node, m: MsgId)
    requires Tidy(n) && Spread(n) && Reacts(n, e, n')
    ensures LeavesBySkipping(n, n', m) <==> TimedOut(n, e, m)
  {
    hide Tidy, Spread, Settles;
    if e.Announced? && e.m in n.hold {
      var d := DeliverAll(Raise(n, e.m, e.key), e.xs);
      RaisedShrinks(n, e.m, e.key, e.xs);
      ShrunkStaysSpread(n, d);
      RaiseStaysTidy(n, e.m, e.key);
      DeliverAllStaysTidy(Raise(n, e.m, e.key), e.xs);
      if m in n.hold {
        HeldIsNotSkipped(n, m);
        SettlingSkipsIff(d, e.alive, e.now, n', m);
        assert m in d.hold ==> (StopsAt(n, e, m, d.hold[m].procId) <==> IsHead(d.hold, d.hold[m]) && !d.hold[m].agreed);
      }
    }
  }

  lemma ShrunkStaysSpread(n: Node, d: Node)
    requires Spread(n) && Shrinks(n, d)
    ensures Spread(d)
  {
  }

  // ---------- When a source was first found gone ----------

  /** The node stops at a message of `a`, which it does not take for live. */
  ghost predicate FindsGone(n: Node, e: Event, a: NodeId) {
    e.Announced? && a !in e.alive && exists m :: StopsAt(n, e, m, a)
  }

  /** Settling at an unagreed head of `a`, and only that, starts the clock of `a`, and nothing restarts it. */
  lemma SettlingTimes(d: Node, alive: set<NodeId>, now: int, n': Node, a: NodeId)
    requires Tidy(d) && Spread(d) && Settles(d, alive, now, n')
    ensures var gone := a !in alive && exists m :: m in d.hold && IsHead(d.hold, d.hold[m]) && !d.hold[m].agreed && d.hold[m].procId == a;
            && (a in n'.crashSeen <==> a in d.crashSeen || gone)
            && (a in d.crashSeen ==> n'.crashSeen[a] == d.crashSeen[a])
            && (a !in d.crashSeen && gone ==> n'.crashSeen[a] == now)
  {
    hide Spread, Tidy;
    if d.hold != map[] {
      var u :| IsHead(d.hold, u) && !u.agreed && n' == Timeout(d, u, alive, now);
      assert u.msgId in d.hold && d.hold[u.msgId] == u;
      forall m | m in d.hold && IsHead(d.hold, d.hold[m]) && !d.hold[m].agreed
        ensures d.hold[m] == u
      {
        UnagreedHeadIsOne(d, u, d.hold[m]);
      }
    }
  }

  lemma ReactTimes(n: Node, e: Event, n': Node, a: NodeId)
    requires Tidy(n) && Spread(n) && Reacts(n, e, n')
    ensures a in n'.crashSeen <==> a in n.crashSeen || FindsGone(n, e, a)
    ensures a in n.crashSeen ==> n'.crashSeen[a] == n.crashSeen[a]
    ensures a !in n.crashSeen && FindsGone(n, e, a) ==> n'.crashSeen[a] == e.now
  {
    hide Tidy, Spread, Settles, IsHead;
    if e.Announced? && e.m in n.hold {
      var d := DeliverAll(Raise(n, e.m, e.key), e.xs);
      RaisedShrinks(n, e.m, e.key, e.xs);
      ShrunkStaysSpread(n, d);
      RaiseStaysTidy(n, e.m, e.key);
      DeliverAllStaysTidy(Raise(n, e.m, e.key), e.xs);
      SettlingTimes(d, e.alive, e.now, n', a);
      assert forall m :: StopsAt(n, e, m, a) <==>
                           m in d.hold && IsHead(d.hold, d.hold[m]) && !d.hold[m].agreed && d.hold[m].procId == a;
    }
  }

  /** `events[k]` is the first before `i` at which the node finds `a` gone. */
  ghost predicate FirstFindsGone(nodes: seq<Node>, events: seq<Event>, i: nat, a: NodeId, k: int)
    requires i <= |events| < |nodes|
  {
    0 <= k < i && events[k].Announced? && FindsGone(nodes[k], events[k], a) && forall j :: 0 <= j < k ==> !FindsGone(nodes[j], events[j], a)
  }

  lemma {:induction false} FirstExists(nodes: seq<Node>, events: seq<Event>, i: nat, a: NodeId, k: nat) returns (first: int)
    requires i <= |events| < |nodes| && k < i && FindsGone(nodes[k], events[k], a)
    ensures FirstFindsGone(nodes, events, i, a, first)
  {
    hide DeliverAll, Raise, IsHead;
    if j :| 0 <= j < k && FindsGone(nodes[j], events[j], a) {
      first := FirstExists(nodes, events, i, a, j);
    } else {
      first := k;
    }
  }

  lemma {:induction false} TimerStarts(nodes: seq<Node>, events: seq<Event>, i: nat, a: NodeId)
    requires IsRun(nodes, events) && i <= |events| && forall k :: 0 <= k < i ==> CountersLast(nodes[k])
    ensures a in nodes[i].crashSeen <==> exists k :: 0 <= k < i && FindsGone(nodes[k], events[k], a)
    ensures forall k :: FirstFindsGone(nodes, events, i, a, k) ==> a in nodes[i].crashSeen && nodes[i].crashSeen[a] == events[k].now
  {
    hide StopsAt, Reacts, Tidy, Seen, AskedBefore, CountersLast, Spread;
    if i > 0 {
      TimerStarts(nodes, events, i - 1, a);
      RunStaysSpread(nodes, events, i - 1);
      AtMostOnce(nodes, events, i - 1);
      ReactTimes(nodes[i - 1], events[i - 1], nodes[i], a);
      forall k | FirstFindsGone(nodes, events, i, a, k)
        ensures a in nodes[i].crashSeen && nodes[i].crashSeen[a] == events[k].now
      {
        assert k < i - 1 ==> FirstFindsGone(nodes, events, i - 1, a, k);
      }
    }
  }

  /**
   The clock of a source, exactly: it shows `t` if and only if the first event at which the node stopped at an
   unagreed message of that source, not taking it for live, came at `t`.
   */
  lemma TimerIff(nodes: seq<Node>, events: seq<Event>, i: nat, a: NodeId, t: int)
    requires IsRun(nodes, events) && i <= |events| && forall k :: 0 <= k < i ==> CountersLast(nodes[k])
    ensures a in nodes[i].crashSeen && nodes[i].crashSeen[a] == t <==>
            exists k :: FirstFindsGone(nodes, events, i, a, k) && events[k].now == t
  {
    hide StopsAt, Reacts, CountersLast;
    TimerStarts(nodes, events, i, a);
    if a in nodes[i].crashSeen {
      var k :| 0 <= k < i && FindsGone(nodes[k], events[k], a);
      var first := FirstExists(nodes, events, i, a, k);
    }
  }

  /**
   `m` is overdue at event `i`: the node stops at it, its source is not taken for live, and more than 6 seconds, in
   nanoseconds, have gone by since the node first found that source gone.
   */
  ghost predicate Overdue(nodes: seq<Node>, events: seq<Event>, i: nat, m: MsgId)
    requires i < |events| < |nodes|
  {
    exists a, k :: StopsAt(nodes[i], events[i], m, a) && a !in events[i].alive && FirstFindsGone(nodes, events, i, a, k)
                   && events[i].now - events[k].now > 6_000_000_000
  }

  /**
   The 6-second rule, exactly. In every run whose counters have not run out, a message leaves the queue by
   being skipped if and only if it is overdue.
   */
  lemma SkipsIff(nodes: seq<Node>, events: seq<Event>, i: nat, m: MsgId)
    requires IsRun(nodes, events) && i < |events| && forall k :: 0 <= k < i ==> CountersLast(nodes[k])
    ensures LeavesBySkipping(nodes[i], nodes[i + 1], m) <==> Overdue(nodes, events, i, m)
  {
    hide CountersLast, Spread, Tidy, Seen, AskedBefore, Reacts, FindsGone, DeliverAll, Raise, IsHead, LeavesBySkipping;
    RunStaysSpread(nodes, events, i);
    AtMostOnce(nodes, events, i);
    ReactSkipsIff(nodes[i], events[i], nodes[i + 1], m);
    if TimedOut(nodes[i], events[i], m) {
      var a :| StopsAt(nodes[i], events[i], m, a) && a !in events[i].alive && a in nodes[i].crashSeen
               && events[i].now - nodes[i].crashSeen[a] > NODE_CRASH_TIMEOUT;
      TimerIff(nodes, events, i, a, nodes[i].crashSeen[a]);
      var k :| FirstFindsGone(nodes, events, i, a, k) && events[k].now == nodes[i].crashSeen[a];
    }
    if Overdue(nodes, events, i, m) {
      var a, k :| StopsAt(nodes[i], events[i], m, a) && a !in events[i].alive && FirstFindsGone(nodes, events, i, a, k)
                  && events[i].now - events[k].now > 6_000_000_000;
      TimerIff(nodes, events, i, a, events[k].now);
    }
  }

  /** No event skips more than one message. */
  lemma SkipsAtMostOne(nodes: seq<Node>, events: seq<Event>, i: nat)
    requires IsRun(nodes, events) && i < |events|
    ensures nodes[i].skipped <= nodes[i + 1].skipped && |nodes[i + 1].skipped| <= |nodes[i].skipped| + 1
  {
    var n, e := nodes[i], events[i];
    if e.Announced? {
      RaisedShrinks(n, e.m, e.key, e.xs);
    }
  }

  /** A crashed source's unannounced message stays held, whatever the clock says, while nothing more is announced. */
  lemma StaysHeld(body: Ledger.Operation, now: int) returns (nodes: seq<Node>, events: seq<Event>)
    ensures IsRun(nodes, events) && |events| == 3
    ensures events[2].Announced? && events[2].now == now && "c" !in events[2].alive
    ensures 0 in nodes[3].hold && nodes[3].hold[0] == Item(body, 1, "c", false, 0)
  {
    hide CanDeliver, DeliverAll, Settles;
    var alive: set<NodeId> := {"a", "b"};
    assert "c"[0] != "a"[0] && "c"[0] != "b"[0];
    var n1 := Propose(Fresh, 0, "c", body);
    var n2 := Propose(n1, 1, "a", body);
    var r := Raise(n2, 1, Key(2, "a"));
    var u := Item(body, 1, "c", false, 0);
    var n3 := Timeout(r, u, alive, now);
    StaysBehind(r, u, alive, now, n3);
    nodes, events := [Fresh, n1, n2, n3], [Asked(0, "c", body), Asked(1, "a", body), Announced(1, Key(2, "a"), alive, now, [])];
  }

  // ---------- What skipping costs ----------

  /**
   Skipping is final: once one node has skipped a message that another delivers at position `p`, neither log is
   a prefix of the other from the moment the first has delivered more than `p` messages.
   */
  lemma SkipDiverges(nodes: seq<Node>, events: seq<Event>, i: nat, others: seq<Node>, otherEvents: seq<Event>, j: nat, p: nat)
    requires IsRun(nodes, events) && i <= |events| && IsRun(others, otherEvents) && j <= |otherEvents|
    requires p < |others[j].log| && Occurs(nodes[i].skipped, others[j].log[p].msgId) && |nodes[i].log| > p
    ensures !(nodes[i].log <= others[j].log) && !(others[j].log <= nodes[i].log)
  {
    AtMostOnce(nodes, events, i);
    var k :| 0 <= k < |nodes[i].skipped| && nodes[i].skipped[k].msgId == others[j].log[p].msgId;
    assert nodes[i].log[p].msgId != nodes[i].skipped[k].msgId;
  }

  /** The node after asks for message 0 from "a" and messages 1, 2 and 3 from "b". */
  function FourAsked(body: Ledger.Operation): Node {
    Propose(Propose(Propose(Propose(Fresh, 0, "a", body), 1, "b", body), 2, "b", body), 3, "b", body)
  }

  /** The messages as they end up agreed. */
  function Agreed(body: Ledger.Operation, m: MsgId): Item {
    Item(body, m + 1, "b", true, m)
  }

  /** The number proposed for each of the four, before any is agreed. */
  lemma FourAskedIs(body: Ledger.Operation)
    ensures FourAsked(body) == Node(0, 4, map[0 := Item(body, 1, "a", false, 0), 1 := Item(body, 2, "b", false, 1),
                                             2 := Item(body, 3, "b", false, 2), 3 := Item(body, 4, "b", false, 3)],
                                    map[], map[], [], [])
  {
  }

  /** Told of message 0 in time, a node delivers it and waits for message 1. */
  lemma ZeroIsDelivered(body: Ledger.Operation) returns (n: Node)
    ensures Learns(FourAsked(body), 0, Key(1, "b"), {"a", "b"}, 0, [Agreed(body, 0)], n)
    ensures n.log == [Agreed(body, 0)] && n.skipped == []
  {
    hide DeliverAll, CanDeliver, IsHead;
    FourAskedIs(body);
    var x, u := Agreed(body, 0), Item(body, 2, "b", false, 1);
    var r := Raise(FourAsked(body), 0, Key(1, "b"));
    DeliverNone(r);
    DeliversNext(r, [], x);
    assert [] + [x] == [x];
    n := DeliverAll(r, [x]);
    assert n.hold == map[1 := u, 2 := Item(body, 3, "b", false, 2), 3 := Item(body, 4, "b", false, 3)];
    IsTheHead(n.hold, u);
  }

  /** An item with the smallest number is a head. */
  lemma IsTheHead(hold: map<MsgId, Item>, u: Item)
    requires u.msgId in hold && hold[u.msgId] == u && forall m :: m in hold && m != u.msgId ==> u.seqNum < hold[m].seqNum
    ensures IsHead(hold, u)
  {
    KeyLessIrreflexive(KeyOf(u));
  }

  /** A node that is told of message 0 in time delivers it. */
  lemma DeliversWhenToldInTime(body: Ledger.Operation) returns (nodes: seq<Node>, events: seq<Event>)
    ensures IsRun(nodes, events) && nodes[|events|].log == [Agreed(body, 0)]
  {
    hide Propose, Learns, Agreed;
    var n1 := Propose(Fresh, 0, "a", body);
    var n2 := Propose(n1, 1, "b", body);
    var n3 := Propose(n2, 2, "b", body);
    var n4 := Propose(n3, 3, "b", body);
    var n5 := ZeroIsDelivered(body);
    nodes := [Fresh, n1, n2, n3, n4, n5];
    events := [Asked(0, "a", body), Asked(1, "b", body), Asked(2, "b", body), Asked(3, "b", body),
               Announced(0, Key(1, "b"), {"a", "b"}, 0, [Agreed(body, 0)])];
  }

  /** An announcement that leaves message 0 at the head. */
  ghost predicate StuckBehind(n: Node, m: MsgId, k: Key, now: int, n': Node) {
    var r := Raise(n, m, k);
    m in n.hold && 0 in r.hold && CanDeliver(r, []) && Settles(DeliverAll(r, []), {"b"}, now, n')
  }

  lemma FirstIsTimed(body: Ledger.Operation) returns (n: Node)
    ensures StuckBehind(FourAsked(body), 1, Key(2, "b"), 0, n)
    ensures n.crashSeen == map["a" := 0] && n.skipped == [] && n.log == []
    ensures n.hold == map[0 := Item(body, 1, "a", false, 0), 1 := Agreed(body, 1),
                          2 := Item(body, 3, "b", false, 2), 3 := Item(body, 4, "b", false, 3)]
  {
    hide CanDeliver, DeliverAll, Settles;
    var u := Item(body, 1, "a", false, 0);
    var r := Raise(FourAsked(body), 1, Key(2, "b"));
    assert "a"[0] != "b"[0];
    n := Timeout(r, u, {"b"}, 0);
    StaysBehind(r, u, {"b"}, 0, n);
  }

  lemma SecondIsSkipped(body: Ledger.Operation, n: Node, now: int) returns (n': Node)
    requires n.crashSeen == map["a" := 0] && n.skipped == [] && n.log == [] && now > NODE_CRASH_TIMEOUT
    requires n.hold == map[0 := Item(body, 1, "a", false, 0), 1 := Agreed(body, 1),
                           2 := Item(body, 3, "b", false, 2), 3 := Item(body, 4, "b", false, 3)]
    ensures StuckBehind(n, 2, Key(3, "b"), now, n') && n'.skipped == [Item(body, 1, "a", false, 0)] && n'.log == []
    ensures n'.hold == map[1 := Agreed(body, 1), 2 := Agreed(body, 2), 3 := Item(body, 4, "b", false, 3)]
  {
    hide CanDeliver, DeliverAll, Settles;
    var u := Item(body, 1, "a", false, 0);
    var r := Raise(n, 2, Key(3, "b"));
    assert "a"[0] != "b"[0];
    n' := Timeout(r, u, {"b"}, now);
    StaysBehind(r, u, {"b"}, now, n');
  }

  /** The third announcement frees everything left. */
  lemma ThirdDelivers(body: Ledger.Operation, n: Node, now: int) returns (n': Node)
    requires n.hold == map[1 := Agreed(body, 1), 2 := Agreed(body, 2), 3 := Item(body, 4, "b", false, 3)] && n.log == []
    ensures Learns(n, 3, Key(4, "b"), {"b"}, now, [Agreed(body, 1), Agreed(body, 2), Agreed(body, 3)], n')
    ensures n'.hold == map[] && n'.skipped == n.skipped && n'.log == [Agreed(body, 1), Agreed(body, 2), Agreed(body, 3)]
  {
    hide DeliverAll, CanDeliver, IsHead;
    var x, y, z := Agreed(body, 1), Agreed(body, 2), Agreed(body, 3);
    var r := Raise(n, 3, Key(4, "b"));
    assert r.hold == map[1 := x, 2 := y, 3 := z];
    DeliverNone(r);
    DeliversNext(r, [], x);
    assert [] + [x] == [x];
    assert DeliverAll(r, [x]).hold == map[2 := y, 3 := z];
    DeliversNext(r, [x], y);
    assert [x] + [y] == [x, y];
    assert DeliverAll(r, [x, y]).hold == map[3 := z];
    DeliversNext(r, [x, y], z);
    assert [x, y] + [z] == [x, y, z];
    n' := DeliverAll(r, [x, y, z]);
    assert n'.hold == map[];
  }

  /** An agreed message with the smallest number is delivered next. */
  lemma DeliversNext(r: Node, xs: seq<Item>, x: Item)
    requires CanDeliver(r, xs) && x.agreed && x.msgId in DeliverAll(r, xs).hold && DeliverAll(r, xs).hold[x.msgId] == x
    requires forall m :: m in DeliverAll(r, xs).hold && m != x.msgId ==> x.seqNum < DeliverAll(r, xs).hold[m].seqNum
    ensures CanDeliver(r, xs + [x]) && DeliverAll(r, xs + [x]) == DeliverOne(DeliverAll(r, xs), x)
  {
    KeyLessIrreflexive(KeyOf(x));
    DeliverAllSnoc(r, xs, x);
  }

  /**
   A node asked the same that finds "a" gone and waits more than the timeout for the announcement skips message 0,
   delivers the messages behind it, and has no use for the announcement when it comes.
   */
  lemma SkipsWhenToldLate(body: Ledger.Operation) returns (nodes: seq<Node>, events: seq<Event>)
    ensures IsRun(nodes, events) && nodes[|events|].skipped == [Item(body, 1, "a", false, 0)]
    ensures nodes[|events|].log == [Agreed(body, 1), Agreed(body, 2), Agreed(body, 3)]
  {
    hide Propose, Raise, Settles, CanDeliver, DeliverAll, Learns, Agreed;
    var alive: set<NodeId> := {"b"};
    var late := NODE_CRASH_TIMEOUT + 1;
    var n1 := Propose(Fresh, 0, "a", body);
    var n2 := Propose(n1, 1, "b", body);
    var n3 := Propose(n2, 2, "b", body);
    var n4 := Propose(n3, 3, "b", body);
    var n5 := FirstIsTimed(body);
    StuckIsLearned(n4, 1, Key(2, "b"), 0, n5);
    var n6 := SecondIsSkipped(body, n5, late);
    StuckIsLearned(n5, 2, Key(3, "b"), late, n6);
    var n7 := ThirdDelivers(body, n6, late);
    var n8 := Raise(n7, 0, Key(1, "b"));
    UnknownIsIgnored(n7, 0, Key(1, "b"), alive, late);
    nodes := [Fresh, n1, n2, n3, n4, n5, n6, n7, n8];
    events := [Asked(0, "a", body), Asked(1, "b", body), Asked(2, "b", body), Asked(3, "b", body),
               Announced(1, Key(2, "b"), alive, 0, []), Announced(2, Key(3, "b"), alive, late, []),
               Announced(3, Key(4, "b"), alive, late, [Agreed(body, 1), Agreed(body, 2), Agreed(body, 3)]),
               Announced(0, Key(1, "b"), alive, late, [])];
  }

  lemma StuckIsLearned(n: Node, m: MsgId, k: Key, now: int, n': Node)
    requires StuckBehind(n, m, k, now, n')
    ensures Learns(n, m, k, {"b"}, now, [], n')
  {
  }

  lemma UnknownIsIgnored(n: Node, m: MsgId, k: Key, alive: set<NodeId>, now: int)
    requires m !in n.hold
    ensures var n' := Raise(n, m, k); Learns(n, m, k, alive, now, [], n') && n'.log == n.log && n'.skipped == n.skipped
  {
  }

  /**
   Total order fails under timeouts: asked the same, one node told of message 0 in time and one told late end up
   with logs of which neither is a prefix of the other.
   */
  lemma TimeoutsBreakOrder(body: Ledger.Operation)
    returns (late: seq<Node>, lateEvents: seq<Event>, prompt: seq<Node>, promptEvents: seq<Event>)
    ensures IsRun(late, lateEvents) && IsRun(prompt, promptEvents)
    ensures var x, y := late[|lateEvents|].log, prompt[|promptEvents|].log; !(x <= y) && !(y <= x)
  {
    hide IsRun;
    late, lateEvents := SkipsWhenToldLate(body);
    prompt, promptEvents := DeliversWhenToldInTime(body);
    LengthsFit(late, lateEvents);
    LengthsFit(prompt, promptEvents);
    assert late[|lateEvents|].skipped[0].msgId == prompt[|promptEvents|].log[0].msgId;
    SkipDiverges(late, lateEvents, |lateEvents|, prompt, promptEvents, |promptEvents|, 0);
  }

  lemma LengthsFit(nodes: seq<Node>, events: seq<Event>)
    requires IsRun(nodes, events)
    ensures |nodes| == |events| + 1
  {
  }

  /** Nothing is delivered past an unagreed head. */
  lemma StaysBehind(r: Node, u: Item, alive: set<NodeId>, now: int, n': Node)
    requires u.msgId in r.hold && r.hold[u.msgId] == u && !u.agreed && n' == Timeout(r, u, alive, now)
    requires forall m :: m in r.hold && m != u.msgId ==> u.seqNum < r.hold[m].seqNum
    ensures CanDeliver(r, []) && Settles(DeliverAll(r, []), alive, now, n')
  {
    KeyLessIrreflexive(KeyOf(u));
    DeliverNone(r);
    assert IsHead(r.hold, u);
  }

  // ---------- What ejection costs ----------

  /** A node that has voted for message 1 first votes 2 for message 0. */
  lemma VotesTwo(body: Ledger.Operation) returns (nodes: seq<Node>, events: seq<Event>)
    ensures IsRun(nodes, events) && 0 in nodes[|events|].hold && nodes[|events|].hold[0].seqNum == 2
  {
    var n1 := Propose(Fresh, 1, "b", body);
    var n2 := Propose(n1, 0, "a", body);
    nodes, events := [Fresh, n1, n2], [Asked(1, "b", body), Asked(0, "a", body)];
  }

  /**
   Counting fails as a quorum test under ejection. Node "a" has its own vote for message 0 when "c" is ejected,
   which leaves "a" and "b"; the vote of "c" still waits and is counted next. The announcement goes out under
   (1, "c") although "b" has not voted and may hold the message under the greater (2, "b").
   */
  lemma EjectionAnnouncesEarly(body: Ledger.Operation)
    returns (collector: seq<Node>, counted: seq<Event>, voter: seq<Node>, asked: seq<Event>)
    ensures IsRun(collector, counted) && counted == [Voted(Vote("a", 0, 1), 3), Voted(Vote("c", 0, 1), 2)]
    ensures Collect(collector[1], Vote("c", 0, 1), 2).1 == Some(Vote("c", 0, 1))
    ensures "b" !in Voters([Vote("a", 0, 1), Vote("c", 0, 1)])
    ensures IsRun(voter, asked) && 0 in voter[|asked|].hold
    ensures KeyLess(VoteKey(Vote("c", 0, 1)), Key(voter[|asked|].hold[0].seqNum, "b"))
  {
    EjectionDefeatsCount();
    voter, asked := VotesTwo(body);
    var v, w := Vote("a", 0, 1), Vote("c", 0, 1);
    var n1 := Collect(Fresh, v, 3).0;
    var none: seq<Vote> := [];
    assert none + [v] == [v];
    assert n1.waiting == map[0 := [v]];
    assert "a"[0] < "c"[0];
    assert [v] + [w] == [v, w] && [v, w][..1] == [v];
    assert MaxVote([v, w]) == w;
    collector, counted := [Fresh, n1, Collect(n1, w, 2).0], [Voted(v, 3), Voted(w, 2)];
  }
}
