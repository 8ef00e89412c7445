/** What one node guarantees over any sequence of events, crashes of other nodes and skipped messages included. */
module NodeRuns {
  import opened Order
  import opened Heap
  import opened Votes
  import opened Node
  import Ledger

  datatype Event =
    | Asked(m: MsgId, src: NodeId, body: Ledger.Operation)
    | Voted(vote: Vote, members: nat)
    | Rechecked(published: int)
    | Announced(m: MsgId, key: Key, alive: set<NodeId>, now: int, xs: seq<Item>)

  ghost predicate Reacts(n: Node, e: Event, n': Node) {
    match e
    case Asked(m, src, body) => n' == Propose(n, m, src, body)
    case Voted(vote, members) => n' == Collect(n, vote, members).0
    case Rechecked(published) => n' == Recheck(n, published)
    case Announced(m, key, alive, now, xs) => Learns(n, m, key, alive, now, xs, n')
  }

  ghost predicate Occurs(xs: seq<Item>, m: MsgId) {
    exists i :: 0 <= i < |xs| && xs[i].msgId == m
  }

  /** Each message is in one place: held, delivered once, or skipped once. */
  ghost predicate Tidy(n: Node) {
    && (forall m :: m in n.hold ==> n.hold[m].msgId == m && !Occurs(n.log, m) && !Occurs(n.skipped, m))
    && (forall i, j :: 0 <= i < j < |n.log| ==> n.log[i].msgId != n.log[j].msgId)
    && (forall i, j :: 0 <= i < j < |n.skipped| ==> n.skipped[i].msgId != n.skipped[j].msgId)
    && (forall i, j :: 0 <= i < |n.log| && 0 <= j < |n.skipped| ==> n.log[i].msgId != n.skipped[j].msgId)
  }

  /** `m` has been asked here: it is somewhere. */
  ghost predicate Seen(n: Node, m: MsgId) {
    m in n.hold || Occurs(n.log, m) || Occurs(n.skipped, m)
  }

  lemma OccursSnoc(xs: seq<Item>, x: Item, m: MsgId)
    ensures Occurs(xs + [x], m) <==> Occurs(xs, m) || x.msgId == m
  {
    var ys := xs + [x];
    if Occurs(xs, m) {
      var i :| 0 <= i < |xs| && xs[i].msgId == m;
      assert ys[i].msgId == m;
    }
    if x.msgId == m {
      assert ys[|xs|].msgId == m;
    }
  }

  lemma DeliverOneStaysTidy(n: Node, x: Item)
    requires Tidy(n) && x.msgId in n.hold
    ensures Tidy(DeliverOne(n, x)) && forall m :: Seen(DeliverOne(n, x), m) <==> Seen(n, m)
  {
    forall m
      ensures Occurs(n.log + [x], m) <==> Occurs(n.log, m) || x.msgId == m
    {
      OccursSnoc(n.log, x, m);
    }
  }

  lemma {:induction false} DeliverAllStaysTidy(n: Node, xs: seq<Item>)
    requires Tidy(n) && CanDeliver(n, xs)
    ensures Tidy(DeliverAll(n, xs)) && forall m :: Seen(DeliverAll(n, xs), m) <==> Seen(n, m)
  {
    if xs != [] {
      DeliverAllStaysTidy(n, xs[..|xs| - 1]);
      DeliverOneStaysTidy(DeliverAll(n, xs[..|xs| - 1]), xs[|xs| - 1]);
    }
  }

  lemma TimeoutStaysTidy(n: Node, u: Item, alive: set<NodeId>, now: int)
    requires Tidy(n) && IsHead(n.hold, u)
    ensures var n' := Timeout(n, u, alive, now); Tidy(n') && forall m :: Seen(n', m) <==> Seen(n, m)
  {
    forall m
      ensures Occurs(n.skipped + [u], m) <==> Occurs(n.skipped, m) || u.msgId == m
    {
      OccursSnoc(n.skipped, u, m);
    }
  }

  lemma RaiseStaysTidy(n: Node, m: MsgId, k: Key)
    requires Tidy(n)
    ensures var r := Raise(n, m, k); Tidy(r) && forall x :: Seen(r, x) <==> Seen(n, x)
  {
    hide MaxUint64;
    var r := Raise(n, m, k);
    assert r.hold.Keys == n.hold.Keys && r.log == n.log && r.skipped == n.skipped;
  }

  lemma LearnStaysTidy(n: Node, m: MsgId, k: Key, alive: set<NodeId>, now: int, xs: seq<Item>, n': Node)
    requires Tidy(n) && Learns(n, m, k, alive, now, xs, n')
    ensures Tidy(n') && forall x :: Seen(n', x) <==> Seen(n, x)
  {
    hide Tidy, Seen, Timeout, DeliverAll, CanDeliver, IsHead;
    var r := Raise(n, m, k);
    RaiseStaysTidy(n, m, k);
    if m in n.hold {
      DeliverAllStaysTidy(r, xs);
      var d := DeliverAll(r, xs);
      if d.hold != map[] {
        var u :| IsHead(d.hold, u) && !u.agreed && n' == Timeout(d, u, alive, now);
        TimeoutStaysTidy(d, u, alive, now);
      }
    }
  }

  lemma ReactStaysTidy(n: Node, e: Event, n': Node)
    requires Tidy(n) && Reacts(n, e, n') && (e.Asked? ==> !Seen(n, e.m))
    ensures Tidy(n') && forall x :: Seen(n', x) <==> Seen(n, x) || (e.Asked? && x == e.m)
  {
    match e
    case Asked(m, src, body) =>
    case Voted(vote, members) =>
    case Rechecked(published) =>
    case Announced(m, key, alive, now, xs) => LearnStaysTidy(n, m, key, alive, now, xs, n');
  }

  /** The states of a node through a sequence of events in which no ask is repeated. */
  ghost predicate IsRun(nodes: seq<Node>, events: seq<Event>) {
    && |nodes| == |events| + 1 && nodes[0] == Fresh
    && (forall i :: 0 <= i < |events| ==> Reacts(nodes[i], events[i], nodes[i + 1]))
    && (forall i, j :: 0 <= i < j < |events| && events[i].Asked? && events[j].Asked? ==> events[i].m != events[j].m)
  }

  ghost predicate AskedBefore(events: seq<Event>, i: nat, m: MsgId)
    requires i <= |events|
  {
    exists k :: 0 <= k < i && events[k].Asked? && events[k].m == m
  }

  /**
   At most once, in every run of a node: each message asked is, at every moment, either held, or delivered
   exactly once, or skipped exactly once, and nothing else is anywhere.
   */
  lemma {:induction false} AtMostOnce(nodes: seq<Node>, events: seq<Event>, i: nat)
    requires IsRun(nodes, events) && i <= |events|
    ensures Tidy(nodes[i]) && forall m :: Seen(nodes[i], m) <==> AskedBefore(events, i, m)
  {
    if i > 0 {
      AtMostOnce(nodes, events, i - 1);
      var e := events[i - 1];
      ReactStaysTidy(nodes[i - 1], e, nodes[i]);
      forall m
        ensures AskedBefore(events, i, m) <==> AskedBefore(events, i - 1, m) || (e.Asked? && m == e.m)
      {
        if e.Asked? && m == e.m {
          assert events[i - 1].m == m;
        }
      }
    }
  }

  // ---------- What becomes of votes ----------

  function Table(n: Node, m: MsgId): seq<Vote> {
    if m in n.waiting then n.waiting[m] else []
  }

  /** `e` brings the votes on `m` up to the member count it is checked against, so that `m` is announced. */
  ghost predicate Completes(n: Node, e: Event, m: MsgId) {
    || (e.Voted? && e.vote.msgId == m && |Table(n, m)| + 1 >= e.members)
    || (e.Rechecked? && m in n.waiting && |Table(n, m)| >= e.published)
  }

  /** The votes on `m` counted in `events`, in order. */
  function VotesOn(events: seq<Event>, m: MsgId): seq<Vote> {
    if events == [] then [] else
      var e := events[|events| - 1];
      VotesOn(events[..|events| - 1], m) + if e.Voted? && e.vote.msgId == m then [e.vote] else []
  }

  lemma ReactKeepsTable(n: Node, e: Event, n': Node, m: MsgId)
    requires Reacts(n, e, n')
    ensures if Completes(n, e, m) then m !in n'.waiting
            else Table(n', m) == Table(n, m) + if e.Voted? && e.vote.msgId == m then [e.vote] else []
  {
    if e.Announced? {
      LearnLeavesTables(n, e.m, e.key, e.alive, e.now, e.xs, n');
    }
  }

  lemma {:induction false} DeliverAllLeavesTables(n: Node, xs: seq<Item>)
    ensures DeliverAll(n, xs).waiting == n.waiting
  {
    if xs != [] {
      DeliverAllLeavesTables(n, xs[..|xs| - 1]);
    }
  }

  lemma LearnLeavesTables(n: Node, m: MsgId, k: Key, alive: set<NodeId>, now: int, xs: seq<Item>, n': Node)
    requires Learns(n, m, k, alive, now, xs, n')
    ensures n'.waiting == n.waiting
  {
    DeliverAllLeavesTables(Raise(n, m, k), xs);
  }

  /**
   No vote is lost: as long as no event completes the votes on `m`, its table holds what it held before and every
   vote on `m` counted since, in order, whatever else happens and however the member count changes.
   */
  lemma {:induction false} VotesAreKept(nodes: seq<Node>, events: seq<Event>, i: nat, j: nat, m: MsgId)
    requires IsRun(nodes, events) && i <= j <= |events|
    requires forall k :: i <= k < j ==> !Completes(nodes[k], events[k], m)
    ensures Table(nodes[j], m) == Table(nodes[i], m) + VotesOn(events[i..j], m)
  {
    hide Reacts, Completes, Table;
    if i < j {
      VotesAreKept(nodes, events, i, j - 1, m);
      ReactKeepsTable(nodes[j - 1], events[j - 1], nodes[j], m);
      assert events[i..j][..j - 1 - i] == events[i..j - 1];
    } else {
      assert events[i..j] == [];
    }
  }

  /** The table of a completed message is dropped, and only then. */
  lemma TablesAreDroppedIff(nodes: seq<Node>, events: seq<Event>, i: nat, m: MsgId)
    requires IsRun(nodes, events) && i < |events| && m in nodes[i].waiting
    ensures m !in nodes[i + 1].waiting <==> Completes(nodes[i], events[i], m)
  {
    if events[i].Announced? {
      var e := events[i];
      LearnLeavesTables(nodes[i], e.m, e.key, e.alive, e.now, e.xs, nodes[i + 1]);
    }
  }
}
