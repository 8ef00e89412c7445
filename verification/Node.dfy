/**
 One ordering node, on values: what handling an ask, a vote and an announcement does to the sequence
 counters, the pending messages and the vote tables. Heap layout is left out; a node delivers *a* least
 pending message while it is agreed.
 */
module Node {
  import opened Order
  import opened Heap
  import opened Votes
  import Ledger

  /** 6 seconds, in nanoseconds. */
  const NODE_CRASH_TIMEOUT := 6_000_000_000

  datatype Node = Node(
    maxAgreed: nat,
    maxProposed: nat,
    hold: map<MsgId, Item>,
    waiting: map<MsgId, seq<Vote>>,
    crashSeen: map<NodeId, int>,
    log: seq<Item>,
    skipped: seq<Item>)

  const Fresh: Node := Node(0, 0, map[], map[], map[], [], [])

  /** Handling an ask: the number proposed is the node's new `maxProposed`. */
  function Propose(n: Node, m: MsgId, src: NodeId, body: Ledger.Operation): Node {
    var q := Next(MaxUint64(n.maxAgreed, n.maxProposed));
    n.(maxProposed := q, hold := n.hold[m := Item(body, q, src, false, m)])
  }

  /** Handling a vote against a member count: the vote to announce, once there are enough. */
  function Collect(n: Node, v: Vote, members: nat): (Node, Option<Vote>) {
    var votes := (if v.msgId in n.waiting then n.waiting[v.msgId] else []) + [v];
    if |votes| < members then (n.(waiting := n.waiting[v.msgId := votes]), None)
    else (n.(waiting := n.waiting - {v.msgId}), Some(MaxVote(votes)))
  }

  /** A change of the member count: every table long enough for it is announced and dropped. */
  function Recheck(n: Node, members: int): Node {
    n.(waiting := map m | m in n.waiting && |n.waiting[m]| < members :: n.waiting[m])
  }

  function Rekeyed(x: Item, k: Key): Item {
    x.(agreed := true, procId := k.proposer, seqNum := k.seqNum)
  }

  /** Handling an announcement, before anything is delivered. */
  function Raise(n: Node, m: MsgId, k: Key): Node {
    var raised := n.(maxAgreed := MaxUint64(n.maxAgreed, k.seqNum));
    if m in n.hold then raised.(hold := n.hold[m := Rekeyed(n.hold[m], k)]) else raised
  }

  /** `x` is pending and no pending message is less. */
  ghost predicate IsHead(hold: map<MsgId, Item>, x: Item) {
    x.msgId in hold && hold[x.msgId] == x && forall m :: m in hold ==> ItemLeq(x, hold[m])
  }

  function DeliverOne(n: Node, x: Item): Node {
    n.(hold := n.hold - {x.msgId}, log := n.log + [x])
  }

  function DeliverAll(n: Node, xs: seq<Item>): Node {
    if xs == [] then n else DeliverOne(DeliverAll(n, xs[..|xs| - 1]), xs[|xs| - 1])
  }

  /** Each of `xs` in turn is agreed and a head of what is then pending. */
  ghost predicate CanDeliver(n: Node, xs: seq<Item>) {
    xs != [] ==>
      var front, last := xs[..|xs| - 1], xs[|xs| - 1];
      CanDeliver(n, front) && last.agreed && IsHead(DeliverAll(n, front).hold, last)
  }

  lemma DeliverAllSnoc(n: Node, xs: seq<Item>, x: Item)
    requires CanDeliver(n, xs) && x.agreed && IsHead(DeliverAll(n, xs).hold, x)
    ensures CanDeliver(n, xs + [x]) && DeliverAll(n, xs + [x]) == DeliverOne(DeliverAll(n, xs), x)
  {
    assert (xs + [x])[..|xs|] == xs;
  }

  /** What a node does about an unagreed head `u`: nothing unless its source is gone, then time it, then skip it. */
  function Timeout(n: Node, u: Item, alive: set<NodeId>, now: int): Node {
    if u.procId in alive then n
    else if u.procId !in n.crashSeen then n.(crashSeen := n.crashSeen[u.procId := now])
    else if now - n.crashSeen[u.procId] > NODE_CRASH_TIMEOUT then
      n.(hold := n.hold - {u.msgId}, skipped := n.skipped + [u])
    else n
  }

  ghost predicate Settles(n: Node, alive: set<NodeId>, now: int, n': Node) {
    if n.hold == map[] then n' == n
    else exists u :: IsHead(n.hold, u) && !u.agreed && n' == Timeout(n, u, alive, now)
  }

  /** Handling an announcement delivers `xs` and leaves `n'`; an unknown message only raises the counter. */
  ghost predicate Learns(n: Node, m: MsgId, k: Key, alive: set<NodeId>, now: int, xs: seq<Item>, n': Node) {
    if m !in n.hold then xs == [] && n' == Raise(n, m, k)
    else CanDeliver(Raise(n, m, k), xs) && Settles(DeliverAll(Raise(n, m, k), xs), alive, now, n')
  }

  lemma SettlesBehind(n: Node, u: Item, alive: set<NodeId>, now: int)
    requires IsHead(n.hold, u) && !u.agreed
    ensures Settles(n, alive, now, Timeout(n, u, alive, now))
  {
  }

  lemma DeliverNone(n: Node)
    ensures CanDeliver(n, []) && DeliverAll(n, []) == n
  {
  }
}
