/**
 The ISIS agreement protocol over N nodes, as a state machine. Delivery of asks and announcements is
 idealised here: each reaches each node at most once, in any order. `System` removes that idealisation.
 Votes are always counted against all N nodes, but a node may take any others for dead and skip their messages.
 */
module Isis {
  import opened Order
  import opened Heap
  import opened Votes
  import opened Node
  import Ledger

  datatype Ask = Ask(src: NodeId, body: Ledger.Operation)

  /** A node together with what has happened at it so far: its own proposals and the announcements it handled. */
  datatype Local = Local(node: Node, proposed: map<MsgId, nat>, heard: set<MsgId>)

  /** A vote on its way to the node that asked for it. */
  datatype Letter = Letter(dst: NodeId, vote: Vote)

  datatype State = State(
    members: set<NodeId>,
    asked: map<MsgId, Ask>,
    locals: map<NodeId, Local>,
    bag: multiset<Letter>,
    agreed: map<MsgId, Key>,
    handled: nat)

  // ---------- Steps ----------

  function Initial(members: set<NodeId>): State {
    State(members, map[], map n | n in members :: Local(Fresh, map[], {}), multiset{}, map[], 0)
  }

  /** `src` submits a message under a fresh id. */
  function DoAsk(s: State, m: MsgId, src: NodeId, body: Ledger.Operation): State {
    s.(asked := s.asked[m := Ask(src, body)])
  }

  function ProposeAt(l: Local, m: MsgId, src: NodeId, body: Ledger.Operation): Local {
    var node := Propose(l.node, m, src, body);
    Local(node, l.proposed[m := node.maxProposed], l.heard)
  }

  /** Node `n` handles the ask for `m`: proposes a number and sends it to the source. */
  function DoPropose(s: State, n: NodeId, m: MsgId, src: NodeId, body: Ledger.Operation): State
    requires n in s.locals
  {
    var l := ProposeAt(s.locals[n], m, src, body);
    s.(locals := s.locals[n := l],
       bag := s.bag + multiset{Letter(src, Vote(n, m, l.node.maxProposed))},
       handled := s.handled + 1)
  }

  /** A vote reaches the collector of node `l.dst`; with as many votes as members, the greatest is announced. */
  function DoTally(s: State, l: Letter): (State, Option<Vote>)
    requires l.dst in s.locals
  {
    var (node, best) := Collect(s.locals[l.dst].node, l.vote, |s.members|);
    (s.(locals := s.locals[l.dst := s.locals[l.dst].(node := node)],
        bag := s.bag - multiset{l},
        agreed := if best.Some? then s.agreed[best.value.msgId := VoteKey(best.value)] else s.agreed),
     best)
  }

  /** Node `n`, which takes `alive` to be the live nodes, handles an announcement that `m` has key `k`, delivering `xs`. */
  ghost predicate DoLearn(s: State, n: NodeId, m: MsgId, k: Key, alive: set<NodeId>, now: int, xs: seq<Item>, s': State)
    requires n in s.locals
  {
    exists node :: Learns(s.locals[n].node, m, k, alive, now, xs, node)
      && s' == s.(locals := s.locals[n := Local(node, s.locals[n].proposed, s.locals[n].heard + {m})])
  }

  datatype Action =
    | Submit(m: MsgId, src: NodeId, body: Ledger.Operation)
    | Handle(n: NodeId, m: MsgId)
    | Tally(letter: Letter)
    | Learn(n: NodeId, m: MsgId, alive: set<NodeId>, now: int, xs: seq<Item>)

  ghost predicate Next(s: State, a: Action, s': State) {
    match a
    case Submit(m, src, body) =>
      src in s.members && m !in s.asked && s' == DoAsk(s, m, src, body)
    case Handle(n, m) =>
      n in s.members && n in s.locals && m in s.asked && m !in s.locals[n].proposed
      && s' == DoPropose(s, n, m, s.asked[m].src, s.asked[m].body)
    case Tally(letter) =>
      letter in s.bag && letter.dst in s.locals && s' == DoTally(s, letter).0
    case Learn(n, m, alive, now, xs) =>
      n in s.members && n in s.locals && m in s.agreed && m !in s.locals[n].heard
      && DoLearn(s, n, m, s.agreed[m], alive, now, xs, s')
  }

  // ---------- Invariants of one node ----------

  /** The node's counters cover its proposals and stay within the number of asks handled anywhere. */
  ghost predicate NumbersOk(l: Local, handled: nat) {
    && l.node.maxAgreed <= handled && l.node.maxProposed <= handled
    && (forall m :: m in l.proposed ==> 1 <= l.proposed[m] <= l.node.maxProposed)
    && (forall m, m' :: m in l.proposed && m' in l.proposed && m != m' ==> l.proposed[m] != l.proposed[m'])
  }

  /** `x` is what a node may hold for `m`: its own proposal before it has heard the agreement, the agreed key after. */
  ghost predicate ItemOk(l: Local, asked: map<MsgId, Ask>, agreed: map<MsgId, Key>, m: MsgId, x: Item) {
    && x.msgId == m && m in l.proposed && m in asked && x.body == asked[m].body
    && (if m in l.heard then x.agreed && m in agreed && KeyOf(x) == agreed[m]
        else !x.agreed && x.seqNum == l.proposed[m] && x.procId == asked[m].src)
  }

  ghost predicate InLog(l: Local, m: MsgId) {
    exists i :: 0 <= i < |l.node.log| && l.node.log[i].msgId == m
  }

  ghost predicate IsSkipped(l: Local, m: MsgId) {
    exists i :: 0 <= i < |l.node.skipped| && l.node.skipped[i].msgId == m
  }

  ghost predicate HoldOk(l: Local, asked: map<MsgId, Ask>, agreed: map<MsgId, Key>) {
    && (forall m :: m in l.node.hold ==> ItemOk(l, asked, agreed, m, l.node.hold[m]))
    && (forall m :: m in l.proposed && m !in l.node.hold ==> InLog(l, m) || IsSkipped(l, m))
  }

  ghost predicate LogOk(l: Local, asked: map<MsgId, Ask>, agreed: map<MsgId, Key>) {
    && (forall i :: 0 <= i < |l.node.log| ==>
          var x := l.node.log[i];
          x.msgId in l.heard && x.msgId !in l.node.hold && ItemOk(l, asked, agreed, x.msgId, x))
    && (forall i, j :: 0 <= i < j < |l.node.log| ==> ItemLess(l.node.log[i], l.node.log[j]))
    && (forall i, m :: 0 <= i < |l.node.log| && m in l.node.hold ==> ItemLess(l.node.log[i], l.node.hold[m]))
  }

  ghost predicate HeardOk(l: Local, agreed: map<MsgId, Key>) {
    forall m :: m in l.heard ==> m in agreed && m in l.proposed && agreed[m].seqNum <= l.node.maxAgreed
  }

  /** No agreed message is at the head: each is behind another pending one. */
  ghost predicate Blocked(hold: map<MsgId, Item>) {
    forall m :: m in hold && hold[m].agreed ==> exists u :: u in hold && ItemLess(hold[u], hold[m])
  }

  /** What has been skipped is no longer held and has not been delivered. */
  ghost predicate SkippedOk(l: Local) {
    forall i :: 0 <= i < |l.node.skipped| ==>
      var m := l.node.skipped[i].msgId;
      m in l.proposed && m !in l.node.hold && forall j :: 0 <= j < |l.node.log| ==> l.node.log[j].msgId != m
  }

  /** Nothing has been timed or skipped, and the delivery loop has stopped where it must. */
  ghost predicate Undisturbed(l: Local) {
    l.node.crashSeen == map[] && l.node.skipped == [] && Blocked(l.node.hold)
  }

  /** Distinct agreed messages have distinct keys. */
  ghost predicate KeysDistinct(agreed: map<MsgId, Key>) {
    forall m, m' :: m in agreed && m' in agreed && m != m' ==> agreed[m] != agreed[m']
  }

  ghost predicate NodeOk(l: Local, asked: map<MsgId, Ask>, agreed: map<MsgId, Key>, handled: nat) {
    && NumbersOk(l, handled)
    && HoldOk(l, asked, agreed)
    && LogOk(l, asked, agreed)
    && HeardOk(l, agreed)
    && SkippedOk(l)
  }

  // ---------- Delivering keeps the node invariant ----------

  /** Two messages held by one node are never equal under `ItemLess`, so the head does not depend on heap layout. */
  lemma HeldItemsDiffer(l: Local, asked: map<MsgId, Ask>, agreed: map<MsgId, Key>, handled: nat, m: MsgId, m': MsgId)
    requires NumbersOk(l, handled) && HoldOk(l, asked, agreed) && KeysDistinct(agreed)
    requires m in l.node.hold && m' in l.node.hold && m != m'
    ensures ItemLess(l.node.hold[m], l.node.hold[m']) || ItemLess(l.node.hold[m'], l.node.hold[m])
  {
    var x, y := l.node.hold[m], l.node.hold[m'];
    assert ItemOk(l, asked, agreed, m, x) && ItemOk(l, asked, agreed, m', y);
    if x.seqNum == y.seqNum && x.agreed == y.agreed {
      assert x.agreed && KeyOf(x) != KeyOf(y);
      StringLessTotal(x.procId, y.procId);
    }
  }

  lemma DeliverOneKeepsHoldOk(l: Local, asked: map<MsgId, Ask>, agreed: map<MsgId, Key>, x: Item)
    requires HoldOk(l, asked, agreed) && IsHead(l.node.hold, x)
    ensures HoldOk(l.(node := DeliverOne(l.node, x)), asked, agreed)
  {
    var l' := l.(node := DeliverOne(l.node, x));
    var log := l.node.log;
    forall m | m in l'.node.hold
      ensures ItemOk(l', asked, agreed, m, l'.node.hold[m])
    {
      assert ItemOk(l, asked, agreed, m, l.node.hold[m]);
    }
    forall m | m in l'.proposed && m !in l'.node.hold
      ensures InLog(l', m) || IsSkipped(l', m)
    {
      if m == x.msgId {
        assert l'.node.log[|log|].msgId == m;
      } else if InLog(l, m) {
        var i :| 0 <= i < |log| && log[i].msgId == m;
        assert l'.node.log[i].msgId == m;
      } else {
        assert IsSkipped(l, m);
      }
    }
  }

  /** The head precedes whatever stays pending. */
  lemma HeadPrecedesRest(l: Local, asked: map<MsgId, Ask>, agreed: map<MsgId, Key>, handled: nat, x: Item, m: MsgId)
    requires NumbersOk(l, handled) && HoldOk(l, asked, agreed) && KeysDistinct(agreed)
    requires IsHead(l.node.hold, x) && m in l.node.hold && m != x.msgId
    ensures ItemLess(x, l.node.hold[m])
  {
    HeldItemsDiffer(l, asked, agreed, handled, m, x.msgId);
    assert ItemLeq(x, l.node.hold[m]);
  }

  lemma DeliverOneKeepsLogOk(l: Local, asked: map<MsgId, Ask>, agreed: map<MsgId, Key>, handled: nat, x: Item)
    requires NumbersOk(l, handled) && HoldOk(l, asked, agreed) && LogOk(l, asked, agreed) && KeysDistinct(agreed)
    requires IsHead(l.node.hold, x) && x.agreed
    ensures LogOk(l.(node := DeliverOne(l.node, x)), asked, agreed)
  {
    var l' := l.(node := DeliverOne(l.node, x));
    var log, log' := l.node.log, l'.node.log;
    assert ItemOk(l, asked, agreed, x.msgId, x);
    forall i | 0 <= i < |log'|
      ensures var y := log'[i]; y.msgId in l.heard && y.msgId !in l'.node.hold && ItemOk(l', asked, agreed, y.msgId, y)
    {
      if i < |log| {
        assert ItemOk(l, asked, agreed, log[i].msgId, log[i]);
      }
    }
    forall i, m | 0 <= i < |log'| && m in l'.node.hold
      ensures ItemLess(log'[i], l'.node.hold[m])
    {
      if i == |log| {
        HeadPrecedesRest(l, asked, agreed, handled, x, m);
      }
    }
  }

  lemma DeliverOneKeepsSkippedOk(l: Local, x: Item)
    requires SkippedOk(l) && IsHead(l.node.hold, x)
    ensures SkippedOk(l.(node := DeliverOne(l.node, x)))
  {
  }

  lemma DeliverOneKeepsNodeOk(l: Local, asked: map<MsgId, Ask>, agreed: map<MsgId, Key>, handled: nat, x: Item)
    requires NodeOk(l, asked, agreed, handled) && KeysDistinct(agreed)
    requires IsHead(l.node.hold, x) && x.agreed
    ensures NodeOk(l.(node := DeliverOne(l.node, x)), asked, agreed, handled)
  {
    hide HoldOk, LogOk, SkippedOk, KeysDistinct, IsHead;
    DeliverOneKeepsHoldOk(l, asked, agreed, x);
    DeliverOneKeepsLogOk(l, asked, agreed, handled, x);
    DeliverOneKeepsSkippedOk(l, x);
  }

  lemma {:induction false} DeliverAllKeepsNodeOk(l: Local, asked: map<MsgId, Ask>, agreed: map<MsgId, Key>, handled: nat, xs: seq<Item>)
    requires NodeOk(l, asked, agreed, handled) && KeysDistinct(agreed) && CanDeliver(l.node, xs)
    ensures NodeOk(l.(node := DeliverAll(l.node, xs)), asked, agreed, handled)
  {
    if xs != [] {
      var front := xs[..|xs| - 1];
      DeliverAllKeepsNodeOk(l, asked, agreed, handled, front);
      DeliverOneKeepsNodeOk(l.(node := DeliverAll(l.node, front)), asked, agreed, handled, xs[|xs| - 1]);
    }
  }

  /** A head that is not agreed blocks every agreed message. */
  lemma UnagreedHeadBlocks(hold: map<MsgId, Item>, u: Item)
    requires IsHead(hold, u) && !u.agreed
    ensures Blocked(hold)
  {
    forall m | m in hold && hold[m].agreed
      ensures ItemLess(hold[u.msgId], hold[m])
    {
      assert ItemLeq(u, hold[m]);
    }
  }

  // ---------- Each step keeps the node invariant ----------

  lemma ProposeKeepsHoldOk(l: Local, asked: map<MsgId, Ask>, agreed: map<MsgId, Key>, m: MsgId)
    requires HoldOk(l, asked, agreed) && HeardOk(l, agreed) && m in asked && m !in l.proposed
    ensures HoldOk(ProposeAt(l, m, asked[m].src, asked[m].body), asked, agreed)
  {
    var l' := ProposeAt(l, m, asked[m].src, asked[m].body);
    forall k | k in l'.node.hold
      ensures ItemOk(l', asked, agreed, k, l'.node.hold[k])
    {
      assert k != m ==> ItemOk(l, asked, agreed, k, l.node.hold[k]);
    }
    assert forall k :: (InLog(l', k) <==> InLog(l, k)) && (IsSkipped(l', k) <==> IsSkipped(l, k));
  }

  lemma ProposeKeepsLogOk(l: Local, asked: map<MsgId, Ask>, agreed: map<MsgId, Key>, handled: nat, m: MsgId)
    requires LogOk(l, asked, agreed) && HeardOk(l, agreed) && m in asked && m !in l.proposed
    requires NumbersOk(l, handled) && handled + 1 < UINT64_SPAN
    ensures LogOk(ProposeAt(l, m, asked[m].src, asked[m].body), asked, agreed)
  {
    var l' := ProposeAt(l, m, asked[m].src, asked[m].body);
    var log := l.node.log;
    forall i | 0 <= i < |log|
      ensures log[i].msgId != m && ItemOk(l', asked, agreed, log[i].msgId, log[i])
      ensures log[i].seqNum < l'.node.hold[m].seqNum
    {
      assert ItemOk(l, asked, agreed, log[i].msgId, log[i]);
    }
  }

  lemma ProposeKeepsNumbersOk(l: Local, agreed: map<MsgId, Key>, handled: nat, m: MsgId, src: NodeId, body: Ledger.Operation)
    requires NumbersOk(l, handled) && HeardOk(l, agreed) && SkippedOk(l) && m !in l.proposed && handled + 1 < UINT64_SPAN
    ensures var l' := ProposeAt(l, m, src, body); NumbersOk(l', handled + 1) && HeardOk(l', agreed) && SkippedOk(l')
  {
    hide Next, ProposeAt, Propose;
    ProposeNumber(l, m, src, body);
  }

  /** Below the bound the number proposed is one above both counters. */
  lemma ProposeNumber(l: Local, m: MsgId, src: NodeId, body: Ledger.Operation)
    requires l.node.maxAgreed + 1 < UINT64_SPAN && l.node.maxProposed + 1 < UINT64_SPAN
    ensures var l', q := ProposeAt(l, m, src, body), MaxUint64(l.node.maxAgreed, l.node.maxProposed) + 1;
            && l'.node == l.node.(maxProposed := q, hold := l'.node.hold) && l'.node.hold.Keys == l.node.hold.Keys + {m}
            && l'.heard == l.heard && l'.proposed == l.proposed[m := q]
  {
  }

  /** The number proposed is new and above everything the node has seen; nothing wraps below the bound. */
  lemma ProposeKeepsNodeOk(l: Local, asked: map<MsgId, Ask>, agreed: map<MsgId, Key>, handled: nat, m: MsgId)
    requires NodeOk(l, asked, agreed, handled) && m in asked && m !in l.proposed && handled + 1 < UINT64_SPAN
    ensures NodeOk(ProposeAt(l, m, asked[m].src, asked[m].body), asked, agreed, handled + 1)
  {
    hide HoldOk, LogOk, NumbersOk, HeardOk, SkippedOk, ProposeAt;
    ProposeKeepsNumbersOk(l, agreed, handled, m, asked[m].src, asked[m].body);
    ProposeKeepsHoldOk(l, asked, agreed, m);
    ProposeKeepsLogOk(l, asked, agreed, handled, m);
  }

  lemma ProposeKeepsBlocked(l: Local, asked: map<MsgId, Ask>, agreed: map<MsgId, Key>, handled: nat, m: MsgId, src: NodeId, body: Ledger.Operation)
    requires Blocked(l.node.hold) && NodeOk(l, asked, agreed, handled) && m !in l.proposed
    ensures Blocked(ProposeAt(l, m, src, body).node.hold)
  {
    var hold, hold' := l.node.hold, ProposeAt(l, m, src, body).node.hold;
    forall k | k in hold' && hold'[k].agreed
      ensures exists u :: u in hold' && ItemLess(hold'[u], hold'[k])
    {
      var u :| u in hold && ItemLess(hold[u], hold[k]);
      assert ItemOk(l, asked, agreed, u, hold[u]);
      assert u in hold' && hold'[u] == hold[u];
    }
  }

  /** The node right after an announcement has been recorded and before anything is delivered. */
  function RaiseAt(l: Local, m: MsgId, k: Key): Local {
    Local(Raise(l.node, m, k), l.proposed, l.heard + {m})
  }

  /**
   An announcement never overtakes its ask: unless it has been skipped, the message is pending, not yet
   agreed, and agreement only raises it, so the queue never has to move it forward.
   */
  lemma AgreementRaises(l: Local, asked: map<MsgId, Ask>, agreed: map<MsgId, Key>, m: MsgId)
    requires HoldOk(l, asked, agreed) && LogOk(l, asked, agreed)
    requires m in agreed && m in l.proposed && m !in l.heard && l.proposed[m] <= agreed[m].seqNum
    ensures m in l.node.hold || IsSkipped(l, m)
    ensures m in l.node.hold ==> !l.node.hold[m].agreed && ItemLess(l.node.hold[m], Rekeyed(l.node.hold[m], agreed[m]))
  {
    assert !InLog(l, m);
    if m in l.node.hold {
      assert ItemOk(l, asked, agreed, m, l.node.hold[m]);
    }
  }

  lemma RaiseKeepsHoldOk(l: Local, asked: map<MsgId, Ask>, agreed: map<MsgId, Key>, m: MsgId)
    requires HoldOk(l, asked, agreed) && LogOk(l, asked, agreed)
    requires m in agreed && m in l.proposed && m !in l.heard && l.proposed[m] <= agreed[m].seqNum
    ensures HoldOk(RaiseAt(l, m, agreed[m]), asked, agreed)
  {
    var l' := RaiseAt(l, m, agreed[m]);
    AgreementRaises(l, asked, agreed, m);
    forall k | k in l'.node.hold
      ensures ItemOk(l', asked, agreed, k, l'.node.hold[k])
    {
      assert ItemOk(l, asked, agreed, k, l.node.hold[k]);
    }
    assert forall k :: (InLog(l', k) <==> InLog(l, k)) && (IsSkipped(l', k) <==> IsSkipped(l, k));
  }

  lemma ItemLessTransitive(x: Item, y: Item, z: Item)
    requires ItemLess(x, y) && ItemLess(y, z)
    ensures ItemLess(x, z)
  {
    if x.seqNum == y.seqNum == z.seqNum && x.agreed == y.agreed == z.agreed {
      StringLessTransitive(x.procId, y.procId, z.procId);
    }
  }

  lemma RaiseKeepsLogOk(l: Local, asked: map<MsgId, Ask>, agreed: map<MsgId, Key>, m: MsgId)
    requires HoldOk(l, asked, agreed) && LogOk(l, asked, agreed)
    requires m in agreed && m in l.proposed && m !in l.heard && l.proposed[m] <= agreed[m].seqNum
    ensures LogOk(RaiseAt(l, m, agreed[m]), asked, agreed)
  {
    var l' := RaiseAt(l, m, agreed[m]);
    var log := l.node.log;
    AgreementRaises(l, asked, agreed, m);
    forall i | 0 <= i < |log|
      ensures ItemOk(l', asked, agreed, log[i].msgId, log[i]) && (m in l.node.hold ==> ItemLess(log[i], l'.node.hold[m]))
    {
      assert ItemOk(l, asked, agreed, log[i].msgId, log[i]);
      if m in l.node.hold {
        ItemLessTransitive(log[i], l.node.hold[m], l'.node.hold[m]);
      }
    }
  }

  lemma RaiseKeepsNodeOk(l: Local, asked: map<MsgId, Ask>, agreed: map<MsgId, Key>, handled: nat, m: MsgId)
    requires NodeOk(l, asked, agreed, handled)
    requires m in agreed && m in l.proposed && m !in l.heard && l.proposed[m] <= agreed[m].seqNum <= handled
    ensures NodeOk(RaiseAt(l, m, agreed[m]), asked, agreed, handled)
  {
    RaiseKeepsHoldOk(l, asked, agreed, m);
    RaiseKeepsLogOk(l, asked, agreed, m);
  }

  lemma TimeoutKeepsHoldOk(l: Local, asked: map<MsgId, Ask>, agreed: map<MsgId, Key>, u: Item, alive: set<NodeId>, now: int)
    requires HoldOk(l, asked, agreed)
    ensures HoldOk(l.(node := Timeout(l.node, u, alive, now)), asked, agreed)
  {
    var l' := l.(node := Timeout(l.node, u, alive, now));
    var skipped := l.node.skipped;
    forall m | m in l'.node.hold
      ensures ItemOk(l', asked, agreed, m, l'.node.hold[m])
    {
      assert ItemOk(l, asked, agreed, m, l.node.hold[m]);
    }
    assert forall m :: InLog(l', m) <==> InLog(l, m);
    forall m | m in l'.proposed && m !in l'.node.hold && !InLog(l', m)
      ensures IsSkipped(l', m)
    {
      if m in l.node.hold {
        assert l'.node.skipped[|skipped|].msgId == m;
      } else {
        var i :| 0 <= i < |skipped| && skipped[i].msgId == m;
        assert l'.node.skipped[i].msgId == m;
      }
    }
  }

  lemma TimeoutKeepsLogOk(l: Local, asked: map<MsgId, Ask>, agreed: map<MsgId, Key>, u: Item, alive: set<NodeId>, now: int)
    requires LogOk(l, asked, agreed)
    ensures LogOk(l.(node := Timeout(l.node, u, alive, now)), asked, agreed)
  {
    var l' := l.(node := Timeout(l.node, u, alive, now));
    forall i | 0 <= i < |l.node.log|
      ensures ItemOk(l', asked, agreed, l.node.log[i].msgId, l.node.log[i])
    {
      assert ItemOk(l, asked, agreed, l.node.log[i].msgId, l.node.log[i]);
    }
  }

  /** Timing or skipping an unagreed head. */
  lemma TimeoutKeepsNodeOk(l: Local, asked: map<MsgId, Ask>, agreed: map<MsgId, Key>, handled: nat,
                           u: Item, alive: set<NodeId>, now: int)
    requires NodeOk(l, asked, agreed, handled) && IsHead(l.node.hold, u) && !u.agreed
    ensures NodeOk(l.(node := Timeout(l.node, u, alive, now)), asked, agreed, handled)
  {
    hide HoldOk, LogOk, SkippedOk, IsHead;
    TimeoutKeepsHoldOk(l, asked, agreed, u, alive, now);
    TimeoutKeepsLogOk(l, asked, agreed, u, alive, now);
    TimeoutKeepsSkippedOk(l, asked, agreed, u, alive, now);
  }

  lemma TimeoutKeepsSkippedOk(l: Local, asked: map<MsgId, Ask>, agreed: map<MsgId, Key>, u: Item, alive: set<NodeId>, now: int)
    requires HoldOk(l, asked, agreed) && LogOk(l, asked, agreed) && SkippedOk(l) && IsHead(l.node.hold, u)
    ensures SkippedOk(l.(node := Timeout(l.node, u, alive, now)))
  {
    assert ItemOk(l, asked, agreed, u.msgId, u);
  }

  lemma TimeoutLeaves(n: Node, u: Item, alive: set<NodeId>, now: int)
    ensures var n' := Timeout(n, u, alive, now); n'.waiting == n.waiting && n'.log == n.log
  {
  }

  /** Handling an announcement: deliver, then time or skip an unagreed head. */
  lemma LearnKeepsNodeOk(l: Local, asked: map<MsgId, Ask>, agreed: map<MsgId, Key>, handled: nat, m: MsgId,
                         alive: set<NodeId>, now: int, xs: seq<Item>, node: Node)
    requires NodeOk(l, asked, agreed, handled) && KeysDistinct(agreed)
    requires m in agreed && m in l.proposed && m !in l.heard && l.proposed[m] <= agreed[m].seqNum <= handled
    requires Learns(l.node, m, agreed[m], alive, now, xs, node)
    ensures NodeOk(Local(node, l.proposed, l.heard + {m}), asked, agreed, handled)
    ensures node.waiting == l.node.waiting && node.log == l.node.log + xs
  {
    hide NodeOk, KeysDistinct, Timeout;
    var l1 := RaiseAt(l, m, agreed[m]);
    RaiseKeepsNodeOk(l, asked, agreed, handled, m);
    DeliverAllKeepsWaiting(l1.node, xs);
    if m in l.node.hold {
      DeliverAllKeepsNodeOk(l1, asked, agreed, handled, xs);
      var l2 := l1.(node := DeliverAll(l1.node, xs));
      if l2.node.hold != map[] {
        var u :| IsHead(l2.node.hold, u) && !u.agreed && node == Timeout(l2.node, u, alive, now);
        TimeoutKeepsNodeOk(l2, asked, agreed, handled, u, alive, now);
        TimeoutLeaves(l2.node, u, alive, now);
      }
    }
  }

  /** With every source alive nothing is timed or skipped, and the node waits behind an unagreed head. */
  lemma LearnStaysUndisturbed(l: Local, asked: map<MsgId, Ask>, agreed: map<MsgId, Key>, handled: nat, m: MsgId,
                              alive: set<NodeId>, now: int, xs: seq<Item>, node: Node)
    requires NodeOk(l, asked, agreed, handled) && KeysDistinct(agreed) && Undisturbed(l)
    requires m in agreed && m in l.proposed && m !in l.heard && l.proposed[m] <= agreed[m].seqNum <= handled
    requires forall k :: k in asked ==> asked[k].src in alive
    requires Learns(l.node, m, agreed[m], alive, now, xs, node)
    ensures Undisturbed(Local(node, l.proposed, l.heard + {m}))
  {
    hide KeysDistinct, Blocked;
    AgreementRaises(l, asked, agreed, m);
    var l1 := RaiseAt(l, m, agreed[m]);
    RaiseKeepsNodeOk(l, asked, agreed, handled, m);
    DeliverAllKeepsNodeOk(l1, asked, agreed, handled, xs);
    DeliverAllKeepsWaiting(l1.node, xs);
    var l2 := l1.(node := DeliverAll(l1.node, xs));
    if l2.node.hold != map[] {
      var u :| IsHead(l2.node.hold, u) && !u.agreed && node == Timeout(l2.node, u, alive, now);
      assert ItemOk(l2, asked, agreed, u.msgId, u);
      UnagreedHeadBlocks(l2.node.hold, u);
    } else {
      NothingBlocks();
    }
  }

  lemma NothingBlocks()
    ensures Blocked(map[])
  {
  }

  /** A message nobody has handled yet changes nothing when it is asked or agreed. */
  lemma NodeOkGrows(l: Local, asked: map<MsgId, Ask>, asked': map<MsgId, Ask>, agreed: map<MsgId, Key>, agreed': map<MsgId, Key>, handled: nat, handled': nat)
    requires NodeOk(l, asked, agreed, handled) && handled <= handled'
    requires forall m :: m in asked ==> m in asked' && asked'[m] == asked[m]
    requires forall m :: m in l.heard && m in agreed ==> m in agreed' && agreed'[m] == agreed[m]
    ensures NodeOk(l, asked', agreed', handled')
  {
    forall m | m in l.node.hold
      ensures ItemOk(l, asked', agreed', m, l.node.hold[m])
    {
      assert ItemOk(l, asked, agreed, m, l.node.hold[m]);
    }
    forall i | 0 <= i < |l.node.log|
      ensures ItemOk(l, asked', agreed', l.node.log[i].msgId, l.node.log[i])
    {
      assert ItemOk(l, asked, agreed, l.node.log[i].msgId, l.node.log[i]);
    }
  }

  // ---------- Invariants of the group ----------

  ghost predicate Shape(s: State) {
    && s.locals.Keys == s.members
    && (forall m :: m in s.asked ==> s.asked[m].src in s.members)
    && (forall n, m :: n in s.members && m in s.locals[n].proposed ==> m in s.asked)
    && (forall m :: m in s.agreed ==> m in s.asked)
  }

  ghost predicate NodeSettled(s: State, n: NodeId)
    requires n in s.locals
  {
    NodeOk(s.locals[n], s.asked, s.agreed, s.handled)
  }

  ghost predicate NodesOk(s: State)
    requires Shape(s)
  {
    forall n :: n in s.members ==> NodeSettled(s, n)
  }

  /** An agreed key is the greatest proposal: every member has proposed, none above it, and one exactly it. */
  ghost predicate IsQuorumKey(s: State, m: MsgId, k: Key)
    requires Shape(s)
  {
    && (forall n :: n in s.members ==> m in s.locals[n].proposed && KeyLeq(Key(s.locals[n].proposed[m], n), k))
    && k.proposer in s.members && m in s.locals[k.proposer].proposed && s.locals[k.proposer].proposed[m] == k.seqNum
  }

  ghost predicate AgreedOk(s: State)
    requires Shape(s)
  {
    forall m :: m in s.agreed ==> IsQuorumKey(s, m, s.agreed[m])
  }

  /** `v` reports a proposal that was made. */
  ghost predicate VoteOk(s: State, v: Vote)
    requires Shape(s)
  {
    && v.voter in s.members && v.msgId in s.asked
    && v.msgId in s.locals[v.voter].proposed && s.locals[v.voter].proposed[v.msgId] == v.seqNum
  }

  ghost predicate Tallied(s: State, n: NodeId, v: Vote)
    requires n in s.locals
  {
    v.msgId in s.locals[n].node.waiting && v in s.locals[n].node.waiting[v.msgId]
  }

  /** A vote under way is genuine, addressed to the asker, there once, and not counted yet. */
  ghost predicate LetterOk(s: State, l: Letter)
    requires Shape(s)
  {
    && VoteOk(s, l.vote) && s.bag[l] == 1 && l.vote.msgId !in s.agreed
    && l.dst == s.asked[l.vote.msgId].src && !Tallied(s, l.dst, l.vote)
  }

  ghost predicate BagOk(s: State)
    requires Shape(s)
  {
    forall l :: l in s.bag ==> LetterOk(s, l)
  }

  /** A vote table belongs to its message's source, holds distinct voters and is short of the member count. */
  ghost predicate TableOk(s: State, n: NodeId, m: MsgId, votes: seq<Vote>)
    requires Shape(s)
  {
    && m in s.asked && s.asked[m].src == n && m !in s.agreed
    && 1 <= |votes| < |s.members| && DistinctVoters(votes)
    && forall i :: 0 <= i < |votes| ==> votes[i].msgId == m && VoteOk(s, votes[i])
  }

  ghost predicate TablesOk(s: State)
    requires Shape(s)
  {
    forall n, m :: n in s.members && m in s.locals[n].node.waiting ==> TableOk(s, n, m, s.locals[n].node.waiting[m])
  }

  /** The vote node `n` cast for `m`. */
  function CastVote(s: State, n: NodeId, m: MsgId): Vote
    requires n in s.locals && m in s.locals[n].proposed
  {
    Vote(n, m, s.locals[n].proposed[m])
  }

  /** Every vote cast is under way, counted, or behind an announcement. */
  ghost predicate NoVoteLost(s: State)
    requires Shape(s)
  {
    forall n, m :: n in s.members && m in s.locals[n].proposed && m !in s.agreed ==>
      var v := CastVote(s, n, m);
      Letter(s.asked[m].src, v) in s.bag || Tallied(s, s.asked[m].src, v)
  }

  ghost predicate Inv(s: State) {
    Shape(s) && NodesOk(s) && AgreedOk(s) && BagOk(s) && TablesOk(s) && NoVoteLost(s)
  }

  /** Agreed (sequence number, proposer) pairs are distinct: a proposer never uses a number twice. */
  lemma AgreedKeysDistinct(s: State)
    requires Shape(s) && NodesOk(s) && AgreedOk(s)
    ensures KeysDistinct(s.agreed)
  {
    forall m, m' | m in s.agreed && m' in s.agreed && m != m'
      ensures s.agreed[m] != s.agreed[m']
    {
      assert IsQuorumKey(s, m, s.agreed[m]) && IsQuorumKey(s, m', s.agreed[m']);
      assert NodeSettled(s, s.agreed[m].proposer);
    }
  }

  lemma InitialInv(members: set<NodeId>)
    ensures Inv(Initial(members))
  {
  }

  // ---------- What no step undoes ----------

  /** Asks and proposals are only ever added. */
  ghost predicate Grows(s: State, s': State) {
    && Shape(s) && Shape(s') && s'.members == s.members
    && (forall m :: m in s.asked ==> m in s'.asked && s'.asked[m] == s.asked[m])
    && (forall n, m :: n in s.members && m in s.locals[n].proposed ==>
          m in s'.locals[n].proposed && s'.locals[n].proposed[m] == s.locals[n].proposed[m])
  }

  lemma GrownShape(s: State, s': State)
    requires Grows(s, s')
    ensures Shape(s) && Shape(s')
  {
  }

  lemma QuorumKeyStays(s: State, s': State, m: MsgId, k: Key)
    requires Grows(s, s') && IsQuorumKey(s, m, k)
    ensures IsQuorumKey(s', m, k)
  {
  }

  lemma VoteStays(s: State, s': State, v: Vote)
    requires Grows(s, s') && VoteOk(s, v)
    ensures VoteOk(s', v)
  {
  }

  lemma TableStays(s: State, s': State, n: NodeId, m: MsgId, votes: seq<Vote>)
    requires Grows(s, s') && TableOk(s, n, m, votes) && m !in s'.agreed
    ensures TableOk(s', n, m, votes)
  {
    forall i | 0 <= i < |votes|
      ensures VoteOk(s', votes[i])
    {
      VoteStays(s, s', votes[i]);
    }
  }

  lemma LetterStays(s: State, s': State, l: Letter)
    requires Grows(s, s') && LetterOk(s, l)
    requires s'.bag[l] == 1 && l.vote.msgId !in s'.agreed && !Tallied(s', l.dst, l.vote)
    ensures LetterOk(s', l)
  {
    VoteStays(s, s', l.vote);
  }

  // ---------- Submit ----------

  lemma SubmitGrows(s: State, m: MsgId, src: NodeId, body: Ledger.Operation)
    requires Shape(s) && src in s.members && m !in s.asked
    ensures Grows(s, DoAsk(s, m, src, body))
  {
  }

  lemma SubmitKeepsNodesOk(s: State, m: MsgId, src: NodeId, body: Ledger.Operation)
    requires Shape(s) && NodesOk(s) && AgreedOk(s) && src in s.members && m !in s.asked
    ensures var s' := DoAsk(s, m, src, body); Shape(s') && NodesOk(s') && AgreedOk(s')
  {
    var s' := DoAsk(s, m, src, body);
    SubmitGrows(s, m, src, body);
    hide NodeOk, IsQuorumKey, Grows;
    forall n | n in s.members
      ensures NodeSettled(s', n)
    {
      NodeOkGrows(s.locals[n], s.asked, s'.asked, s.agreed, s'.agreed, s.handled, s'.handled);
    }
    forall k | k in s'.agreed
      ensures IsQuorumKey(s', k, s'.agreed[k])
    {
      QuorumKeyStays(s, s', k, s.agreed[k]);
    }
  }

  lemma SubmitKeepsBagOk(s: State, m: MsgId, src: NodeId, body: Ledger.Operation)
    requires Shape(s) && BagOk(s) && src in s.members && m !in s.asked
    ensures var s' := DoAsk(s, m, src, body); Shape(s') && BagOk(s')
  {
    var s' := DoAsk(s, m, src, body);
    SubmitGrows(s, m, src, body);
    hide Grows, VoteOk;
    forall l | l in s'.bag
      ensures LetterOk(s', l)
    {
      assert LetterOk(s, l);
      LetterStays(s, s', l);
    }
  }

  lemma SubmitKeepsTablesOk(s: State, m: MsgId, src: NodeId, body: Ledger.Operation)
    requires Shape(s) && TablesOk(s) && NoVoteLost(s) && src in s.members && m !in s.asked
    ensures var s' := DoAsk(s, m, src, body); Shape(s') && TablesOk(s') && NoVoteLost(s')
  {
    var s' := DoAsk(s, m, src, body);
    SubmitGrows(s, m, src, body);
    hide Grows, TableOk;
    forall n, k | n in s.members && k in s'.locals[n].node.waiting
      ensures TableOk(s', n, k, s'.locals[n].node.waiting[k])
    {
      TableStays(s, s', n, k, s.locals[n].node.waiting[k]);
    }
  }

  // ---------- Handle an ask ----------

  ghost predicate CanHandle(s: State, n: NodeId, m: MsgId) {
    Shape(s) && n in s.members && m in s.asked && m !in s.locals[n].proposed
  }

  function Handled(s: State, n: NodeId, m: MsgId): State
    requires n in s.locals && m in s.asked
  {
    DoPropose(s, n, m, s.asked[m].src, s.asked[m].body)
  }

  lemma HandleGrows(s: State, n: NodeId, m: MsgId)
    requires CanHandle(s, n, m)
    ensures Grows(s, Handled(s, n, m))
  {
  }

  lemma HandleKeepsNode(s: State, n: NodeId, m: MsgId, k: NodeId)
    requires CanHandle(s, n, m) && k in s.members && NodeSettled(s, k) && s.handled + 1 < UINT64_SPAN
    ensures NodeSettled(Handled(s, n, m), k)
  {
    hide NodeOk;
    if k == n {
      ProposeKeepsNodeOk(s.locals[n], s.asked, s.agreed, s.handled, m);
    } else {
      NodeOkGrows(s.locals[k], s.asked, s.asked, s.agreed, s.agreed, s.handled, s.handled + 1);
    }
  }

  lemma HandleKeepsNodesOk(s: State, n: NodeId, m: MsgId)
    requires CanHandle(s, n, m) && NodesOk(s) && s.handled + 1 < UINT64_SPAN
    ensures Shape(Handled(s, n, m)) && NodesOk(Handled(s, n, m))
  {
    HandleGrows(s, n, m);
    hide Grows, NodeSettled;
    forall k | k in s.members
      ensures NodeSettled(Handled(s, n, m), k)
    {
      HandleKeepsNode(s, n, m, k);
    }
  }

  lemma HandleKeepsAgreedOk(s: State, n: NodeId, m: MsgId)
    requires CanHandle(s, n, m) && AgreedOk(s)
    ensures Shape(Handled(s, n, m)) && AgreedOk(Handled(s, n, m))
  {
    var s' := Handled(s, n, m);
    HandleGrows(s, n, m);
    forall k | k in s'.agreed
      ensures IsQuorumKey(s', k, s'.agreed[k])
    {
      QuorumKeyStays(s, s', k, s.agreed[k]);
    }
  }

  /** The vote a node is about to cast is nowhere yet, and its message is not agreed. */
  lemma NewVoteIsNew(s: State, n: NodeId, m: MsgId, v: Vote)
    requires CanHandle(s, n, m) && AgreedOk(s) && BagOk(s) && TablesOk(s) && v.voter == n && v.msgId == m
    ensures m !in s.agreed && !Tallied(s, s.asked[m].src, v) && Letter(s.asked[m].src, v) !in s.bag
  {
    var src := s.asked[m].src;
    assert !VoteOk(s, v);
    assert Letter(src, v) in s.bag ==> LetterOk(s, Letter(src, v));
    assert m in s.agreed ==> IsQuorumKey(s, m, s.agreed[m]);
    assert m in s.locals[src].node.waiting ==> TableOk(s, src, m, s.locals[src].node.waiting[m]);
  }

  lemma HandleKeepsBagOk(s: State, n: NodeId, m: MsgId)
    requires CanHandle(s, n, m) && AgreedOk(s) && BagOk(s) && TablesOk(s)
    ensures Shape(Handled(s, n, m)) && BagOk(Handled(s, n, m))
  {
    var s' := Handled(s, n, m);
    HandleGrows(s, n, m);
    var letter := Letter(s.asked[m].src, CastVote(s', n, m));
    NewVoteIsNew(s, n, m, letter.vote);
    hide Grows, VoteOk, AgreedOk, TablesOk;
    forall l | l in s'.bag
      ensures LetterOk(s', l)
    {
      if l == letter {
        assert VoteOk(s', l.vote) by { NewVoteIsGenuine(s, n, m); }
      } else {
        assert LetterOk(s, l);
        LetterStays(s, s', l);
      }
    }
  }

  lemma NewVoteIsGenuine(s: State, n: NodeId, m: MsgId)
    requires CanHandle(s, n, m)
    ensures Shape(Handled(s, n, m)) && m in Handled(s, n, m).locals[n].proposed
    ensures VoteOk(Handled(s, n, m), CastVote(Handled(s, n, m), n, m))
  {
  }

  lemma HandleKeepsTablesOk(s: State, n: NodeId, m: MsgId)
    requires CanHandle(s, n, m) && TablesOk(s)
    ensures Shape(Handled(s, n, m)) && TablesOk(Handled(s, n, m))
  {
    var s' := Handled(s, n, m);
    HandleGrows(s, n, m);
    hide Grows, TableOk;
    forall k, j | k in s.members && j in s'.locals[k].node.waiting
      ensures TableOk(s', k, j, s'.locals[k].node.waiting[j])
    {
      TableStays(s, s', k, j, s.locals[k].node.waiting[j]);
    }
  }

  lemma HandleLosesNoVote(s: State, n: NodeId, m: MsgId)
    requires CanHandle(s, n, m) && NoVoteLost(s)
    ensures Shape(Handled(s, n, m)) && NoVoteLost(Handled(s, n, m))
  {
    var s' := Handled(s, n, m);
    HandleGrows(s, n, m);
    forall k, j | k in s.members && j in s'.locals[k].proposed && j !in s'.agreed
      ensures var w := CastVote(s', k, j); Letter(s.asked[j].src, w) in s'.bag || Tallied(s', s.asked[j].src, w)
    {
      if k != n || j != m {
        var w := CastVote(s, k, j);
        assert Letter(s.asked[j].src, w) in s.bag || Tallied(s, s.asked[j].src, w);
      }
    }
  }

  // ---------- Count a vote ----------

  ghost predicate CanTally(s: State, l: Letter) {
    Shape(s) && BagOk(s) && TablesOk(s) && l in s.bag && l.dst in s.members
  }

  function Tallying(s: State, l: Letter): State
    requires l.dst in s.locals
  {
    DoTally(s, l).0
  }

  /** The votes for `l`'s message, with `l`'s added. */
  function TableWith(s: State, l: Letter): seq<Vote>
    requires l.dst in s.locals
  {
    var waiting := s.locals[l.dst].node.waiting;
    (if l.vote.msgId in waiting then waiting[l.vote.msgId] else []) + [l.vote]
  }

  /** The table the collector looks at: genuine votes of distinct members on one message. */
  ghost predicate GoodTable(s: State, m: MsgId, votes: seq<Vote>)
    requires Shape(s)
  {
    && votes != [] && DistinctVoters(votes)
    && (forall i :: 0 <= i < |votes| ==> votes[i].msgId == m && VoteOk(s, votes[i]))
  }

  lemma TableWithIsGood(s: State, l: Letter)
    requires CanTally(s, l)
    ensures GoodTable(s, l.vote.msgId, TableWith(s, l)) && |TableWith(s, l)| <= |s.members|
  {
    var m, votes := l.vote.msgId, TableWith(s, l);
    assert LetterOk(s, l);
    var old' := votes[..|votes| - 1];
    if old' != [] {
      assert TableOk(s, l.dst, m, old');
      forall i | 0 <= i < |old'|
        ensures old'[i].voter != l.vote.voter
      {
        assert VoteOk(s, old'[i]);
      }
    } else {
      assert s.members - {l.vote.voter} < s.members;
      assert |s.members - {l.vote.voter}| == |s.members| - 1;
    }
  }

  lemma FullTableCovers(s: State, m: MsgId, votes: seq<Vote>)
    requires Shape(s) && GoodTable(s, m, votes) && |votes| >= |s.members|
    ensures Voters(votes) == s.members
  {
    VotersCount(votes);
    forall v | v in Voters(votes)
      ensures v in s.members
    {
      var i :| 0 <= i < |votes| && votes[i].voter == v;
      assert VoteOk(s, votes[i]);
    }
    SubsetOfEqualSize(Voters(votes), s.members);
  }

  /** A table as long as the member count holds every member's own vote, so its greatest vote is the quorum key. */
  lemma FullTableIsQuorum(s: State, m: MsgId, votes: seq<Vote>)
    requires Shape(s) && GoodTable(s, m, votes) && |votes| >= |s.members|
    ensures MaxVote(votes).msgId == m && IsQuorumKey(s, m, VoteKey(MaxVote(votes)))
  {
    var best := MaxVote(votes);
    MaxVoteIsGreatest(votes);
    FullTableCovers(s, m, votes);
    assert VoteOk(s, best);
    forall n | n in s.members
      ensures m in s.locals[n].proposed && KeyLeq(Key(s.locals[n].proposed[m], n), VoteKey(best))
    {
      assert n in Voters(votes);
      var i :| 0 <= i < |votes| && votes[i].voter == n;
      assert VoteOk(s, votes[i]) && votes[i] in votes;
    }
  }

  /** When the table is full no other vote on its message is under way. */
  lemma FullTableIsLast(s: State, l: Letter, k: Letter)
    requires CanTally(s, l) && k in s.bag && k.vote.msgId == l.vote.msgId && |TableWith(s, l)| >= |s.members|
    ensures k == l
  {
    var votes := TableWith(s, l);
    assert LetterOk(s, l) && LetterOk(s, k);
    TableWithIsGood(s, l);
    FullTableCovers(s, l.vote.msgId, votes);
    assert k.vote.voter in Voters(votes);
    var i :| 0 <= i < |votes| && votes[i].voter == k.vote.voter;
    assert VoteOk(s, votes[i]) && votes[i] == k.vote;
  }

  /** Each message is announced at most once, under the greatest of all N proposals. */
  lemma TallyAnnounces(s: State, l: Letter)
    requires CanTally(s, l)
    ensures var agreed', best := Tallying(s, l).agreed, DoTally(s, l).1;
            if |TableWith(s, l)| < |s.members| then best.None? && agreed' == s.agreed
            else best.Some? && best.value.msgId == l.vote.msgId && l.vote.msgId !in s.agreed
                 && IsQuorumKey(s, l.vote.msgId, VoteKey(best.value))
                 && agreed' == s.agreed[l.vote.msgId := VoteKey(best.value)]
  {
    assert LetterOk(s, l);
    TableWithIsGood(s, l);
    if |TableWith(s, l)| >= |s.members| {
      FullTableIsQuorum(s, l.vote.msgId, TableWith(s, l));
    }
  }

  /** Counting a vote touches nothing but one vote table, the vote and perhaps one agreement. */
  lemma TallyTouches(s: State, l: Letter)
    requires l.dst in s.locals
    ensures var s' := Tallying(s, l);
            s'.members == s.members && s'.asked == s.asked && s'.locals.Keys == s.locals.Keys && s'.handled == s.handled
    ensures forall n :: n in s.locals ==>
              var t, t' := s.locals[n], Tallying(s, l).locals[n];
              t' == t.(node := t.node.(waiting := t'.node.waiting)) && (n != l.dst ==> t' == t)
  {
  }

  lemma TallyGrows(s: State, l: Letter)
    requires CanTally(s, l)
    ensures Grows(s, Tallying(s, l))
  {
    hide DoTally, Tallying, IsQuorumKey, VoteOk, TablesOk, TableWith, Tallied;
    TallyAnnounces(s, l);
    TallyTouches(s, l);
    assert LetterOk(s, l);
  }

  lemma TallyKeepsAgreedOk(s: State, l: Letter)
    requires CanTally(s, l) && AgreedOk(s)
    ensures Shape(Tallying(s, l)) && AgreedOk(Tallying(s, l))
  {
    hide Grows, IsQuorumKey, BagOk, TablesOk, DoTally, Tallying, TableWith;
    var s' := Tallying(s, l);
    TallyGrows(s, l);
    TallyAnnounces(s, l);
    GrownShape(s, s');
    forall k | k in s'.agreed
      ensures IsQuorumKey(s', k, s'.agreed[k])
    {
      QuorumKeyStays(s, s', k, s'.agreed[k]);
    }
  }

  /** Vote tables play no part in what a node holds and delivers. */
  lemma TablesAreApart(l: Local, asked: map<MsgId, Ask>, agreed: map<MsgId, Key>, handled: nat, waiting: map<MsgId, seq<Vote>>)
    requires NodeOk(l, asked, agreed, handled)
    ensures NodeOk(l.(node := l.node.(waiting := waiting)), asked, agreed, handled)
  {
    var l' := l.(node := l.node.(waiting := waiting));
    forall m | m in l.node.hold
      ensures ItemOk(l', asked, agreed, m, l.node.hold[m])
    {
      assert ItemOk(l, asked, agreed, m, l.node.hold[m]);
    }
    forall i | 0 <= i < |l.node.log|
      ensures ItemOk(l', asked, agreed, l.node.log[i].msgId, l.node.log[i])
    {
      assert ItemOk(l, asked, agreed, l.node.log[i].msgId, l.node.log[i]);
    }
    assert forall k :: (InLog(l', k) <==> InLog(l, k)) && (IsSkipped(l', k) <==> IsSkipped(l, k));
  }

  /** Counting a vote revises no agreement. */
  lemma TallyRevisesNothing(s: State, l: Letter)
    requires CanTally(s, l)
    ensures forall m :: m in s.agreed ==> m in Tallying(s, l).agreed && Tallying(s, l).agreed[m] == s.agreed[m]
  {
    hide DoTally, Tallying, IsQuorumKey, TableWith;
    TallyAnnounces(s, l);
  }

  lemma TallyKeepsNode(s: State, l: Letter, n: NodeId)
    requires CanTally(s, l) && n in s.members && NodeSettled(s, n)
    ensures NodeSettled(Tallying(s, l), n)
  {
    hide NodeOk, BagOk, TablesOk, DoTally, Tallying;
    var s' := Tallying(s, l);
    TallyRevisesNothing(s, l);
    TallyTouches(s, l);
    NodeOkGrows(s.locals[n], s.asked, s.asked, s.agreed, s'.agreed, s.handled, s.handled);
    TablesAreApart(s.locals[n], s.asked, s'.agreed, s.handled, s'.locals[n].node.waiting);
  }

  lemma TallyKeepsNodesOk(s: State, l: Letter)
    requires CanTally(s, l) && NodesOk(s)
    ensures Shape(Tallying(s, l)) && NodesOk(Tallying(s, l))
  {
    TallyGrows(s, l);
    hide Grows, NodeSettled, CanTally;
    forall n | n in s.members
      ensures NodeSettled(Tallying(s, l), n)
    {
      TallyKeepsNode(s, l, n);
    }
  }

  /** Counting one vote neither counts nor settles another that is still under way. */
  lemma TallyLeavesLetter(s: State, l: Letter, k: Letter)
    requires CanTally(s, l) && k in s.bag && k != l
    ensures k.vote.msgId !in Tallying(s, l).agreed && !Tallied(Tallying(s, l), k.dst, k.vote)
  {
    TallyAnnounces(s, l);
    assert LetterOk(s, l) && LetterOk(s, k);
    if k.vote.msgId == l.vote.msgId && |TableWith(s, l)| >= |s.members| {
      FullTableIsLast(s, l, k);
    }
  }

  lemma TallyKeepsBagOk(s: State, l: Letter)
    requires CanTally(s, l)
    ensures Shape(Tallying(s, l)) && BagOk(Tallying(s, l))
  {
    var s' := Tallying(s, l);
    TallyGrows(s, l);
    assert LetterOk(s, l);
    hide Grows, VoteOk, TablesOk, IsQuorumKey;
    forall k | k in s'.bag
      ensures LetterOk(s', k)
    {
      assert LetterOk(s, k) && k != l;
      TallyLeavesLetter(s, l, k);
      LetterStays(s, s', k);
    }
  }

  lemma TallyKeepsTable(s: State, l: Letter, n: NodeId, m: MsgId)
    requires CanTally(s, l) && n in s.members && m in Tallying(s, l).locals[n].node.waiting
    ensures Shape(Tallying(s, l)) && TableOk(Tallying(s, l), n, m, Tallying(s, l).locals[n].node.waiting[m])
  {
    var s' := Tallying(s, l);
    TallyGrows(s, l);
    TallyAnnounces(s, l);
    assert LetterOk(s, l);
    if n == l.dst && m == l.vote.msgId {
      TableWithIsGood(s, l);
      forall i | 0 <= i < |TableWith(s, l)|
        ensures VoteOk(s', TableWith(s, l)[i])
      {
        VoteStays(s, s', TableWith(s, l)[i]);
      }
    } else {
      assert TableOk(s, n, m, s.locals[n].node.waiting[m]);
      TableStays(s, s', n, m, s.locals[n].node.waiting[m]);
    }
  }

  lemma TallyKeepsTablesOk(s: State, l: Letter)
    requires CanTally(s, l)
    ensures Shape(Tallying(s, l)) && TablesOk(Tallying(s, l))
  {
    var s' := Tallying(s, l);
    TallyGrows(s, l);
    hide Grows, TableOk, BagOk;
    forall n, m | n in s.members && m in s'.locals[n].node.waiting
      ensures TableOk(s', n, m, s'.locals[n].node.waiting[m])
    {
      TallyKeepsTable(s, l, n, m);
    }
  }

  lemma TallyLosesNoVote(s: State, l: Letter)
    requires CanTally(s, l) && NoVoteLost(s)
    ensures Shape(Tallying(s, l)) && NoVoteLost(Tallying(s, l))
  {
    hide Grows, BagOk, TablesOk, IsQuorumKey, DoTally, Tallying, TableWith, Tallied;
    var s' := Tallying(s, l);
    TallyGrows(s, l);
    TallyTouches(s, l);
    GrownShape(s, s');
    forall n, m | n in s.members && m in s'.locals[n].proposed && m !in s'.agreed
      ensures var v := CastVote(s', n, m); Letter(s.asked[m].src, v) in s'.bag || Tallied(s', s.asked[m].src, v)
    {
      TallyTracksVote(s, l, n, m);
    }
  }

  lemma TallyTracksVote(s: State, l: Letter, n: NodeId, m: MsgId)
    requires CanTally(s, l) && NoVoteLost(s)
    requires n in s.members && m in s.locals[n].proposed && m !in Tallying(s, l).agreed
    ensures var s', v := Tallying(s, l), CastVote(s, n, m);
            Letter(s.asked[m].src, v) in s'.bag || Tallied(s', s.asked[m].src, v)
  {
    TallyAnnounces(s, l);
    assert LetterOk(s, l);
    var v := CastVote(s, n, m);
    var src := s.asked[m].src;
    var waiting, waiting' := s.locals[src].node.waiting, Tallying(s, l).locals[src].node.waiting;
    if Letter(src, v) == l {
      assert waiting'[m][|waiting'[m]| - 1] == v;
    } else if Letter(src, v) !in s.bag {
      assert Tallied(s, src, v);
      if src == l.dst && m == l.vote.msgId {
        assert waiting'[m] == waiting[m] + [l.vote];
      }
    }
  }

  // ---------- Handle an announcement ----------

  ghost predicate CanLearn(s: State, n: NodeId, m: MsgId) {
    Shape(s) && NodesOk(s) && AgreedOk(s) && n in s.members && m in s.agreed && m !in s.locals[n].heard
  }

  /** The state after node `n` has handled the announcement of `m` and become `node`. */
  function Learned(s: State, n: NodeId, m: MsgId, node: Node): State
    requires n in s.locals
  {
    s.(locals := s.locals[n := Local(node, s.locals[n].proposed, s.locals[n].heard + {m})])
  }

  lemma QuorumCovers(s: State, m: MsgId, k: Key, n: NodeId)
    requires Shape(s) && IsQuorumKey(s, m, k) && n in s.members
    ensures m in s.locals[n].proposed && s.locals[n].proposed[m] <= k.seqNum
  {
    assert KeyLeq(Key(s.locals[n].proposed[m], n), k);
  }

  /** An agreed number is somebody's proposal, hence within the number of asks handled. */
  lemma AgreedWithinHandled(s: State, m: MsgId)
    requires Shape(s) && NodesOk(s) && AgreedOk(s) && m in s.agreed
    ensures s.agreed[m].seqNum <= s.handled
  {
    assert IsQuorumKey(s, m, s.agreed[m]);
    assert NodeSettled(s, s.agreed[m].proposer);
  }

  lemma LearnSettlesNode(s: State, n: NodeId, m: MsgId, alive: set<NodeId>, now: int, xs: seq<Item>, node: Node)
    requires CanLearn(s, n, m) && Learns(s.locals[n].node, m, s.agreed[m], alive, now, xs, node)
    ensures NodeSettled(Learned(s, n, m, node), n)
    ensures node.waiting == s.locals[n].node.waiting && node.log == s.locals[n].node.log + xs
  {
    AgreedKeysDistinct(s);
    AgreedWithinHandled(s, m);
    assert IsQuorumKey(s, m, s.agreed[m]);
    QuorumCovers(s, m, s.agreed[m], n);
    assert NodeSettled(s, n);
    hide NodeOk, Learns, AgreedOk, NodesOk, KeysDistinct, IsQuorumKey;
    LearnKeepsNodeOk(s.locals[n], s.asked, s.agreed, s.handled, m, alive, now, xs, node);
  }

  lemma LearnLeavesOthers(s: State, n: NodeId, m: MsgId, node: Node, k: NodeId)
    requires n in s.locals && k in s.locals && k != n && NodeSettled(s, k)
    ensures NodeSettled(Learned(s, n, m, node), k)
  {
  }

  lemma LearnKeepsNodesOk(s: State, n: NodeId, m: MsgId, alive: set<NodeId>, now: int, xs: seq<Item>, node: Node)
    requires CanLearn(s, n, m) && Learns(s.locals[n].node, m, s.agreed[m], alive, now, xs, node)
    ensures Shape(Learned(s, n, m, node)) && NodesOk(Learned(s, n, m, node))
  {
    LearnGrows(s, n, m, node);
    hide NodeSettled, Learns, AgreedOk, Grows;
    forall k | k in s.members
      ensures NodeSettled(Learned(s, n, m, node), k)
    {
      if k == n {
        LearnSettlesNode(s, n, m, alive, now, xs, node);
      } else {
        LearnLeavesOthers(s, n, m, node, k);
      }
    }
  }

  lemma {:induction false} DeliverAllKeepsWaiting(n: Node, xs: seq<Item>)
    ensures DeliverAll(n, xs).waiting == n.waiting && DeliverAll(n, xs).log == n.log + xs
    ensures DeliverAll(n, xs).crashSeen == n.crashSeen && DeliverAll(n, xs).skipped == n.skipped
  {
    if xs != [] {
      DeliverAllKeepsWaiting(n, xs[..|xs| - 1]);
      assert xs == xs[..|xs| - 1] + [xs[|xs| - 1]];
    }
  }

  lemma LearnGrows(s: State, n: NodeId, m: MsgId, node: Node)
    requires Shape(s) && n in s.members
    ensures Grows(s, Learned(s, n, m, node))
  {
  }

  lemma LearnKeepsAgreedOk(s: State, n: NodeId, m: MsgId, node: Node)
    requires Shape(s) && AgreedOk(s) && n in s.members
    ensures Shape(Learned(s, n, m, node)) && AgreedOk(Learned(s, n, m, node))
  {
    LearnGrows(s, n, m, node);
    hide Grows, IsQuorumKey;
    forall k | k in s.agreed
      ensures IsQuorumKey(Learned(s, n, m, node), k, s.agreed[k])
    {
      QuorumKeyStays(s, Learned(s, n, m, node), k, s.agreed[k]);
    }
  }

  /** An announcement moves no vote. */
  lemma LearnMovesNoVote(s: State, n: NodeId, m: MsgId, node: Node)
    requires Shape(s) && n in s.members && node.waiting == s.locals[n].node.waiting
    ensures var s' := Learned(s, n, m, node);
            && s'.members == s.members && s'.asked == s.asked && s'.agreed == s.agreed && s'.bag == s.bag
            && s'.locals.Keys == s.locals.Keys
            && forall k :: k in s.locals ==>
                 s'.locals[k].proposed == s.locals[k].proposed && s'.locals[k].node.waiting == s.locals[k].node.waiting
  {
  }

  lemma LearnKeepsBagOk(s: State, n: NodeId, m: MsgId, node: Node)
    requires Shape(s) && BagOk(s) && n in s.members && node.waiting == s.locals[n].node.waiting
    ensures var s' := Learned(s, n, m, node); Shape(s') && BagOk(s')
  {
    hide Learned, Grows;
    var s' := Learned(s, n, m, node);
    LearnGrows(s, n, m, node);
    LearnMovesNoVote(s, n, m, node);
    GrownShape(s, s');
    forall l | l in s'.bag
      ensures LetterOk(s', l)
    {
      assert LetterOk(s, l);
      assert l.dst in s.locals && s'.locals[l.dst].node.waiting == s.locals[l.dst].node.waiting;
      LetterStays(s, s', l);
    }
  }

  lemma LearnKeepsTablesOk(s: State, n: NodeId, m: MsgId, node: Node)
    requires Shape(s) && TablesOk(s) && n in s.members && node.waiting == s.locals[n].node.waiting
    ensures var s' := Learned(s, n, m, node); Shape(s') && TablesOk(s')
  {
    hide Learned, Grows, VoteOk;
    var s' := Learned(s, n, m, node);
    LearnGrows(s, n, m, node);
    LearnMovesNoVote(s, n, m, node);
    GrownShape(s, s');
    forall k, j | k in s.members && j in s'.locals[k].node.waiting
      ensures TableOk(s', k, j, s'.locals[k].node.waiting[j])
    {
      assert TableOk(s, k, j, s.locals[k].node.waiting[j]);
      TableStays(s, s', k, j, s.locals[k].node.waiting[j]);
    }
  }

  lemma LearnLosesNoVote(s: State, n: NodeId, m: MsgId, node: Node)
    requires Shape(s) && NoVoteLost(s) && n in s.members && node.waiting == s.locals[n].node.waiting
    ensures var s' := Learned(s, n, m, node); Shape(s') && NoVoteLost(s')
  {
    hide Learned, Grows;
    var s' := Learned(s, n, m, node);
    LearnGrows(s, n, m, node);
    LearnMovesNoVote(s, n, m, node);
    GrownShape(s, s');
    forall k, j | k in s.members && j in s'.locals[k].proposed && j !in s'.agreed
      ensures var w := CastVote(s', k, j); Letter(s'.asked[j].src, w) in s'.bag || Tallied(s', s'.asked[j].src, w)
    {
      assert CastVote(s', k, j) == CastVote(s, k, j);
    }
  }

  // ---------- Every step ----------

  lemma LearnKeepsInv(s: State, n: NodeId, m: MsgId, alive: set<NodeId>, now: int, xs: seq<Item>, s': State)
    requires Inv(s) && Next(s, Learn(n, m, alive, now, xs), s')
    ensures Inv(s') && s'.locals[n].node.log == s.locals[n].node.log + xs
  {
    hide NodesOk, AgreedOk, BagOk, TablesOk, NoVoteLost, Learns;
    var node :| Learns(s.locals[n].node, m, s.agreed[m], alive, now, xs, node) && s' == Learned(s, n, m, node);
    LearnSettlesNode(s, n, m, alive, now, xs, node);
    LearnKeepsNodesOk(s, n, m, alive, now, xs, node);
    LearnKeepsAgreedOk(s, n, m, node);
    LearnKeepsBagOk(s, n, m, node);
    LearnKeepsTablesOk(s, n, m, node);
    LearnLosesNoVote(s, n, m, node);
  }

  /** The protocol invariant survives every step, as long as the uint64 counters have not run out. */
  lemma NextKeepsInv(s: State, a: Action, s': State)
    requires Inv(s) && Next(s, a, s') && s'.handled < UINT64_SPAN
    ensures Inv(s')
  {
    hide NodesOk, AgreedOk, BagOk, TablesOk, NoVoteLost, DoTally;
    match a
    case Submit(m, src, body) =>
      SubmitKeepsNodesOk(s, m, src, body);
      SubmitKeepsBagOk(s, m, src, body);
      SubmitKeepsTablesOk(s, m, src, body);
    case Handle(n, m) =>
      HandleKeepsNodesOk(s, n, m);
      HandleKeepsAgreedOk(s, n, m);
      HandleKeepsBagOk(s, n, m);
      HandleKeepsTablesOk(s, n, m);
      HandleLosesNoVote(s, n, m);
    case Tally(l) =>
      LetterReachesMember(s, l);
      TallyKeepsNodesOk(s, l);
      TallyKeepsAgreedOk(s, l);
      TallyKeepsBagOk(s, l);
      TallyKeepsTablesOk(s, l);
      TallyLosesNoVote(s, l);
    case Learn(n, m, alive, now, xs) =>
      LearnKeepsInv(s, n, m, alive, now, xs, s');
  }

  lemma NextKeepsShape(s: State, a: Action, s': State)
    requires Inv(s) && Next(s, a, s')
    ensures Shape(s')
  {
    hide Learns, DoTally, NodesOk, AgreedOk, NoVoteLost;
    match a
    case Submit(m, src, body) => SubmitGrows(s, m, src, body);
    case Handle(n, m) => HandleGrows(s, n, m);
    case Tally(l) =>
      LetterReachesMember(s, l);
      TallyGrows(s, l);
    case Learn(n, m, alive, now, xs) =>
  }

  // ---------- While nobody is taken for dead ----------

  ghost predicate AllUndisturbed(s: State) {
    forall n :: n in s.members && n in s.locals ==> Undisturbed(s.locals[n])
  }

  /** Whether a step takes every member for live. */
  ghost predicate TrustsAll(s: State, a: Action) {
    a.Learn? ==> s.members <= a.alive
  }

  lemma HandleStaysUndisturbed(s: State, n: NodeId, m: MsgId)
    requires CanHandle(s, n, m) && NodesOk(s) && Undisturbed(s.locals[n])
    ensures Undisturbed(Handled(s, n, m).locals[n])
  {
    assert NodeSettled(s, n);
    hide NodeOk, Blocked;
    ProposeKeepsBlocked(s.locals[n], s.asked, s.agreed, s.handled, m, s.asked[m].src, s.asked[m].body);
  }

  lemma LearnedStaysUndisturbed(s: State, n: NodeId, m: MsgId, alive: set<NodeId>, now: int, xs: seq<Item>, node: Node)
    requires CanLearn(s, n, m) && Learns(s.locals[n].node, m, s.agreed[m], alive, now, xs, node)
    requires s.members <= alive && Undisturbed(s.locals[n])
    ensures Undisturbed(Learned(s, n, m, node).locals[n])
  {
    AgreedKeysDistinct(s);
    AgreedWithinHandled(s, m);
    assert IsQuorumKey(s, m, s.agreed[m]);
    QuorumCovers(s, m, s.agreed[m], n);
    assert NodeSettled(s, n);
    hide NodeOk, Undisturbed, Learns, AgreedOk, NodesOk, KeysDistinct, IsQuorumKey;
    LearnStaysUndisturbed(s.locals[n], s.asked, s.agreed, s.handled, m, alive, now, xs, node);
  }

  /** As long as every node takes all members for live, no node times or skips anything. */
  lemma NextStaysUndisturbed(s: State, a: Action, s': State)
    requires Inv(s) && AllUndisturbed(s) && Next(s, a, s') && TrustsAll(s, a)
    ensures AllUndisturbed(s')
  {
    hide NodesOk, AgreedOk, BagOk, TablesOk, NoVoteLost, DoTally, Learns, Blocked;
    match a
    case Submit(m, src, body) =>
    case Handle(n, m) => HandleStaysUndisturbed(s, n, m);
    case Tally(l) => TallyTouches(s, l);
    case Learn(n, m, alive, now, xs) =>
      var node :| Learns(s.locals[n].node, m, s.agreed[m], alive, now, xs, node) && s' == Learned(s, n, m, node);
      LearnedStaysUndisturbed(s, n, m, alive, now, xs, node);
  }

  lemma LetterReachesMember(s: State, l: Letter)
    requires Shape(s) && BagOk(s) && l in s.bag
    ensures l.dst in s.members
  {
    assert LetterOk(s, l);
  }
}
