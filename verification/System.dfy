/**
 The whole stack in one state machine, without failures: ISIS agreement whose asks and announcements travel
 by R-multicast over FIFO channels. Handlers know a message only by what its copy carries; that this
 nevertheless is ISIS over an ideal multicast is proved, not assumed.
 */
module System {
  import opened Order
  import opened Heap
  import opened Votes
  import opened Node
  import Ledger
  import Isis
  import RM = RMulticast

  datatype Payload =
    | Asking(msgId: MsgId, src: NodeId, body: Ledger.Operation)
    | Announcing(msgId: MsgId, key: Key)

  /** `payload[r]` is what was issued under id `r`; `askRid` and `annRid` remember those ids, for the proofs. */
  datatype State = State(
    rm: RM.State,
    payload: seq<Payload>,
    core: Isis.State,
    askRid: map<MsgId, RM.Rid>,
    annRid: map<MsgId, RM.Rid>)

  function Initial(members: set<NodeId>): State {
    State(RM.Initial(members), [], Isis.Initial(members), map[], map[])
  }

  datatype Action =
    | Submit(m: MsgId, src: NodeId, body: Ledger.Operation)
    | Receive(j: NodeId, k: NodeId, now: int, xs: seq<Item>)
    | Collect(letter: Isis.Letter)

  // ---------- Steps ----------

  /** `o` R-multicasts to everyone. */
  ghost predicate Issues(s: State, o: NodeId, rm': RM.State) {
    var a := RM.Issue(o, s.rm.members, false);
    RM.Enabled(s.rm, a) && rm' == RM.Step(s.rm, a)
  }

  /** A total-order multicast: the ask goes out under a fresh message id. */
  ghost predicate Submits(s: State, m: MsgId, src: NodeId, body: Ledger.Operation, s': State) {
    && m !in s.core.asked && Issues(s, src, s'.rm)
    && s'.payload == s.payload + [Asking(m, src, body)]
    && s'.core == Isis.DoAsk(s.core, m, src, body)
    && s'.askRid == s.askRid[m := |s.payload|] && s'.annRid == s.annRid
  }

  /** What node `k` does with a payload on first receipt. */
  ghost predicate Handles(core: Isis.State, k: NodeId, load: Payload, now: int, xs: seq<Item>, core': Isis.State)
    requires k in core.locals
  {
    match load
    case Asking(m, src, body) => core' == Isis.DoPropose(core, k, m, src, body)
    case Announcing(m, key) => Isis.DoLearn(core, k, m, key, core.members, now, xs, core')
  }

  /** Node `k` takes the next copy from `j`: relays and handles it if it is new, drops it otherwise. */
  ghost predicate Receives(s: State, j: NodeId, k: NodeId, now: int, xs: seq<Item>, s': State) {
    var a := RM.Deliver(j, k, s.rm.members, false);
    && RM.Enabled(s.rm, a) && s'.rm == RM.Step(s.rm, a)
    && k in s.core.locals && RM.Head(s.rm, j, k) < |s.payload|
    && s'.payload == s.payload && s'.askRid == s.askRid && s'.annRid == s.annRid
    && (if RM.IsNew(s.rm, j, k) then Handles(s.core, k, s.payload[RM.Head(s.rm, j, k)], now, xs, s'.core)
        else s'.core == s.core)
  }

  /** The collector at `letter.dst` counts a vote and, with enough of them, R-multicasts the announcement. */
  ghost predicate Collects(s: State, letter: Isis.Letter, s': State) {
    && letter in s.core.bag && letter.dst in s.core.locals
    && var (core', best) := Isis.DoTally(s.core, letter);
       && s'.core == core' && s'.askRid == s.askRid
       && (if best.None? then s'.rm == s.rm && s'.payload == s.payload && s'.annRid == s.annRid
           else && Issues(s, letter.dst, s'.rm)
                && s'.payload == s.payload + [Announcing(best.value.msgId, VoteKey(best.value))]
                && s'.annRid == s.annRid[best.value.msgId := |s.payload|])
  }

  ghost predicate Next(s: State, a: Action, s': State) {
    match a
    case Submit(m, src, body) => Submits(s, m, src, body, s')
    case Receive(j, k, now, xs) => Receives(s, j, k, now, xs, s')
    case Collect(letter) => Collects(s, letter, s')
  }

  // ---------- How the layers fit together ----------

  ghost predicate NoFailures(s: State) {
    && RM.Inv(s.rm) && s.rm.crashed == {} && s.rm.members == s.core.members
    && |s.payload| == |s.rm.origin|
    && (forall n :: n in s.rm.members ==> s.rm.senders[n] == s.rm.members)
  }

  ghost predicate AskLinked(s: State, m: MsgId) {
    && m in s.askRid && m in s.core.asked && s.askRid[m] < |s.payload| && |s.payload| == |s.rm.origin|
    && s.payload[s.askRid[m]] == Asking(m, s.core.asked[m].src, s.core.asked[m].body)
    && s.rm.origin[s.askRid[m]] == s.core.asked[m].src
  }

  ghost predicate AnnLinked(s: State, m: MsgId) {
    && m in s.annRid && m in s.core.agreed && m in s.core.asked
    && s.annRid[m] < |s.payload| && |s.payload| == |s.rm.origin|
    && s.payload[s.annRid[m]] == Announcing(m, s.core.agreed[m])
    && s.rm.origin[s.annRid[m]] == s.core.asked[m].src
  }

  ghost predicate PayloadsLinked(s: State) {
    forall r :: 0 <= r < |s.payload| ==>
      match s.payload[r]
      case Asking(m, _, _) => m in s.core.asked && m in s.askRid && s.askRid[m] == r
      case Announcing(m, _) => m in s.core.agreed && m in s.annRid && s.annRid[m] == r
  }

  /** Every id stands for one ask or one announcement, and every ask and announcement for one id. */
  ghost predicate Linked(s: State) {
    && (forall m :: m in s.core.asked ==> AskLinked(s, m))
    && (forall m :: m in s.core.agreed ==> AnnLinked(s, m))
    && PayloadsLinked(s)
  }

  ghost predicate AskInStep(s: State, n: NodeId, m: MsgId) {
    && n in s.core.locals && n in s.rm.received && m in s.askRid
    && (m in s.core.locals[n].proposed <==> s.askRid[m] in s.rm.received[n])
  }

  ghost predicate AnnInStep(s: State, n: NodeId, m: MsgId) {
    && n in s.core.locals && n in s.rm.received && m in s.annRid
    && (m in s.core.locals[n].heard <==> s.annRid[m] in s.rm.received[n])
  }

  /** A node has proposed for exactly the asks it has received and heard exactly the announcements it has received. */
  ghost predicate InStep(s: State) {
    && (forall n, m :: n in s.core.members && m in s.core.asked ==> AskInStep(s, n, m))
    && (forall n, m :: n in s.core.members && m in s.core.agreed ==> AnnInStep(s, n, m))
  }

  /** `a` was submitted before `b` by the same node. */
  ghost predicate SubmittedBefore(s: State, a: MsgId, b: MsgId) {
    && a in s.core.asked && b in s.core.asked && a in s.askRid && b in s.askRid
    && s.core.asked[a].src == s.core.asked[b].src && s.askRid[a] < s.askRid[b]
  }

  ghost predicate OrderedAt(s: State, n: NodeId, a: MsgId, b: MsgId) {
    n in s.core.locals && a in s.core.locals[n].proposed && b in s.core.locals[n].proposed && SubmittedBefore(s, a, b) ==>
      s.core.locals[n].proposed[a] < s.core.locals[n].proposed[b]
  }

  /** Every node proposes for one sender's messages in submission order. */
  ghost predicate ProposesInOrder(s: State) {
    forall n, a, b :: n in s.core.members ==> OrderedAt(s, n, a, b)
  }

  ghost predicate Inv(s: State) {
    NoFailures(s) && Isis.Inv(s.core) && Isis.AllUndisturbed(s.core) && Linked(s) && InStep(s) && ProposesInOrder(s)
  }

  lemma InitialInv(members: set<NodeId>)
    ensures Inv(Initial(members))
  {
    RM.InitialInv(members);
    Isis.InitialInv(members);
  }

  // ---------- Refinement ----------

  /** The ISIS step behind a step of the stack; none when a repeated copy is dropped. */
  ghost function CoreAction(s: State, a: Action): Option<Isis.Action>
    requires a.Receive? ==> (a.j, a.k) in s.rm.chan && s.rm.chan[(a.j, a.k)] != [] && a.k in s.rm.received
    requires a.Receive? ==> RM.Head(s.rm, a.j, a.k) < |s.payload|
  {
    match a
    case Submit(m, src, body) => Some(Isis.Submit(m, src, body))
    case Receive(j, k, now, xs) =>
      if !RM.IsNew(s.rm, j, k) then None
      else (match s.payload[RM.Head(s.rm, j, k)]
            case Asking(m, _, _) => Some(Isis.Handle(k, m))
            case Announcing(m, _) => Some(Isis.Learn(k, m, s.core.members, now, xs)))
    case Collect(letter) => Some(Isis.Tally(letter))
  }

  /** Refinement: every step of the stack is a step of ISIS over an ideal multicast, or leaves it alone. */
  lemma StepRefinesIsis(s: State, a: Action, s': State)
    requires NoFailures(s) && Isis.Shape(s.core) && Linked(s) && InStep(s) && Next(s, a, s')
    ensures CoreAction(s, a).None? ==> s'.core == s.core
    ensures CoreAction(s, a).Some? ==> Isis.Next(s.core, CoreAction(s, a).value, s'.core)
  {
    hide RM.Inv, RM.Step, RM.Delivered, RM.Issued, Isis.DoTally, Isis.DoLearn, Isis.DoPropose;
    match a
    case Submit(m, src, body) =>
    case Receive(j, k, now, xs) =>
      if RM.IsNew(s.rm, j, k) {
        var r := RM.Head(s.rm, j, k);
        match s.payload[r]
        case Asking(m, src, body) =>
          assert AskLinked(s, m);
        case Announcing(m, key) =>
          assert AnnLinked(s, m);
      }
    case Collect(letter) =>
  }

  // ---------- Every step keeps the layers together ----------

  lemma IssueStaysQuiet(s: State, o: NodeId, s': State)
    requires NoFailures(s) && Issues(s, o, s'.rm)
    requires |s'.payload| == |s.payload| + 1 && s'.core.members == s.core.members
    ensures NoFailures(s')
    ensures s'.rm.received == s.rm.received && s'.rm.origin == s.rm.origin + [o]
  {
    hide RM.Inv, RM.Issued;
    RM.StepKeepsInv(s.rm, RM.Issue(o, s.rm.members, false));
    RMInvShape(s.rm);
    RM.IssueFacts(s.rm, o, s.rm.members, false);
  }

  lemma RMInvShape(rm: RM.State)
    requires RM.Inv(rm)
    ensures RM.Shape(rm)
  {
  }

  lemma ReceiveStaysQuiet(s: State, j: NodeId, k: NodeId, now: int, xs: seq<Item>, s': State)
    requires NoFailures(s) && Receives(s, j, k, now, xs, s') && s'.core.members == s.core.members
    ensures NoFailures(s') && s'.rm.origin == s.rm.origin
    ensures s'.rm.received == if RM.IsNew(s.rm, j, k) then s.rm.received[k := s.rm.received[k] + [RM.Head(s.rm, j, k)]] else s.rm.received
  {
    hide RM.Inv, RM.Delivered, Handles;
    RM.StepKeepsInv(s.rm, RM.Deliver(j, k, s.rm.members, false));
    RMInvShape(s.rm);
    RM.DeliverFacts(s.rm, j, k, s.rm.members, false);
  }

  lemma HandlingTouches(core: Isis.State, k: NodeId, load: Payload, now: int, xs: seq<Item>, core': Isis.State)
    requires k in core.locals && Handles(core, k, load, now, xs, core')
    ensures core'.members == core.members && core'.asked == core.asked && core'.agreed == core.agreed
    ensures core'.locals.Keys == core.locals.Keys
    ensures forall n :: n in core.locals && n != k ==> core'.locals[n] == core.locals[n]
    ensures core'.locals[k].proposed.Keys == core.locals[k].proposed.Keys + (if load.Asking? then {load.msgId} else {})
    ensures core'.locals[k].heard == core.locals[k].heard + (if load.Announcing? then {load.msgId} else {})
    ensures forall m :: m in core.locals[k].proposed && (load.Asking? ==> m != load.msgId) ==>
              core'.locals[k].proposed[m] == core.locals[k].proposed[m]
  {
    hide Learns;
  }

  // ---------- Submit ----------

  lemma SubmitKeepsLinked(s: State, m: MsgId, src: NodeId, body: Ledger.Operation, s': State)
    requires NoFailures(s) && Isis.Shape(s.core) && Linked(s) && Submits(s, m, src, body, s')
    ensures NoFailures(s') && Linked(s')
  {
    hide RM.Inv, Issues, PayloadsLinked;
    IssueStaysQuiet(s, src, s');
    SubmitKeepsPayloads(s, m, src, body, s');
    forall x | x in s'.core.asked
      ensures AskLinked(s', x)
    {
      assert x != m ==> AskLinked(s, x);
    }
    forall x | x in s'.core.agreed
      ensures AnnLinked(s', x)
    {
      assert AnnLinked(s, x);
    }
  }

  lemma SubmitKeepsPayloads(s: State, m: MsgId, src: NodeId, body: Ledger.Operation, s': State)
    requires Linked(s) && Submits(s, m, src, body, s')
    ensures PayloadsLinked(s')
  {
    hide Issues, AskLinked, AnnLinked;
  }

  lemma FreshRidIsNowhere(s: State, n: NodeId)
    requires NoFailures(s) && n in s.rm.members
    ensures |s.payload| !in s.rm.received[n]
  {
  }

  /** Nobody has proposed for a message before it is submitted. */
  lemma FreshMessageIsUnknown(core: Isis.State, m: MsgId, n: NodeId)
    requires Isis.Shape(core) && m !in core.asked && n in core.members
    ensures n in core.locals && m !in core.locals[n].proposed
  {
  }

  lemma SubmitKeepsAskInStep(s: State, m: MsgId, src: NodeId, body: Ledger.Operation, s': State, n: NodeId, x: MsgId)
    requires NoFailures(s) && Isis.Shape(s.core) && InStep(s) && Submits(s, m, src, body, s')
    requires s'.rm.received == s.rm.received && n in s.core.members && x in s'.core.asked
    ensures AskInStep(s', n, x)
  {
    hide Issues, RM.Inv;
    RMInvShape(s.rm);
    FreshMessageIsUnknown(s.core, m, n);
    FreshRidIsNowhere(s, n);
    assert x != m ==> AskInStep(s, n, x);
  }

  lemma SubmitKeepsInStep(s: State, m: MsgId, src: NodeId, body: Ledger.Operation, s': State)
    requires NoFailures(s) && Isis.Shape(s.core) && InStep(s) && Submits(s, m, src, body, s')
    requires s'.rm.received == s.rm.received
    ensures InStep(s')
  {
    hide NoFailures, Issues, Isis.Shape, AskInStep;
    forall n, x | n in s'.core.members && x in s'.core.asked
      ensures AskInStep(s', n, x)
    {
      SubmitKeepsAskInStep(s, m, src, body, s', n, x);
    }
    forall n, x | n in s'.core.members && x in s'.core.agreed
      ensures AnnInStep(s', n, x)
    {
      assert AnnInStep(s, n, x);
    }
  }

  lemma SubmitKeepsProposesInOrder(s: State, m: MsgId, src: NodeId, body: Ledger.Operation, s': State)
    requires Isis.Shape(s.core) && ProposesInOrder(s) && Submits(s, m, src, body, s')
    ensures ProposesInOrder(s')
  {
    hide Issues, Isis.Shape;
    forall n, a, b | n in s'.core.members
      ensures OrderedAt(s', n, a, b)
    {
      FreshMessageIsUnknown(s.core, m, n);
      assert OrderedAt(s, n, a, b);
    }
  }

  // ---------- Receive ----------

  lemma ReceiveKeepsLinked(s: State, j: NodeId, k: NodeId, now: int, xs: seq<Item>, s': State)
    requires NoFailures(s) && Linked(s) && Receives(s, j, k, now, xs, s')
    ensures NoFailures(s') && Linked(s')
  {
    hide RM.Inv, Handles, RM.Step;
    if RM.IsNew(s.rm, j, k) {
      HandlingTouches(s.core, k, s.payload[RM.Head(s.rm, j, k)], now, xs, s'.core);
    }
    ReceiveStaysQuiet(s, j, k, now, xs, s');
    forall x | x in s'.core.asked
      ensures AskLinked(s', x)
    {
      assert AskLinked(s, x);
    }
    forall x | x in s'.core.agreed
      ensures AnnLinked(s', x)
    {
      assert AnnLinked(s, x);
    }
  }

  lemma ReceiveKeepsAskInStep(s: State, j: NodeId, k: NodeId, now: int, xs: seq<Item>, s': State, n: NodeId, m: MsgId)
    requires NoFailures(s) && Linked(s) && Receives(s, j, k, now, xs, s')
    requires n in s.core.members && m in s.core.asked && AskInStep(s, n, m)
    ensures AskInStep(s', n, m)
  {
    hide RM.Inv, Handles, RM.Step;
    var r := RM.Head(s.rm, j, k);
    if RM.IsNew(s.rm, j, k) {
      HandlingTouches(s.core, k, s.payload[r], now, xs, s'.core);
    }
    ReceiveStaysQuiet(s, j, k, now, xs, s');
    assert AskLinked(s, m);
  }

  lemma ReceiveKeepsAnnInStep(s: State, j: NodeId, k: NodeId, now: int, xs: seq<Item>, s': State, n: NodeId, m: MsgId)
    requires NoFailures(s) && Linked(s) && Receives(s, j, k, now, xs, s')
    requires n in s.core.members && m in s.core.agreed && AnnInStep(s, n, m)
    ensures AnnInStep(s', n, m)
  {
    hide RM.Inv, Handles, RM.Step;
    var r := RM.Head(s.rm, j, k);
    if RM.IsNew(s.rm, j, k) {
      HandlingTouches(s.core, k, s.payload[r], now, xs, s'.core);
    }
    ReceiveStaysQuiet(s, j, k, now, xs, s');
    assert AnnLinked(s, m);
  }

  /** Handling a payload leaves the group's asks, agreements and membership as they are. */
  lemma ReceiveTouches(s: State, j: NodeId, k: NodeId, now: int, xs: seq<Item>, s': State)
    requires Receives(s, j, k, now, xs, s')
    ensures s'.core.members == s.core.members && s'.core.asked == s.core.asked && s'.core.agreed == s.core.agreed
    ensures s'.core.locals.Keys == s.core.locals.Keys
  {
    hide Handles, RM.Step;
    if RM.IsNew(s.rm, j, k) {
      HandlingTouches(s.core, k, s.payload[RM.Head(s.rm, j, k)], now, xs, s'.core);
    }
  }

  lemma ReceiveKeepsInStep(s: State, j: NodeId, k: NodeId, now: int, xs: seq<Item>, s': State)
    requires NoFailures(s) && Linked(s) && InStep(s) && Receives(s, j, k, now, xs, s')
    ensures InStep(s')
  {
    hide NoFailures, Receives, Linked, AskInStep, AnnInStep;
    ReceiveTouches(s, j, k, now, xs, s');
    forall n, m | n in s'.core.members && m in s'.core.asked
      ensures AskInStep(s', n, m)
    {
      ReceiveKeepsAskInStep(s, j, k, now, xs, s', n, m);
    }
    forall n, m | n in s'.core.members && m in s'.core.agreed
      ensures AnnInStep(s', n, m)
    {
      ReceiveKeepsAnnInStep(s, j, k, now, xs, s', n, m);
    }
  }

  /** A node that has handled an ask has handled every earlier ask of its sender. */
  lemma HandlesInSubmissionOrder(s: State, n: NodeId, a: MsgId, b: MsgId)
    requires NoFailures(s) && Linked(s) && InStep(s) && n in s.core.members
    requires SubmittedBefore(s, a, b) && b in s.core.locals[n].proposed
    ensures a in s.core.locals[n].proposed
  {
    assert AskLinked(s, a) && AskLinked(s, b) && AskInStep(s, n, a) && AskInStep(s, n, b);
    assert RM.Earlier(s.rm, s.askRid[a], s.askRid[b]);
    var q :| 0 <= q < |s.rm.received[n]| && s.rm.received[n][q] == s.askRid[b];
    assert s.askRid[a] in s.rm.received[n][..q];
  }

  /** A proposal exceeds every number the node has proposed. */
  lemma ProposalIsNewest(l: Isis.Local, handled: nat, m: MsgId, src: NodeId, body: Ledger.Operation, a: MsgId)
    requires Isis.NumbersOk(l, handled) && handled + 1 < UINT64_SPAN && a in l.proposed && m !in l.proposed
    ensures l.proposed[a] < Isis.ProposeAt(l, m, src, body).proposed[m]
  {
  }

  /** The number proposed for a new ask comes after those of its sender's earlier asks. */
  lemma ProposalIsInOrder(s: State, j: NodeId, k: NodeId, now: int, xs: seq<Item>, s': State, a: MsgId, b: MsgId)
    requires NoFailures(s) && Linked(s) && InStep(s) && Isis.Inv(s.core) && Receives(s, j, k, now, xs, s')
    requires s'.core.handled < UINT64_SPAN && k in s.core.members && OrderedAt(s, k, a, b)
    requires RM.IsNew(s.rm, j, k) && s.payload[RM.Head(s.rm, j, k)].Asking?
    ensures OrderedAt(s', k, a, b)
  {
    hide RM.Inv, RM.Step, NoFailures, Linked, InStep, Isis.NodeOk, Isis.AgreedOk, Isis.BagOk, Isis.TablesOk, Isis.NoVoteLost;
    var load := s.payload[RM.Head(s.rm, j, k)];
    HandlingTouches(s.core, k, load, now, xs, s'.core);
    NewHasNoProposal(s, j, k, load.msgId);
    assert Isis.NodeSettled(s.core, k);
    NodeOkNumbers(s.core.locals[k], s.core.asked, s.core.agreed, s.core.handled);
    if SubmittedBefore(s', a, b) {
      assert SubmittedBefore(s, a, b);
      if b == load.msgId && a in s.core.locals[k].proposed {
        ProposalIsNewest(s.core.locals[k], s.core.handled, b, load.src, load.body, a);
      } else if a == load.msgId && b in s.core.locals[k].proposed {
        HandlesInSubmissionOrder(s, k, a, b);
      }
    }
  }

  lemma NodeOkNumbers(l: Isis.Local, asked: map<MsgId, Isis.Ask>, agreed: map<MsgId, Key>, handled: nat)
    requires Isis.NodeOk(l, asked, agreed, handled)
    ensures Isis.NumbersOk(l, handled)
  {
  }

  lemma ReceiveKeepsOrderedAt(s: State, j: NodeId, k: NodeId, now: int, xs: seq<Item>, s': State, n: NodeId, a: MsgId, b: MsgId)
    requires NoFailures(s) && Linked(s) && InStep(s) && Isis.Inv(s.core) && Receives(s, j, k, now, xs, s')
    requires s'.core.handled < UINT64_SPAN && n in s.core.members && OrderedAt(s, n, a, b)
    ensures OrderedAt(s', n, a, b)
  {
    hide NoFailures, RM.Step, Linked, InStep, Handles, Isis.Inv;
    if RM.IsNew(s.rm, j, k) {
      var load := s.payload[RM.Head(s.rm, j, k)];
      HandlingTouches(s.core, k, load, now, xs, s'.core);
      if n == k && load.Asking? {
        ProposalIsInOrder(s, j, k, now, xs, s', a, b);
      }
    }
  }

  lemma NewHasNoProposal(s: State, j: NodeId, k: NodeId, m: MsgId)
    requires NoFailures(s) && Linked(s) && InStep(s) && k in s.core.members
    requires (j, k) in s.rm.chan && s.rm.chan[(j, k)] != [] && k in s.rm.received && RM.IsNew(s.rm, j, k)
    requires RM.Head(s.rm, j, k) < |s.payload| && s.payload[RM.Head(s.rm, j, k)].Asking?
    requires s.payload[RM.Head(s.rm, j, k)].msgId == m
    ensures m in s.core.asked && k in s.core.locals && m !in s.core.locals[k].proposed
  {
    assert AskInStep(s, k, m);
  }

  lemma ReceiveKeepsProposesInOrder(s: State, j: NodeId, k: NodeId, now: int, xs: seq<Item>, s': State)
    requires NoFailures(s) && Linked(s) && InStep(s) && Isis.Inv(s.core) && Receives(s, j, k, now, xs, s')
    requires s'.core.handled < UINT64_SPAN && ProposesInOrder(s)
    ensures ProposesInOrder(s')
  {
    hide NoFailures, Linked, InStep, Isis.Inv, Receives, OrderedAt;
    ReceiveTouches(s, j, k, now, xs, s');
    forall n, a, b | n in s'.core.members
      ensures OrderedAt(s', n, a, b)
    {
      ReceiveKeepsOrderedAt(s, j, k, now, xs, s', n, a, b);
    }
  }

  // ---------- Collect ----------

  /** Counting a vote changes no proposal and nothing heard; an announcement it makes is the first for its message. */
  lemma CollectTouches(s: State, letter: Isis.Letter, s': State)
    requires Isis.Inv(s.core) && Collects(s, letter, s')
    ensures s'.core.members == s.core.members && s'.core.asked == s.core.asked && s'.core.locals.Keys == s.core.locals.Keys
    ensures forall n :: n in s.core.locals ==>
              s'.core.locals[n].proposed == s.core.locals[n].proposed && s'.core.locals[n].heard == s.core.locals[n].heard
    ensures var best := Isis.DoTally(s.core, letter).1;
            if best.None? then s'.core.agreed == s.core.agreed
            else best.value.msgId == letter.vote.msgId && letter.vote.msgId !in s.core.agreed
                 && s'.core.agreed == s.core.agreed[letter.vote.msgId := VoteKey(best.value)]
                 && letter.vote.msgId in s.core.asked && s.core.asked[letter.vote.msgId].src == letter.dst
  {
    hide Isis.NodesOk, Isis.AgreedOk, Isis.NoVoteLost, Isis.DoTally, Issues, Isis.IsQuorumKey;
    assert Isis.LetterOk(s.core, letter);
    Isis.TallyAnnounces(s.core, letter);
    Isis.TallyTouches(s.core, letter);
  }

  lemma CollectStaysQuiet(s: State, letter: Isis.Letter, s': State)
    requires NoFailures(s) && Isis.Inv(s.core) && Collects(s, letter, s')
    ensures NoFailures(s') && s'.rm.received == s.rm.received
    ensures s'.rm.origin == if Isis.DoTally(s.core, letter).1.None? then s.rm.origin else s.rm.origin + [letter.dst]
  {
    hide RM.Inv, Isis.Inv, Isis.DoTally, Issues;
    CollectTouches(s, letter, s');
    if Isis.DoTally(s.core, letter).1.Some? {
      IssueStaysQuiet(s, letter.dst, s');
    }
  }

  lemma CollectKeepsAskLinked(s: State, letter: Isis.Letter, s': State, x: MsgId)
    requires NoFailures(s) && Isis.Inv(s.core) && Collects(s, letter, s') && AskLinked(s, x)
    ensures AskLinked(s', x)
  {
    hide RM.Inv, Isis.Inv, Isis.DoTally, Issues;
    CollectTouches(s, letter, s');
    CollectStaysQuiet(s, letter, s');
  }

  lemma CollectKeepsAnnLinked(s: State, letter: Isis.Letter, s': State, x: MsgId)
    requires NoFailures(s) && Isis.Inv(s.core) && Collects(s, letter, s') && x in s'.core.agreed
    requires x in s.core.agreed ==> AnnLinked(s, x)
    ensures AnnLinked(s', x)
  {
    hide RM.Inv, Isis.Inv, Isis.DoTally, Issues;
    CollectTouches(s, letter, s');
    CollectStaysQuiet(s, letter, s');
  }

  lemma CollectKeepsLinked(s: State, letter: Isis.Letter, s': State)
    requires NoFailures(s) && Isis.Inv(s.core) && Linked(s) && Collects(s, letter, s')
    ensures Linked(s')
  {
    hide NoFailures, Isis.Inv, Isis.DoTally, Issues, AskLinked, AnnLinked;
    CollectTouches(s, letter, s');
    forall x | x in s'.core.asked
      ensures AskLinked(s', x)
    {
      CollectKeepsAskLinked(s, letter, s', x);
    }
    forall x | x in s'.core.agreed
      ensures AnnLinked(s', x)
    {
      CollectKeepsAnnLinked(s, letter, s', x);
    }
  }

  lemma CollectKeepsAnnInStep(s: State, letter: Isis.Letter, s': State, n: NodeId, x: MsgId)
    requires NoFailures(s) && Isis.Inv(s.core) && Collects(s, letter, s') && n in s.core.members && x in s'.core.agreed
    requires x in s.core.agreed ==> AnnInStep(s, n, x)
    ensures AnnInStep(s', n, x)
  {
    hide RM.Inv, Isis.Inv, Isis.DoTally, Issues;
    RMInvShape(s.rm);
    CollectTouches(s, letter, s');
    CollectStaysQuiet(s, letter, s');
    HeardIsAgreed(s.core, n);
    FreshRidIsNowhere(s, n);
  }

  lemma HeardIsAgreed(core: Isis.State, n: NodeId)
    requires Isis.Inv(core) && n in core.members
    ensures n in core.locals && core.locals[n].heard <= core.agreed.Keys
  {
    assert Isis.NodeSettled(core, n);
  }

  lemma CollectKeepsInStep(s: State, letter: Isis.Letter, s': State)
    requires NoFailures(s) && Isis.Inv(s.core) && InStep(s) && ProposesInOrder(s) && Collects(s, letter, s')
    ensures InStep(s') && ProposesInOrder(s')
  {
    hide NoFailures, Isis.Inv, Isis.DoTally, Issues, AnnInStep;
    CollectTouches(s, letter, s');
    CollectStaysQuiet(s, letter, s');
    forall n, x | n in s'.core.members && x in s'.core.asked
      ensures AskInStep(s', n, x)
    {
      assert AskInStep(s, n, x);
    }
    forall n, x | n in s'.core.members && x in s'.core.agreed
      ensures AnnInStep(s', n, x)
    {
      CollectKeepsAnnInStep(s, letter, s', n, x);
    }
    forall n, a, b | n in s'.core.members
      ensures OrderedAt(s', n, a, b)
    {
      assert OrderedAt(s, n, a, b);
    }
  }

  // ---------- Every step ----------

  lemma CoreKeepsInv(s: State, a: Action, s': State)
    requires Inv(s) && Next(s, a, s') && s'.core.handled < UINT64_SPAN
    ensures Isis.Inv(s'.core) && Isis.AllUndisturbed(s'.core)
  {
    hide Isis.AllUndisturbed, NoFailures, Linked, InStep, ProposesInOrder, Isis.Next, Isis.NodesOk, Isis.AgreedOk, Isis.BagOk, Isis.TablesOk, Isis.NoVoteLost,
         Issues, RM.Step, Handles, Isis.DoTally;
    StepRefinesIsis(s, a, s');
    if CoreAction(s, a).Some? {
      Isis.NextKeepsInv(s.core, CoreAction(s, a).value, s'.core);
      Isis.NextStaysUndisturbed(s.core, CoreAction(s, a).value, s'.core);
    }
  }

  lemma NextKeepsInv(s: State, a: Action, s': State)
    requires Inv(s) && Next(s, a, s') && s'.core.handled < UINT64_SPAN
    ensures Inv(s')
  {
    hide NoFailures, Linked, InStep, ProposesInOrder, Isis.Inv, Isis.AllUndisturbed, Submits, Receives, Collects;
    CoreKeepsInv(s, a, s');
    IsisInvShape(s.core);
    match a
    case Submit(m, src, body) =>
      SubmitKeepsLinked(s, m, src, body, s');
      SubmitKeepsReceipts(s, m, src, body, s');
      SubmitKeepsInStep(s, m, src, body, s');
      SubmitKeepsProposesInOrder(s, m, src, body, s');
    case Receive(j, k, now, xs) =>
      ReceiveKeepsLinked(s, j, k, now, xs, s');
      ReceiveKeepsInStep(s, j, k, now, xs, s');
      ReceiveKeepsProposesInOrder(s, j, k, now, xs, s');
    case Collect(letter) =>
      CollectStaysQuiet(s, letter, s');
      CollectKeepsLinked(s, letter, s');
      CollectKeepsInStep(s, letter, s');
  }

  lemma IsisInvShape(core: Isis.State)
    requires Isis.Inv(core)
    ensures Isis.Shape(core)
  {
  }

  lemma SubmitKeepsReceipts(s: State, m: MsgId, src: NodeId, body: Ledger.Operation, s': State)
    requires NoFailures(s) && Submits(s, m, src, body, s')
    ensures s'.rm.received == s.rm.received
  {
    hide RM.Inv, Issues;
    IssueStaysQuiet(s, src, s');
  }
}
