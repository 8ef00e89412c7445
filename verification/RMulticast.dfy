/**
 R-multicast over FIFO channels, with crashes. A message is known by the id it was issued under; ids are
 handed out in issue order. A node that crashes may leave a B-multicast half done, and what it had still
 under way may be lost from the end of a channel. Only crashed nodes are ejected.
 */
module RMulticast {
  import opened Order

  type Rid = nat

  datatype State = State(
    members: set<NodeId>,
    senders: map<NodeId, set<NodeId>>,
    origin: seq<NodeId>,
    received: map<NodeId, seq<Rid>>,
    chan: map<(NodeId, NodeId), seq<Rid>>,
    crashed: set<NodeId>,
    sends: seq<nat>)

  function Initial(members: set<NodeId>): State {
    State(members, map n | n in members :: members, [], map n | n in members :: [],
          map a, b | a in members && b in members :: (a, b) := [], {}, [])
  }

  // ---------- Steps ----------

  /** `o` sends `r` to each of `dests`. */
  function Appended(chan: map<(NodeId, NodeId), seq<Rid>>, o: NodeId, dests: set<NodeId>, r: Rid): map<(NodeId, NodeId), seq<Rid>> {
    map p | p in chan :: if p.0 == o && p.1 in dests then chan[p] + [r] else chan[p]
  }

  /** A B-multicast reaches `dests`: all but crashed nodes, which are ejected, unless `o` crashes on the way. */
  ghost predicate Reaches(s: State, o: NodeId, dests: set<NodeId>, crash: bool)
    requires o in s.senders
  {
    dests <= s.senders[o] && (!crash ==> s.senders[o] - dests <= s.crashed)
  }

  function BMulticast(s: State, o: NodeId, r: Rid, dests: set<NodeId>, crash: bool): State
    requires r < |s.sends|
  {
    s.(chan := Appended(s.chan, o, dests, r),
       sends := s.sends[r := s.sends[r] + |dests|],
       senders := s.senders[o := dests],
       crashed := if crash then s.crashed + {o} else s.crashed)
  }

  /** `o` issues a message under a fresh id. */
  function Issued(s: State, o: NodeId, dests: set<NodeId>, crash: bool): State
    requires |s.origin| == |s.sends|
  {
    BMulticast(s.(origin := s.origin + [o], sends := s.sends + [0]), o, |s.origin|, dests, crash)
  }

  /** `k` takes the next message off its channel from `j`. */
  function Popped(s: State, j: NodeId, k: NodeId): State
    requires (j, k) in s.chan && s.chan[(j, k)] != []
  {
    s.(chan := s.chan[(j, k) := s.chan[(j, k)][1..]])
  }

  function Marked(s: State, k: NodeId, r: Rid): State
    requires k in s.received
  {
    s.(received := s.received[k := s.received[k] + [r]])
  }

  /** First receipt from somebody else is relayed to everyone; first receipt from oneself is not; repeats are dropped. */
  function Delivered(s: State, j: NodeId, k: NodeId, dests: set<NodeId>, crash: bool): State
    requires (j, k) in s.chan && s.chan[(j, k)] != [] && k in s.received
    requires s.chan[(j, k)][0] < |s.sends|
  {
    var r := s.chan[(j, k)][0];
    var t := Popped(s, j, k);
    if r in s.received[k] then t
    else if j == k then Marked(t, k, r)
    else BMulticast(Marked(t, k, r), k, r, dests, crash)
  }

  ghost predicate Live(s: State, n: NodeId) {
    n in s.members && n !in s.crashed
  }

  datatype Action =
    | Issue(o: NodeId, dests: set<NodeId>, crash: bool)
    | Deliver(j: NodeId, k: NodeId, dests: set<NodeId>, crash: bool)
    | Crash(j: NodeId)
    | Eject(j: NodeId, k: NodeId)
    | Lose(j: NodeId, k: NodeId, kept: nat)

  ghost predicate Enabled(s: State, a: Action) {
    match a
    case Issue(o, dests, crash) =>
      Live(s, o) && o in s.senders && Reaches(s, o, dests, crash) && |s.origin| == |s.sends|
    case Deliver(j, k, dests, crash) =>
      (j, k) in s.chan && s.chan[(j, k)] != [] && s.chan[(j, k)][0] < |s.sends|
      && Live(s, k) && k in s.received && k in s.senders && Reaches(s, k, dests, crash)
    case Crash(j) => j in s.members
    case Eject(j, k) => j in s.senders && k in s.crashed
    case Lose(j, k, kept) => (j, k) in s.chan && j in s.crashed && kept <= |s.chan[(j, k)]|
  }

  function Step(s: State, a: Action): State
    requires Enabled(s, a)
  {
    match a
    case Issue(o, dests, crash) => Issued(s, o, dests, crash)
    case Deliver(j, k, dests, crash) => Delivered(s, j, k, dests, crash)
    case Crash(j) => s.(crashed := s.crashed + {j})
    case Eject(j, k) => s.(senders := s.senders[j := s.senders[j] - {k}])
    case Lose(j, k, kept) => s.(chan := s.chan[(j, k) := s.chan[(j, k)][..kept]])
  }

  // ---------- Invariants ----------

  ghost predicate Shape(s: State) {
    && s.senders.Keys == s.members && s.received.Keys == s.members && s.crashed <= s.members
    && (forall p :: p in s.chan <==> p.0 in s.members && p.1 in s.members)
    && (forall n :: n in s.members ==> s.senders[n] <= s.members)
    && (forall r :: 0 <= r < |s.origin| ==> s.origin[r] in s.members)
    && |s.sends| == |s.origin|
  }

  /** `j` issued `r` or has received it. */
  ghost predicate Knows(s: State, j: NodeId, r: Rid)
    requires j in s.received
  {
    r < |s.origin| && (s.origin[r] == j || r in s.received[j])
  }

  /** Nothing travels or arrives that was not issued, or that its sender does not know. */
  ghost predicate Genuine(s: State)
    requires Shape(s)
  {
    && (forall p, r :: p in s.chan && r in s.chan[p] ==> Knows(s, p.0, r))
    && (forall k, r :: k in s.members && r in s.received[k] ==> r < |s.origin|)
  }

  /** Each node takes each message once. */
  ghost predicate AtMostOnce(s: State)
    requires Shape(s)
  {
    forall k, p, q :: k in s.members && 0 <= p < q < |s.received[k]| ==> s.received[k][p] != s.received[k][q]
  }

  /** Live nodes are ejected by nobody who is live. */
  ghost predicate LiveStay(s: State)
    requires Shape(s)
  {
    forall j, k :: Live(s, j) && Live(s, k) ==> k in s.senders[j]
  }

  /** What a live node knows, every live node has received or has a copy of under way from it. */
  ghost predicate Reliable(s: State)
    requires Shape(s)
  {
    forall j, k, r :: Live(s, j) && Live(s, k) && Knows(s, j, r) ==> r in s.received[k] || r in s.chan[(j, k)]
  }

  ghost predicate Earlier(s: State, a: Rid, b: Rid) {
    a < b < |s.origin| && s.origin[a] == s.origin[b]
  }

  /** On a channel to a live node, a message follows or is preceded in receipt by its issuer's earlier ones. */
  ghost predicate FifoInFlight(s: State)
    requires Shape(s)
  {
    forall j, k, p, a :: j in s.members && Live(s, k) && 0 <= p < |s.chan[(j, k)]| && Earlier(s, a, s.chan[(j, k)][p]) ==>
      a in s.received[k] || a in s.chan[(j, k)][..p]
  }

  /** Every node receives one issuer's messages in issue order. */
  ghost predicate FifoReceipt(s: State)
    requires Shape(s)
  {
    forall k, q, a :: k in s.members && 0 <= q < |s.received[k]| && Earlier(s, a, s.received[k][q]) ==>
      a in s.received[k][..q]
  }

  ghost function Receivers(s: State, r: Rid): set<NodeId>
    requires Shape(s)
  {
    set k | k in s.members && r in s.received[k]
  }

  /** One multicast costs at most one round of N sends by its issuer and one by each receiver. */
  ghost predicate SendsBounded(s: State)
    requires Shape(s)
  {
    forall r :: 0 <= r < |s.sends| ==> s.sends[r] <= |s.members| * (1 + |Receivers(s, r)|)
  }

  ghost predicate Inv(s: State) {
    Shape(s) && Genuine(s) && AtMostOnce(s) && LiveStay(s) && Reliable(s) && FifoInFlight(s) && FifoReceipt(s) && SendsBounded(s)
  }

  lemma InitialInv(members: set<NodeId>)
    ensures Inv(Initial(members))
  {
  }

  // ---------- Issuing keeps the invariant ----------

  ghost predicate CanIssue(s: State, o: NodeId, dests: set<NodeId>, crash: bool) {
    Inv(s) && Enabled(s, Issue(o, dests, crash))
  }

  lemma IssueFacts(s: State, o: NodeId, dests: set<NodeId>, crash: bool)
    requires Shape(s) && Enabled(s, Issue(o, dests, crash))
    ensures var s', r := Issued(s, o, dests, crash), |s.origin|;
            Shape(s') && s'.members == s.members && s'.received == s.received && s'.origin == s.origin + [o]
            && s'.crashed == (if crash then s.crashed + {o} else s.crashed)
            && s'.senders == s.senders[o := dests] && s'.sends == s.sends + [|dests|]
            && (forall p :: p in s.chan ==> s'.chan[p] == if p.0 == o && p.1 in dests then s.chan[p] + [r] else s.chan[p])
  {
  }

  /** A B-multicast that does not end in a crash reaches every live node. */
  lemma ReachesLive(s: State, o: NodeId, dests: set<NodeId>, k: NodeId)
    requires Shape(s) && LiveStay(s) && Live(s, o) && Live(s, k) && Reaches(s, o, dests, false)
    ensures k in dests
  {
    assert s.senders[o] <= dests + s.crashed;
    assert k in s.senders[o];
  }

  lemma IssueKeepsGenuine(s: State, o: NodeId, dests: set<NodeId>, crash: bool)
    requires CanIssue(s, o, dests, crash)
    ensures var s' := Issued(s, o, dests, crash); Shape(s') && Genuine(s') && AtMostOnce(s') && LiveStay(s')
  {
    hide Issued, Reliable, FifoInFlight, FifoReceipt, SendsBounded;
    IssueFacts(s, o, dests, crash);
    var s' := Issued(s, o, dests, crash);
    forall j, k | Live(s', j) && Live(s', k)
      ensures k in s'.senders[j]
    {
      assert Live(s, j) && Live(s, k);
      if j == o {
        ReachesLive(s, o, dests, k);
      }
    }
  }

  lemma IssueKeepsReliable(s: State, o: NodeId, dests: set<NodeId>, crash: bool)
    requires CanIssue(s, o, dests, crash)
    ensures var s' := Issued(s, o, dests, crash); Shape(s') && Reliable(s')
  {
    hide Issued, FifoInFlight, FifoReceipt, SendsBounded, AtMostOnce, Reaches;
    IssueFacts(s, o, dests, crash);
    var s' := Issued(s, o, dests, crash);
    forall j, k, r: Rid | Live(s', j) && Live(s', k) && Knows(s', j, r)
      ensures r in s'.received[k] || r in s'.chan[(j, k)]
    {
      assert Live(s, j) && Live(s, k);
      if r < |s.origin| {
        assert Knows(s, j, r);
      } else {
        ReachesLive(s, o, dests, k);
      }
    }
  }

  lemma IssueKeepsFifoInFlight(s: State, o: NodeId, dests: set<NodeId>, crash: bool)
    requires CanIssue(s, o, dests, crash)
    ensures var s' := Issued(s, o, dests, crash); Shape(s') && FifoInFlight(s')
  {
    hide Issued, FifoReceipt, SendsBounded, AtMostOnce;
    IssueFacts(s, o, dests, crash);
    var s' := Issued(s, o, dests, crash);
    forall j, k, p, a | j in s.members && Live(s', k) && 0 <= p < |s'.chan[(j, k)]| && Earlier(s', a, s'.chan[(j, k)][p])
      ensures a in s'.received[k] || a in s'.chan[(j, k)][..p]
    {
      var b := s'.chan[(j, k)][p];
      if p < |s.chan[(j, k)]| {
        assert b in s.chan[(j, k)] && Knows(s, j, b);
        assert Earlier(s, a, b);
        assert s'.chan[(j, k)][..p] == s.chan[(j, k)][..p];
      } else {
        assert Knows(s, o, a);
        assert s'.chan[(j, k)][..p] == s.chan[(j, k)];
      }
    }
  }

  lemma IssueKeepsRest(s: State, o: NodeId, dests: set<NodeId>, crash: bool)
    requires CanIssue(s, o, dests, crash)
    ensures var s' := Issued(s, o, dests, crash); Shape(s') && FifoReceipt(s') && SendsBounded(s')
  {
    hide Issued, FifoInFlight, Reliable, AtMostOnce;
    IssueFacts(s, o, dests, crash);
    var s' := Issued(s, o, dests, crash);
    forall k, q, a | k in s.members && 0 <= q < |s'.received[k]| && Earlier(s', a, s'.received[k][q])
      ensures a in s'.received[k][..q]
    {
      assert s.received[k][q] in s.received[k];
      assert Earlier(s, a, s.received[k][q]);
    }
    forall r | 0 <= r < |s'.sends|
      ensures s'.sends[r] <= |s.members| * (1 + |Receivers(s', r)|)
    {
      assert Receivers(s', r) == Receivers(s, r);
      if r == |s.sends| {
        SubsetSize(dests, s.members);
        ProductGrows(|s.members|, |Receivers(s', r)|);
      }
    }
  }

  lemma SubsetSize<T>(a: set<T>, b: set<T>)
    requires a <= b
    ensures |a| <= |b|
  {
    assert a + (b - a) == b;
  }

  lemma ProductGrows(n: nat, k: nat)
    ensures n <= n * (1 + k) && n * (1 + (k + 1)) == n * (1 + k) + n
  {
  }

  // ---------- Receiving keeps the invariant ----------

  ghost predicate CanDeliver(s: State, j: NodeId, k: NodeId, dests: set<NodeId>, crash: bool) {
    Inv(s) && Enabled(s, Deliver(j, k, dests, crash))
  }

  function Head(s: State, j: NodeId, k: NodeId): Rid
    requires (j, k) in s.chan && s.chan[(j, k)] != []
  {
    s.chan[(j, k)][0]
  }

  /** Whether this receipt is the first at `k`. */
  predicate IsNew(s: State, j: NodeId, k: NodeId)
    requires (j, k) in s.chan && s.chan[(j, k)] != [] && k in s.received
  {
    Head(s, j, k) !in s.received[k]
  }

  /** Whether this receipt is relayed. */
  predicate IsRelayed(s: State, j: NodeId, k: NodeId)
    requires (j, k) in s.chan && s.chan[(j, k)] != [] && k in s.received
  {
    IsNew(s, j, k) && j != k
  }

  /** What is left on channel `p` once `k` has taken the head of its channel from `j`. */
  function Rest(s: State, j: NodeId, k: NodeId, p: (NodeId, NodeId)): seq<Rid>
    requires (j, k) in s.chan && s.chan[(j, k)] != [] && p in s.chan
  {
    if p == (j, k) then s.chan[p][1..] else s.chan[p]
  }

  lemma DeliverFacts(s: State, j: NodeId, k: NodeId, dests: set<NodeId>, crash: bool)
    requires Shape(s) && Enabled(s, Deliver(j, k, dests, crash))
    ensures var s', r := Delivered(s, j, k, dests, crash), Head(s, j, k);
            && s'.members == s.members && s'.origin == s.origin && s'.chan.Keys == s.chan.Keys
            && s'.received == (if IsNew(s, j, k) then s.received[k := s.received[k] + [r]] else s.received)
            && s'.crashed == (if IsRelayed(s, j, k) && crash then s.crashed + {k} else s.crashed)
            && s'.senders == (if IsRelayed(s, j, k) then s.senders[k := dests] else s.senders)
            && s'.sends == (if IsRelayed(s, j, k) then s.sends[r := s.sends[r] + |dests|] else s.sends)
            && (forall p :: p in s.chan ==>
                  s'.chan[p] == if IsRelayed(s, j, k) && p.0 == k && p.1 in dests then Rest(s, j, k, p) + [r] else Rest(s, j, k, p))
  {
    hide Shape, Reaches;
    if !IsNew(s, j, k) {
    } else if j == k {
    } else {
    }
  }

  /** What a receipt does to the receiver's own tables, whatever nodes a relay reaches. */
  lemma DeliveredTables(s: State, j: NodeId, k: NodeId, dests: set<NodeId>)
    requires (j, k) in s.chan && s.chan[(j, k)] != [] && k in s.received && k in s.senders && Head(s, j, k) < |s.sends|
    ensures var s', r := Delivered(s, j, k, dests, false), Head(s, j, k);
            && k in s'.received && s'.received[k] == (if IsNew(s, j, k) then s.received[k] + [r] else s.received[k])
            && k in s'.senders && s'.senders[k] == (if IsRelayed(s, j, k) then dests else s.senders[k])
  {
    if !IsNew(s, j, k) {
    } else if j == k {
    } else {
    }
  }

  lemma DeliverKeepsShape(s: State, j: NodeId, k: NodeId, dests: set<NodeId>, crash: bool)
    requires Shape(s) && Enabled(s, Deliver(j, k, dests, crash))
    ensures Shape(Delivered(s, j, k, dests, crash))
  {
    hide Delivered;
    DeliverFacts(s, j, k, dests, crash);
  }

  lemma DeliverKeepsGenuine(s: State, j: NodeId, k: NodeId, dests: set<NodeId>, crash: bool)
    requires CanDeliver(s, j, k, dests, crash)
    ensures var s' := Delivered(s, j, k, dests, crash); Shape(s') && Genuine(s')
  {
    hide Delivered, Reliable, FifoInFlight, FifoReceipt, SendsBounded, LiveStay, Reaches, AtMostOnce;
    DeliverFacts(s, j, k, dests, crash);
    DeliverKeepsShape(s, j, k, dests, crash);
    var s' := Delivered(s, j, k, dests, crash);
    assert Head(s, j, k) in s.chan[(j, k)];
    assert Knows(s, j, Head(s, j, k));
    forall p, r | p in s'.chan && r in s'.chan[p]
      ensures Knows(s', p.0, r)
    {
      assert r in s.chan[p] || (p.0 == k && r == Head(s, j, k));
    }
  }

  lemma DeliverKeepsAtMostOnce(s: State, j: NodeId, k: NodeId, dests: set<NodeId>, crash: bool)
    requires CanDeliver(s, j, k, dests, crash)
    ensures var s' := Delivered(s, j, k, dests, crash); Shape(s') && AtMostOnce(s')
  {
    hide Delivered, Reliable, FifoInFlight, FifoReceipt, SendsBounded, LiveStay, Reaches, Genuine, Rest;
    DeliverFacts(s, j, k, dests, crash);
    DeliverKeepsShape(s, j, k, dests, crash);
  }

  lemma DeliverKeepsLiveStay(s: State, j: NodeId, k: NodeId, dests: set<NodeId>, crash: bool)
    requires CanDeliver(s, j, k, dests, crash)
    ensures var s' := Delivered(s, j, k, dests, crash); Shape(s') && LiveStay(s')
  {
    hide Delivered, Reliable, FifoInFlight, FifoReceipt, SendsBounded, Genuine, AtMostOnce;
    DeliverFacts(s, j, k, dests, crash);
    DeliverKeepsShape(s, j, k, dests, crash);
    var s' := Delivered(s, j, k, dests, crash);
    forall a, b | Live(s', a) && Live(s', b)
      ensures b in s'.senders[a]
    {
      assert Live(s, a) && Live(s, b);
      if a == k && IsRelayed(s, j, k) {
        ReachesLive(s, k, dests, b);
      }
    }
  }

  lemma DeliverKeepsReliable(s: State, j: NodeId, k: NodeId, dests: set<NodeId>, crash: bool)
    requires CanDeliver(s, j, k, dests, crash)
    ensures var s' := Delivered(s, j, k, dests, crash); Shape(s') && Reliable(s')
  {
    hide Delivered, FifoInFlight, FifoReceipt, SendsBounded, AtMostOnce;
    DeliverFacts(s, j, k, dests, crash);
    DeliverKeepsShape(s, j, k, dests, crash);
    var s' := Delivered(s, j, k, dests, crash);
    var h := Head(s, j, k);
    assert s.chan[(j, k)] == [h] + s.chan[(j, k)][1..];
    forall a, b, r: Rid | Live(s', a) && Live(s', b) && Knows(s', a, r)
      ensures r in s'.received[b] || r in s'.chan[(a, b)]
    {
      assert Live(s, a) && Live(s, b);
      if Knows(s, a, r) {
        assert r in s.received[b] || r in s.chan[(a, b)];
      } else {
        assert a == k && r == h;
        assert Knows(s, j, h);
        ReachesLive(s, k, dests, b);
      }
    }
  }

  lemma DeliverKeepsFifoReceipt(s: State, j: NodeId, k: NodeId, dests: set<NodeId>, crash: bool)
    requires CanDeliver(s, j, k, dests, crash)
    ensures var s' := Delivered(s, j, k, dests, crash); Shape(s') && FifoReceipt(s')
  {
    hide Delivered, Reliable, SendsBounded, AtMostOnce, LiveStay, Genuine, Reaches;
    DeliverFacts(s, j, k, dests, crash);
    DeliverKeepsShape(s, j, k, dests, crash);
    var s' := Delivered(s, j, k, dests, crash);
    forall n, q, a | n in s.members && 0 <= q < |s'.received[n]| && Earlier(s', a, s'.received[n][q])
      ensures a in s'.received[n][..q]
    {
      var b := s'.received[n][q];
      assert Earlier(s, a, b);
      if q < |s.received[n]| {
        assert s'.received[n][..q] == s.received[n][..q];
      } else {
        assert b == s.chan[(j, k)][0] && n == k;
        assert a in s.received[k];
        assert s'.received[n][..q] == s.received[n];
      }
    }
  }

  /** A copy that stays on its channel keeps its issuer's earlier messages ahead of it or received. */
  lemma RestIsFifo(s: State, j: NodeId, k: NodeId, x: NodeId, y: NodeId, p: nat, a: Rid)
    requires Shape(s) && FifoInFlight(s) && (j, k) in s.chan && s.chan[(j, k)] != [] && x in s.members && Live(s, y)
    requires p < |Rest(s, j, k, (x, y))| && Earlier(s, a, Rest(s, j, k, (x, y))[p])
    ensures a in s.received[y] || a in Rest(s, j, k, (x, y))[..p] || (y == k && a == Head(s, j, k))
  {
    var c := s.chan[(x, y)];
    if (x, y) == (j, k) {
      assert c[p + 1] == Rest(s, j, k, (x, y))[p];
      assert a in s.received[y] || a in c[..p + 1];
      assert c[..p + 1] == [c[0]] + c[1..][..p];
    }
  }

  lemma DeliverKeepsFifoInFlight(s: State, j: NodeId, k: NodeId, dests: set<NodeId>, crash: bool)
    requires CanDeliver(s, j, k, dests, crash)
    ensures var s' := Delivered(s, j, k, dests, crash); Shape(s') && FifoInFlight(s')
  {
    hide Delivered, SendsBounded, AtMostOnce, LiveStay, Genuine, Reaches, FifoReceipt;
    DeliverFacts(s, j, k, dests, crash);
    DeliverKeepsShape(s, j, k, dests, crash);
    var s' := Delivered(s, j, k, dests, crash);
    forall x, y, p, a | x in s.members && Live(s', y) && 0 <= p < |s'.chan[(x, y)]| && Earlier(s', a, s'.chan[(x, y)][p])
      ensures a in s'.received[y] || a in s'.chan[(x, y)][..p]
    {
      var rest := Rest(s, j, k, (x, y));
      assert Earlier(s, a, s'.chan[(x, y)][p]) && Live(s, y);
      if p < |rest| {
        RestIsFifo(s, j, k, x, y, p, a);
        assert s'.chan[(x, y)][..p] == rest[..p];
      } else {
        RelayIsFifo(s, j, k, y, a);
        assert s'.chan[(x, y)][..p] == rest;
      }
    }
  }

  /** A relayed message goes out behind everything its issuer issued before it. */
  lemma RelayIsFifo(s: State, j: NodeId, k: NodeId, y: NodeId, a: Rid)
    requires Shape(s) && FifoInFlight(s) && Reliable(s) && (j, k) in s.chan && s.chan[(j, k)] != []
    requires Live(s, k) && Live(s, y) && j != k && Earlier(s, a, Head(s, j, k))
    ensures a in s.received[y] || a in Rest(s, j, k, (k, y))
  {
    assert a in s.received[k];
    assert Knows(s, k, a);
  }

  /** The head's first receipt at `k` adds `k` to its receivers and nothing else to anyone's. */
  lemma DeliverAddsReceiver(s: State, j: NodeId, k: NodeId, dests: set<NodeId>, crash: bool, r: Rid)
    requires Shape(s) && Enabled(s, Deliver(j, k, dests, crash))
    ensures var s' := Delivered(s, j, k, dests, crash);
            Shape(s') && if IsNew(s, j, k) && r == Head(s, j, k)
                         then Receivers(s', r) == Receivers(s, r) + {k} && k !in Receivers(s, r)
                         else Receivers(s', r) == Receivers(s, r)
  {
    hide Delivered;
    DeliverFacts(s, j, k, dests, crash);
    DeliverKeepsShape(s, j, k, dests, crash);
  }

  lemma DeliverKeepsCost(s: State, j: NodeId, k: NodeId, dests: set<NodeId>, crash: bool, r: Rid)
    requires Shape(s) && SendsBounded(s) && Enabled(s, Deliver(j, k, dests, crash)) && r < |s.sends|
    ensures var s' := Delivered(s, j, k, dests, crash);
            Shape(s') && |s'.sends| == |s.sends| && s'.sends[r] <= |s.members| * (1 + |Receivers(s', r)|)
  {
    hide Delivered, Receivers, Rest;
    DeliverFacts(s, j, k, dests, crash);
    DeliverAddsReceiver(s, j, k, dests, crash, r);
    SubsetSize(dests, s.members);
    ProductGrows(|s.members|, |Receivers(s, r)|);
  }

  lemma DeliverKeepsSendsBounded(s: State, j: NodeId, k: NodeId, dests: set<NodeId>, crash: bool)
    requires CanDeliver(s, j, k, dests, crash)
    ensures var s' := Delivered(s, j, k, dests, crash); Shape(s') && SendsBounded(s')
  {
    hide Delivered, Reliable, AtMostOnce, LiveStay, Genuine, FifoReceipt, FifoInFlight, Receivers, Rest, Reaches;
    DeliverKeepsShape(s, j, k, dests, crash);
    DeliverFacts(s, j, k, dests, crash);
    var s' := Delivered(s, j, k, dests, crash);
    forall r | 0 <= r < |s'.sends|
      ensures s'.sends[r] <= |s.members| * (1 + |Receivers(s', r)|)
    {
      DeliverKeepsCost(s, j, k, dests, crash, r);
    }
  }

  // ---------- Crashes and ejections ----------

  /** A crash, an ejection of a crashed node, or the loss of a crashed node's last messages. */
  ghost predicate IsFailure(a: Action) {
    a.Crash? || a.Eject? || a.Lose?
  }

  lemma FailureKeepsRest(s: State, a: Action)
    requires Inv(s) && IsFailure(a) && Enabled(s, a)
    ensures var s' := Step(s, a); Shape(s') && Genuine(s') && AtMostOnce(s') && FifoReceipt(s') && SendsBounded(s')
  {
    hide Reliable, FifoInFlight, LiveStay;
    var s' := Step(s, a);
    assert forall p, r :: p in s'.chan && r in s'.chan[p] ==> r in s.chan[p];
    forall r | 0 <= r < |s.sends|
      ensures Receivers(s', r) == Receivers(s, r)
    {
    }
    forall k, q, b | k in s.members && 0 <= q < |s'.received[k]| && Earlier(s', b, s'.received[k][q])
      ensures b in s'.received[k][..q]
    {
      assert Earlier(s, b, s.received[k][q]);
    }
  }

  lemma FailureKeepsReliable(s: State, a: Action)
    requires Inv(s) && IsFailure(a) && Enabled(s, a)
    ensures var s' := Step(s, a); Shape(s') && LiveStay(s') && Reliable(s')
  {
    hide FifoInFlight, FifoReceipt, SendsBounded, AtMostOnce, Genuine;
    var s' := Step(s, a);
    forall j, k | Live(s', j) && Live(s', k)
      ensures k in s'.senders[j]
    {
      assert Live(s, j) && Live(s, k);
    }
    forall j, k, r: Rid | Live(s', j) && Live(s', k) && Knows(s', j, r)
      ensures r in s'.received[k] || r in s'.chan[(j, k)]
    {
      assert Live(s, j) && Live(s, k) && Knows(s, j, r);
    }
  }

  lemma FailureKeepsFifoInFlight(s: State, a: Action)
    requires Inv(s) && IsFailure(a) && Enabled(s, a)
    ensures var s' := Step(s, a); Shape(s') && FifoInFlight(s')
  {
    hide FifoReceipt, SendsBounded, AtMostOnce, Genuine, LiveStay, Reliable;
    var s' := Step(s, a);
    forall j, k, p, b | j in s.members && Live(s', k) && 0 <= p < |s'.chan[(j, k)]| && Earlier(s', b, s'.chan[(j, k)][p])
      ensures b in s'.received[k] || b in s'.chan[(j, k)][..p]
    {
      assert Live(s, k) && s'.chan[(j, k)][p] == s.chan[(j, k)][p];
      assert Earlier(s, b, s.chan[(j, k)][p]);
      assert s'.chan[(j, k)][..p] == s.chan[(j, k)][..p];
    }
  }

  // ---------- Every step ----------

  lemma StepKeepsInv(s: State, a: Action)
    requires Inv(s) && Enabled(s, a)
    ensures Inv(Step(s, a))
  {
    hide Shape, Genuine, AtMostOnce, LiveStay, Reliable, FifoInFlight, FifoReceipt, SendsBounded, Issued, Delivered;
    match a
    case Issue(o, dests, crash) =>
      IssueKeepsGenuine(s, o, dests, crash);
      IssueKeepsReliable(s, o, dests, crash);
      IssueKeepsFifoInFlight(s, o, dests, crash);
      IssueKeepsRest(s, o, dests, crash);
    case Deliver(j, k, dests, crash) =>
      DeliverKeepsGenuine(s, j, k, dests, crash);
      DeliverKeepsAtMostOnce(s, j, k, dests, crash);
      DeliverKeepsLiveStay(s, j, k, dests, crash);
      DeliverKeepsReliable(s, j, k, dests, crash);
      DeliverKeepsFifoReceipt(s, j, k, dests, crash);
      DeliverKeepsFifoInFlight(s, j, k, dests, crash);
      DeliverKeepsSendsBounded(s, j, k, dests, crash);
    case _ =>
      FailureKeepsRest(s, a);
      FailureKeepsReliable(s, a);
      FailureKeepsFifoInFlight(s, a);
  }
}
