/** What every run of the simulator counts, whatever order copies are sent and handled in. */
module SimulatorRuns {
  import opened Simulator
  import opened Sums

  datatype Act = Send(c: Channel) | Take(c: Channel)

  predicate Can(s: Sim, a: Act) {
    match a
    case Send(c) => Ready(s, c)
    case Take(c) => Waiting(s, c)
  }

  function Do(s: Sim, n: nat, a: Act): Sim
    requires Can(s, a)
  {
    match a
    case Send(c) => Put(s, c)
    case Take(c) => Handled(s, n, c)
  }

  /** A run: `src` sets out to send one body to everyone; then copies are sent one by one and handled, in any order. */
  ghost predicate IsRun(n: nat, src: nat, body: string, states: seq<Sim>, acts: seq<Act>) {
    && |states| == |acts| + 1
    && states[0] == Owing(Fresh(n), src, Below(n), body)
    && forall k :: 0 <= k < |acts| ==> Can(states[k], acts[k]) && states[k + 1] == Do(states[k], n, acts[k])
  }

  /** Everything has been sent and handled. */
  ghost predicate Quiet(s: Sim) {
    (forall c :: c in s.owed ==> s.owed[c] == []) && forall c :: c in s.chan ==> s.chan[c] == []
  }

  /** The channels copies were taken from, in turn. */
  function Takes(acts: seq<Act>): (taken: seq<Channel>)
    ensures |taken| <= |acts|
  {
    if acts == [] then [] else
      Takes(acts[..|acts| - 1]) + if acts[|acts| - 1].Take? then [acts[|acts| - 1].c] else []
  }

  ghost function Reached(taken: seq<Channel>): set<nat> {
    set k | 0 <= k < |taken| :: taken[k].target
  }

  /** Whether handling a copy from `c`, after `taken`, passes it on: it is the node's first, and from somebody else. */
  ghost predicate Relays(taken: seq<Channel>, c: Channel) {
    c.target !in Reached(taken) && c.source != c.target
  }

  ghost function Relayers(taken: seq<Channel>): set<nat> {
    if taken == [] then {} else
      var front, c := taken[..|taken| - 1], taken[|taken| - 1];
      Relayers(front) + if Relays(front, c) then {c.target} else {}
  }

  /** How many copies ever go onto channel `c`: one if `src` sends to everyone, one if `c.source` passes it on to `c.target`. */
  function CopiesDue(src: nat, relayers: set<nat>, c: Channel): nat {
    (if c.source == src then 1 else 0) + if c.source in relayers && c.source < c.target then 1 else 0
  }

  /** How many copies each relayer sends. */
  function Fans(n: nat, relayers: set<nat>): map<nat, nat> {
    map i | i in relayers :: if i < n then n - 1 - i else 0
  }

  ghost function Sends(n: nat, taken: seq<Channel>): nat {
    n + Total(Fans(n, Relayers(taken)))
  }

  function Lengths(copies: Copies): map<Channel, nat> {
    map c | c in copies :: |copies[c]|
  }

  // ---------- What every state of a run keeps ----------

  ghost predicate AllAre(copies: Copies, body: string) {
    forall c, m :: c in copies && m in copies[c] ==> m == Msg(body, c.source)
  }

  ghost predicate Known(n: nat, body: string, s: Sim, taken: seq<Channel>) {
    && s.received.Keys == Below(n) && s.chan.Keys == Channels(n) && s.owed.Keys == Channels(n)
    && Relayers(taken) <= Reached(taken) <= Below(n)
    && (forall i :: i in s.received ==> s.received[i] == if i in Reached(taken) then {body} else {})
    && (forall c :: c in taken ==> c in s.chan)
    && AllAre(s.chan, body) && AllAre(s.owed, body)
  }

  ghost predicate CopiesAddUp(src: nat, s: Sim, taken: seq<Channel>) {
    forall c :: c in s.chan && c in s.owed ==>
      |s.owed[c]| + |s.chan[c]| + multiset(taken)[c] == CopiesDue(src, Relayers(taken), c)
  }

  /** `sent` copies have been sent and counted. */
  ghost predicate SendsAddUp(n: nat, s: Sim, taken: seq<Channel>, sent: int) {
    && s.counter == Wrap32(sent)
    && Total(Lengths(s.owed)) + sent == Sends(n, taken)
    && Total(Lengths(s.chan)) + |taken| == sent
  }

  ghost predicate Inv(n: nat, src: nat, body: string, s: Sim, acts: seq<Act>) {
    var taken := Takes(acts);
    Known(n, body, s, taken) && CopiesAddUp(src, s, taken) && SendsAddUp(n, s, taken, |acts| - |taken|)
  }

  /** The channels from `i` to `dests`. */
  function Row(i: nat, dests: set<nat>): set<Channel> {
    set j | j in dests :: Channel(i, j)
  }

  lemma {:induction false} RowSize(i: nat, dests: set<nat>)
    ensures |Row(i, dests)| == |dests|
    decreases |dests|
  {
    if dests != {} {
      var j :| j in dests;
      RowSize(i, dests - {j});
      assert Row(i, dests) == Row(i, dests - {j}) + {Channel(i, j)};
    }
  }

  lemma RowStays(n: nat, i: nat, dests: set<nat>)
    requires i < n && dests <= Below(n)
    ensures Row(i, dests) <= Channels(n)
    ensures forall c :: c in Channels(n) ==> (c in Row(i, dests) <==> c.source == i && c.target in dests)
  {
  }

  lemma HigherSize(n: nat, i: nat)
    requires i < n
    ensures |Higher(n, i)| == n - 1 - i && Higher(n, i) <= Below(n)
  {
    assert Below(n) == Higher(n, i) + Below(i + 1);
  }

  lemma LengthsAppended(copies: Copies, n: nat, i: nat, dests: set<nat>, body: string)
    requires copies.Keys == Channels(n) && i < n && dests <= Below(n)
    ensures Total(Lengths(Appended(copies, i, dests, body))) == Total(Lengths(copies)) + |dests|
  {
    hide Row, Channels, Below;
    RowSize(i, dests);
    RowStays(n, i, dests);
    TotalGrown(Lengths(copies), Lengths(Appended(copies, i, dests, body)), Row(i, dests));
  }

  lemma LengthsShortened(copies: Copies, c: Channel)
    requires c in copies && copies[c] != []
    ensures Total(Lengths(copies[c := copies[c][1..]])) == Total(Lengths(copies)) - 1
  {
    TotalUpdated(Lengths(copies), c, |copies[c]| - 1);
    assert Lengths(copies[c := copies[c][1..]]) == Lengths(copies)[c := |copies[c]| - 1];
  }

  lemma LengthsExtended(copies: Copies, c: Channel, m: Msg)
    requires c in copies
    ensures Total(Lengths(copies[c := copies[c] + [m]])) == Total(Lengths(copies)) + 1
  {
    TotalUpdated(Lengths(copies), c, |copies[c]| + 1);
    assert Lengths(copies[c := copies[c] + [m]]) == Lengths(copies)[c := |copies[c]| + 1];
  }

  lemma StartKnown(n: nat, src: nat, body: string)
    requires src < n
    ensures var s := Owing(Fresh(n), src, Below(n), body); Known(n, body, s, []) && CopiesAddUp(src, s, [])
  {
    hide Channels, Below;
  }

  lemma StartInv(n: nat, src: nat, body: string)
    requires src < n
    ensures Inv(n, src, body, Owing(Fresh(n), src, Below(n), body), [])
  {
    hide Channels, Below, Known, CopiesAddUp, Appended;
    var none := NoCopies(Channels(n));
    StartKnown(n, src, body);
    var s := Owing(Fresh(n), src, Below(n), body);
    TotalZero(Lengths(none));
    assert Total(Lengths(none)) == 0;
    BelowSize(n);
    LengthsAppended(none, n, src, Below(n), body);
    assert Fans(n, {}) == map[];
    assert Sends(n, []) == n && Takes([]) == [];
    assert s.owed == Appended(none, src, Below(n), body) && s.chan == none && s.counter == 0 == Wrap32(0);
  }

  lemma BelowSize(n: nat)
    ensures |Below(n)| == n && forall i: nat :: i in Below(n) <==> i < n
    ensures forall c :: c in Channels(n) <==> c.source < n && c.target < n
  {
  }

  lemma AddedTake(taken: seq<Channel>, c: Channel)
    ensures Reached(taken + [c]) == Reached(taken) + {c.target}
    ensures Relayers(taken + [c]) == Relayers(taken) + if Relays(taken, c) then {c.target} else {}
    ensures multiset(taken + [c]) == multiset(taken) + multiset{c}
  {
    var more := taken + [c];
    assert more[..|taken|] == taken;
    forall i | i in Reached(taken) + {c.target}
      ensures i in Reached(more)
    {
      if i == c.target {
        assert more[|taken|].target == i;
      } else {
        var k :| 0 <= k < |taken| && taken[k].target == i;
        assert more[k].target == i;
      }
    }
  }

  // ---------- Sending a copy ----------

  lemma PutKeepsKnown(n: nat, body: string, s: Sim, taken: seq<Channel>, c: Channel)
    requires Known(n, body, s, taken) && Ready(s, c)
    ensures Known(n, body, Put(s, c), taken)
  {
    hide Reached, Relayers, Channels, Below, Wrap32;
    var s' := Put(s, c);
    assert s.owed[c][0] in s.owed[c];
    forall d, m | d in s'.chan && m in s'.chan[d]
      ensures m == Msg(body, d.source)
    {
      assert m in s.chan[d] || (d == c && m == s.owed[c][0]);
    }
    forall d, m | d in s'.owed && m in s'.owed[d]
      ensures m == Msg(body, d.source)
    {
      assert m in s.owed[d];
    }
  }

  lemma PutKeepsCopies(src: nat, s: Sim, taken: seq<Channel>, c: Channel)
    requires CopiesAddUp(src, s, taken) && Ready(s, c)
    ensures CopiesAddUp(src, Put(s, c), taken)
  {
    hide Relayers, Wrap32;
  }

  lemma PutKeepsSends(n: nat, s: Sim, taken: seq<Channel>, sent: int, c: Channel)
    requires SendsAddUp(n, s, taken, sent) && Ready(s, c)
    ensures SendsAddUp(n, Put(s, c), taken, sent + 1)
  {
    hide Lengths, Sends, Wrap32;
    WrapTwice(sent, 1);
    LengthsShortened(s.owed, c);
    LengthsExtended(s.chan, c, s.owed[c][0]);
  }

  // ---------- Handling a copy ----------

  /** What a copy taken off channel `c` finds. */
  lemma HeadFacts(n: nat, body: string, s: Sim, taken: seq<Channel>, c: Channel)
    requires Known(n, body, s, taken) && Waiting(s, c)
    ensures s.chan[c][0] == Msg(body, c.source) && s.received[c.target] == (if c.target in Reached(taken) then {body} else {})
    ensures c.target < n && c in s.chan && s.owed.Keys == Channels(n) && Relayers(taken) <= Reached(taken)
  {
    assert s.chan[c][0] in s.chan[c];
  }

  /** The three cases of handling a copy. */
  lemma HandledFacts(n: nat, body: string, s: Sim, taken: seq<Channel>, c: Channel)
    requires Waiting(s, c) && s.chan[c][0] == Msg(body, c.source)
    requires s.received[c.target] == if c.target in Reached(taken) then {body} else {}
    ensures var s', relay := Handled(s, n, c), Relays(taken, c);
            && s'.received == s.received[c.target := {body}] && s'.counter == s.counter
            && s'.chan == s.chan[c := s.chan[c][1..]]
            && s'.owed == if relay then Appended(s.owed, c.target, Higher(n, c.target), body) else s.owed
  {
    hide Reached, Higher, Appended;
    if c.target in Reached(taken) {
      assert s.received[c.target := {body}] == s.received;
    } else {
      assert s.received[c.target] + {body} == {body};
    }
  }

  lemma HandledKeepsKnown(n: nat, body: string, s: Sim, taken: seq<Channel>, c: Channel)
    requires Known(n, body, s, taken) && Waiting(s, c)
    ensures Known(n, body, Handled(s, n, c), taken + [c])
  {
    hide Handled, Channels, Below, Reached, Relayers, Higher;
    HeadFacts(n, body, s, taken, c);
    HandledFacts(n, body, s, taken, c);
    AddedTake(taken, c);
    var s' := Handled(s, n, c);
    forall d, m | d in s'.chan && m in s'.chan[d]
      ensures m == Msg(body, d.source)
    {
      assert m in s.chan[d];
    }
    forall d, m | d in s'.owed && m in s'.owed[d]
      ensures m == Msg(body, d.source)
    {
      assert m in s.owed[d] || m == Msg(body, d.source);
    }
  }

  lemma HandledKeepsCopies(n: nat, src: nat, body: string, s: Sim, taken: seq<Channel>, c: Channel)
    requires Known(n, body, s, taken) && Waiting(s, c) && CopiesAddUp(src, s, taken)
    ensures CopiesAddUp(src, Handled(s, n, c), taken + [c])
  {
    hide Handled, Channels, Below, Reached, Relayers, Known, Higher;
    HeadFacts(n, body, s, taken, c);
    HandledFacts(n, body, s, taken, c);
    AddedTake(taken, c);
    HigherIds(n, c.target);
    BelowSize(n);
  }

  lemma HigherIds(n: nat, i: nat)
    ensures forall j: nat :: j in Higher(n, i) <==> i < j < n
  {
  }

  lemma HandledKeepsSends(n: nat, body: string, s: Sim, taken: seq<Channel>, sent: int, c: Channel)
    requires Known(n, body, s, taken) && Waiting(s, c) && SendsAddUp(n, s, taken, sent)
    ensures SendsAddUp(n, Handled(s, n, c), taken + [c], sent)
  {
    hide Handled, Channels, Below, Wrap32, Reached, Relayers, Known, Higher, Fans, Lengths, Appended;
    HeadFacts(n, body, s, taken, c);
    HandledFacts(n, body, s, taken, c);
    AddedTake(taken, c);
    LengthsShortened(s.chan, c);
    if Relays(taken, c) {
      HigherSize(n, c.target);
      LengthsAppended(s.owed, n, c.target, Higher(n, c.target), body);
      FansGrow(n, Relayers(taken), c.target);
    } else {
      assert Relayers(taken + [c]) == Relayers(taken);
    }
  }

  lemma FansGrow(n: nat, relayers: set<nat>, i: nat)
    requires i !in relayers && i < n
    ensures Total(Fans(n, relayers + {i})) == Total(Fans(n, relayers)) + n - 1 - i
  {
    var fans := Fans(n, relayers + {i});
    TotalWithout(fans, i);
    assert fans - {i} == Fans(n, relayers);
  }

  lemma TakesSnoc(acts: seq<Act>, a: Act)
    ensures Takes(acts + [a]) == Takes(acts) + if a.Take? then [a.c] else []
  {
    assert (acts + [a])[..|acts|] == acts;
  }

  lemma DoKeepsInv(n: nat, src: nat, body: string, s: Sim, acts: seq<Act>, a: Act)
    requires Inv(n, src, body, s, acts) && Can(s, a)
    ensures Inv(n, src, body, Do(s, n, a), acts + [a])
  {
    hide Known, CopiesAddUp, SendsAddUp, Handled, Put, Takes;
    TakesSnoc(acts, a);
    var taken := Takes(acts);
    assert taken + [] == taken;
    match a
    case Send(c) =>
      PutKeepsKnown(n, body, s, taken, c);
      PutKeepsCopies(src, s, taken, c);
      PutKeepsSends(n, s, taken, |acts| - |taken|, c);
    case Take(c) =>
      HandledKeepsKnown(n, body, s, taken, c);
      HandledKeepsCopies(n, src, body, s, taken, c);
      HandledKeepsSends(n, body, s, taken, |acts| - |taken|, c);
  }

  lemma {:induction false} RunInv(n: nat, src: nat, body: string, states: seq<Sim>, acts: seq<Act>, k: nat)
    requires src < n && IsRun(n, src, body, states, acts) && k <= |acts|
    ensures Inv(n, src, body, states[k], acts[..k])
  {
    hide Inv, Do, Can, Owing, Fresh;
    if k == 0 {
      StartInv(n, src, body);
    } else {
      RunInv(n, src, body, states, acts, k - 1);
      DoKeepsInv(n, src, body, states[k - 1], acts[..k - 1], acts[k - 1]);
      assert acts[..k] == acts[..k - 1] + [acts[k - 1]];
    }
  }

  // ---------- Results ----------

  /** The first copy `i` handled came from somebody else. */
  ghost predicate FirstFromAnother(taken: seq<Channel>, i: nat) {
    exists k :: 0 <= k < |taken| && taken[k].target == i && taken[k].source != i && i !in Reached(taken[..k])
  }

  lemma {:induction false} RelayersAre(taken: seq<Channel>, i: nat)
    ensures i in Relayers(taken) <==> FirstFromAnother(taken, i)
  {
    if taken != [] {
      var last := |taken| - 1;
      var front := taken[..last];
      RelayersAre(front, i);
      forall k | 0 <= k <= last
        ensures taken[..k] == front[..k]
      {
      }
      if FirstFromAnother(taken, i) {
        var k :| 0 <= k < |taken| && taken[k].target == i && taken[k].source != i && i !in Reached(taken[..k]);
        if k < last {
          assert front[k] == taken[k];
        }
      }
      if FirstFromAnother(front, i) {
        var k :| 0 <= k < |front| && front[k].target == i && front[k].source != i && i !in Reached(front[..k]);
        assert taken[k] == front[k];
      }
      if Relays(front, taken[last]) && i == taken[last].target {
        assert taken[..last] == front;
      }
    }
  }

  lemma BelowGrows(n: nat, k: nat)
    ensures Fans(n, Below(0)) == map[] && (k > 0 ==> Below(k) == Below(k - 1) + {k - 1} && k - 1 !in Below(k - 1))
  {
  }

  /** Twice the copies sent when everybody relays. */
  lemma {:induction false} AllFans(n: nat, k: nat)
    requires k <= n
    ensures 2 * Total(Fans(n, Below(k))) == k * (2 * n - 1 - k)
  {
    hide Fans, Below;
    BelowGrows(n, k);
    if k > 0 {
      AllFans(n, k - 1);
      FansGrow(n, Below(k - 1), k - 1);
      HalfProduct(n, k);
    }
  }

  lemma HalfProduct(n: int, k: int)
    ensures (k - 1) * (2 * n - 1 - (k - 1)) + 2 * (n - k) == k * (2 * n - 1 - k)
  {
    assert (k - 1) * (2 * n - k) == k * (2 * n - k) - (2 * n - k);
    assert k * (2 * n - 1 - k) == k * (2 * n - k) - k;
  }

  /** What a whole run sends: N by the source and one copy for each pair, except those the source does not pass on. */
  function CopiesSent(n: nat, src: nat, sourceRelays: bool): int
    requires src < n
  {
    n + n * (n - 1) / 2 - if sourceRelays then 0 else n - 1 - src
  }

  lemma {:induction false} FansAtMost(n: nat, relayers: set<nat>, all: set<nat>)
    requires relayers <= all && forall i :: i in all ==> i < n
    ensures Total(Fans(n, relayers)) <= Total(Fans(n, all))
    decreases |all - relayers|
  {
    if relayers != all {
      assert all - relayers != {} by {
        assert all == relayers + (all - relayers);
      }
      var i :| i in all - relayers;
      FansGrow(n, relayers, i);
      assert all - (relayers + {i}) == all - relayers - {i};
      FansAtMost(n, relayers + {i}, all);
    }
  }

  lemma AllFansTotal(n: nat)
    requires n > 0
    ensures Total(Fans(n, Below(n))) == n * (n - 1) / 2
  {
    AllFans(n, n);
  }

  lemma BelowAre(n: nat)
    ensures forall i :: i in Below(n) <==> 0 <= i < n
  {
  }

  lemma KnownRelayers(n: nat, body: string, s: Sim, taken: seq<Channel>)
    requires Known(n, body, s, taken)
    ensures Relayers(taken) <= Reached(taken) <= Below(n) && s.chan.Keys == Channels(n) && s.owed.Keys == Channels(n)
    ensures forall i :: i in Below(n) ==> i in s.received && s.received[i] == if i in Reached(taken) then {body} else {}
  {
  }

  lemma SendsAtMost(n: nat, body: string, s: Sim, taken: seq<Channel>)
    requires n > 0 && Known(n, body, s, taken)
    ensures Sends(n, taken) <= n + n * (n - 1) / 2
  {
    hide Known, Relayers, Reached, Fans, Below;
    KnownRelayers(n, body, s, taken);
    BelowAre(n);
    FansAtMost(n, Relayers(taken), Below(n));
    AllFansTotal(n);
  }

  /** No run sends or handles more copies than this. */
  lemma RunsAreShort(n: nat, src: nat, body: string, states: seq<Sim>, acts: seq<Act>)
    requires src < n && IsRun(n, src, body, states, acts)
    ensures |Takes(acts)| <= |acts| - |Takes(acts)| <= n + n * (n - 1) / 2
  {
    hide Do, Can, Owing, Fresh, Known, CopiesAddUp, Takes, Sends;
    RunInv(n, src, body, states, acts, |acts|);
    assert acts[..|acts|] == acts;
    SendsAtMost(n, body, states[|acts|], Takes(acts));
  }

  /** No channel ever holds more than two copies, so no send waits for room on one. */
  lemma ChannelsNeverFill(n: nat, src: nat, body: string, states: seq<Sim>, acts: seq<Act>, k: nat)
    requires src < n && IsRun(n, src, body, states, acts) && k <= |acts|
    ensures forall c :: c in states[k].chan ==> |states[k].chan[c]| <= 2
  {
    hide Do, Can, Owing, Fresh, SendsAddUp, Relayers, Reached, Takes;
    RunInv(n, src, body, states, acts, k);
  }

  /** Until everything has been sent and handled, something can be. */
  lemma CanGoOn(n: nat, src: nat, body: string, states: seq<Sim>, acts: seq<Act>) returns (a: Act)
    requires src < n && IsRun(n, src, body, states, acts) && !Quiet(states[|acts|])
    ensures Can(states[|acts|], a)
  {
    hide Do, Owing, Fresh, SendsAddUp, CopiesAddUp, Relayers, Reached, Takes;
    RunInv(n, src, body, states, acts, |acts|);
    BelowSize(n);
    var s := states[|acts|];
    if c :| c in s.owed && s.owed[c] != [] {
      a := Send(c);
    } else {
      var c :| c in s.chan && s.chan[c] != [];
      a := Take(c);
    }
  }

  /** Every run can be continued until everything has been sent and handled. */
  lemma {:induction false} RunsCanEnd(n: nat, src: nat, body: string, states: seq<Sim>, acts: seq<Act>)
    returns (allStates: seq<Sim>, allActs: seq<Act>)
    requires src < n && IsRun(n, src, body, states, acts)
    ensures IsRun(n, src, body, allStates, allActs) && acts <= allActs && Quiet(allStates[|allActs|])
    decreases 2 * (n + n * (n - 1) / 2) - |acts|
  {
    hide Do, Can, Owing, Fresh, Quiet, Takes;
    RunsAreShort(n, src, body, states, acts);
    if Quiet(states[|acts|]) {
      allStates, allActs := states, acts;
    } else {
      var a := CanGoOn(n, src, body, states, acts);
      var more, moreActs := states + [Do(states[|acts|], n, a)], acts + [a];
      forall k | 0 <= k < |moreActs|
        ensures Can(more[k], moreActs[k]) && more[k + 1] == Do(more[k], n, moreActs[k])
      {
        assert more[k] == states[k];
      }
      RunsAreShort(n, src, body, more, moreActs);
      allStates, allActs := RunsCanEnd(n, src, body, more, moreActs);
    }
  }

  /** At rest every node has handled a copy, and everyone but the source has passed one on. */
  lemma RestReachesAll(n: nat, src: nat, body: string, s: Sim, taken: seq<Channel>)
    requires src < n && Known(n, body, s, taken) && CopiesAddUp(src, s, taken) && Quiet(s)
    ensures Reached(taken) == Below(n) && Relayers(taken) + {src} == Below(n)
  {
    hide Known, Reached, Relayers, CopiesAddUp, Below, Quiet;
    KnownRelayers(n, body, s, taken);
    BelowAre(n);
    forall j | j in Below(n)
      ensures j in Reached(taken) && (j != src ==> j in Relayers(taken))
    {
      RestReaches(n, src, s, taken, j);
    }
  }

  lemma RestReaches(n: nat, src: nat, s: Sim, taken: seq<Channel>, j: nat)
    requires src < n && j < n && s.chan.Keys == Channels(n) && s.owed.Keys == Channels(n)
    requires CopiesAddUp(src, s, taken) && Quiet(s)
    ensures j in Reached(taken) && (j != src ==> j in Relayers(taken))
  {
    hide Relayers;
    assert Channel(src, j) in s.chan && Channel(j, j) in s.chan;
    assert Channel(src, j) in taken;
    if j != src {
      assert CopiesDue(src, Relayers(taken), Channel(j, j)) == 0;
      assert Channel(j, j) !in multiset(taken);
      NotAloneRelays(taken, j);
    }
  }

  /** A node reached by others only has passed its copy on. */
  lemma {:induction false} NotAloneRelays(taken: seq<Channel>, j: nat)
    requires j in Reached(taken) && Channel(j, j) !in taken
    ensures j in Relayers(taken)
  {
    hide Reached;
    if taken == [] {
      ReachedNone(j);
    } else {
      var front, c := taken[..|taken| - 1], taken[|taken| - 1];
      assert taken == front + [c];
      AddedTake(front, c);
      if j in Reached(front) {
        NotAloneRelays(front, j);
      } else {
        assert c in taken && c != Channel(j, j);
      }
    }
  }

  lemma ReachedNone(j: nat)
    ensures j !in Reached([])
  {
  }

  /** Whatever the order of sending and handling, at rest every node has the body and the counter shows the copies sent. */
  lemma RestCounts(n: nat, src: nat, body: string, states: seq<Sim>, acts: seq<Act>)
    requires src < n && IsRun(n, src, body, states, acts) && Quiet(states[|acts|])
    ensures forall i :: 0 <= i < n ==> i in states[|acts|].received && states[|acts|].received[i] == {body}
    ensures |Takes(acts)| == |acts| - |Takes(acts)| == CopiesSent(n, src, FirstFromAnother(Takes(acts), src))
    ensures states[|acts|].counter == Wrap32(|Takes(acts)|)
  {
    hide Do, Can, Owing, Fresh, Known, CopiesAddUp, Relayers, Reached, Fans, Below, FirstFromAnother, Wrap32, Takes, CopiesSent;
    var s, taken := states[|acts|], Takes(acts);
    RunInv(n, src, body, states, acts, |acts|);
    assert acts[..|acts|] == acts;
    KnownRelayers(n, body, s, taken);
    RestReachesAll(n, src, body, s, taken);
    BelowAre(n);
    TotalZero(Lengths(s.chan));
    TotalZero(Lengths(s.owed));
    RelayersAre(taken, src);
    RestFans(n, src, Relayers(taken));
  }

  lemma RestFans(n: nat, src: nat, relayers: set<nat>)
    requires src < n && relayers + {src} == Below(n)
    ensures n + Total(Fans(n, relayers)) == CopiesSent(n, src, src in relayers)
  {
    hide Fans;
    AllFansTotal(n);
    if src in relayers {
      assert relayers == Below(n);
    } else {
      FansGrow(n, relayers, src);
    }
  }

  /** The source passes nothing on unless some node below it can send to it. */
  lemma LowestSourceNeverRelays(n: nat, src: nat, body: string, states: seq<Sim>, acts: seq<Act>)
    requires src < n && IsRun(n, src, body, states, acts) && FirstFromAnother(Takes(acts), src)
    ensures src > 0
  {
    hide Do, Can, Owing, Fresh, SendsAddUp, Relayers, Takes;
    var taken := Takes(acts);
    RunInv(n, src, body, states, acts, |acts|);
    assert acts[..|acts|] == acts;
    var k :| 0 <= k < |taken| && taken[k].target == src && taken[k].source != src;
    TakenIsDue(n, src, body, states[|acts|], taken, taken[k]);
  }

  /** Only copies due are ever taken. */
  lemma TakenIsDue(n: nat, src: nat, body: string, s: Sim, taken: seq<Channel>, c: Channel)
    requires Known(n, body, s, taken) && CopiesAddUp(src, s, taken) && c in taken
    ensures c.source == src || c.source < c.target
  {
    hide Relayers, Reached, Channels, Below, AllAre;
    assert c in s.chan && c in s.owed;
    assert multiset(taken)[c] > 0;
  }

  // ---------- Either way can happen ----------

  lemma Continues(n: nat, src: nat, body: string, states: seq<Sim>, acts: seq<Act>, a: Act)
    returns (more: seq<Sim>, moreActs: seq<Act>)
    requires IsRun(n, src, body, states, acts) && Can(states[|acts|], a)
    ensures moreActs == acts + [a] && |more| == |moreActs| + 1 && IsRun(n, src, body, more, moreActs)
    ensures more[|moreActs|] == Do(states[|acts|], n, a)
    ensures Takes(moreActs) == Takes(acts) + if a.Take? then [a.c] else []
  {
    hide Do, Can, Takes, Owing, Fresh;
    more, moreActs := states + [Do(states[|acts|], n, a)], acts + [a];
    forall k | 0 <= k < |moreActs|
      ensures Can(more[k], moreActs[k]) && more[k + 1] == Do(more[k], n, moreActs[k])
    {
      assert more[k] == states[k];
    }
    TakesSnoc(acts, a);
  }

  lemma StartOwes(n: nat, src: nat, body: string)
    requires src < n
    ensures var s := Owing(Fresh(n), src, Below(n), body);
            && (forall i: nat :: i < n ==> i in s.received && s.received[i] == {})
            && (forall c: Channel :: c.source < n && c.target < n ==>
                  c in s.owed && c in s.chan && s.chan[c] == [] && s.owed[c] == if c.source == src then [Msg(body, src)] else [])
  {
    BelowAre(n);
  }

  /** Any source may handle its own copy first, and then passes nothing on. */
  lemma SourceMayKeepIt(n: nat, src: nat, body: string) returns (states: seq<Sim>, acts: seq<Act>)
    requires src < n
    ensures IsRun(n, src, body, states, acts) && src in Reached(Takes(acts)) && !FirstFromAnother(Takes(acts), src)
  {
    hide IsRun, Handled, Owing, Fresh, Below, Channels, Takes, Wrap32;
    var own := Channel(src, src);
    StartOwes(n, src, body);
    StartIsRun(n, src, body);
    states, acts := [Owing(Fresh(n), src, Below(n), body)], [];
    states, acts := Continues(n, src, body, states, acts, Send(own));
    states, acts := Continues(n, src, body, states, acts, Take(own));
    assert Takes(acts) == [own];
    assert [own][0].target == src;
  }

  lemma StartIsRun(n: nat, src: nat, body: string)
    ensures IsRun(n, src, body, [Owing(Fresh(n), src, Below(n), body)], []) && Takes([]) == []
  {
  }

  /** The source sends to itself and to node 0, which handles its copy before anything else is. */
  lemma SendsDown(n: nat, src: nat, body: string) returns (states: seq<Sim>, acts: seq<Act>)
    requires 0 < src < n
    ensures IsRun(n, src, body, states, acts) && Takes(acts) == [Channel(src, 0)]
    ensures var s, up := states[|acts|], Channel(0, src);
            up in s.owed && s.owed[up] == [Msg(body, 0)] && up in s.chan && src in s.received
  {
    hide IsRun, Handled, Owing, Fresh, Below, Channels, Takes, Wrap32;
    var own, down, up := Channel(src, src), Channel(src, 0), Channel(0, src);
    StartOwes(n, src, body);
    StartIsRun(n, src, body);
    states, acts := [Owing(Fresh(n), src, Below(n), body)], [];
    states, acts := Continues(n, src, body, states, acts, Send(own));
    states, acts := Continues(n, src, body, states, acts, Send(down));
    var s := states[|acts|];
    assert s.chan[down] == [Msg(body, src)];
    HandledFacts(n, body, s, [], down);
    states, acts := Continues(n, src, body, states, acts, Take(down));
    BelowAre(n);
    assert states[|acts|].owed[up] == [Msg(body, 0)];
    assert Takes(acts) == [down];
  }

  /** Any but the lowest may get it from another first, and then passes it on. */
  lemma SourceMayRelay(n: nat, src: nat, body: string) returns (states: seq<Sim>, acts: seq<Act>)
    requires 0 < src < n
    ensures IsRun(n, src, body, states, acts) && FirstFromAnother(Takes(acts), src)
  {
    hide IsRun, Handled, Takes, Wrap32;
    var down, up := Channel(src, 0), Channel(0, src);
    states, acts := SendsDown(n, src, body);
    states, acts := Continues(n, src, body, states, acts, Send(up));
    states, acts := Continues(n, src, body, states, acts, Take(up));
    assert Takes(acts) == [down, up];
    assert [down, up][..1] == [down];
    assert [down, up][1].target == src && src !in Reached([down]);
  }

  // ---------- The program's runs ----------

  function SendActs(sent: seq<Channel>): (acts: seq<Act>)
    ensures |acts| == |sent|
  {
    if sent == [] then [] else SendActs(sent[..|sent| - 1]) + [Send(sent[|sent| - 1])]
  }

  /** Sends continue a run. */
  lemma {:induction false} PutsContinue(n: nat, src: nat, body: string, states: seq<Sim>, acts: seq<Act>, sent: seq<Channel>)
    returns (more: seq<Sim>, moreActs: seq<Act>)
    requires IsRun(n, src, body, states, acts) && CanPuts(states[|acts|], sent)
    ensures moreActs == acts + SendActs(sent) && |more| == |moreActs| + 1 && IsRun(n, src, body, more, moreActs)
    ensures more[|moreActs|] == AfterPuts(states[|acts|], sent) && Takes(moreActs) == Takes(acts)
  {
    hide Put, Takes, Owing, Fresh, Ready, IsRun;
    if sent == [] {
      RunLength(n, src, body, states, acts);
      more, moreActs := states, acts;
    } else {
      var front := sent[..|sent| - 1];
      more, moreActs := PutsContinue(n, src, body, states, acts, front);
      more, moreActs := Continues(n, src, body, more, moreActs, Send(sent[|sent| - 1]));
      assert SendActs(sent) == SendActs(front) + [Send(sent[|sent| - 1])];
    }
  }

  lemma RunLength(n: nat, src: nat, body: string, states: seq<Sim>, acts: seq<Act>)
    requires IsRun(n, src, body, states, acts)
    ensures |states| == |acts| + 1
  {
  }

  /** One turn of a receive loop continues the run with the machine's receipt and the sends it leaves owed. */
  method Turn(g: Group, c: Channel, ghost src: nat, ghost body: string, ghost states: seq<Sim>, ghost acts: seq<Act>)
    returns (ghost more: seq<Sim>, ghost moreActs: seq<Act>)
    requires src < g.n && g.Valid() && IsRun(g.n, src, body, states, acts) && |states| == |acts| + 1 && g.Abs() == states[|acts|]
    requires c in g.chan && g.chan[c] != []
    modifies g
    ensures g.Valid() && IsRun(g.n, src, body, more, moreActs) && |more| == |moreActs| + 1 && g.Abs() == more[|moreActs|]
    ensures acts + [Take(c)] <= moreActs
  {
    hide IsRun, Owing, Fresh, Handled, Put, Takes, CanPuts, AfterPuts;
    KnownNow(g.n, src, body, states, acts);
    ghost var sent := g.BD(c);
    more, moreActs := Continues(g.n, src, body, states, acts, Take(c));
    more, moreActs := PutsContinue(g.n, src, body, more, moreActs, sent);
  }

  /** The source's broadcast starts a run. */
  method Broadcast(g: Group, src: nat, body: string) returns (ghost states: seq<Sim>, ghost acts: seq<Act>)
    requires src < g.n && g.Valid() && g.Abs() == Fresh(g.n)
    modifies g
    ensures g.Valid() && IsRun(g.n, src, body, states, acts) && |states| == |acts| + 1 && g.Abs() == states[|acts|]
  {
    hide IsRun, Owing, Fresh, Put, Takes, CanPuts, AfterPuts, Sent;
    StartIsRun(g.n, src, body);
    states, acts := [Owing(Fresh(g.n), src, Below(g.n), body)], [];
    ghost var first, others := g.BM(src, body);
    states, acts := Continues(g.n, src, body, states, acts, Send(first));
    states, acts := PutsContinue(g.n, src, body, states, acts, others);
  }

  /** The channels on which a copy waits. */
  function WaitingOn(chan: Copies): set<Channel> {
    set c | c in chan && chan[c] != []
  }

  lemma NothingWaits(g: Group)
    requires g.Valid() && WaitingOn(g.chan) == {}
    ensures Quiet(g.Abs())
  {
    assert forall c :: c in g.chan && g.chan[c] != [] ==> c in WaitingOn(g.chan);
  }

  lemma ShortRun(n: nat, src: nat, body: string, states: seq<Sim>, acts: seq<Act>)
    requires src < n && IsRun(n, src, body, states, acts)
    ensures |acts| <= MostActs(n)
  {
    RunsAreShort(n, src, body, states, acts);
  }

  function MostActs(n: nat): int {
    2 * (n + n * (n - 1) / 2)
  }

  /**
   The simulator's program, taking copies in any order until none is left: a run of the machine that comes to
   rest, so that every node has the body and the counter shows what `RestCounts` says.
   */
  method Simulate(n: nat, src: nat, body: string) returns (g: Group, ghost states: seq<Sim>, ghost acts: seq<Act>)
    requires src < n
    ensures fresh(g) && g.n == n && g.Valid() && IsRun(n, src, body, states, acts)
    ensures |states| == |acts| + 1 && g.Abs() == states[|acts|] && Quiet(g.Abs())
    ensures forall i :: 0 <= i < n ==> i in g.received && g.received[i] == {body}
    ensures g.counter == Wrap32(CopiesSent(n, src, FirstFromAnother(Takes(acts), src)))
  {
    hide IsRun, Fresh, Takes, CopiesSent, FirstFromAnother, Wrap32, MostActs, WaitingOn, Quiet;
    g := new Group(n);
    states, acts := Broadcast(g, src, body);
    ShortRun(n, src, body, states, acts);
    var waiting := WaitingOn(g.chan);
    while waiting != {}
      invariant fresh(g) && g.n == n && g.Valid() && |states| == |acts| + 1
      invariant IsRun(n, src, body, states, acts) && g.Abs() == states[|acts|]
      invariant waiting == WaitingOn(g.chan) && |acts| <= MostActs(n)
      decreases MostActs(n) - |acts|
    {
      var c :| c in waiting;
      IsWaiting(g.chan, c);
      ghost var before := acts;
      states, acts := Turn(g, c, src, body, states, acts);
      assert |before + [Take(c)]| <= |acts|;
      ShortRun(n, src, body, states, acts);
      waiting := WaitingOn(g.chan);
    }
    NothingWaits(g);
    RestCounts(n, src, body, states, acts);
  }

  lemma IsWaiting(chan: Copies, c: Channel)
    requires c in WaitingOn(chan)
    ensures c in chan && chan[c] != []
  {
  }

  lemma KnownNow(n: nat, src: nat, body: string, states: seq<Sim>, acts: seq<Act>)
    requires src < n && IsRun(n, src, body, states, acts)
    ensures forall c :: c in states[|acts|].chan ==> c.target in states[|acts|].received
  {
    hide Do, Can, Owing, Fresh, SendsAddUp, CopiesAddUp, Relayers, Reached, Takes;
    RunInv(n, src, body, states, acts, |acts|);
    BelowSize(n);
  }
}
