/** How many asks have been handled, and so how far the sequence numbers can have got. */
module Counting {
  import opened Order
  import opened Heap
  import opened Votes
  import opened Node
  import opened Sums
  import opened Isis

  ghost function ProposalCounts(s: State): map<NodeId, nat> {
    map n | n in s.locals :: |s.locals[n].proposed|
  }

  /** One proposal has been made for each ask handled. */
  ghost predicate Counted(s: State) {
    s.handled == Total(ProposalCounts(s))
  }

  lemma InitialCounted(members: set<NodeId>)
    ensures Counted(Initial(members))
  {
    TotalZero(ProposalCounts(Initial(members)));
  }

  lemma SameProposals(s: State, s': State)
    requires Counted(s) && s'.handled == s.handled && s'.locals.Keys == s.locals.Keys
    requires forall n :: n in s.locals ==> s'.locals[n].proposed == s.locals[n].proposed
    ensures Counted(s')
  {
    assert ProposalCounts(s') == ProposalCounts(s);
  }

  lemma NextKeepsCounted(s: State, a: Action, s': State)
    requires Counted(s) && Isis.Next(s, a, s')
    ensures Counted(s')
  {
    hide Learns, Counted, DoTally;
    match a
    case Submit(m, src, body) => SameProposals(s, s');
    case Handle(n, m) => HandleKeepsCounted(s, n, m);
    case Tally(l) =>
      TallyTouches(s, l);
      SameProposals(s, s');
    case Learn(n, m, alive, now, xs) => SameProposals(s, s');
  }

  lemma OneMoreKey<K, V>(m: map<K, V>, k: K, v: V)
    requires k !in m
    ensures |m[k := v]| == |m| + 1
  {
    assert m[k := v].Keys == m.Keys + {k};
  }

  lemma HandleAddsProposal(s: State, n: NodeId, m: MsgId)
    requires n in s.locals && m in s.asked && m !in s.locals[n].proposed
    ensures var s' := Handled(s, n, m);
            && s'.locals == s.locals[n := s'.locals[n]] && s'.handled == s.handled + 1
            && |s'.locals[n].proposed| == |s.locals[n].proposed| + 1
  {
    hide Propose;
    var l := ProposeAt(s.locals[n], m, s.asked[m].src, s.asked[m].body);
    OneMoreKey(s.locals[n].proposed, m, l.node.maxProposed);
  }

  lemma HandleKeepsCounted(s: State, n: NodeId, m: MsgId)
    requires Counted(s) && n in s.locals && m in s.asked && m !in s.locals[n].proposed
    ensures Counted(Handled(s, n, m))
  {
    hide Handled;
    HandleAddsProposal(s, n, m);
    var grown := |s.locals[n].proposed| + 1;
    TotalUpdated(ProposalCounts(s), n, grown);
    assert ProposalCounts(Handled(s, n, m)) == ProposalCounts(s)[n := grown];
  }

  lemma SubsetSize<T>(a: set<T>, b: set<T>)
    requires a <= b
    ensures |a| <= |b|
  {
    assert a + (b - a) == b;
  }

  /** At most one ask is handled per member and message. */
  lemma HandledIsBounded(s: State)
    requires Counted(s) && Shape(s)
    ensures s.handled <= |s.asked| * |s.members|
  {
    var counts := ProposalCounts(s);
    forall n | n in counts
      ensures counts[n] <= |s.asked|
    {
      SubsetSize(s.locals[n].proposed.Keys, s.asked.Keys);
    }
    TotalAtMost(counts, |s.asked|);
    assert counts.Keys == s.members && |counts| == |counts.Keys|;
  }

  /** Sequence bound: no counter, proposal or agreement exceeds the number of asks handled, N for each message. */
  lemma NumbersAreBounded(s: State, n: NodeId, m: MsgId)
    requires Isis.Inv(s) && Counted(s) && n in s.members
    ensures s.handled <= |s.asked| * |s.members|
    ensures s.locals[n].node.maxAgreed <= s.handled && s.locals[n].node.maxProposed <= s.handled
    ensures m in s.locals[n].proposed ==> s.locals[n].proposed[m] <= s.handled
    ensures m in s.agreed ==> s.agreed[m].seqNum <= s.handled
  {
    HandledIsBounded(s);
    assert NodeSettled(s, n);
    if m in s.agreed {
      AgreedWithinHandled(s, m);
    }
  }
}
