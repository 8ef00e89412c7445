/** What the agreement protocol guarantees about the logs of any two nodes. */
module TotalOrder {
  import opened Order
  import opened Heap
  import opened Node
  import opened Isis

  ghost function LogOf(s: State, n: NodeId): seq<Item>
    requires n in s.locals
  {
    s.locals[n].node.log
  }

  lemma MemberHasLog(s: State, n: NodeId)
    requires Inv(s) && n in s.members
    ensures n in s.locals
  {
  }

  lemma LogEntryFacts(s: State, n: NodeId, i: nat)
    requires Inv(s) && n in s.members && i < |LogOf(s, n)|
    ensures var x := LogOf(s, n)[i];
            x.agreed && x.msgId in s.agreed && KeyOf(x) == s.agreed[x.msgId]
            && x.msgId in s.asked && x.body == s.asked[x.msgId].body
  {
    assert NodeSettled(s, n);
    var x := LogOf(s, n)[i];
    assert ItemOk(s.locals[n], s.asked, s.agreed, x.msgId, x);
  }

  /** Logs are strictly increasing in agreed key. */
  lemma LogsAreSorted(s: State, n: NodeId, i: nat, j: nat)
    requires Inv(s) && n in s.members && i < j < |LogOf(s, n)|
    ensures KeyLess(KeyOf(LogOf(s, n)[i]), KeyOf(LogOf(s, n)[j]))
  {
    LogEntryFacts(s, n, i);
    LogEntryFacts(s, n, j);
    assert NodeSettled(s, n);
    assert ItemLess(LogOf(s, n)[i], LogOf(s, n)[j]);
  }

  /** A key identifies a delivery: the same message with the same body at every node. */
  lemma SameKeySameEntry(s: State, a: NodeId, i: nat, b: NodeId, j: nat)
    requires Inv(s) && a in s.members && b in s.members && i < |LogOf(s, a)| && j < |LogOf(s, b)|
    requires KeyOf(LogOf(s, a)[i]) == KeyOf(LogOf(s, b)[j])
    ensures LogOf(s, a)[i] == LogOf(s, b)[j]
  {
    LogEntryFacts(s, a, i);
    LogEntryFacts(s, b, j);
    AgreedKeysDistinct(s);
  }

  /** What a node still holds will not end below anything it has delivered. */
  lemma PendingIsAbove(s: State, n: NodeId, i: nat, m: MsgId)
    requires Inv(s) && n in s.members && i < |LogOf(s, n)| && m in s.agreed && m in s.locals[n].node.hold
    ensures KeyLess(KeyOf(LogOf(s, n)[i]), s.agreed[m])
  {
    var l := s.locals[n];
    LogEntryFacts(s, n, i);
    assert IsQuorumKey(s, m, s.agreed[m]);
    QuorumCovers(s, m, s.agreed[m], n);
    assert NodeSettled(s, n);
    assert ItemOk(l, s.asked, s.agreed, m, l.node.hold[m]);
    assert ItemLess(LogOf(s, n)[i], l.node.hold[m]);
  }

  lemma AgreedIsSomewhere(s: State, n: NodeId, m: MsgId)
    requires Inv(s) && n in s.members && m in s.agreed
    ensures m in s.locals[n].node.hold || InLog(s.locals[n], m) || IsSkipped(s.locals[n], m)
  {
    assert IsQuorumKey(s, m, s.agreed[m]);
    assert NodeSettled(s, n);
  }

  /** A log has no gaps: whatever is agreed below a delivered key and not skipped has been delivered before it. */
  lemma LogsHaveNoGaps(s: State, n: NodeId, i: nat, m: MsgId) returns (j: nat)
    requires Inv(s) && n in s.members && n in s.locals && i < |LogOf(s, n)| && !IsSkipped(s.locals[n], m)
    requires m in s.agreed && KeyLess(s.agreed[m], KeyOf(LogOf(s, n)[i]))
    ensures j < i && LogOf(s, n)[j].msgId == m
  {
    hide Inv;
    KeyLessAsymmetric(s.agreed[m], KeyOf(LogOf(s, n)[i]));
    if m in s.locals[n].node.hold {
      PendingIsAbove(s, n, i, m);
    }
    AgreedIsSomewhere(s, n, m);
    j :| 0 <= j < |LogOf(s, n)| && LogOf(s, n)[j].msgId == m;
    LogEntryFacts(s, n, j);
    if i < j {
      LogsAreSorted(s, n, i, j);
    }
  }

  // ---------- When two logs are comparable ----------

  /** `a` has skipped a message that `b` has delivered, at a position both logs reach. */
  ghost predicate Missed(s: State, a: NodeId, b: NodeId)
    requires a in s.locals && b in s.locals
  {
    exists i :: 0 <= i < |LogOf(s, b)| && i < |LogOf(s, a)| && IsSkipped(s.locals[a], LogOf(s, b)[i].msgId)
  }

  lemma {:induction false} LogsAgreeBelow(s: State, a: NodeId, b: NodeId, i: nat)
    requires Inv(s) && a in s.members && b in s.members && a in s.locals && b in s.locals
    requires !Missed(s, a, b) && !Missed(s, b, a) && i <= |LogOf(s, a)| && i <= |LogOf(s, b)|
    ensures forall k :: 0 <= k < i ==> LogOf(s, a)[k] == LogOf(s, b)[k]
  {
    hide Inv, Missed;
    if i > 0 {
      LogsAgreeBelow(s, a, b, i - 1);
      LogsAgreeAt(s, a, b, i - 1);
    }
  }

  /** If two logs agree below position `i` they agree at `i`: neither can hold the smaller key there alone. */
  lemma LogsAgreeAt(s: State, a: NodeId, b: NodeId, i: nat)
    requires Inv(s) && a in s.members && b in s.members && a in s.locals && b in s.locals
    requires !Missed(s, a, b) && !Missed(s, b, a) && i < |LogOf(s, a)| && i < |LogOf(s, b)|
    requires forall k :: 0 <= k < i ==> LogOf(s, a)[k] == LogOf(s, b)[k]
    ensures LogOf(s, a)[i] == LogOf(s, b)[i]
  {
    hide Inv, Missed;
    var x, y := LogOf(s, a)[i], LogOf(s, b)[i];
    KeyLessTotal(KeyOf(x), KeyOf(y));
    if KeyLess(KeyOf(x), KeyOf(y)) {
      NotSmallerAt(s, a, b, i);
    } else if KeyLess(KeyOf(y), KeyOf(x)) {
      NotSmallerAt(s, b, a, i);
    } else {
      SameKeySameEntry(s, a, i, b, i);
    }
  }

  lemma NotSmallerAt(s: State, a: NodeId, b: NodeId, i: nat)
    requires Inv(s) && a in s.members && b in s.members && a in s.locals && b in s.locals
    requires !Missed(s, b, a) && i < |LogOf(s, a)| && i < |LogOf(s, b)|
    requires forall k :: 0 <= k < i ==> LogOf(s, a)[k] == LogOf(s, b)[k]
    ensures !KeyLess(KeyOf(LogOf(s, a)[i]), KeyOf(LogOf(s, b)[i]))
  {
    hide Inv, IsSkipped;
    var x, y := LogOf(s, a)[i], LogOf(s, b)[i];
    if KeyLess(KeyOf(x), KeyOf(y)) {
      LogEntryFacts(s, a, i);
      var j := LogsHaveNoGaps(s, b, i, x.msgId);
      LogEntryFacts(s, b, j);
      LogsAreSorted(s, a, j, i);
      KeyLessIrreflexive(KeyOf(x));
    }
  }

  /** A node has not delivered what it has skipped. */
  lemma SkippedIsNotLogged(s: State, n: NodeId, i: nat)
    requires Inv(s) && n in s.members && n in s.locals && i < |LogOf(s, n)|
    ensures !IsSkipped(s.locals[n], LogOf(s, n)[i].msgId)
  {
    assert NodeSettled(s, n);
    hide HoldOk, LogOk, NumbersOk, HeardOk;
  }

  /**
   Total order, exactly: of two logs one is a prefix of the other if and only if neither node has skipped a
   message that the other has delivered within the length of the shorter log.
   */
  lemma LogsArePrefixesIff(s: State, a: NodeId, b: NodeId)
    requires Inv(s) && a in s.members && b in s.members && a in s.locals && b in s.locals
    ensures LogOf(s, a) <= LogOf(s, b) || LogOf(s, b) <= LogOf(s, a) <==> !Missed(s, a, b) && !Missed(s, b, a)
  {
    hide Inv, IsSkipped;
    var x, y := LogOf(s, a), LogOf(s, b);
    if !Missed(s, a, b) && !Missed(s, b, a) {
      LogsAgreeBelow(s, a, b, if |x| <= |y| then |x| else |y|);
    }
    if x <= y || y <= x {
      forall i | 0 <= i < |x| && i < |y|
        ensures !IsSkipped(s.locals[a], y[i].msgId) && !IsSkipped(s.locals[b], x[i].msgId)
      {
        assert x[i] == y[i];
        SkippedIsNotLogged(s, a, i);
        SkippedIsNotLogged(s, b, i);
      }
    }
  }

  /** While nobody is taken for dead, of any two nodes' logs one is a prefix of the other. */
  lemma LogsArePrefixes(s: State, a: NodeId, b: NodeId)
    requires Inv(s) && AllUndisturbed(s) && a in s.members && b in s.members
    ensures a in s.locals && b in s.locals && (LogOf(s, a) <= LogOf(s, b) || LogOf(s, b) <= LogOf(s, a))
  {
    MemberHasLog(s, a);
    MemberHasLog(s, b);
    hide Inv;
    LogsArePrefixesIff(s, a, b);
  }

  /** Logs only grow, by what the step delivers. */
  lemma LogsGrow(s: State, a: Action, s': State, n: NodeId)
    requires Inv(s) && Next(s, a, s') && n in s.members
    ensures n in s.locals && n in s'.locals && LogOf(s, n) <= LogOf(s', n)
  {
    hide Inv, Learns, IsQuorumKey;
    MemberHasLog(s, n);
    match a
    case Learn(k, m, alive, now, xs) =>
      LearnKeepsInv(s, k, m, alive, now, xs, s');
    case _ =>
  }
}
