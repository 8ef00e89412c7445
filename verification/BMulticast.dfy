/** B-multicast at one node: a table of senders, from which a node is ejected when a write to it fails. */
module BMulticast {
  import opened Order

  /** The member counts published while `k` of `n` senders are ejected one after the other. */
  function Countdown(n: nat, k: nat): seq<nat>
    requires k <= n
  {
    if k == 0 then [] else Countdown(n, k - 1) + [n - k]
  }

  /** The counts go down one by one. */
  lemma {:induction false} CountdownIs(n: nat, k: nat)
    requires k <= n
    ensures |Countdown(n, k)| == k && forall i :: 0 <= i < k ==> Countdown(n, k)[i] == n - 1 - i
  {
    if k > 0 {
      CountdownIs(n, k - 1);
    }
  }

  class BMulticast {
    var senders: set<NodeId>
    var published: seq<nat>

    constructor ()
      ensures senders == {} && published == []
    {
      senders, published := {}, [];
    }

    method AddMember(nodeID: NodeId)
      modifies `senders
      ensures senders == old(senders) + {nodeID}
    {
      senders := senders + {nodeID};
    }

    method MemberCount() returns (n: nat)
      ensures n == |senders|
    {
      n := |senders|;
    }

    method IsNodeAlived(nodeID: NodeId) returns (alive: bool)
      ensures alive <==> nodeID in senders
    {
      alive := nodeID in senders;
    }

    /** Closes and forgets a sender, and publishes the new member count. */
    method Eject(nodeID: NodeId)
      requires nodeID in senders
      modifies this
      ensures senders == old(senders) - {nodeID} && |senders| == |old(senders)| - 1
      ensures published == old(published) + [|senders|]
    {
      senders := senders - {nodeID};
      published := published + [|senders|];
    }

    /** Sends to one node; `down` are the nodes to which a write fails. */
    method Unicast(dst: NodeId, down: set<NodeId>) returns (sent: bool)
      modifies this
      ensures sent <==> dst in old(senders) && dst !in down
      ensures senders == old(senders) - (if dst in down then {dst} else {})
      ensures published == old(published) + (if dst in old(senders) && dst in down then [|old(senders)| - 1] else [])
    {
      if dst !in senders {
        return false;
      }
      if dst in down {
        Eject(dst);
        return false;
      }
      return true;
    }

    /**
     Sends to everyone in the sender table, in any order, ejecting those to whom the write fails. Whoever is
     left was sent a copy, and the counts published run down to the number left.
     */
    method Multicast(down: set<NodeId>) returns (sent: set<NodeId>)
      modifies this
      ensures sent == old(senders) - down && senders == sent && |sent| <= |old(senders)|
      ensures published == old(published) + Countdown(|old(senders)|, |old(senders)| - |sent|)
    {
      hide Countdown, Midway;
      sent := {};
      var left := senders;
      ghost var all := senders;
      CountdownStep(|all|, 0);
      MidwayStarts(all, down);
      while left != {}
        invariant Midway(all, left, down, sent, senders)
        invariant |senders| <= |all| && published == old(published) + Countdown(|all|, |all| - |senders|)
        decreases left
      {
        var dst :| dst in left;
        MidwayStep(all, left, down, sent, senders, dst);
        left := left - {dst};
        if dst in down {
          CountdownStep(|all|, |all| - |senders|);
          Eject(dst);
        } else {
          sent := sent + {dst};
        }
      }
      MidwayDone(all, down, sent, senders);
    }
  }

  /** Of `all`, those not in `left` have been sent a copy or ejected. */
  ghost predicate Midway(all: set<NodeId>, left: set<NodeId>, down: set<NodeId>, sent: set<NodeId>, senders: set<NodeId>) {
    left <= all && sent == all - left - down && senders == sent + left
  }

  lemma MidwayStarts(all: set<NodeId>, down: set<NodeId>)
    ensures Midway(all, all, down, {}, all)
  {
  }

  lemma MidwayDone(all: set<NodeId>, down: set<NodeId>, sent: set<NodeId>, senders: set<NodeId>)
    requires Midway(all, {}, down, sent, senders)
    ensures senders == sent == all - down
  {
  }

  lemma MidwayStep(all: set<NodeId>, left: set<NodeId>, down: set<NodeId>, sent: set<NodeId>, senders: set<NodeId>, dst: NodeId)
    requires Midway(all, left, down, sent, senders) && dst in left
    ensures dst in senders
    ensures dst in down ==> Midway(all, left - {dst}, down, sent, senders - {dst})
    ensures dst !in down ==> Midway(all, left - {dst}, down, sent + {dst}, senders)
  {
  }

  lemma CountdownStep(n: nat, k: nat)
    requires k <= n
    ensures Countdown(n, 0) == [] && (k < n ==> Countdown(n, k + 1) == Countdown(n, k) + [n - k - 1])
  {
  }
}
