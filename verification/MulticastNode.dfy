/** R-multicast at one node: the handlers of one process, tied to the steps of the R-multicast machine. */
module MulticastNode {
  import opened Order
  import B = BMulticast
  import RM = RMulticast

  class RMulticast {
    const self: NodeId
    const bmulticast: B.BMulticast
    var received: set<RM.Rid>

    constructor (self: NodeId, bmulticast: B.BMulticast)
      ensures this.self == self && this.bmulticast == bmulticast && received == {}
    {
      this.self, this.bmulticast := self, bmulticast;
      received := {};
    }

    method AddMsgIfNotExist(id: RM.Rid) returns (added: bool)
      modifies `received
      ensures added <==> id !in old(received)
      ensures received == old(received) + {id}
    {
      added := id !in received;
      if added {
        received := received + {id};
      }
    }

    /** This node's tables are the ones it has in `s`. */
    ghost predicate Represents(s: RM.State)
      reads this, bmulticast
    {
      && self in s.received && received == (set r | r in s.received[self])
      && self in s.senders && bmulticast.senders == s.senders[self]
    }

    /**
     Issues a message: what the machine's issue does, with a copy to each node that could be written to. If only
     crashed nodes could not, it is a step of the machine.
     */
    method Multicast(down: set<NodeId>, ghost s: RM.State) returns (sent: set<NodeId>)
      requires Represents(s) && RM.Shape(s)
      modifies bmulticast
      ensures sent == old(bmulticast.senders) - down && Represents(RM.Issued(s, self, sent, false))
      ensures bmulticast.senders == sent && |sent| <= |old(bmulticast.senders)|
      ensures bmulticast.published ==
                old(bmulticast.published) + B.Countdown(|old(bmulticast.senders)|, |old(bmulticast.senders)| - |sent|)
      ensures RM.Live(s, self) && down * old(bmulticast.senders) <= s.crashed ==> RM.Enabled(s, RM.Issue(self, sent, false))
    {
      sent := bmulticast.Multicast(down);
    }

    /**
     Handles the next copy from `from`: what is new is remembered, relayed unless it came from this node
     itself, and delivered. That is what the machine's receipt does, with the copies it puts on the channels,
     and a step of the machine if only crashed nodes could not be written to.
     */
    method Receive(id: RM.Rid, from: NodeId, down: set<NodeId>, ghost s: RM.State) returns (sent: set<NodeId>, deliver: bool)
      requires Represents(s) && RM.Shape(s)
      requires (from, self) in s.chan && s.chan[(from, self)] != [] && id == RM.Head(s, from, self) && id < |s.sends|
      modifies `received, bmulticast
      ensures Represents(RM.Delivered(s, from, self, old(bmulticast.senders) - down, false))
      ensures deliver <==> id !in old(received)
      ensures sent == if id !in old(received) && from != self then old(bmulticast.senders) - down else {}
      ensures received == old(received) + {id}
      ensures bmulticast.senders == if id !in old(received) && from != self then sent else old(bmulticast.senders)
      ensures |bmulticast.senders| <= |old(bmulticast.senders)|
      ensures bmulticast.published ==
                old(bmulticast.published)
                + B.Countdown(|old(bmulticast.senders)|, |old(bmulticast.senders)| - |bmulticast.senders|)
      ensures RM.Live(s, self) && down * old(bmulticast.senders) <= s.crashed ==>
                RM.Enabled(s, RM.Deliver(from, self, old(bmulticast.senders) - down, false))
    {
      RM.DeliveredTables(s, from, self, bmulticast.senders - down);
      B.CountdownStep(|bmulticast.senders|, 0);
      sent := {};
      deliver := AddMsgIfNotExist(id);
      if deliver && from != self {
        sent := bmulticast.Multicast(down);
      }
    }
  }
}
