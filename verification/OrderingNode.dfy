/** One node's handlers as the program runs them: an index map, an array heap and a pop-while-agreed loop. */
module OrderingNode {
  import opened Order
  import opened Heap
  import opened Votes
  import opened HoldQueue
  import B = BMulticast
  import N = Node
  import Ledger

  /** Every item is filed under its own message id. */
  ghost predicate Filed(index: map<MsgId, HoldItem>) {
    forall m :: m in index ==> index[m].msgId == m
  }

  lemma ValuesWith(index: map<MsgId, HoldItem>, item: HoldItem)
    requires Filed(index) && item.msgId !in index
    ensures Filed(index[item.msgId := item]) && index[item.msgId := item].Values == index.Values + {item}
  {
    var more := index[item.msgId := item];
    forall o | o in index.Values
      ensures o in more.Values
    {
      assert o.msgId in more && more[o.msgId] == o;
    }
    assert more[item.msgId] == item;
  }

  lemma ValuesWithout(index: map<MsgId, HoldItem>, item: HoldItem)
    requires Filed(index) && item in index.Values
    ensures Filed(index - {item.msgId}) && (index - {item.msgId}).Values == index.Values - {item}
  {
    var less := index - {item.msgId};
    forall o | o in index.Values && o != item
      ensures o in less.Values
    {
      assert o.msgId in less && less[o.msgId] == o;
    }
  }

  class OrderingNode {
    const self: NodeId
    const holdQueue: HoldQueue
    const bmulticast: B.BMulticast
    var holdQueueMap: map<MsgId, HoldItem>
    var maxAgreementSeqNumOfGroup: nat
    var maxProposalSeqNumOfSelf: nat
    var waitProposalCounter: map<MsgId, seq<Vote>>
    var crashNodeTimeout: map<NodeId, int>
    var log: seq<Item>
    var skipped: seq<Item>

    constructor (self: NodeId, bmulticast: B.BMulticast)
      ensures Valid() && Abs() == N.Fresh && this.self == self && this.bmulticast == bmulticast && fresh(holdQueue)
    {
      this.self, this.bmulticast := self, bmulticast;
      holdQueue := new HoldQueue();
      holdQueueMap := map[];
      maxAgreementSeqNumOfGroup, maxProposalSeqNumOfSelf := 0, 0;
      waitProposalCounter, crashNodeTimeout := map[], map[];
      log, skipped := [], [];
    }

    /** The map indexes exactly the items in the heap, each under its own message id. */
    ghost predicate Valid()
      reads `holdQueueMap, holdQueue, holdQueue.pq
    {
      && holdQueue.Valid()
      && holdQueueMap.Values == Refs(holdQueue.pq)
      && Filed(holdQueueMap)
    }

    ghost function Hold(): map<MsgId, Item>
      reads `holdQueueMap, holdQueueMap.Values`seqNum, holdQueueMap.Values`procId, holdQueueMap.Values`agreed
    {
      map m | m in holdQueueMap :: holdQueueMap[m].Value()
    }

    ghost function Abs(): N.Node
      reads this, holdQueueMap.Values`seqNum, holdQueueMap.Values`procId, holdQueueMap.Values`agreed
    {
      N.Node(maxAgreementSeqNumOfGroup, maxProposalSeqNumOfSelf, Hold(), waitProposalCounter, crashNodeTimeout, log, skipped)
    }

    lemma RefIsIndexed(o: HoldItem)
      requires Valid() && o in holdQueue.pq
      ensures o.msgId in holdQueueMap && holdQueueMap[o.msgId] == o
    {
      assert o in holdQueueMap.Values;
    }

    /** The root of the heap is a head of what is held. */
    lemma RootIsHead(o: HoldItem)
      requires Valid() && o in holdQueue.pq && forall q :: q in holdQueue.pq ==> ItemLeq(o.Value(), q.Value())
      ensures N.IsHead(Hold(), o.Value())
    {
      RefIsIndexed(o);
      forall m | m in Hold()
        ensures ItemLeq(o.Value(), Hold()[m])
      {
        assert holdQueueMap[m] in Refs(holdQueue.pq);
      }
    }

    /**
     Enters an item in map and heap. Map and heap keep matching exactly if nothing was filed under its message;
     otherwise the earlier item stays in the heap without an entry in the map.
     */
    method Enter(item: HoldItem)
      requires Valid() && item !in holdQueue.pq
      modifies `holdQueueMap, holdQueue, item`index, Refs(holdQueue.pq)`index
      ensures holdQueue.Valid() && Refs(holdQueue.pq) == old(Refs(holdQueue.pq)) + {item}
      ensures holdQueueMap == old(holdQueueMap)[item.msgId := item]
      ensures Valid() <==> item.msgId !in old(holdQueueMap)
      ensures item.msgId !in old(holdQueueMap) ==> Hold() == old(Hold())[item.msgId := item.Value()]
    {
      hide Indexed, Shows, IsHeap;
      ghost var index := holdQueueMap;
      if item.msgId !in index {
        ValuesWith(index, item);
      } else {
        assert index[item.msgId] in Refs(holdQueue.pq);
      }
      holdQueueMap := holdQueueMap[item.msgId := item];
      holdQueue.HeapPush(item);
    }

    /**
     The ask handler: propose, hold, and send a vote to the source; `down` are the nodes to which a write fails.
     The node remains in order exactly if the message was not held yet.
     */
    method HandleAsk(m: MsgId, src: NodeId, body: Ledger.Operation, down: set<NodeId>) returns (sent: bool, reply: Vote)
      requires Valid()
      modifies `holdQueueMap, `maxProposalSeqNumOfSelf, holdQueue, Refs(holdQueue.pq)`index, bmulticast
      ensures fresh(Refs(holdQueue.pq) - old(Refs(holdQueue.pq))) && holdQueue.Valid()
      ensures Valid() <==> m !in old(holdQueueMap)
      ensures m !in old(holdQueueMap) ==> Abs() == N.Propose(old(Abs()), m, src, body)
      ensures maxProposalSeqNumOfSelf == Next(MaxUint64(old(maxAgreementSeqNumOfGroup), old(maxProposalSeqNumOfSelf)))
      ensures m in holdQueueMap && holdQueueMap[m].Value() == Item(body, maxProposalSeqNumOfSelf, src, false, m)
      ensures holdQueueMap == old(holdQueueMap)[m := holdQueueMap[m]] && fresh(holdQueueMap[m])
      ensures Refs(holdQueue.pq) == old(Refs(holdQueue.pq)) + {holdQueueMap[m]}
      ensures reply == Vote(self, m, maxProposalSeqNumOfSelf)
      ensures sent <==> src in old(bmulticast.senders) && src !in down
      ensures bmulticast.senders == old(bmulticast.senders) - (if src in down then {src} else {})
      ensures bmulticast.published ==
                old(bmulticast.published)
                + if src in old(bmulticast.senders) && src in down then [|old(bmulticast.senders)| - 1] else []
    {
      hide Next, MaxUint64, Indexed, Shows, IsHeap, Filed, Hold;
      var proposalSeqNum := Next(MaxUint64(maxAgreementSeqNumOfGroup, maxProposalSeqNumOfSelf));
      maxProposalSeqNumOfSelf := proposalSeqNum;
      var item := new HoldItem(body, proposalSeqNum, src, m);
      assert Hold() == old(Hold());
      Enter(item);
      reply := Vote(self, m, proposalSeqNum);
      sent := bmulticast.Unicast(src, down);
    }

    /** Deletes an item from the map alone. */
    method Unfile(item: HoldItem)
      requires Filed(holdQueueMap) && item in holdQueueMap.Values
      modifies `holdQueueMap
      ensures Filed(holdQueueMap) && holdQueueMap.Values == old(holdQueueMap.Values) - {item}
      ensures Hold() == old(Hold()) - {item.msgId}
    {
      ValuesWithout(holdQueueMap, item);
      holdQueueMap := holdQueueMap - {item.msgId};
    }

    /** Removes the root from map and heap. */
    method RemoveRoot() returns (x: Item)
      requires Valid() && holdQueue.pq != []
      modifies `holdQueueMap, holdQueue, Refs(holdQueue.pq)`index
      ensures Valid() && N.IsHead(old(Hold()), x) && Refs(holdQueue.pq) <= old(Refs(holdQueue.pq))
      ensures |holdQueue.pq| == old(|holdQueue.pq|) - 1
      ensures x == old(holdQueue.pq[0].Value()) && Hold() == old(Hold()) - {x.msgId}
    {
      hide Indexed, Shows, IsHeap, ItemLeq, Filed, N.IsHead, Hold;
      var item := holdQueue.Peek();
      RootIsHead(item);
      x := Item(item.body, item.seqNum, item.procId, item.agreed, item.msgId);
      Unfile(item);
      var popped := holdQueue.HeapPop();
    }

    /** Re-keys a held message under its announced key. */
    method Rekey(m: MsgId, procId: NodeId, seqNum: nat)
      requires Valid() && m in holdQueueMap
      modifies holdQueue, Refs(holdQueue.pq)
      ensures Valid() && Refs(holdQueue.pq) == old(Refs(holdQueue.pq))
      ensures Hold() == old(Hold())[m := N.Rekeyed(old(Hold())[m], Key(seqNum, procId))]
    {
      var item := holdQueueMap[m];
      assert item in Refs(holdQueue.pq);
      holdQueue.Update(item, procId, seqNum);
    }

    /** Delivers the root: forgets it and hands it to the application. */
    method DeliverRoot() returns (x: Item)
      requires Valid() && holdQueue.pq != [] && holdQueue.pq[0].agreed
      modifies `holdQueueMap, `log, holdQueue, Refs(holdQueue.pq)`index
      ensures Valid() && Refs(holdQueue.pq) <= old(Refs(holdQueue.pq))
      ensures |holdQueue.pq| == old(|holdQueue.pq|) - 1
      ensures x.agreed && N.IsHead(old(Abs()).hold, x) && Abs() == N.DeliverOne(old(Abs()), x)
    {
      hide Indexed, Shows, IsHeap, ItemLeq, Filed, N.IsHead, Hold;
      x := RemoveRoot();
      log := log + [x];
    }

    /** Forgets the root without delivering it. */
    method SkipRoot()
      requires Valid() && holdQueue.pq != []
      modifies `holdQueueMap, `skipped, holdQueue, Refs(holdQueue.pq)`index
      ensures Valid() && Refs(holdQueue.pq) <= old(Refs(holdQueue.pq))
      ensures var n, u := old(Abs()), old(holdQueue.pq[0].Value());
              Abs() == n.(hold := n.hold - {u.msgId}, skipped := n.skipped + [u])
    {
      hide Indexed, Shows, IsHeap, ItemLeq, Filed, N.IsHead, Hold;
      var x := RemoveRoot();
      skipped := skipped + [x];
    }

    /** Deals with an unagreed root whose source may be gone. */
    method AwaitRoot(now: int)
      requires Valid() && holdQueue.pq != [] && !holdQueue.pq[0].agreed
      modifies `holdQueueMap, `crashNodeTimeout, `skipped, holdQueue, Refs(holdQueue.pq)`index
      ensures Valid() && Refs(holdQueue.pq) <= old(Refs(holdQueue.pq))
      ensures N.Settles(old(Abs()), bmulticast.senders, now, Abs())
      ensures var u, timers := old(holdQueue.pq[0].Value()), old(crashNodeTimeout);
              && crashNodeTimeout == (if u.procId in bmulticast.senders || u.procId in timers then timers else timers[u.procId := now])
              && var gone := u.procId !in bmulticast.senders && u.procId in timers && now - timers[u.procId] > 6_000_000_000;
                 && Hold() == (if gone then old(Hold()) - {u.msgId} else old(Hold()))
                 && skipped == old(skipped) + if gone then [u] else []
    {
      hide Indexed, Shows, IsHeap, ItemLeq, Filed, Hold, N.Settles, N.IsHead;
      var item := holdQueue.Peek();
      RootIsHead(item);
      N.SettlesBehind(Abs(), item.Value(), bmulticast.senders, now);
      var ok := bmulticast.IsNodeAlived(item.procId);
      if !ok {
        if item.procId !in crashNodeTimeout {
          crashNodeTimeout := crashNodeTimeout[item.procId := now];
        } else if now - crashNodeTimeout[item.procId] > N.NODE_CRASH_TIMEOUT {
          SkipRoot();
        }
      }
    }

    /** The delivery loop: deliver roots while they are agreed, then deal with the one that is not. */
    method Drain(now: int) returns (delivered: seq<Item>)
      requires Valid()
      modifies `holdQueueMap, `crashNodeTimeout, `skipped, `log, holdQueue, Refs(holdQueue.pq)`index
      ensures Valid() && Refs(holdQueue.pq) <= old(Refs(holdQueue.pq))
      ensures N.CanDeliver(old(Abs()), delivered)
      ensures N.Settles(N.DeliverAll(old(Abs()), delivered), bmulticast.senders, now, Abs())
    {
      hide Indexed, Shows, IsHeap, ItemLeq, Filed, N.IsHead, N.CanDeliver, N.DeliverAll;
      ghost var start := Abs();
      delivered := [];
      N.DeliverNone(start);
      while |holdQueue.pq| > 0
        invariant Valid() && Refs(holdQueue.pq) <= old(Refs(holdQueue.pq))
        invariant N.CanDeliver(start, delivered) && Abs() == N.DeliverAll(start, delivered)
        decreases |holdQueue.pq|
      {
        var item := holdQueue.Peek();
        if !item.agreed {
          AwaitRoot(now);
          return;
        }
        var x := DeliverRoot();
        N.DeliverAllSnoc(start, delivered, x);
        delivered := delivered + [x];
      }
      assert Hold() == map[];
    }

    /**
     The announcement handler; `now` is the clock. It returns whether the message was known, and what it
     delivered.
     */
    method HandleAnnounce(m: MsgId, procId: NodeId, seqNum: nat, now: int)
      returns (ok: bool, delivered: seq<Item>)
      requires Valid()
      modifies `maxAgreementSeqNumOfGroup, `holdQueueMap, `crashNodeTimeout, `skipped, `log, holdQueue, Refs(holdQueue.pq)
      ensures Valid() && Refs(holdQueue.pq) <= old(Refs(holdQueue.pq))
      ensures ok <==> m in old(holdQueueMap)
      ensures N.Learns(old(Abs()), m, Key(seqNum, procId), bmulticast.senders, now, delivered, Abs())
    {
      hide Indexed, Shows, IsHeap, ItemLeq, N.Settles, N.CanDeliver, N.DeliverAll, MaxUint64;
      delivered := [];
      maxAgreementSeqNumOfGroup := MaxUint64(maxAgreementSeqNumOfGroup, seqNum);
      ok := m in holdQueueMap;
      if ok {
        Rekey(m, procId, seqNum);
        delivered := Drain(now);
      }
    }

    /** Enters a vote in the table of its message. */
    method EnterVote(vote: Vote) returns (votes: seq<Vote>)
      modifies `waitProposalCounter
      ensures var tables := old(waitProposalCounter);
              votes == (if vote.msgId in tables then tables[vote.msgId] else []) + [vote]
              && waitProposalCounter == tables[vote.msgId := votes]
    {
      ghost var tables := waitProposalCounter;
      if vote.msgId !in waitProposalCounter {
        waitProposalCounter := waitProposalCounter[vote.msgId := []];
      }
      votes := waitProposalCounter[vote.msgId] + [vote];
      waitProposalCounter := waitProposalCounter[vote.msgId := votes];
      assert waitProposalCounter == tables[vote.msgId := votes];
    }

    /** The collector: counts a vote against the current member count and picks the announcement. */
    method CollectVote(vote: Vote) returns (best: Option<Vote>)
      requires Valid()
      modifies `waitProposalCounter
      ensures Valid() && (Abs(), best) == N.Collect(old(Abs()), vote, |bmulticast.senders|)
      ensures var tables := old(waitProposalCounter);
              var votes := (if vote.msgId in tables then tables[vote.msgId] else []) + [vote];
              if |votes| < |bmulticast.senders| then best == None && waitProposalCounter == tables[vote.msgId := votes]
              else best.Some? && best.value in votes && waitProposalCounter == tables - {vote.msgId}
                   && forall v :: v in votes ==> KeyLeq(VoteKey(v), VoteKey(best.value))
    {
      hide Indexed, Shows, IsHeap, Filed, Hold, KeyLeq, MaxVote;
      best := None;
      var membersCount := bmulticast.MemberCount();
      var votes := EnterVote(vote);
      if |votes| >= membersCount {
        best := MaxOfArrayProposalItem(votes);
        waitProposalCounter := waitProposalCounter - {vote.msgId};
        assert waitProposalCounter == old(waitProposalCounter) - {vote.msgId};
      }
    }

    /** Whether a new member count settles a vote table that holds votes to announce. */
    static ghost predicate Settled(tables: map<MsgId, seq<Vote>>, m: MsgId, membersCount: int) {
      m in tables && |tables[m]| >= membersCount && tables[m] != []
    }

    /**
     The collector on a change of membership: every table long enough now is dropped and, if it holds votes,
     announced once; `order` names the tables announced, in turn.
     */
    method RecheckVotes(membersCount: int) returns (announced: seq<Vote>, ghost order: seq<MsgId>)
      requires Valid()
      modifies `waitProposalCounter
      ensures Valid() && Abs() == N.Recheck(old(Abs()), membersCount)
      ensures forall m :: m in waitProposalCounter <==>
                m in old(waitProposalCounter) && |old(waitProposalCounter)[m]| < membersCount
      ensures forall m :: m in waitProposalCounter ==> waitProposalCounter[m] == old(waitProposalCounter)[m]
      ensures forall m :: m in order <==> Settled(old(waitProposalCounter), m, membersCount)
      ensures forall i, j :: 0 <= i < j < |order| ==> order[i] != order[j]
      ensures |announced| == |order|
      ensures forall i :: 0 <= i < |order| ==>
                Settled(old(waitProposalCounter), order[i], membersCount)
                && announced[i] == MaxVote(old(waitProposalCounter)[order[i]])
    {
      hide Indexed, Shows, IsHeap, Filed, Hold, KeyLeq, MaxVote;
      announced, order := [], [];
      var tables := waitProposalCounter;
      var left := tables.Keys;
      while left != {}
        invariant left <= tables.Keys && |announced| == |order|
        invariant waitProposalCounter == map m | m in tables && (m in left || |tables[m]| < membersCount) :: tables[m]
        invariant forall m :: m in order <==> Settled(tables, m, membersCount) && m !in left
        invariant forall i, j :: 0 <= i < j < |order| ==> order[i] != order[j]
        invariant forall i :: 0 <= i < |order| ==>
                    Settled(tables, order[i], membersCount) && announced[i] == MaxVote(tables[order[i]])
        decreases left
      {
        var m :| m in left;
        if |tables[m]| >= membersCount {
          var best := MaxOfArrayProposalItem(tables[m]);
          if best.Some? {
            announced := announced + [best.value];
            order := order + [m];
          }
          waitProposalCounter := waitProposalCounter - {m};
        }
        left := left - {m};
      }
    }
  }
}
