/**
 The hold queue: a binary heap in a slice of item pointers, each item carrying its own position.
 `Up`, `Down`, `HeapPush`, `HeapPop` and `Fix` are Go's container/heap, written out.
 */
module HoldQueue {
  import opened Order
  import opened Heap
  import Ledger

  class HoldItem {
    const body: Ledger.Operation
    const msgId: MsgId
    var seqNum: nat
    var procId: NodeId
    var agreed: bool
    var index: int

    constructor (body: Ledger.Operation, seqNum: nat, procId: NodeId, msgId: MsgId)
      ensures Value() == Item(body, seqNum, procId, false, msgId)
    {
      this.body, this.seqNum, this.procId, this.agreed, this.msgId := body, seqNum, procId, false, msgId;
      this.index := 0;
    }

    ghost function Value(): Item
      reads `seqNum, `procId, `agreed
    {
      Item(body, seqNum, procId, agreed, msgId)
    }
  }

  ghost function Refs(q: seq<HoldItem>): set<HoldItem> {
    set o | o in q
  }

  /** `v` holds the values of the items in `q`, position by position. */
  ghost predicate Shows(q: seq<HoldItem>, v: seq<Item>)
    reads (set o | o in q)`seqNum, (set o | o in q)`procId, (set o | o in q)`agreed
  {
    |v| == |q| && forall i :: 0 <= i < |q| ==> q[i].Value() == v[i]
  }

  /** Every item knows its own position, so no item occurs twice. */
  ghost predicate Indexed(q: seq<HoldItem>)
    reads (set o | o in q)`index
  {
    forall i :: 0 <= i < |q| ==> q[i].index == i
  }

  lemma SwapKeepsRefs(q: seq<HoldItem>, i: nat, j: nat)
    requires i < |q| && j < |q|
    ensures Refs(Swapped(q, i, j)) == Refs(q)
  {
    var w := Swapped(q, i, j);
    forall o | o in q
      ensures o in w
    {
      var k :| 0 <= k < |q| && q[k] == o;
      assert w[if k == i then j else if k == j then i else k] == o;
    }
  }

  class HoldQueue {
    var pq: seq<HoldItem>
    ghost var items: seq<Item>

    constructor ()
      ensures Valid() && pq == [] && items == []
    {
      pq, items := [], [];
    }

    /** Positions and values agree with the items. */
    ghost predicate Consistent()
      reads this, pq
    {
      Indexed(pq) && Shows(pq, items)
    }

    ghost predicate Valid()
      reads this, pq
    {
      Consistent() && IsHeap(items, |items|)
    }

    method Less(i: nat, j: nat) returns (r: bool)
      requires i < |pq| && j < |pq| && Consistent()
      ensures r <==> ItemLess(items[i], items[j])
    {
      var x, y := pq[i], pq[j];
      if x.seqNum < y.seqNum {
        return true;
      } else if x.seqNum > y.seqNum {
        return false;
      }
      if !x.agreed && y.agreed {
        return true;
      } else if x.agreed && !y.agreed {
        return false;
      }
      return StringLess(x.procId, y.procId);
    }

    method Swap(i: nat, j: nat)
      requires i < |pq| && j < |pq| && Consistent()
      modifies `pq, `items, {pq[i], pq[j]}`index
      ensures Consistent()
      ensures pq == Swapped(old(pq), i, j) && items == Swapped(old(items), i, j)
      ensures Refs(pq) == old(Refs(pq)) && multiset(items) == old(multiset(items))
    {
      SwapKeepsRefs(pq, i, j);
      SwapPermutes(items, i, j);
      pq := pq[i := pq[j]][j := pq[i]];
      pq[i].index := i;
      pq[j].index := j;
      items := Swapped(items, i, j);
    }

    method Up(j0: nat)
      requires j0 < |pq| && Consistent() && IsHeapAbove(items, j0)
      modifies `pq, `items, Refs(pq)`index
      ensures Valid() && Refs(pq) == old(Refs(pq)) && multiset(items) == old(multiset(items))
    {
      var j := j0;
      while true
        invariant 0 <= j < |pq| && Consistent() && IsHeapAbove(items, j)
        invariant Refs(pq) == old(Refs(pq)) && multiset(items) == old(multiset(items))
        decreases j
      {
        var i := if j == 0 then 0 else (j - 1) / 2;
        var less := Less(j, i);
        if i == j || !less {
          break;
        }
        assert pq[i] in Refs(pq) && pq[j] in Refs(pq);
        UpStep(items, j);
        Swap(i, j);
        j := i;
      }
    }

    method PickChild(i: nat, n: nat) returns (j: nat)
      requires 2 * i + 1 < n <= |pq| && Consistent()
      ensures j == LesserChild(items, n, i)
    {
      j := 2 * i + 1;
      var j2 := j + 1;
      if j2 < n {
        var right := Less(j2, j);
        if right {
          j := j2;
        }
      }
    }

    /** One round of the sift-down loop at `i`. */
    method SinkOnce(i: nat, n: nat) returns (moved: bool, j: nat)
      requires i < n <= |pq| && Consistent() && IsHeapAround(items, n, i)
      modifies `pq, `items, Refs(pq)`index
      ensures Consistent() && Refs(pq) == old(Refs(pq)) && multiset(items) == old(multiset(items))
      ensures |pq| == old(|pq|)
      ensures moved ==> i < j < n && IsHeapAround(items, n, j) && pq == Swapped(old(pq), i, j)
      ensures moved ==> Parent(j) == i && ItemLeq(items[i], items[j])
      ensures !moved ==> pq == old(pq) && items == old(items)
      ensures !moved ==> forall c :: 0 < c < n && Parent(c) == i ==> ItemLeq(items[i], items[c])
      ensures !moved && (i == 0 || ItemLeq(items[Parent(i)], items[i])) ==> IsHeap(items, n)
    {
      moved, j := false, i;
      if 2 * i + 1 < n {
        j := PickChild(i, n);
        moved := Less(j, i);
      }
      if moved {
        DownStep(items, n, i);
        assert pq[i] in Refs(pq) && pq[j] in Refs(pq);
        Swap(i, j);
      } else {
        DownStops(items, n, i);
      }
    }

    method Down(i0: nat, n: nat) returns (moved: bool)
      requires i0 < n <= |pq| && Consistent() && IsHeapAround(items, n, i0)
      modifies `pq, `items, Refs(pq)`index
      ensures Consistent() && Refs(pq) == old(Refs(pq)) && multiset(items) == old(multiset(items))
      ensures |pq| == old(|pq|) && forall k :: n <= k < |pq| ==> pq[k] == old(pq[k])
      ensures moved || i0 == 0 || ItemLeq(items[Parent(i0)], items[i0]) ==> IsHeap(items, n)
      ensures !moved ==> pq == old(pq) && items == old(items)
      ensures !moved ==> forall c :: 0 < c < n && Parent(c) == i0 ==> ItemLeq(items[i0], items[c])
    {
      var i := i0;
      while true
        invariant i0 <= i < n <= |pq| == old(|pq|) && Consistent() && IsHeapAround(items, n, i)
        invariant Refs(pq) == old(Refs(pq)) && multiset(items) == old(multiset(items))
        invariant forall k :: n <= k < |pq| ==> pq[k] == old(pq[k])
        invariant i == i0 ==> pq == old(pq) && items == old(items)
        invariant i > i0 ==> ItemLeq(items[Parent(i)], items[i])
        decreases n - i
      {
        var sank, j := SinkOnce(i, n);
        if !sank {
          break;
        }
        i := j;
      }
      moved := i > i0;
    }

    method Push(x: HoldItem)
      requires Consistent() && x !in pq
      modifies this, x`index
      ensures Consistent() && pq == old(pq) + [x] && items == old(items) + [x.Value()]
    {
      x.index := |pq|;
      pq := pq + [x];
      items := items + [x.Value()];
    }

    method Pop() returns (item: HoldItem)
      requires Consistent() && pq != []
      modifies this, {pq[|pq| - 1]}`index
      ensures Consistent() && item.index == -1
      ensures old(pq) == pq + [item] && old(items) == items + [item.Value()] && |items| == |pq|
      ensures Refs(pq) == old(Refs(pq)) - {item}
    {
      var n := |pq|;
      item := pq[n - 1];
      forall k | 0 <= k < n - 1
        ensures pq[k] != item
      {
        assert pq[k].index == k;
      }
      item.index := -1;
      pq := pq[..n - 1];
      items := items[..n - 1];
    }

    method Peek() returns (item: HoldItem)
      requires Valid() && pq != []
      ensures item == pq[0] && item.Value() == items[0]
      ensures forall o :: o in pq ==> ItemLeq(item.Value(), o.Value())
    {
      item := pq[0];
      forall o | o in pq
        ensures ItemLeq(item.Value(), o.Value())
      {
        var k :| 0 <= k < |pq| && pq[k] == o;
        RootIsLeast(items, k);
      }
    }

    /** heap.Push */
    method HeapPush(x: HoldItem)
      requires Valid() && x !in pq
      modifies this, x`index, Refs(pq)`index
      ensures Valid() && Refs(pq) == old(Refs(pq)) + {x}
      ensures multiset(items) == old(multiset(items)) + multiset{x.Value()}
    {
      Push(x);
      assert Refs(pq) == old(Refs(pq)) + {x};
      Up(|pq| - 1);
    }

    /** The first half of heap.Pop: exchanges the root with the last item and sifts the new root down. */
    method RootToEnd()
      requires Valid() && pq != []
      modifies `pq, `items, Refs(pq)`index
      ensures Consistent() && |items| == |pq| == old(|pq|) && IsHeap(items, |pq| - 1)
      ensures pq[|pq| - 1] == old(pq[0])
      ensures Refs(pq) == old(Refs(pq)) && multiset(items) == old(multiset(items))
    {
      var n := |pq| - 1;
      assert pq[0] in Refs(pq) && pq[n] in Refs(pq);
      Swap(0, n);
      if n > 0 {
        var moved := Down(0, n);
      }
    }

    /** heap.Pop: removes and returns a least item. */
    method HeapPop() returns (item: HoldItem)
      requires Valid() && pq != []
      modifies this, Refs(pq)`index
      ensures Valid() && item == old(pq[0]) && item.index == -1 && |pq| == old(|pq|) - 1
      ensures Refs(pq) == old(Refs(pq)) - {item}
      ensures multiset(items) + multiset{item.Value()} == old(multiset(items))
      ensures forall o :: o in old(pq) ==> ItemLeq(item.Value(), o.Value())
    {
      hide Indexed, Shows, IsHeap, ItemLeq;
      var least := Peek();
      RootToEnd();
      ghost var before := items;
      item := Pop();
      HeapWithoutLast(before, items, item.Value());
    }

    /** heap.Fix: restores heap order after the item at `i` has changed. */
    method Fix(i: nat)
      requires i < |pq| && Consistent() && IsHeapAround(items, |items|, i)
      modifies `pq, `items, Refs(pq)`index
      ensures Valid() && Refs(pq) == old(Refs(pq)) && multiset(items) == old(multiset(items))
    {
      var moved := Down(i, |pq|);
      if !moved {
        Up(i);
      }
    }

    /** Re-keys an item in place: it becomes agreed under the announced key. */
    method Update(item: HoldItem, procId: NodeId, seqNum: nat)
      requires Valid() && item in pq
      modifies `pq, `items, Refs(pq)`index, item
      ensures Valid() && Refs(pq) == old(Refs(pq))
      ensures item.Value() == old(item.Value()).(seqNum := seqNum, procId := procId, agreed := true)
      ensures multiset(items) + multiset{old(item.Value())} == old(multiset(items)) + multiset{item.Value()}
    {
      assert pq[item.index] == item;
      item.agreed := true;
      item.procId := procId;
      item.seqNum := seqNum;
      ReplacedIsHeapAround(items, item.index, item.Value());
      items := items[item.index := item.Value()];
      Fix(item.index);
    }
  }
}
