/**
 The array shape of the hold queue, on values: heap order under the three-level `ItemLess`,
 and what one swap of a sift keeps.
 */
module Heap {
  import opened Order
  import Ledger

  /** One held message. Before agreement `procId` is the message source, afterwards the winning proposer. */
  datatype Item = Item(body: Ledger.Operation, seqNum: nat, procId: NodeId, agreed: bool, msgId: MsgId)

  function KeyOf(x: Item): Key {
    Key(x.seqNum, x.procId)
  }

  /** Sequence number first, then unagreed before agreed, then process. */
  predicate ItemLess(x: Item, y: Item) {
    if x.seqNum < y.seqNum then true
    else if x.seqNum > y.seqNum then false
    else if !x.agreed && y.agreed then true
    else if x.agreed && !y.agreed then false
    else StringLess(x.procId, y.procId)
  }

  predicate ItemLeq(x: Item, y: Item) {
    !ItemLess(y, x)
  }

  lemma ItemLeqTransitive(x: Item, y: Item, z: Item)
    requires ItemLeq(x, y) && ItemLeq(y, z)
    ensures ItemLeq(x, z)
  {
    if ItemLess(z, x) && z.seqNum == x.seqNum && z.agreed == x.agreed {
      StringLessTotal(y.procId, x.procId);
      StringLessTotal(z.procId, y.procId);
      if StringLess(z.procId, y.procId) {
      } else if z.procId == y.procId {
      } else {
        StringLessTransitive(y.procId, z.procId, x.procId);
      }
    }
  }

  lemma ItemLessIsLeq(x: Item, y: Item)
    requires ItemLess(x, y)
    ensures ItemLeq(x, y)
  {
    KeyLessIrreflexive(KeyOf(x));
    if ItemLess(y, x) {
      StringLessTransitive(x.procId, y.procId, x.procId);
    }
  }

  function Parent(c: int): int
    requires c > 0
  {
    (c - 1) / 2
  }

  /** No element of the first `n` is less than its parent. */
  ghost predicate IsHeap(v: seq<Item>, n: nat)
    requires n <= |v|
  {
    forall c :: 0 < c < n ==> ItemLeq(v[Parent(c)], v[c])
  }

  /** Heap order may fail only between `j` and its parent. */
  ghost predicate IsHeapAbove(v: seq<Item>, j: nat)
    requires j < |v|
  {
    && (forall c :: 0 < c < |v| && c != j ==> ItemLeq(v[Parent(c)], v[c]))
    && (forall c :: 0 < c < |v| && Parent(c) == j && j > 0 ==> ItemLeq(v[Parent(j)], v[c]))
  }

  /** Heap order on the first `n` may fail only between `j` and its parent and between `j` and its children. */
  ghost predicate IsHeapAround(v: seq<Item>, n: nat, j: nat)
    requires j < n <= |v|
  {
    && (forall c :: 0 < c < n && c != j && Parent(c) != j ==> ItemLeq(v[Parent(c)], v[c]))
    && (forall c :: 0 < c < n && Parent(c) == j && j > 0 ==> ItemLeq(v[Parent(j)], v[c]))
  }

  function Swapped<T>(v: seq<T>, i: nat, j: nat): (w: seq<T>)
    requires i < |v| && j < |v|
    ensures |w| == |v|
  {
    v[i := v[j]][j := v[i]]
  }

  lemma SwapPermutes<T>(v: seq<T>, i: nat, j: nat)
    requires i < |v| && j < |v|
    ensures multiset(Swapped(v, i, j)) == multiset(v)
  {
  }

  lemma UpStep(v: seq<Item>, j: nat)
    requires 0 < j < |v| && IsHeapAbove(v, j) && ItemLess(v[j], v[Parent(j)])
    ensures IsHeapAbove(Swapped(v, Parent(j), j), Parent(j))
  {
    var p := Parent(j);
    var w := Swapped(v, p, j);
    ItemLessIsLeq(v[j], v[p]);
    forall c | 0 < c < |w| && c != p
      ensures ItemLeq(w[Parent(c)], w[c])
    {
      if Parent(c) == p && c != j {
        ItemLeqTransitive(v[j], v[p], v[c]);
      }
    }
    forall c | 0 < c < |w| && Parent(c) == p && p > 0
      ensures ItemLeq(w[Parent(p)], w[c])
    {
      if c != j {
        ItemLeqTransitive(v[Parent(p)], v[p], v[c]);
      }
    }
  }

  /** The child the sift-down compares against: the lesser of the two, the left one on a tie. */
  function LesserChild(v: seq<Item>, n: nat, i: nat): (j: nat)
    requires 2 * i + 1 < n <= |v|
    ensures j < n && 0 < j && Parent(j) == i
    ensures j == 2 * i + 1 || j == 2 * i + 2
  {
    if 2 * i + 2 < n && ItemLess(v[2 * i + 2], v[2 * i + 1]) then 2 * i + 2 else 2 * i + 1
  }

  lemma LesserChildIsLeast(v: seq<Item>, n: nat, i: nat, c: nat)
    requires 2 * i + 1 < n <= |v| && 0 < c < n && Parent(c) == i
    ensures ItemLeq(v[LesserChild(v, n, i)], v[c])
  {
    assert c == 2 * i + 1 || c == 2 * i + 2;
    KeyLessIrreflexive(KeyOf(v[c]));
    if c == 2 * i + 1 && LesserChild(v, n, i) == 2 * i + 2 {
      ItemLessIsLeq(v[2 * i + 2], v[2 * i + 1]);
    }
  }

  /** One swap with the lesser child moves the only possible failure there, with its parent side already right. */
  lemma DownStep(v: seq<Item>, n: nat, i: nat)
    requires 2 * i + 1 < n <= |v| && IsHeapAround(v, n, i)
    requires ItemLess(v[LesserChild(v, n, i)], v[i])
    ensures var j := LesserChild(v, n, i); var w := Swapped(v, i, j);
            IsHeapAround(w, n, j) && ItemLeq(w[i], w[j])
            && (i > 0 ==> ItemLeq(w[Parent(i)], w[i]))
  {
    var j := LesserChild(v, n, i);
    var w := Swapped(v, i, j);
    ItemLessIsLeq(v[j], v[i]);
    forall c | 0 < c < n && c != j && Parent(c) != j
      ensures ItemLeq(w[Parent(c)], w[c])
    {
      if Parent(c) == i {
        LesserChildIsLeast(v, n, i, c);
      }
    }
  }

  /** A sift-down that has reached `i` with the parent side right can stop when `i` has no lesser child. */
  lemma DownStops(v: seq<Item>, n: nat, i: nat)
    requires i < n <= |v| && IsHeapAround(v, n, i)
    requires 2 * i + 1 < n ==> !ItemLess(v[LesserChild(v, n, i)], v[i])
    ensures forall c :: 0 < c < n && Parent(c) == i ==> ItemLeq(v[i], v[c])
    ensures i == 0 || ItemLeq(v[Parent(i)], v[i]) ==> IsHeap(v, n)
  {
    forall c | 0 < c < n && Parent(c) == i
      ensures ItemLeq(v[i], v[c])
    {
      LesserChildIsLeast(v, n, i, c);
      ItemLeqTransitive(v[i], v[LesserChild(v, n, i)], v[c]);
    }
  }

  /** Heap order from parent to child makes the root a least element. */
  lemma {:induction false} RootIsLeast(v: seq<Item>, k: nat)
    requires k < |v| && IsHeap(v, |v|)
    ensures ItemLeq(v[0], v[k])
  {
    if k == 0 {
      KeyLessIrreflexive(KeyOf(v[0]));
    } else {
      RootIsLeast(v, Parent(k));
      ItemLeqTransitive(v[0], v[Parent(k)], v[k]);
    }
  }

  lemma HeapWithoutLast(v: seq<Item>, w: seq<Item>, x: Item)
    requires v == w + [x] && IsHeap(v, |w|)
    ensures IsHeap(w, |w|)
  {
    assert forall c :: 0 <= c < |w| ==> v[c] == w[c];
  }

  /** Replacing any one element leaves heap order intact except around it. */
  lemma ReplacedIsHeapAround(v: seq<Item>, i: nat, x: Item)
    requires i < |v| && IsHeap(v, |v|)
    ensures IsHeapAround(v[i := x], |v|, i)
  {
    forall c | 0 < c < |v| && Parent(c) == i && i > 0
      ensures ItemLeq(v[Parent(i)], v[c])
    {
      ItemLeqTransitive(v[Parent(i)], v[i], v[c]);
    }
  }

  /** Raising an element never calls for a sift-up: agreement, which only raises, moves items down only. */
  lemma RaisedOnlySinks(v: seq<Item>, i: nat, x: Item)
    requires 0 < i < |v| && IsHeap(v, |v|) && ItemLess(v[i], x)
    ensures !ItemLess(x, v[Parent(i)])
  {
    ItemLessIsLeq(v[i], x);
    ItemLeqTransitive(v[Parent(i)], v[i], x);
  }
}
