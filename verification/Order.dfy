/** Identifiers, agreed keys and the orders the program compares them with. */
module Order {
  type NodeId = string
  type MsgId = nat

  /** Go's `<` on strings: lexicographic, a proper prefix comes first. */
  predicate StringLess(a: string, b: string) {
    |b| > 0 && (|a| == 0 || a[0] < b[0] || (a[0] == b[0] && StringLess(a[1..], b[1..])))
  }

  /** `a` and `b` agree below `k`, where `a` ends or has the smaller character. */
  ghost predicate DropsAt(a: string, b: string, k: nat) {
    k <= |a| && k < |b| && (forall i :: 0 <= i < k ==> a[i] == b[i]) && (k < |a| ==> a[k] < b[k])
  }

  lemma {:induction false} StringLessAt(a: string, b: string, k: nat)
    requires DropsAt(a, b, k)
    ensures StringLess(a, b)
  {
    if k > 0 {
      forall i | 0 <= i < k - 1
        ensures a[1..][i] == b[1..][i]
      {
        assert a[i + 1] == b[i + 1];
      }
      StringLessAt(a[1..], b[1..], k - 1);
    }
  }

  lemma {:induction false} StringLessWhere(a: string, b: string) returns (k: nat)
    requires StringLess(a, b)
    ensures DropsAt(a, b, k)
  {
    if |a| == 0 || a[0] < b[0] {
      k := 0;
    } else {
      var j := StringLessWhere(a[1..], b[1..]);
      k := j + 1;
      forall i | 0 <= i < k
        ensures a[i] == b[i]
      {
        assert i > 0 ==> a[1..][i - 1] == b[1..][i - 1];
      }
    }
  }

  /** One string is less than another exactly if they agree up to a place where it ends or has the smaller character. */
  lemma StringLessIff(a: string, b: string)
    ensures StringLess(a, b) <==> exists k: nat :: DropsAt(a, b, k)
  {
    if StringLess(a, b) {
      var k := StringLessWhere(a, b);
    }
    if k: nat :| DropsAt(a, b, k) {
      StringLessAt(a, b, k);
    }
  }

  lemma {:induction false} StringLessIrreflexive(a: string)
    ensures !StringLess(a, a)
  {
    if |a| > 0 {
      StringLessIrreflexive(a[1..]);
    }
  }

  lemma {:induction false} StringLessTransitive(a: string, b: string, c: string)
    requires StringLess(a, b) && StringLess(b, c)
    ensures StringLess(a, c)
  {
    if |a| > 0 && a[0] == b[0] == c[0] {
      StringLessTransitive(a[1..], b[1..], c[1..]);
    }
  }

  lemma {:induction false} StringLessTotal(a: string, b: string)
    ensures StringLess(a, b) || a == b || StringLess(b, a)
  {
    if |a| > 0 && |b| > 0 && a[0] == b[0] {
      StringLessTotal(a[1..], b[1..]);
      assert a == [a[0]] + a[1..] && b == [b[0]] + b[1..];
    }
  }

  /** A sequence number with the process that proposed it. */
  datatype Key = Key(seqNum: nat, proposer: NodeId)

  predicate KeyLess(a: Key, b: Key) {
    a.seqNum < b.seqNum || (a.seqNum == b.seqNum && StringLess(a.proposer, b.proposer))
  }

  predicate KeyLeq(a: Key, b: Key) {
    a == b || KeyLess(a, b)
  }

  lemma KeyLessIrreflexive(a: Key)
    ensures !KeyLess(a, a)
  {
    StringLessIrreflexive(a.proposer);
  }

  lemma KeyLessTransitive(a: Key, b: Key, c: Key)
    requires KeyLess(a, b) && KeyLess(b, c)
    ensures KeyLess(a, c)
  {
    if a.seqNum == b.seqNum == c.seqNum {
      StringLessTransitive(a.proposer, b.proposer, c.proposer);
    }
  }

  lemma KeyLessTotal(a: Key, b: Key)
    ensures KeyLess(a, b) || a == b || KeyLess(b, a)
  {
    StringLessTotal(a.proposer, b.proposer);
  }

  lemma KeyLessAsymmetric(a: Key, b: Key)
    requires KeyLess(a, b)
    ensures a != b && !KeyLess(b, a)
  {
    KeyLessIrreflexive(a);
    if KeyLess(b, a) {
      KeyLessTransitive(a, b, a);
    }
  }
}
