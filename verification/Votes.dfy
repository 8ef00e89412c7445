/** Votes on a message's sequence number, their maximum, and what a full count of them means. */
module Votes {
  import opened Order

  datatype Option<+T> = None | Some(value: T)

  const UINT64_SPAN: nat := 0x1_0000_0000_0000_0000

  function MaxUint64(x: nat, y: nat): nat {
    if x > y then x else y
  }

  /** The uint64 increment, which wraps. */
  function Next(x: nat): nat {
    (x + 1) % UINT64_SPAN
  }

  /** The increment exceeds its argument exactly while the counter has not reached the last uint64. */
  lemma NextRisesIff(x: nat)
    requires x < UINT64_SPAN
    ensures Next(x) > x <==> x != UINT64_SPAN - 1
  {
  }

  datatype Vote = Vote(voter: NodeId, msgId: MsgId, seqNum: nat)

  function VoteKey(v: Vote): Key {
    Key(v.seqNum, v.voter)
  }

  /** The vote the program announces: the first of the greatest by (sequence number, voter). */
  function MaxVote(votes: seq<Vote>): Vote
    requires votes != []
  {
    if |votes| == 1 then votes[0] else
      var best := MaxVote(votes[..|votes| - 1]);
      if KeyLess(VoteKey(best), VoteKey(votes[|votes| - 1])) then votes[|votes| - 1] else best
  }

  lemma {:induction false} MaxVoteIsGreatest(votes: seq<Vote>)
    requires votes != []
    ensures MaxVote(votes) in votes
    ensures forall v :: v in votes ==> KeyLeq(VoteKey(v), VoteKey(MaxVote(votes)))
  {
    if |votes| > 1 {
      var front, last := votes[..|votes| - 1], votes[|votes| - 1];
      MaxVoteIsGreatest(front);
      var best := MaxVote(front);
      KeyLessTotal(VoteKey(best), VoteKey(last));
      forall v | v in votes
        ensures KeyLeq(VoteKey(v), VoteKey(MaxVote(votes)))
      {
        assert v in front || v == last;
        if v in front && KeyLess(VoteKey(v), VoteKey(best)) && KeyLess(VoteKey(best), VoteKey(last)) {
          KeyLessTransitive(VoteKey(v), VoteKey(best), VoteKey(last));
        }
      }
    }
  }

  method MaxOfArrayProposalItem(arr: seq<Vote>) returns (r: Option<Vote>)
    ensures r.None? <==> arr == []
    ensures r.Some? ==> r.value in arr && forall v :: v in arr ==> KeyLeq(VoteKey(v), VoteKey(r.value))
    ensures r.Some? ==> r.value == MaxVote(arr)
  {
    if |arr| == 0 {
      return None;
    }
    var max := arr[0];
    for i := 0 to |arr|
      invariant i == 0 ==> max == arr[0]
      invariant i > 0 ==> max == MaxVote(arr[..i])
    {
      var value := arr[i];
      if max.seqNum < value.seqNum {
        max := value;
      } else if max.seqNum == value.seqNum {
        if StringLess(max.voter, value.voter) {
          max := value;
        }
      }
      assert arr[..i + 1][..i] == arr[..i];
    }
    assert arr[..|arr|] == arr;
    MaxVoteIsGreatest(arr);
    r := Some(max);
  }

  method MaxOfArrayUint64(arr: seq<nat>) returns (r: Option<nat>)
    ensures r.None? <==> arr == []
    ensures r.Some? ==> r.value in arr && forall x :: x in arr ==> x <= r.value
  {
    if |arr| < 1 {
      return None;
    }
    var max := arr[0];
    for i := 0 to |arr|
      invariant max in arr
      invariant forall k :: 0 <= k < i ==> arr[k] <= max
    {
      if max < arr[i] {
        max := arr[i];
      }
    }
    r := Some(max);
  }

  ghost predicate DistinctVoters(votes: seq<Vote>) {
    forall i, j :: 0 <= i < j < |votes| ==> votes[i].voter != votes[j].voter
  }

  ghost function Voters(votes: seq<Vote>): set<NodeId> {
    set i | 0 <= i < |votes| :: votes[i].voter
  }

  lemma {:induction false} VotersCount(votes: seq<Vote>)
    requires DistinctVoters(votes)
    ensures |Voters(votes)| == |votes|
  {
    if votes != [] {
      var front, last := votes[..|votes| - 1], votes[|votes| - 1];
      VotersCount(front);
      assert last.voter !in Voters(front);
      assert Voters(votes) == Voters(front) + {last.voter};
    }
  }

  lemma SubsetOfEqualSize<T>(a: set<T>, b: set<T>)
    requires a <= b && |a| >= |b|
    ensures a == b
  {
    assert |b - a| == |b| - |a|;
  }

  /**
   A table at or above the member count holds a vote of every member exactly when as many of its voters are
   not members as it is longer than the count: counting alone is a quorum test only while membership is stable.
   */
  lemma CountIsQuorumIff(votes: seq<Vote>, members: set<NodeId>)
    requires DistinctVoters(votes) && |votes| >= |members|
    ensures members <= Voters(votes) <==> |Voters(votes) - members| == |votes| - |members|
  {
    VotersCount(votes);
    var voters := Voters(votes);
    assert voters == (voters * members) + (voters - members);
    if members <= voters {
      assert voters * members == members;
    } else if |voters - members| == |votes| - |members| {
      SubsetOfEqualSize(voters * members, members);
    }
  }

  /** Two votes, one of them from an ejected node, meet the count of two members though one member never voted. */
  lemma EjectionDefeatsCount()
    ensures var votes := [Vote("a", 0, 1), Vote("c", 0, 1)]; var members := {"a", "b"};
            DistinctVoters(votes) && |votes| == |members| && "b" in members && "b" !in Voters(votes)
  {
    assert "a"[0] != "b"[0] && "a"[0] != "c"[0] && "b"[0] != "c"[0];
    assert {"a", "b"} - {"a"} == {"b"};
  }
}
