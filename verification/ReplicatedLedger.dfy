/** The ledger on top of total order: each node applies the operations of its log in log order. */
module ReplicatedLedger {
  import opened Order
  import opened Heap
  import opened System
  import opened Guarantees
  import Isis
  import Ledger
  import Termination
  import TotalOrder

  function Operations(log: seq<Item>): (ops: seq<Ledger.Operation>)
    ensures |ops| == |log| && forall i :: 0 <= i < |log| ==> ops[i] == log[i].body
  {
    seq(|log|, i requires 0 <= i < |log| => log[i].body)
  }

  ghost function BalancesAt(s: State, n: NodeId): Ledger.Balances
    requires n in s.core.locals
  {
    Ledger.Replay(Operations(TotalOrder.LogOf(s.core, n)))
  }

  /** A node's balances start empty, and delivering one more message has the effect of its operation on them. */
  lemma DeliveryTakesEffect(log: seq<Item>, x: Item)
    ensures Ledger.Replay(Operations([])) == map[]
    ensures Ledger.TakesEffect(Ledger.Replay(Operations(log)), x.body, Ledger.Replay(Operations(log + [x])))
  {
    var ops := Operations(log + [x]);
    assert ops[..|ops| - 1] == Operations(log);
    Ledger.ApplyTakesEffect(Ledger.Replay(Operations(log)), x.body);
  }

  /** Replication: whenever two nodes have delivered equally many messages, at whatever moments, their balances are equal. */
  lemma LedgersAgree(run: seq<State>, i: nat, a: NodeId, j: nat, b: NodeId)
    requires IsRun(run) && i < |run| && j < |run| && WithinCounters(run[|run| - 1])
    requires a in run[i].core.members && b in run[j].core.members
    ensures a in run[i].core.locals && b in run[j].core.locals
    ensures |TotalOrder.LogOf(run[i].core, a)| == |TotalOrder.LogOf(run[j].core, b)| ==>
              BalancesAt(run[i], a) == BalancesAt(run[j], b)
  {
    hide IsRun, WithinCounters;
    TotalOrderDelivery(run, i, a, j, b);
    var x, y := TotalOrder.LogOf(run[i].core, a), TotalOrder.LogOf(run[j].core, b);
    assert |x| == |y| ==> x == y;
  }

  /** When a run has come to rest all ledgers are equal. */
  lemma LedgersConverge(run: seq<State>, i: nat, a: NodeId, b: NodeId)
    requires IsRun(run) && i < |run| && WithinCounters(run[i]) && Termination.AtRest(run[i])
    requires a in run[i].core.members && b in run[i].core.members
    ensures a in run[i].core.locals && b in run[i].core.locals && BalancesAt(run[i], a) == BalancesAt(run[i], b)
  {
    hide Sound, IsRun, WithinCounters, Termination.AtRest;
    RunIsSound(run, i);
    Termination.RestMeansEqualLogs(run[i], a, b);
  }

  /**
   Money is conserved at every node at every moment: if no submitted transfer is to its own source, nobody is
   overdrawn and the balances add up to the deposits the node has accepted.
   */
  lemma LedgersConserve(run: seq<State>, i: nat, n: NodeId)
    requires IsRun(run) && i < |run| && WithinCounters(run[i]) && n in run[i].core.members
    requires forall m :: m in run[i].core.asked ==> !Ledger.IsSelfTransfer(run[i].core.asked[m].body)
    ensures n in run[i].core.locals
    ensures var ops := Operations(TotalOrder.LogOf(run[i].core, n));
            Ledger.TotalDeposited(ops) < Ledger.INT64_LIMIT ==>
              Ledger.NonNegative(BalancesAt(run[i], n)) && Ledger.Worth(BalancesAt(run[i], n)) == Ledger.TotalDeposited(ops)
  {
    hide IsRun, WithinCounters, Isis.Inv;
    RunIsSound(run, i);
    MemberIsLocal(run[i], n);
    var log := TotalOrder.LogOf(run[i].core, n);
    forall k | 0 <= k < |log|
      ensures !Ledger.IsSelfTransfer(Operations(log)[k])
    {
      TotalOrder.LogEntryFacts(run[i].core, n, k);
    }
    if Ledger.TotalDeposited(Operations(log)) < Ledger.INT64_LIMIT {
      Ledger.LedgerConserves(Operations(log));
    }
  }
}
