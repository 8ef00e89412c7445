/** The replicated ledger: account balances in Go's 64-bit ints, changed by deposits and transfers. */
module Ledger {
  import opened Sums

  const INT64_LIMIT := 0x8000_0000_0000_0000

  newtype int64 = x: int | -0x8000_0000_0000_0000 <= x < 0x8000_0000_0000_0000

  datatype Operation =
    | Deposit(account: string, amount: int64)
    | Transfer(source: string, target: string, amount: int64)

  datatype Outcome = Accepted | NegativeAmount | NoSuchAccount | InsufficientFunds

  type Balances = map<string, int64>

  /** Two's complement wrap-around of a 64-bit result. */
  function Wrap(x: int): int64 {
    ((x + INT64_LIMIT) % (2 * INT64_LIMIT) - INT64_LIMIT) as int64
  }

  function Judge(b: Balances, op: Operation): Outcome {
    if op.amount < 0 then NegativeAmount
    else match op
         case Deposit(_, _) => Accepted
         case Transfer(source, _, amount) =>
           if source !in b then NoSuchAccount
           else if Wrap(b[source] as int - amount as int) < 0 then InsufficientFunds
           else Accepted
  }

  /** The balances after `op`; the credit of a transfer is computed from the balances before its debit. */
  function Apply(b: Balances, op: Operation): Balances {
    if Judge(b, op) != Accepted then b
    else match op
         case Deposit(account, amount) =>
           b[account := if account in b then Wrap(b[account] as int + amount as int) else amount]
         case Transfer(source, target, amount) =>
           b[source := Wrap(b[source] as int - amount as int)]
            [target := if target in b then Wrap(b[target] as int + amount as int) else amount]
  }

  function Replay(ops: seq<Operation>): Balances {
    if ops == [] then map[] else Apply(Replay(ops[..|ops| - 1]), ops[|ops| - 1])
  }

  class Transaction {
    var balances: Balances

    constructor ()
      ensures balances == Replay([])
    {
      balances := map[];
    }

    method Deposit(account: string, amount: int64) returns (err: Outcome)
      modifies this
      ensures err == Judge(old(balances), Operation.Deposit(account, amount))
      ensures balances == Apply(old(balances), Operation.Deposit(account, amount))
      ensures TakesEffect(old(balances), Operation.Deposit(account, amount), balances)
    {
      ApplyTakesEffect(balances, Operation.Deposit(account, amount));
      if amount < 0 {
        return NegativeAmount;
      }
      if account !in balances {
        balances := balances[account := amount];
        return Accepted;
      }
      balances := balances[account := Wrap(balances[account] as int + amount as int)];
      return Accepted;
    }

    method Transfer(fromAccount: string, toAccount: string, amount: int64) returns (err: Outcome)
      modifies this
      ensures err == Judge(old(balances), Operation.Transfer(fromAccount, toAccount, amount))
      ensures balances == Apply(old(balances), Operation.Transfer(fromAccount, toAccount, amount))
      ensures TakesEffect(old(balances), Operation.Transfer(fromAccount, toAccount, amount), balances)
    {
      ApplyTakesEffect(balances, Operation.Transfer(fromAccount, toAccount, amount));
      if amount < 0 {
        return NegativeAmount;
      }
      var isFromAccountExist := fromAccount in balances;
      var isToAccountExist := toAccount in balances;
      var prevToAccountAmount := if isToAccountExist then balances[toAccount] else 0;
      if !isFromAccountExist {
        return NoSuchAccount;
      }
      var prevFromAccountAmount := balances[fromAccount];
      if Wrap(prevFromAccountAmount as int - amount as int) < 0 {
        return InsufficientFunds;
      }
      balances := balances[fromAccount := Wrap(prevFromAccountAmount as int - amount as int)];
      if !isToAccountExist {
        balances := balances[toAccount := amount];
        return Accepted;
      }
      balances := balances[toAccount := Wrap(prevToAccountAmount as int + amount as int)];
      return Accepted;
    }
  }

  // ---------- What an operation does, account by account ----------

  function BalanceOf(b: Balances, account: string): int {
    if account in b then b[account] as int else 0
  }

  /** `b'` is `b` but for `account`, which now has `balance`. */
  ghost predicate OnlySets(b: Balances, account: string, balance: int64, b': Balances) {
    && b'.Keys == b.Keys + {account} && b'[account] == balance
    && forall a :: a in b && a != account ==> b'[a] == b[a]
  }

  /** `b'` is `b` with `amount` moved from `source` to another account; sums wrap like the program's integers. */
  ghost predicate Moves(b: Balances, source: string, target: string, amount: int, b': Balances) {
    && b'.Keys == b.Keys + {target} && source in b
    && b'[source] == Wrap(BalanceOf(b, source) - amount)
    && b'[target] == Wrap(BalanceOf(b, target) + amount)
    && forall a :: a in b && a != source && a != target ==> b'[a] == b[a]
  }

  /** Whether Go's 64-bit `balance - amount < 0` fails: the balance covers the amount, or the difference wraps. */
  predicate Covers(balance: int, amount: int) {
    balance >= amount || balance - amount < -INT64_LIMIT
  }

  /** What applying `op` to `b` comes to, said of the accounts alone. */
  ghost predicate TakesEffect(b: Balances, op: Operation, b': Balances) {
    match op
    case Deposit(account, amount) =>
      if amount >= 0 then OnlySets(b, account, Wrap(BalanceOf(b, account) + amount as int), b') else b' == b
    case Transfer(source, target, amount) =>
      if amount >= 0 && source in b && Covers(BalanceOf(b, source), amount as int) then
        if source != target then Moves(b, source, target, amount as int, b')
        else OnlySets(b, source, Wrap(BalanceOf(b, source) + amount as int), b')
      else b' == b
  }

  /** The wrapped value is the one 64-bit value that differs from `x` by a multiple of 2^64. */
  lemma WrapIsCongruent(x: int, v: int64)
    ensures Wrap(x) == v <==> (v as int - x) % 0x1_0000_0000_0000_0000 == 0
  {
  }

  /** A deposit is accepted if and only if its amount is not negative. */
  lemma DepositAcceptedIff(b: Balances, account: string, amount: int64)
    ensures Judge(b, Operation.Deposit(account, amount)) == (if amount >= 0 then Accepted else NegativeAmount)
  {
  }

  /**
   A transfer is accepted if and only if its amount is not negative, its source exists and has the funds; the
   checks come in that order.
   */
  lemma TransferAcceptedIff(b: Balances, source: string, target: string, amount: int64)
    ensures var outcome := Judge(b, Operation.Transfer(source, target, amount));
            && (outcome == NegativeAmount <==> amount < 0)
            && (outcome == NoSuchAccount <==> amount >= 0 && source !in b)
            && (outcome == InsufficientFunds <==> amount >= 0 && source in b && !Covers(BalanceOf(b, source), amount as int))
            && (outcome == Accepted <==> amount >= 0 && source in b && Covers(BalanceOf(b, source), amount as int))
  {
  }

  /** For a balance that is not negative, having the funds is nothing but covering the amount. */
  lemma CoversIff(balance: int64, amount: int64)
    requires balance >= 0
    ensures Covers(balance as int, amount as int) <==> balance >= amount
  {
  }

  /** An overdrawn balance would be taken to cover an amount that takes it below the least 64-bit integer. */
  lemma OverdrawnCovers()
    ensures var b := map["a" := -0x8000_0000_0000_0000];
            Judge(b, Operation.Transfer("a", "b", 1)) == Accepted && BalanceOf(b, "a") < 1
  {
  }

  /** Every operation, on any balances, has its effect account by account. */
  lemma ApplyTakesEffect(b: Balances, op: Operation)
    ensures TakesEffect(b, op, Apply(b, op))
  {
    match op
    case Deposit(account, amount) =>
      DepositAcceptedIff(b, account, amount);
      WrapFits(amount as int);
    case Transfer(source, target, amount) =>
      TransferAcceptedIff(b, source, target, amount);
      WrapFits(amount as int);
  }

  /** An effect leaves no choice. */
  lemma EffectIsUnique(b: Balances, op: Operation, b': Balances)
    requires TakesEffect(b, op, b')
    ensures b' == Apply(b, op)
  {
    ApplyTakesEffect(b, op);
    assert b'.Keys == Apply(b, op).Keys;
  }

  // ---------- Conservation ----------

  ghost predicate NonNegative(b: Balances) {
    forall a :: a in b ==> b[a] >= 0
  }

  ghost function Amounts(b: Balances): map<string, nat>
    requires NonNegative(b)
  {
    map a | a in b :: b[a] as int
  }

  ghost function Worth(b: Balances): nat
    requires NonNegative(b)
  {
    Total(Amounts(b))
  }

  /** A transfer from an account to itself: the second write hides the debit. */
  predicate IsSelfTransfer(op: Operation) {
    op.Transfer? && op.source == op.target
  }

  /** What an accepted operation is worth coming in: a deposit by intent, a self-transfer because it loses its debit. */
  function Deposited(b: Balances, op: Operation): nat {
    if Judge(b, op) == Accepted && op.Deposit? then op.amount as int else 0
  }

  function Minted(b: Balances, op: Operation): nat {
    if Judge(b, op) == Accepted && IsSelfTransfer(op) then op.amount as int else 0
  }

  lemma BalanceWithinWorth(b: Balances, a: string)
    requires NonNegative(b) && a in b
    ensures b[a] as int <= Worth(b)
  {
    TotalWithout(Amounts(b), a);
  }

  lemma TwoBalancesWithinWorth(b: Balances, a: string, c: string)
    requires NonNegative(b) && a in b && c in b && a != c
    ensures b[a] as int + b[c] as int <= Worth(b)
  {
    TotalWithout(Amounts(b), a);
    TotalWithout(Amounts(b) - {a}, c);
  }

  lemma {:induction false} SetWorth(b: Balances, a: string, v: int64)
    requires NonNegative(b) && v >= 0
    ensures NonNegative(b[a := v])
    ensures Worth(b[a := v]) == Worth(b) - (if a in b then b[a] as int else 0) + v as int
  {
    var after := Amounts(b[a := v]);
    if a in b {
      TotalUpdated(Amounts(b), a, v as int);
      assert after == Amounts(b)[a := v as int];
    } else {
      TotalWithout(after, a);
      assert after - {a} == Amounts(b);
    }
  }

  lemma WrapFits(x: int)
    requires -INT64_LIMIT <= x < INT64_LIMIT
    ensures Wrap(x) as int == x
  {
  }

  lemma DepositAdds(b: Balances, account: string, amount: int64)
    requires NonNegative(b) && amount >= 0 && Worth(b) + amount as int < INT64_LIMIT
    ensures var b' := Apply(b, Operation.Deposit(account, amount));
            NonNegative(b') && Worth(b') == Worth(b) + amount as int
  {
    if account in b {
      BalanceWithinWorth(b, account);
      WrapFits(b[account] as int + amount as int);
      SetWorth(b, account, (b[account] as int + amount as int) as int64);
    } else {
      SetWorth(b, account, amount);
    }
  }

  lemma TransferMoves(b: Balances, source: string, target: string, amount: int64)
    requires NonNegative(b) && Judge(b, Operation.Transfer(source, target, amount)) == Accepted
    requires source != target && Worth(b) < INT64_LIMIT
    ensures var b' := Apply(b, Operation.Transfer(source, target, amount));
            NonNegative(b') && Worth(b') == Worth(b)
  {
    WrapFits(b[source] as int - amount as int);
    var debited := b[source := (b[source] as int - amount as int) as int64];
    SetWorth(b, source, (b[source] as int - amount as int) as int64);
    if target in b {
      TwoBalancesWithinWorth(b, source, target);
      WrapFits(b[target] as int + amount as int);
      SetWorth(debited, target, (b[target] as int + amount as int) as int64);
    } else {
      SetWorth(debited, target, amount);
    }
  }

  lemma SelfTransferMints(b: Balances, account: string, amount: int64)
    requires NonNegative(b) && Judge(b, Operation.Transfer(account, account, amount)) == Accepted
    requires Worth(b) + amount as int < INT64_LIMIT
    ensures var b' := Apply(b, Operation.Transfer(account, account, amount));
            NonNegative(b') && Worth(b') == Worth(b) + amount as int
  {
    BalanceWithinWorth(b, account);
    var credited := (b[account] as int + amount as int) as int64;
    WrapFits(b[account] as int + amount as int);
    SetWorth(b, account, credited);
    assert Apply(b, Operation.Transfer(account, account, amount)) == b[account := credited];
  }

  /** One operation adds exactly what it deposits or mints, and leaves no account overdrawn. */
  lemma ApplyAccounts(b: Balances, op: Operation)
    requires NonNegative(b) && Worth(b) + Deposited(b, op) + Minted(b, op) < INT64_LIMIT
    ensures NonNegative(Apply(b, op)) && Worth(Apply(b, op)) == Worth(b) + Deposited(b, op) + Minted(b, op)
  {
    if Judge(b, op) == Accepted {
      match op
      case Deposit(account, amount) => DepositAdds(b, account, amount);
      case Transfer(source, target, amount) =>
        if source == target {
          SelfTransferMints(b, source, amount);
        } else {
          TransferMoves(b, source, target, amount);
        }
    }
  }

  /**
   An accepted transfer conserves money and overdraws nobody exactly when it has distinct ends or moves nothing;
   the total before it need only fit 64 bits.
   */
  lemma TransferConservesIff(b: Balances, op: Operation)
    requires NonNegative(b) && op.Transfer? && Judge(b, op) == Accepted && Worth(b) < INT64_LIMIT
    ensures (NonNegative(Apply(b, op)) && Worth(Apply(b, op)) == Worth(b)) <==> op.source != op.target || op.amount == 0
  {
    if op.source != op.target {
      TransferMoves(b, op.source, op.target, op.amount);
    } else if Worth(b) + op.amount as int < INT64_LIMIT {
      SelfTransferMints(b, op.source, op.amount);
    } else {
      SelfTransferWraps(b, op.source, op.amount);
    }
  }

  /** A self-transfer whose minted money does not fit: the balance goes wrong. */
  lemma SelfTransferWraps(b: Balances, account: string, amount: int64)
    requires NonNegative(b) && Judge(b, Operation.Transfer(account, account, amount)) == Accepted
    requires Worth(b) < INT64_LIMIT <= Worth(b) + amount as int
    ensures var b' := Apply(b, Operation.Transfer(account, account, amount)); !NonNegative(b') || Worth(b') != Worth(b)
  {
    var b' := Apply(b, Operation.Transfer(account, account, amount));
    BalanceWithinWorth(b, account);
    assert b' == b[account := Wrap(b[account] as int + amount as int)];
    if NonNegative(b') {
      SetWorth(b, account, b'[account]);
    }
  }

  /** A self-transfer of 3 turns a balance of 5 into 8. */
  lemma SelfTransferCounterexample()
    ensures Replay([Operation.Deposit("a", 5), Operation.Transfer("a", "a", 3)]) == map["a" := 8]
  {
    var first := [Operation.Deposit("a", 5)];
    var both := first + [Operation.Transfer("a", "a", 3)];
    assert both[..1] == first && first[..0] == [];
    assert Replay(first) == map["a" := 5];
  }

  function TotalDeposited(ops: seq<Operation>): nat {
    if ops == [] then 0 else
      var front := ops[..|ops| - 1];
      TotalDeposited(front) + Deposited(Replay(front), ops[|ops| - 1])
  }

  function TotalMinted(ops: seq<Operation>): nat {
    if ops == [] then 0 else
      var front := ops[..|ops| - 1];
      TotalMinted(front) + Minted(Replay(front), ops[|ops| - 1])
  }

  /**
   Conservation over any log whose incoming money fits 64 bits: no account is overdrawn, nothing wraps, and
   the accounts hold exactly the accepted deposits plus what self-transfers minted.
   */
  lemma {:induction false} LedgerBalances(ops: seq<Operation>)
    requires TotalDeposited(ops) + TotalMinted(ops) < INT64_LIMIT
    ensures NonNegative(Replay(ops)) && Worth(Replay(ops)) == TotalDeposited(ops) + TotalMinted(ops)
  {
    if ops != [] {
      LedgerBalances(ops[..|ops| - 1]);
      ApplyAccounts(Replay(ops[..|ops| - 1]), ops[|ops| - 1]);
    }
  }

  lemma {:induction false} DistinctEndsMintNothing(ops: seq<Operation>)
    requires forall i :: 0 <= i < |ops| ==> !IsSelfTransfer(ops[i])
    ensures TotalMinted(ops) == 0
  {
    if ops != [] {
      DistinctEndsMintNothing(ops[..|ops| - 1]);
    }
  }

  /** With distinct ends throughout, the accounts hold exactly the accepted deposits. */
  lemma LedgerConserves(ops: seq<Operation>)
    requires forall i :: 0 <= i < |ops| ==> !IsSelfTransfer(ops[i])
    requires TotalDeposited(ops) < INT64_LIMIT
    ensures NonNegative(Replay(ops)) && Worth(Replay(ops)) == TotalDeposited(ops)
  {
    DistinctEndsMintNothing(ops);
    LedgerBalances(ops);
  }
}
