/**
 Printing the balances. Ranging over a Go map yields the accounts in any order; sorting them makes the
 text a function of the balances alone.
 */
module Snapshot {
  import opened Order
  import opened Ledger

  ghost predicate StrictlySorted(xs: seq<string>) {
    forall i, j :: 0 <= i < j < |xs| ==> StringLess(xs[i], xs[j])
  }

  ghost function Elements(xs: seq<string>): set<string> {
    set x | x in xs
  }

  lemma SortedHeadsAgree(xs: seq<string>, ys: seq<string>)
    requires StrictlySorted(xs) && StrictlySorted(ys) && Elements(xs) == Elements(ys) && xs != []
    ensures ys != [] && xs[0] == ys[0]
  {
    assert xs[0] in Elements(ys);
    var j :| 0 <= j < |ys| && ys[j] == xs[0];
    assert ys[0] in Elements(xs);
    var i :| 0 <= i < |xs| && xs[i] == ys[0];
    if i > 0 && j > 0 {
      StringLessTransitive(xs[0], xs[i], xs[0]);
      StringLessIrreflexive(xs[0]);
    }
  }

  lemma NoElements(xs: seq<string>)
    ensures Elements(xs) == {} <==> xs == []
  {
    if xs != [] {
      assert xs[0] in Elements(xs);
    }
  }

  /** There is only one way to sort a set of accounts. */
  lemma {:induction false} SortedIsUnique(xs: seq<string>, ys: seq<string>)
    requires StrictlySorted(xs) && StrictlySorted(ys) && Elements(xs) == Elements(ys)
    ensures xs == ys
  {
    NoElements(xs);
    NoElements(ys);
    if xs != [] {
      SortedHeadsAgree(xs, ys);
      TailElements(xs);
      TailElements(ys);
      SortedIsUnique(xs[1..], ys[1..]);
      assert xs == [xs[0]] + xs[1..] && ys == [ys[0]] + ys[1..];
    }
  }

  lemma TailElements(xs: seq<string>)
    requires StrictlySorted(xs) && xs != []
    ensures Elements(xs[1..]) == Elements(xs) - {xs[0]} && StrictlySorted(xs[1..])
  {
    assert xs == [xs[0]] + xs[1..];
    StringLessIrreflexive(xs[0]);
  }

  function Insert(xs: seq<string>, x: string): seq<string> {
    if xs == [] || StringLess(x, xs[0]) then [x] + xs else [xs[0]] + Insert(xs[1..], x)
  }

  lemma {:induction false} InsertSorts(xs: seq<string>, x: string)
    requires StrictlySorted(xs) && x !in xs
    ensures StrictlySorted(Insert(xs, x)) && Elements(Insert(xs, x)) == Elements(xs) + {x}
  {
    if xs == [] {
    } else if StringLess(x, xs[0]) {
      forall j | 0 < j < |xs|
        ensures StringLess(x, xs[j])
      {
        StringLessTransitive(x, xs[0], xs[j]);
      }
    } else {
      assert xs == [xs[0]] + xs[1..];
      StringLessTotal(x, xs[0]);
      InsertSorts(xs[1..], x);
      var rest := Insert(xs[1..], x);
      forall j | 0 <= j < |rest|
        ensures StringLess(xs[0], rest[j])
      {
        assert rest[j] in Elements(rest);
      }
    }
  }

  /** sort.Strings on distinct strings. */
  method SortStrings(accounts: seq<string>) returns (sorted: seq<string>)
    requires forall i, j :: 0 <= i < j < |accounts| ==> accounts[i] != accounts[j]
    ensures StrictlySorted(sorted) && Elements(sorted) == Elements(accounts)
  {
    sorted := [];
    for i := 0 to |accounts|
      invariant StrictlySorted(sorted) && Elements(sorted) == Elements(accounts[..i])
    {
      assert accounts[i] !in Elements(sorted);
      InsertSorts(sorted, accounts[i]);
      sorted := Insert(sorted, accounts[i]);
      assert accounts[..i + 1] == accounts[..i] + [accounts[i]];
    }
    assert accounts[..|accounts|] == accounts;
  }

  function Decimal(n: nat): string {
    var digit := ["0123456789"[n % 10]];
    if n < 10 then digit else Decimal(n / 10) + digit
  }

  function DecimalOf(v: int64): string {
    if v < 0 then "-" + Decimal(-(v as int)) else Decimal(v as int)
  }

  /** The text for `accounts`, in that order. */
  function Render(b: Balances, accounts: seq<string>): string
    requires forall a :: a in accounts ==> a in b
  {
    if accounts == [] then "BALANCES" else
      var front, last := accounts[..|accounts| - 1], accounts[|accounts| - 1];
      Render(b, front) + " " + last + ":" + DecimalOf(b[last])
  }

  // ---------- What the text says ----------

  predicate IsDigit(c: char) {
    '0' <= c <= '9'
  }

  /** The number a string of digits denotes, most significant first. */
  function ReadDecimal(s: string): nat
    requires forall c :: c in s ==> IsDigit(c)
  {
    if s == [] then 0 else
      var c := s[|s| - 1];
      assert c in s && IsDigit(c);
      ReadDecimal(s[..|s| - 1]) * 10 + (c - '0') as nat
  }

  lemma DigitOf(d: nat)
    requires d < 10
    ensures IsDigit("0123456789"[d]) && ("0123456789"[d] - '0') as nat == d
  {
  }

  /** Reading back what is printed for a number gives the number; it is digits without a leading zero. */
  lemma {:induction false} DecimalReadsBack(n: nat)
    ensures Decimal(n) != [] && (forall c :: c in Decimal(n) ==> IsDigit(c)) && ReadDecimal(Decimal(n)) == n
    ensures n > 0 ==> Decimal(n)[0] != '0'
  {
    DigitOf(n % 10);
    var digit := "0123456789"[n % 10];
    if n < 10 {
      assert Decimal(n) == [digit];
    } else {
      DecimalReadsBack(n / 10);
      assert Decimal(n)[..|Decimal(n)| - 1] == Decimal(n / 10);
    }
  }

  /** The number a printed balance denotes. */
  function ReadBalance(s: string): int
    requires forall c :: c in s ==> IsDigit(c) || c == '-'
  {
    if s != [] && s[0] == '-' && (forall c :: c in s[1..] ==> IsDigit(c)) then 0 - ReadDecimal(s[1..]) as int
    else if (forall c :: c in s ==> IsDigit(c)) then ReadDecimal(s)
    else 0
  }

  lemma ReadsSigned(d: string)
    requires d != [] && forall c :: c in d ==> IsDigit(c)
    ensures ReadBalance(d) == ReadDecimal(d) as int && ReadBalance("-" + d) == -(ReadDecimal(d) as int)
    ensures forall c :: c in "-" + d ==> IsDigit(c) || c == '-'
  {
    hide ReadDecimal;
    assert d[0] in d;
    assert ("-" + d)[1..] == d;
  }

  lemma BalanceReadsBack(v: int64)
    ensures (forall c :: c in DecimalOf(v) ==> IsDigit(c) || c == '-') && ReadBalance(DecimalOf(v)) == v as int
  {
    hide Decimal, ReadDecimal, ReadBalance;
    var n := if v < 0 then -(v as int) else v as int;
    DecimalReadsBack(n);
    ReadsSigned(Decimal(n));
  }

  lemma LastColon(p: string, d: string, i: nat)
    requires ':' !in d && i < |p + ":" + d| && (p + ":" + d)[i] == ':'
    ensures i <= |p|
  {
    var t := p + ":" + d;
    assert forall k :: |p| < k < |t| ==> t[k] == d[k - |p| - 1] && t[k] in d;
  }

  /** A text ends in one way only in a colon and something without a colon. */
  lemma SplitsOnce(p: string, d: string, q: string, e: string)
    requires p + ":" + d == q + ":" + e && ':' !in d && ':' !in e
    ensures p == q && d == e
  {
    var t := p + ":" + d;
    LastColon(p, d, |q|);
    LastColon(q, e, |p|);
    assert t[..|p|] == p && t[..|q|] == q;
    assert t[|p| + 1..] == d && t[|q| + 1..] == e;
  }

  /** The text tells the balances: two printouts of the same accounts are equal only if all balances are. */
  lemma {:induction false} TextTellsBalances(b: Balances, c: Balances, accounts: seq<string>)
    requires forall a :: a in accounts ==> a in b && a in c
    requires Render(b, accounts) == Render(c, accounts)
    ensures forall a :: a in accounts ==> b[a] == c[a]
  {
    hide DecimalOf, ReadBalance;
    if accounts != [] {
      var front, last := accounts[..|accounts| - 1], accounts[|accounts| - 1];
      BalanceReadsBack(b[last]);
      BalanceReadsBack(c[last]);
      var p, q := Render(b, front), Render(c, front);
      SplitsOnce(p + " " + last, DecimalOf(b[last]), q + " " + last, DecimalOf(c[last]));
      assert p + " " + last == p + (" " + last) && q + " " + last == q + (" " + last);
      SameTail(p, q, " " + last);
      TextTellsBalances(b, c, front);
      assert forall a :: a in accounts ==> a in front || a == last;
    }
  }

  lemma SameTail(p: string, q: string, t: string)
    requires p + t == q + t
    ensures p == q
  {
    assert |p| == |q|;
    assert p == (p + t)[..|p|] && q == (q + t)[..|q|];
  }

  /** What is printed for two accounts. */
  lemma PrintedExample()
    ensures Render(map["alice" := 5, "bob" := 120], ["alice", "bob"]) == "BALANCES alice:5 bob:120"
  {
    var b: Balances := map["alice" := 5, "bob" := 120];
    var both := ["alice", "bob"];
    assert "alice"[0] != "bob"[0];
    assert both[..1] == ["alice"] && both[..1][..0] == [];
    assert Decimal(5) == "5" && Decimal(1) == "1" && Decimal(12) == "12" && Decimal(120) == "120";
    assert Render(b, ["alice"]) == "BALANCES alice:5";
  }

  /** `order` is one order in which a range over the map may yield its accounts. */
  ghost predicate Enumerates(order: seq<string>, b: Balances) {
    Elements(order) == b.Keys && forall i, j :: 0 <= i < j < |order| ==> order[i] != order[j]
  }

  method BalancesSnapshotStdSortedString(b: Balances, order: seq<string>) returns (text: string)
    requires Enumerates(order, b)
    ensures forall xs :: StrictlySorted(xs) && Elements(xs) == b.Keys ==>
              (forall a :: a in xs ==> a in b) && text == Render(b, xs)
  {
    var accounts := SortStrings(order);
    assert forall a :: a in accounts <==> a in Elements(accounts);
    text := "BALANCES";
    for i := 0 to |accounts|
      invariant text == Render(b, accounts[..i])
    {
      text := text + " " + accounts[i] + ":" + DecimalOf(b[accounts[i]]);
      assert accounts[..i + 1][..i] == accounts[..i];
    }
    assert accounts[..|accounts|] == accounts;
    forall xs | StrictlySorted(xs) && Elements(xs) == b.Keys
      ensures (forall a :: a in xs ==> a in b) && text == Render(b, xs)
    {
      SortedIsUnique(xs, accounts);
    }
  }
}
