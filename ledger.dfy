/** The balance and summary arithmetic of one account: `calcDisplayBalance`
    and `calcDisplaySummary` in script.js, without the formatting. */
module Ledger {

  /** `movs.reduce((acc, mov) => acc + mov, 0)`. */
  function Sum(movs: seq<real>): real
  {
    if movs == [] then 0.0 else movs[0] + Sum(movs[1..])
  }

  /** `movs.filter(mov => mov > 0)`: every positive movement, as often as it
      occurs, and nothing else (the order is `DepositsConcat`). */
  function Deposits(movs: seq<real>): (r: seq<real>)
    ensures forall m :: m in r <==> m in movs && m > 0.0
    ensures forall m :: m > 0.0 ==> multiset(r)[m] == multiset(movs)[m]
    ensures forall m :: m <= 0.0 ==> multiset(r)[m] == 0
  {
    if movs == [] then []
    else
      assert movs == [movs[0]] + movs[1..];
      (if movs[0] > 0.0 then [movs[0]] else []) + Deposits(movs[1..])
  }

  /** `movs.filter(mov => mov < 0)`: every negative movement, as often as it
      occurs, and nothing else (the order is `WithdrawalsConcat`). */
  function Withdrawals(movs: seq<real>): (r: seq<real>)
    ensures forall m :: m in r <==> m in movs && m < 0.0
    ensures forall m :: m < 0.0 ==> multiset(r)[m] == multiset(movs)[m]
    ensures forall m :: m >= 0.0 ==> multiset(r)[m] == 0
  {
    if movs == [] then []
    else
      assert movs == [movs[0]] + movs[1..];
      (if movs[0] < 0.0 then [movs[0]] else []) + Withdrawals(movs[1..])
  }

  /** The interest earned on one deposit at a percentage rate. */
  function InterestOn(deposit: real, rate: real): real
  {
    deposit * rate / 100.0
  }

  /** `deposits.map(d => d * rate / 100).filter(i => i >= 1)`: the
      per-deposit interest terms that reach the minimum of 1. Which terms
      these are is stated by `InterestTermsOfEarners` and
      `InterestTermsFromDeposits`, their order by `InterestTermsConcat`. */
  function InterestTerms(deposits: seq<real>, rate: real): (r: seq<real>)
    ensures forall t :: t in r ==> t >= 1.0
  {
    if deposits == [] then []
    else
      var t := InterestOn(deposits[0], rate);
      (if t >= 1.0 then [t] else []) + InterestTerms(deposits[1..], rate)
  }

  /** Every deposit whose interest reaches 1 contributes that interest. */
  lemma {:induction false} InterestTermsOfEarners(deposits: seq<real>, rate: real)
    ensures forall i :: 0 <= i < |deposits| && InterestOn(deposits[i], rate) >= 1.0 ==>
      InterestOn(deposits[i], rate) in InterestTerms(deposits, rate)
  {
    if deposits != [] {
      InterestTermsOfEarners(deposits[1..], rate);
      forall i | 1 <= i < |deposits| && InterestOn(deposits[i], rate) >= 1.0
        ensures InterestOn(deposits[i], rate) in InterestTerms(deposits, rate)
      {
        assert deposits[i] == deposits[1..][i - 1];
      }
    }
  }

  /** Every interest term is the interest of one of the deposits. */
  lemma {:induction false} InterestTermsFromDeposits(deposits: seq<real>, rate: real)
    ensures forall t :: t in InterestTerms(deposits, rate) ==>
      exists i :: 0 <= i < |deposits| && t == InterestOn(deposits[i], rate)
  {
    if deposits != [] {
      InterestTermsFromDeposits(deposits[1..], rate);
      forall t | t in InterestTerms(deposits, rate)
        ensures exists i :: 0 <= i < |deposits| && t == InterestOn(deposits[i], rate)
      {
        if t != InterestOn(deposits[0], rate) {
          assert t in InterestTerms(deposits[1..], rate);
          var i :| 0 <= i < |deposits[1..]| && t == InterestOn(deposits[1..][i], rate);
          assert deposits[1..][i] == deposits[i + 1];
        }
      }
    }
  }

  /** The account balance: the value `calcDisplayBalance` stores in the
      account's `balance` field, named after that field. */
  function Balance(movs: seq<real>): real
  {
    Sum(movs)
  }

  /** The money held by several accounts: the sum of their balances. */
  function Total(ledgers: seq<seq<real>>): real
  {
    if ledgers == [] then 0.0 else Balance(ledgers[0]) + Total(ledgers[1..])
  }

  /** Total incomes: the sum of the positive movements. */
  function Incomes(movs: seq<real>): (r: real)
    ensures r >= 0.0
  {
    SumNonNegative(Deposits(movs));
    Sum(Deposits(movs))
  }

  /** Total out: the sum of the negative movements (kept negative). */
  function Out(movs: seq<real>): (r: real)
    ensures r <= 0.0
  {
    SumNonPositive(Withdrawals(movs));
    Sum(Withdrawals(movs))
  }

  /** Total interest: the sum of the interest terms of the deposits. */
  function Interest(movs: seq<real>, rate: real): (r: real)
    ensures r >= 0.0
  {
    SumNonNegative(InterestTerms(Deposits(movs), rate));
    Sum(InterestTerms(Deposits(movs), rate))
  }

  lemma {:induction false} SumNonNegative(s: seq<real>)
    requires forall m :: m in s ==> m >= 0.0
    ensures Sum(s) >= 0.0
  {
    if s != [] {
      assert s[0] in s;
      assert forall m :: m in s[1..] ==> m in s;
      SumNonNegative(s[1..]);
    }
  }

  lemma {:induction false} SumNonPositive(s: seq<real>)
    requires forall m :: m in s ==> m <= 0.0
    ensures Sum(s) <= 0.0
  {
    if s != [] {
      assert s[0] in s;
      assert forall m :: m in s[1..] ==> m in s;
      SumNonPositive(s[1..]);
    }
  }

  /** Summing distributes over concatenation. */
  lemma {:induction false} SumConcat(a: seq<real>, b: seq<real>)
    ensures Sum(a + b) == Sum(a) + Sum(b)
  {
    if a == [] {
      assert a + b == b;
    } else {
      assert (a + b)[1..] == a[1..] + b;
      SumConcat(a[1..], b);
    }
  }

  /** Appending a movement moves the balance by exactly that amount. */
  lemma SumAppend(s: seq<real>, x: real)
    ensures Sum(s + [x]) == Sum(s) + x
  {
    SumConcat(s, [x]);
  }

  /** `filter` keeps the order: the deposits of a concatenation are the
      deposits of the first part followed by those of the second. */
  lemma {:induction false} DepositsConcat(a: seq<real>, b: seq<real>)
    ensures Deposits(a + b) == Deposits(a) + Deposits(b)
  {
    if a != [] {
      assert (a + b)[0] == a[0] && (a + b)[1..] == a[1..] + b;
      DepositsConcat(a[1..], b);
      var h := if a[0] > 0.0 then [a[0]] else [];
      assert Deposits(a) == h + Deposits(a[1..]);
      assert Deposits(a + b) == h + (Deposits(a[1..]) + Deposits(b));
      assert (h + Deposits(a[1..])) + Deposits(b) == h + (Deposits(a[1..]) + Deposits(b));
    } else {
      assert a + b == b;
    }
  }

  /** The same for the withdrawals. */
  lemma {:induction false} WithdrawalsConcat(a: seq<real>, b: seq<real>)
    ensures Withdrawals(a + b) == Withdrawals(a) + Withdrawals(b)
  {
    if a != [] {
      assert (a + b)[0] == a[0] && (a + b)[1..] == a[1..] + b;
      WithdrawalsConcat(a[1..], b);
      var h := if a[0] < 0.0 then [a[0]] else [];
      assert Withdrawals(a) == h + Withdrawals(a[1..]);
      assert Withdrawals(a + b) == h + (Withdrawals(a[1..]) + Withdrawals(b));
      assert (h + Withdrawals(a[1..])) + Withdrawals(b) == h + (Withdrawals(a[1..]) + Withdrawals(b));
    } else {
      assert a + b == b;
    }
  }

  /** The same for the interest terms: `map` and `filter` keep the order. */
  lemma {:induction false} InterestTermsConcat(a: seq<real>, b: seq<real>, rate: real)
    ensures InterestTerms(a + b, rate) == InterestTerms(a, rate) + InterestTerms(b, rate)
  {
    if a != [] {
      assert (a + b)[0] == a[0] && (a + b)[1..] == a[1..] + b;
      InterestTermsConcat(a[1..], b, rate);
      var h := if InterestOn(a[0], rate) >= 1.0 then [InterestOn(a[0], rate)] else [];
      assert InterestTerms(a, rate) == h + InterestTerms(a[1..], rate);
      assert InterestTerms(a + b, rate) == h + (InterestTerms(a[1..], rate) + InterestTerms(b, rate));
      assert (h + InterestTerms(a[1..], rate)) + InterestTerms(b, rate) == h + (InterestTerms(a[1..], rate) + InterestTerms(b, rate));
    } else {
      assert a + b == b;
    }
  }

  /** The balance is incomes plus out: every movement is counted once, in one
      of the two totals (a zero movement adds nothing to either). */
  lemma {:induction false} BalanceIsIncomesPlusOut(movs: seq<real>)
    ensures Balance(movs) == Incomes(movs) + Out(movs)
  {
    if movs != [] {
      BalanceIsIncomesPlusOut(movs[1..]);
      var d := if movs[0] > 0.0 then [movs[0]] else [];
      var w := if movs[0] < 0.0 then [movs[0]] else [];
      SumConcat(d, Deposits(movs[1..]));
      SumConcat(w, Withdrawals(movs[1..]));
    }
  }

  /** Each interest term is at least 1, so the total interest is at least the
      number of qualifying deposits; and since only some deposits earn, with a
      non-negative rate it never exceeds the rate applied to all incomes. */
  lemma {:induction false} InterestTermsBounds(deposits: seq<real>, rate: real)
    requires forall m :: m in deposits ==> m > 0.0
    requires rate >= 0.0
    ensures |InterestTerms(deposits, rate)| as real <= Sum(InterestTerms(deposits, rate))
    ensures Sum(InterestTerms(deposits, rate)) <= InterestOn(Sum(deposits), rate)
  {
    if deposits != [] {
      assert forall m :: m in deposits[1..] ==> m in deposits;
      InterestTermsBounds(deposits[1..], rate);
      var t := InterestOn(deposits[0], rate);
      var head := if t >= 1.0 then [t] else [];
      SumConcat(head, InterestTerms(deposits[1..], rate));
      InterestAdds(deposits[0], Sum(deposits[1..]), rate);
      assert deposits[0] in deposits;
      assert t >= 0.0 by {
        assert deposits[0] * rate >= 0.0;
      }
    }
  }

  lemma InterestAdds(x: real, y: real, rate: real)
    ensures InterestOn(x + y, rate) == InterestOn(x, rate) + InterestOn(y, rate)
  {
    assert (x + y) * rate == x * rate + y * rate;
  }

  lemma InterestBounds(movs: seq<real>, rate: real)
    requires rate >= 0.0
    ensures |InterestTerms(Deposits(movs), rate)| as real <= Interest(movs, rate)
    ensures Interest(movs, rate) <= InterestOn(Incomes(movs), rate)
  {
    InterestTermsBounds(Deposits(movs), rate);
  }

  /** The worked example: deposits 200 and 100 at 1.2% earn 2.4 and 1.2, both
      at least 1, so the interest is 3.6; incomes 300, out -50, balance 250. */
  lemma InterestExample()
    ensures Interest([200.0, -50.0, 100.0], 1.2) == 3.6
    ensures Incomes([200.0, -50.0, 100.0]) == 300.0
    ensures Out([200.0, -50.0, 100.0]) == -50.0
    ensures Balance([200.0, -50.0, 100.0]) == 250.0
  {
  }

  /** A deposit whose interest is below 1 earns nothing: the threshold is per
      term, not on the total (deposits of 50 at 1.5% earn 0.75 each). */
  lemma ThresholdIsPerTerm()
    ensures Interest([50.0, 50.0], 1.5) == 0.0
  {
  }

  /** `movs.some(mov => mov >= threshold)`. */
  function SomeAtLeast(movs: seq<real>, threshold: real): (r: bool)
    ensures r <==> exists i :: 0 <= i < |movs| && movs[i] >= threshold
  {
    if movs == [] then false
    else movs[0] >= threshold || SomeAtLeast(movs[1..], threshold)
  }

  /** The loan rule: a floored amount is granted when some movement is at
      least a tenth of it. */
  predicate LoanCovered(movs: seq<real>, amount: int)
  {
    SomeAtLeast(movs, amount as real * 0.1)
  }

  /** For a positive amount the covering movement is a deposit: the loan rule
      asks for a deposit worth at least a tenth of the loan. */
  lemma {:induction false} CoveredByDeposit(movs: seq<real>, amount: int)
    requires amount > 0 && LoanCovered(movs, amount)
    ensures exists d :: d in Deposits(movs) && d * 10.0 >= amount as real
  {
    if movs[0] >= amount as real * 0.1 {
      assert movs[0] in Deposits(movs);
    } else {
      assert LoanCovered(movs[1..], amount) by {
        var i :| 0 <= i < |movs| && movs[i] >= amount as real * 0.1;
        assert movs[1..][i - 1] == movs[i];
      }
      CoveredByDeposit(movs[1..], amount);
      var d :| d in Deposits(movs[1..]) && d * 10.0 >= amount as real;
      assert d in Deposits(movs);
    }
  }

  /** A deposit of 200 covers a loan of up to 2000 and no more. */
  lemma LoanRefusedExample()
    ensures LoanCovered([200.0, -50.0], 2000)
    ensures !LoanCovered([200.0, -50.0], 2001)
  {
    assert [200.0, -50.0][0] >= 2000 as real * 0.1;
  }
}
