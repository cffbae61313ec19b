/**
 * The PCV splitter: a table of PCV deposits with ratios in basis points, and the
 * weighted split of the reserve tokens the curve holds.
 */
module Splitter {
  import opened FixedPoint
  import opened Errors

  /** An account or contract address. */
  type Address = nat

  /** The sum of a sequence, taken from its last element backwards. */
  function Sum(s: seq<nat>): nat {
    if |s| == 0 then 0 else Sum(s[..|s| - 1]) + s[|s| - 1]
  }

  /** checkAllocation(deposits, ratios): the table's lengths agree and its ratios add up to exactly 100%. */
  function CheckAllocation(deposits: seq<Address>, ratios: seq<nat>): (r: Outcome)
    ensures r.Pass? <==> |deposits| == |ratios| && Sum(ratios) == GRANULARITY
    ensures |deposits| != |ratios| ==> r == Fail(LengthMismatch)
    ensures |deposits| == |ratios| && Sum(ratios) != GRANULARITY ==> r == Fail(RatiosNotFull)
  {
    if |deposits| != |ratios| then Fail(LengthMismatch)
    else if Sum(ratios) != GRANULARITY then Fail(RatiosNotFull)
    else Pass
  }

  /** The invariant of the stored table: it passes CheckAllocation. */
  predicate ValidAllocation(deposits: seq<Address>, ratios: seq<nat>) {
    CheckAllocation(deposits, ratios).Pass?
  }

  /** The amount one deposit with this ratio receives out of `total`. */
  function Share(total: nat, ratio: nat): (r: nat)
    ensures GRANULARITY * r <= total * ratio < GRANULARITY * (r + 1)
  {
    total * ratio / GRANULARITY
  }

  /** The amount each deposit receives, in table order. */
  function Shares(total: nat, ratios: seq<nat>): (s: seq<nat>)
    ensures |s| == |ratios|
  {
    seq(|ratios|, i requires 0 <= i < |ratios| => Share(total, ratios[i]))
  }

  /** allocate refuses when no deposit would receive anything; in particular when nothing is held. */
  predicate Disbursable(total: nat, ratios: seq<nat>)
    ensures Disbursable(total, ratios) ==> total > 0
  {
    SumOfZeros(Shares(0, ratios));
    Sum(Shares(total, ratios)) > 0
  }

  lemma {:induction false} SumOfZeros(s: seq<nat>)
    requires forall i :: 0 <= i < |s| ==> s[i] == 0
    ensures Sum(s) == 0
  {
    if |s| > 0 {
      SumOfZeros(s[..|s| - 1]);
    }
  }

  // ---------------------------------------------------------------------------
  // Sums and shares

  lemma SharesPrefix(total: nat, ratios: seq<nat>, k: nat)
    requires k <= |ratios|
    ensures Shares(total, ratios)[..k] == Shares(total, ratios[..k])
  {
  }

  lemma SumPrefixStep(s: seq<nat>, i: nat)
    requires i < |s|
    ensures Sum(s[..i + 1]) == Sum(s[..i]) + s[i]
  {
    assert s[..i + 1][..i] == s[..i];
  }

  lemma {:induction false} SumPrefixAtMost(s: seq<nat>, i: nat)
    requires i <= |s|
    ensures Sum(s[..i]) <= Sum(s)
  {
    if i < |s| {
      SumPrefixAtMost(s[..|s| - 1], i);
      assert s[..|s| - 1][..i] == s[..i];
      assert s[..|s|] == s;
    } else {
      assert s[..i] == s;
    }
  }

  /**
   * Splitting truncates each share, so the shares add up to at most the weighted total,
   * and each deposit loses less than one token unit to truncation.
   */
  lemma {:induction false} SplitBounds(total: nat, ratios: seq<nat>)
    ensures GRANULARITY * Sum(Shares(total, ratios)) <= total * Sum(ratios)
    ensures total * Sum(ratios) <= GRANULARITY * Sum(Shares(total, ratios)) + (GRANULARITY - 1) * |ratios|
  {
    if |ratios| > 0 {
      var n := |ratios|;
      var init := ratios[..n - 1];
      SplitBounds(total, init);
      SharesPrefix(total, ratios, n - 1);
      var shares := Shares(total, ratios);
      assert shares[..n - 1] == Shares(total, init);
      var last := Share(total, ratios[n - 1]);
      assert Sum(shares) == Sum(Shares(total, init)) + last;
      assert total * Sum(ratios) == total * Sum(init) + total * ratios[n - 1];
      assert GRANULARITY * Sum(shares) == GRANULARITY * Sum(Shares(total, init)) + GRANULARITY * last;
    }
  }

  /** With a valid table, the shares never exceed what is held and leave less dust than there are deposits. */
  lemma AllocationBounds(total: nat, ratios: seq<nat>)
    requires Sum(ratios) == GRANULARITY
    ensures Sum(Shares(total, ratios)) <= total
    ensures total - Sum(Shares(total, ratios)) < |ratios|
  {
    SplitBounds(total, ratios);
  }

  /** When every weighted share divides evenly, the split hands out exactly the weighted total. */
  lemma {:induction false} ExactSplit(total: nat, ratios: seq<nat>)
    requires forall i :: 0 <= i < |ratios| ==> (total * ratios[i]) % GRANULARITY == 0
    ensures GRANULARITY * Sum(Shares(total, ratios)) == total * Sum(ratios)
  {
    if |ratios| > 0 {
      var n := |ratios|;
      var init := ratios[..n - 1];
      ExactSplit(total, init);
      SharesPrefix(total, ratios, n - 1);
      assert total * Sum(ratios) == total * Sum(init) + total * ratios[n - 1];
    }
  }

  /** With a valid table whose shares divide evenly, allocate drains the whole balance. */
  lemma ExactSplitDrains(total: nat, ratios: seq<nat>)
    requires Sum(ratios) == GRANULARITY
    requires forall i :: 0 <= i < |ratios| ==> (total * ratios[i]) % GRANULARITY == 0
    ensures Sum(Shares(total, ratios)) == total
  {
    ExactSplit(total, ratios);
  }

  /** Nothing is disbursable exactly when every weighted share is below one token unit. */
  lemma {:induction false} DisbursableIff(total: nat, ratios: seq<nat>)
    ensures Disbursable(total, ratios) <==> exists i :: 0 <= i < |ratios| && total * ratios[i] >= GRANULARITY
  {
    if |ratios| > 0 {
      var n := |ratios|;
      var init := ratios[..n - 1];
      DisbursableIff(total, init);
      SharesPrefix(total, ratios, n - 1);
      if Disbursable(total, ratios) {
        if Sum(Shares(total, init)) > 0 {
          var i :| 0 <= i < |init| && total * init[i] >= GRANULARITY;
          assert ratios[i] == init[i];
        } else {
          assert total * ratios[n - 1] >= GRANULARITY;
        }
      } else {
        forall i | 0 <= i < n
          ensures total * ratios[i] < GRANULARITY
        {
          if i < n - 1 {
            assert ratios[i] == init[i];
          }
        }
      }
    }
  }

  /** A held balance of at least one token unit per deposit can always be allocated under a valid table. */
  lemma EnoughHeldIsDisbursable(total: nat, ratios: seq<nat>)
    requires Sum(ratios) == GRANULARITY
    requires total >= |ratios|
    ensures Disbursable(total, ratios)
  {
    AllocationBounds(total, ratios);
  }

  // ---------------------------------------------------------------------------
  // Ledgers of token balances

  /** The balance an account holds in a ledger; accounts not in it hold nothing. */
  function BalanceOf(ledger: map<Address, nat>, a: Address): nat {
    if a in ledger then ledger[a] else 0
  }

  /** The ledger after `amount` is paid to `to`. */
  function Credit(ledger: map<Address, nat>, to: Address, amount: nat): (m: map<Address, nat>)
    ensures BalanceOf(m, to) == BalanceOf(ledger, to) + amount
    ensures forall a :: a != to ==> BalanceOf(m, a) == BalanceOf(ledger, a)
  {
    ledger[to := BalanceOf(ledger, to) + amount]
  }

  /** The ledger after amounts[i] is paid to recipients[i], for each i in order. */
  function CreditAll(ledger: map<Address, nat>, recipients: seq<Address>, amounts: seq<nat>): map<Address, nat>
    requires |recipients| == |amounts|
  {
    if |recipients| == 0 then ledger
    else
      var n := |recipients|;
      Credit(CreditAll(ledger, recipients[..n - 1], amounts[..n - 1]), recipients[n - 1], amounts[n - 1])
  }

  lemma CreditAllStep(ledger: map<Address, nat>, recipients: seq<Address>, amounts: seq<nat>, i: nat)
    requires |recipients| == |amounts| && i < |recipients|
    ensures CreditAll(ledger, recipients[..i + 1], amounts[..i + 1])
            == Credit(CreditAll(ledger, recipients[..i], amounts[..i]), recipients[i], amounts[i])
  {
    assert recipients[..i + 1][..i] == recipients[..i];
    assert amounts[..i + 1][..i] == amounts[..i];
  }

  /** The total of the amounts listed for account `a`. */
  function AmountFor(recipients: seq<Address>, amounts: seq<nat>, a: Address): nat
    requires |recipients| == |amounts|
  {
    if |recipients| == 0 then 0
    else
      var n := |recipients|;
      AmountFor(recipients[..n - 1], amounts[..n - 1], a) + (if recipients[n - 1] == a then amounts[n - 1] else 0)
  }

  /** Paying a list credits every account with the total listed for it and nothing more. */
  lemma {:induction false} CreditAllBalance(ledger: map<Address, nat>, recipients: seq<Address>, amounts: seq<nat>, a: Address)
    requires |recipients| == |amounts|
    ensures BalanceOf(CreditAll(ledger, recipients, amounts), a) == BalanceOf(ledger, a) + AmountFor(recipients, amounts, a)
  {
    if |recipients| > 0 {
      var n := |recipients|;
      CreditAllBalance(ledger, recipients[..n - 1], amounts[..n - 1], a);
    }
  }

  /** Paying a list without repeated recipients credits the k-th recipient with exactly the k-th amount. */
  lemma CreditAllDistinct(ledger: map<Address, nat>, recipients: seq<Address>, amounts: seq<nat>, k: nat)
    requires |recipients| == |amounts| && k < |recipients|
    requires forall i, j :: 0 <= i < j < |recipients| ==> recipients[i] != recipients[j]
    ensures BalanceOf(CreditAll(ledger, recipients, amounts), recipients[k]) == BalanceOf(ledger, recipients[k]) + amounts[k]
  {
    CreditAllBalance(ledger, recipients, amounts, recipients[k]);
    AmountForDistinct(recipients, amounts, k);
  }

  /** In a list without repeated recipients, the k-th recipient is listed for the k-th amount only. */
  lemma {:induction false} AmountForDistinct(recipients: seq<Address>, amounts: seq<nat>, k: nat)
    requires |recipients| == |amounts| && k < |recipients|
    requires forall i, j :: 0 <= i < j < |recipients| ==> recipients[i] != recipients[j]
    ensures AmountFor(recipients, amounts, recipients[k]) == amounts[k]
  {
    var n := |recipients|;
    if k < n - 1 {
      AmountForDistinct(recipients[..n - 1], amounts[..n - 1], k);
    } else {
      AmountForAbsent(recipients[..n - 1], amounts[..n - 1], recipients[k]);
    }
  }

  lemma {:induction false} AmountForAbsent(recipients: seq<Address>, amounts: seq<nat>, a: Address)
    requires |recipients| == |amounts|
    requires forall i :: 0 <= i < |recipients| ==> recipients[i] != a
    ensures AmountFor(recipients, amounts, a) == 0
  {
    if |recipients| > 0 {
      var n := |recipients|;
      AmountForAbsent(recipients[..n - 1], amounts[..n - 1], a);
    }
  }
}
