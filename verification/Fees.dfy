/** The funding fee: half a percent of the amount, rounded to a whole cent. */
module Fees {
  import opened Domain

  function Abs(x: int): nat {
    if x < 0 then -x else x
  }

  /** 200 times the distance between a fee and half a percent of the amount. */
  function Miss(amount: int, fee: int): nat {
    Abs(200 * fee - amount)
  }

  /** The reference definition: a whole number of cents, and no whole number of cents is
      nearer to half a percent of the amount. Ties may go either way. */
  ghost predicate NearestCent(amount: int, fee: int) {
    && fee % CENT == 0
    && forall cents: int :: Miss(amount, fee) <= Miss(amount, CENT * cents)
  }

  /** The same thing, decidable: at most half a cent away. */
  predicate IsFee(amount: int, fee: int) {
    fee % CENT == 0 && Miss(amount, fee) <= 10000
  }

  lemma NearestCentIsFee(amount: int, fee: int)
    ensures NearestCent(amount, fee) <==> IsFee(amount, fee)
  {
    if NearestCent(amount, fee) {
      var below := amount / 20000;
      assert Miss(amount, fee) <= Miss(amount, CENT * below);
      assert Miss(amount, fee) <= Miss(amount, CENT * (below + 1));
    }
    if IsFee(amount, fee) {
      var k := fee / CENT;
      forall cents: int ensures Miss(amount, fee) <= Miss(amount, CENT * cents) {
        assert fee == CENT * k;
        if cents < k {
          assert 200 * CENT * cents <= 200 * CENT * k - 20000;
        } else if cents > k {
          assert 200 * CENT * cents >= 200 * CENT * k + 20000;
        }
      }
    }
  }

  /** parseFloat((amount * 0.005).toFixed(2)) on exact values, by section 21.1.3.3 of
      ECMA-262: the sign is set aside, and of two equally near values the larger is taken. */
  function FundingFee(amount: int): (fee: int)
    ensures NearestCent(amount, fee)
    ensures IsFee(amount, fee)
  {
    var magnitude := CENT * ((Abs(amount) + 10000) / 20000);
    var fee := if amount < 0 then -magnitude else magnitude;
    NearestCentIsFee(amount, fee);
    fee
  }

  /** The fee is open exactly on a tie, half a cent from both neighbours. */
  lemma FeeOpenOnTies(amount: int, fee: int)
    requires IsFee(amount, fee)
    ensures (exists other: int :: other != fee && IsFee(amount, other)) <==> amount % 20000 == 10000
  {
    if amount % 20000 == 10000 {
      var below := CENT * (amount / 20000);
      assert IsFee(amount, below) && IsFee(amount, below + CENT);
    } else {
      forall other: int | IsFee(amount, other) ensures other == fee {
        TwoFeesTie(amount, fee / CENT, other / CENT);
      }
    }
  }

  lemma TwoFeesTie(amount: int, k: int, j: int)
    requires Abs(20000 * k - amount) <= 10000 && Abs(20000 * j - amount) <= 10000
    ensures k == j || amount % 20000 == 10000
  {
    if k != j {
      var low := if j < k then j else k;
      assert amount == 20000 * low + 10000;
    }
  }

  lemma FeeWithinAmount(amount: int, fee: int)
    requires amount >= 0 && IsFee(amount, fee)
    ensures 0 <= fee <= amount
  {
    assert fee == CENT * (fee / CENT);
  }

  function Sum(xs: seq<int>): int {
    if xs == [] then 0 else Sum(xs[..|xs| - 1]) + xs[|xs| - 1]
  }

  ghost predicate FeesOf(amounts: seq<int>, fees: seq<int>) {
    |fees| == |amounts| && forall i :: 0 <= i < |amounts| ==> IsFee(amounts[i], fees[i])
  }

  /** Over n deposits the fees together stay within n half-cents of half a percent of the total
      (half a cent of fee is 10000 in the unit of Miss). */
  lemma {:induction false} RoundingDrift(amounts: seq<int>, fees: seq<int>)
    requires FeesOf(amounts, fees)
    ensures Miss(Sum(amounts), Sum(fees)) <= 10000 * |amounts|
  {
    if amounts != [] {
      var n := |amounts| - 1;
      RoundingDrift(amounts[..n], fees[..n]);
    }
  }

  /** Charging the parts of a deposit differs from charging the whole by at most n + 1 half-cents. */
  lemma SplitDeposit(amounts: seq<int>, fees: seq<int>, whole: int)
    requires FeesOf(amounts, fees)
    requires IsFee(Sum(amounts), whole)
    ensures 2 * Abs(whole - Sum(fees)) <= CENT * (|amounts| + 1)
  {
    RoundingDrift(amounts, fees);
  }
}
