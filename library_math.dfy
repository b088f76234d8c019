/** The debt formula of liquidity_pool/src/library.rs. Its borrow-rate curve
    and capital utilisation are those of PoolMath and its deposit rate that of
    LiqMath; only the debt differs: below a 100% debt percentage it rounds up. */
module LibraryMath {
  import opened Common
  import Arith
  import PoolMath

  /** The yearly debt percentage accrued over timeDiff seconds at borrowRate. */
  function DebtPercentage(timeDiff: nat, borrowRate: nat): nat {
    (((timeDiff * BP) / PoolMath.SECONDS_IN_YEAR) * borrowRate) / BP
  }

  /** The interest owed on amount: up to a 100% debt percentage it is the
      amount minus the rounded-down untouched part; above that, the
      percentage applied to the amount. */
  function ComputeDebt(amount: nat, timeDiff: nat, borrowRate: nat): (r: nat)
    ensures DebtPercentage(timeDiff, borrowRate) <= BP ==> r <= amount
    ensures DebtPercentage(timeDiff, borrowRate) > BP ==> r >= amount
    ensures DebtPercentage(timeDiff, borrowRate) == BP ==> r == amount
    ensures timeDiff == 0 ==> r == 0
  {
    var p := DebtPercentage(timeDiff, borrowRate);
    if p <= BP then
      var untouched := ((BP - p) * amount) / BP;
      Arith.ScaleLe(amount, BP - p, BP);
      assert untouched <= amount by { assert (BP - p) * amount == amount * (BP - p); }
      if timeDiff == 0 then Arith.MulDivCancel(amount, BP); amount - untouched
      else amount - untouched
    else
      Arith.MulLe(BP, p, amount);
      Arith.MulDivCancel(amount, BP);
      Arith.DivLe(BP * amount, p * amount, BP);
      (p * amount) / BP
  }

  /** The library rounds the interest to the nearest integer from above where
      math.rs rounds it down: the two differ by at most one unit, and agree
      above a 100% debt percentage or whenever the product divides evenly. */
  lemma {:induction false} DebtMatchesPoolMath(amount: nat, timeDiff: nat, borrowRate: nat)
    ensures PoolMath.ComputeDebt(amount, timeDiff, borrowRate) <= ComputeDebt(amount, timeDiff, borrowRate)
    ensures ComputeDebt(amount, timeDiff, borrowRate) <= PoolMath.ComputeDebt(amount, timeDiff, borrowRate) + 1
    ensures DebtPercentage(timeDiff, borrowRate) > BP
         ==> ComputeDebt(amount, timeDiff, borrowRate) == PoolMath.ComputeDebt(amount, timeDiff, borrowRate)
  {
    var p := DebtPercentage(timeDiff, borrowRate);
    var n := p * amount;
    var q, rem := n / BP, n % BP;
    assert PoolMath.ComputeDebt(amount, timeDiff, borrowRate) == q;
    if p <= BP {
      Arith.MulLe(p, BP, amount);
      assert n <= BP * amount;
      assert (BP - p) * amount == BP * amount - n;
      if rem == 0 {
        assert BP * amount - n == (amount - q) * BP;
        Arith.DivUnique(BP * amount - n, BP, amount - q, 0);
      } else {
        assert q <= amount by {
          Arith.DivLe(n, amount * BP, BP);
          Arith.MulDivCancel(amount, BP);
        }
        assert BP * amount - n == (amount - q - 1) * BP + (BP - rem);
        Arith.DivUnique(BP * amount - n, BP, amount - q - 1, BP - rem);
      }
    }
  }
}
