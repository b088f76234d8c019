/** The rate arithmetic of the time-based liquidity pool
    (liquidity_pool/src/math.rs). Its deposit-rate formula is the one LiqMath
    defines; the borrow-rate curve differs from LiqMath's only in taking the
    upper branch at the kink itself, and interest accrues over a year of
    31,556,926 seconds. */
module PoolMath {
  import opened Common
  import Arith
  import LiqMath

  /** Seconds in a year as the liquidity pool counts them (365.2422 days). */
  const SECONDS_IN_YEAR: nat := 31_556_926

  /** The branch taken divides by a non-zero number. */
  predicate BorrowRateDefined(uOptimal: nat, uCurrent: nat) {
    uCurrent < uOptimal || uOptimal < BP
  }

  /** The kinked borrow-rate curve, upper branch from the kink on. */
  function ComputeBorrowRate(rBase: nat, rSlope1: nat, rSlope2: nat, uOptimal: nat, uCurrent: nat): (r: nat)
    requires BorrowRateDefined(uOptimal, uCurrent)
    ensures r >= rBase
    ensures uCurrent < uOptimal ==> r <= rBase + rSlope1
    ensures uCurrent >= uOptimal ==> r >= rBase + rSlope1
  {
    if uCurrent < uOptimal then
      Arith.MulNat(uCurrent, rSlope1);
      Arith.DivNat(uCurrent * rSlope1, uOptimal);
      Arith.ShareLe(uCurrent, rSlope1, uOptimal);
      var share: nat := (uCurrent * rSlope1) / uOptimal;
      rBase + share
    else
      var excess: nat := uCurrent - uOptimal;
      var span: nat := BP - uOptimal;
      Arith.MulNat(excess, rSlope2);
      Arith.DivNat(excess * rSlope2, span);
      var steep: nat := (excess * rSlope2) / span;
      (rBase + rSlope1) + steep
  }

  /** The kink test is strict: at the optimal utilisation the upper branch
      applies, and it gives exactly r_base + r_slope1. */
  lemma BorrowRateAtKink(rBase: nat, rSlope1: nat, rSlope2: nat, uOptimal: nat)
    requires uOptimal < BP
    ensures ComputeBorrowRate(rBase, rSlope1, rSlope2, uOptimal, uOptimal) == rBase + rSlope1
  {
  }

  /** Both curves give r_base + r_slope1 at the kink, so the choice of branch
      there does not matter: wherever both are defined they agree. */
  lemma BorrowRateMatchesLiqMath(rBase: nat, rSlope1: nat, rSlope2: nat, uOptimal: nat, uCurrent: nat)
    requires BorrowRateDefined(uOptimal, uCurrent) && LiqMath.BorrowRateDefined(uOptimal, uCurrent)
    ensures ComputeBorrowRate(rBase, rSlope1, rSlope2, uOptimal, uCurrent)
         == LiqMath.ComputeBorrowRate(rBase, rSlope1, rSlope2, uOptimal, uCurrent)
  {
    if uCurrent == uOptimal {
      LiqMath.BorrowRateAtKink(rBase, rSlope1, rSlope2, uOptimal);
    }
  }

  /** Utilisation without the empty-pool guard: dividing by zero aborts. */
  function ComputeCapitalUtilisation(borrowedAmount: nat, totalReserves: nat): (r: nat)
    requires totalReserves > 0
    ensures borrowedAmount <= totalReserves ==> r <= BP
    ensures borrowedAmount == 0 ==> r == 0
  {
    if borrowedAmount <= totalReserves then Arith.ScaleLe(BP, borrowedAmount, totalReserves); (borrowedAmount * BP) / totalReserves
    else (borrowedAmount * BP) / totalReserves
  }

  /** The interest owed on amount after timeDiff seconds at the yearly rate
      borrowRate, each step rounded down. */
  function ComputeDebt(amount: nat, timeDiff: nat, borrowRate: nat): (r: nat)
    ensures timeDiff == 0 ==> r == 0
    ensures amount == 0 || borrowRate == 0 ==> r == 0
  {
    var timeUnitPercentage := (timeDiff * BP) / SECONDS_IN_YEAR;
    var debtPercentage := (timeUnitPercentage * borrowRate) / BP;
    (debtPercentage * amount) / BP
  }

  /** Over exactly one year the interest is borrowRate applied once. */
  lemma DebtOverOneYear(amount: nat, borrowRate: nat)
    ensures ComputeDebt(amount, SECONDS_IN_YEAR, borrowRate) == (borrowRate * amount) / BP
  {
    Arith.MulDivCancel(BP, SECONDS_IN_YEAR);
    assert (SECONDS_IN_YEAR * BP) / SECONDS_IN_YEAR == BP;
    Arith.MulDivCancel(borrowRate, BP);
    assert (BP * borrowRate) / BP == borrowRate;
  }

  /** A longer loan never owes less. */
  lemma DebtMonotoneInTime(amount: nat, t1: nat, t2: nat, borrowRate: nat)
    requires t1 <= t2
    ensures ComputeDebt(amount, t1, borrowRate) <= ComputeDebt(amount, t2, borrowRate)
  {
    Arith.MulLe(t1, t2, BP);
    Arith.DivLe(t1 * BP, t2 * BP, SECONDS_IN_YEAR);
    var u1, u2 := (t1 * BP) / SECONDS_IN_YEAR, (t2 * BP) / SECONDS_IN_YEAR;
    Arith.MulLe(u1, u2, borrowRate);
    Arith.DivLe(u1 * borrowRate, u2 * borrowRate, BP);
    var p1, p2 := (u1 * borrowRate) / BP, (u2 * borrowRate) / BP;
    Arith.MulLe(p1, p2, amount);
    Arith.DivLe(p1 * amount, p2 * amount, BP);
  }

  /** A higher rate never owes less. */
  lemma DebtMonotoneInRate(amount: nat, timeDiff: nat, r1: nat, r2: nat)
    requires r1 <= r2
    ensures ComputeDebt(amount, timeDiff, r1) <= ComputeDebt(amount, timeDiff, r2)
  {
    var u := (timeDiff * BP) / SECONDS_IN_YEAR;
    Arith.MulLe(r1, r2, u);
    assert u * r1 <= u * r2;
    Arith.DivLe(u * r1, u * r2, BP);
    var p1, p2 := (u * r1) / BP, (u * r2) / BP;
    Arith.MulLe(p1, p2, amount);
    Arith.DivLe(p1 * amount, p2 * amount, BP);
  }

  /** A larger loan never owes less. */
  lemma DebtMonotoneInAmount(a1: nat, a2: nat, timeDiff: nat, borrowRate: nat)
    requires a1 <= a2
    ensures ComputeDebt(a1, timeDiff, borrowRate) <= ComputeDebt(a2, timeDiff, borrowRate)
  {
    var p := (((timeDiff * BP) / SECONDS_IN_YEAR) * borrowRate) / BP;
    Arith.MulLe(a1, a2, p);
    assert p * a1 <= p * a2;
    Arith.DivLe(p * a1, p * a2, BP);
  }

  /** A depositor's payout after timeDiff seconds at the yearly depositRate. */
  function ComputeWithdrawalAmount(amount: nat, timeDiff: nat, depositRate: nat): (r: nat)
    ensures r >= amount
    ensures timeDiff == 0 || depositRate == 0 ==> r == amount
  {
    var percentage := (timeDiff * depositRate) / SECONDS_IN_YEAR;
    var interest := (percentage * amount) / BP;
    amount + interest
  }

  /** Over exactly one year the deposit earns depositRate once. */
  lemma WithdrawalOverOneYear(amount: nat, depositRate: nat)
    ensures ComputeWithdrawalAmount(amount, SECONDS_IN_YEAR, depositRate) == amount + (depositRate * amount) / BP
  {
    Arith.MulDivCancel(depositRate, SECONDS_IN_YEAR);
    assert (SECONDS_IN_YEAR * depositRate) / SECONDS_IN_YEAR == depositRate;
  }

  /** Waiting longer never pays out less. */
  lemma WithdrawalMonotoneInTime(amount: nat, t1: nat, t2: nat, depositRate: nat)
    requires t1 <= t2
    ensures ComputeWithdrawalAmount(amount, t1, depositRate) <= ComputeWithdrawalAmount(amount, t2, depositRate)
  {
    Arith.MulLe(t1, t2, depositRate);
    Arith.DivLe(t1 * depositRate, t2 * depositRate, SECONDS_IN_YEAR);
    var p1, p2 := (t1 * depositRate) / SECONDS_IN_YEAR, (t2 * depositRate) / SECONDS_IN_YEAR;
    Arith.MulLe(p1, p2, amount);
    Arith.DivLe(p1 * amount, p2 * amount, BP);
  }

  /** The borrowable amount for amount units of collateral at a price: the
      collateral's value at the loan-to-value, scaled down by 10^decimals. */
  function ComputeBorrowableAmount(amount: nat, price: nat, loanToValue: nat, decimals: Uint8): (r: nat)
    ensures price == 0 || amount == 0 || loanToValue == 0 ==> r == 0
    ensures loanToValue <= BP ==> r <= amount * price
  {
    Arith.MulNat(amount, price);
    var totalCollateral: nat := amount * price;
    Arith.MulNat(totalCollateral, loanToValue);
    Arith.DivNat(totalCollateral * loanToValue, BP);
    var scaled: nat := (totalCollateral * loanToValue) / BP;
    Arith.DivNat(scaled, Pow10(decimals));
    if loanToValue <= BP then
      Arith.ScaleLe(totalCollateral, loanToValue, BP);
      Arith.DivLeSelf(scaled, Pow10(decimals));
      scaled / Pow10(decimals)
    else
      scaled / Pow10(decimals)
  }

  /** The pool's formula is LiqMath's borrowable amount applied to the
      collateral's value, so the two modules agree on every input. */
  lemma BorrowableMatchesLiqMath(amount: nat, price: nat, loanToValue: nat, decimals: Uint8)
    ensures ComputeBorrowableAmount(amount, price, loanToValue, decimals)
         == LiqMath.ComputeBorrowableAmount(amount * price, loanToValue, decimals)
  {
  }

  /** value * part / total: the share of value that part is of total. */
  function RuleOfThree(value: nat, part: nat, total: nat): (r: nat)
    requires total > 0
    ensures part == 0 ==> r == 0
    ensures part <= total ==> r <= value
    ensures part == total ==> r == value
  {
    if part <= total then
      Arith.ScaleLe(value, part, total);
      if part == total then Arith.MulDivCancel(value, total); (value * part) / total
      else (value * part) / total
    else (value * part) / total
  }
}
