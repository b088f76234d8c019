/** The interest-rate arithmetic of the index-based liquidity pool
    (liquidity_pool/src/liq_math.rs): a kinked borrow-rate curve, the deposit
    rate, capital utilisation, supply-index interest and the borrowable
    amount. All quantities are in base precision BP. */
module LiqMath {
  import opened Common
  import Arith

  /** The branch of the curve that applies divides by a non-zero number:
      u_optimal below the kink (inclusive), BP - u_optimal above it. */
  predicate BorrowRateDefined(uOptimal: nat, uCurrent: nat) {
    if uCurrent <= uOptimal then uOptimal > 0 else uOptimal < BP
  }

  /** The borrow rate: r_base plus a share of r_slope1 up to the optimal
      utilisation (inclusive), then r_slope1 plus a share of r_slope2. */
  function ComputeBorrowRate(rBase: nat, rSlope1: nat, rSlope2: nat, uOptimal: nat, uCurrent: nat): (r: nat)
    requires BorrowRateDefined(uOptimal, uCurrent)
    ensures r >= rBase
    ensures uCurrent <= uOptimal ==> r <= rBase + rSlope1
    ensures uCurrent > uOptimal ==> r >= rBase + rSlope1
  {
    if uCurrent <= uOptimal then
      Arith.MulNat(uCurrent, rSlope1);
      Arith.DivNat(uCurrent * rSlope1, uOptimal);
      Arith.ShareLe(uCurrent, rSlope1, uOptimal);
      var share: nat := (uCurrent * rSlope1) / uOptimal;
      rBase + share
    else
      var excess: nat := uCurrent - uOptimal;
      var span: nat := BP - uOptimal;
      Arith.MulNat(excess, rSlope2);
      Arith.DivNat(excess * rSlope2, span);
      var steep: nat := (excess * rSlope2) / span;
      (rBase + rSlope1) + steep
  }

  /** At zero utilisation the rate is exactly the base rate. */
  lemma BorrowRateAtZero(rBase: nat, rSlope1: nat, rSlope2: nat, uOptimal: nat)
    requires uOptimal > 0
    ensures ComputeBorrowRate(rBase, rSlope1, rSlope2, uOptimal, 0) == rBase
  {
  }

  /** At the kink the rate is exactly r_base + r_slope1 (the lower branch). */
  lemma BorrowRateAtKink(rBase: nat, rSlope1: nat, rSlope2: nat, uOptimal: nat)
    requires uOptimal > 0
    ensures ComputeBorrowRate(rBase, rSlope1, rSlope2, uOptimal, uOptimal) == rBase + rSlope1
  {
    Arith.MulDivCancel(rSlope1, uOptimal);
  }

  /** Up to full utilisation the rate never exceeds r_base + r_slope1 + r_slope2. */
  lemma BorrowRateBounded(rBase: nat, rSlope1: nat, rSlope2: nat, uOptimal: nat, uCurrent: nat)
    requires BorrowRateDefined(uOptimal, uCurrent) && uCurrent <= BP
    ensures ComputeBorrowRate(rBase, rSlope1, rSlope2, uOptimal, uCurrent) <= rBase + rSlope1 + rSlope2
  {
    if uCurrent <= uOptimal {
      Arith.ShareLe(uCurrent, rSlope1, uOptimal);
    } else {
      Arith.ShareLe(uCurrent - uOptimal, rSlope2, BP - uOptimal);
    }
  }

  /** The rate is monotone non-decreasing in the utilisation, across the kink too. */
  lemma BorrowRateMonotone(rBase: nat, rSlope1: nat, rSlope2: nat, uOptimal: nat, u1: nat, u2: nat)
    requires u1 <= u2
    requires BorrowRateDefined(uOptimal, u1) && BorrowRateDefined(uOptimal, u2)
    ensures ComputeBorrowRate(rBase, rSlope1, rSlope2, uOptimal, u1)
         <= ComputeBorrowRate(rBase, rSlope1, rSlope2, uOptimal, u2)
  {
    if u2 <= uOptimal {
      Arith.MulLe(u1, u2, rSlope1);
      Arith.DivLe(u1 * rSlope1, u2 * rSlope1, uOptimal);
    } else if u1 > uOptimal {
      Arith.MulLe(u1 - uOptimal, u2 - uOptimal, rSlope2);
      Arith.DivLe((u1 - uOptimal) * rSlope2, (u2 - uOptimal) * rSlope2, BP - uOptimal);
    }
  }

  /** The deposit rate u * (u * borrow_rate) * (BP - reserve_factor) / BP^3. */
  function ComputeDepositRate(uCurrent: nat, borrowRate: nat, reserveFactor: nat): (r: nat)
    requires reserveFactor <= BP
    ensures uCurrent == 0 ==> r == 0
    ensures reserveFactor == BP ==> r == 0
  {
    (uCurrent * (uCurrent * borrowRate)) * (BP - reserveFactor) / (BP * BP * BP)
  }

  /** Depositors never earn more than borrowers pay while utilisation is at most 100%. */
  lemma DepositRateBelowBorrowRate(uCurrent: nat, borrowRate: nat, reserveFactor: nat)
    requires reserveFactor <= BP && uCurrent <= BP
    ensures ComputeDepositRate(uCurrent, borrowRate, reserveFactor) <= borrowRate
  {
    Arith.MulLe(uCurrent, BP, borrowRate);
    Arith.MulLe2(uCurrent, BP, uCurrent * borrowRate, BP * borrowRate);
    Arith.MulLe2(uCurrent * (uCurrent * borrowRate), BP * (BP * borrowRate), BP - reserveFactor, BP);
    assert BP * (BP * borrowRate) * BP == borrowRate * (BP * BP * BP);
    Arith.DivLe((uCurrent * (uCurrent * borrowRate)) * (BP - reserveFactor), borrowRate * (BP * BP * BP), BP * BP * BP);
    Arith.MulDivCancel(borrowRate, BP * BP * BP);
  }

  /** The deposit rate grows with the borrow rate. */
  lemma DepositRateMonotone(uCurrent: nat, br1: nat, br2: nat, reserveFactor: nat)
    requires reserveFactor <= BP && br1 <= br2
    ensures ComputeDepositRate(uCurrent, br1, reserveFactor) <= ComputeDepositRate(uCurrent, br2, reserveFactor)
  {
    Arith.MulLe(br1, br2, uCurrent);
    Arith.MulLe(uCurrent * br1, uCurrent * br2, uCurrent);
    Arith.MulLe(uCurrent * (uCurrent * br1), uCurrent * (uCurrent * br2), BP - reserveFactor);
    Arith.DivLe((uCurrent * (uCurrent * br1)) * (BP - reserveFactor),
                (uCurrent * (uCurrent * br2)) * (BP - reserveFactor), BP * BP * BP);
  }

  /** Share of the supplied capital that is borrowed; an empty pool reports 0. */
  function ComputeCapitalUtilisation(borrowedAmount: nat, totalReserves: nat): (r: nat)
    ensures totalReserves == 0 ==> r == 0
    ensures borrowedAmount == 0 ==> r == 0
  {
    if totalReserves == 0 then totalReserves else (borrowedAmount * BP) / totalReserves
  }

  /** Utilisation is at most BP while no more is borrowed than supplied, and exactly BP when all is. */
  lemma CapitalUtilisationBounded(borrowedAmount: nat, totalReserves: nat)
    requires borrowedAmount <= totalReserves
    ensures ComputeCapitalUtilisation(borrowedAmount, totalReserves) <= BP
    ensures 0 < borrowedAmount == totalReserves ==> ComputeCapitalUtilisation(borrowedAmount, totalReserves) == BP
  {
    if totalReserves > 0 {
      Arith.ScaleLe(BP, borrowedAmount, totalReserves);
      if borrowedAmount == totalReserves {
        Arith.MulDivCancel(BP, totalReserves);
      }
    }
  }

  /** Utilisation grows with the borrowed amount. */
  lemma CapitalUtilisationMonotone(b1: nat, b2: nat, totalReserves: nat)
    requires b1 <= b2
    ensures ComputeCapitalUtilisation(b1, totalReserves) <= ComputeCapitalUtilisation(b2, totalReserves)
  {
    if totalReserves > 0 {
      Arith.MulLe(b1, b2, BP);
      Arith.DivLe(b1 * BP, b2 * BP, totalReserves);
    }
  }

  /** Interest earned on amount while the supply index grew from initial to current. */
  function ComputeInterest(amount: nat, currentSupplyIndex: nat, initialSupplyIndex: nat): (r: nat)
    requires currentSupplyIndex >= initialSupplyIndex
    ensures currentSupplyIndex == initialSupplyIndex ==> r == 0
    ensures amount == 0 ==> r == 0
  {
    (currentSupplyIndex - initialSupplyIndex) * amount / BP
  }

  /** What a depositor gets back: the deposit plus the supply-index interest. */
  function ComputeWithdrawalAmount(amount: nat, currentSupplyIndex: nat, initialSupplyIndex: nat): (r: nat)
    requires currentSupplyIndex >= initialSupplyIndex
    ensures r >= amount
    ensures r - amount == ComputeInterest(amount, currentSupplyIndex, initialSupplyIndex)
    ensures currentSupplyIndex == initialSupplyIndex ==> r == amount
  {
    var interest := (currentSupplyIndex - initialSupplyIndex) * amount / BP;
    amount + interest
  }

  /** A later (larger) supply index never pays out less. */
  lemma WithdrawalAmountMonotone(amount: nat, cur1: nat, cur2: nat, initialSupplyIndex: nat)
    requires initialSupplyIndex <= cur1 <= cur2
    ensures ComputeWithdrawalAmount(amount, cur1, initialSupplyIndex)
         <= ComputeWithdrawalAmount(amount, cur2, initialSupplyIndex)
  {
    Arith.MulLe(cur1 - initialSupplyIndex, cur2 - initialSupplyIndex, amount);
    Arith.DivLe((cur1 - initialSupplyIndex) * amount, (cur2 - initialSupplyIndex) * amount, BP);
  }

  /** How much may be borrowed against collateral at the given loan-to-value. */
  function ComputeBorrowableAmount(totalCollateral: nat, loanToValue: nat, decimals: Uint8): (r: nat)
    ensures loanToValue == 0 ==> r == 0
    ensures totalCollateral == 0 ==> r == 0
  {
    Arith.MulNat(totalCollateral, loanToValue);
    Arith.DivNat(totalCollateral * loanToValue, BP);
    var scaled: nat := (totalCollateral * loanToValue) / BP;
    Arith.DivNat(scaled, Pow10(decimals));
    scaled / Pow10(decimals)
  }

  /** With a loan-to-value of at most 100% the borrowable amount never exceeds the collateral. */
  lemma BorrowableAmountBounded(totalCollateral: nat, loanToValue: nat, decimals: Uint8)
    requires loanToValue <= BP
    ensures ComputeBorrowableAmount(totalCollateral, loanToValue, decimals) <= totalCollateral
  {
    Arith.ScaleLe(totalCollateral, loanToValue, BP);
    Arith.DivLeSelf((totalCollateral * loanToValue) / BP, Pow10(decimals));
  }

  /** More collateral never allows less borrowing. */
  lemma BorrowableAmountMonotone(c1: nat, c2: nat, loanToValue: nat, decimals: Uint8)
    requires c1 <= c2
    ensures ComputeBorrowableAmount(c1, loanToValue, decimals) <= ComputeBorrowableAmount(c2, loanToValue, decimals)
  {
    Arith.MulLe(c1, c2, loanToValue);
    Arith.DivLe(c1 * loanToValue, c2 * loanToValue, BP);
    Arith.DivLe((c1 * loanToValue) / BP, (c2 * loanToValue) / BP, Pow10(decimals));
  }
}
