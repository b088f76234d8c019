/** The health factor of a position (lending_pool/src/math.rs; the liquidity
    pool's math.rs computes it with the same formula): the collateral value
    weighted by the liquidation threshold, over the borrowed value. */
module LendingMath {
  import opened Common
  import Arith

  function ComputeHealthFactor(collateralValue: nat, borrowedValue: nat, liquidationThreshold: nat): (r: nat)
    requires borrowedValue > 0
    ensures collateralValue == 0 || liquidationThreshold == 0 ==> r == 0
    ensures r * borrowedValue * BP <= collateralValue * liquidationThreshold
  {
    var allowed := collateralValue * liquidationThreshold;
    var h := allowed / borrowedValue;
    assert h * borrowedValue <= allowed;
    assert (h / BP) * BP <= h;
    Arith.MulLe((h / BP) * BP, h, borrowedValue);
    assert (h / BP) * borrowedValue * BP == (h / BP) * BP * borrowedValue;
    h / BP
  }

  /** Borrowing more never makes a position healthier. */
  lemma HealthFactorAntiMonotoneInDebt(collateralValue: nat, b1: nat, b2: nat, liquidationThreshold: nat)
    requires 0 < b1 <= b2
    ensures ComputeHealthFactor(collateralValue, b2, liquidationThreshold)
         <= ComputeHealthFactor(collateralValue, b1, liquidationThreshold)
  {
    var allowed := collateralValue * liquidationThreshold;
    Arith.DivLeDivisor(allowed, b1, b2);
    Arith.DivLe(allowed / b2, allowed / b1, BP);
  }

  /** More collateral never makes a position less healthy. */
  lemma HealthFactorMonotoneInCollateral(c1: nat, c2: nat, borrowedValue: nat, liquidationThreshold: nat)
    requires c1 <= c2 && borrowedValue > 0
    ensures ComputeHealthFactor(c1, borrowedValue, liquidationThreshold)
         <= ComputeHealthFactor(c2, borrowedValue, liquidationThreshold)
  {
    Arith.MulLe(c1, c2, liquidationThreshold);
    Arith.DivLe(c1 * liquidationThreshold, c2 * liquidationThreshold, borrowedValue);
    Arith.DivLe((c1 * liquidationThreshold) / borrowedValue, (c2 * liquidationThreshold) / borrowedValue, BP);
  }

  /** A higher liquidation threshold never makes a position less healthy. */
  lemma HealthFactorMonotoneInThreshold(collateralValue: nat, borrowedValue: nat, t1: nat, t2: nat)
    requires t1 <= t2 && borrowedValue > 0
    ensures ComputeHealthFactor(collateralValue, borrowedValue, t1)
         <= ComputeHealthFactor(collateralValue, borrowedValue, t2)
  {
    Arith.MulLe(t1, t2, collateralValue);
    assert collateralValue * t1 <= collateralValue * t2;
    Arith.DivLe(collateralValue * t1, collateralValue * t2, borrowedValue);
    Arith.DivLe((collateralValue * t1) / borrowedValue, (collateralValue * t2) / borrowedValue, BP);
  }

  /** A position whose weighted collateral is at least BP times its debt has
      a health factor of at least 1. */
  lemma HealthyWhenCovered(collateralValue: nat, borrowedValue: nat, liquidationThreshold: nat)
    requires borrowedValue > 0
    requires collateralValue * liquidationThreshold >= borrowedValue * BP
    ensures ComputeHealthFactor(collateralValue, borrowedValue, liquidationThreshold) >= 1
  {
    var allowed := collateralValue * liquidationThreshold;
    Arith.MulDivCancel(BP, borrowedValue);
    assert (borrowedValue * BP) / borrowedValue == BP;
    Arith.DivLe(borrowedValue * BP, allowed, borrowedValue);
    Arith.DivLe(BP, allowed / borrowedValue, BP);
  }
}
