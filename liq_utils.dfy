/** Index-based interest accrual of the liquidity pool
    (liquidity_pool/src/liq_utils.rs). The pool keeps a borrow index that
    grows by the borrow rate each round, a rewards reserve that collects the
    borrowers' interest and a supply index that spreads those rewards over
    the supplied amount. PoolState is the storage as a value and Accrue the
    effect of update_interest_indexes on it; the class Pool holds the storage
    and performs the update step by step. */
module LiqUtils {
  import opened Common
  import Arith
  import LiqMath

  datatype PoolState = PoolState(
    params: PoolParams,
    reserves: nat,
    rewardsReserves: nat,
    borrowedAmount: nat,
    suppliedAmount: nat,
    borrowIndex: nat,
    supplyIndex: nat,
    lastUpdateRound: nat)

  /** Borrowed over supplied (0 for an empty pool). */
  function CapitalUtilisation(s: PoolState): (r: nat)
    ensures s.borrowedAmount <= s.suppliedAmount ==> r <= BP
    ensures s.suppliedAmount == 0 ==> r == 0
  {
    if s.borrowedAmount <= s.suppliedAmount then
      LiqMath.CapitalUtilisationBounded(s.borrowedAmount, s.suppliedAmount);
      LiqMath.ComputeCapitalUtilisation(s.borrowedAmount, s.suppliedAmount)
    else
      LiqMath.ComputeCapitalUtilisation(s.borrowedAmount, s.suppliedAmount)
  }

  /** The borrow rate at the current utilisation; None when the pool
      parameters make the curve divide by zero, where the VM aborts. */
  function GetBorrowRate(s: PoolState): (r: Option<nat>)
    ensures r.Some? <==> LiqMath.BorrowRateDefined(s.params.uOptimal, CapitalUtilisation(s))
    ensures r.Some? ==> r.value >= s.params.rBase
    ensures r.Some? && s.borrowedAmount <= s.suppliedAmount
         ==> r.value <= s.params.rBase + s.params.rSlope1 + s.params.rSlope2
  {
    var u := CapitalUtilisation(s);
    var p := s.params;
    if LiqMath.BorrowRateDefined(p.uOptimal, u) then
      if u <= BP then
        LiqMath.BorrowRateBounded(p.rBase, p.rSlope1, p.rSlope2, p.uOptimal, u);
        Some(LiqMath.ComputeBorrowRate(p.rBase, p.rSlope1, p.rSlope2, p.uOptimal, u))
      else
        Some(LiqMath.ComputeBorrowRate(p.rBase, p.rSlope1, p.rSlope2, p.uOptimal, u))
    else None
  }

  /** The deposit rate at the current utilisation and borrow rate; None where
      the VM aborts (an undefined borrow rate, or a reserve factor above BP). */
  function GetDepositRate(s: PoolState): (r: Option<nat>)
    ensures r.Some? <==> GetBorrowRate(s).Some? && s.params.reserveFactor <= BP
    ensures r.Some? && s.borrowedAmount <= s.suppliedAmount ==> r.value <= GetBorrowRate(s).value
    ensures r.Some? && s.borrowedAmount == 0 ==> r.value == 0
  {
    match GetBorrowRate(s)
    case None => None
    case Some(rate) =>
      if s.params.reserveFactor <= BP then
        var u := CapitalUtilisation(s);
        if u <= BP then
          LiqMath.DepositRateBelowBorrowRate(u, rate, s.params.reserveFactor);
          Some(LiqMath.ComputeDepositRate(u, rate, s.params.reserveFactor))
        else Some(LiqMath.ComputeDepositRate(u, rate, s.params.reserveFactor))
      else None
  }

  /** Reserves plus what is lent out. */
  function GetTotalCapital(s: PoolState): (r: nat)
    ensures r >= s.reserves && r >= s.borrowedAmount
  {
    s.reserves + s.borrowedAmount
  }

  /** Measured against the total capital, utilisation never exceeds 100%. */
  lemma TotalCapitalUtilisationBounded(s: PoolState)
    ensures LiqMath.ComputeCapitalUtilisation(s.borrowedAmount, GetTotalCapital(s)) <= BP
  {
    LiqMath.CapitalUtilisationBounded(s.borrowedAmount, GetTotalCapital(s));
  }

  /** Rounds elapsed since initialRound; "Invalid round" when it lies in the future. */
  function GetRoundDiff(currentRound: nat, initialRound: nat): (r: Result<nat>)
    ensures r.Ok? <==> currentRound >= initialRound
    ensures r.Ok? ==> initialRound + r.value == currentRound
    ensures r.Err? ==> r.msg == "Invalid round"
  {
    if currentRound >= initialRound then Ok(currentRound - initialRound) else Err("Invalid round")
  }

  /** Growth of the borrow index since initialBorrowIndex; "Invalid borrow
      index" when the stored index is below it. */
  function GetBorrowIndexDiff(s: PoolState, initialBorrowIndex: nat): (r: Result<nat>)
    ensures r.Ok? <==> s.borrowIndex >= initialBorrowIndex
    ensures r.Ok? ==> initialBorrowIndex + r.value == s.borrowIndex
    ensures r.Err? ==> r.msg == "Invalid borrow index"
  {
    if s.borrowIndex >= initialBorrowIndex then Ok(s.borrowIndex - initialBorrowIndex)
    else Err("Invalid borrow index")
  }

  /** Interest owed on amount borrowed when the borrow index was initialBorrowIndex. */
  function GetDebtInterest(s: PoolState, amount: nat, initialBorrowIndex: nat): (r: Result<nat>)
    ensures r.Ok? <==> s.borrowIndex >= initialBorrowIndex
    ensures r.Ok? ==> r.value * BP <= amount * (s.borrowIndex - initialBorrowIndex)
    ensures r.Ok? && s.borrowIndex == initialBorrowIndex ==> r.value == 0
  {
    match GetBorrowIndexDiff(s, initialBorrowIndex)
    case Err(m) => Err(m)
    case Ok(diff) => Ok((amount * diff) / BP)
  }

  /** A loan is fully repaid when exactly its amount comes back. */
  predicate IsFullRepay(positionAmount: nat, borrowTokenRepaid: nat) {
    positionAmount == borrowTokenRepaid
  }

  /** The effect of update_interest_indexes in round currentRound: nothing
      in the round of the last update; otherwise the borrow index grows by
      rate * rounds, the rewards reserve by the interest borrowers owe for
      those rounds, the supply index by that interest per supplied unit (when
      anything is supplied), and the round is recorded. */
  function Accrue(s: PoolState, currentRound: nat): (r: Result<PoolState>)
    ensures r.Err? <==> currentRound < s.lastUpdateRound
                        || (currentRound > s.lastUpdateRound && GetBorrowRate(s).None?)
    ensures currentRound == s.lastUpdateRound ==> r == Ok(s)
    ensures r.Ok? ==> && r.value.borrowIndex >= s.borrowIndex
                      && r.value.supplyIndex >= s.supplyIndex
                      && r.value.rewardsReserves >= s.rewardsReserves
                      && r.value.lastUpdateRound == currentRound
    ensures r.Ok? ==> r.value == s.(borrowIndex := r.value.borrowIndex,
                                    supplyIndex := r.value.supplyIndex,
                                    rewardsReserves := r.value.rewardsReserves,
                                    lastUpdateRound := r.value.lastUpdateRound)
    ensures r.Ok? && s.suppliedAmount == 0 ==> r.value.supplyIndex == s.supplyIndex
  {
    match GetRoundDiff(currentRound, s.lastUpdateRound)
    case Err(m) => Err(m)
    case Ok(delta) =>
      if delta == 0 then Ok(s)
      else
        match GetBorrowRate(s)
        case None => Err(ARITHMETIC_PANIC)
        case Some(rate) =>
          Arith.MulNat(rate, delta);
          var growth: nat := rate * delta;
          Arith.MulNat(rate, s.borrowedAmount);
          Arith.MulNat(rate * s.borrowedAmount, delta);
          Arith.DivNat(rate * s.borrowedAmount * delta, BP);
          var increase: nat := (rate * s.borrowedAmount * delta) / BP;
          var supplyGrowth: nat := if s.suppliedAmount != 0 then Arith.DivNat(increase * BP, s.suppliedAmount);
                                                                 (increase * BP) / s.suppliedAmount
                                   else 0;
          Ok(s.(borrowIndex := s.borrowIndex + growth,
                rewardsReserves := s.rewardsReserves + increase,
                supplyIndex := s.supplyIndex + supplyGrowth,
                lastUpdateRound := currentRound))
  }

  /** A second update in the same round changes nothing. */
  lemma AccrueIdempotent(s: PoolState, currentRound: nat)
    requires Accrue(s, currentRound).Ok?
    ensures Accrue(Accrue(s, currentRound).value, currentRound) == Accrue(s, currentRound)
  {
  }

  /** Accrual never lowers the interest a loan owes. */
  lemma {:induction false} AccrueRaisesDebtInterest(s: PoolState, currentRound: nat, amount: nat, initialBorrowIndex: nat)
    requires Accrue(s, currentRound).Ok? && GetDebtInterest(s, amount, initialBorrowIndex).Ok?
    ensures GetDebtInterest(Accrue(s, currentRound).value, amount, initialBorrowIndex).Ok?
    ensures GetDebtInterest(s, amount, initialBorrowIndex).value
         <= GetDebtInterest(Accrue(s, currentRound).value, amount, initialBorrowIndex).value
  {
    var s' := Accrue(s, currentRound).value;
    Arith.MulLe(s.borrowIndex - initialBorrowIndex, s'.borrowIndex - initialBorrowIndex, amount);
    assert amount * (s.borrowIndex - initialBorrowIndex) <= amount * (s'.borrowIndex - initialBorrowIndex);
    Arith.DivLe(amount * (s.borrowIndex - initialBorrowIndex), amount * (s'.borrowIndex - initialBorrowIndex), BP);
  }

  /** The pool's interest storage. */
  class Pool {
    var params: PoolParams
    var reserves: nat
    var rewardsReserves: nat
    var borrowedAmount: nat
    var suppliedAmount: nat
    var borrowIndex: nat
    var supplyIndex: nat
    var lastUpdateRound: nat

    function State(): PoolState
      reads this
    {
      PoolState(params, reserves, rewardsReserves, borrowedAmount, suppliedAmount,
                borrowIndex, supplyIndex, lastUpdateRound)
    }

    /** A pool with the given parameters and every other slot unset (0). */
    constructor (p: PoolParams)
      ensures State() == PoolState(p, 0, 0, 0, 0, 0, 0, 0)
    {
      params, reserves, rewardsReserves, borrowedAmount := p, 0, 0, 0;
      suppliedAmount, borrowIndex, supplyIndex, lastUpdateRound := 0, 0, 0, 0;
    }

    method UpdateBorrowIndex(borrowRate: nat, deltaRounds: nat)
      modifies this
      ensures State() == old(State()).(borrowIndex := old(borrowIndex) + borrowRate * deltaRounds)
      ensures borrowIndex >= old(borrowIndex)
    {
      borrowIndex := borrowIndex + borrowRate * deltaRounds;
    }

    method UpdateSupplyIndex(rewardsIncrease: nat)
      modifies this
      ensures suppliedAmount != 0 ==> State() == old(State()).(supplyIndex := old(supplyIndex) + (rewardsIncrease * BP) / suppliedAmount)
      ensures suppliedAmount == 0 ==> State() == old(State())
      ensures borrowIndex == old(borrowIndex)
    {
      if suppliedAmount != 0 {
        supplyIndex := supplyIndex + (rewardsIncrease * BP) / suppliedAmount;
      }
    }

    method UpdateRewardsReserves(borrowRate: nat, deltaRounds: nat) returns (rewardsIncrease: nat)
      modifies this
      ensures rewardsIncrease == (borrowRate * borrowedAmount * deltaRounds) / BP
      ensures State() == old(State()).(rewardsReserves := old(rewardsReserves) + rewardsIncrease)
      ensures borrowIndex == old(borrowIndex)
    {
      rewardsIncrease := (borrowRate * borrowedAmount * deltaRounds) / BP;
      rewardsReserves := rewardsReserves + rewardsIncrease;
    }

    method UpdateIndexLastUsed(currentRound: nat)
      modifies this
      ensures State() == old(State()).(lastUpdateRound := currentRound)
      ensures borrowIndex == old(borrowIndex)
    {
      lastUpdateRound := currentRound;
    }

    /** update_interest_indexes in block round currentRound; an error aborts
        the call and leaves the storage as it was. */
    method UpdateInterestIndexes(currentRound: nat) returns (r: Result<()>)
      modifies this
      ensures r.Ok? <==> Accrue(old(State()), currentRound).Ok?
      ensures r.Ok? ==> State() == Accrue(old(State()), currentRound).value
      ensures r.Err? ==> r.msg == Accrue(old(State()), currentRound).msg && State() == old(State())
      ensures borrowIndex >= old(borrowIndex)
    {
      var diff := GetRoundDiff(currentRound, lastUpdateRound);
      if diff.Err? {
        return Err(diff.msg);
      }
      var deltaRounds := diff.value;
      if deltaRounds > 0 {
        var rate := GetBorrowRate(State());
        if rate.None? {
          return Err(ARITHMETIC_PANIC);
        }
        UpdateBorrowIndex(rate.value, deltaRounds);
        var rewardsIncrease := UpdateRewardsReserves(rate.value, deltaRounds);
        UpdateSupplyIndex(rewardsIncrease);
        UpdateIndexLastUsed(currentRound);
      }
      r := Ok(());
    }
  }
}
