/** The helpers of the time-based liquidity pool (liquidity_pool/src/utils.rs):
    the issue data of a position token, and the rate views, which read the
    pool-asset reserve, the total borrowed and the pool parameters and apply
    the formulas of liquidity_pool/src/library.rs. A view returns None where
    the VM would abort (a division by zero or a subtraction below zero).
    get_nft_hash, the one helper that writes storage, is a method of
    LiquidityPool.Pool. */
module LpUtils {
  import opened Common
  import opened LpModels
  import Arith
  import LiqMath
  import PoolMath
  import LibraryMath

  /** The ticker is the prefix followed by the asset's ticker; a lend ("L")
      or borrow ("B") prefix names the token "IntBearing" or "DebtBearing"
      followed by the ticker and reports whether that token's slot is still
      empty; any other prefix leaves the name empty. */
  function PrepareIssueData(prefix: string, ticker: string, lendTokenEmpty: bool, borrowTokenEmpty: bool): (r: IssueData)
    ensures r.ticker == prefix + ticker
    ensures prefix == LEND_TOKEN_PREFIX ==> r.name == LEND_TOKEN_NAME + ticker && r.isEmptyTicker == lendTokenEmpty
    ensures prefix == BORROW_TOKEN_PREFIX ==> r.name == DEBT_TOKEN_NAME + ticker && r.isEmptyTicker == borrowTokenEmpty
    ensures prefix != LEND_TOKEN_PREFIX && prefix != BORROW_TOKEN_PREFIX ==> r.name == [] && r.isEmptyTicker
  {
    var data := IssueData([], prefix + ticker, true);
    if prefix == LEND_TOKEN_PREFIX then data.(name := LEND_TOKEN_NAME + ticker, isEmptyTicker := lendTokenEmpty)
    else if prefix == BORROW_TOKEN_PREFIX then data.(name := DEBT_TOKEN_NAME + ticker, isEmptyTicker := borrowTokenEmpty)
    else data
  }

  /** The name is non-empty exactly for the two known prefixes, and the two
      names can never coincide, so the name tells lend and borrow tokens
      apart; the asset's ticker is recovered from the end of the ticker. */
  lemma {:induction false} IssueDataDeterminesKind(prefix: string, ticker: string, lendTokenEmpty: bool, borrowTokenEmpty: bool)
    ensures var d := PrepareIssueData(prefix, ticker, lendTokenEmpty, borrowTokenEmpty);
      && (d.name != [] <==> prefix == LEND_TOKEN_PREFIX || prefix == BORROW_TOKEN_PREFIX)
      && d.ticker[|prefix|..] == ticker
    ensures PrepareIssueData(LEND_TOKEN_PREFIX, ticker, lendTokenEmpty, borrowTokenEmpty).name
         != PrepareIssueData(BORROW_TOKEN_PREFIX, ticker, lendTokenEmpty, borrowTokenEmpty).name
  {
    var d := PrepareIssueData(prefix, ticker, lendTokenEmpty, borrowTokenEmpty);
    assert d.ticker[|prefix|..] == ticker by { assert d.ticker == prefix + ticker; }
    var lendName := PrepareIssueData(LEND_TOKEN_PREFIX, ticker, lendTokenEmpty, borrowTokenEmpty).name;
    var debtName := PrepareIssueData(BORROW_TOKEN_PREFIX, ticker, lendTokenEmpty, borrowTokenEmpty).name;
    assert lendName[0] == 'I' && debtName[0] == 'D';
  }

  /** get_capital_utilisation: total borrowed over the pool-asset reserve;
      an empty reserve divides by zero. */
  function GetCapitalUtilisation(reserve: nat, totalBorrow: nat): (r: Option<nat>)
    ensures r.Some? <==> reserve > 0
    ensures r.Some? ==> r.value == PoolMath.ComputeCapitalUtilisation(totalBorrow, reserve)
    ensures r.Some? && totalBorrow <= reserve ==> r.value <= BP
  {
    if reserve == 0 then None else Some(PoolMath.ComputeCapitalUtilisation(totalBorrow, reserve))
  }

  /** The library's borrow-rate curve at utilisation u, where it is
      defined: the upper branch subtracts u_optimal from BP and divides by
      the difference. */
  function BorrowRateAt(params: PoolParams, u: nat): (r: Option<nat>)
    ensures r.Some? <==> PoolMath.BorrowRateDefined(params.uOptimal, u)
    ensures r.Some? ==> r.value >= params.rBase
  {
    if PoolMath.BorrowRateDefined(params.uOptimal, u)
    then Some(PoolMath.ComputeBorrowRate(params.rBase, params.rSlope1, params.rSlope2, params.uOptimal, u))
    else None
  }

  /** _get_borrow_rate: the curve at the utilisation given, or at the
      pool's own utilisation when none is given (computed only then). */
  function GetBorrowRateWith(params: PoolParams, reserve: nat, totalBorrow: nat, utilisation: Option<nat>): (r: Option<nat>)
    ensures utilisation.Some? ==> r == BorrowRateAt(params, utilisation.value)
    ensures utilisation.None? ==>
      r == (if reserve == 0 then None else BorrowRateAt(params, GetCapitalUtilisation(reserve, totalBorrow).value))
  {
    match utilisation
    case Some(u) => BorrowRateAt(params, u)
    case None =>
      match GetCapitalUtilisation(reserve, totalBorrow)
      case None => None
      case Some(u) => BorrowRateAt(params, u)
  }

  /** get_borrow_rate: the curve at the pool's own utilisation. */
  function GetBorrowRate(params: PoolParams, reserve: nat, totalBorrow: nat): (r: Option<nat>)
    ensures r.Some? ==> reserve > 0 && r.value >= params.rBase
    ensures r == GetBorrowRateWith(params, reserve, totalBorrow, GetCapitalUtilisation(reserve, totalBorrow))
  {
    GetBorrowRateWith(params, reserve, totalBorrow, None)
  }

  /** get_deposit_rate: one utilisation value feeds both the borrow-rate
      curve and the deposit-rate formula; a reserve factor above BP makes
      BP - reserve_factor go below zero. */
  function GetDepositRate(params: PoolParams, reserve: nat, totalBorrow: nat): (r: Option<nat>)
    ensures r.Some? <==> GetBorrowRate(params, reserve, totalBorrow).Some? && params.reserveFactor <= BP
    ensures r.Some? ==>
      var u := GetCapitalUtilisation(reserve, totalBorrow).value;
      r.value == LiqMath.ComputeDepositRate(u, BorrowRateAt(params, u).value, params.reserveFactor)
    ensures r.Some? && totalBorrow <= reserve ==> r.value <= GetBorrowRate(params, reserve, totalBorrow).value
    ensures r.Some? && totalBorrow == 0 ==> r.value == 0
  {
    match GetCapitalUtilisation(reserve, totalBorrow)
    case None => None
    case Some(u) =>
      match GetBorrowRateWith(params, reserve, totalBorrow, Some(u))
      case None => None
      case Some(borrowRate) =>
        if params.reserveFactor > BP then None
        else
          if totalBorrow <= reserve then
            LiqMath.DepositRateBelowBorrowRate(u, borrowRate, params.reserveFactor);
            Some(LiqMath.ComputeDepositRate(u, borrowRate, params.reserveFactor))
          else
            Some(LiqMath.ComputeDepositRate(u, borrowRate, params.reserveFactor))
  }

  /** get_debt_interest: the library debt on amount since timestamp at the
      current borrow rate; a timestamp in the future makes the u64
      difference go below zero. */
  function GetDebtInterest(params: PoolParams, reserve: nat, totalBorrow: nat, amount: nat, timestamp: nat, now: nat): (r: Option<nat>)
    ensures r.Some? <==> timestamp <= now && GetBorrowRate(params, reserve, totalBorrow).Some?
    ensures r.Some? ==> r.value == LibraryMath.ComputeDebt(amount, now - timestamp, GetBorrowRate(params, reserve, totalBorrow).value)
    ensures r.Some? && timestamp == now ==> r.value == 0
  {
    if now < timestamp then None
    else
      match GetBorrowRate(params, reserve, totalBorrow)
      case None => None
      case Some(borrowRate) => Some(LibraryMath.ComputeDebt(amount, now - timestamp, borrowRate))
  }
}
