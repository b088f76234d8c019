/** The liquidity pool contract of liquidity_pool/src/lib.rs, the earliest
    of the three pool versions: a deposit against lend tokens, a loan against
    borrow tokens keyed by the hash of a debt nonce, a collateral top-up, a
    withdrawal, the issue of the two position tokens, and the rate views.

    Storage is the contract storage as a value, with the attributes the VM
    keeps for the position tokens this contract created; each endpoint is a
    function from the old storage to the new one (or to the abort message),
    and class Pool holds the storage and performs each endpoint step by step.
    The rate formulas are those of liquidity_pool/src/library.rs. */
module LpContract {
  import opened Common
  import Arith
  import LiqMath
  import PoolMath
  import LibraryMath
  import LpUtils

  /** The settings the endpoints only read (the callback of issue writes the
      two token slots): the deployer, the lending pool, the pool asset, the
      lend and borrow tokens and the rate parameters (reserve_data). No
      endpoint writes reserve_data, so it stays None, the slot never set;
      reading it then fails to decode and aborts. */
  datatype Config = Config(
    owner: Address,
    lendingPool: Address,
    poolAsset: TokenId,
    lendToken: TokenId,
    borrowToken: TokenId,
    reserveData: Option<PoolParams>)

  datatype DebtPosition = DebtPosition(
    size: nat,
    healthFactor: nat,
    isLiquidated: bool,
    collateralAmount: nat,
    collateralIdentifier: TokenId)

  /** The attributes of a borrow-token nonce. */
  datatype DebtMetadata = DebtMetadata(timestamp: nat, collateralAmount: nat, collateralIdentifier: TokenId)

  /** What the VM keeps about this contract's position tokens, per nonce: the
      deposit time a lend token carries, and the hash and attributes a borrow
      token was created with. */
  datatype Minted = Minted(interest: map<nat, nat>, debt: map<nat, (Hash, DebtMetadata)>)

  /** The loan book: the debt positions by hash, the next debt nonce and
      the total lent out. */
  datatype Debts = Debts(positions: map<Hash, DebtPosition>, nonce: nat, totalBorrow: nat)

  datatype Storage = Storage(
    config: Config,
    reserves: map<TokenId, nat>,
    debts: Debts,
    totalCollateral: nat,
    lastError: string,
    minted: Minted,
    ledger: Ledger)

  /** The name, the ticker and the token already issued for a prefix. */
  datatype IssueData = IssueData(name: string, ticker: TokenId, existingToken: TokenId)

  /** The asynchronous call issue makes to the system contract: the cost, the
      name and the ticker of the token, and the prefix its callback receives. */
  datatype IssueCall = IssueCall(cost: nat, name: string, ticker: TokenId, prefix: string)

  /** What an asynchronous call reports back to its callback. */
  datatype CallResult = CallOk | CallErr(message: string)

  /** Every new position records this health factor (compute_health_factor). */
  const NEW_POSITION_HEALTH: nat := 0

  const SET_LEND_TOKEN_ENDPOINT: string := "setLendTokenAddress"
  const SET_BORROW_TOKEN_ENDPOINT: string := "setBorrowTokenAddress"

  function Reserve(s: Storage, t: TokenId): nat {
    Get(s.reserves, t, 0)
  }

  /** Every debt position is keyed by the hash of a debt nonce already handed
      out, and nonces start at 1. */
  predicate Valid(s: Storage) {
    && s.debts.nonce >= 1
    && forall h :: h in s.debts.positions ==> h.DebtHash? && 1 <= h.nonce < s.debts.nonce
  }

  /** init: the pool asset and lending pool as given, debt nonces from 1, and
      every other slot unset (a token slot never written reads EGLD, and
      reserve_data holds no rate parameters). */
  function InitialStorage(owner: Address, asset: TokenId, lendingPool: Address): (r: Storage)
    ensures Valid(r) && r.debts.nonce == 1 && r.debts.positions == map[]
    ensures r.config.poolAsset == asset && r.config.lendingPool == lendingPool && r.config.owner == owner
    ensures Reserve(r, asset) == 0 && r.debts.totalBorrow == 0
    ensures r.config.lendToken == EGLD && r.config.borrowToken == EGLD && r.config.reserveData.None?
  {
    Storage(Config(owner, lendingPool, asset, EGLD, EGLD, None),
            map[], Debts(map[], 1, 0), 0, [], Minted(map[], map[]), Ledger(map[], []))
  }

  // ---------------------------------------------------------------- views

  /** get_reserve: the pool-asset reserve. */
  function GetReserve(s: Storage): nat {
    Reserve(s, s.config.poolAsset)
  }

  /** get_capital_utilisation: total borrowed over the reserve; an empty
      reserve divides by zero. */
  function GetCapitalUtilisation(s: Storage): (r: Option<nat>)
    ensures r.Some? <==> GetReserve(s) > 0
    ensures r == LpUtils.GetCapitalUtilisation(GetReserve(s), s.debts.totalBorrow)
  {
    if GetReserve(s) == 0 then None
    else Some(PoolMath.ComputeCapitalUtilisation(s.debts.totalBorrow, GetReserve(s)))
  }

  /** _get_borrow_rate: the curve, under the given rate parameters, at the
      given utilisation or at the pool's own. The fallback is an eager
      argument, so the pool's utilisation is computed even when one is
      given, and an empty reserve aborts either way. */
  function GetBorrowRateWith(s: Storage, params: PoolParams, utilisation: Option<nat>): (r: Option<nat>)
    ensures r.Some? ==> GetReserve(s) > 0
    ensures GetReserve(s) > 0 ==> r == LpUtils.GetBorrowRateWith(params, GetReserve(s), s.debts.totalBorrow, utilisation)
  {
    match GetCapitalUtilisation(s)
    case None => None
    case Some(computed) =>
      LpUtils.BorrowRateAt(params, if utilisation.Some? then utilisation.value else computed)
  }

  /** Where the two versions part: given a utilisation on an empty reserve,
      utils.rs evaluates the curve while lib.rs aborts. */
  lemma EagerBorrowRateAbortsOnEmptyReserve(s: Storage, params: PoolParams, u: nat)
    requires GetReserve(s) == 0 && PoolMath.BorrowRateDefined(params.uOptimal, u)
    ensures GetBorrowRateWith(s, params, Some(u)).None?
    ensures LpUtils.GetBorrowRateWith(params, GetReserve(s), s.debts.totalBorrow, Some(u)).Some?
  {
  }

  /** get_borrow_rate: reads reserve_data, then the curve at the pool's own
      utilisation; an unset reserve_data aborts. */
  function GetBorrowRate(s: Storage): (r: Option<nat>)
    ensures s.config.reserveData.None? ==> r.None?
    ensures s.config.reserveData.Some? ==>
      r == LpUtils.GetBorrowRate(s.config.reserveData.value, GetReserve(s), s.debts.totalBorrow)
  {
    match s.config.reserveData
    case None => None
    case Some(params) => GetBorrowRateWith(s, params, None)
  }

  /** get_deposit_rate: the utilisation, then reserve_data, the borrow rate
      at that utilisation and the deposit-rate formula; an unset
      reserve_data or a reserve factor above BP aborts. */
  function GetDepositRate(s: Storage): (r: Option<nat>)
    ensures s.config.reserveData.None? ==> r.None?
    ensures s.config.reserveData.Some? ==>
      r == LpUtils.GetDepositRate(s.config.reserveData.value, GetReserve(s), s.debts.totalBorrow)
  {
    match GetCapitalUtilisation(s)
    case None => None
    case Some(u) =>
      match s.config.reserveData
      case None => None
      case Some(params) =>
        match GetBorrowRateWith(s, params, Some(u))
        case None => None
        case Some(borrowRate) =>
          if params.reserveFactor > BP then None
          else Some(LiqMath.ComputeDepositRate(u, borrowRate, params.reserveFactor))
  }

  /** get_debt: the library debt on amount since timestamp at the current
      borrow rate; a timestamp after now makes the u64 difference go below
      zero. */
  function GetDebt(s: Storage, amount: nat, timestamp: nat, now: nat): (r: Option<nat>)
    ensures s.config.reserveData.None? ==> r.None?
    ensures s.config.reserveData.Some? ==>
      r == LpUtils.GetDebtInterest(s.config.reserveData.value, GetReserve(s), s.debts.totalBorrow, amount, timestamp, now)
  {
    if now < timestamp then None
    else
      match GetBorrowRate(s)
      case None => None
      case Some(borrowRate) => Some(LibraryMath.ComputeDebt(amount, now - timestamp, borrowRate))
  }

  /** No endpoint writes reserve_data (each step keeps the configuration but
      for the token slots the issue callback fills), so in every state
      reached from init the rate views abort. */
  lemma RateViewsAbortWhileUnset(s: Storage, amount: nat, timestamp: nat, now: nat)
    requires s.config.reserveData.None?
    ensures GetBorrowRate(s).None? && GetDepositRate(s).None? && GetDebt(s, amount, timestamp, now).None?
    ensures forall prefix, ticker, paid, result ::
      IssueCallbackStep(s, prefix, ticker, paid, result).config.reserveData.None?
  {
  }

  // ------------------------------------------------------------ endpoints

  /** deposit_asset: any caller, a positive amount of the pool asset; new
      lend tokens, 1:1 and stamped with the block time, go to the depositor,
      and the pool-asset reserve grows by the deposit. */
  function DepositAssetStep(s: Storage, initialCaller: Address, asset: TokenId, amount: nat, now: nat): (r: Result<Storage>)
    ensures r.Ok? <==> amount > 0 && initialCaller != ZERO_ADDRESS && asset == s.config.poolAsset
    ensures r.Ok? ==> GetReserve(r.value) == GetReserve(s) + amount
    ensures r.Ok? ==> forall t :: t != s.config.poolAsset ==> Reserve(r.value, t) == Reserve(s, t)
    ensures r.Ok? ==>
      var n := s.ledger.NextNonce(s.config.lendToken);
      && r.value.minted.interest == s.minted.interest[n := now]
      && r.value.ledger.effects == s.ledger.effects + [Mint(s.config.lendToken, n, amount), Send(initialCaller, s.config.lendToken, n, amount)]
    ensures r.Ok? ==> r.value.debts.positions == s.debts.positions && r.value.debts.nonce == s.debts.nonce
    ensures r.Ok? ==> r.value.config == s.config
  {
    if amount == 0 then Err("payment must be greater than 0")
    else if initialCaller == ZERO_ADDRESS then Err("invalid address provided")
    else if asset != s.config.poolAsset then Err("asset not supported for this liquidity pool")
    else
      var n := s.ledger.NextNonce(s.config.lendToken);
      Ok(s.(minted := s.minted.(interest := s.minted.interest[n := now]),
            ledger := s.ledger.Create(s.config.lendToken, amount).Then([Send(initialCaller, s.config.lendToken, n, amount)]),
            reserves := s.reserves[s.config.poolAsset := GetReserve(s) + amount]))
  }

  /** borrow: lends amount of the pool asset against amount of lend tokens
      (1:1) under the hash of the current debt nonce, which advances by one. */
  function BorrowStep(s: Storage, caller: Address, initialCaller: Address, lendToken: TokenId, amount: nat, now: nat)
    : (r: Result<Storage>)
    ensures r.Ok? ==> caller == s.config.lendingPool && amount > 0 && initialCaller != ZERO_ADDRESS
    ensures caller == s.config.lendingPool && amount > 0 && initialCaller != ZERO_ADDRESS
         ==> (r.Ok? <==> GetReserve(s) >= amount)
    ensures caller == s.config.lendingPool && amount > 0 && initialCaller != ZERO_ADDRESS && GetReserve(s) == 0
         ==> r == Err("asset reserve is empty")
    ensures r.Ok? ==>
      && r.value.debts.nonce == s.debts.nonce + 1
      && r.value.debts.totalBorrow == s.debts.totalBorrow + amount
      && r.value.reserves == s.reserves[s.config.borrowToken := Reserve(s, s.config.borrowToken) + amount]
                                       [s.config.poolAsset := GetReserve(s) - amount]
      && r.value.debts.positions == s.debts.positions[DebtHash(s.debts.nonce) :=
           DebtPosition(amount, NEW_POSITION_HEALTH, false, amount, lendToken)]
    ensures r.Ok? ==>
      var n := s.ledger.NextNonce(s.config.borrowToken);
      && r.value.minted.debt == s.minted.debt[n := (DebtHash(s.debts.nonce), DebtMetadata(now, amount, lendToken))]
      && r.value.ledger.effects == s.ledger.effects + [Mint(s.config.borrowToken, n, amount),
                                                       Send(initialCaller, s.config.borrowToken, n, amount),
                                                       Send(initialCaller, s.config.poolAsset, 0, amount)]
    ensures r.Ok? ==> r.value.config == s.config
  {
    if caller != s.config.lendingPool then Err("can only be called through lending pool")
    else if amount == 0 then Err("lend amount must be bigger then 0")
    else if initialCaller == ZERO_ADDRESS then Err("invalid address provided")
    else
      var borrowsReserve := Reserve(s, s.config.borrowToken);
      var assetReserve := GetReserve(s);
      if assetReserve == 0 then Err("asset reserve is empty")
      else if assetReserve < amount then Err(ARITHMETIC_PANIC)
      else
        var positionId := DebtHash(s.debts.nonce);
        var n := s.ledger.NextNonce(s.config.borrowToken);
        Ok(s.(debts := Debts(s.debts.positions[positionId := DebtPosition(amount, NEW_POSITION_HEALTH, false, amount, lendToken)],
                             s.debts.nonce + 1, s.debts.totalBorrow + amount),
              minted := s.minted.(debt := s.minted.debt[n := (positionId, DebtMetadata(now, amount, lendToken))]),
              ledger := s.ledger.Create(s.config.borrowToken, amount)
                                .Then([Send(initialCaller, s.config.borrowToken, n, amount),
                                       Send(initialCaller, s.config.poolAsset, 0, amount)]),
              reserves := s.reserves[s.config.borrowToken := borrowsReserve + amount][s.config.poolAsset := assetReserve - amount]))
  }

  /** A successful borrow keeps Valid and opens its position under a key no
      earlier position has. */
  lemma {:induction false} BorrowOpensFreshPosition(s: Storage, caller: Address, initialCaller: Address,
                                                     lendToken: TokenId, amount: nat, now: nat)
    requires Valid(s)
    requires BorrowStep(s, caller, initialCaller, lendToken, amount, now).Ok?
    ensures var s' := BorrowStep(s, caller, initialCaller, lendToken, amount, now).value;
      && Valid(s')
      && DebtHash(s.debts.nonce) !in s.debts.positions
      && s'.debts.positions.Keys == s.debts.positions.Keys + {DebtHash(s.debts.nonce)}
  {
    var s' := BorrowStep(s, caller, initialCaller, lendToken, amount, now).value;
    forall h | h in s'.debts.positions
      ensures h.DebtHash? && 1 <= h.nonce < s'.debts.nonce
    {
      if h != DebtHash(s.debts.nonce) {
        assert h in s.debts.positions;
      }
    }
  }

  /** The first loan after init is keyed by the hash of nonce 1. */
  lemma FirstBorrowUsesNonceOne(owner: Address, asset: TokenId, lendingPool: Address, s: Storage,
                                caller: Address, initialCaller: Address, lendToken: TokenId, amount: nat, now: nat)
    requires s == InitialStorage(owner, asset, lendingPool).(reserves := map[asset := amount])
    requires BorrowStep(s, caller, initialCaller, lendToken, amount, now).Ok?
    ensures BorrowStep(s, caller, initialCaller, lendToken, amount, now).value.debts.positions.Keys == {DebtHash(1)}
  {
  }

  /** add_collateral, with the total collateral recorded as written (the
      payment alone) or as intended (the running sum). */
  function AddCollateralWith(s: Storage, caller: Address, lendToken: TokenId, amount: nat, asWritten: bool): (r: Result<Storage>)
    ensures r.Ok? <==> caller == s.config.lendingPool && amount > 0 && lendToken == s.config.lendToken
    ensures r.Ok? ==> Reserve(r.value, lendToken) == Reserve(s, lendToken) + amount
    ensures r.Ok? ==> r.value.totalCollateral == if asWritten then amount else s.totalCollateral + amount
    ensures r.Ok? ==> r.value == s.(reserves := r.value.reserves, totalCollateral := r.value.totalCollateral)
  {
    if caller != s.config.lendingPool then Err("can only be called by lending pool")
    else if amount == 0 then Err("amount must be bigger then 0")
    else if lendToken != s.config.lendToken then Err("lend token is not supported by this pool")
    else
      var lendReserve := Reserve(s, lendToken) + amount;
      var totalCollateral := s.totalCollateral + amount;
      Ok(s.(totalCollateral := if asWritten then amount else totalCollateral,
            reserves := s.reserves[lendToken := lendReserve]))
  }

  /** add_collateral as written forgets earlier top-ups: after two of them
      the total collateral is the second payment alone, while the lend
      reserve holds both. */
  lemma {:induction false} AddCollateralAsWrittenLosesTotal(s: Storage, caller: Address, lendToken: TokenId, a1: nat, a2: nat)
    requires AddCollateralWith(s, caller, lendToken, a1, true).Ok?
    requires a2 > 0
    ensures var s1 := AddCollateralWith(s, caller, lendToken, a1, true).value;
      var s2 := AddCollateralWith(s1, caller, lendToken, a2, true);
      && s2.Ok?
      && s2.value.totalCollateral == a2
      && s2.value.totalCollateral < s.totalCollateral + a1 + a2
      && Reserve(s2.value, lendToken) == Reserve(s, lendToken) + a1 + a2
  {
    var s1 := AddCollateralWith(s, caller, lendToken, a1, true).value;
    assert s1.config == s.config;
  }

  /** add_collateral as intended: the lending pool tops up the lend
      reserve with a positive amount of the lend token, and the total
      collateral grows by the same amount; nothing else changes. */
  function AddCollateralStep(s: Storage, caller: Address, lendToken: TokenId, amount: nat): (r: Result<Storage>)
    ensures r.Ok? <==> caller == s.config.lendingPool && amount > 0 && lendToken == s.config.lendToken
    ensures r.Ok? ==> Reserve(r.value, lendToken) == Reserve(s, lendToken) + amount
    ensures r.Ok? ==> r.value.totalCollateral == s.totalCollateral + amount
    ensures r.Ok? ==> forall t :: t != lendToken ==> Reserve(r.value, t) == Reserve(s, t)
    ensures r.Ok? ==> r.value == s.(reserves := r.value.reserves, totalCollateral := r.value.totalCollateral)
  {
    AddCollateralWith(s, caller, lendToken, amount, false)
  }

  /** Corrected, the total collateral and the lend reserve grow together:
      every top-up adds to both, so their difference is kept. */
  lemma {:induction false} AddCollateralKeepsTotal(s: Storage, caller: Address, lendToken: TokenId, a1: nat, a2: nat)
    requires AddCollateralStep(s, caller, lendToken, a1).Ok?
    requires a2 > 0
    ensures var s1 := AddCollateralStep(s, caller, lendToken, a1).value;
      var s2 := AddCollateralStep(s1, caller, lendToken, a2);
      && s2.Ok?
      && s2.value.totalCollateral == s.totalCollateral + a1 + a2
      && Reserve(s2.value, lendToken) == Reserve(s, lendToken) + a1 + a2
  {
    var s1 := AddCollateralStep(s, caller, lendToken, a1).value;
    assert s1.config == s.config;
  }

  /** withdraw: burns the lend tokens and pays the same amount of the pool
      asset back from a non-empty reserve (no interest in this version). */
  function WithdrawStep(s: Storage, caller: Address, initialCaller: Address, lendToken: TokenId, nonce: nat, amount: nat)
    : (r: Result<Storage>)
    ensures r.Ok? ==> caller == s.config.lendingPool && lendToken == s.config.lendToken
                      && initialCaller != ZERO_ADDRESS && amount > 0
    ensures caller == s.config.lendingPool && lendToken == s.config.lendToken && initialCaller != ZERO_ADDRESS && amount > 0
         ==> (r.Ok? <==> GetReserve(s) >= amount)
    ensures (caller == s.config.lendingPool && lendToken == s.config.lendToken && initialCaller != ZERO_ADDRESS && amount > 0
             && GetReserve(s) == 0) ==> r == Err("asset reserve is empty")
    ensures r.Ok? ==>
      && r.value.reserves == s.reserves[s.config.poolAsset := GetReserve(s) - amount]
      && r.value.ledger.effects == s.ledger.effects + [Burn(lendToken, nonce, amount), Send(initialCaller, s.config.poolAsset, 0, amount)]
      && r.value.debts.positions == s.debts.positions && r.value.debts.nonce == s.debts.nonce
    ensures r.Ok? ==> r.value.config == s.config
  {
    if caller != s.config.lendingPool then Err("liquidity pool can only be called by lending pool")
    else if lendToken != s.config.lendToken then Err("lend token is not supported by this pool")
    else if initialCaller == ZERO_ADDRESS then Err("invalid address")
    else if amount == 0 then Err("amount must be bigger then 0")
    else
      var assetReserve := GetReserve(s);
      if assetReserve == 0 then Err("asset reserve is empty")
      else if assetReserve < amount then Err(ARITHMETIC_PANIC)
      else
        Ok(s.(ledger := s.ledger.Then([Burn(lendToken, nonce, amount), Send(initialCaller, s.config.poolAsset, 0, amount)]),
              reserves := s.reserves[s.config.poolAsset := assetReserve - amount]))
  }

  /** A deposit followed by a withdrawal of the same amount leaves the
      reserve as it was. */
  lemma DepositThenWithdrawRestoresReserve(s: Storage, initialCaller: Address, amount: nat, now: nat,
                                           caller: Address, nonce: nat)
    requires DepositAssetStep(s, initialCaller, s.config.poolAsset, amount, now).Ok?
    requires caller == s.config.lendingPool
    ensures var s1 := DepositAssetStep(s, initialCaller, s.config.poolAsset, amount, now).value;
      var s2 := WithdrawStep(s1, caller, initialCaller, s.config.lendToken, nonce, amount);
      s2.Ok? && s2.value.reserves == s.reserves[s.config.poolAsset := GetReserve(s)]
  {
    var s1 := DepositAssetStep(s, initialCaller, s.config.poolAsset, amount, now).value;
    assert s1.config == s.config;
  }

  /** prepare_issue_data: the ticker is the prefix followed by the asset; the
      lend ("L") and borrow ("B") prefixes name the token and report the token
      already issued for them; any other prefix leaves the name empty. The
      asset's identifier serves as its name. */
  function PrepareIssueData(s: Storage, prefix: string, ticker: TokenId): (r: IssueData)
    ensures r.ticker == prefix + ticker
    ensures prefix == LEND_TOKEN_PREFIX ==> r.name == LEND_TOKEN_NAME + ticker && r.existingToken == s.config.lendToken
    ensures prefix == BORROW_TOKEN_PREFIX ==> r.name == DEBT_TOKEN_NAME + ticker && r.existingToken == s.config.borrowToken
    ensures prefix != LEND_TOKEN_PREFIX && prefix != BORROW_TOKEN_PREFIX ==> r.name == [] && r.existingToken == []
  {
    var data := IssueData([], prefix + ticker, []);
    if prefix == LEND_TOKEN_PREFIX then data.(name := LEND_TOKEN_NAME + ticker, existingToken := s.config.lendToken)
    else if prefix == BORROW_TOKEN_PREFIX then data.(name := DEBT_TOKEN_NAME + ticker, existingToken := s.config.borrowToken)
    else data
  }

  /** The last guard of issue, as written (the prefixed ticker is the unset
      token value) or as intended (the token already issued for the prefix
      is). */
  predicate NotYetIssued(data: IssueData, asWritten: bool) {
    if asWritten then data.ticker == EGLD else data.existingToken == EGLD
  }

  /** issue: owner only, exactly the issue cost, the pool asset as ticker, a
      known prefix and no token issued yet for it; the result is the call to
      the system contract. Nothing is stored until the callback. */
  function IssueWith(s: Storage, caller: Address, tokenTicker: TokenId, prefix: string, cost: nat, asWritten: bool)
    : (r: Result<IssueCall>)
    ensures r.Ok? ==> caller == s.config.owner && cost == ESDT_ISSUE_COST && tokenTicker == s.config.poolAsset
    ensures r.Ok? ==> prefix == LEND_TOKEN_PREFIX || prefix == BORROW_TOKEN_PREFIX
    ensures r.Ok? ==> var d := PrepareIssueData(s, prefix, tokenTicker);
      r.value == IssueCall(cost, d.name, d.ticker, prefix)
  {
    if caller != s.config.owner then Err("only owner can issue new tokens")
    else if cost != ESDT_ISSUE_COST then Err("payment should be exactly 5 EGLD")
    else if tokenTicker != s.config.poolAsset then Err("wrong ESDT asset identifier")
    else
      var data := PrepareIssueData(s, prefix, tokenTicker);
      if data.name == [] then Err("invalid input. could not prepare issue data")
      else if !NotYetIssued(data, asWritten) then Err("token already issued for this identifier")
      else Ok(IssueCall(cost, data.name, data.ticker, prefix))
  }

  /** issue as written never succeeds: past the name check the prefix is
      "L" or "B", so the prefixed ticker starts with that letter and is never
      "EGLD". */
  function IssueAsWritten(s: Storage, caller: Address, tokenTicker: TokenId, prefix: string, cost: nat): (r: Result<IssueCall>)
    ensures r.Err?
  {
    var r := IssueWith(s, caller, tokenTicker, prefix, cost, true);
    if r.Ok? then
      assert (prefix + tokenTicker)[0] == prefix[0];
      r
    else r
  }

  /** issue as intended: it succeeds exactly for the owner paying the cost
      for the pool asset with a known prefix whose token slot is still
      unset, and then sends the issue call for that prefix's token. */
  function IssueStep(s: Storage, caller: Address, tokenTicker: TokenId, prefix: string, cost: nat): (r: Result<IssueCall>)
    ensures r.Ok? <==>
      && caller == s.config.owner && cost == ESDT_ISSUE_COST && tokenTicker == s.config.poolAsset
      && ((prefix == LEND_TOKEN_PREFIX && s.config.lendToken == EGLD)
          || (prefix == BORROW_TOKEN_PREFIX && s.config.borrowToken == EGLD))
    ensures r.Ok? ==> var name := if prefix == LEND_TOKEN_PREFIX then LEND_TOKEN_NAME else DEBT_TOKEN_NAME;
      r.value == IssueCall(cost, name + tokenTicker, prefix + tokenTicker, prefix)
  {
    assert prefix == LEND_TOKEN_PREFIX || prefix == BORROW_TOKEN_PREFIX ==>
      PrepareIssueData(s, prefix, tokenTicker).name[0] in {'I', 'D'};
    IssueWith(s, caller, tokenTicker, prefix, cost, false)
  }

  /** issue_callback: on success the lend prefix sets the lend token and any
      other prefix the borrow token, and the owner is told through the
      matching endpoint; on failure an EGLD payment goes back to the owner
      and the error message is kept. */
  function IssueCallbackStep(s: Storage, prefix: string, ticker: TokenId, amount: nat, result: CallResult): (r: Storage)
    ensures result.CallOk? && prefix == LEND_TOKEN_PREFIX ==>
      r == s.(config := s.config.(lendToken := ticker),
              ledger := s.ledger.Then([Call(s.config.owner, SET_LEND_TOKEN_ENDPOINT, ticker)]))
    ensures result.CallOk? && prefix != LEND_TOKEN_PREFIX ==>
      r == s.(config := s.config.(borrowToken := ticker),
              ledger := s.ledger.Then([Call(s.config.owner, SET_BORROW_TOKEN_ENDPOINT, ticker)]))
    ensures result.CallErr? ==>
      && r.config == s.config && r.lastError == result.message
      && r.ledger.effects == s.ledger.effects + (if ticker == EGLD && amount > 0 then [Send(s.config.owner, EGLD, 0, amount)] else [])
  {
    match result
    case CallOk =>
      if prefix == LEND_TOKEN_PREFIX then
        s.(config := s.config.(lendToken := ticker), ledger := s.ledger.Then([Call(s.config.owner, SET_LEND_TOKEN_ENDPOINT, ticker)]))
      else
        s.(config := s.config.(borrowToken := ticker), ledger := s.ledger.Then([Call(s.config.owner, SET_BORROW_TOKEN_ENDPOINT, ticker)]))
    case CallErr(message) =>
      var refund := if ticker == EGLD && amount > 0 then [Send(s.config.owner, EGLD, 0, amount)] else [];
      s.(ledger := s.ledger.Then(refund), lastError := message)
  }

  /** Once the callback has stored a lend token, the corrected issue refuses a
      second lend token (an issued token is never "EGLD"). */
  lemma NoSecondLendToken(s: Storage, ticker: TokenId, amount: nat, caller: Address, cost: nat)
    requires IsEsdt(ticker)
    ensures var s' := IssueCallbackStep(s, LEND_TOKEN_PREFIX, ticker, amount, CallOk);
      IssueStep(s', caller, s'.config.poolAsset, LEND_TOKEN_PREFIX, cost).Err?
  {
  }

  /** The contract's storage, with the VM's data about its position tokens
      and the log of token effects. */
  class Pool {
    var config: Config
    var reserves: map<TokenId, nat>
    var debts: Debts
    var totalCollateral: nat
    var lastError: string
    var minted: Minted
    var ledger: Ledger

    function State(): Storage
      reads this
    {
      Storage(config, reserves, debts, totalCollateral, lastError, minted, ledger)
    }

    /** init, run by the deployer owner. */
    constructor Init(owner: Address, asset: TokenId, lendingPool: Address)
      ensures State() == InitialStorage(owner, asset, lendingPool)
    {
      config := Config(owner, lendingPool, asset, EGLD, EGLD, None);
      reserves, debts := map[], Debts(map[], 1, 0);
      totalCollateral, lastError := 0, [];
      minted, ledger := Minted(map[], map[]), Ledger(map[], []);
    }

    /** increment_debt_nonce: the nonce after current. */
    method IncrementDebtNonce(current: nat)
      modifies this
      ensures State() == old(State()).(debts := old(debts).(nonce := current + 1))
    {
      debts := debts.(nonce := current + 1);
    }

    method DepositAsset(initialCaller: Address, asset: TokenId, amount: nat, now: nat) returns (r: Result<()>)
      modifies this
      ensures Commits(r, DepositAssetStep(old(State()), initialCaller, asset, amount, now), old(State()), State())
    {
      ghost var step := DepositAssetStep(State(), initialCaller, asset, amount, now);
      if amount == 0 {
        return Err("payment must be greater than 0");
      }
      if initialCaller == ZERO_ADDRESS {
        return Err("invalid address provided");
      }
      var poolAsset := config.poolAsset;
      if asset != poolAsset {
        return Err("asset not supported for this liquidity pool");
      }
      var lendToken := config.lendToken;
      var nonce := ledger.NextNonce(lendToken);
      minted := minted.(interest := minted.interest[nonce := now]);
      ledger := ledger.Create(lendToken, amount).Then([Send(initialCaller, lendToken, nonce, amount)]);
      var assetReserve := Get(reserves, poolAsset, 0);
      assetReserve := assetReserve + amount;
      reserves := reserves[poolAsset := assetReserve];
      r := Ok(());
    }

    method Borrow(caller: Address, initialCaller: Address, lendToken: TokenId, amount: nat, now: nat)
      returns (r: Result<()>)
      modifies this
      ensures Commits(r, BorrowStep(old(State()), caller, initialCaller, lendToken, amount, now), old(State()), State())
    {
      ghost var step := BorrowStep(State(), caller, initialCaller, lendToken, amount, now);
      if caller != config.lendingPool {
        return Err("can only be called through lending pool");
      }
      if amount == 0 {
        return Err("lend amount must be bigger then 0");
      }
      if initialCaller == ZERO_ADDRESS {
        return Err("invalid address provided");
      }
      var borrowsToken, asset := config.borrowToken, config.poolAsset;
      var borrowsReserve := Get(reserves, borrowsToken, 0);
      var assetReserve := Get(reserves, asset, 0);
      if assetReserve == 0 {
        return Err("asset reserve is empty");
      }
      if assetReserve < amount {
        return Err(ARITHMETIC_PANIC);
      }
      var current := debts.nonce;
      var positionId := DebtHash(current);
      IncrementDebtNonce(current);
      var nonce := ledger.NextNonce(borrowsToken);
      minted := minted.(debt := minted.debt[nonce := (positionId, DebtMetadata(now, amount, lendToken))]);
      ledger := ledger.Create(borrowsToken, amount)
                      .Then([Send(initialCaller, borrowsToken, nonce, amount), Send(initialCaller, asset, 0, amount)]);
      reserves := reserves[borrowsToken := borrowsReserve + amount][asset := assetReserve - amount];
      debts := debts.(positions := debts.positions[positionId := DebtPosition(amount, NEW_POSITION_HEALTH, false, amount, lendToken)],
                      totalBorrow := debts.totalBorrow + amount);
      r := Ok(());
    }

    /** add_collateral as intended (see AddCollateralWith). */
    method AddCollateral(caller: Address, lendToken: TokenId, amount: nat) returns (r: Result<()>)
      modifies this
      ensures Commits(r, AddCollateralStep(old(State()), caller, lendToken, amount), old(State()), State())
    {
      ghost var step := AddCollateralStep(State(), caller, lendToken, amount);
      if caller != config.lendingPool {
        return Err("can only be called by lending pool");
      }
      if amount == 0 {
        return Err("amount must be bigger then 0");
      }
      if lendToken != config.lendToken {
        return Err("lend token is not supported by this pool");
      }
      var lendReserve := Get(reserves, lendToken, 0);
      lendReserve := lendReserve + amount;
      totalCollateral := totalCollateral + amount;
      reserves := reserves[lendToken := lendReserve];
      r := Ok(());
    }

    method Withdraw(caller: Address, initialCaller: Address, lendToken: TokenId, nonce: nat, amount: nat)
      returns (r: Result<()>)
      modifies this
      ensures Commits(r, WithdrawStep(old(State()), caller, initialCaller, lendToken, nonce, amount), old(State()), State())
    {
      ghost var step := WithdrawStep(State(), caller, initialCaller, lendToken, nonce, amount);
      if caller != config.lendingPool {
        return Err("liquidity pool can only be called by lending pool");
      }
      if lendToken != config.lendToken {
        return Err("lend token is not supported by this pool");
      }
      if initialCaller == ZERO_ADDRESS {
        return Err("invalid address");
      }
      if amount == 0 {
        return Err("amount must be bigger then 0");
      }
      var poolAsset := config.poolAsset;
      var assetReserve := Get(reserves, poolAsset, 0);
      if assetReserve == 0 {
        return Err("asset reserve is empty");
      }
      if assetReserve < amount {
        return Err(ARITHMETIC_PANIC);
      }
      ledger := ledger.Then([Burn(lendToken, nonce, amount), Send(initialCaller, poolAsset, 0, amount)]);
      reserves := reserves[poolAsset := assetReserve - amount];
      r := Ok(());
    }

    method IssueCallback(prefix: string, ticker: TokenId, amount: nat, result: CallResult)
      modifies this
      ensures State() == IssueCallbackStep(old(State()), prefix, ticker, amount, result)
    {
      match result {
        case CallOk =>
          if prefix == LEND_TOKEN_PREFIX {
            config := config.(lendToken := ticker);
            ledger := ledger.Then([Call(config.owner, SET_LEND_TOKEN_ENDPOINT, ticker)]);
          } else {
            config := config.(borrowToken := ticker);
            ledger := ledger.Then([Call(config.owner, SET_BORROW_TOKEN_ENDPOINT, ticker)]);
          }
        case CallErr(message) =>
          var owner := config.owner;
          if ticker == EGLD && amount > 0 {
            ledger := ledger.Then([Send(owner, EGLD, 0, amount)]);
          } else {
            ledger := ledger.Then([]);
          }
          lastError := message;
      }
    }
  }
}
