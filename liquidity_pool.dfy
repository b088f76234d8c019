/** The time-based liquidity pool (liquidity_pool/src/liquidity_pool.rs):
    endpoints the lending pool calls to deposit the pool asset against lend
    tokens, lend it out against borrow tokens, lock borrow tokens for a
    repayment, take the repayment, pay depositors back and mark positions
    liquidated. Interest comes from the rate views of LpUtils.

    Storage is the storage as a value, with the data the VM keeps for the
    position tokens this contract created; each endpoint is a function from
    the old storage to the new one (or to the abort message), and class Pool
    holds the storage and performs each endpoint step by step. */
module LiquidityPool {
  import opened Common
  import opened LpModels
  import PoolMath
  import LpUtils

  /** What the VM keeps for a borrow-token nonce: the hash it was created
      with and its attributes (None when they do not decode). */
  datatype BorrowTokenData = BorrowTokenData(hash: Hash, attributes: Option<DebtMetadata>)

  /** The health factor every new position records (utils.rs). */
  const NEW_POSITION_HEALTH: nat := 1

  const PARSE_ERROR: string := "could not parse token metadata"

  /** The settings the endpoints only read: the lending pool (the only
      caller allowed), the pool asset, the two position tokens, the rate
      parameters and the liquidation threshold. */
  datatype Config = Config(
    lendingPool: Address,
    poolAsset: TokenId,
    lendToken: TokenId,
    borrowToken: TokenId,
    params: PoolParams,
    healthFactorThreshold: nat)

  /** The slots withdraw and repay write for debugging and nothing reads. */
  datatype Records = Records(
    assetReserve: nat,
    withdrawAmount: nat,
    repayPositionAmount: nat,
    repayPositionId: TokenId,
    repayPositionNonce: nat)

  /** What the VM keeps about this contract's position tokens, per nonce:
      the deposit time of a lend token and the data of a borrow token (None
      where the attributes do not decode). */
  datatype TokenData = TokenData(lend: map<nat, Option<nat>>, borrow: map<nat, BorrowTokenData>)

  datatype Storage = Storage(
    config: Config,
    reserves: map<TokenId, nat>,
    debtPositions: map<Hash, DebtPosition>,
    repayPositions: map<Hash, RepayPosition>,
    debtNonce: nat,
    totalBorrow: nat,
    records: Records,
    tokenData: TokenData,
    ledger: Ledger)

  function Reserve(s: Storage, t: TokenId): nat {
    Get(s.reserves, t, 0)
  }

  /** get_debt_interest at the current reserve, total borrowed and parameters. */
  function DebtInterest(s: Storage, amount: nat, timestamp: nat, now: nat): Option<nat> {
    LpUtils.GetDebtInterest(s.config.params, Reserve(s, s.config.poolAsset), s.totalBorrow, amount, timestamp, now)
  }

  /** Every debt position is keyed by the hash of a debt nonce already handed
      out, so the next nonce names no position yet. */
  predicate Valid(s: Storage) {
    forall h :: h in s.debtPositions ==> h.DebtHash? && h.nonce < s.debtNonce
  }

  /** deposit_asset: the pool asset only; new lend tokens, 1:1 with the
      deposit and stamped with the block time, go to the depositor, and the
      pool-asset reserve grows by the deposit. */
  function DepositAssetStep(s: Storage, caller: Address, initialCaller: Address, asset: TokenId, amount: nat, now: nat): (r: Result<Storage>)
    ensures r.Ok? <==> caller == s.config.lendingPool && asset == s.config.poolAsset
    ensures caller == s.config.lendingPool && asset != s.config.poolAsset ==> r == Err("asset not supported for this liquidity pool")
    ensures r.Ok? ==> Reserve(r.value, s.config.poolAsset) == Reserve(s, s.config.poolAsset) + amount
    ensures r.Ok? ==> forall t :: t != s.config.poolAsset ==> Reserve(r.value, t) == Reserve(s, t)
    ensures r.Ok? ==>
      var n := s.ledger.NextNonce(s.config.lendToken);
      && r.value.tokenData.lend == s.tokenData.lend[n := Some(now)]
      && r.value.ledger.effects == s.ledger.effects + [Mint(s.config.lendToken, n, amount), Send(initialCaller, s.config.lendToken, n, amount)]
    ensures r.Ok? ==> r.value.debtPositions == s.debtPositions && r.value.debtNonce == s.debtNonce
    ensures r.Ok? ==> r.value == s.(reserves := r.value.reserves, ledger := r.value.ledger,
                                    tokenData := s.tokenData.(lend := r.value.tokenData.lend))
  {
    if caller != s.config.lendingPool then Err("permission denied")
    else if asset != s.config.poolAsset then Err("asset not supported for this liquidity pool")
    else
      var n := s.ledger.NextNonce(s.config.lendToken);
      Ok(s.(ledger := s.ledger.Create(s.config.lendToken, amount).Then([Send(initialCaller, s.config.lendToken, n, amount)]),
            tokenData := s.tokenData.(lend := s.tokenData.lend[n := Some(now)]),
            reserves := s.reserves[s.config.poolAsset := Reserve(s, s.config.poolAsset) + amount]))
  }

  /** borrow: lends amount of the pool asset against amount of lend tokens
      (1:1); the position is keyed by the hash of the current debt nonce,
      which then advances. */
  function BorrowStep(s: Storage, caller: Address, initialCaller: Address, lendToken: TokenId, amount: nat,
                      timestamp: nat, now: nat): (r: Result<Storage>)
    ensures r.Ok? ==> caller == s.config.lendingPool && amount > 0 && initialCaller != ZERO_ADDRESS
    ensures r.Ok? ==> Reserve(s, s.config.poolAsset) >= amount
    ensures caller == s.config.lendingPool && amount > 0 && initialCaller != ZERO_ADDRESS
         ==> (r.Ok? <==> Reserve(s, s.config.poolAsset) >= amount)
    ensures caller == s.config.lendingPool && amount > 0 && initialCaller != ZERO_ADDRESS && Reserve(s, s.config.poolAsset) == 0
         ==> r == Err("asset reserve is empty")
    ensures r.Ok? ==>
      && r.value.reserves == s.reserves[s.config.borrowToken := Reserve(s, s.config.borrowToken) + amount]
                                       [s.config.poolAsset := Reserve(s, s.config.poolAsset) - amount]
      && r.value.totalBorrow == s.totalBorrow + amount
      && r.value.debtNonce == s.debtNonce + 1
      && r.value.debtPositions == s.debtPositions[DebtHash(s.debtNonce) :=
           DebtPosition(amount, NEW_POSITION_HEALTH, false, now, amount, lendToken)]
    ensures r.Ok? ==>
      var n := s.ledger.NextNonce(s.config.borrowToken);
      && r.value.tokenData.borrow == s.tokenData.borrow[n :=
           BorrowTokenData(DebtHash(s.debtNonce), Some(DebtMetadata(now, amount, lendToken, timestamp)))]
      && r.value.ledger.effects == s.ledger.effects + [Mint(s.config.borrowToken, n, amount), Send(initialCaller, s.config.borrowToken, n, amount),
                                         Send(initialCaller, s.config.poolAsset, 0, amount)]
    ensures r.Ok? ==> r.value == s.(reserves := r.value.reserves, debtPositions := r.value.debtPositions,
                                    debtNonce := r.value.debtNonce, totalBorrow := r.value.totalBorrow, ledger := r.value.ledger,
                                    tokenData := s.tokenData.(borrow := r.value.tokenData.borrow))
  {
    if caller != s.config.lendingPool then Err("can only be called through lending pool")
    else if amount == 0 then Err("lend amount must be bigger then 0")
    else if initialCaller == ZERO_ADDRESS then Err("invalid address provided")
    else
      var borrowsReserve := Reserve(s, s.config.borrowToken);
      var assetReserve := Reserve(s, s.config.poolAsset);
      if assetReserve == 0 then Err("asset reserve is empty")
      else if assetReserve < amount then Err(ARITHMETIC_PANIC)
      else
        var positionId := DebtHash(s.debtNonce);
        var metadata := DebtMetadata(now, amount, lendToken, timestamp);
        var n := s.ledger.NextNonce(s.config.borrowToken);
        Ok(s.(debtNonce := s.debtNonce + 1,
              ledger := s.ledger.Create(s.config.borrowToken, amount)
                                .Then([Send(initialCaller, s.config.borrowToken, n, amount), Send(initialCaller, s.config.poolAsset, 0, amount)]),
              tokenData := s.tokenData.(borrow := s.tokenData.borrow[n := BorrowTokenData(positionId, Some(metadata))]),
              totalBorrow := s.totalBorrow + amount,
              reserves := s.reserves[s.config.borrowToken := borrowsReserve + amount][s.config.poolAsset := assetReserve - amount],
              debtPositions := s.debtPositions[positionId := DebtPosition(amount, NEW_POSITION_HEALTH, false, now, amount, lendToken)]))
  }

  /** A successful borrow keeps Valid and opens a position under a key that
      was free: no earlier position is overwritten, and the new one is not
      liquidated and has size and collateral equal to the amount. */
  lemma {:induction false} BorrowOpensFreshPosition(s: Storage, caller: Address, initialCaller: Address, lendToken: TokenId,
                                                     amount: nat, timestamp: nat, now: nat)
    requires Valid(s)
    requires BorrowStep(s, caller, initialCaller, lendToken, amount, timestamp, now).Ok?
    ensures var s' := BorrowStep(s, caller, initialCaller, lendToken, amount, timestamp, now).value;
      && Valid(s')
      && DebtHash(s.debtNonce) !in s.debtPositions
      && s'.debtPositions.Keys == s.debtPositions.Keys + {DebtHash(s.debtNonce)}
      && var pos := s'.debtPositions[DebtHash(s.debtNonce)];
      && !pos.isLiquidated && pos.size == amount && pos.collateralAmount == amount
  {
    var s' := BorrowStep(s, caller, initialCaller, lendToken, amount, timestamp, now).value;
    forall h | h in s'.debtPositions
      ensures h.DebtHash? && h.nonce < s'.debtNonce
    {
      if h != DebtHash(s.debtNonce) {
        assert h in s.debtPositions;
      }
    }
  }

  /** lock_b_tokens: borrow tokens of an open, non-liquidated position are
      locked for a repayment under a fresh id (the hash of token, amount and
      nonce), with the loan's data copied from the token's attributes. */
  function LockBTokensStep(s: Storage, caller: Address, initialCaller: Address, borrowToken: TokenId, amount: nat,
                           nftNonce: nat): (r: Result<(Storage, Hash)>)
    ensures r.Ok? ==> caller == s.config.lendingPool && amount > 0 && initialCaller != ZERO_ADDRESS && borrowToken == s.config.borrowToken
    ensures caller == s.config.lendingPool && amount > 0 && initialCaller != ZERO_ADDRESS && borrowToken != s.config.borrowToken
         ==> r == Err("borrow token not supported by this pool")
    ensures r.Ok? ==>
      && nftNonce in s.tokenData.borrow
      && var data := s.tokenData.borrow[nftNonce];
      && data.hash in s.debtPositions
      && s.debtPositions[data.hash] != DEFAULT_POSITION
      && !s.debtPositions[data.hash].isLiquidated
      && data.attributes.Some?
      && var md := data.attributes.value;
      && r.value.1 == RepayHash(borrowToken, amount, nftNonce)
      && r.value.0 == s.(repayPositions := s.repayPositions[r.value.1 :=
           RepayPosition(borrowToken, amount, nftNonce, md.timestamp, md.collateralIdentifier, md.collateralAmount, md.collateralTimestamp)])
  {
    if caller != s.config.lendingPool then Err("can only be called by lending pool")
    else if amount == 0 then Err("amount must be greater then 0")
    else if initialCaller == ZERO_ADDRESS then Err("invalid address")
    else if borrowToken != s.config.borrowToken then Err("borrow token not supported by this pool")
    else if nftNonce !in s.tokenData.borrow then Err("invalid debt position")
    else
      var data := s.tokenData.borrow[nftNonce];
      var pos := Get(s.debtPositions, data.hash, DEFAULT_POSITION);
      if pos == DEFAULT_POSITION then Err("invalid debt position")
      else if pos.isLiquidated then Err("position is liquidated")
      else
        match data.attributes
        case None => Err(PARSE_ERROR)
        case Some(md) =>
          var id := RepayHash(borrowToken, amount, nftNonce);
          var rp := RepayPosition(borrowToken, amount, nftNonce, md.timestamp, md.collateralIdentifier,
                                  md.collateralAmount, md.collateralTimestamp);
          Ok((s.(repayPositions := s.repayPositions[id := rp]), id))
  }

  /** The repay position after a payment of amount: gone when the locked
      amount plus interest is exactly the payment, reduced when more is
      locked than paid, unchanged otherwise. */
  function ApplyRepayment(positions: map<Hash, RepayPosition>, id: Hash, amount: nat, interest: nat): (r: map<Hash, RepayPosition>)
    requires id in positions
    ensures positions[id].amount + interest == amount ==> r == positions - {id}
    ensures positions[id].amount + interest != amount && positions[id].amount > amount
         ==> r == positions[id := positions[id].(amount := positions[id].amount - amount)]
    ensures positions[id].amount + interest != amount && positions[id].amount <= amount ==> r == positions
  {
    var rp := positions[id];
    if rp.amount + interest == amount then positions - {id}
    else if rp.amount > amount then positions[id := rp.(amount := rp.amount - amount)]
    else positions
  }

  /** repay: a payment of the pool asset against locked borrow tokens of an
      open, non-liquidated position; returns the repay position with the
      amount paid. */
  function RepayStep(s: Storage, caller: Address, uniqueId: Hash, asset: TokenId, amount: nat, now: nat)
    : (r: Result<(Storage, RepayPosition)>)
    ensures r.Ok? ==> caller == s.config.lendingPool && amount > 0 && asset == s.config.poolAsset
    ensures caller == s.config.lendingPool && amount > 0 && asset == s.config.poolAsset && uniqueId !in s.repayPositions
         ==> r == Err("there are no locked borrowed token for this id, lock b tokens first")
    ensures r.Ok? ==>
      && uniqueId in s.repayPositions
      && var rp := s.repayPositions[uniqueId];
      && rp.amount >= amount
      && rp.nonce in s.tokenData.borrow
      && s.tokenData.borrow[rp.nonce].hash in s.debtPositions
      && !s.debtPositions[s.tokenData.borrow[rp.nonce].hash].isLiquidated
      && DebtInterest(s, rp.amount, rp.borrowTimestamp, now).Some?
      && r.value.1 == rp.(amount := amount)
      && r.value.0 == s.(repayPositions := ApplyRepayment(s.repayPositions, uniqueId, amount,
                                                          DebtInterest(s, rp.amount, rp.borrowTimestamp, now).value),
                         records := s.records.(repayPositionAmount := amount, repayPositionId := rp.identifier,
                                               repayPositionNonce := rp.nonce))
  {
    if caller != s.config.lendingPool then Err("function can only be called by lending pool")
    else if amount == 0 then Err("amount must be greater then 0")
    else if asset != s.config.poolAsset then Err("asset is not supported by this pool")
    else if uniqueId !in s.repayPositions then Err("there are no locked borrowed token for this id, lock b tokens first")
    else
      var rp := s.repayPositions[uniqueId];
      if rp.amount < amount then Err("b tokens amount locked must be equal with the amount of asset token send")
      else if rp.nonce !in s.tokenData.borrow || s.tokenData.borrow[rp.nonce].hash !in s.debtPositions then
        Err("invalid debt position id")
      else
        var pos := s.debtPositions[s.tokenData.borrow[rp.nonce].hash];
        if pos.isLiquidated then Err("position is liquidated")
        else
          match DebtInterest(s, rp.amount, rp.borrowTimestamp, now)
          case None => Err(ARITHMETIC_PANIC)
          case Some(interest) =>
            Ok((s.(repayPositions := ApplyRepayment(s.repayPositions, uniqueId, amount, interest),
                   records := s.records.(repayPositionAmount := amount, repayPositionId := rp.identifier,
                                         repayPositionNonce := rp.nonce)),
                rp.(amount := amount)))
  }

  /** Because the payment may not exceed the locked amount, a repay position
      is only ever removed when its interest is zero; a payment of exactly
      the locked amount on a loan that has accrued interest leaves it as it
      was. */
  lemma RepayRemovesOnlyInterestFree(s: Storage, caller: Address, uniqueId: Hash, asset: TokenId, amount: nat, now: nat)
    requires RepayStep(s, caller, uniqueId, asset, amount, now).Ok?
    ensures var rp := s.repayPositions[uniqueId];
      var interest := DebtInterest(s, rp.amount, rp.borrowTimestamp, now).value;
      var after := RepayStep(s, caller, uniqueId, asset, amount, now).value.0.repayPositions;
      && (uniqueId !in after ==> interest == 0 && rp.amount == amount)
      && (rp.amount == amount && interest > 0 ==> after == s.repayPositions)
  {
  }

  /** withdraw: burns the lend tokens and sends the deposit with its
      interest at the current deposit rate; the reserve is charged only the
      burned amount, and no check compares it with the payout. */
  function WithdrawStep(s: Storage, caller: Address, initialCaller: Address, lendToken: TokenId, nftNonce: nat,
                        amount: nat, now: nat): (r: Result<Storage>)
    ensures caller == s.config.lendingPool && lendToken != s.config.lendToken ==> r == Err("lend token not supported")
    ensures r.Ok? ==> caller == s.config.lendingPool && lendToken == s.config.lendToken
    ensures r.Ok? ==>
      && nftNonce in s.tokenData.lend && s.tokenData.lend[nftNonce].Some?
      && var depositTime := s.tokenData.lend[nftNonce].value;
      && var depositRate := LpUtils.GetDepositRate(s.config.params, Reserve(s, s.config.poolAsset), s.totalBorrow);
      && depositRate.Some? && depositTime <= now
      && var w := PoolMath.ComputeWithdrawalAmount(amount, now - depositTime, depositRate.value);
      && Reserve(r.value, s.config.poolAsset) + amount == Reserve(s, s.config.poolAsset)
      && r.value.ledger.effects == s.ledger.effects + [Send(initialCaller, s.config.poolAsset, 0, w), Burn(lendToken, nftNonce, amount)]
      && r.value.records.withdrawAmount == w
      && r.value.records.assetReserve == Reserve(s, s.config.poolAsset)
    ensures r.Ok? ==> forall t :: t != s.config.poolAsset ==> Reserve(r.value, t) == Reserve(s, t)
    ensures r.Ok? ==> r.value.debtPositions == s.debtPositions && r.value.debtNonce == s.debtNonce
    ensures r.Ok? ==> r.value.repayPositions == s.repayPositions
    ensures r.Ok? ==> r.value == s.(reserves := r.value.reserves, ledger := r.value.ledger,
                                    records := s.records.(assetReserve := r.value.records.assetReserve,
                                                          withdrawAmount := r.value.records.withdrawAmount))
  {
    if caller != s.config.lendingPool then Err("permission denied")
    else if lendToken != s.config.lendToken then Err("lend token not supported")
    else
      var assetReserve := Reserve(s, s.config.poolAsset);
      if nftNonce !in s.tokenData.lend || s.tokenData.lend[nftNonce].None? then Err(PARSE_ERROR)
      else
        var depositTime := s.tokenData.lend[nftNonce].value;
        match LpUtils.GetDepositRate(s.config.params, assetReserve, s.totalBorrow)
        case None => Err(ARITHMETIC_PANIC)
        case Some(depositRate) =>
          if now < depositTime then Err(ARITHMETIC_PANIC)
          else
            var withdrawal: nat := PoolMath.ComputeWithdrawalAmount(amount, now - depositTime, depositRate);
            if assetReserve < amount then Err(ARITHMETIC_PANIC)
            else
              Ok(s.(records := s.records.(assetReserve := assetReserve, withdrawAmount := withdrawal),
                    ledger := s.ledger.Then([Send(initialCaller, s.config.poolAsset, 0, withdrawal), Burn(lendToken, nftNonce, amount)]),
                    reserves := s.reserves[s.config.poolAsset := assetReserve - amount]))
  }

  /** liquidate: a position that exists, is not yet liquidated and whose
      health factor is below the threshold, paid for with exactly its size
      plus interest, is marked liquidated. */
  function LiquidateStep(s: Storage, caller: Address, positionId: Hash, token: TokenId, amount: nat, now: nat)
    : (r: Result<(Storage, LiquidateData)>)
    ensures r.Ok? ==> caller == s.config.lendingPool && amount > 0 && token == s.config.poolAsset
    ensures r.Ok? ==>
      && positionId in s.debtPositions
      && var pos := s.debtPositions[positionId];
      && pos != DEFAULT_POSITION
      && !pos.isLiquidated
      && pos.healthFactor < s.config.healthFactorThreshold
      && DebtInterest(s, pos.size, pos.timestamp, now).Some?
      && pos.size + DebtInterest(s, pos.size, pos.timestamp, now).value == amount
      && r.value.0 == s.(debtPositions := s.debtPositions[positionId := pos.(isLiquidated := true)])
      && r.value.1 == LiquidateData(pos.collateralIdentifier, pos.size)
    ensures caller == s.config.lendingPool && amount > 0 && token == s.config.poolAsset
         && positionId in s.debtPositions && s.debtPositions[positionId].isLiquidated
         ==> r == Err("position is already liquidated")
    ensures caller == s.config.lendingPool && amount > 0 && token == s.config.poolAsset
         ==> (r.Ok? <==>
              && positionId in s.debtPositions
              && var pos := s.debtPositions[positionId];
              && pos != DEFAULT_POSITION
              && !pos.isLiquidated
              && pos.healthFactor < s.config.healthFactorThreshold
              && DebtInterest(s, pos.size, pos.timestamp, now).Some?
              && pos.size + DebtInterest(s, pos.size, pos.timestamp, now).value == amount)
  {
    if caller != s.config.lendingPool then Err("function can only be called by lending pool")
    else if amount == 0 then Err("amount must be bigger then 0")
    else if token != s.config.poolAsset then Err("asset is not supported by this pool")
    else
      var pos := Get(s.debtPositions, positionId, DEFAULT_POSITION);
      if pos == DEFAULT_POSITION then Err("invalid debt position id")
      else if pos.isLiquidated then Err("position is already liquidated")
      else if !(pos.healthFactor < s.config.healthFactorThreshold) then Err("the health factor is not low enough")
      else
        match DebtInterest(s, pos.size, pos.timestamp, now)
        case None => Err(ARITHMETIC_PANIC)
        case Some(interest) =>
          if pos.size + interest != amount then Err("position can't be liquidated, not enough or to much tokens send")
          else
            var liquidated := pos.(isLiquidated := true);
            Ok((s.(debtPositions := s.debtPositions[positionId := liquidated]),
                LiquidateData(liquidated.collateralIdentifier, liquidated.size)))
  }

  /** A liquidated position can be neither liquidated again nor have its
      borrow tokens locked for a repayment. */
  lemma LiquidationIsFinal(s: Storage, caller: Address, positionId: Hash, token: TokenId, amount: nat, now: nat,
                           amount2: nat, now2: nat, initialCaller: Address, lockAmount: nat, nftNonce: nat)
    requires LiquidateStep(s, caller, positionId, token, amount, now).Ok?
    requires nftNonce in s.tokenData.borrow && s.tokenData.borrow[nftNonce].hash == positionId
    ensures var s' := LiquidateStep(s, caller, positionId, token, amount, now).value.0;
      && LiquidateStep(s', caller, positionId, token, amount2, now2).Err?
      && LockBTokensStep(s', caller, initialCaller, s.config.borrowToken, lockAmount, nftNonce).Err?
  {
  }

  /** Liquidation rewrites a position in place, so it keeps Valid; deposit,
      lock_b_tokens, repay and withdraw leave the debt positions and the
      debt nonce as they were (their ensures), so only borrow adds a key. */
  lemma {:induction false} LiquidateKeepsValid(s: Storage, caller: Address, positionId: Hash, token: TokenId,
                                               amount: nat, now: nat)
    requires Valid(s)
    requires LiquidateStep(s, caller, positionId, token, amount, now).Ok?
    ensures Valid(LiquidateStep(s, caller, positionId, token, amount, now).value.0)
  {
    var s' := LiquidateStep(s, caller, positionId, token, amount, now).value.0;
    forall h | h in s'.debtPositions
      ensures h.DebtHash? && h.nonce < s'.debtNonce
    {
      assert h in s.debtPositions;
    }
  }

  /** The pool's storage, with the VM's data about its position tokens and
      the log of token effects. */
  class Pool {
    var config: Config
    var reserves: map<TokenId, nat>
    var debtPositions: map<Hash, DebtPosition>
    var repayPositions: map<Hash, RepayPosition>
    var debtNonce: nat
    var totalBorrow: nat
    var records: Records
    var tokenData: TokenData
    var ledger: Ledger

    function State(): Storage
      reads this
    {
      Storage(config, reserves, debtPositions, repayPositions, debtNonce, totalBorrow, records, tokenData, ledger)
    }

    constructor (s: Storage)
      ensures State() == s
    {
      config, reserves, debtPositions, repayPositions := s.config, s.reserves, s.debtPositions, s.repayPositions;
      debtNonce, totalBorrow, records, tokenData, ledger := s.debtNonce, s.totalBorrow, s.records, s.tokenData, s.ledger;
    }

    /** get_nft_hash (utils.rs): the hash of the current debt nonce; the
        nonce advances by exactly one. */
    method GetNftHash() returns (hash: Hash)
      modifies this
      ensures hash == DebtHash(old(debtNonce))
      ensures State() == old(State()).(debtNonce := old(debtNonce) + 1)
    {
      hash := DebtHash(debtNonce);
      debtNonce := debtNonce + 1;
    }

    method DepositAsset(caller: Address, initialCaller: Address, asset: TokenId, amount: nat, now: nat)
      returns (r: Result<()>)
      modifies this
      ensures Commits(r, DepositAssetStep(old(State()), caller, initialCaller, asset, amount, now), old(State()), State())
    {
      ghost var step := DepositAssetStep(State(), caller, initialCaller, asset, amount, now);
      if caller != config.lendingPool {
        return Err("permission denied");
      }
      if asset != config.poolAsset {
        return Err("asset not supported for this liquidity pool");
      }
      var lendToken := config.lendToken;
      var nonce := ledger.NextNonce(lendToken);
      ledger := ledger.Create(lendToken, amount);
      tokenData := tokenData.(lend := tokenData.lend[nonce := Some(now)]);
      ledger := ledger.Then([Send(initialCaller, lendToken, nonce, amount)]);
      var assetReserve := Get(reserves, asset, 0);
      assetReserve := assetReserve + amount;
      reserves := reserves[asset := assetReserve];
      r := Ok(());
    }

    method Borrow(caller: Address, initialCaller: Address, lend: TokenId, amount: nat, timestamp: nat, now: nat)
      returns (r: Result<()>)
      modifies this
      ensures Commits(r, BorrowStep(old(State()), caller, initialCaller, lend, amount, timestamp, now), old(State()), State())
    {
      ghost var step := BorrowStep(State(), caller, initialCaller, lend, amount, timestamp, now);
      if caller != config.lendingPool {
        return Err("can only be called through lending pool");
      }
      if amount == 0 {
        return Err("lend amount must be bigger then 0");
      }
      if initialCaller == ZERO_ADDRESS {
        return Err("invalid address provided");
      }
      var borrowsToken, asset := config.borrowToken, config.poolAsset;
      var borrowsReserve := Get(reserves, borrowsToken, 0);
      var assetReserve := Get(reserves, asset, 0);
      if assetReserve == 0 {
        return Err("asset reserve is empty");
      }
      if assetReserve < amount {
        return Err(ARITHMETIC_PANIC);
      }
      var positionId := GetNftHash();
      var metadata := DebtMetadata(now, amount, lend, timestamp);
      var nonce := ledger.NextNonce(borrowsToken);
      tokenData := tokenData.(borrow := tokenData.borrow[nonce := BorrowTokenData(positionId, Some(metadata))]);
      ledger := ledger.Create(borrowsToken, amount)
                      .Then([Send(initialCaller, borrowsToken, nonce, amount), Send(initialCaller, asset, 0, amount)]);
      totalBorrow := totalBorrow + amount;
      reserves := reserves[borrowsToken := borrowsReserve + amount][asset := assetReserve - amount];
      debtPositions := debtPositions[positionId := DebtPosition(amount, NEW_POSITION_HEALTH, false, now, amount, lend)];
      r := Ok(());
    }

    method LockBTokens(caller: Address, initialCaller: Address, token: TokenId, amount: nat, nftNonce: nat)
      returns (r: Result<Hash>)
      modifies this
      ensures CommitsWith(r, LockBTokensStep(old(State()), caller, initialCaller, token, amount, nftNonce), old(State()), State())
    {
      ghost var step := LockBTokensStep(State(), caller, initialCaller, token, amount, nftNonce);
      if caller != config.lendingPool {
        return Err("can only be called by lending pool");
      }
      if amount == 0 {
        return Err("amount must be greater then 0");
      }
      if initialCaller == ZERO_ADDRESS {
        return Err("invalid address");
      }
      if token != config.borrowToken {
        return Err("borrow token not supported by this pool");
      }
      if nftNonce !in tokenData.borrow {
        return Err("invalid debt position");
      }
      var nftData := tokenData.borrow[nftNonce];
      var debtPosition := Get(debtPositions, nftData.hash, DEFAULT_POSITION);
      if debtPosition == DEFAULT_POSITION {
        return Err("invalid debt position");
      }
      if debtPosition.isLiquidated {
        return Err("position is liquidated");
      }
      if nftData.attributes.None? {
        return Err(PARSE_ERROR);
      }
      var metadata := nftData.attributes.value;
      var uniqueRepayId := RepayHash(token, amount, nftNonce);
      var repayPosition := RepayPosition(token, amount, nftNonce, metadata.timestamp, metadata.collateralIdentifier,
                                         metadata.collateralAmount, metadata.collateralTimestamp);
      repayPositions := repayPositions[uniqueRepayId := repayPosition];
      r := Ok(uniqueRepayId);
    }

    method Repay(caller: Address, uniqueId: Hash, asset: TokenId, amount: nat, now: nat)
      returns (r: Result<RepayPosition>)
      modifies this
      ensures CommitsWith(r, RepayStep(old(State()), caller, uniqueId, asset, amount, now), old(State()), State())
    {
      ghost var step := RepayStep(State(), caller, uniqueId, asset, amount, now);
      if caller != config.lendingPool {
        return Err("function can only be called by lending pool");
      }
      if amount == 0 {
        return Err("amount must be greater then 0");
      }
      if asset != config.poolAsset {
        return Err("asset is not supported by this pool");
      }
      if uniqueId !in repayPositions {
        return Err("there are no locked borrowed token for this id, lock b tokens first");
      }
      var repayPosition := repayPositions[uniqueId];
      if repayPosition.amount < amount {
        return Err("b tokens amount locked must be equal with the amount of asset token send");
      }
      if repayPosition.nonce !in tokenData.borrow || tokenData.borrow[repayPosition.nonce].hash !in debtPositions {
        return Err("invalid debt position id");
      }
      var debtPosition := debtPositions[tokenData.borrow[repayPosition.nonce].hash];
      if debtPosition.isLiquidated {
        return Err("position is liquidated");
      }
      var interest := DebtInterest(State(), repayPosition.amount, repayPosition.borrowTimestamp, now);
      if interest.None? {
        return Err(ARITHMETIC_PANIC);
      }
      if repayPosition.amount + interest.value == amount {
        repayPositions := repayPositions - {uniqueId};
      } else if repayPosition.amount > amount {
        repayPosition := repayPosition.(amount := repayPosition.amount - amount);
        repayPositions := repayPositions[uniqueId := repayPosition];
      }
      records := records.(repayPositionAmount := amount, repayPositionId := repayPosition.identifier,
                          repayPositionNonce := repayPosition.nonce);
      repayPosition := repayPosition.(amount := amount);
      r := Ok(repayPosition);
    }

    method Withdraw(caller: Address, initialCaller: Address, token: TokenId, nftNonce: nat, amount: nat, now: nat)
      returns (r: Result<()>)
      modifies this
      ensures Commits(r, WithdrawStep(old(State()), caller, initialCaller, token, nftNonce, amount, now), old(State()), State())
    {
      ghost var step := WithdrawStep(State(), caller, initialCaller, token, nftNonce, amount, now);
      if caller != config.lendingPool {
        return Err("permission denied");
      }
      if token != config.lendToken {
        return Err("lend token not supported");
      }
      var poolAsset := config.poolAsset;
      var assetReserve := Get(reserves, poolAsset, 0);
      if nftNonce !in tokenData.lend || tokenData.lend[nftNonce].None? {
        return Err(PARSE_ERROR);
      }
      var depositTime := tokenData.lend[nftNonce].value;
      var depositRate := LpUtils.GetDepositRate(config.params, assetReserve, totalBorrow);
      if depositRate.None? || now < depositTime {
        return Err(ARITHMETIC_PANIC);
      }
      var withdrawalAmount: nat := PoolMath.ComputeWithdrawalAmount(amount, now - depositTime, depositRate.value);
      if assetReserve < amount {
        return Err(ARITHMETIC_PANIC);
      }
      records := records.(assetReserve := assetReserve, withdrawAmount := withdrawalAmount);
      ledger := ledger.Then([Send(initialCaller, poolAsset, 0, withdrawalAmount), Burn(token, nftNonce, amount)]);
      reserves := reserves[poolAsset := assetReserve - amount];
      r := Ok(());
    }

    method Liquidate(caller: Address, positionId: Hash, token: TokenId, amount: nat, now: nat)
      returns (r: Result<LiquidateData>)
      modifies this
      ensures CommitsWith(r, LiquidateStep(old(State()), caller, positionId, token, amount, now), old(State()), State())
    {
      ghost var step := LiquidateStep(State(), caller, positionId, token, amount, now);
      if caller != config.lendingPool {
        return Err("function can only be called by lending pool");
      }
      if amount == 0 {
        return Err("amount must be bigger then 0");
      }
      if token != config.poolAsset {
        return Err("asset is not supported by this pool");
      }
      var debtPosition := Get(debtPositions, positionId, DEFAULT_POSITION);
      if debtPosition == DEFAULT_POSITION {
        return Err("invalid debt position id");
      }
      if debtPosition.isLiquidated {
        return Err("position is already liquidated");
      }
      if !(debtPosition.healthFactor < config.healthFactorThreshold) {
        return Err("the health factor is not low enough");
      }
      var interest := DebtInterest(State(), debtPosition.size, debtPosition.timestamp, now);
      if interest.None? {
        return Err(ARITHMETIC_PANIC);
      }
      if debtPosition.size + interest.value != amount {
        return Err("position can't be liquidated, not enough or to much tokens send");
      }
      debtPosition := debtPosition.(isLiquidated := true);
      debtPositions := debtPositions[positionId := debtPosition];
      r := Ok(LiquidateData(debtPosition.collateralIdentifier, debtPosition.size));
    }
  }
}
