/** The liquidity module of the index-era liquidity pool
    (liquidity_pool/src/liquidity.rs): owner-only endpoints that take
    deposits against lend tokens, lend against collateral, pay depositors
    back, take repayments and mark positions liquidated.

    Storage is the storage as a value and each endpoint a function from the
    old storage to the new one (or to the abort message); class Pool holds
    the storage and performs each endpoint step by step. The deposit rate,
    the debt interest and the oracle prices come from code outside this file
    and are parameters. */
module Liquidity {
  import opened Common
  import opened LpModels
  import Arith
  import PoolMath
  import LiqUtils

  /** What the VM reports about a borrow-token nonce the contract holds: its
      hash and its attributes (None when they do not decode). */
  datatype NftData = NftData(hash: Hash, attributes: Option<DebtMetadata>)

  /** repay's result: the collateral token, the borrow amount, the position's timestamp. */
  datatype RepayOutput = RepayOutput(collateralToken: TokenId, amount: nat, timestamp: nat)

  const NO_PRICE: string := "failed to get token price"

  /** The settings these endpoints only read: the owner (the lending
      pool), the pool asset, the two position tokens and the health-factor
      threshold below which a position may be liquidated. */
  datatype Config = Config(
    owner: Address,
    poolAsset: TokenId,
    lendToken: TokenId,
    borrowToken: TokenId,
    healthFactorThreshold: nat)

  datatype Storage = Storage(
    config: Config,
    reserves: map<TokenId, nat>,
    borrowedAmount: nat,
    interestMetadata: map<nat, nat>,
    debtMetadata: map<nat, DebtMetadata>,
    debtPositions: map<Hash, DebtPosition>,
    ledger: Ledger)

  function Reserve(s: Storage, t: TokenId): nat {
    Get(s.reserves, t, 0)
  }

  /** deposit_asset: the pool asset only; mints lend tokens 1:1 under a new
      nonce stamped with the block time, and adds the deposit to the reserve. */
  function DepositAssetStep(s: Storage, caller: Address, initialCaller: Address, asset: TokenId, amount: nat, now: nat): (r: Result<Storage>)
    ensures r.Ok? <==> caller == s.config.owner && asset == s.config.poolAsset
    ensures caller == s.config.owner && asset != s.config.poolAsset ==> r == Err("asset not supported for this liquidity pool")
    ensures r.Ok? ==> Reserve(r.value, s.config.poolAsset) == Reserve(s, s.config.poolAsset) + amount
    ensures r.Ok? ==> forall t :: t != s.config.poolAsset ==> Reserve(r.value, t) == Reserve(s, t)
    ensures r.Ok? ==> r.value.interestMetadata == s.interestMetadata[s.ledger.NextNonce(s.config.lendToken) := now]
    ensures r.Ok? ==> r.value.ledger.effects == s.ledger.effects + [Mint(s.config.lendToken, s.ledger.NextNonce(s.config.lendToken), amount),
                                                      Send(initialCaller, s.config.lendToken, s.ledger.NextNonce(s.config.lendToken), amount)]
    ensures r.Ok? ==> r.value.debtPositions == s.debtPositions && r.value.borrowedAmount == s.borrowedAmount
  {
    if caller != s.config.owner then Err(ONLY_OWNER)
    else if asset != s.config.poolAsset then Err("asset not supported for this liquidity pool")
    else
      var nonce := s.ledger.NextNonce(s.config.lendToken);
      Ok(s.(ledger := s.ledger.Create(s.config.lendToken, amount).Then([Send(initialCaller, s.config.lendToken, nonce, amount)]),
            interestMetadata := s.interestMetadata[nonce := now],
            reserves := s.reserves[s.config.poolAsset := Reserve(s, s.config.poolAsset) + amount]))
  }

  /** The amount a borrow pays out for the collateral and the amount it adds
      to the borrowed total: the collateral's borrowable value, then that
      divided by the pool asset's price and by its decimals count. None when
      either divisor is zero, where the VM aborts. */
  function BorrowQuote(collateralAmount: nat, collateral: PriceData, pool: PriceData, ltv: nat): (r: Option<(nat, nat)>)
    ensures r.Some? <==> pool.price > 0 && pool.decimals > 0
    ensures r.Some? ==> r.value.0 == PoolMath.ComputeBorrowableAmount(collateralAmount, collateral.price, ltv, collateral.decimals)
    ensures r.Some? ==> r.value.1 <= r.value.0
  {
    if pool.price == 0 || pool.decimals == 0 then None
    else
      var borrowable: nat := PoolMath.ComputeBorrowableAmount(collateralAmount, collateral.price, ltv, collateral.decimals);
      Arith.DivNat(borrowable, pool.price);
      Arith.DivLeSelf(borrowable, pool.price);
      var perPrice: nat := borrowable / pool.price;
      Arith.DivNat(perPrice, pool.decimals);
      Arith.DivLeSelf(perPrice, pool.decimals);
      var total: nat := perPrice / pool.decimals;
      Some((borrowable, total))
  }

  /** The reserve check of borrow: as written it passes when the reserve is
      BELOW the borrowed total; corrected, when the reserve covers the payout. */
  predicate ReserveCheck(reserve: nat, borrowable: nat, totalBorrowable: nat, asWritten: bool) {
    if asWritten then reserve < totalBorrowable else reserve >= borrowable
  }

  /** borrow with the reserve check as written or corrected. */
  function BorrowWith(s: Storage, caller: Address, initialCaller: Address, collateralTokenId: TokenId,
                      collateralAmount: nat, depositTimestamp: nat, ltv: nat, now: nat,
                      prices: map<TokenId, PriceData>, asWritten: bool): (r: Result<Storage>)
  {
    if caller != s.config.owner then Err(ONLY_OWNER)
    else if collateralAmount == 0 then Err(AMOUNT_ZERO)
    else if initialCaller == ZERO_ADDRESS then Err(ADDRESS_ZERO)
    else if collateralTokenId !in prices || s.config.poolAsset !in prices then Err(NO_PRICE)
    else
      match BorrowQuote(collateralAmount, prices[collateralTokenId], prices[s.config.poolAsset], ltv)
      case None => Err(ARITHMETIC_PANIC)
      case Some(quote) =>
        var (borrowable, totalBorrowable) := quote;
        var reserve := Reserve(s, s.config.poolAsset);
        if !ReserveCheck(reserve, borrowable, totalBorrowable, asWritten) then Err("insufficient funds to perform loan")
        else if reserve < borrowable then Err(ARITHMETIC_PANIC)
        else
          var nonce := s.ledger.NextNonce(s.config.borrowToken);
          Ok(s.(ledger := s.ledger.Create(s.config.borrowToken, collateralAmount)
                                  .Then([Send(initialCaller, s.config.borrowToken, nonce, collateralAmount),
                                         Send(initialCaller, s.config.poolAsset, 0, borrowable)]),
                debtMetadata := s.debtMetadata[nonce := DebtMetadata(now, collateralAmount, collateralTokenId, depositTimestamp)],
                borrowedAmount := s.borrowedAmount + totalBorrowable,
                reserves := s.reserves[s.config.poolAsset := reserve - borrowable]))
  }

  /** borrow as written can never succeed: its check lets through only a
      reserve below the borrowed total, which is at most the payout, so
      taking the payout from the reserve always goes below zero. */
  function BorrowAsWritten(s: Storage, caller: Address, initialCaller: Address, collateralTokenId: TokenId,
                           collateralAmount: nat, depositTimestamp: nat, ltv: nat, now: nat,
                           prices: map<TokenId, PriceData>): (r: Result<Storage>)
    ensures r.Err?
  {
    BorrowWith(s, caller, initialCaller, collateralTokenId, collateralAmount, depositTimestamp, ltv, now, prices, true)
  }

  /** borrow with the reserve check corrected: the reserve pays the
      borrowable amount out, the borrowed total grows by its price-scaled
      amount, and borrow tokens equal to the collateral go to the caller. */
  function BorrowStep(s: Storage, caller: Address, initialCaller: Address, collateralTokenId: TokenId,
                  collateralAmount: nat, depositTimestamp: nat, ltv: nat, now: nat,
                  prices: map<TokenId, PriceData>): (r: Result<Storage>)
    ensures r.Ok? ==> caller == s.config.owner && collateralAmount > 0 && initialCaller != ZERO_ADDRESS
    ensures r.Ok? ==> collateralTokenId in prices && s.config.poolAsset in prices
    ensures r.Ok? ==>
      var quote := BorrowQuote(collateralAmount, prices[collateralTokenId], prices[s.config.poolAsset], ltv);
      && quote.Some?
      && Reserve(r.value, s.config.poolAsset) + quote.value.0 == Reserve(s, s.config.poolAsset)
      && r.value.borrowedAmount == s.borrowedAmount + quote.value.1
      && r.value.debtMetadata == s.debtMetadata[s.ledger.NextNonce(s.config.borrowToken) :=
           DebtMetadata(now, collateralAmount, collateralTokenId, depositTimestamp)]
      && r.value.ledger.effects == s.ledger.effects + [Mint(s.config.borrowToken, s.ledger.NextNonce(s.config.borrowToken), collateralAmount),
                                         Send(initialCaller, s.config.borrowToken, s.ledger.NextNonce(s.config.borrowToken), collateralAmount),
                                         Send(initialCaller, s.config.poolAsset, 0, quote.value.0)]
    ensures r.Ok? ==> r.value.debtPositions == s.debtPositions
    ensures r.Ok? ==> forall t :: t != s.config.poolAsset ==> Reserve(r.value, t) == Reserve(s, t)
    ensures r.Ok? ==> r.value == s.(reserves := r.value.reserves, borrowedAmount := r.value.borrowedAmount,
                                    debtMetadata := r.value.debtMetadata, ledger := r.value.ledger)
    ensures caller == s.config.owner && collateralAmount > 0 && initialCaller != ZERO_ADDRESS
         && collateralTokenId in prices && s.config.poolAsset in prices
         && BorrowQuote(collateralAmount, prices[collateralTokenId], prices[s.config.poolAsset], ltv).Some?
         ==> (r.Ok? <==> Reserve(s, s.config.poolAsset)
                         >= BorrowQuote(collateralAmount, prices[collateralTokenId], prices[s.config.poolAsset], ltv).value.0)
  {
    BorrowWith(s, caller, initialCaller, collateralTokenId, collateralAmount, depositTimestamp, ltv, now, prices, false)
  }

  /** withdraw: burns the lend tokens and pays the deposit back with its
      interest, taken whole from the pool-asset reserve. A nonce with no
      recorded deposit timestamp fails to decode. */
  function WithdrawStep(s: Storage, caller: Address, initialCaller: Address, lendToken: TokenId, tokenNonce: nat,
                    amount: nat, depositRate: nat, now: nat): (r: Result<Storage>)
    ensures caller == s.config.owner && lendToken != s.config.lendToken ==> r == Err("lend token not supported")
    ensures caller == s.config.owner && lendToken == s.config.lendToken && tokenNonce !in s.interestMetadata
         ==> r == Err(DECODE_ERROR)
    ensures r.Ok? ==> caller == s.config.owner && lendToken == s.config.lendToken
                      && tokenNonce in s.interestMetadata && s.interestMetadata[tokenNonce] <= now
    ensures r.Ok? ==>
      var w := PoolMath.ComputeWithdrawalAmount(amount, now - s.interestMetadata[tokenNonce], depositRate);
      && Reserve(r.value, s.config.poolAsset) + w == Reserve(s, s.config.poolAsset)
      && w >= amount
      && r.value.ledger.effects == s.ledger.effects + [Burn(lendToken, tokenNonce, amount), Send(initialCaller, s.config.poolAsset, 0, w)]
    ensures r.Ok? ==> forall t :: t != s.config.poolAsset ==> Reserve(r.value, t) == Reserve(s, t)
    ensures r.Ok? ==> r.value == s.(reserves := r.value.reserves, ledger := r.value.ledger)
    ensures caller == s.config.owner && lendToken == s.config.lendToken
            && tokenNonce in s.interestMetadata && s.interestMetadata[tokenNonce] <= now
         ==> (r.Ok? <==>
              Reserve(s, s.config.poolAsset)
              >= PoolMath.ComputeWithdrawalAmount(amount, now - s.interestMetadata[tokenNonce], depositRate))
    ensures r.Err? ==> r.msg in {ONLY_OWNER, "lend token not supported", DECODE_ERROR, ARITHMETIC_PANIC, "insufficient funds"}
  {
    if caller != s.config.owner then Err(ONLY_OWNER)
    else if lendToken != s.config.lendToken then Err("lend token not supported")
    else if tokenNonce !in s.interestMetadata then Err(DECODE_ERROR)
    else
      var depositTime := s.interestMetadata[tokenNonce];
      if now < depositTime then Err(ARITHMETIC_PANIC)
      else
        var withdrawal: nat := PoolMath.ComputeWithdrawalAmount(amount, now - depositTime, depositRate);
        var reserve: nat := Reserve(s, s.config.poolAsset);
        if reserve < withdrawal then Err("insufficient funds")
        else Ok(s.(reserves := s.reserves[s.config.poolAsset := reserve - withdrawal],
                   ledger := s.ledger.Then([Burn(lendToken, tokenNonce, amount), Send(initialCaller, s.config.poolAsset, 0, withdrawal)])))
  }

  /** repay: the borrow tokens and the pool asset, in that order; the asset
      must cover the borrowed amount plus its interest, the excess goes back,
      and the position's collateral shrinks by the borrowed amount (the
      position goes when none is left). interestOf(amount, timestamp) is the
      debt interest. */
  function RepayStep(s: Storage, caller: Address, initialCaller: Address, transfers: seq<Payment>, nft: NftData,
                 interestOf: (nat, nat) -> Result<nat>): (r: Result<(Storage, RepayOutput)>)
    ensures r.Ok? ==> caller == s.config.owner && initialCaller != ZERO_ADDRESS
    ensures r.Ok? ==> |transfers| == 2 && transfers[0].token == s.config.borrowToken && transfers[1].token == s.config.poolAsset
    ensures r.Ok? ==> nft.hash in s.debtPositions && !s.debtPositions[nft.hash].isLiquidated && nft.attributes.Some?
    ensures r.Ok? ==>
      var borrowAmount, assetAmount := transfers[0].amount, transfers[1].amount;
      var pos := s.debtPositions[nft.hash];
      var interest := interestOf(borrowAmount, nft.attributes.value.timestamp);
      && interest.Ok?
      && assetAmount >= borrowAmount + interest.value
      && r.value.1 == RepayOutput(pos.collateralIdentifier, borrowAmount, pos.timestamp)
      && r.value.0.ledger.effects == s.ledger.effects
           + (if assetAmount > borrowAmount + interest.value
              then [Send(initialCaller, s.config.poolAsset, 0, assetAmount - borrowAmount - interest.value)] else [])
           + [Burn(transfers[0].token, transfers[0].nonce, borrowAmount)]
      && pos.collateralAmount >= borrowAmount
      && (if pos.collateralAmount == borrowAmount
          then r.value.0.debtPositions == s.debtPositions - {nft.hash}
          else r.value.0.debtPositions == s.debtPositions[nft.hash := pos.(collateralAmount := pos.collateralAmount - borrowAmount)])
    ensures r.Ok? ==> r.value.0.reserves == s.reserves
  {
    if caller != s.config.owner then Err(ONLY_OWNER)
    else if initialCaller == ZERO_ADDRESS then Err(ADDRESS_ZERO)
    else if |transfers| != 2 then Err("Invalid number of payments")
    else if transfers[0].token != s.config.borrowToken then Err("First payment should be the borrow SFTs")
    else if transfers[1].token != s.config.poolAsset then Err("Second payment should be this pool's asset")
    else
      var borrowAmount, assetAmount := transfers[0].amount, transfers[1].amount;
      var id := nft.hash;
      if id !in s.debtPositions then Err("invalid debt position")
      else
        var pos := s.debtPositions[id];
        if pos.isLiquidated then Err("position is liquidated")
        else if nft.attributes.None? then Err(DECODE_ERROR)
        else
          match interestOf(borrowAmount, nft.attributes.value.timestamp)
          case Err(m) => Err(m)
          case Ok(interest) =>
            var totalOwed := borrowAmount + interest;
            if assetAmount < totalOwed then Err("Not enough asset tokens deposited")
            else if pos.collateralAmount < borrowAmount then Err(ARITHMETIC_PANIC)
            else
              var extra := assetAmount - totalOwed;
              var refund := if extra > 0 then [Send(initialCaller, s.config.poolAsset, 0, extra)] else [];
              var remaining := pos.collateralAmount - borrowAmount;
              var positions := if remaining == 0 then s.debtPositions - {id}
                               else s.debtPositions[id := pos.(collateralAmount := remaining)];
              Ok((s.(debtPositions := positions,
                     ledger := s.ledger.Then(refund + [Burn(transfers[0].token, transfers[0].nonce, borrowAmount)])),
                  RepayOutput(pos.collateralIdentifier, borrowAmount, pos.timestamp)))
  }

  /** A successful repay closes the debt position exactly when it is a full
      repay in the sense of is_full_repay: the borrow tokens paid back equal
      the position's amount; otherwise the position stays with the rest. */
  lemma RepayClosesExactlyOnFullRepay(s: Storage, caller: Address, initialCaller: Address, transfers: seq<Payment>,
                                      nft: NftData, interestOf: (nat, nat) -> Result<nat>)
    requires RepayStep(s, caller, initialCaller, transfers, nft, interestOf).Ok?
    ensures var s' := RepayStep(s, caller, initialCaller, transfers, nft, interestOf).value.0;
      var pos := s.debtPositions[nft.hash];
      && (nft.hash !in s'.debtPositions <==> LiqUtils.IsFullRepay(pos.collateralAmount, transfers[0].amount))
      && (nft.hash in s'.debtPositions ==>
            s'.debtPositions[nft.hash].collateralAmount == pos.collateralAmount - transfers[0].amount)
  {
  }

  /** liquidate: a position that exists, is not yet liquidated and whose
      health factor is below the threshold, paid for with exactly its size
      plus interest in the pool asset, is marked liquidated. */
  function LiquidateStep(s: Storage, caller: Address, positionId: Hash, token: TokenId, amount: nat,
                     interestOf: (nat, nat) -> Result<nat>): (r: Result<(Storage, LiquidateData)>)
    ensures r.Ok? ==> caller == s.config.owner && amount > 0 && token == s.config.poolAsset
    ensures r.Ok? ==>
      && positionId in s.debtPositions
      && var pos := s.debtPositions[positionId];
      && !pos.isLiquidated
      && pos.healthFactor < s.config.healthFactorThreshold
      && interestOf(pos.size, pos.timestamp).Ok?
      && pos.size + interestOf(pos.size, pos.timestamp).value == amount
      && r.value.0 == s.(debtPositions := s.debtPositions[positionId := pos.(isLiquidated := true)])
      && r.value.1 == LiquidateData(pos.collateralIdentifier, pos.size)
    ensures caller == s.config.owner && amount > 0 && token == s.config.poolAsset
         && positionId in s.debtPositions && s.debtPositions[positionId].isLiquidated
         ==> r == Err("position is already liquidated")
  {
    if caller != s.config.owner then Err(ONLY_OWNER)
    else if amount == 0 then Err("amount must be bigger then 0")
    else if token != s.config.poolAsset then Err("asset is not supported by this pool")
    else
      var pos := Get(s.debtPositions, positionId, DEFAULT_POSITION);
      if pos == DEFAULT_POSITION then Err("invalid debt position id")
      else if pos.isLiquidated then Err("position is already liquidated")
      else if !(pos.healthFactor < s.config.healthFactorThreshold) then Err("the health factor is not low enough")
      else
        match interestOf(pos.size, pos.timestamp)
        case Err(m) => Err(m)
        case Ok(interest) =>
          if pos.size + interest != amount then Err("position can't be liquidated, not enough or to much tokens send")
          else
            var liquidated := pos.(isLiquidated := true);
            Ok((s.(debtPositions := s.debtPositions[positionId := liquidated]),
                LiquidateData(liquidated.collateralIdentifier, liquidated.size)))
  }

  /** A position can be liquidated once: a second liquidation fails. */
  lemma LiquidateOnce(s: Storage, caller: Address, positionId: Hash, token: TokenId, amount: nat,
                      interestOf: (nat, nat) -> Result<nat>, amount2: nat)
    requires LiquidateStep(s, caller, positionId, token, amount, interestOf).Ok?
    ensures LiquidateStep(LiquidateStep(s, caller, positionId, token, amount, interestOf).value.0,
                      caller, positionId, token, amount2, interestOf).Err?
  {
  }

  /** A liquidated position can no longer be repaid. */
  lemma NoRepayAfterLiquidate(s: Storage, caller: Address, positionId: Hash, token: TokenId, amount: nat,
                              interestOf: (nat, nat) -> Result<nat>,
                              initialCaller: Address, transfers: seq<Payment>, nft: NftData)
    requires LiquidateStep(s, caller, positionId, token, amount, interestOf).Ok?
    requires nft.hash == positionId
    ensures RepayStep(LiquidateStep(s, caller, positionId, token, amount, interestOf).value.0,
                  caller, initialCaller, transfers, nft, interestOf).Err?
  {
  }

  /** The liquidity pool's storage, with the VM's per-token nonce counters
      and the log of token effects. */
  class Pool {
    var config: Config
    var reserves: map<TokenId, nat>
    var borrowedAmount: nat
    var interestMetadata: map<nat, nat>
    var debtMetadata: map<nat, DebtMetadata>
    var debtPositions: map<Hash, DebtPosition>
    var ledger: Ledger

    function State(): Storage
      reads this
    {
      Storage(config, reserves, borrowedAmount, interestMetadata, debtMetadata, debtPositions, ledger)
    }

    constructor (s: Storage)
      ensures State() == s
    {
      config, reserves, borrowedAmount, interestMetadata := s.config, s.reserves, s.borrowedAmount, s.interestMetadata;
      debtMetadata, debtPositions, ledger := s.debtMetadata, s.debtPositions, s.ledger;
    }

    /** esdt_nft_create: the VM hands out the next nonce of the token. */
    method MintPositionTokens(tokenId: TokenId, amount: nat) returns (nonce: nat)
      modifies this
      ensures nonce == old(ledger).NextNonce(tokenId)
      ensures State() == old(State()).(ledger := old(ledger).Create(tokenId, amount))
    {
      nonce := ledger.NextNonce(tokenId);
      ledger := ledger.Create(tokenId, amount);
    }

    method DepositAsset(caller: Address, initialCaller: Address, asset: TokenId, amount: nat, now: nat)
      returns (r: Result<()>)
      modifies this
      ensures Commits(r, DepositAssetStep(old(State()), caller, initialCaller, asset, amount, now), old(State()), State())
    {
      ghost var step := DepositAssetStep(State(), caller, initialCaller, asset, amount, now);
      if caller != config.owner {
        return Err(ONLY_OWNER);
      }
      if asset != config.poolAsset {
        return Err("asset not supported for this liquidity pool");
      }
      var newNonce := MintPositionTokens(config.lendToken, amount);
      interestMetadata := interestMetadata[newNonce := now];
      reserves := reserves[config.poolAsset := Get(reserves, config.poolAsset, 0) + amount];
      ledger := ledger.Then([Send(initialCaller, config.lendToken, newNonce, amount)]);
      r := Ok(());
    }

    /** borrow, with the reserve check corrected (see BorrowAsWritten). */
    method Borrow(caller: Address, initialCaller: Address, collateralTokenId: TokenId, collateralAmount: nat,
                  depositTimestamp: nat, ltv: nat, now: nat, prices: map<TokenId, PriceData>)
      returns (r: Result<()>)
      modifies this
      ensures Commits(r, BorrowStep(old(State()), caller, initialCaller, collateralTokenId, collateralAmount,
                                          depositTimestamp, ltv, now, prices), old(State()), State())
    {
      ghost var step := BorrowStep(State(), caller, initialCaller, collateralTokenId, collateralAmount,
                                          depositTimestamp, ltv, now, prices);
      if caller != config.owner {
        return Err(ONLY_OWNER);
      }
      if collateralAmount == 0 {
        return Err(AMOUNT_ZERO);
      }
      if initialCaller == ZERO_ADDRESS {
        return Err(ADDRESS_ZERO);
      }
      var poolAsset := config.poolAsset;
      if collateralTokenId !in prices || poolAsset !in prices {
        return Err(NO_PRICE);
      }
      var quote := BorrowQuote(collateralAmount, prices[collateralTokenId], prices[poolAsset], ltv);
      if quote.None? {
        return Err(ARITHMETIC_PANIC);
      }
      var (borrowableAmount, totalBorrowable) := quote.value;
      var assetReserve: nat := Get(reserves, poolAsset, 0);
      if assetReserve < borrowableAmount {
        return Err("insufficient funds to perform loan");
      }
      var newNonce := MintPositionTokens(config.borrowToken, collateralAmount);
      debtMetadata := debtMetadata[newNonce := DebtMetadata(now, collateralAmount, collateralTokenId, depositTimestamp)];
      borrowedAmount := borrowedAmount + totalBorrowable;
      reserves := reserves[poolAsset := assetReserve - borrowableAmount];
      ledger := ledger.Then([Send(initialCaller, config.borrowToken, newNonce, collateralAmount),
                             Send(initialCaller, poolAsset, 0, borrowableAmount)]);
      r := Ok(());
    }

    method Withdraw(caller: Address, initialCaller: Address, token: TokenId, tokenNonce: nat, amount: nat,
                    depositRate: nat, now: nat)
      returns (r: Result<()>)
      modifies this
      ensures Commits(r, WithdrawStep(old(State()), caller, initialCaller, token, tokenNonce, amount, depositRate, now),
                      old(State()), State())
    {
      ghost var step := WithdrawStep(State(), caller, initialCaller, token, tokenNonce, amount, depositRate, now);
      if caller != config.owner {
        return Err(ONLY_OWNER);
      }
      if token != config.lendToken {
        return Err("lend token not supported");
      }
      if tokenNonce !in interestMetadata {
        return Err(DECODE_ERROR);
      }
      var timestamp := interestMetadata[tokenNonce];
      if now < timestamp {
        return Err(ARITHMETIC_PANIC);
      }
      var withdrawalAmount := PoolMath.ComputeWithdrawalAmount(amount, now - timestamp, depositRate);
      var assetReserve := Get(reserves, config.poolAsset, 0);
      if assetReserve < withdrawalAmount {
        return Err("insufficient funds");
      }
      reserves := reserves[config.poolAsset := assetReserve - withdrawalAmount];
      ledger := ledger.Then([Burn(token, tokenNonce, amount), Send(initialCaller, config.poolAsset, 0, withdrawalAmount)]);
      r := Ok(());
    }

    method Repay(caller: Address, initialCaller: Address, transfers: seq<Payment>, nft: NftData,
                 interestOf: (nat, nat) -> Result<nat>)
      returns (r: Result<RepayOutput>)
      modifies this
      ensures CommitsWith(r, RepayStep(old(State()), caller, initialCaller, transfers, nft, interestOf),
                          old(State()), State())
    {
      ghost var step := RepayStep(State(), caller, initialCaller, transfers, nft, interestOf);
      if caller != config.owner {
        return Err(ONLY_OWNER);
      }
      if initialCaller == ZERO_ADDRESS {
        return Err(ADDRESS_ZERO);
      }
      if |transfers| != 2 {
        return Err("Invalid number of payments");
      }
      if transfers[0].token != config.borrowToken {
        return Err("First payment should be the borrow SFTs");
      }
      if transfers[1].token != config.poolAsset {
        return Err("Second payment should be this pool's asset");
      }
      var borrowTokenAmount, assetAmount := transfers[0].amount, transfers[1].amount;
      var debtPositionId := nft.hash;
      if debtPositionId !in debtPositions {
        return Err("invalid debt position");
      }
      var debtPosition := debtPositions[debtPositionId];
      if debtPosition.isLiquidated {
        return Err("position is liquidated");
      }
      if nft.attributes.None? {
        return Err(DECODE_ERROR);
      }
      var accumulated := interestOf(borrowTokenAmount, nft.attributes.value.timestamp);
      if accumulated.Err? {
        return Err(accumulated.msg);
      }
      var totalOwed := borrowTokenAmount + accumulated.value;
      if assetAmount < totalOwed {
        return Err("Not enough asset tokens deposited");
      }
      if debtPosition.collateralAmount < borrowTokenAmount {
        return Err(ARITHMETIC_PANIC);
      }
      var extraAssetPaid := assetAmount - totalOwed;
      var refund := [];
      if extraAssetPaid > 0 {
        refund := [Send(initialCaller, config.poolAsset, 0, extraAssetPaid)];
      }
      debtPosition := debtPosition.(collateralAmount := debtPosition.collateralAmount - borrowTokenAmount);
      if debtPosition.collateralAmount == 0 {
        debtPositions := debtPositions - {debtPositionId};
      } else {
        debtPositions := debtPositions[debtPositionId := debtPosition];
      }
      ledger := ledger.Then(refund + [Burn(transfers[0].token, transfers[0].nonce, borrowTokenAmount)]);
      r := Ok(RepayOutput(debtPosition.collateralIdentifier, borrowTokenAmount, debtPosition.timestamp));
    }

    method Liquidate(caller: Address, positionId: Hash, token: TokenId, amount: nat,
                     interestOf: (nat, nat) -> Result<nat>)
      returns (r: Result<LiquidateData>)
      modifies this
      ensures CommitsWith(r, LiquidateStep(old(State()), caller, positionId, token, amount, interestOf),
                          old(State()), State())
    {
      ghost var step := LiquidateStep(State(), caller, positionId, token, amount, interestOf);
      if caller != config.owner {
        return Err(ONLY_OWNER);
      }
      if amount == 0 {
        return Err("amount must be bigger then 0");
      }
      if token != config.poolAsset {
        return Err("asset is not supported by this pool");
      }
      var debtPosition := Get(debtPositions, positionId, DEFAULT_POSITION);
      if debtPosition == DEFAULT_POSITION {
        return Err("invalid debt position id");
      }
      if debtPosition.isLiquidated {
        return Err("position is already liquidated");
      }
      if !(debtPosition.healthFactor < config.healthFactorThreshold) {
        return Err("the health factor is not low enough");
      }
      var interest := interestOf(debtPosition.size, debtPosition.timestamp);
      if interest.Err? {
        return Err(interest.msg);
      }
      if debtPosition.size + interest.value != amount {
        return Err("position can't be liquidated, not enough or to much tokens send");
      }
      debtPosition := debtPosition.(isLiquidated := true);
      debtPositions := debtPositions[positionId := debtPosition];
      r := Ok(LiquidateData(debtPosition.collateralIdentifier, debtPosition.size));
    }
  }
}
