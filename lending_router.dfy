/** The pool registry of the lending pool (lending_pool/src/router.rs): one
    liquidity pool per ESDT asset, the set of pool contracts allowed to call
    back, the loan-to-value and liquidation bonus set per asset, and the
    owner-only endpoints that forward to a pool. Deploying a pool is done by
    the factory, whose answer is an input; the forwarded calls are returned
    as the address they go to. */
module LendingRouter {
  import opened Common

  /** The registry's storage. A BigUint slot holding zero is stored empty,
      so an asset whose loan-to-value is 0 reads as having none. */
  datatype Storage = Storage(
    owner: Address,
    poolsMap: map<TokenId, Address>,
    poolsAllowed: set<Address>,
    loanToValue: map<TokenId, nat>,
    liquidationBonus: map<TokenId, nat>)

  /** Every registered pool may call back. */
  predicate Valid(s: Storage) {
    forall a :: a in s.poolsMap ==> s.poolsMap[a] in s.poolsAllowed
  }

  /** create_liquidity_pool: owner only, for an ESDT asset without a pool;
      the factory's answer (the deployed address, or its abort) must be a
      non-zero address, which is then registered and allowed. */
  function CreateLiquidityPoolStep(s: Storage, caller: Address, baseAsset: TokenId, deployed: Result<Address>)
    : (r: Result<(Storage, Address)>)
    ensures r.Ok? <==> caller == s.owner && baseAsset !in s.poolsMap && IsEsdt(baseAsset)
                       && deployed.Ok? && deployed.value != ZERO_ADDRESS
    ensures caller == s.owner && baseAsset in s.poolsMap ==> r == Err("asset already supported")
    ensures caller == s.owner && baseAsset !in s.poolsMap && !IsEsdt(baseAsset) ==> r == Err("non-ESDT asset provided")
    ensures caller == s.owner && baseAsset !in s.poolsMap && IsEsdt(baseAsset) && deployed == Ok(ZERO_ADDRESS)
         ==> r == Err(ADDRESS_ZERO)
    ensures r.Ok? ==>
      && r.value.1 == deployed.value
      && r.value.0 == s.(poolsMap := s.poolsMap[baseAsset := deployed.value],
                         poolsAllowed := s.poolsAllowed + {deployed.value})
  {
    if caller != s.owner then Err(ONLY_OWNER)
    else if baseAsset in s.poolsMap then Err("asset already supported")
    else if !IsEsdt(baseAsset) then Err("non-ESDT asset provided")
    else
      match deployed
      case Err(m) => Err(m)
      case Ok(address) =>
        if address == ZERO_ADDRESS then Err(ADDRESS_ZERO)
        else Ok((s.(poolsMap := s.poolsMap[baseAsset := address], poolsAllowed := s.poolsAllowed + {address}), address))
  }

  /** upgrade_liquidity_pool: owner only, for a registered asset; the pool
      to upgrade is the one registered, and the factory's abort is passed on.
      Nothing is stored. */
  function UpgradeLiquidityPool(s: Storage, caller: Address, baseAsset: TokenId, upgraded: Result<()>): (r: Result<Address>)
    ensures r.Ok? <==> caller == s.owner && baseAsset in s.poolsMap && upgraded.Ok?
    ensures caller == s.owner && baseAsset !in s.poolsMap ==> r == Err("no pool found for this asset")
    ensures r.Ok? ==> r.value == s.poolsMap[baseAsset]
  {
    if caller != s.owner then Err(ONLY_OWNER)
    else if baseAsset !in s.poolsMap then Err("no pool found for this asset")
    else
      match upgraded
      case Err(m) => Err(m)
      case Ok(_) => Ok(s.poolsMap[baseAsset])
  }

  /** The owner-only endpoints that forward to the pool of an asset
      (issue_lend_token, issue_borrow_token, set_lend_roles,
      set_borrow_roles, set_aggregator): the call goes to the registered
      pool, or to the zero address for an unknown asset. */
  function ForwardTarget(s: Storage, caller: Address, asset: TokenId): (r: Result<Address>)
    ensures r.Ok? <==> caller == s.owner
    ensures r.Ok? ==> r.value == GetPoolAddress(s, asset)
    ensures r.Ok? && asset !in s.poolsMap ==> r.value == ZERO_ADDRESS
  {
    if caller != s.owner then Err(ONLY_OWNER) else Ok(GetPoolAddress(s, asset))
  }

  /** set_asset_loan_to_value: owner only; the last write wins. */
  function SetAssetLoanToValueStep(s: Storage, caller: Address, asset: TokenId, ltv: nat): (r: Result<Storage>)
    ensures r.Ok? <==> caller == s.owner
    ensures r.Ok? ==> r.value == s.(loanToValue := s.loanToValue[asset := ltv])
  {
    if caller != s.owner then Err(ONLY_OWNER) else Ok(s.(loanToValue := s.loanToValue[asset := ltv]))
  }

  /** set_asset_liquidation_bonus: owner only; the last write wins. */
  function SetAssetLiquidationBonusStep(s: Storage, caller: Address, asset: TokenId, bonus: nat): (r: Result<Storage>)
    ensures r.Ok? <==> caller == s.owner
    ensures r.Ok? ==> r.value == s.(liquidationBonus := s.liquidationBonus[asset := bonus])
  {
    if caller != s.owner then Err(ONLY_OWNER) else Ok(s.(liquidationBonus := s.liquidationBonus[asset := bonus]))
  }

  /** set_ticker_after_issue: an allowed pool registers itself for a valid
      ESDT identifier (the position token it issued). */
  function SetTickerAfterIssueStep(s: Storage, caller: Address, tokenTicker: TokenId): (r: Result<Storage>)
    ensures r.Ok? <==> caller in s.poolsAllowed && IsValidEsdtIdentifier(tokenTicker)
    ensures caller !in s.poolsAllowed ==> r == Err("access restricted: unknown caller address")
    ensures r.Ok? ==> r.value == s.(poolsMap := s.poolsMap[tokenTicker := caller])
    ensures r.Ok? && Valid(s) ==> Valid(r.value)
  {
    if caller !in s.poolsAllowed then Err("access restricted: unknown caller address")
    else if !IsValidEsdtIdentifier(tokenTicker) then Err("invalid ticker provided")
    else Ok(s.(poolsMap := s.poolsMap[tokenTicker := caller]))
  }

  /** get_pool_address: the zero address for an unknown asset. */
  function GetPoolAddress(s: Storage, asset: TokenId): (r: Address)
    ensures asset in s.poolsMap ==> r == s.poolsMap[asset]
    ensures asset !in s.poolsMap ==> r == ZERO_ADDRESS
  {
    Get(s.poolsMap, asset, ZERO_ADDRESS)
  }

  /** get_pool_address_non_zero: aborts for an unknown asset. */
  function GetPoolAddressNonZero(s: Storage, asset: TokenId): (r: Result<Address>)
    ensures r.Ok? <==> asset in s.poolsMap
    ensures r.Ok? ==> r.value == GetPoolAddress(s, asset)
  {
    if asset !in s.poolsMap then Err("no pool address for asset") else Ok(s.poolsMap[asset])
  }

  /** get_liquidation_bonus_non_zero: aborts when the bonus is zero or unset. */
  function GetLiquidationBonusNonZero(s: Storage, asset: TokenId): (r: Result<nat>)
    ensures r.Ok? <==> Get(s.liquidationBonus, asset, 0) > 0
    ensures r.Ok? ==> r.value == s.liquidationBonus[asset]
  {
    var bonus := Get(s.liquidationBonus, asset, 0);
    if bonus == 0 then Err("no liquidation_bonus present for asset") else Ok(bonus)
  }

  /** get_loan_to_value_exists_and_non_zero: aborts when the slot is empty,
      which a stored zero also is, so its second guard (a zero value) is
      never the one that fires. */
  function GetLoanToValueExistsAndNonZero(s: Storage, asset: TokenId): (r: Result<nat>)
    ensures r.Ok? <==> Get(s.loanToValue, asset, 0) > 0
    ensures r.Err? ==> r == Err("no loan_to_value value present for asset")
    ensures r.Ok? ==> r.value == s.loanToValue[asset]
  {
    var ltv := Get(s.loanToValue, asset, 0);
    if ltv == 0 then Err("no loan_to_value value present for asset") else Ok(ltv)
  }

  /** A created pool is registered, found by both lookups, allowed to call
      back, and a second creation for the same asset is refused. */
  lemma {:induction false} CreatedPoolIsFound(s: Storage, caller: Address, baseAsset: TokenId, deployed: Result<Address>,
                                              again: Result<Address>)
    requires Valid(s)
    requires CreateLiquidityPoolStep(s, caller, baseAsset, deployed).Ok?
    ensures var s' := CreateLiquidityPoolStep(s, caller, baseAsset, deployed).value.0;
      && Valid(s')
      && GetPoolAddressNonZero(s', baseAsset) == Ok(deployed.value)
      && deployed.value in s'.poolsAllowed
      && CreateLiquidityPoolStep(s', caller, baseAsset, again) == Err("asset already supported")
      && (forall a :: a != baseAsset ==> GetPoolAddress(s', a) == GetPoolAddress(s, a))
  {
    var s' := CreateLiquidityPoolStep(s, caller, baseAsset, deployed).value.0;
    forall a | a in s'.poolsMap
      ensures s'.poolsMap[a] in s'.poolsAllowed
    {
      if a != baseAsset {
        assert a in s.poolsMap;
      }
    }
  }

  /** The setters overwrite: of two writes for one asset only the last
      counts, and a positive value is what the getter then returns. */
  lemma LastWriteWins(s: Storage, caller: Address, asset: TokenId, x: nat, y: nat)
    requires caller == s.owner
    ensures var s1 := SetAssetLoanToValueStep(s, caller, asset, x).value;
      && SetAssetLoanToValueStep(s1, caller, asset, y) == SetAssetLoanToValueStep(s, caller, asset, y)
      && (y > 0 ==> GetLoanToValueExistsAndNonZero(SetAssetLoanToValueStep(s1, caller, asset, y).value, asset) == Ok(y))
      && (y == 0 ==> GetLoanToValueExistsAndNonZero(SetAssetLoanToValueStep(s1, caller, asset, y).value, asset).Err?)
    ensures var s1 := SetAssetLiquidationBonusStep(s, caller, asset, x).value;
      && SetAssetLiquidationBonusStep(s1, caller, asset, y) == SetAssetLiquidationBonusStep(s, caller, asset, y)
      && (y > 0 ==> GetLiquidationBonusNonZero(SetAssetLiquidationBonusStep(s1, caller, asset, y).value, asset) == Ok(y))
  {
    var s1 := SetAssetLoanToValueStep(s, caller, asset, x).value;
    assert s1.loanToValue[asset := y] == s.loanToValue[asset := y];
    var s2 := SetAssetLiquidationBonusStep(s, caller, asset, x).value;
    assert s2.liquidationBonus[asset := y] == s.liquidationBonus[asset := y];
  }

  /** After set_ticker_after_issue the position token's pool is the caller. */
  lemma TickerMapsToCaller(s: Storage, caller: Address, tokenTicker: TokenId)
    requires SetTickerAfterIssueStep(s, caller, tokenTicker).Ok?
    ensures GetPoolAddressNonZero(SetTickerAfterIssueStep(s, caller, tokenTicker).value, tokenTicker) == Ok(caller)
  {
  }

  class Router {
    var owner: Address
    var poolsMap: map<TokenId, Address>
    var poolsAllowed: set<Address>
    var loanToValue: map<TokenId, nat>
    var liquidationBonus: map<TokenId, nat>

    function State(): Storage
      reads this
    {
      Storage(owner, poolsMap, poolsAllowed, loanToValue, liquidationBonus)
    }

    constructor (s: Storage)
      ensures State() == s
    {
      owner, poolsMap, poolsAllowed := s.owner, s.poolsMap, s.poolsAllowed;
      loanToValue, liquidationBonus := s.loanToValue, s.liquidationBonus;
    }

    method CreateLiquidityPool(caller: Address, baseAsset: TokenId, deployed: Result<Address>) returns (r: Result<Address>)
      modifies this
      ensures CommitsWith(r, CreateLiquidityPoolStep(old(State()), caller, baseAsset, deployed), old(State()), State())
    {
      if caller != owner {
        return Err(ONLY_OWNER);
      }
      if baseAsset in poolsMap {
        return Err("asset already supported");
      }
      if !IsEsdt(baseAsset) {
        return Err("non-ESDT asset provided");
      }
      if deployed.Err? {
        return Err(deployed.msg);
      }
      var address := deployed.value;
      if address == ZERO_ADDRESS {
        return Err(ADDRESS_ZERO);
      }
      poolsMap := poolsMap[baseAsset := address];
      poolsAllowed := poolsAllowed + {address};
      r := Ok(address);
    }

    method SetAssetLoanToValue(caller: Address, asset: TokenId, ltv: nat) returns (r: Result<()>)
      modifies this
      ensures Commits(r, SetAssetLoanToValueStep(old(State()), caller, asset, ltv), old(State()), State())
    {
      if caller != owner {
        return Err(ONLY_OWNER);
      }
      loanToValue := loanToValue[asset := ltv];
      r := Ok(());
    }

    method SetAssetLiquidationBonus(caller: Address, asset: TokenId, bonus: nat) returns (r: Result<()>)
      modifies this
      ensures Commits(r, SetAssetLiquidationBonusStep(old(State()), caller, asset, bonus), old(State()), State())
    {
      if caller != owner {
        return Err(ONLY_OWNER);
      }
      liquidationBonus := liquidationBonus[asset := bonus];
      r := Ok(());
    }

    method SetTickerAfterIssue(caller: Address, tokenTicker: TokenId) returns (r: Result<()>)
      modifies this
      ensures Commits(r, SetTickerAfterIssueStep(old(State()), caller, tokenTicker), old(State()), State())
    {
      var isPoolAllowed := caller in poolsAllowed;
      if !isPoolAllowed {
        return Err("access restricted: unknown caller address");
      }
      if !IsValidEsdtIdentifier(tokenTicker) {
        return Err("invalid ticker provided");
      }
      poolsMap := poolsMap[tokenTicker := caller];
      r := Ok(());
    }
  }
}
