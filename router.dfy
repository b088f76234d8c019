/** The standalone pool router (router/src/lib.rs): the owner creates one
    liquidity pool per ESDT asset through the pool factory and may ask the
    factory to upgrade it. The address the factory deploys (zero when the
    deployment failed) and whether an upgrade succeeded are inputs. */
module Router {
  import opened Common

  datatype Storage = Storage(owner: Address, poolsMap: map<TokenId, Address>)

  /** No asset is registered under the zero address. */
  predicate Valid(s: Storage) {
    forall a :: a in s.poolsMap ==> s.poolsMap[a] != ZERO_ADDRESS
  }

  /** create_liquidity_pool: owner only, for an ESDT asset without a pool.
      The deployed address is returned even when it is zero, but only a
      non-zero one is registered. */
  function CreateLiquidityPoolStep(s: Storage, caller: Address, baseAsset: TokenId, deployed: Address)
    : (r: Result<(Storage, Address)>)
    ensures r.Ok? <==> caller == s.owner && baseAsset !in s.poolsMap && IsEsdt(baseAsset)
    ensures caller != s.owner ==> r == Err("only owner can create new pools")
    ensures caller == s.owner && baseAsset in s.poolsMap ==> r == Err("Asset already supported")
    ensures r.Ok? ==> r.value.1 == deployed
    ensures r.Ok? && deployed != ZERO_ADDRESS ==> r.value.0 == s.(poolsMap := s.poolsMap[baseAsset := deployed])
    ensures r.Ok? && deployed == ZERO_ADDRESS ==> r.value.0 == s
    ensures r.Ok? && Valid(s) ==> Valid(r.value.0)
  {
    if caller != s.owner then Err("only owner can create new pools")
    else if baseAsset in s.poolsMap then Err("Asset already supported")
    else if !IsEsdt(baseAsset) then Err("Non-ESDT asset provided")
    else if deployed != ZERO_ADDRESS then Ok((s.(poolsMap := s.poolsMap[baseAsset := deployed]), deployed))
    else Ok((s, deployed))
  }

  /** upgrade_liquidity_pool: owner only, for a registered asset; nothing is
      stored, and a failed upgrade aborts. Returns the pool upgraded. */
  function UpgradeLiquidityPool(s: Storage, caller: Address, baseAsset: TokenId, upgraded: bool): (r: Result<Address>)
    ensures r.Ok? <==> caller == s.owner && baseAsset in s.poolsMap && upgraded
    ensures caller == s.owner && baseAsset !in s.poolsMap ==> r == Err("no pool found for this asset")
    ensures caller == s.owner && baseAsset in s.poolsMap && !upgraded ==> r == Err("pair upgrade failed")
    ensures r.Ok? ==> r.value == s.poolsMap[baseAsset]
  {
    if caller != s.owner then Err("only owner can upgrade existing pools")
    else if baseAsset !in s.poolsMap then Err("no pool found for this asset")
    else if !upgraded then Err("pair upgrade failed")
    else Ok(s.poolsMap[baseAsset])
  }

  /** get_pool_address: the zero address for an unknown asset. */
  function GetPoolAddress(s: Storage, baseAsset: TokenId): (r: Address)
    ensures baseAsset in s.poolsMap ==> r == s.poolsMap[baseAsset]
    ensures baseAsset !in s.poolsMap ==> r == ZERO_ADDRESS
  {
    Get(s.poolsMap, baseAsset, ZERO_ADDRESS)
  }

  /** In a valid registry an asset has a pool exactly when its address is
      non-zero; a creation that deployed a pool makes the lookup return it,
      a failed deployment leaves the asset free for another attempt. */
  lemma {:induction false} CreateThenLookup(s: Storage, caller: Address, baseAsset: TokenId, deployed: Address, next: Address)
    requires Valid(s)
    requires CreateLiquidityPoolStep(s, caller, baseAsset, deployed).Ok?
    ensures var s' := CreateLiquidityPoolStep(s, caller, baseAsset, deployed).value.0;
      && GetPoolAddress(s', baseAsset) == deployed
      && (deployed != ZERO_ADDRESS <==> baseAsset in s'.poolsMap)
      && (deployed == ZERO_ADDRESS ==> CreateLiquidityPoolStep(s', caller, baseAsset, next).Ok?)
      && (deployed != ZERO_ADDRESS ==> CreateLiquidityPoolStep(s', caller, baseAsset, next) == Err("Asset already supported"))
  {
    var s' := CreateLiquidityPoolStep(s, caller, baseAsset, deployed).value.0;
    assert Valid(s');
  }

  class PoolRouter {
    var owner: Address
    var poolsMap: map<TokenId, Address>

    function State(): Storage
      reads this
    {
      Storage(owner, poolsMap)
    }

    /** init: the deployer owns the router and no pool is registered. */
    constructor Init(deployer: Address)
      ensures State() == Storage(deployer, map[])
      ensures Valid(State())
    {
      owner, poolsMap := deployer, map[];
    }

    method CreateLiquidityPool(caller: Address, baseAsset: TokenId, deployed: Address) returns (r: Result<Address>)
      modifies this
      ensures CommitsWith(r, CreateLiquidityPoolStep(old(State()), caller, baseAsset, deployed), old(State()), State())
    {
      if caller != owner {
        return Err("only owner can create new pools");
      }
      if baseAsset in poolsMap {
        return Err("Asset already supported");
      }
      if !IsEsdt(baseAsset) {
        return Err("Non-ESDT asset provided");
      }
      if deployed != ZERO_ADDRESS {
        poolsMap := poolsMap[baseAsset := deployed];
      }
      r := Ok(deployed);
    }
  }
}
