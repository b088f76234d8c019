/** The lending pool's pool metadata (lending_pool/src/liq_pools.rs): per
    pool address its asset and, once issued, its lend and borrow token ids,
    which are set once each; three reverse maps find a pool by its asset,
    lend id or borrow id. */
module LiqPools {
  import opened Common

  datatype LiqPoolMetadata = LiqPoolMetadata(
    address: Address,
    assetId: TokenId,
    lendId: Option<TokenId>,
    borrowId: Option<TokenId>)

  /** LiqPoolMetadata::new: a pool whose position tokens are not issued yet. */
  function NewMetadata(address: Address, assetId: TokenId): (m: LiqPoolMetadata)
    ensures m.address == address && m.assetId == assetId && m.lendId.None? && m.borrowId.None?
  {
    LiqPoolMetadata(address, assetId, None, None)
  }

  /** The module's storage; a reverse map without a key is an empty slot. */
  datatype Storage = Storage(
    pools: map<Address, LiqPoolMetadata>,
    assetIdToPoolAddress: map<TokenId, Address>,
    lendIdToPoolAddress: map<TokenId, Address>,
    borrowIdToPoolAddress: map<TokenId, Address>)

  /** add_pool: fresh metadata at the address (replacing any earlier one)
      and the asset mapped to the address. */
  function AddPoolStep(s: Storage, address: Address, assetId: TokenId): (r: Storage)
    ensures r.pools == s.pools[address := NewMetadata(address, assetId)]
    ensures r.assetIdToPoolAddress == s.assetIdToPoolAddress[assetId := address]
    ensures r.lendIdToPoolAddress == s.lendIdToPoolAddress && r.borrowIdToPoolAddress == s.borrowIdToPoolAddress
  {
    s.(pools := s.pools[address := NewMetadata(address, assetId)],
       assetIdToPoolAddress := s.assetIdToPoolAddress[assetId := address])
  }

  /** set_lend_id: the pool must exist and have no lend id yet. */
  function SetLendIdStep(s: Storage, address: Address, lendId: TokenId): (r: Result<Storage>)
    ensures r.Ok? <==> address in s.pools && s.pools[address].lendId.None?
    ensures address !in s.pools ==> r == Err("LiqPoolMetadata is None")
    ensures address in s.pools && s.pools[address].lendId.Some? ==> r == Err("Lend Id already set")
    ensures r.Ok? ==>
      && r.value.pools == s.pools[address := s.pools[address].(lendId := Some(lendId))]
      && r.value.lendIdToPoolAddress == s.lendIdToPoolAddress[lendId := address]
      && r.value.assetIdToPoolAddress == s.assetIdToPoolAddress
      && r.value.borrowIdToPoolAddress == s.borrowIdToPoolAddress
  {
    if address !in s.pools then Err("LiqPoolMetadata is None")
    else
      var metadata := s.pools[address];
      if metadata.lendId.Some? then Err("Lend Id already set")
      else
        Ok(s.(lendIdToPoolAddress := s.lendIdToPoolAddress[lendId := address],
              pools := s.pools[address := metadata.(lendId := Some(lendId))]))
  }

  /** set_borrow_id: as set_lend_id, for the borrow token. */
  function SetBorrowIdStep(s: Storage, address: Address, borrowId: TokenId): (r: Result<Storage>)
    ensures r.Ok? <==> address in s.pools && s.pools[address].borrowId.None?
    ensures address !in s.pools ==> r == Err("LiqPoolMetadata is None")
    ensures address in s.pools && s.pools[address].borrowId.Some? ==> r == Err("Borrow Id already set")
    ensures r.Ok? ==>
      && r.value.pools == s.pools[address := s.pools[address].(borrowId := Some(borrowId))]
      && r.value.borrowIdToPoolAddress == s.borrowIdToPoolAddress[borrowId := address]
      && r.value.assetIdToPoolAddress == s.assetIdToPoolAddress
      && r.value.lendIdToPoolAddress == s.lendIdToPoolAddress
  {
    if address !in s.pools then Err("LiqPoolMetadata is None")
    else
      var metadata := s.pools[address];
      if metadata.borrowId.Some? then Err("Borrow Id already set")
      else
        Ok(s.(borrowIdToPoolAddress := s.borrowIdToPoolAddress[borrowId := address],
              pools := s.pools[address := metadata.(borrowId := Some(borrowId))]))
  }

  /** The metadata behind a reverse-map slot: none for an empty slot or an
      address without metadata. */
  function Lookup(s: Storage, reverse: map<TokenId, Address>, id: TokenId): (r: Option<LiqPoolMetadata>)
    ensures id !in reverse ==> r.None?
    ensures r.Some? <==> id in reverse && reverse[id] in s.pools
    ensures r.Some? ==> r.value == s.pools[reverse[id]]
  {
    if id !in reverse then None
    else
      var address := reverse[id];
      if address in s.pools then Some(s.pools[address]) else None
  }

  function GetPoolMetadataByAddress(s: Storage, address: Address): (r: Option<LiqPoolMetadata>)
    ensures r.Some? <==> address in s.pools
    ensures r.Some? ==> r.value == s.pools[address]
  {
    if address in s.pools then Some(s.pools[address]) else None
  }

  function GetPoolMetadataByAssetId(s: Storage, assetId: TokenId): (r: Option<LiqPoolMetadata>)
    ensures r.Some? <==> assetId in s.assetIdToPoolAddress && s.assetIdToPoolAddress[assetId] in s.pools
    ensures r.Some? ==> r.value == s.pools[s.assetIdToPoolAddress[assetId]]
  {
    Lookup(s, s.assetIdToPoolAddress, assetId)
  }

  function GetPoolMetadataByLendId(s: Storage, lendId: TokenId): (r: Option<LiqPoolMetadata>)
    ensures r.Some? <==> lendId in s.lendIdToPoolAddress && s.lendIdToPoolAddress[lendId] in s.pools
    ensures r.Some? ==> r.value == s.pools[s.lendIdToPoolAddress[lendId]]
  {
    Lookup(s, s.lendIdToPoolAddress, lendId)
  }

  function GetPoolMetadataByBorrowId(s: Storage, borrowId: TokenId): (r: Option<LiqPoolMetadata>)
    ensures r.Some? <==> borrowId in s.borrowIdToPoolAddress && s.borrowIdToPoolAddress[borrowId] in s.pools
    ensures r.Some? ==> r.value == s.pools[s.borrowIdToPoolAddress[borrowId]]
  {
    Lookup(s, s.borrowIdToPoolAddress, borrowId)
  }

  /** After add_pool the asset finds the fresh metadata; adding the same
      address again clears the ids set in between. */
  lemma AddPoolThenLookup(s: Storage, address: Address, assetId: TokenId)
    ensures var s' := AddPoolStep(s, address, assetId);
      && GetPoolMetadataByAssetId(s', assetId) == Some(NewMetadata(address, assetId))
      && GetPoolMetadataByAddress(s', address) == Some(NewMetadata(address, assetId))
  {
  }

  /** A lend id and a borrow id set after add_pool are found by their
      reverse lookups, both set at once, until the address is added again,
      which forgets them. */
  lemma {:induction false} IdsAreSetOnceAndFound(s: Storage, address: Address, assetId: TokenId, lendId: TokenId,
                                                 borrowId: TokenId, lendId2: TokenId)
    ensures var s1 := AddPoolStep(s, address, assetId);
      var s2 := SetLendIdStep(s1, address, lendId);
      && s2.Ok?
      && GetPoolMetadataByLendId(s2.value, lendId) == Some(LiqPoolMetadata(address, assetId, Some(lendId), None))
      && SetLendIdStep(s2.value, address, lendId2) == Err("Lend Id already set")
      && var s3 := SetBorrowIdStep(s2.value, address, borrowId);
      && s3.Ok?
      && GetPoolMetadataByBorrowId(s3.value, borrowId) == Some(LiqPoolMetadata(address, assetId, Some(lendId), Some(borrowId)))
      && GetPoolMetadataByLendId(s3.value, lendId) == Some(LiqPoolMetadata(address, assetId, Some(lendId), Some(borrowId)))
      && SetBorrowIdStep(s3.value, address, borrowId) == Err("Borrow Id already set")
      && GetPoolMetadataByLendId(AddPoolStep(s3.value, address, assetId), lendId) == Some(NewMetadata(address, assetId))
  {
    var s1 := AddPoolStep(s, address, assetId);
    var s2 := SetLendIdStep(s1, address, lendId).value;
    var s3 := SetBorrowIdStep(s2, address, borrowId).value;
    assert s3.lendIdToPoolAddress == s2.lendIdToPoolAddress;
  }

  class LiqPoolsModule {
    var pools: map<Address, LiqPoolMetadata>
    var assetIdToPoolAddress: map<TokenId, Address>
    var lendIdToPoolAddress: map<TokenId, Address>
    var borrowIdToPoolAddress: map<TokenId, Address>

    function State(): Storage
      reads this
    {
      Storage(pools, assetIdToPoolAddress, lendIdToPoolAddress, borrowIdToPoolAddress)
    }

    constructor ()
      ensures State() == Storage(map[], map[], map[], map[])
    {
      pools, assetIdToPoolAddress, lendIdToPoolAddress, borrowIdToPoolAddress := map[], map[], map[], map[];
    }

    method AddPool(address: Address, assetId: TokenId)
      modifies this
      ensures State() == AddPoolStep(old(State()), address, assetId)
    {
      pools := pools[address := NewMetadata(address, assetId)];
      assetIdToPoolAddress := assetIdToPoolAddress[assetId := address];
    }

    method SetLendId(address: Address, lendId: TokenId) returns (r: Result<()>)
      modifies this
      ensures Commits(r, SetLendIdStep(old(State()), address, lendId), old(State()), State())
    {
      if address !in pools {
        return Err("LiqPoolMetadata is None");
      }
      var metadata := pools[address];
      if metadata.lendId.Some? {
        return Err("Lend Id already set");
      }
      metadata := metadata.(lendId := Some(lendId));
      lendIdToPoolAddress := lendIdToPoolAddress[lendId := address];
      pools := pools[address := metadata];
      r := Ok(());
    }

    method SetBorrowId(address: Address, borrowId: TokenId) returns (r: Result<()>)
      modifies this
      ensures Commits(r, SetBorrowIdStep(old(State()), address, borrowId), old(State()), State())
    {
      if address !in pools {
        return Err("LiqPoolMetadata is None");
      }
      var metadata := pools[address];
      if metadata.borrowId.Some? {
        return Err("Borrow Id already set");
      }
      metadata := metadata.(borrowId := Some(borrowId));
      borrowIdToPoolAddress := borrowIdToPoolAddress[borrowId := address];
      pools := pools[address := metadata];
      r := Ok(());
    }
  }
}
