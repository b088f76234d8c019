/** The price-oracle module (price_oracle/src/lib.rs): the owner sets the
    address of a price aggregator, and a price for a pair of tokens is asked
    of that aggregator under the two tickers. A ticker is the part of a
    token identifier before its first dash. The aggregator's answers are an
    input: a map from a ticker pair to its latest price feed. */
module PriceOracle {
  import opened Common
  import LendingUtils

  const TICKER_SEPARATOR: char := '-'

  /** get_token_ticker: the identifier up to its first separator, or the
      whole identifier when it has none. */
  function GetTokenTicker(tokenId: TokenId): (r: string)
    ensures |r| <= |tokenId| && r == tokenId[..|r|]
    ensures forall i :: 0 <= i < |r| ==> r[i] != TICKER_SEPARATOR
    ensures |r| < |tokenId| ==> tokenId[|r|] == TICKER_SEPARATOR
    decreases |tokenId|
  {
    if |tokenId| == 0 || tokenId[0] == TICKER_SEPARATOR then []
    else [tokenId[0]] + GetTokenTicker(tokenId[1..])
  }

  /** The ticker is the one prefix that holds no separator and is followed
      by one or by the end of the identifier. */
  lemma {:induction false} TickerIsBeforeFirstSeparator(tokenId: TokenId, i: nat)
    requires i <= |tokenId|
    requires forall j :: 0 <= j < i ==> tokenId[j] != TICKER_SEPARATOR
    requires i < |tokenId| ==> tokenId[i] == TICKER_SEPARATOR
    ensures GetTokenTicker(tokenId) == tokenId[..i]
    decreases i
  {
    if i > 0 {
      TickerIsBeforeFirstSeparator(tokenId[1..], i - 1);
      assert tokenId[..i] == [tokenId[0]] + tokenId[1..][..i - 1];
    }
  }

  /** An identifier without a separator is its own ticker, so taking the
      ticker twice gives the ticker. */
  lemma TickerIsIdempotent(tokenId: TokenId)
    ensures TICKER_SEPARATOR !in tokenId ==> GetTokenTicker(tokenId) == tokenId
    ensures GetTokenTicker(GetTokenTicker(tokenId)) == GetTokenTicker(tokenId)
  {
    var r := GetTokenTicker(tokenId);
    TickerIsBeforeFirstSeparator(r, |r|);
    if TICKER_SEPARATOR !in tokenId {
      assert forall j :: 0 <= j < |tokenId| ==> tokenId[j] != TICKER_SEPARATOR;
      TickerIsBeforeFirstSeparator(tokenId, |tokenId|);
    }
  }

  /** On a well-formed ESDT identifier this ticker is the one the lending
      pool computes by dropping the seven-byte suffix. */
  lemma TickerAgreesWithLendingPool(tokenId: TokenId)
    requires IsValidEsdtIdentifier(tokenId)
    ensures LendingUtils.GetTokenTicker(tokenId) == Ok(GetTokenTicker(tokenId))
  {
    LendingUtils.TickerOfValidIdentifier(tokenId);
    var t := LendingUtils.GetTokenTicker(tokenId).value;
    forall j | 0 <= j < |t|
      ensures tokenId[j] != TICKER_SEPARATOR
    {
      assert tokenId[j] == t[j] && IsUpperAlnum(t[j]);
    }
    TickerIsBeforeFirstSeparator(tokenId, |t|);
  }

  /** The module's storage: the owner and the aggregator address (zero
      while never set). */
  datatype Storage = Storage(owner: Address, aggregatorAddress: Address)

  /** setAggregatorAddress: owner only; stores the address. */
  function SetAggregatorAddressStep(s: Storage, caller: Address, address: Address): (r: Result<Storage>)
    ensures r.Ok? <==> caller == s.owner
    ensures r.Err? ==> r == Err(ONLY_OWNER)
    ensures r.Ok? ==> r.value == s.(aggregatorAddress := address)
  {
    if caller != s.owner then Err(ONLY_OWNER) else Ok(s.(aggregatorAddress := address))
  }

  /** get_price_for_pair: no price while no aggregator is set; otherwise the
      price of the aggregator's feed for the two tickers, if it has one. */
  function GetPriceForPair(s: Storage, feed: LendingUtils.Oracle, from: TokenId, to: TokenId): (r: Option<nat>)
    ensures s.aggregatorAddress == ZERO_ADDRESS ==> r.None?
    ensures r.Some? <==> s.aggregatorAddress != ZERO_ADDRESS && (GetTokenTicker(from), GetTokenTicker(to)) in feed
    ensures r.Some? ==> r.value == feed[(GetTokenTicker(from), GetTokenTicker(to))].price
  {
    if s.aggregatorAddress == ZERO_ADDRESS then None
    else
      var key := (GetTokenTicker(from), GetTokenTicker(to));
      if key in feed then Some(feed[key].price) else None
  }

  /** Once the owner has set a non-zero aggregator, a pair is priced exactly
      when the feed knows the pair's tickers; setting the zero address
      switches every price off. */
  lemma {:induction false} SetAggregatorThenPrice(s: Storage, address: Address, feed: LendingUtils.Oracle, from: TokenId, to: TokenId)
    ensures var s' := SetAggregatorAddressStep(s, s.owner, address).value;
      && (address != ZERO_ADDRESS ==> (GetPriceForPair(s', feed, from, to).Some? <==> (GetTokenTicker(from), GetTokenTicker(to)) in feed))
      && (address == ZERO_ADDRESS ==> GetPriceForPair(s', feed, from, to) == None)
  {
    var s' := SetAggregatorAddressStep(s, s.owner, address).value;
    assert s'.aggregatorAddress == address;
  }

  class Oracle {
    var owner: Address
    var aggregatorAddress: Address

    function State(): Storage
      reads this
    {
      Storage(owner, aggregatorAddress)
    }

    /** A fresh module: the deployer owns it and no aggregator is set. */
    constructor (deployer: Address)
      ensures State() == Storage(deployer, ZERO_ADDRESS)
    {
      owner, aggregatorAddress := deployer, ZERO_ADDRESS;
    }

    method SetAggregatorAddress(caller: Address, address: Address) returns (r: Result<()>)
      modifies this
      ensures Commits(r, SetAggregatorAddressStep(old(State()), caller, address), old(State()), State())
    {
      if caller != owner {
        return Err(ONLY_OWNER);
      }
      aggregatorAddress := address;
      r := Ok(());
    }
  }
}
