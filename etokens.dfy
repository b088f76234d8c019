/** The eToken handler (etokens_handler/src/lib.rs): the owner issues an
    interest-bearing eToken for an ESDT; the issue is an asynchronous call to
    the system contract whose pending operation is kept under the
    transaction hash until the callback. A successful issue maps the ESDT to
    its new eToken and records the eToken's initial supply; a failed one is
    counted. Anyone may then exchange a supported ESDT for its eToken.

    Transaction hashes are numbers given with each call; what the system
    contract answers (success, and the token and amount it transfers back
    with the callback) is an input of the callback. */
module ETokens {
  import opened Common

  const E_TOKEN_PREFIX: string := "E"
  const E_TOKEN_NAME: string := "IntBearing"

  /** The operation waiting for a callback (None, Issue or Mint). A hash
      without one reads as OpNone. */
  datatype EsdtOperation = OpNone | IssueOp | MintOp(amount: nat)

  /** The raw asynchronous issue call: paid with the issue cost, for a
      fungible token with this name, ticker, initial supply and decimals. */
  datatype IssueCall = IssueCall(cost: nat, name: string, ticker: string, initialSupply: nat, decimals: Uint8)

  /** The token bookkeeping: ESDT to eToken (unset reads as EGLD), eToken
      balances, and the last identifiers the issue path wrote. */
  datatype Tokens = Tokens(
    supportedTokens: map<TokenId, TokenId>,
    balance: map<TokenId, nat>,
    latestEsdtIdentifier: TokenId,
    latestETokenIdentifier: TokenId)

  datatype Storage = Storage(
    owner: Address,
    pending: map<nat, EsdtOperation>,
    tokens: Tokens,
    successCallback: Uint8,
    ledger: Ledger)

  function Pending(s: Storage, txHash: nat): EsdtOperation {
    Get(s.pending, txHash, OpNone)
  }

  function SupportedToken(s: Storage, esdt: TokenId): TokenId {
    Get(s.tokens.supportedTokens, esdt, EGLD)
  }

  /** init: the failure counter starts at zero. */
  function InitialStorage(deployer: Address): (s: Storage)
    ensures s.successCallback == 0 && s.pending == map[]
  {
    Storage(deployer, map[], Tokens(map[], map[], EGLD, EGLD), 0, Ledger(map[], []))
  }

  /** The eToken name and ticker for a name: "IntBearing" and "E" before it. */
  function ETokenName(tickerAsName: string): (r: string)
    ensures |r| == |E_TOKEN_NAME| + |tickerAsName|
    ensures r[..|E_TOKEN_NAME|] == E_TOKEN_NAME && r[|E_TOKEN_NAME|..] == tickerAsName
  {
    E_TOKEN_NAME + tickerAsName
  }

  function ETokenTicker(tickerAsName: string): (r: string)
    ensures |r| == |tickerAsName| + 1 && r[0] == 'E' && r[1..] == tickerAsName
  {
    E_TOKEN_PREFIX + tickerAsName
  }

  /** issue_esdt_token (an endpoint of its own): the operation under this
      transaction's hash becomes Issue, and the raw issue call is made. */
  function IssueEsdtTokenStep(s: Storage, txHash: nat, name: string, ticker: string, initialSupply: nat, decimals: Uint8)
    : (r: (Storage, IssueCall))
    ensures r.0 == s.(pending := s.pending[txHash := IssueOp])
    ensures r.1 == IssueCall(ESDT_ISSUE_COST, name, ticker, initialSupply, decimals)
  {
    (s.(pending := s.pending[txHash := IssueOp]), IssueCall(ESDT_ISSUE_COST, name, ticker, initialSupply, decimals))
  }

  /** issue: owner only, paying exactly the issue cost; the ESDT becomes the
      latest identifier and its eToken is issued. */
  function IssueStep(s: Storage, caller: Address, txHash: nat, esdt: TokenId, tickerAsName: string,
                     initialSupply: nat, decimals: Uint8, cost: nat)
    : (r: Result<(Storage, IssueCall)>)
    ensures r.Ok? <==> caller == s.owner && cost == ESDT_ISSUE_COST
    ensures caller != s.owner ==> r == Err("only owner can issue new eTokens")
    ensures caller == s.owner && cost != ESDT_ISSUE_COST ==> r == Err("you need exactly 5 egld to issue egld")
    ensures r.Ok? ==>
      && r.value.0 == s.(pending := s.pending[txHash := IssueOp], tokens := s.tokens.(latestEsdtIdentifier := esdt))
      && r.value.1 == IssueCall(ESDT_ISSUE_COST, ETokenName(tickerAsName), ETokenTicker(tickerAsName), initialSupply, decimals)
  {
    if caller != s.owner then Err("only owner can issue new eTokens")
    else if cost != ESDT_ISSUE_COST then Err("you need exactly 5 egld to issue egld")
    else
      var s' := s.(tokens := s.tokens.(latestEsdtIdentifier := esdt));
      Ok(IssueEsdtTokenStep(s', txHash, ETokenName(tickerAsName), ETokenTicker(tickerAsName), initialSupply, decimals))
  }

  /** perform_esdt_issue_callback: on success the eToken transferred with
      the callback is recorded as the latest, the latest ESDT is mapped to
      it and its balance is the amount transferred; on failure the u8
      counter goes up by one, wrapping at 256. */
  function IssueCallbackStep(s: Storage, success: bool, received: Payment): (r: Storage)
    ensures r.owner == s.owner && r.pending == s.pending && r.ledger == s.ledger
    ensures success ==>
      && r.successCallback == s.successCallback
      && r.tokens.latestETokenIdentifier == received.token
      && r.tokens.latestEsdtIdentifier == s.tokens.latestEsdtIdentifier
      && r.tokens.supportedTokens == s.tokens.supportedTokens[s.tokens.latestEsdtIdentifier := received.token]
      && r.tokens.balance == s.tokens.balance[received.token := received.amount]
    ensures !success ==> r == s.(successCallback := (s.successCallback + 1) % 256)
  {
    if success then
      var t := s.tokens;
      s.(tokens := t.(latestETokenIdentifier := received.token,
                      supportedTokens := t.supportedTokens[t.latestEsdtIdentifier := received.token],
                      balance := t.balance[received.token := received.amount]))
    else
      s.(successCallback := (s.successCallback + 1) % 256)
  }

  /** callback_raw: nothing happens without a pending operation; otherwise
      the operation is handled (a mint needs nothing) and cleared. */
  function CallbackRawStep(s: Storage, txHash: nat, success: bool, received: Payment): (r: Storage)
    ensures Pending(s, txHash) == OpNone ==> r == s
    ensures Pending(s, txHash) != OpNone ==> Pending(r, txHash) == OpNone
    ensures Pending(s, txHash) == IssueOp ==> r == IssueCallbackStep(s, success, received).(pending := s.pending - {txHash})
    ensures Pending(s, txHash).MintOp? ==> r == s.(pending := s.pending - {txHash})
    ensures forall h :: h != txHash ==> Pending(r, h) == Pending(s, h)
  {
    match Pending(s, txHash)
    case OpNone => s
    case IssueOp => IssueCallbackStep(s, success, received).(pending := s.pending - {txHash})
    case MintOp(_) => s.(pending := s.pending - {txHash})
  }

  /** exchange: a payment of an ESDT with an eToken is answered with as many
      eTokens; an ESDT without one is refused. */
  function ExchangeStep(s: Storage, caller: Address, payment: Payment): (r: Result<Storage>)
    ensures r.Ok? <==> SupportedToken(s, payment.token) != EGLD
    ensures r.Err? ==> r == Err("token not supported")
    ensures r.Ok? ==> r.value == s.(ledger := s.ledger.Then([Send(caller, SupportedToken(s, payment.token), 0, payment.amount)]))
  {
    var eToken := SupportedToken(s, payment.token);
    if eToken == EGLD then Err("token not supported")
    else Ok(s.(ledger := s.ledger.Then([Send(caller, eToken, 0, payment.amount)])))
  }

  /** An issue followed by its successful callback supports the ESDT, with
      the eToken's balance the supply sent back; the operation is then gone,
      so a repeated callback changes nothing, and exchanging the ESDT pays
      out the eToken. */
  lemma {:induction false} IssueThenCallback(s: Storage, txHash: nat, esdt: TokenId, tickerAsName: string,
                                             supply: nat, decimals: Uint8, eToken: TokenId, again: Payment,
                                             user: Address, amount: nat)
    requires eToken != EGLD
    ensures var s1 := IssueStep(s, s.owner, txHash, esdt, tickerAsName, supply, decimals, ESDT_ISSUE_COST).value.0;
      var s2 := CallbackRawStep(s1, txHash, true, Payment(eToken, 0, supply));
      && SupportedToken(s2, esdt) == eToken
      && s2.tokens.balance[eToken] == supply
      && Pending(s2, txHash) == OpNone
      && CallbackRawStep(s2, txHash, true, again) == s2
      && ExchangeStep(s2, user, Payment(esdt, 0, amount)).Ok?
      && ExchangeStep(s2, user, Payment(esdt, 0, amount)).value.ledger.effects
         == s.ledger.effects + [Send(user, eToken, 0, amount)]
  {
    var s1 := IssueStep(s, s.owner, txHash, esdt, tickerAsName, supply, decimals, ESDT_ISSUE_COST).value.0;
    assert Pending(s1, txHash) == IssueOp;
    var s2 := CallbackRawStep(s1, txHash, true, Payment(eToken, 0, supply));
    assert s2.tokens.supportedTokens[esdt] == eToken;
  }

  /** A failed issue counts one failure and leaves every mapping as it was. */
  lemma {:induction false} FailedIssueIsCounted(s: Storage, txHash: nat, received: Payment)
    requires Pending(s, txHash) == IssueOp
    ensures var s' := CallbackRawStep(s, txHash, false, received);
      && s'.successCallback == (s.successCallback + 1) % 256
      && s'.tokens == s.tokens && s'.ledger == s.ledger
      && s'.pending == s.pending - {txHash}
  {
  }

  /** The latest ESDT is a single slot: when a second issue starts before
      the first one's callback, that callback maps the second ESDT. */
  lemma {:induction false} InterleavedIssuesMapTheLatest(s: Storage, h1: nat, h2: nat, esdt1: TokenId, esdt2: TokenId,
                                                         name1: string, name2: string, supply: nat, decimals: Uint8,
                                                         eToken: TokenId)
    requires h1 != h2 && esdt1 != esdt2 && eToken != EGLD
    requires SupportedToken(s, esdt1) == EGLD
    ensures var s1 := IssueStep(s, s.owner, h1, esdt1, name1, supply, decimals, ESDT_ISSUE_COST).value.0;
      var s2 := IssueStep(s1, s.owner, h2, esdt2, name2, supply, decimals, ESDT_ISSUE_COST).value.0;
      var s3 := CallbackRawStep(s2, h1, true, Payment(eToken, 0, supply));
      && SupportedToken(s3, esdt2) == eToken
      && SupportedToken(s3, esdt1) == EGLD
      && Pending(s3, h2) == IssueOp
  {
    var s1 := IssueStep(s, s.owner, h1, esdt1, name1, supply, decimals, ESDT_ISSUE_COST).value.0;
    var s2 := IssueStep(s1, s.owner, h2, esdt2, name2, supply, decimals, ESDT_ISSUE_COST).value.0;
    assert Pending(s2, h1) == IssueOp && s2.tokens.latestEsdtIdentifier == esdt2;
  }

  class Handler {
    var owner: Address
    var pending: map<nat, EsdtOperation>
    var tokens: Tokens
    var successCallback: Uint8
    var ledger: Ledger

    function State(): Storage
      reads this
    {
      Storage(owner, pending, tokens, successCallback, ledger)
    }

    /** init. */
    constructor Init(deployer: Address)
      ensures State() == InitialStorage(deployer)
    {
      owner, pending, tokens, ledger := deployer, map[], Tokens(map[], map[], EGLD, EGLD), Ledger(map[], []);
      successCallback := 0;
    }

    method IssueEsdtToken(txHash: nat, name: string, ticker: string, initialSupply: nat, decimals: Uint8)
      returns (call: IssueCall)
      modifies this
      ensures (State(), call) == IssueEsdtTokenStep(old(State()), txHash, name, ticker, initialSupply, decimals)
    {
      pending := pending[txHash := IssueOp];
      call := IssueCall(ESDT_ISSUE_COST, name, ticker, initialSupply, decimals);
    }

    method Issue(caller: Address, txHash: nat, esdt: TokenId, tickerAsName: string, initialSupply: nat,
                 decimals: Uint8, cost: nat) returns (r: Result<IssueCall>)
      modifies this
      ensures CommitsWith(r, IssueStep(old(State()), caller, txHash, esdt, tickerAsName, initialSupply, decimals, cost),
                          old(State()), State())
    {
      if caller != owner {
        return Err("only owner can issue new eTokens");
      }
      if cost != ESDT_ISSUE_COST {
        return Err("you need exactly 5 egld to issue egld");
      }
      tokens := tokens.(latestEsdtIdentifier := esdt);
      var call := IssueEsdtToken(txHash, ETokenName(tickerAsName), ETokenTicker(tickerAsName), initialSupply, decimals);
      r := Ok(call);
    }

    method PerformEsdtIssueCallback(success: bool, received: Payment)
      modifies this
      ensures State() == IssueCallbackStep(old(State()), success, received)
    {
      if success {
        tokens := tokens.(latestETokenIdentifier := received.token);
        var lastEsdtIdentifier := tokens.latestEsdtIdentifier;
        tokens := tokens.(supportedTokens := tokens.supportedTokens[lastEsdtIdentifier := received.token]);
        tokens := tokens.(balance := tokens.balance[received.token := received.amount]);
      } else {
        var cnt: nat := successCallback;
        cnt := (cnt + 1) % 256;
        successCallback := cnt;
      }
    }

    method CallbackRaw(txHash: nat, success: bool, received: Payment)
      modifies this
      ensures State() == CallbackRawStep(old(State()), txHash, success, received)
    {
      var operation := Get(pending, txHash, OpNone);
      match operation {
        case OpNone => return;
        case IssueOp => PerformEsdtIssueCallback(success, received);
        case MintOp(_) =>
      }
      pending := pending - {txHash};
    }

    method Exchange(caller: Address, payment: Payment) returns (r: Result<()>)
      modifies this
      ensures Commits(r, ExchangeStep(old(State()), caller, payment), old(State()), State())
    {
      var result := Get(tokens.supportedTokens, payment.token, EGLD);
      if result == EGLD {
        return Err("token not supported");
      }
      ledger := ledger.Then([Send(caller, result, 0, payment.amount)]);
      r := Ok(());
    }
  }
}
