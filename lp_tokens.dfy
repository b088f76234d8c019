/** The token module of the liquidity pool (liquidity_pool/src/tokens.rs):
    the issue of the lend and borrow position tokens, the callback that
    stores the identifier the system contract hands back, and the requests
    for the local roles a position token needs. The two position-token slots
    are the only storage the module writes; issue and the role requests only
    build the asynchronous call they return. Minting a position token
    (mint_position_tokens) is Liquidity.Pool.MintPositionTokens. */
module LpTokens {
  import opened Common
  import LpModels
  import LpUtils

  /** The one-byte prefixes issue accepts. */
  const LEND_PREFIX: char := 'L'
  const BORROW_PREFIX: char := 'B'

  const SET_TOKEN_ID_ENDPOINT: string := "setTokenIdAfterIssue"

  datatype Role = NftCreate | NftAddQuantity | NftBurn

  /** The roles every position token is given, in order. */
  const REQUIRED_LOCAL_ROLES: seq<Role> := [NftCreate, NftAddQuantity, NftBurn]

  /** The asynchronous calls to the system contract: a semi-fungible issue
      (paying cost, with the prefix passed on to the callback), or a request
      of roles on a token for this contract. */
  datatype SystemCall =
    | IssueSemiFungible(cost: nat, name: string, ticker: TokenId, prefix: char)
    | SetSpecialRoles(token: TokenId, roles: seq<Role>)

  /** What the system contract reports back to issue_callback. */
  datatype IssueResult = Issued(token: TokenId) | IssueFailed

  /** The slots the module reads and writes: the owner (the lending pool
      that deployed the pool), the pool asset, and the two position tokens
      (None while a slot is empty). */
  datatype Storage = Storage(
    owner: Address,
    poolAsset: TokenId,
    lendToken: Option<TokenId>,
    borrowToken: Option<TokenId>,
    ledger: Ledger)

  /** prepare_issue_data on a one-byte prefix and the current slots. */
  function IssueData(s: Storage, prefix: char, tokenTicker: string): LpModels.IssueData {
    LpUtils.PrepareIssueData([prefix], tokenTicker, s.lendToken.None?, s.borrowToken.None?)
  }

  /** The slot a prefix fills. */
  function Slot(s: Storage, prefix: char): Option<TokenId> {
    if prefix == LEND_PREFIX then s.lendToken else s.borrowToken
  }

  /** issue: owner only, for the pool asset, with a known prefix whose slot
      is still empty; the whole EGLD payment pays for the issue. */
  function IssueStep(s: Storage, caller: Address, cost: nat, poolAssetId: TokenId, prefix: char, tokenTicker: string)
    : (r: Result<SystemCall>)
    ensures r.Ok? <==>
      && caller == s.owner && poolAssetId == s.poolAsset
      && (prefix == LEND_PREFIX || prefix == BORROW_PREFIX) && Slot(s, prefix).None?
    ensures caller == s.owner && poolAssetId != s.poolAsset ==> r == Err("wrong ESDT asset identifier")
    ensures caller == s.owner && poolAssetId == s.poolAsset && prefix != LEND_PREFIX && prefix != BORROW_PREFIX
         ==> r == Err("invalid input. could not prepare issue data")
    ensures r.Ok? ==> r.value == IssueSemiFungible(cost, IssueData(s, prefix, tokenTicker).name, [prefix] + tokenTicker, prefix)
    ensures r.Ok? && prefix == LEND_PREFIX ==> r.value.name == LEND_TOKEN_NAME + tokenTicker
    ensures r.Ok? && prefix == BORROW_PREFIX ==> r.value.name == DEBT_TOKEN_NAME + tokenTicker
  {
    if caller != s.owner then Err(ONLY_OWNER)
    else if poolAssetId != s.poolAsset then Err("wrong ESDT asset identifier")
    else
      var data := IssueData(s, prefix, tokenTicker);
      LpUtils.IssueDataDeterminesKind([prefix], tokenTicker, s.lendToken.None?, s.borrowToken.None?);
      if data.name == [] then Err("invalid input. could not prepare issue data")
      else if !data.isEmptyTicker then Err("token already issued for this identifier")
      else Ok(IssueSemiFungible(cost, data.name, data.ticker, prefix))
  }

  /** issue_callback: a success stores the new token in the slot its prefix
      names and tells the owner (setTokenIdAfterIssue); an unknown prefix
      returns at once. A failure changes no slot and returns an EGLD payment
      that came back to the owner. */
  function IssueCallbackStep(s: Storage, prefix: char, result: IssueResult, returned: Payment): (r: Storage)
    ensures r.owner == s.owner && r.poolAsset == s.poolAsset
    ensures result.Issued? && prefix == LEND_PREFIX ==>
      r == s.(lendToken := Some(result.token),
              ledger := s.ledger.Then([Call(s.owner, SET_TOKEN_ID_ENDPOINT, result.token)]))
    ensures result.Issued? && prefix == BORROW_PREFIX ==>
      r == s.(borrowToken := Some(result.token),
              ledger := s.ledger.Then([Call(s.owner, SET_TOKEN_ID_ENDPOINT, result.token)]))
    ensures result.Issued? && prefix != LEND_PREFIX && prefix != BORROW_PREFIX ==> r == s
    ensures result.IssueFailed? ==>
      && r.lendToken == s.lendToken && r.borrowToken == s.borrowToken
      && r.ledger.effects == s.ledger.effects
           + (if returned.token == EGLD && returned.amount > 0 then [Send(s.owner, EGLD, 0, returned.amount)] else [])
  {
    match result
    case Issued(token) =>
      if prefix == LEND_PREFIX then
        s.(lendToken := Some(token), ledger := s.ledger.Then([Call(s.owner, SET_TOKEN_ID_ENDPOINT, token)]))
      else if prefix == BORROW_PREFIX then
        s.(borrowToken := Some(token), ledger := s.ledger.Then([Call(s.owner, SET_TOKEN_ID_ENDPOINT, token)]))
      else s
    case IssueFailed =>
      if returned.token == EGLD && returned.amount > 0
      then s.(ledger := s.ledger.Then([Send(s.owner, EGLD, 0, returned.amount)]))
      else s
  }

  /** set_roles on the token a slot holds: owner only, and only once the
      token is issued. */
  function SetRolesStep(s: Storage, caller: Address, slot: Option<TokenId>): (r: Result<SystemCall>)
    ensures r.Ok? <==> caller == s.owner && slot.Some?
    ensures caller == s.owner && slot.None? ==> r == Err("token not issued yet")
    ensures r.Ok? ==> r.value == SetSpecialRoles(slot.value, REQUIRED_LOCAL_ROLES)
  {
    if caller != s.owner then Err(ONLY_OWNER)
    else if slot.None? then Err("token not issued yet")
    else Ok(SetSpecialRoles(slot.value, REQUIRED_LOCAL_ROLES))
  }

  /** set_lend_token_roles. */
  function SetLendTokenRoles(s: Storage, caller: Address): (r: Result<SystemCall>)
    ensures r.Ok? <==> caller == s.owner && s.lendToken.Some?
    ensures r.Ok? ==> r.value == SetSpecialRoles(s.lendToken.value, REQUIRED_LOCAL_ROLES)
  {
    SetRolesStep(s, caller, s.lendToken)
  }

  /** set_borrow_token_roles. */
  function SetBorrowTokenRoles(s: Storage, caller: Address): (r: Result<SystemCall>)
    ensures r.Ok? <==> caller == s.owner && s.borrowToken.Some?
    ensures r.Ok? ==> r.value == SetSpecialRoles(s.borrowToken.value, REQUIRED_LOCAL_ROLES)
  {
    SetRolesStep(s, caller, s.borrowToken)
  }

  /** An issue and its successful callback fill the slot the prefix names,
      after which the same issue is refused and roles can be requested for
      the new token; the other slot is untouched. */
  lemma {:induction false} IssueThenCallback(s: Storage, caller: Address, cost: nat, prefix: char, tokenTicker: string,
                                             token: TokenId, returned: Payment)
    requires IssueStep(s, caller, cost, s.poolAsset, prefix, tokenTicker).Ok?
    ensures var s' := IssueCallbackStep(s, prefix, Issued(token), returned);
      && Slot(s', prefix) == Some(token)
      && (prefix == LEND_PREFIX ==> s'.borrowToken == s.borrowToken)
      && (prefix == BORROW_PREFIX ==> s'.lendToken == s.lendToken)
      && IssueStep(s', caller, cost, s.poolAsset, prefix, tokenTicker) == Err("token already issued for this identifier")
      && (prefix == LEND_PREFIX ==> SetLendTokenRoles(s', caller) == Ok(SetSpecialRoles(token, REQUIRED_LOCAL_ROLES)))
      && (prefix == BORROW_PREFIX ==> SetBorrowTokenRoles(s', caller) == Ok(SetSpecialRoles(token, REQUIRED_LOCAL_ROLES)))
  {
    var s' := IssueCallbackStep(s, prefix, Issued(token), returned);
    assert prefix == LEND_PREFIX || prefix == BORROW_PREFIX;
    LpUtils.IssueDataDeterminesKind([prefix], tokenTicker, s'.lendToken.None?, s'.borrowToken.None?);
  }

  /** A failed issue leaves both slots empty or as they were, so the same
      issue may be tried again. */
  lemma FailedIssueMayBeRetried(s: Storage, caller: Address, cost: nat, prefix: char, tokenTicker: string, returned: Payment)
    requires IssueStep(s, caller, cost, s.poolAsset, prefix, tokenTicker).Ok?
    ensures var s' := IssueCallbackStep(s, prefix, IssueFailed, returned);
      IssueStep(s', caller, cost, s.poolAsset, prefix, tokenTicker) == IssueStep(s, caller, cost, s.poolAsset, prefix, tokenTicker)
  {
  }

  /** The module's storage. */
  class Tokens {
    var owner: Address
    var poolAsset: TokenId
    var lendToken: Option<TokenId>
    var borrowToken: Option<TokenId>
    var ledger: Ledger

    function State(): Storage
      reads this
    {
      Storage(owner, poolAsset, lendToken, borrowToken, ledger)
    }

    constructor (s: Storage)
      ensures State() == s
    {
      owner, poolAsset, lendToken, borrowToken, ledger := s.owner, s.poolAsset, s.lendToken, s.borrowToken, s.ledger;
    }

    /** send_callback_result: the owner is told the new token. */
    method SendCallbackResult(token: TokenId)
      modifies this
      ensures State() == old(State()).(ledger := old(ledger).Then([Call(owner, SET_TOKEN_ID_ENDPOINT, token)]))
    {
      ledger := ledger.Then([Call(owner, SET_TOKEN_ID_ENDPOINT, token)]);
    }

    method IssueCallback(prefix: char, result: IssueResult, returned: Payment)
      modifies this
      ensures State() == IssueCallbackStep(old(State()), prefix, result, returned)
    {
      match result {
        case Issued(token) =>
          if prefix == LEND_PREFIX {
            lendToken := Some(token);
          } else if prefix == BORROW_PREFIX {
            borrowToken := Some(token);
          } else {
            return;
          }
          SendCallbackResult(token);
        case IssueFailed =>
          var caller := owner;
          if returned.token == EGLD && returned.amount > 0 {
            ledger := ledger.Then([Send(caller, EGLD, 0, returned.amount)]);
          }
      }
    }
  }
}
