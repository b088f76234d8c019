/** The safety module (safety_module/src/lib.rs): depositors fund it in
    WEGLD and receive a deposit token (a semi-fungible token whose nonce
    records the deposit time); a registered liquidity pool may take funds
    from it; a depositor returns deposit tokens and receives the deposit
    plus interest at the configured yearly rate for the time in the pool.

    The block timestamp, the contract's WEGLD balance and what the system
    contract answers to an issue are inputs. The attributes of the deposit
    tokens the module created are kept with its storage, by token and
    nonce. The exchange to and from WEGLD is not implemented in the source
    and changes nothing here either. */
module SafetyModule {
  import opened Common
  import Arith

  const INVALID_TOKEN: string := "invalid token"

  /** The asynchronous calls to the system contract: the issue of the
      deposit token, and a request of local roles on it. */
  datatype SystemCall =
    | IssueSemiFungible(cost: nat, name: string, ticker: string)
    | SetSpecialRoles(token: TokenId, roles: seq<string>)

  /** What the system contract reports back to a callback. */
  datatype IssueResult = Issued(token: TokenId) | IssueFailed(message: string)
  datatype RolesResult = RolesSet | RolesFailed(message: string)

  /** The configuration init writes, next to the owner. */
  datatype Config = Config(owner: Address, wegldToken: TokenId, depositApy: nat)

  /** The module's storage. An unset deposit token reads as EGLD; the
      `deposits` map holds the deposit time of every deposit-token nonce the
      module created. */
  datatype Storage = Storage(
    config: Config,
    pools: map<TokenId, Address>,
    nftToken: TokenId,
    lastErrorMessage: string,
    deposits: map<(TokenId, nat), nat>,
    ledger: Ledger)

  /** calculate_amount_for_withdrawal: the deposit plus its interest, the
      share time * apy / SECONDS_PER_YEAR (in BP) of the deposit. */
  function CalculateAmountForWithdrawal(deposit: nat, time: nat, apy: nat): (r: nat)
    ensures r >= deposit
    ensures time == 0 || apy == 0 ==> r == deposit
  {
    Arith.MulNat(time, apy);
    Arith.DivNat(time * apy, SECONDS_PER_YEAR);
    var percent := time * apy / SECONDS_PER_YEAR;
    Arith.MulNat(percent, deposit);
    Arith.DivNat(percent * deposit, BP);
    deposit + percent * deposit / BP
  }

  /** The payout grows with the time in the pool, the rate and the deposit. */
  lemma WithdrawalIsMonotone(deposit: nat, deposit': nat, time: nat, time': nat, apy: nat, apy': nat)
    requires deposit <= deposit' && time <= time' && apy <= apy'
    ensures CalculateAmountForWithdrawal(deposit, time, apy) <= CalculateAmountForWithdrawal(deposit', time', apy')
  {
    Arith.MulLe2(time, time', apy, apy');
    Arith.DivLe(time * apy, time' * apy', SECONDS_PER_YEAR);
    var p, p' := time * apy / SECONDS_PER_YEAR, time' * apy' / SECONDS_PER_YEAR;
    Arith.MulLe2(p, p', deposit, deposit');
    Arith.DivLe(p * deposit, p' * deposit', BP);
  }

  /** A year in the pool pays the yearly rate: on a deposit of a whole
      number of BP units, exactly apy per unit. */
  lemma OneYearPaysTheRate(units: nat, apy: nat)
    ensures CalculateAmountForWithdrawal(units * BP, SECONDS_PER_YEAR, apy) == units * BP + apy * units
  {
    Arith.MulDivCancel(apy, SECONDS_PER_YEAR);
    assert SECONDS_PER_YEAR * apy / SECONDS_PER_YEAR == apy;
    assert apy * (units * BP) == (apy * units) * BP;
    Arith.MulDivCancel(apy * units, BP);
  }

  /** init: the WEGLD token and the depositors' yearly rate; the deployer
      owns the module, no pool is registered, no deposit token is issued,
      nothing is deposited and nothing has been sent. */
  function InitialStorage(deployer: Address, wegldToken: TokenId, depositApy: nat): (r: Storage)
    ensures r.config == Config(deployer, wegldToken, depositApy)
    ensures r.pools == map[] && r.nftToken == EGLD && r.deposits == map[]
    ensures r.ledger.effects == []
  {
    Storage(Config(deployer, wegldToken, depositApy), map[], EGLD, [], map[], Ledger(map[], []))
  }

  /** addPool: owner only; the pool of a token is registered (replacing an
      earlier one). */
  function AddPoolStep(s: Storage, caller: Address, token: TokenId, address: Address): (r: Result<Storage>)
    ensures r.Ok? <==> caller == s.config.owner
    ensures r.Err? ==> r == Err(ONLY_OWNER)
    ensures r.Ok? ==> r.value.pools == s.pools[token := address] && r.value == s.(pools := r.value.pools)
  {
    if caller != s.config.owner then Err(ONLY_OWNER) else Ok(s.(pools := s.pools[token := address]))
  }

  /** removePool: owner only; the token's pool slot is cleared. */
  function RemovePoolStep(s: Storage, caller: Address, token: TokenId): (r: Result<Storage>)
    ensures r.Ok? <==> caller == s.config.owner
    ensures r.Err? ==> r == Err(ONLY_OWNER)
    ensures r.Ok? ==> r.value.pools == s.pools - {token} && r.value == s.(pools := r.value.pools)
  {
    if caller != s.config.owner then Err(ONLY_OWNER) else Ok(s.(pools := s.pools - {token}))
  }

  /** fund: a positive WEGLD payment creates that many units of a new
      deposit-token nonce stamped with the block time and sends them to the
      account named in the call, or to the caller when none is named. */
  function FundStep(s: Storage, caller: Address, payment: Payment, recipient: Option<Address>, now: nat)
    : (r: Result<Storage>)
    ensures r.Ok? <==> payment.amount > 0 && payment.token == s.config.wegldToken
    ensures payment.amount == 0 ==> r == Err(AMOUNT_ZERO)
    ensures payment.amount > 0 && payment.token != s.config.wegldToken ==> r == Err(INVALID_TOKEN)
    ensures r.Ok? ==>
      var nonce := s.ledger.NextNonce(s.nftToken);
      var to := if recipient.Some? then recipient.value else caller;
      && r.value.deposits == s.deposits[(s.nftToken, nonce) := now]
      && r.value.ledger.effects == s.ledger.effects + [Mint(s.nftToken, nonce, payment.amount),
                                                        Send(to, s.nftToken, nonce, payment.amount)]
      && r.value.ledger.NextNonce(s.nftToken) == nonce + 1
      && r.value.pools == s.pools && r.value.config == s.config && r.value.nftToken == s.nftToken
  {
    if payment.amount == 0 then Err(AMOUNT_ZERO)
    else if payment.token != s.config.wegldToken then Err(INVALID_TOKEN)
    else
      var to := if recipient.Some? then recipient.value else caller;
      var nonce := s.ledger.NextNonce(s.nftToken);
      var ledger := s.ledger.Create(s.nftToken, payment.amount);
      Ok(s.(deposits := s.deposits[(s.nftToken, nonce) := now],
            ledger := ledger.Then([Send(to, s.nftToken, nonce, payment.amount)])))
  }

  /** fundFromPool: a positive payment of any token; the exchange to WEGLD
      it would make is not implemented, so nothing changes. */
  function FundFromPool(payment: Payment): (r: Result<()>)
    ensures r.Ok? <==> payment.amount > 0
    ensures r.Err? ==> r == Err(AMOUNT_ZERO)
  {
    if payment.amount == 0 then Err(AMOUNT_ZERO) else Ok(())
  }

  /** takeFunds: a positive amount, asked by the pool registered for the
      token, is sent to it. */
  function TakeFundsStep(s: Storage, caller: Address, poolToken: TokenId, amount: nat): (r: Result<Storage>)
    ensures r.Ok? <==> amount > 0 && poolToken in s.pools && s.pools[poolToken] == caller
    ensures amount == 0 ==> r == Err(AMOUNT_ZERO)
    ensures amount > 0 && poolToken !in s.pools ==> r == Err("non-existent pool")
    ensures amount > 0 && poolToken in s.pools && s.pools[poolToken] != caller ==> r == Err("invalid caller address")
    ensures r.Ok? ==> r.value == s.(ledger := s.ledger.Then([Send(caller, poolToken, 0, amount)]))
  {
    if amount == 0 then Err(AMOUNT_ZERO)
    else if poolToken !in s.pools then Err("non-existent pool")
    else if caller != s.pools[poolToken] then Err("invalid caller address")
    else Ok(s.(ledger := s.ledger.Then([Send(caller, poolToken, 0, amount)])))
  }

  /** withdraw: a positive payment of deposit tokens, whose attributes
      decode, held for a positive time (a deposit time after the block time
      makes the subtraction abort), and whose payout the WEGLD balance
      covers. The deposit tokens are burnt, the payout is sent to the caller
      and returned. */
  function WithdrawStep(s: Storage, caller: Address, payment: Payment, now: nat, balance: nat)
    : (r: Result<(Storage, nat)>)
    ensures payment.amount == 0 ==> r == Err(AMOUNT_ZERO)
    ensures payment.amount > 0 && payment.token != s.nftToken ==> r == Err(INVALID_TOKEN)
    ensures payment.amount > 0 && payment.token == s.nftToken && (payment.token, payment.nonce) !in s.deposits
         ==> r == Err(DECODE_ERROR)
    ensures r.Ok? <==>
      && payment.amount > 0 && payment.token == s.nftToken && (payment.token, payment.nonce) in s.deposits
      && s.deposits[(payment.token, payment.nonce)] < now
      && CalculateAmountForWithdrawal(payment.amount, now - s.deposits[(payment.token, payment.nonce)],
                                      s.config.depositApy) <= balance
    ensures r.Ok? ==>
      var paid := CalculateAmountForWithdrawal(payment.amount, now - s.deposits[(payment.token, payment.nonce)],
                                               s.config.depositApy);
      && r.value.1 == paid && paid >= payment.amount
      && r.value.0 == s.(ledger := s.ledger.Then([Burn(payment.token, payment.nonce, payment.amount),
                                                  Send(caller, s.config.wegldToken, 0, paid)]))
  {
    if payment.amount == 0 then Err(AMOUNT_ZERO)
    else if payment.token != s.nftToken then Err(INVALID_TOKEN)
    else if (payment.token, payment.nonce) !in s.deposits then Err(DECODE_ERROR)
    else
      var timestamp := s.deposits[(payment.token, payment.nonce)];
      if now < timestamp then Err(ARITHMETIC_PANIC)
      else
        var timeInPool := now - timestamp;
        if timeInPool == 0 then Err("invalid timestamp")
        else
          var paid := CalculateAmountForWithdrawal(payment.amount, timeInPool, s.config.depositApy);
          if paid > balance then Err("the amount withdrawn is too high")
          else
            Ok((s.(ledger := s.ledger.Then([Burn(payment.token, payment.nonce, payment.amount),
                                            Send(caller, s.config.wegldToken, 0, paid)])), paid))
  }

  /** nftIssue: owner only, paying exactly the issue cost. */
  function NftIssue(s: Storage, caller: Address, cost: nat, name: string, ticker: string): (r: Result<SystemCall>)
    ensures r.Ok? <==> caller == s.config.owner && cost == ESDT_ISSUE_COST
    ensures caller == s.config.owner && cost != ESDT_ISSUE_COST ==> r == Err("wrong ESDT asset identifier")
    ensures r.Ok? ==> r.value == IssueSemiFungible(cost, name, ticker)
  {
    if caller != s.config.owner then Err(ONLY_OWNER)
    else if cost != ESDT_ISSUE_COST then Err("wrong ESDT asset identifier")
    else Ok(IssueSemiFungible(cost, name, ticker))
  }

  /** nft_issue_callback: a success stores the deposit token and clears the
      last error; a failure keeps the message and returns an EGLD payment
      that came back to the account that asked for the issue. */
  function NftIssueCallbackStep(s: Storage, caller: Address, result: IssueResult, returned: Payment): (r: Storage)
    ensures r.config == s.config && r.pools == s.pools && r.deposits == s.deposits
    ensures result.Issued? ==> r == s.(nftToken := result.token, lastErrorMessage := [])
    ensures result.IssueFailed? ==>
      && r.nftToken == s.nftToken && r.lastErrorMessage == result.message
      && r.ledger.effects == s.ledger.effects
           + (if returned.token == EGLD && returned.amount > 0 then [Send(caller, EGLD, 0, returned.amount)] else [])
  {
    match result
    case Issued(token) => s.(nftToken := token, lastErrorMessage := [])
    case IssueFailed(message) =>
      var refund := if returned.token == EGLD && returned.amount > 0 then [Send(caller, EGLD, 0, returned.amount)] else [];
      s.(ledger := s.ledger.Then(refund), lastErrorMessage := message)
  }

  /** setLocalRolesNftToken: owner only, once the deposit token is issued;
      the roles given are asked for that token. */
  function SetLocalRolesNftToken(s: Storage, caller: Address, roles: seq<string>): (r: Result<SystemCall>)
    ensures r.Ok? <==> caller == s.config.owner && s.nftToken != EGLD
    ensures caller == s.config.owner && s.nftToken == EGLD ==> r == Err("No nft token issued")
    ensures r.Ok? ==> r.value == SetSpecialRoles(s.nftToken, roles)
  {
    if caller != s.config.owner then Err(ONLY_OWNER)
    else if s.nftToken == EGLD then Err("No nft token issued")
    else Ok(SetSpecialRoles(s.nftToken, roles))
  }

  /** change_roles_callback: clears or keeps the last error. */
  function ChangeRolesCallbackStep(s: Storage, result: RolesResult): (r: Storage)
    ensures r == s.(lastErrorMessage := if result.RolesSet? then [] else result.message)
  {
    match result
    case RolesSet => s.(lastErrorMessage := [])
    case RolesFailed(message) => s.(lastErrorMessage := message)
  }

  /** A deposit made at one time and returned whole later pays back the
      deposit with interest for the time between, as long as the balance
      covers it; one returned in the same second is refused. */
  lemma {:induction false} FundThenWithdraw(s: Storage, caller: Address, amount: nat, t0: nat, t1: nat, balance: nat)
    requires amount > 0 && t0 <= t1
    ensures var s1 := FundStep(s, caller, Payment(s.config.wegldToken, 0, amount), None, t0);
      var token := Payment(s.nftToken, s.ledger.NextNonce(s.nftToken), amount);
      var paid := CalculateAmountForWithdrawal(amount, t1 - t0, s.config.depositApy);
      && s1.Ok?
      && (t0 < t1 && paid <= balance ==>
            WithdrawStep(s1.value, caller, token, t1, balance).Ok?
            && WithdrawStep(s1.value, caller, token, t1, balance).value.1 == paid)
      && (t0 == t1 ==> WithdrawStep(s1.value, caller, token, t1, balance) == Err("invalid timestamp"))
  {
    var s1 := FundStep(s, caller, Payment(s.config.wegldToken, 0, amount), None, t0).value;
    var key := (s.nftToken, s.ledger.NextNonce(s.nftToken));
    assert key in s1.deposits && s1.deposits[key] == t0;
  }

  /** takeFunds is open exactly to the pool registered last, and closed
      again once the pool is removed. */
  lemma {:induction false} OnlyRegisteredPoolTakesFunds(s: Storage, token: TokenId, pool: Address, caller: Address, amount: nat)
    requires amount > 0
    ensures var s1 := AddPoolStep(s, s.config.owner, token, pool).value;
      && (TakeFundsStep(s1, caller, token, amount).Ok? <==> caller == pool)
      && TakeFundsStep(RemovePoolStep(s1, s.config.owner, token).value, caller, token, amount) == Err("non-existent pool")
  {
    var s1 := AddPoolStep(s, s.config.owner, token, pool).value;
    assert token in s1.pools && s1.pools[token] == pool;
    assert token !in RemovePoolStep(s1, s.config.owner, token).value.pools;
  }

  class Module {
    var config: Config
    var pools: map<TokenId, Address>
    var nftToken: TokenId
    var lastErrorMessage: string
    var deposits: map<(TokenId, nat), nat>
    var ledger: Ledger

    function State(): Storage
      reads this
    {
      Storage(config, pools, nftToken, lastErrorMessage, deposits, ledger)
    }

    /** init. */
    constructor Init(deployer: Address, wegldToken: TokenId, depositApy: nat)
      ensures State() == InitialStorage(deployer, wegldToken, depositApy)
    {
      config := Config(deployer, wegldToken, depositApy);
      pools, nftToken, lastErrorMessage, deposits, ledger := map[], EGLD, [], map[], Ledger(map[], []);
    }

    method AddPool(caller: Address, token: TokenId, address: Address) returns (r: Result<()>)
      modifies this
      ensures Commits(r, AddPoolStep(old(State()), caller, token, address), old(State()), State())
    {
      if caller != config.owner {
        return Err(ONLY_OWNER);
      }
      pools := pools[token := address];
      r := Ok(());
    }

    method RemovePool(caller: Address, token: TokenId) returns (r: Result<()>)
      modifies this
      ensures Commits(r, RemovePoolStep(old(State()), caller, token), old(State()), State())
    {
      if caller != config.owner {
        return Err(ONLY_OWNER);
      }
      pools := pools - {token};
      r := Ok(());
    }

    method Fund(caller: Address, payment: Payment, recipient: Option<Address>, now: nat) returns (r: Result<()>)
      modifies this
      ensures Commits(r, FundStep(old(State()), caller, payment, recipient, now), old(State()), State())
    {
      if payment.amount == 0 {
        return Err(AMOUNT_ZERO);
      }
      if payment.token != config.wegldToken {
        return Err(INVALID_TOKEN);
      }
      var to := if recipient.Some? then recipient.value else caller;
      var nonce := ledger.NextNonce(nftToken);
      deposits := deposits[(nftToken, nonce) := now];
      ledger := ledger.Create(nftToken, payment.amount);
      ledger := ledger.Then([Send(to, nftToken, nonce, payment.amount)]);
      r := Ok(());
    }

    method TakeFunds(caller: Address, poolToken: TokenId, amount: nat) returns (r: Result<()>)
      modifies this
      ensures Commits(r, TakeFundsStep(old(State()), caller, poolToken, amount), old(State()), State())
    {
      if amount == 0 {
        return Err(AMOUNT_ZERO);
      }
      if poolToken !in pools {
        return Err("non-existent pool");
      }
      if caller != pools[poolToken] {
        return Err("invalid caller address");
      }
      ledger := ledger.Then([Send(caller, poolToken, 0, amount)]);
      r := Ok(());
    }

    method Withdraw(caller: Address, payment: Payment, now: nat, balance: nat) returns (r: Result<nat>)
      modifies this
      ensures CommitsWith(r, WithdrawStep(old(State()), caller, payment, now, balance), old(State()), State())
    {
      if payment.amount == 0 {
        return Err(AMOUNT_ZERO);
      }
      if payment.token != nftToken {
        return Err(INVALID_TOKEN);
      }
      if (payment.token, payment.nonce) !in deposits {
        return Err(DECODE_ERROR);
      }
      var timestamp := deposits[(payment.token, payment.nonce)];
      if now < timestamp {
        return Err(ARITHMETIC_PANIC);
      }
      var timeInPool := now - timestamp;
      if timeInPool == 0 {
        return Err("invalid timestamp");
      }
      var paid := CalculateAmountForWithdrawal(payment.amount, timeInPool, config.depositApy);
      if paid > balance {
        return Err("the amount withdrawn is too high");
      }
      ledger := ledger.Then([Burn(payment.token, payment.nonce, payment.amount)]);
      ledger := ledger.Then([Send(caller, config.wegldToken, 0, paid)]);
      r := Ok(paid);
    }

    method NftIssueCallback(caller: Address, result: IssueResult, returned: Payment)
      modifies this
      ensures State() == NftIssueCallbackStep(old(State()), caller, result, returned)
    {
      match result {
        case Issued(token) =>
          nftToken := token;
          lastErrorMessage := [];
        case IssueFailed(message) =>
          if returned.token == EGLD && returned.amount > 0 {
            ledger := ledger.Then([Send(caller, EGLD, 0, returned.amount)]);
          }
          lastErrorMessage := message;
      }
    }

    method ChangeRolesCallback(result: RolesResult)
      modifies this
      ensures State() == ChangeRolesCallbackStep(old(State()), result)
    {
      match result {
        case RolesSet => lastErrorMessage := [];
        case RolesFailed(message) => lastErrorMessage := message;
      }
    }
  }
}
