/** Definitions shared by every contract of the lending protocol: the base
    precision, the protocol constants, token identifiers and addresses, and
    the Option/Result wrappers used for the contracts' error paths. */
module Common {

  /** Base precision: 1 = BP in every percentage, rate and index. */
  const BP: nat := 1_000_000_000

  /** Seconds in a 365-day year, used by the safety module. */
  const SECONDS_PER_YEAR: nat := 31_536_000

  /** Cost of an ESDT issue, 5 EGLD in its smallest unit (10^18 per EGLD). */
  const ESDT_ISSUE_COST: nat := 5_000_000_000_000_000_000

  const LEND_TOKEN_PREFIX: string := "L"
  const BORROW_TOKEN_PREFIX: string := "B"
  const LEND_TOKEN_NAME: string := "IntBearing"
  const DEBT_TOKEN_NAME: string := "DebtBearing"

  /** The identifier of the native token. Reading a token-identifier storage
      slot that was never written yields this value. */
  const EGLD: string := "EGLD"

  type TokenId = string

  /** The source's u8 (token decimals, counters). */
  type Uint8 = x: nat | x < 256

  /** A 32-byte account address; 0 stands for the all-zero address. */
  type Address = nat
  const ZERO_ADDRESS: Address := 0

  datatype Option<T> = None | Some(value: T)

  /** The outcome of an endpoint: a value, or the message the contract
      aborted with (an abort reverts every storage change). */
  datatype Result<T> = Ok(value: T) | Err(msg: string)

  /** The message of an abort the VM raises itself: a division by zero or a
      BigUint subtraction that would go below zero. */
  const ARITHMETIC_PANIC: string := "arithmetic panic"

  /** Framework-raised aborts: a non-owner calling an owner-only endpoint,
      and token attributes that do not decode. */
  const ONLY_OWNER: string := "Endpoint can only be called by owner"
  const DECODE_ERROR: string := "decode error"

  /** The two shared guards: a positive amount and a non-zero address. */
  const AMOUNT_ZERO: string := "amount must be greater than 0"
  const ADDRESS_ZERO: string := "address is zero"

  /** The parameters of a pool's borrow-rate curve and its reserve factor
      (the share of interest kept for the safety module), all in BP. */
  datatype PoolParams = PoolParams(rBase: nat, rSlope1: nat, rSlope2: nat, uOptimal: nat, reserveFactor: nat)

  /** One token transfer received with a call: token, nonce (0 for a
      fungible token) and amount. */
  datatype Payment = Payment(token: TokenId, nonce: nat, amount: nat)

  /** What the contract asks the VM to do: send tokens, create (mint) a new
      nonce of a position token, burn tokens, or call an endpoint of another
      contract with one token identifier as argument. */
  datatype Effect =
    | Send(to: Address, token: TokenId, nonce: nat, amount: nat)
    | Mint(token: TokenId, nonce: nat, amount: nat)
    | Burn(token: TokenId, nonce: nat, amount: nat)
    | Call(to: Address, endpoint: string, arg: TokenId)

  /** The VM's side of the token operations a contract asks for: the last
      nonce handed out per position token, and the effects in order. */
  datatype Ledger = Ledger(lastNonce: map<TokenId, nat>, effects: seq<Effect>) {
    /** The nonce the next position token created for t receives. */
    function NextNonce(t: TokenId): nat {
      Get(lastNonce, t, 0) + 1
    }

    /** esdt_nft_create: amount units of t under the next nonce. */
    function Create(t: TokenId, amount: nat): (l: Ledger)
      ensures l.lastNonce == lastNonce[t := NextNonce(t)]
      ensures l.effects == effects + [Mint(t, NextNonce(t), amount)]
      ensures l.NextNonce(t) == NextNonce(t) + 1
    {
      Ledger(lastNonce[t := NextNonce(t)], effects + [Mint(t, NextNonce(t), amount)])
    }

    function Then(e: seq<Effect>): Ledger {
      this.(effects := effects + e)
    }
  }

  /** keccak256 of the bytes a position id is made of, as a symbolic value:
      the big-endian debt nonce, or a borrow token, an amount and a nonce.
      Distinct inputs give distinct hashes (collision freedom). */
  datatype Hash =
    | DebtHash(nonce: nat)
    | RepayHash(token: TokenId, amount: nat, nonce: nat)

  /** An oracle answer: a price and the number of decimals it is quoted in. */
  datatype PriceData = PriceData(price: nat, decimals: Uint8)

  /** An endpoint call on storage `before` returned `r` and left storage
      `after` exactly as its specification `step` says: the new storage on
      success, the abort message and the old storage otherwise. */
  predicate Commits<S(==)>(r: Result<()>, step: Result<S>, before: S, after: S) {
    match step
    case Ok(s) => r == Ok(()) && after == s
    case Err(m) => r == Err(m) && after == before
  }

  /** As Commits, for an endpoint that also returns a value. */
  predicate CommitsWith<S(==), T(==)>(r: Result<T>, step: Result<(S, T)>, before: S, after: S) {
    match step
    case Ok(p) => r == Ok(p.1) && after == p.0
    case Err(m) => r == Err(m) && after == before
  }

  /** A map read that falls back to the default of a storage slot never written. */
  function Get<K, V>(m: map<K, V>, k: K, default: V): V {
    if k in m then m[k] else default
  }

  function Pow10(n: nat): (r: nat)
    ensures r >= 1
  {
    if n == 0 then 1 else 10 * Pow10(n - 1)
  }

  /** A token other than the native EGLD. */
  predicate IsEsdt(t: TokenId) {
    t != EGLD
  }

  predicate IsUpperAlnum(c: char) {
    ('A' <= c <= 'Z') || ('0' <= c <= '9')
  }

  predicate IsLowerHex(c: char) {
    ('a' <= c <= 'f') || ('0' <= c <= '9')
  }

  /** An ESDT identifier: a ticker of 3 to 10 upper-case letters or digits,
      a dash, and 6 random lower-case hexadecimal characters. */
  predicate IsValidEsdtIdentifier(t: TokenId) {
    && 10 <= |t| <= 17
    && t[|t| - 7] == '-'
    && (forall i :: 0 <= i < |t| - 7 ==> IsUpperAlnum(t[i]))
    && (forall i :: |t| - 6 <= i < |t| ==> IsLowerHex(t[i]))
  }
}
