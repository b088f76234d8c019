/** The account helpers of the lending pool (lending_pool/src/utils.rs): the
    ticker of a token identifier, the price of a token in dollars, taking an
    account's position in one token out of the position set, the dollar
    value of an account's positions, and paying a liquidator in the
    liquidated account's collateral.

    The position sets are the contract's unordered sets, modelled as the
    sequence of their elements in storage order: removing an element moves
    the last one into its place, inserting appends an element not yet
    present. The price oracle is a map from a ticker pair to its answer. */
module LendingUtils {
  import opened Common
  import Arith

  /** A dash and six random characters end every ESDT identifier. */
  const TOKEN_ID_SUFFIX_LEN: nat := 7
  const DOLLAR_TICKER: string := "USD"

  /** A deposit or borrow position: the token, the amount, the account
      (the nonce of its account token), the block round it was opened in
      and the interest index it was opened at. */
  datatype Position = Position(tokenId: TokenId, amount: nat, ownerNonce: nat, round: nat, initialIndex: nat)

  /** The aggregator's answers, by (from, to) ticker pair. */
  type Oracle = map<(string, string), PriceData>

  // ------------------------------------------------------------ tickers

  /** get_token_ticker: the identifier without its last seven bytes; a
      shorter identifier aborts. */
  function GetTokenTicker(tokenId: TokenId): (r: Result<string>)
    ensures r.Ok? <==> |tokenId| >= TOKEN_ID_SUFFIX_LEN
    ensures r.Ok? ==> |r.value| == |tokenId| - TOKEN_ID_SUFFIX_LEN
                      && r.value + tokenId[|tokenId| - TOKEN_ID_SUFFIX_LEN..] == tokenId
  {
    if |tokenId| < TOKEN_ID_SUFFIX_LEN then Err("failed to get token ticker")
    else Ok(tokenId[..|tokenId| - TOKEN_ID_SUFFIX_LEN])
  }

  /** On a valid ESDT identifier the ticker is the part before the dash:
      3 to 10 upper-case letters or digits. */
  lemma TickerOfValidIdentifier(tokenId: TokenId)
    requires IsValidEsdtIdentifier(tokenId)
    ensures GetTokenTicker(tokenId).Ok?
    ensures var t := GetTokenTicker(tokenId).value;
      && 3 <= |t| <= 10
      && (forall i :: 0 <= i < |t| ==> IsUpperAlnum(t[i]))
      && tokenId == t + "-" + tokenId[|t| + 1..]
  {
    var t := GetTokenTicker(tokenId).value;
    assert tokenId == t + "-" + tokenId[|t| + 1..] by {
      assert tokenId == t + tokenId[|t|..];
      assert tokenId[|t|..] == "-" + tokenId[|t| + 1..];
    }
  }

  /** get_token_price_data: the oracle's answer for the token's ticker in
      dollars; a missing answer aborts. */
  function GetTokenPriceData(oracle: Oracle, tokenId: TokenId): (r: Result<PriceData>)
    ensures r.Ok? <==> GetTokenTicker(tokenId).Ok? && (GetTokenTicker(tokenId).value, DOLLAR_TICKER) in oracle
    ensures r.Ok? ==> r.value == oracle[(GetTokenTicker(tokenId).value, DOLLAR_TICKER)]
  {
    match GetTokenTicker(tokenId)
    case Err(m) => Err(m)
    case Ok(ticker) =>
      if (ticker, DOLLAR_TICKER) in oracle then Ok(oracle[(ticker, DOLLAR_TICKER)]) else Err("failed to get token price")
  }

  // ------------------------------------------------------ position sets

  /** A position of the account, in the token when one is given. */
  predicate Matches(p: Position, owner: nat, token: Option<TokenId>) {
    p.ownerNonce == owner && (token.None? || p.tokenId == token.value)
  }

  /** A set holds each element once. */
  predicate NoDup(ps: seq<Position>) {
    forall i, j :: 0 <= i < j < |ps| ==> ps[i] != ps[j]
  }

  /** The index of the first position of the account in the token. */
  function FindFirst(ps: seq<Position>, owner: nat, token: TokenId): (r: Option<nat>)
    ensures r.Some? ==> r.value < |ps| && Matches(ps[r.value], owner, Some(token))
    ensures r.Some? ==> forall j :: 0 <= j < r.value ==> !Matches(ps[j], owner, Some(token))
    ensures r.None? ==> forall j :: 0 <= j < |ps| ==> !Matches(ps[j], owner, Some(token))
    decreases |ps|
  {
    if |ps| == 0 then None
    else if Matches(ps[0], owner, Some(token)) then Some(0)
    else
      match FindFirst(ps[1..], owner, token)
      case None => None
      case Some(i) => Some(i + 1)
  }

  /** swap_remove at an index: the last element takes the removed one's place. */
  function SwapRemoveAt(ps: seq<Position>, i: nat): (r: seq<Position>)
    requires i < |ps|
    ensures |r| == |ps| - 1
    ensures multiset(r) == multiset(ps) - multiset{ps[i]}
    ensures forall j :: 0 <= j < |r| && j != i ==> r[j] == ps[j]
    ensures i < |r| ==> r[i] == ps[|ps| - 1]
  {
    if i == |ps| - 1 then
      DropLastMultiset(ps);
      ps[..i]
    else
      SwapInLastMultiset(ps, i);
      ps[..i] + [ps[|ps| - 1]] + ps[i + 1..|ps| - 1]
  }

  lemma DropLastMultiset(ps: seq<Position>)
    requires |ps| > 0
    ensures multiset(ps[..|ps| - 1]) == multiset(ps) - multiset{ps[|ps| - 1]}
  {
    assert ps == ps[..|ps| - 1] + [ps[|ps| - 1]];
  }

  lemma SwapInLastMultiset(ps: seq<Position>, i: nat)
    requires i < |ps| - 1
    ensures multiset(ps[..i] + [ps[|ps| - 1]] + ps[i + 1..|ps| - 1]) == multiset(ps) - multiset{ps[i]}
  {
    var a, b, last := ps[..i], ps[i + 1..|ps| - 1], ps[|ps| - 1];
    assert ps == a + [ps[i]] + b + [last];
    assert multiset(ps) == multiset(a) + multiset{ps[i]} + multiset(b) + multiset{last};
    assert multiset(a + [last] + b) == multiset(a) + multiset{last} + multiset(b);
  }

  /** The index of an element. */
  function IndexOf(ps: seq<Position>, x: Position): (r: Option<nat>)
    ensures r.Some? ==> r.value < |ps| && ps[r.value] == x
    ensures r.None? <==> x !in ps
    decreases |ps|
  {
    if |ps| == 0 then None
    else if ps[0] == x then Some(0)
    else
      match IndexOf(ps[1..], x)
      case None => None
      case Some(i) => Some(i + 1)
  }

  /** swap_remove at an index keeps every other element, and on a set
      drops the removed one entirely. */
  lemma SwapRemoveMembers(ps: seq<Position>, i: nat)
    requires i < |ps|
    ensures var r := SwapRemoveAt(ps, i);
      && (forall y :: y != ps[i] ==> (y in r <==> y in ps))
      && (NoDup(ps) ==> NoDup(r) && ps[i] !in r)
  {
    SwapRemoveKeepsOthers(ps, i);
    if NoDup(ps) {
      SwapRemoveKeepsNoDup(ps, i);
    }
  }

  lemma SwapRemoveKeepsOthers(ps: seq<Position>, i: nat)
    requires i < |ps|
    ensures forall y :: y != ps[i] ==> (y in SwapRemoveAt(ps, i) <==> y in ps)
  {
    var r := SwapRemoveAt(ps, i);
    forall y | y != ps[i]
      ensures y in r <==> y in ps
    {
      assert y in r <==> y in multiset(r);
      assert y in ps <==> y in multiset(ps);
    }
  }

  lemma SwapRemoveKeepsNoDup(ps: seq<Position>, i: nat)
    requires i < |ps| && NoDup(ps)
    ensures NoDup(SwapRemoveAt(ps, i)) && ps[i] !in SwapRemoveAt(ps, i)
  {
    var r := SwapRemoveAt(ps, i);
    forall k | 0 <= k < |r|
      ensures r[k] != ps[i]
    {
      var k' := if k == i then |ps| - 1 else k;
      assert r[k] == ps[k'] && k' != i;
    }
    forall a, b | 0 <= a < b < |r|
      ensures r[a] != r[b]
    {
      var a' := if a == i then |ps| - 1 else a;
      var b' := if b == i then |ps| - 1 else b;
      assert r[a] == ps[a'] && r[b] == ps[b'];
    }
  }

  /** swap_remove of an element; nothing happens when it is absent. */
  function Remove(ps: seq<Position>, x: Position): (r: seq<Position>)
    ensures forall y :: y != x ==> (y in r <==> y in ps)
    ensures NoDup(ps) ==> NoDup(r) && x !in r
    ensures |r| <= |ps|
    ensures x in ps ==> |r| == |ps| - 1
  {
    match IndexOf(ps, x)
    case None => ps
    case Some(i) => SwapRemoveMembers(ps, i); SwapRemoveAt(ps, i)
  }

  /** insert into a set: appended when not yet present. */
  function Insert(ps: seq<Position>, x: Position): (r: seq<Position>)
    ensures forall y :: y in r <==> y in ps || y == x
    ensures NoDup(ps) ==> NoDup(r)
    ensures |r| <= |ps| + 1
  {
    if x in ps then ps else ps + [x]
  }

  // -------------------------------------------------------- dollar sums

  /** The dollar value of the positions matching owner (and token), summed
      in storage order; the first matching position without a price
      aborts. */
  function ValueOf(ps: seq<Position>, owner: nat, token: Option<TokenId>, oracle: Oracle): (r: Result<nat>)
    decreases |ps|
  {
    if |ps| == 0 then Ok(0)
    else
      var last := ps[|ps| - 1];
      match ValueOf(ps[..|ps| - 1], owner, token, oracle)
      case Err(m) => Err(m)
      case Ok(acc) =>
        if !Matches(last, owner, token) then Ok(acc)
        else
          match GetTokenPriceData(oracle, last.tokenId)
          case Err(m) => Err(m)
          case Ok(data) => Arith.MulNat(last.amount, data.price); Ok(acc + last.amount * data.price)
  }

  /** An abort in a prefix is the abort of the whole sum. */
  lemma {:induction false} ValueOfErrPropagates(ps: seq<Position>, k: nat, owner: nat, token: Option<TokenId>, oracle: Oracle)
    requires k <= |ps| && ValueOf(ps[..k], owner, token, oracle).Err?
    ensures ValueOf(ps, owner, token, oracle) == ValueOf(ps[..k], owner, token, oracle)
    decreases |ps| - k
  {
    if k < |ps| {
      assert ps[..k + 1][..k] == ps[..k];
      ValueOfErrPropagates(ps, k + 1, owner, token, oracle);
    } else {
      assert ps[..k] == ps;
    }
  }

  /** The sum of one token's positions is part of the account's total: it
      is defined whenever the total is, and never larger. */
  lemma {:induction false} TokenValueWithinTotal(ps: seq<Position>, owner: nat, token: TokenId, oracle: Oracle)
    requires ValueOf(ps, owner, None, oracle).Ok?
    ensures ValueOf(ps, owner, Some(token), oracle).Ok?
    ensures ValueOf(ps, owner, Some(token), oracle).value <= ValueOf(ps, owner, None, oracle).value
    decreases |ps|
  {
    if |ps| > 0 {
      TokenValueWithinTotal(ps[..|ps| - 1], owner, token, oracle);
    }
  }

  /** Only the account's own positions count: other accounts' positions
      may be added anywhere without changing the sum. */
  lemma {:induction false} OtherAccountsIgnored(ps: seq<Position>, p: Position, owner: nat, token: Option<TokenId>, oracle: Oracle)
    requires p.ownerNonce != owner
    ensures ValueOf(ps + [p], owner, token, oracle) == ValueOf(ps, owner, token, oracle)
  {
    assert (ps + [p])[..|ps|] == ps;
  }

  /** The sum over a sequence joined from two parts is the sum of the parts. */
  lemma {:induction false} ValueOfAppend(ps: seq<Position>, qs: seq<Position>, owner: nat, token: Option<TokenId>, oracle: Oracle)
    requires ValueOf(ps, owner, token, oracle).Ok? && ValueOf(qs, owner, token, oracle).Ok?
    ensures ValueOf(ps + qs, owner, token, oracle)
         == Ok(ValueOf(ps, owner, token, oracle).value + ValueOf(qs, owner, token, oracle).value)
    decreases |qs|
  {
    if |qs| == 0 {
      assert ps + qs == ps;
    } else {
      var qs' := qs[..|qs| - 1];
      assert (ps + qs)[..|ps + qs| - 1] == ps + qs';
      ValueOfAppend(ps, qs', owner, token, oracle);
    }
  }

  /** The summing loop of the three views. */
  method SumValue(ps: seq<Position>, owner: nat, token: Option<TokenId>, oracle: Oracle) returns (r: Result<nat>)
    ensures r == ValueOf(ps, owner, token, oracle)
  {
    var total: nat := 0;
    var i := 0;
    while i < |ps|
      invariant 0 <= i <= |ps|
      invariant ValueOf(ps[..i], owner, token, oracle) == Ok(total)
    {
      var p := ps[i];
      assert ps[..i + 1][..i] == ps[..i];
      if Matches(p, owner, token) {
        var data := GetTokenPriceData(oracle, p.tokenId);
        if data.Err? {
          ValueOfErrPropagates(ps, i + 1, owner, token, oracle);
          return Err(data.msg);
        }
        total := total + p.amount * data.value.price;
      }
      i := i + 1;
    }
    assert ps[..i] == ps;
    r := Ok(total);
  }

  /** The search loop of the two position getters. */
  method FindPosition(ps: seq<Position>, owner: nat, token: TokenId) returns (r: Option<nat>)
    ensures r == FindFirst(ps, owner, token)
  {
    var i := 0;
    while i < |ps|
      invariant 0 <= i <= |ps|
      invariant forall j :: 0 <= j < i ==> !Matches(ps[j], owner, Some(token))
    {
      if ps[i].ownerNonce == owner && ps[i].tokenId == token {
        FindFirstIsFirstMatch(ps, owner, token, i);
        return Some(i);
      }
      i := i + 1;
    }
    FindFirstIsFirstMatch(ps, owner, token, |ps|);
    r := None;
  }

  /** FindFirst is the first match: the index before which nothing matches
      and which matches itself (or the end). */
  lemma {:induction false} FindFirstIsFirstMatch(ps: seq<Position>, owner: nat, token: TokenId, i: nat)
    requires i <= |ps|
    requires forall j :: 0 <= j < i ==> !Matches(ps[j], owner, Some(token))
    requires i < |ps| ==> Matches(ps[i], owner, Some(token))
    ensures FindFirst(ps, owner, token) == if i < |ps| then Some(i) else None
  {
    match FindFirst(ps, owner, token)
    case None =>
    case Some(k) =>
  }

  // ------------------------------------------------ taking a position out

  /** One position per account and token: the invariant the lending pool
      keeps on both position sets. */
  predicate Unique(ps: seq<Position>) {
    && NoDup(ps)
    && forall y, z :: y in ps && z in ps && y.ownerNonce == z.ownerNonce && y.tokenId == z.tokenId ==> y == z
  }

  /** The account holds a position in the token. */
  predicate Holds(ps: seq<Position>, owner: nat, token: TokenId) {
    exists y :: y in ps && y.ownerNonce == owner && y.tokenId == token
  }

  /** get_collateral_position_for_token / get_borrow_position_for_token on
      one set: the account's first position in the token, taken out of the
      set; when there is none, a fresh zero position opened in this round
      at the base index, and the set unchanged. */
  function TakePosition(ps: seq<Position>, owner: nat, token: TokenId, round: nat): (r: (seq<Position>, Position))
    ensures Matches(r.1, owner, Some(token))
    ensures Holds(ps, owner, token) ==> r.1 in ps && r.0 == Remove(ps, r.1)
    ensures !Holds(ps, owner, token) ==> r == (ps, Position(token, 0, owner, round, BP))
  {
    FindFirstHolds(ps, owner, token);
    match FindFirst(ps, owner, token)
    case Some(i) => (Remove(ps, ps[i]), ps[i])
    case None => (ps, Position(token, 0, owner, round, BP))
  }

  /** The search finds a position exactly when the account holds the token. */
  lemma FindFirstHolds(ps: seq<Position>, owner: nat, token: TokenId)
    ensures FindFirst(ps, owner, token).Some? <==> Holds(ps, owner, token)
  {
    if FindFirst(ps, owner, token).None? {
      forall y | y in ps
        ensures !(y.ownerNonce == owner && y.tokenId == token)
      {
        var k :| 0 <= k < |ps| && ps[k] == y;
        assert !Matches(ps[k], owner, Some(token));
      }
    } else {
      var i := FindFirst(ps, owner, token).value;
      assert ps[i] in ps;
    }
  }

  /** Taking a position out and putting it back restores the set's
      elements; on a set with one position per account and token the
      account no longer holds the token in between, and every other
      account and token is untouched. */
  lemma TakeThenPutBack(ps: seq<Position>, owner: nat, token: TokenId, round: nat)
    requires Unique(ps)
    ensures var (ps', p) := TakePosition(ps, owner, token, round);
      && Unique(ps')
      && !Holds(ps', owner, token)
      && (forall y: Position :: (y.ownerNonce != owner || y.tokenId != token) ==> (y in ps' <==> y in ps))
      && (Holds(ps, owner, token) ==> forall y :: y in Insert(ps', p) <==> y in ps)
  {
    var (ps', p) := TakePosition(ps, owner, token, round);
    if Holds(ps, owner, token) {
      forall y | y in ps'
        ensures !(y.ownerNonce == owner && y.tokenId == token)
      {
        assert y in ps && y != p;
      }
    }
  }

  // ------------------------------------------------- liquidator payout

  /** An outcome with effects put in front of its own. */
  function Prepend(sent: seq<Effect>, r: Result<(seq<Position>, seq<Effect>)>): Result<(seq<Position>, seq<Effect>)> {
    match r
    case Err(m) => Err(m)
    case Ok(p) => Ok((p.0, sent + p.1))
  }

  lemma PrependTwice(a: seq<Effect>, b: seq<Effect>, r: Result<(seq<Position>, seq<Effect>)>)
    ensures Prepend(a, Prepend(b, r)) == Prepend(a + b, r)
  {
    if r.Ok? {
      assert a + (b + r.value.1) == (a + b) + r.value.1;
    }
  }

  /** send_amount_in_dollars_to_liquidator, from the position `todo[0]`
      on, with `toSend` dollars still due and `ps` the set so far: the
      account's positions are paid out in order. A position worth no more
      than what is due is sent whole and removed, and the payout stops
      once nothing is due; a position worth more is sent in part, put back
      reduced, and the payout stops. The part is the due amount over the
      price, scaled by the price's decimals; a part larger than the
      position aborts, as does a position without a price. */
  function Payout(ps: seq<Position>, todo: seq<Position>, owner: nat, toSend: nat, caller: Address, oracle: Oracle)
    : Result<(seq<Position>, seq<Effect>)>
    decreases |todo|
  {
    if |todo| == 0 then Ok((ps, []))
    else
      var dp := todo[0];
      if dp.ownerNonce != owner then Payout(ps, todo[1..], owner, toSend, caller, oracle)
      else
        match GetTokenPriceData(oracle, dp.tokenId)
        case Err(m) => Err(m)
        case Ok(data) =>
          Arith.MulNat(dp.amount, data.price);
          var available := dp.amount * data.price;
          var send := Send(caller, dp.tokenId, 0, dp.amount);
          if available <= toSend then
            if toSend - available == 0 then Ok((Remove(ps, dp), [send]))
            else Prepend([send], Payout(Remove(ps, dp), todo[1..], owner, toSend - available, caller, oracle))
          else if data.price == 0 then Err(ARITHMETIC_PANIC)
          else
            var partial := PartialAmount(toSend, data);
            if partial > dp.amount then Err(ARITHMETIC_PANIC)
            else Ok((Insert(Remove(ps, dp), dp.(amount := dp.amount - partial)), [Send(caller, dp.tokenId, 0, partial)]))
  }

  /** The part of a position a partial payout sends: the due dollars in
      BP over the price, times ten to the decimals, over BP. */
  function PartialAmount(toSend: nat, data: PriceData): nat
    requires data.price > 0
  {
    Arith.MulNat(toSend, BP);
    Arith.DivNat(toSend * BP, data.price);
    var q := toSend * BP / data.price;
    Arith.MulNat(q, Pow10(data.decimals));
    Arith.DivNat(q * Pow10(data.decimals), BP);
    q * Pow10(data.decimals) / BP
  }

  /** The payout never touches another account's positions. */
  lemma {:induction false} PayoutKeepsOthers(ps: seq<Position>, todo: seq<Position>, owner: nat, toSend: nat,
                                             caller: Address, oracle: Oracle)
    requires Payout(ps, todo, owner, toSend, caller, oracle).Ok?
    ensures var q := Payout(ps, todo, owner, toSend, caller, oracle).value.0;
      forall y: Position :: y.ownerNonce != owner ==> (y in q <==> y in ps)
    decreases |todo|
  {
    if |todo| > 0 {
      var dp := todo[0];
      if dp.ownerNonce != owner {
        PayoutKeepsOthers(ps, todo[1..], owner, toSend, caller, oracle);
      } else {
        var data := GetTokenPriceData(oracle, dp.tokenId).value;
        var available := dp.amount * data.price;
        if available <= toSend && toSend - available != 0 {
          PayoutKeepsOthers(Remove(ps, dp), todo[1..], owner, toSend - available, caller, oracle);
        }
      }
    }
  }

  /** What the payout may rely on: the positions still to be visited are
      distinct and all still in the set. */
  predicate Pending(ps: seq<Position>, todo: seq<Position>) {
    NoDup(todo) && forall k :: 0 <= k < |todo| ==> todo[k] in ps
  }

  /** Taking a position out keeps one position per account and token. */
  lemma UniqueAfterRemove(ps: seq<Position>, x: Position)
    requires Unique(ps)
    ensures Unique(Remove(ps, x))
  {
    var r := Remove(ps, x);
    forall y, z | y in r && z in r && y.ownerNonce == z.ownerNonce && y.tokenId == z.tokenId
      ensures y == z
    {
      assert y in ps && z in ps;
    }
  }

  /** Skipping the position just visited keeps the rest pending. */
  lemma PendingTail(ps: seq<Position>, todo: seq<Position>)
    requires Pending(ps, todo) && |todo| > 0
    ensures todo[0] in ps && Pending(ps, todo[1..])
  {
    forall k | 0 <= k < |todo[1..]|
      ensures todo[1..][k] in ps
    {
      assert todo[1..][k] == todo[k + 1];
    }
  }

  /** Removing the position just visited keeps the rest pending. */
  lemma PendingAfterRemove(ps: seq<Position>, todo: seq<Position>)
    requires NoDup(ps) && Pending(ps, todo) && |todo| > 0
    ensures NoDup(Remove(ps, todo[0])) && Pending(Remove(ps, todo[0]), todo[1..])
  {
    forall k | 0 <= k < |todo[1..]|
      ensures todo[1..][k] in Remove(ps, todo[0])
    {
      assert todo[1..][k] == todo[k + 1] && todo[k + 1] != todo[0];
    }
  }

  /** The account only loses tokens: every position of the account the
      payout leaves is in a token the account held before. */
  lemma {:induction false} PayoutTokensShrink(ps: seq<Position>, todo: seq<Position>, owner: nat, toSend: nat,
                                              caller: Address, oracle: Oracle)
    requires NoDup(ps) && Pending(ps, todo)
    requires Payout(ps, todo, owner, toSend, caller, oracle).Ok?
    ensures var q := Payout(ps, todo, owner, toSend, caller, oracle).value.0;
      forall y :: y in q && y.ownerNonce == owner ==> Holds(ps, owner, y.tokenId)
    decreases |todo|
  {
    var q := Payout(ps, todo, owner, toSend, caller, oracle).value.0;
    if |todo| > 0 {
      var dp := todo[0];
      PendingTail(ps, todo);
      if dp.ownerNonce != owner {
        PayoutTokensShrink(ps, todo[1..], owner, toSend, caller, oracle);
      } else {
        var data := GetTokenPriceData(oracle, dp.tokenId).value;
        var available := dp.amount * data.price;
        if available <= toSend && toSend - available != 0 {
          var ps' := Remove(ps, dp);
          PendingAfterRemove(ps, todo);
          PayoutTokensShrink(ps', todo[1..], owner, toSend - available, caller, oracle);
          forall y | y in q && y.ownerNonce == owner
            ensures Holds(ps, owner, y.tokenId)
          {
            var z :| z in ps' && z.ownerNonce == owner && z.tokenId == y.tokenId;
            assert z in ps;
          }
        } else if available <= toSend {
          forall y | y in q && y.ownerNonce == owner
            ensures Holds(ps, owner, y.tokenId)
          {
            assert y in ps;
          }
        } else {
          forall y | y in q && y.ownerNonce == owner
            ensures Holds(ps, owner, y.tokenId)
          {
            if y !in ps {
              assert y.tokenId == dp.tokenId && dp in ps;
            }
          }
        }
      }
    }
  }

  /** On a set with one position per account and token, the payout keeps
      that invariant and never grows the set. */
  lemma {:induction false} PayoutKeepsUnique(ps: seq<Position>, todo: seq<Position>, owner: nat, toSend: nat,
                                             caller: Address, oracle: Oracle)
    requires Unique(ps) && Pending(ps, todo)
    requires Payout(ps, todo, owner, toSend, caller, oracle).Ok?
    ensures var q := Payout(ps, todo, owner, toSend, caller, oracle).value.0;
      Unique(q) && |q| <= |ps|
    decreases |todo|
  {
    if |todo| > 0 {
      var dp := todo[0];
      PendingTail(ps, todo);
      if dp.ownerNonce != owner {
        PayoutKeepsUnique(ps, todo[1..], owner, toSend, caller, oracle);
      } else {
        var data := GetTokenPriceData(oracle, dp.tokenId).value;
        var available := dp.amount * data.price;
        var ps' := Remove(ps, dp);
        if available <= toSend && toSend - available != 0 {
          PendingAfterRemove(ps, todo);
          UniqueAfterRemove(ps, dp);
          PayoutKeepsUnique(ps', todo[1..], owner, toSend - available, caller, oracle);
        } else if available > toSend {
          var partial := PartialAmount(toSend, data);
          var reduced := dp.(amount := dp.amount - partial);
          var q := Insert(ps', reduced);
          forall y, z | y in q && z in q && y.ownerNonce == z.ownerNonce && y.tokenId == z.tokenId
            ensures y == z
          {
            if y != reduced && z != reduced {
              assert y in ps && z in ps;
            }
          }
        }
      }
    }
  }

  /** Every transfer of the payout sends a token the account held to the
      liquidator, and every transfer but the last one paid a position in
      full: the account holds none of that token afterwards. */
  lemma {:induction false} PayoutPaysInOrder(ps: seq<Position>, todo: seq<Position>, owner: nat, toSend: nat,
                                             caller: Address, oracle: Oracle)
    requires Unique(ps) && Pending(ps, todo)
    requires Payout(ps, todo, owner, toSend, caller, oracle).Ok?
    ensures var (q, es) := Payout(ps, todo, owner, toSend, caller, oracle).value;
      && |es| <= |todo|
      && (forall k :: 0 <= k < |es| ==> es[k].Send? && es[k].to == caller && Holds(ps, owner, es[k].token))
      && (forall k :: 0 <= k < |es| - 1 ==> !Holds(q, owner, es[k].token))
    decreases |todo|
  {
    if |todo| > 0 {
      var dp := todo[0];
      PendingTail(ps, todo);
      if dp.ownerNonce != owner {
        PayoutPaysInOrder(ps, todo[1..], owner, toSend, caller, oracle);
      } else {
        var data := GetTokenPriceData(oracle, dp.tokenId).value;
        var available := dp.amount * data.price;
        var ps' := Remove(ps, dp);
        var send := Send(caller, dp.tokenId, 0, dp.amount);
        assert Holds(ps, owner, dp.tokenId);
        if available <= toSend && toSend - available != 0 {
          PendingAfterRemove(ps, todo);
          UniqueAfterRemove(ps, dp);
          PayoutPaysInOrder(ps', todo[1..], owner, toSend - available, caller, oracle);
          PayoutTokensShrink(ps', todo[1..], owner, toSend - available, caller, oracle);
          var rest := Payout(ps', todo[1..], owner, toSend - available, caller, oracle).value;
          assert Payout(ps, todo, owner, toSend, caller, oracle) == Ok((rest.0, [send] + rest.1));
          RemoveDropsToken(ps, dp);
          PaysInOrderCons(ps, ps', dp, rest.0, rest.1, owner, caller);
        }
      }
    }
  }

  /** Taking a position out of a set with one position per account and
      token leaves the account without that token and with nothing new. */
  lemma RemoveDropsToken(ps: seq<Position>, dp: Position)
    requires Unique(ps) && dp in ps
    ensures !Holds(Remove(ps, dp), dp.ownerNonce, dp.tokenId)
    ensures forall t :: Holds(Remove(ps, dp), dp.ownerNonce, t) ==> Holds(ps, dp.ownerNonce, t)
  {
    var ps' := Remove(ps, dp);
    forall y | y in ps' && y.ownerNonce == dp.ownerNonce
      ensures y.tokenId != dp.tokenId
    {
      assert y in ps && y != dp;
    }
    forall t | Holds(ps', dp.ownerNonce, t)
      ensures Holds(ps, dp.ownerNonce, t)
    {
      var z :| z in ps' && z.ownerNonce == dp.ownerNonce && z.tokenId == t;
      assert z in ps;
    }
  }

  /** One step of PayoutPaysInOrder: a position paid in full, put in front
      of the transfers that follow it. */
  lemma PaysInOrderCons(ps: seq<Position>, ps': seq<Position>, dp: Position, q: seq<Position>, es: seq<Effect>,
                        owner: nat, caller: Address)
    requires Holds(ps, owner, dp.tokenId) && !Holds(ps', owner, dp.tokenId)
    requires forall t :: Holds(ps', owner, t) ==> Holds(ps, owner, t)
    requires forall k :: 0 <= k < |es| ==> es[k].Send? && es[k].to == caller && Holds(ps', owner, es[k].token)
    requires forall k :: 0 <= k < |es| - 1 ==> !Holds(q, owner, es[k].token)
    requires forall y :: y in q && y.ownerNonce == owner ==> Holds(ps', owner, y.tokenId)
    ensures var es' := [Send(caller, dp.tokenId, 0, dp.amount)] + es;
      && (forall k :: 0 <= k < |es'| ==> es'[k].Send? && es'[k].to == caller && Holds(ps, owner, es'[k].token))
      && (forall k :: 0 <= k < |es'| - 1 ==> !Holds(q, owner, es'[k].token))
  {
    var es' := [Send(caller, dp.tokenId, 0, dp.amount)] + es;
    forall k | 0 < k < |es'|
      ensures es'[k] == es[k - 1]
    {
    }
  }

  /** The payout stops at the first of the account's positions worth at
      least what is still due: the positions after it play no part. */
  lemma PayoutStopsAtFirstSufficient(ps: seq<Position>, dp: Position, rest1: seq<Position>, rest2: seq<Position>,
                                     owner: nat, toSend: nat, caller: Address, oracle: Oracle)
    requires dp.ownerNonce == owner
    requires GetTokenPriceData(oracle, dp.tokenId).Ok?
    requires dp.amount * GetTokenPriceData(oracle, dp.tokenId).value.price >= toSend
    ensures Payout(ps, [dp] + rest1, owner, toSend, caller, oracle) == Payout(ps, [dp] + rest2, owner, toSend, caller, oracle)
  {
    assert ([dp] + rest1)[0] == dp && ([dp] + rest2)[0] == dp;
  }

  // ------------------------------------------------------------ storage

  /** The storage the helpers read and write: the two position sets, and
      the transfers made. */
  datatype Storage = Storage(depositPosition: seq<Position>, borrowPosition: seq<Position>, ledger: Ledger)

  /** The lending pool's invariant on both sets. */
  predicate Valid(s: Storage) {
    Unique(s.depositPosition) && Unique(s.borrowPosition)
  }

  /** send_amount_in_dollars_to_liquidator on storage: the payout over the
      deposit set as it is at the start; an abort changes nothing. */
  function LiquidatorStep(s: Storage, caller: Address, owner: nat, amount: nat, oracle: Oracle): (r: Result<Storage>)
    ensures r.Ok? ==> r.value.borrowPosition == s.borrowPosition
    ensures r.Ok? ==> forall y: Position :: y.ownerNonce != owner ==> (y in r.value.depositPosition <==> y in s.depositPosition)
    ensures r.Ok? && Valid(s) ==> Valid(r.value) && |r.value.depositPosition| <= |s.depositPosition|
    ensures r.Ok? ==> r.value.ledger.lastNonce == s.ledger.lastNonce
                      && |s.ledger.effects| <= |r.value.ledger.effects|
                      && r.value.ledger.effects[..|s.ledger.effects|] == s.ledger.effects
    ensures r.Ok? && Valid(s) ==>
      var sent := r.value.ledger.effects[|s.ledger.effects|..];
      && (forall k :: 0 <= k < |sent| ==>
            sent[k].Send? && sent[k].to == caller && Holds(s.depositPosition, owner, sent[k].token))
      && (forall k :: 0 <= k < |sent| - 1 ==> !Holds(r.value.depositPosition, owner, sent[k].token))
  {
    var ps := s.depositPosition;
    match Payout(ps, ps, owner, amount, caller, oracle)
    case Err(m) => Err(m)
    case Ok(p) =>
      PayoutKeepsOthers(ps, ps, owner, amount, caller, oracle);
      if Valid(s) then
        assert Pending(ps, ps);
        PayoutKeepsUnique(ps, ps, owner, amount, caller, oracle);
        PayoutPaysInOrder(ps, ps, owner, amount, caller, oracle);
        assert (s.ledger.effects + p.1)[|s.ledger.effects|..] == p.1;
        Ok(s.(depositPosition := p.0, ledger := s.ledger.Then(p.1)))
      else
        Ok(s.(depositPosition := p.0, ledger := s.ledger.Then(p.1)))
  }

  class LendingPositions {
    var depositPosition: seq<Position>
    var borrowPosition: seq<Position>
    var ledger: Ledger

    function State(): Storage
      reads this
    {
      Storage(depositPosition, borrowPosition, ledger)
    }

    constructor (s: Storage)
      ensures State() == s
    {
      depositPosition, borrowPosition, ledger := s.depositPosition, s.borrowPosition, s.ledger;
    }

    /** get_collateral_position_for_token, in block round `round`. */
    method GetCollateralPositionForToken(owner: nat, token: TokenId, round: nat) returns (p: Position)
      modifies this
      ensures (depositPosition, p) == TakePosition(old(depositPosition), owner, token, round)
      ensures borrowPosition == old(borrowPosition) && ledger == old(ledger)
    {
      var i := FindPosition(depositPosition, owner, token);
      FindFirstHolds(depositPosition, owner, token);
      if i.Some? {
        p := depositPosition[i.value];
        depositPosition := Remove(depositPosition, p);
        return;
      }
      p := Position(token, 0, owner, round, BP);
    }

    /** get_borrow_position_for_token, in block round `round`. */
    method GetBorrowPositionForToken(owner: nat, token: TokenId, round: nat) returns (p: Position)
      modifies this
      ensures (borrowPosition, p) == TakePosition(old(borrowPosition), owner, token, round)
      ensures depositPosition == old(depositPosition) && ledger == old(ledger)
    {
      var i := FindPosition(borrowPosition, owner, token);
      FindFirstHolds(borrowPosition, owner, token);
      if i.Some? {
        p := borrowPosition[i.value];
        borrowPosition := Remove(borrowPosition, p);
        return;
      }
      p := Position(token, 0, owner, round, BP);
    }

    /** getTotalCollateralAvailableForToken: the dollar value of the
      account's deposits in one token. */
    method GetCollateralAvailableForToken(owner: nat, token: TokenId, oracle: Oracle) returns (r: Result<nat>)
      ensures r == ValueOf(depositPosition, owner, Some(token), oracle)
    {
      r := SumValue(depositPosition, owner, Some(token), oracle);
    }

    /** getTotalCollateralAvailable: the dollar value of all the account's
      deposits. */
    method GetTotalCollateralAvailable(owner: nat, oracle: Oracle) returns (r: Result<nat>)
      ensures r == ValueOf(depositPosition, owner, None, oracle)
    {
      r := SumValue(depositPosition, owner, None, oracle);
    }

    /** getTotalBorrowedAmount: the dollar value of all the account's
      borrows. */
    method GetTotalBorrowedAmount(owner: nat, oracle: Oracle) returns (r: Result<nat>)
      ensures r == ValueOf(borrowPosition, owner, None, oracle)
    {
      r := SumValue(borrowPosition, owner, None, oracle);
    }

    /** send_amount_in_dollars_to_liquidator: the loop runs over the set as
        it is on entry and works on a copy, which is stored once the payout
        ends; an abort leaves the storage as it was. */
    method SendAmountInDollarsToLiquidator(caller: Address, owner: nat, amount: nat, oracle: Oracle) returns (r: Result<()>)
      modifies this
      ensures Commits(r, LiquidatorStep(old(State()), caller, owner, amount, oracle), old(State()), State())
    {
      var payout := PayoutLoop(depositPosition, owner, amount, caller, oracle);
      match payout {
        case Err(m) =>
          return Err(m);
        case Ok(p) =>
          depositPosition, ledger := p.0, ledger.Then(p.1);
          r := Ok(());
      }
    }
  }

  /** The loop of send_amount_in_dollars_to_liquidator over a snapshot of
      the deposit set: the positions left and the transfers made, or the
      abort. */
  method PayoutLoop(snapshot: seq<Position>, owner: nat, amount: nat, caller: Address, oracle: Oracle)
    returns (r: Result<(seq<Position>, seq<Effect>)>)
    ensures r == Payout(snapshot, snapshot, owner, amount, caller, oracle)
  {
    var ps := snapshot;
    var toSend: nat := amount;
    var sent: seq<Effect> := [];
    var i := 0;
    assert snapshot[i..] == snapshot;
    match Payout(snapshot, snapshot, owner, amount, caller, oracle) {
      case Ok(p) => assert [] + p.1 == p.1;
      case Err(_) =>
    }
    while i < |snapshot|
      invariant 0 <= i <= |snapshot|
      invariant Payout(snapshot, snapshot, owner, amount, caller, oracle)
             == Prepend(sent, Payout(ps, snapshot[i..], owner, toSend, caller, oracle))
    {
      var dp := snapshot[i];
      assert snapshot[i..][0] == dp && snapshot[i..][1..] == snapshot[i + 1..];
      if dp.ownerNonce == owner {
        var data := GetTokenPriceData(oracle, dp.tokenId);
        if data.Err? {
          return Err(data.msg);
        }
        var price := data.value.price;
        var available := dp.amount * price;
        if available <= toSend {
          PrependTwice(sent, [Send(caller, dp.tokenId, 0, dp.amount)],
                       Payout(Remove(ps, dp), snapshot[i + 1..], owner, toSend - available, caller, oracle));
          sent := sent + [Send(caller, dp.tokenId, 0, dp.amount)];
          toSend := toSend - available;
          ps := Remove(ps, dp);
          if toSend == 0 {
            return Ok((ps, sent));
          }
        } else {
          if price == 0 {
            return Err(ARITHMETIC_PANIC);
          }
          var partial := PartialAmount(toSend, data.value);
          if partial > dp.amount {
            return Err(ARITHMETIC_PANIC);
          }
          sent := sent + [Send(caller, dp.tokenId, 0, partial)];
          ps := Insert(Remove(ps, dp), dp.(amount := dp.amount - partial));
          return Ok((ps, sent));
        }
      }
      i := i + 1;
    }
    assert snapshot[i..] == [] && sent + [] == sent;
    r := Ok((ps, sent));
  }
}
