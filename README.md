# mx-lend smart contracts — a Dafny model

This project models the core of the mx-lend contracts for MultiversX. Its parts:

- the interest-rate, utilisation, debt and health-factor arithmetic of
  the liquidity pool and the lending pool;
- the liquidity pool's storage and endpoints in their three generations:
  `lib.rs` (eager storage, debt positions keyed by a nonce),
  `liquidity.rs` (interest indexes and per-nonce positions), and
  `liquidity_pool.rs` (position NFTs keyed by a hash);
- the pool's token issue and roles module;
- the lending pool's router, pool metadata and position utilities,
  including the liquidator payout;
- the stand-alone router, the price oracle, the safety module and the
  eToken handler.

Each source file is modelled in the form it has:

- Pure formulas become functions. Their properties are proved as lemmas.
  Examples are monotonicity in each argument, bounds, the value at zero
  and at the kink, and the value after a year.
- Each contract's storage is a `datatype Storage` plus a pure `...Step`
  function per endpoint. The step function either returns the new storage
  or returns the endpoint's error message, with the storage unchanged.
- The contract itself is a `class` whose fields are that storage. Each
  endpoint is a `method` with `modifies this`. The method's `ensures`
  ties the new state to its step function, through `Commits` or
  `CommitsWith` from `common.dfy`.
- Lemmas relate several steps: an issue followed by its callback, a
  deposit followed by a withdrawal, a liquidation followed by a repay, a
  registration followed by a lookup.

Modelling choices:

- Amounts (`BigUint`) are `nat`.
  - In the pure formulas, a subtraction that would underflow or a
    division by zero is a precondition.
  - In the endpoints, a VM panic becomes the error `ARITHMETIC_PANIC`, and
    the storage is left as it was.
- Blockchain services appear as values:
  - Token transfers, NFT creation and burning, and outgoing calls are
    recorded in an append-only `Ledger`.
  - The block timestamp and round are parameters.
  - Keccak-256 hashing becomes a symbolic `Hash` of the hashed fields.
  - Asynchronous-call results are parameters of the callbacks.

`liquidity_pool/src/library.rs` repeats three formulas found elsewhere:

- `compute_borrow_rate` (lines 13-34) is `PoolMath.ComputeBorrowRate`;
- `compute_deposit_rate` (lines 36-46) is `LiqMath.ComputeDepositRate`;
- `compute_capital_utilisation` (lines 48-55) is
  `PoolMath.ComputeCapitalUtilisation`, which has no guard against empty
  reserves.

Only its debt formula differs; it is modelled as `LibraryMath.ComputeDebt`.

`is_full_repay` (`liquidity_pool/src/liq_utils.rs:158-165`) is the
predicate `LiqUtils.IsFullRepay`. Nothing in the core calls it;
`Liquidity.RepayClosesExactlyOnFullRepay` shows that a repay closes a
position exactly in the case it names.

## Model

| member | source | states |
|---|---|---|
| LiqMath.ComputeBorrowRate | liquidity_pool/src/liq_math.rs:7-25 | the rate is at least the base rate; up to and including the optimal utilisation it is at most base + slope1, above it at least base + slope1 |
| LiqMath.BorrowRateAtZero | liquidity_pool/src/liq_math.rs:17-19 | an idle pool charges exactly the base rate |
| LiqMath.BorrowRateAtKink | liquidity_pool/src/liq_math.rs:17-19 | at the optimal utilisation the rate is exactly base + slope1 |
| LiqMath.BorrowRateBounded | liquidity_pool/src/liq_math.rs:7-25 | for any utilisation up to 100% the rate is at most base + slope1 + slope2 |
| LiqMath.BorrowRateMonotone | liquidity_pool/src/liq_math.rs:7-25 | a higher utilisation never lowers the borrow rate |
| LiqMath.ComputeDepositRate | liquidity_pool/src/liq_math.rs:27-38 | the deposit rate is 0 at zero utilisation and when the reserve factor takes everything |
| LiqMath.DepositRateBelowBorrowRate | liquidity_pool/src/liq_math.rs:27-38 | at a utilisation up to 100% depositors never earn more than borrowers pay |
| LiqMath.DepositRateMonotone | liquidity_pool/src/liq_math.rs:27-38 | a higher borrow rate never lowers the deposit rate |
| LiqMath.ComputeCapitalUtilisation | liquidity_pool/src/liq_math.rs:40-51 | the utilisation is 0 on an empty pool and with nothing borrowed |
| LiqMath.CapitalUtilisationBounded | liquidity_pool/src/liq_math.rs:40-51 | when no more is borrowed than the total, utilisation is at most 100%, and exactly 100% when everything is borrowed |
| LiqMath.CapitalUtilisationMonotone | liquidity_pool/src/liq_math.rs:40-51 | borrowing more out of the same total capital never lowers utilisation |
| LiqMath.ComputeInterest | liquidity_pool/src/liq_math.rs:65-74 | no interest while the supply index has not moved or on a zero amount |
| LiqMath.ComputeWithdrawalAmount | liquidity_pool/src/liq_math.rs:53-63 | a withdrawal pays back at least the deposit, exactly the deposit plus its interest, and the bare deposit when the index has not moved |
| LiqMath.WithdrawalAmountMonotone | liquidity_pool/src/liq_math.rs:53-63 | a later (higher) supply index never pays out less |
| LiqMath.ComputeBorrowableAmount | liquidity_pool/src/liq_math.rs:76-85 | nothing can be borrowed against no collateral or at a zero loan-to-value |
| LiqMath.BorrowableAmountBounded | liquidity_pool/src/liq_math.rs:76-85 | with a loan-to-value up to 100% a borrower gets no more than the collateral |
| LiqMath.BorrowableAmountMonotone | liquidity_pool/src/liq_math.rs:76-85 | more collateral never borrows less |
| PoolMath.ComputeBorrowRate | liquidity_pool/src/math.rs:9-27 | the older rate curve, kinked strictly: at least the base rate; below the optimal utilisation at most base + slope1, from it on at least base + slope1 |
| PoolMath.BorrowRateAtKink | liquidity_pool/src/math.rs:19-26 | at the optimal utilisation this curve charges exactly base + slope1 |
| PoolMath.BorrowRateMatchesLiqMath | liquidity_pool/src/math.rs:9-27 | wherever both curves are defined they give the same rate, the kink included |
| PoolMath.ComputeCapitalUtilisation | liquidity_pool/src/math.rs:41-48 | over positive reserves: 0 with nothing borrowed, at most 100% when no more is borrowed than the reserves |
| PoolMath.ComputeDebt | liquidity_pool/src/math.rs:50-62 | the interest owed is nothing after no time, on no amount or at rate 0 |
| PoolMath.DebtOverOneYear | liquidity_pool/src/math.rs:50-62 | a year's interest is exactly rate × amount / BP |
| PoolMath.DebtMonotoneInTime | liquidity_pool/src/math.rs:50-62 | interest never shrinks as time passes |
| PoolMath.DebtMonotoneInRate | liquidity_pool/src/math.rs:50-62 | a higher rate never gives less interest |
| PoolMath.DebtMonotoneInAmount | liquidity_pool/src/math.rs:50-62 | borrowing more never gives less interest |
| PoolMath.ComputeWithdrawalAmount | liquidity_pool/src/math.rs:64-76 | a deposit is paid back with at least its amount, exactly the amount after no time |
| PoolMath.WithdrawalOverOneYear | liquidity_pool/src/math.rs:64-76 | after a year a deposit earns exactly rate × amount / BP |
| PoolMath.WithdrawalMonotoneInTime | liquidity_pool/src/math.rs:64-76 | waiting longer never pays out less |
| PoolMath.ComputeBorrowableAmount | liquidity_pool/src/math.rs:78-89 | nothing is borrowable with a zero price, amount or loan-to-value; with a loan-to-value up to 100% no more than amount × price |
| PoolMath.BorrowableMatchesLiqMath | liquidity_pool/src/math.rs:78-89 | the pool's own formula (value × LTV / BP / 10^decimals) agrees on every input with the newer formula of liq_math.rs applied to amount × price |
| PoolMath.RuleOfThree | liquidity_pool/src/math.rs:110-117 | 0 for a zero part, at most value when the part is at most the total, exactly value when it is the total |
| LibraryMath.ComputeDebt | liquidity_pool/src/library.rs:57-75 | with a debt percentage (rate × time share) of at most 100% the interest is at most the amount, above it at least; exactly the amount at 100%; nothing after no time |
| LibraryMath.DebtMatchesPoolMath | liquidity_pool/src/library.rs:57-75 | this interest lies between the math.rs interest and one unit more (its two-step rounding), and equals it above 100% |
| LendingMath.ComputeHealthFactor | lending_pool/src/math.rs:7-17 | the health factor is 0 without collateral or threshold, and factor × borrowed × BP never exceeds collateral × threshold |
| LendingMath.HealthFactorAntiMonotoneInDebt | liquidity_pool/src/math.rs:91-104 | more debt never raises the health factor |
| LendingMath.HealthFactorMonotoneInCollateral | lending_pool/src/math.rs:7-17 | more collateral never lowers the health factor |
| LendingMath.HealthFactorMonotoneInThreshold | lending_pool/src/math.rs:7-17 | a higher liquidation threshold never lowers the health factor |
| LendingMath.HealthyWhenCovered | lending_pool/src/math.rs:13-16 | collateral × threshold covering the debt gives a factor of at least 1 |
| LiqUtils.CapitalUtilisation | liquidity_pool/src/liq_utils.rs:12-24 | the pool's utilisation: 0 with nothing supplied, at most 100% when no more is borrowed than supplied |
| LiqUtils.GetBorrowRate | liquidity_pool/src/liq_utils.rs:59-72 | a rate exists exactly when the curve is defined at the pool's utilisation; it is at least the base rate and at most base + both slopes |
| LiqUtils.GetDepositRate | liquidity_pool/src/liq_utils.rs:46-57 | a rate exists exactly when the borrow rate does and the reserve factor is at most 100%; it never exceeds the borrow rate, and is 0 with nothing borrowed |
| LiqUtils.GetTotalCapital | liquidity_pool/src/liq_utils.rs:26-32 | total capital covers both the reserves and the borrowed amount |
| LiqUtils.TotalCapitalUtilisationBounded | liquidity_pool/src/liq_utils.rs:26-32 | utilisation of the total capital is never more than 100% |
| LiqUtils.GetRoundDiff | liquidity_pool/src/liq_utils.rs:122-127 | the rounds elapsed since the stored round; an earlier current round is the error "Invalid round" |
| LiqUtils.GetBorrowIndexDiff | liquidity_pool/src/liq_utils.rs:129-142 | the growth of the borrow index since the given index; a larger given index is the error "Invalid borrow index" |
| LiqUtils.GetDebtInterest | liquidity_pool/src/liq_utils.rs:34-44 | the interest on an amount since its borrow index, at most amount × index growth / BP, 0 while the index has not moved |
| LiqUtils.Accrue | liquidity_pool/src/liq_utils.rs:144-156 | fails exactly on an earlier round or an undefined rate; the same round changes nothing; the indexes and rewards never fall, the round is stamped, and nothing else changes |
| LiqUtils.AccrueIdempotent | liquidity_pool/src/liq_utils.rs:144-156 | accruing twice in the same round is the same as once |
| LiqUtils.AccrueRaisesDebtInterest | liquidity_pool/src/liq_utils.rs:144-156 | after accrual no borrow owes less interest than before |
| LiqUtils.Pool.constructor | liquidity_pool/src/liq_storage.rs:45-66 | a fresh pool holds its parameters and every other storage slot zero |
| LiqUtils.Pool.UpdateBorrowIndex | liquidity_pool/src/liq_utils.rs:74-87 | the borrow index grows by rate × rounds, nothing else changes |
| LiqUtils.Pool.UpdateSupplyIndex | liquidity_pool/src/liq_utils.rs:89-103 | the supply index grows by the rewards share of the supply; with nothing supplied nothing changes |
| LiqUtils.Pool.UpdateRewardsReserves | liquidity_pool/src/liq_utils.rs:105-114 | the rewards reserve grows by rate × borrowed × rounds / BP, which is returned; nothing else changes |
| LiqUtils.Pool.UpdateIndexLastUsed | liquidity_pool/src/liq_utils.rs:116-120 | the last-update round becomes the current round |
| LiqUtils.Pool.UpdateInterestIndexes | liquidity_pool/src/liq_utils.rs:144-156 | fails exactly when accrual does, leaving the pool as it was; otherwise the pool takes the accrued state |
| LpUtils.PrepareIssueData | liquidity_pool/src/utils.rs:11-30 | the token ticker is prefix + ticker; the lend prefix gets the lend name and the lend slot's state, the borrow prefix the debt name and the borrow slot's; any other prefix an empty name |
| LpUtils.IssueDataDeterminesKind | liquidity_pool/src/utils.rs:11-30 | the name is non-empty exactly for the two prefixes, the ticker minus its prefix is the asset's ticker, and the two names differ |
| LpUtils.GetCapitalUtilisation | liquidity_pool/src/utils.rs:61-67 | defined exactly over a positive reserve, then the pool formula, at most 100% when no more is borrowed than the reserve |
| LpUtils.BorrowRateAt | liquidity_pool/src/utils.rs:52-58 | defined exactly where the curve is, and then at least the base rate |
| LpUtils.GetBorrowRateWith | liquidity_pool/src/utils.rs:43-59 | with a utilisation given, the curve at it; otherwise the curve at the pool's utilisation |
| LpUtils.GetBorrowRate | liquidity_pool/src/utils.rs:88-91 | a rate exists only over a positive reserve and is at least the base rate |
| LpUtils.GetDepositRate | liquidity_pool/src/utils.rs:78-86 | a rate exists exactly when the borrow rate does and the reserve factor is at most 100%; it never exceeds the borrow rate, and is 0 with nothing borrowed |
| LpUtils.GetDebtInterest | liquidity_pool/src/utils.rs:69-76 | the library interest over the time since the timestamp at the current rate; none for a future timestamp; 0 at the timestamp itself |
| LpContract.InitialStorage | liquidity_pool/src/lib.rs:61-67 | init stores owner, asset and lending pool; no reserve, no debt, no positions, the debt nonce starts at 1, both token slots read EGLD and reserve_data is unset |
| LpContract.GetCapitalUtilisation | liquidity_pool/src/lib.rs:428-436 | defined exactly over a positive reserve, then the pool formula |
| LpContract.GetBorrowRateWith | liquidity_pool/src/lib.rs:491-507 | no rate over an empty reserve; otherwise the rate under the given parameters for the given utilisation, matching utils.rs |
| LpContract.EagerBorrowRateAbortsOnEmptyReserve | liquidity_pool/src/lib.rs:496-498 | the rate helper panics on an empty reserve even when it is called with an explicit utilisation, where utils.rs answers |
| LpContract.GetBorrowRate | liquidity_pool/src/lib.rs:397-401 | aborts while reserve_data is unset; otherwise the rate at the pool's own reserve and debt |
| LpContract.GetDepositRate | liquidity_pool/src/lib.rs:403-414 | aborts while reserve_data is unset; otherwise the deposit rate at the pool's own reserve and debt |
| LpContract.GetDebt | liquidity_pool/src/lib.rs:416-426 | aborts while reserve_data is unset; otherwise the interest of a position: the library formula over the elapsed time at the pool's current rate |
| LpContract.RateViewsAbortWhileUnset | liquidity_pool/src/lib.rs:397-426 | with reserve_data unset, as it is from init on since no endpoint writes it, all three rate views abort, and the issue callback leaves it unset |
| LpContract.DepositAssetStep | liquidity_pool/src/lib.rs:69-113 | succeeds exactly for a positive amount of the pool asset from a non-zero caller; the reserve rises by the amount, no other reserve or position changes, and lend tokens are minted to the depositor one-for-one |
| LpContract.BorrowStep | liquidity_pool/src/lib.rs:115-194 | with the caller and amount guards met, succeeds exactly when the reserve covers the amount; then a new debt position under the next nonce, the total borrow up by the amount and borrow tokens minted |
| LpContract.BorrowOpensFreshPosition | liquidity_pool/src/lib.rs:143-147 | each borrow keeps the nonce invariant, uses a nonce no position has, and adds exactly that one position |
| LpContract.FirstBorrowUsesNonceOne | liquidity_pool/src/lib.rs:144-147 | the first borrow after init is recorded under nonce 1 |
| LpContract.AddCollateralWith | liquidity_pool/src/lib.rs:196-228 | succeeds exactly for a positive amount of the lend token from the lending pool; the reserve rises by the amount and the total becomes what the variant writes; nothing else changes |
| LpContract.AddCollateralAsWrittenLosesTotal | liquidity_pool/src/lib.rs:221-223 | as written, two additions leave only the second amount as the total collateral, short of the sum, while the reserve holds both |
| LpContract.AddCollateralStep | liquidity_pool/src/lib.rs:196-228 | succeeds exactly for the lending pool, a positive amount and the lend token; the lend reserve and the total collateral both grow by the amount, no other reserve changes |
| LpContract.AddCollateralKeepsTotal | liquidity_pool/src/lib.rs:214-225 | with the running total stored two additions sum, in the total and in the reserve |
| LpContract.WithdrawStep | liquidity_pool/src/lib.rs:230-267 | with the guards met, succeeds exactly when the reserve covers the amount; the reserve falls by it, the lend tokens are burned and the asset paid; positions unchanged |
| LpContract.DepositThenWithdrawRestoresReserve | liquidity_pool/src/lib.rs:249-264 | a deposit withdrawn at once succeeds and restores the reserve |
| LpContract.PrepareIssueData | liquidity_pool/src/lib.rs:462-481 | the token ticker is prefix + ticker; each prefix names its token and current slot; any other prefix an empty name and no slot |
| LpContract.IssueWith | liquidity_pool/src/lib.rs:269-315 | an issue that succeeds came from the owner with the exact cost and pool asset, for one of the two prefixes |
| LpContract.IssueAsWritten | liquidity_pool/src/lib.rs:294-297 | as written, every issue is refused |
| LpContract.IssueStep | liquidity_pool/src/lib.rs:269-315 | with the intended slot test, succeeds exactly for the owner paying the exact cost for the pool asset with a known prefix whose slot is unset, and sends the issue call with that prefix's name and ticker |
| LpContract.IssueCallbackStep | liquidity_pool/src/lib.rs:317-343 | success stores the token in the prefix's slot; failure records the message and refunds a returned EGLD payment to the owner |
| LpContract.NoSecondLendToken | liquidity_pool/src/lib.rs:326-329 | once the lend token is stored a second lend issue is refused |
| LpContract.Pool.Init | liquidity_pool/src/lib.rs:61-67 | the new pool holds the initial storage |
| LpContract.Pool.IncrementDebtNonce | liquidity_pool/src/lib.rs:483-485 | the debt nonce becomes one more than the current one, nothing else changes |
| LpContract.Pool.DepositAsset | liquidity_pool/src/lib.rs:69-113 | deposit commits exactly its step |
| LpContract.Pool.Borrow | liquidity_pool/src/lib.rs:115-194 | borrow commits exactly its step |
| LpContract.Pool.AddCollateral | liquidity_pool/src/lib.rs:196-228 | add collateral commits exactly its (running-total) step |
| LpContract.Pool.Withdraw | liquidity_pool/src/lib.rs:230-267 | withdraw commits exactly its step |
| LpContract.Pool.IssueCallback | liquidity_pool/src/lib.rs:317-343 | the callback takes exactly its step |
| LpTokens.IssueStep | liquidity_pool/src/tokens.rs:27-67 | owner only, pool asset only, valid prefix only, slot empty only; then the issue call for the prefix's token |
| LpTokens.IssueCallbackStep | liquidity_pool/src/tokens.rs:114-138 | success fills the prefix's slot and tells the owner; failure refunds the payment |
| LpTokens.SetRolesStep | liquidity_pool/src/tokens.rs:87-96 | owner only, once the token exists; then the role request |
| LpTokens.SetLendTokenRoles | liquidity_pool/src/tokens.rs:69-76 | roles are requested for the lend token exactly when the owner asks and it is issued |
| LpTokens.SetBorrowTokenRoles | liquidity_pool/src/tokens.rs:78-85 | as for the lend token, for the borrow token |
| LpTokens.IssueThenCallback | liquidity_pool/src/tokens.rs:114-129 | issue plus success fills exactly the prefix's slot, blocks a second issue and enables its roles |
| LpTokens.FailedIssueMayBeRetried | liquidity_pool/src/tokens.rs:130-136 | after a failed issue the same issue is accepted again |
| LpTokens.Tokens.SendCallbackResult | liquidity_pool/src/tokens.rs:140-145 | the owner is sent the new token id, nothing else changes |
| LpTokens.Tokens.IssueCallback | liquidity_pool/src/tokens.rs:114-138 | the callback takes exactly its step |
| Liquidity.DepositAssetStep | liquidity_pool/src/liquidity.rs:24-57 | owner only, pool asset only; the reserve rises by the amount, others unchanged, and a lend token of a new nonce stamped with the time goes to the depositor |
| Liquidity.BorrowQuote | liquidity_pool/src/liquidity.rs:75-86 | defined exactly for a non-zero pool price and decimals count; the borrowable amount is the older formula, and the amount added to the borrowed total never exceeds it |
| Liquidity.BorrowAsWritten | liquidity_pool/src/liquidity.rs:89-92 | as written, every borrow is refused or aborts |
| Liquidity.BorrowStep | liquidity_pool/src/liquidity.rs:59-121 | with the intended reserve test: a priced, positive borrow from the owner succeeds exactly when the reserve covers the quote; it leaves the reserve short by the quote, adds to the borrowed total, records the debt metadata and mints borrow tokens for the collateral; other reserves, the positions and the deposit stamps are unchanged |
| Liquidity.WithdrawStep | liquidity_pool/src/liquidity.rs:123-159 | only the lend token; a nonce without a deposit timestamp fails to decode; succeeds exactly when the pool-asset reserve covers the payout, which is at least the amount; the reserve falls by the payout, the tokens are burned and the payout is sent; nothing else in the storage changes |
| Liquidity.RepayStep | liquidity_pool/src/liquidity.rs:161-249 | two transfers, borrow token then pool asset, must cover the amount plus its interest; the excess is refunded, the borrow tokens burned, and the position shrinks by the amount or goes |
| Liquidity.RepayClosesExactlyOnFullRepay | liquidity_pool/src/liq_utils.rs:158-165 | a successful repay closes the position exactly when it is a full repay (the repaid borrow tokens equal the position's amount); otherwise the position keeps the rest |
| Liquidity.LiquidateStep | liquidity_pool/src/liquidity.rs:251-299 | owner only, a positive payment of the asset equal to an open unhealthy position's size plus interest; the position is marked liquidated; a liquidated one is refused |
| Liquidity.LiquidateOnce | liquidity_pool/src/liquidity.rs:272-275 | a liquidated position cannot be liquidated again |
| Liquidity.NoRepayAfterLiquidate | liquidity_pool/src/liquidity.rs:205-210 | a liquidated position cannot be repaid |
| Liquidity.Pool.MintPositionTokens | liquidity_pool/src/tokens.rs:98-112 | a new nonce of the token is created with the amount, and returned |
| Liquidity.Pool.DepositAsset | liquidity_pool/src/liquidity.rs:24-57 | deposit commits exactly its step |
| Liquidity.Pool.Borrow | liquidity_pool/src/liquidity.rs:59-121 | borrow commits exactly its step |
| Liquidity.Pool.Withdraw | liquidity_pool/src/liquidity.rs:123-159 | withdraw commits exactly its step |
| Liquidity.Pool.Repay | liquidity_pool/src/liquidity.rs:161-249 | repay commits exactly its step and returns its output |
| Liquidity.Pool.Liquidate | liquidity_pool/src/liquidity.rs:251-299 | liquidate commits exactly its step |
| LiquidityPool.DepositAssetStep | liquidity_pool/src/liquidity_pool.rs:9-51 | lending pool only, pool asset only; the reserve rises by the amount, others unchanged, and a lend token stamped with the time goes to the depositor; nothing else in the storage changes |
| LiquidityPool.BorrowStep | liquidity_pool/src/liquidity_pool.rs:54-128 | with the guards met, succeeds exactly when the reserve covers the amount; then a debt position under the next hash, the total borrow up, borrow tokens minted; repay positions, records, config and lend-token data are unchanged |
| LiquidityPool.BorrowOpensFreshPosition | liquidity_pool/src/liquidity_pool.rs:116-125 | a borrow keeps the hash invariant and adds exactly one open position of the amount under a fresh hash |
| LiquidityPool.LockBTokensStep | liquidity_pool/src/liquidity_pool.rs:131-199 | only the borrow token of an open position with readable attributes; a repay position with its data is stored under its hash |
| LiquidityPool.ApplyRepayment | liquidity_pool/src/liquidity_pool.rs:253-259 | the repay position goes when amount plus interest is exactly the payment, shrinks when more is locked than paid, and otherwise stays |
| LiquidityPool.RepayStep | liquidity_pool/src/liquidity_pool.rs:202-274 | lending pool only, a positive payment of the asset against a stored repay position of an open position, at most its amount; the position is updated by the repayment rule |
| LiquidityPool.RepayRemovesOnlyInterestFree | liquidity_pool/src/liquidity_pool.rs:224-259 | a repay position is removed only when it accrued no interest; paying its exact amount on a loan with interest leaves it as it was |
| LiquidityPool.WithdrawStep | liquidity_pool/src/liquidity_pool.rs:277-335 | only the lend token of a recorded deposit; pays deposit plus interest at the deposit rate, the reserve falls by the burned amount only; apart from the two recorded amounts nothing else changes, positions and total borrow included |
| LiquidityPool.LiquidateStep | liquidity_pool/src/liquidity_pool.rs:338-387 | lending pool only, a positive payment of the asset equal to an open unhealthy position's size plus interest; with the caller and payment guards met, it succeeds exactly when the position is open, unhealthy and paid in full with interest; the position is marked liquidated; a liquidated one is refused |
| LiquidityPool.LiquidationIsFinal | liquidity_pool/src/liquidity_pool.rs:360-363 | a liquidated position can be neither liquidated again nor locked for repayment |
| LiquidityPool.LiquidateKeepsValid | liquidity_pool/src/liquidity_pool.rs:376-379 | liquidation keeps every position under a hash of a used nonce |
| LiquidityPool.Pool.GetNftHash | liquidity_pool/src/utils.rs:32-37 | the hash of the current debt nonce, which is then advanced |
| LiquidityPool.Pool.DepositAsset | liquidity_pool/src/liquidity_pool.rs:9-51 | deposit commits exactly its step |
| LiquidityPool.Pool.Borrow | liquidity_pool/src/liquidity_pool.rs:54-128 | borrow commits exactly its step |
| LiquidityPool.Pool.LockBTokens | liquidity_pool/src/liquidity_pool.rs:131-199 | lock commits exactly its step |
| LiquidityPool.Pool.Repay | liquidity_pool/src/liquidity_pool.rs:202-274 | repay commits exactly its step |
| LiquidityPool.Pool.Withdraw | liquidity_pool/src/liquidity_pool.rs:277-335 | withdraw commits exactly its step |
| LiquidityPool.Pool.Liquidate | liquidity_pool/src/liquidity_pool.rs:338-387 | liquidate commits exactly its step |
| LendingRouter.CreateLiquidityPoolStep | lending_pool/src/router.rs:18-52 | succeeds exactly for the owner, a new ESDT asset and a non-zero deployed address, which is recorded and allowed |
| LendingRouter.UpgradeLiquidityPool | lending_pool/src/router.rs:54-88 | succeeds exactly for the owner, an existing pool and a successful upgrade, naming that pool |
| LendingRouter.ForwardTarget | lending_pool/src/router.rs:90-202 | owner only; the forwarded call goes to the asset's pool, or to the zero address when there is none |
| LendingRouter.SetAssetLoanToValueStep | lending_pool/src/router.rs:204-208 | owner only; the asset's loan-to-value is stored, nothing else changes |
| LendingRouter.SetAssetLiquidationBonusStep | lending_pool/src/router.rs:210-214 | owner only; the asset's liquidation bonus is stored, nothing else changes |
| LendingRouter.SetTickerAfterIssueStep | lending_pool/src/router.rs:216-227 | only an allowed pool and a valid identifier; the token maps to the calling pool, and the invariant is kept |
| LendingRouter.GetPoolAddress | lending_pool/src/router.rs:229-234 | the pool of an asset, zero when none |
| LendingRouter.GetPoolAddressNonZero | lending_pool/src/router.rs:236-245 | the pool of an asset, an error exactly when none |
| LendingRouter.GetLiquidationBonusNonZero | lending_pool/src/router.rs:247-252 | the stored bonus, an error exactly when it is unset or zero |
| LendingRouter.GetLoanToValueExistsAndNonZero | lending_pool/src/router.rs:254-267 | the stored loan-to-value, the "no loan_to_value" error exactly when it is unset or zero |
| LendingRouter.CreatedPoolIsFound | lending_pool/src/router.rs:18-52 | a created pool is found by its asset and allowed, a second creation is refused, and other assets keep their pools |
| LendingRouter.LastWriteWins | lending_pool/src/router.rs:204-214 | a second write replaces the first, and a non-zero value is what the getter returns |
| LendingRouter.TickerMapsToCaller | lending_pool/src/router.rs:216-227 | after a pool reports its token, that token is looked up to that pool |
| LendingRouter.Router.CreateLiquidityPool | lending_pool/src/router.rs:18-52 | create commits exactly its step |
| LendingRouter.Router.SetAssetLoanToValue | lending_pool/src/router.rs:204-208 | the setter commits exactly its step |
| LendingRouter.Router.SetAssetLiquidationBonus | lending_pool/src/router.rs:210-214 | the setter commits exactly its step |
| LendingRouter.Router.SetTickerAfterIssue | lending_pool/src/router.rs:216-227 | the setter commits exactly its step |
| Router.CreateLiquidityPoolStep | router/src/lib.rs:21-42 | succeeds exactly for the owner and a new ESDT asset; a non-zero address is recorded, a zero one records nothing |
| Router.UpgradeLiquidityPool | router/src/lib.rs:44-68 | succeeds exactly for the owner, an existing pool and a successful upgrade |
| Router.GetPoolAddress | router/src/lib.rs:70-73 | the pool of an asset, zero when none |
| Router.CreateThenLookup | router/src/lib.rs:21-42 | a created pool is found by its asset and a second creation is refused; after a zero address the asset stays free |
| Router.PoolRouter.Init | router/src/lib.rs:16-19 | a fresh router knows no pools |
| Router.PoolRouter.CreateLiquidityPool | router/src/lib.rs:21-42 | create commits exactly its step |
| LiqPools.NewMetadata | lending_pool/src/liq_pools.rs:12-21 | new metadata carries the address and asset and no token ids |
| LiqPools.AddPoolStep | lending_pool/src/liq_pools.rs:36-42 | fresh metadata at the address and the asset mapped to it; the id maps unchanged |
| LiqPools.SetLendIdStep | lending_pool/src/liq_pools.rs:44-55 | only a known pool without a lend id; the id is stored and mapped back |
| LiqPools.SetBorrowIdStep | lending_pool/src/liq_pools.rs:57-68 | only a known pool without a borrow id; the id is stored and mapped back |
| LiqPools.Lookup | lending_pool/src/liq_pools.rs:74-102 | a reverse lookup finds metadata exactly when the id is mapped to a known address |
| LiqPools.GetPoolMetadataByAddress | lending_pool/src/liq_pools.rs:70-72 | metadata is found exactly for a known address |
| LiqPools.GetPoolMetadataByAssetId | lending_pool/src/liq_pools.rs:74-81 | found exactly when the asset has a recorded address and that address has metadata, which is returned |
| LiqPools.GetPoolMetadataByLendId | lending_pool/src/liq_pools.rs:83-90 | found exactly when the lend id has a recorded address and that address has metadata, which is returned |
| LiqPools.GetPoolMetadataByBorrowId | lending_pool/src/liq_pools.rs:92-102 | found exactly when the borrow id has a recorded address and that address has metadata, which is returned |
| LiqPools.AddPoolThenLookup | lending_pool/src/liq_pools.rs:36-42 | an added pool is found by its asset and by its address |
| LiqPools.IdsAreSetOnceAndFound | lending_pool/src/liq_pools.rs:44-68 | ids set after add_pool are found by their maps, cannot be set twice, and are cleared by re-adding |
| LiqPools.LiqPoolsModule.constructor | lending_pool/src/liq_pools.rs:104-124 | the module starts with every map empty |
| LiqPools.LiqPoolsModule.AddPool | lending_pool/src/liq_pools.rs:36-42 | add takes exactly its step |
| LiqPools.LiqPoolsModule.SetLendId | lending_pool/src/liq_pools.rs:44-55 | the setter commits exactly its step |
| LiqPools.LiqPoolsModule.SetBorrowId | lending_pool/src/liq_pools.rs:57-68 | the setter commits exactly its step |
| LendingUtils.GetTokenTicker | lending_pool/src/utils.rs:29-40 | defined exactly for identifiers of at least seven bytes: the identifier minus its dash-and-six-character suffix |
| LendingUtils.TickerOfValidIdentifier | lending_pool/src/utils.rs:29-40 | on a well-formed ESDT identifier the ticker is the three to ten upper-case characters before the dash |
| LendingUtils.GetTokenPriceData | lending_pool/src/utils.rs:18-27 | the oracle's price of the ticker in dollars, an error exactly when the ticker or the price is missing |
| LendingUtils.ValueOfErrPropagates | lending_pool/src/utils.rs:93-112 | a missing price in a prefix of the positions fails the whole valuation |
| LendingUtils.TokenValueWithinTotal | lending_pool/src/utils.rs:93-129 | when the total is priced, one token's value is priced too and at most the total |
| LendingUtils.OtherAccountsIgnored | lending_pool/src/utils.rs:114-129 | other accounts' positions do not count towards a total |
| LendingUtils.ValueOfAppend | lending_pool/src/utils.rs:114-129 | the value of two position lists is the sum of their values |
| LendingUtils.SumValue | lending_pool/src/utils.rs:93-145 | the loop's result is the valuation: the sum of amount × price over the account's positions, or the first missing price |
| LendingUtils.FindPosition | lending_pool/src/utils.rs:42-66 | the loop finds the first position of the account in the token |
| LendingUtils.FindFirstIsFirstMatch | lending_pool/src/utils.rs:42-66 | the position found is the one that matches with no earlier match, or none when none matches |
| LendingUtils.TakePosition | lending_pool/src/utils.rs:42-91 | an existing position of the account in the token is removed and returned; otherwise the set stays and a fresh zero position is returned |
| LendingUtils.TakeThenPutBack | lending_pool/src/utils.rs:42-91 | taking keeps the set unique, leaves the account no position in that token, keeps every other position, and putting it back restores the set |
| LendingUtils.PayoutKeepsOthers | lending_pool/src/utils.rs:147-190 | the liquidator payout never touches other accounts' positions |
| LendingUtils.PayoutTokensShrink | lending_pool/src/utils.rs:147-190 | after the payout the account holds no token it did not hold before |
| LendingUtils.PayoutKeepsUnique | lending_pool/src/utils.rs:147-190 | the payout keeps one position per account and token and never grows the set |
| LendingUtils.PayoutPaysInOrder | lending_pool/src/utils.rs:147-190 | each transfer goes to the liquidator in a token the account held, at most one per position, and every token but the last is used up |
| LendingUtils.PayoutStopsAtFirstSufficient | lending_pool/src/utils.rs:147-190 | once a position covers what is due, the positions after it make no difference |
| LendingUtils.LiquidatorStep | lending_pool/src/utils.rs:147-190 | the borrow set and other accounts are untouched, uniqueness is kept, effects are only appended, and every transfer is a held token sent to the liquidator |
| LendingUtils.LendingPositions.GetCollateralPositionForToken | lending_pool/src/utils.rs:42-66 | the deposit set and the result are exactly those of taking the position |
| LendingUtils.LendingPositions.GetBorrowPositionForToken | lending_pool/src/utils.rs:68-91 | the borrow set and the result are exactly those of taking the position |
| LendingUtils.LendingPositions.GetCollateralAvailableForToken | lending_pool/src/utils.rs:93-112 | the token's collateral value is the valuation of the deposit set |
| LendingUtils.LendingPositions.GetTotalCollateralAvailable | lending_pool/src/utils.rs:114-129 | the total collateral value is the valuation of the deposit set over every token |
| LendingUtils.LendingPositions.GetTotalBorrowedAmount | lending_pool/src/utils.rs:131-145 | the total borrowed value is the valuation of the borrow set |
| LendingUtils.LendingPositions.SendAmountInDollarsToLiquidator | lending_pool/src/utils.rs:147-190 | the endpoint commits exactly the liquidator step |
| LendingUtils.PayoutLoop | lending_pool/src/utils.rs:153-189 | the loop over the snapshot of the deposit set computes exactly the payout: the positions left and the transfers in order, or the first abort |
| PriceOracle.GetTokenTicker | price_oracle/src/lib.rs:42-50 | the prefix up to the first dash, with no dash in it |
| PriceOracle.TickerIsBeforeFirstSeparator | price_oracle/src/lib.rs:42-50 | the dash-free prefix that ends at a dash or at the end is the ticker |
| PriceOracle.TickerIsIdempotent | price_oracle/src/lib.rs:42-50 | an identifier without a dash is its own ticker, and a ticker is its own ticker |
| PriceOracle.TickerAgreesWithLendingPool | price_oracle/src/lib.rs:42-50 | on well-formed identifiers the oracle's and the lending pool's tickers agree |
| PriceOracle.SetAggregatorAddressStep | price_oracle/src/lib.rs:12-17 | owner only; the address is stored |
| PriceOracle.GetPriceForPair | price_oracle/src/lib.rs:19-40 | no price without an aggregator; otherwise the feed's price for the two tickers exactly when it has one |
| PriceOracle.SetAggregatorThenPrice | price_oracle/src/lib.rs:12-40 | after the owner sets a non-zero aggregator a pair is priced exactly when the feed knows its tickers; the zero address prices nothing |
| PriceOracle.Oracle.SetAggregatorAddress | price_oracle/src/lib.rs:12-17 | the setter commits exactly its step |
| SafetyModule.InitialStorage | safety_module/src/lib.rs:11-15 | init records the deployer as owner, the WEGLD token and the yearly rate; no pool, no deposit token, no deposits and no effects |
| SafetyModule.CalculateAmountForWithdrawal | safety_module/src/lib.rs:239-247 | a deposit is returned with at least its amount, exactly it after no time or at rate 0 |
| SafetyModule.WithdrawalIsMonotone | safety_module/src/lib.rs:239-247 | a larger deposit, longer time or higher rate never pays less |
| SafetyModule.OneYearPaysTheRate | safety_module/src/lib.rs:239-247 | a year pays exactly the yearly rate on whole units |
| SafetyModule.AddPoolStep | safety_module/src/lib.rs:17-23 | owner only; the pool of the token is registered |
| SafetyModule.RemovePoolStep | safety_module/src/lib.rs:25-31 | owner only; the pool of the token is forgotten |
| SafetyModule.FundStep | safety_module/src/lib.rs:33-64 | succeeds exactly for a positive WEGLD payment; a deposit token of those units stamped with the time goes to the recipient, or to the caller without one |
| SafetyModule.FundFromPool | safety_module/src/lib.rs:119-131 | only a positive amount is accepted |
| SafetyModule.TakeFundsStep | safety_module/src/lib.rs:133-154 | succeeds exactly for a positive amount asked by the pool registered for the token, which is paid; each failing guard has its own message |
| SafetyModule.WithdrawStep | safety_module/src/lib.rs:156-198 | only a positive payment of a recorded deposit token; pays the deposit plus its interest, at most the balance, and burns the token |
| SafetyModule.NftIssue | safety_module/src/lib.rs:66-93 | owner only, paying exactly the issue cost; then the issue call |
| SafetyModule.NftIssueCallbackStep | safety_module/src/lib.rs:95-117 | success stores the deposit token and clears the error; failure records the error and refunds the payment |
| SafetyModule.SetLocalRolesNftToken | safety_module/src/lib.rs:200-210 | owner only, once the deposit token exists; then the role request |
| SafetyModule.ChangeRolesCallbackStep | safety_module/src/lib.rs:212-222 | the last error is cleared on success or set to the failure message |
| SafetyModule.FundThenWithdraw | safety_module/src/lib.rs:33-198 | a deposit returned whole later pays back at least the deposit, limited by the balance |
| SafetyModule.OnlyRegisteredPoolTakesFunds | safety_module/src/lib.rs:133-154 | take funds is open exactly to the last pool registered for the token |
| SafetyModule.Module.Init | safety_module/src/lib.rs:11-15 | a fresh module holds the deployer, the WEGLD token and the rate, and nothing else |
| SafetyModule.Module.AddPool | safety_module/src/lib.rs:17-23 | the endpoint commits exactly its step |
| SafetyModule.Module.RemovePool | safety_module/src/lib.rs:25-31 | the endpoint commits exactly its step |
| SafetyModule.Module.Fund | safety_module/src/lib.rs:33-64 | the endpoint commits exactly its step |
| SafetyModule.Module.TakeFunds | safety_module/src/lib.rs:133-154 | the endpoint commits exactly its step |
| SafetyModule.Module.Withdraw | safety_module/src/lib.rs:156-198 | the endpoint commits exactly its step and returns the payout |
| SafetyModule.Module.NftIssueCallback | safety_module/src/lib.rs:95-117 | the callback takes exactly its step |
| SafetyModule.Module.ChangeRolesCallback | safety_module/src/lib.rs:212-222 | the callback takes exactly its step |
| ETokens.InitialStorage | etokens_handler/src/lib.rs:87-90 | init starts the failure counter at zero with nothing pending |
| ETokens.ETokenName | etokens_handler/src/lib.rs:110-111 | the eToken name is "IntBearing" followed by the ESDT's name |
| ETokens.ETokenTicker | etokens_handler/src/lib.rs:110-111 | the eToken ticker is "E" followed by the ESDT's name |
| ETokens.IssueEsdtTokenStep | etokens_handler/src/lib.rs:147-190 | the hash is marked as a pending issue and the issue call is sent |
| ETokens.IssueStep | etokens_handler/src/lib.rs:92-121 | owner only, paying exactly the issue cost; the ESDT becomes the latest and the eToken issue is pending |
| ETokens.IssueCallbackStep | etokens_handler/src/lib.rs:210-229 | success maps the latest ESDT to the received eToken; failure adds one to the counter modulo 256 and changes no mapping |
| ETokens.CallbackRawStep | etokens_handler/src/lib.rs:192-208 | only a pending operation is acted on, and then cleared; other hashes are left alone |
| ETokens.ExchangeStep | etokens_handler/src/lib.rs:123-145 | succeeds exactly for a supported ESDT; the payer gets as many eTokens |
| ETokens.IssueThenCallback | etokens_handler/src/lib.rs:92-229 | an issue and its successful callback make the ESDT exchangeable for its eToken |
| ETokens.FailedIssueIsCounted | etokens_handler/src/lib.rs:210-229 | a failed issue counts one failure and changes no mapping |
| ETokens.InterleavedIssuesMapTheLatest | etokens_handler/src/lib.rs:92-229 | when a second issue starts before the first callback, that callback maps the second ESDT |
| ETokens.Handler.Init | etokens_handler/src/lib.rs:87-90 | the new handler holds the initial storage |
| ETokens.Handler.IssueEsdtToken | etokens_handler/src/lib.rs:147-190 | the endpoint takes exactly its step and returns the call |
| ETokens.Handler.Issue | etokens_handler/src/lib.rs:92-121 | the endpoint commits exactly its step |
| ETokens.Handler.PerformEsdtIssueCallback | etokens_handler/src/lib.rs:210-229 | the callback takes exactly its step |
| ETokens.Handler.CallbackRaw | etokens_handler/src/lib.rs:192-208 | the callback takes exactly its step |
| ETokens.Handler.Exchange | etokens_handler/src/lib.rs:123-145 | the endpoint commits exactly its step |

## Left out

Excluded code:

- The JavaScript deployment snippets, the mock aggregator, the tests, the
  contract proxies, the pool factory's deployment mechanics and gas
  accounting are not part of this model.
- Multi-token transfers are modelled as a sequence of single payments.

Blockchain services:

- Keccak-256 is a symbolic hash of the fields it hashes. Collisions
  cannot happen in the model.
- Block timestamps and rounds are parameters of the endpoints.
- The results of deploy, upgrade and asynchronous calls are parameters.
- Concurrency between transactions is not modelled; every endpoint runs
  to completion.

Arithmetic:

- LpContract.Pool.IncrementDebtNonce: does not model the `u64` wrap of
  the debt nonce, because 2^64 borrows cannot happen.
- A `u64` subtraction that underflows (rounds, timestamps) is modelled
  as an abort; with block times and rounds that do not go back it does
  not arise for stored stamps.

Lending-pool utilities:

- `as_name` on a token identifier is taken as the identifier itself.
- The liquidator payout iterates over a snapshot of the set. The live
  iterator over a set that `swap_remove` edits in the same loop is not
  modelled; a snapshot visits each original element once.
- The payout's partial amount has no bound lemma beyond its definition.
- The decimals scaling in `liquidity.rs` borrow is kept as written: it
  divides by the decimals count, not by a power of ten.

Routers:

- The zero check on the loan-to-value in
  `lending_pool/src/router.rs:254-267` never fires. Storing a zero leaves
  the slot empty, so the earlier emptiness check refuses first. The model
  has only that first error.

Liquidity pool rates:

- The deposit rate and the debt interest are parameters of
  `Liquidity.WithdrawStep` and the repay path. The helper versions in
  `liquidity_pool/src/utils.rs` and `liq_utils.rs` take different
  arguments. Each is modelled on its own.

eToken handler and safety module:

- ETokens: the mint callback (`etokens_handler/src/lib.rs:231-237`) does
  nothing, and the model leaves the state unchanged for it.
- ETokens.IssueCallbackStep: the `u8` failure counter wraps modulo 256.
- SafetyModule: `convert_wegld` and `convert_to_wegld` have empty bodies.
  Funds from a pool are therefore not converted.
- SafetyModule.NftIssueCallbackStep: the refund goes to a `caller` that
  the source never defines. It is a parameter here.
- SafetyModule.FundStep: creating an NFT of a deposit token that was never
  issued is not refused, unlike the VM.
- LpContract.DepositAssetStep, LpContract.BorrowStep, Liquidity.DepositAssetStep,
  Liquidity.BorrowStep, LiquidityPool.DepositAssetStep, LiquidityPool.BorrowStep:
  the same holds for minting lend or borrow tokens. A token slot that still
  holds EGLD, because no issue has completed, is minted into like any other
  token. The VM aborts such an `esdt_nft_create` (`liquidity_pool/src/lib.rs:345-369`,
  `liquidity_pool/src/tokens.rs:98-112`); the model lets it succeed.

Identifiers that do not match their evident intent are read by intent:

- `mend_id` for the lend id;
- `borrow_amount` for the debt in `get_debt` (`liquidity_pool/src/lib.rs:425`);
- the `utilisation` argument used as the current utilisation
  (`liquidity_pool/src/lib.rs:505`);
- the aggregator setter's storage name (`price_oracle/src/lib.rs:15`);
- the lend-token test of withdraw in
  `liquidity_pool/src/liquidity_pool.rs:287-290`.

Results:

- The three-part result of `liquidity.rs` repay is the `RepayOutput`
  datatype.

## Findings

| source | as written | input that shows it | evidently intended | confidence | as-written member | corrected member |
|---|---|---|---|---|---|---|
| liquidity_pool/src/lib.rs:294-297 | issue refuses unless the prefixed ticker it built equals EGLD | any owner issue with prefix "L" on asset "WEGLD-abcdef": the ticker "LWEGLD" is never EGLD, so every issue is refused as already issued | refuse only when the prefix's stored token is already set | not executed | LpContract.IssueAsWritten | LpContract.IssueStep |
| liquidity_pool/src/liquidity.rs:89-92 | borrow requires reserve < borrowable, then subtracts borrowable from the reserve | reserve 100, borrowable 50 is refused; reserve 10, borrowable 50 passes and the subtraction underflows | require reserve ≥ borrowable | not executed | Liquidity.BorrowAsWritten | Liquidity.BorrowStep |
| liquidity_pool/src/lib.rs:221-223 | add collateral stores the new amount as the total collateral | two additions of 5 and 7 leave a total of 7 while the reserve grew by 12 | store the running total | not executed | LpContract.AddCollateralAsWrittenLosesTotal | LpContract.AddCollateralKeepsTotal |
