/** The records the liquidity pool keeps in storage and in the attributes of
    its position tokens (liquidity_pool/src/models.rs). */
module LpModels {
  import opened Common

  /** A loan: its size, the health factor recorded when it was opened,
      whether it was liquidated, when it was opened, and the collateral
      backing it. */
  datatype DebtPosition = DebtPosition(
    size: nat,
    healthFactor: nat,
    isLiquidated: bool,
    timestamp: nat,
    collateralAmount: nat,
    collateralIdentifier: TokenId)

  /** What a missing debt position reads as. */
  const DEFAULT_POSITION: DebtPosition := DebtPosition(0, 0, false, 0, 0, EGLD)

  /** The attributes of a borrow-token nonce. */
  datatype DebtMetadata = DebtMetadata(
    timestamp: nat,
    collateralAmount: nat,
    collateralIdentifier: TokenId,
    collateralTimestamp: nat)

  /** Borrow tokens locked for a repayment: the token, its amount and nonce,
      and the loan's data copied from the token's attributes. */
  datatype RepayPosition = RepayPosition(
    identifier: TokenId,
    amount: nat,
    nonce: nat,
    borrowTimestamp: nat,
    collateralIdentifier: TokenId,
    collateralAmount: nat,
    collateralTimestamp: nat)

  /** What liquidate hands back: the collateral token and the loan size. */
  datatype LiquidateData = LiquidateData(collateralToken: TokenId, amount: nat)

  /** The name and ticker to issue a position token under, and whether the
      slot it would fill is still empty. */
  datatype IssueData = IssueData(name: string, ticker: TokenId, isEmptyTicker: bool)
}
