/**
 * The decoded lending instruction: the closed union of the fourteen operations
 * of the SPL token-lending program, with the reserve configuration that
 * `InitReserve` carries. These are the types the source receives from
 * `LendingInstruction::unpack`; their wire format is not part of this model.
 */
module LendingInstruction {
  import opened Integers

  /** A fixed 32-byte array, as `quote_currency` is. */
  type Bytes32 = s: seq<u8> | |s| == 32 witness seq(32, i => 0)

  /** A public key; `Pubkey::new_from_array` is the constructor. */
  datatype Pubkey = Pubkey(bytes: Bytes32)

  datatype ReserveFees = ReserveFees(
    borrowFeeWad: u64,
    flashLoanFeeWad: u64,
    hostFeePercentage: u8)

  datatype ReserveConfig = ReserveConfig(
    optimalUtilizationRate: u8,
    loanToValueRatio: u8,
    liquidationBonus: u8,
    liquidationThreshold: u8,
    minBorrowRate: u8,
    optimalBorrowRate: u8,
    maxBorrowRate: u8,
    fees: ReserveFees)

  datatype LendingInstruction =
    | InitLendingMarket(owner: Pubkey, quoteCurrency: Bytes32)
    | SetLendingMarketOwner(newOwner: Pubkey)
    | InitReserve(liquidityAmount: u64, config: ReserveConfig)
    | RefreshReserve
    | DepositReserveLiquidity(liquidityAmount: u64)
    | RedeemReserveCollateral(collateralAmount: u64)
    | InitObligation
    | RefreshObligation
    | DepositObligationCollateral(collateralAmount: u64)
    | WithdrawObligationCollateral(collateralAmount: u64)
    | BorrowObligationLiquidity(liquidityAmount: u64)
    | RepayObligationLiquidity(liquidityAmount: u64)
    | LiquidateObligation(liquidityAmount: u64)
    | FlashLoan(amount: u64)

  /** The tag of a lending instruction, without its payload. */
  datatype InstructionKind =
    | InitLendingMarketKind
    | SetLendingMarketOwnerKind
    | InitReserveKind
    | RefreshReserveKind
    | DepositReserveLiquidityKind
    | RedeemReserveCollateralKind
    | InitObligationKind
    | RefreshObligationKind
    | DepositObligationCollateralKind
    | WithdrawObligationCollateralKind
    | BorrowObligationLiquidityKind
    | RepayObligationLiquidityKind
    | LiquidateObligationKind
    | FlashLoanKind

  function KindOf(ins: LendingInstruction): InstructionKind {
    match ins
    case InitLendingMarket(_, _) => InitLendingMarketKind
    case SetLendingMarketOwner(_) => SetLendingMarketOwnerKind
    case InitReserve(_, _) => InitReserveKind
    case RefreshReserve => RefreshReserveKind
    case DepositReserveLiquidity(_) => DepositReserveLiquidityKind
    case RedeemReserveCollateral(_) => RedeemReserveCollateralKind
    case InitObligation => InitObligationKind
    case RefreshObligation => RefreshObligationKind
    case DepositObligationCollateral(_) => DepositObligationCollateralKind
    case WithdrawObligationCollateral(_) => WithdrawObligationCollateralKind
    case BorrowObligationLiquidity(_) => BorrowObligationLiquidityKind
    case RepayObligationLiquidity(_) => RepayObligationLiquidityKind
    case LiquidateObligation(_) => LiquidateObligationKind
    case FlashLoan(_) => FlashLoanKind
  }
}
