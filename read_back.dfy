/**
 * Reading an instruction set back into the lending instruction it describes.
 * The source has no such reader; it is the partner that shows the projection
 * keeps everything it is meant to keep: the tag in the function name, each
 * field's value in decimal or public-key text, each field's place in the
 * configuration in its key and parent key.
 */
module ReadBack {
  import opened Wrappers
  import opened Integers
  import opened LendingInstruction
  import opened Records
  import opened NativeTokenLending

  /** The public-key text can be read back: `keyOf` inverts `keyText`, as base58 does. */
  ghost predicate KeyTextInvertible(ext: Externals, keyOf: string -> Option<Pubkey>) {
    forall k :: keyOf(ext.keyText(k)) == Some(k)
  }

  /**
   * The lending instruction an instruction set describes. `liquidationBonus`
   * supplies the one configuration field the projection does not report.
   */
  function Recover(keyOf: string -> Option<Pubkey>, s: InstructionSet, liquidationBonus: u8): Option<LendingInstruction> {
    var kind :- KindOfName(s.func.functionName);
    if Schema(s.properties) != KeySchema(kind) then None
    else RecoverPayload(keyOf, kind, s.properties, liquidationBonus)
  }

  /** The payload of an instruction with tag `kind`, read from its property values. */
  function RecoverPayload(keyOf: string -> Option<Pubkey>, kind: InstructionKind, ps: seq<InstructionProperty>, liquidationBonus: u8): Option<LendingInstruction>
    requires |ps| == |KeySchema(kind)|
  {
      match kind
      case InitLendingMarketKind =>
        var owner :- keyOf(ps[0].value);
        var quote :- keyOf(ps[1].value);
        Some(InitLendingMarket(owner, quote.bytes))
      case SetLendingMarketOwnerKind =>
        var newOwner :- keyOf(ps[0].value);
        Some(SetLendingMarketOwner(newOwner))
      case InitReserveKind => RecoverInitReserve(ps, liquidationBonus)
      case RefreshReserveKind => Some(RefreshReserve)
      case DepositReserveLiquidityKind =>
        var amount :- ParseU64(ps[0].value);
        Some(DepositReserveLiquidity(amount))
      case RedeemReserveCollateralKind =>
        var amount :- ParseU64(ps[0].value);
        Some(RedeemReserveCollateral(amount))
      case InitObligationKind => Some(InitObligation)
      case RefreshObligationKind => Some(RefreshObligation)
      case DepositObligationCollateralKind =>
        var amount :- ParseU64(ps[0].value);
        Some(DepositObligationCollateral(amount))
      case WithdrawObligationCollateralKind =>
        var amount :- ParseU64(ps[0].value);
        Some(WithdrawObligationCollateral(amount))
      case BorrowObligationLiquidityKind =>
        var amount :- ParseU64(ps[0].value);
        Some(BorrowObligationLiquidity(amount))
      case RepayObligationLiquidityKind =>
        var amount :- ParseU64(ps[0].value);
        Some(RepayObligationLiquidity(amount))
      case LiquidateObligationKind =>
        var amount :- ParseU64(ps[0].value);
        Some(LiquidateObligation(amount))
      case FlashLoanKind =>
        var amount :- ParseU64(ps[0].value);
        Some(FlashLoan(amount))
  }

  /** The ten `InitReserve` properties, in the order `KeySchema` fixes, read back. */
  function RecoverInitReserve(ps: seq<InstructionProperty>, liquidationBonus: u8): Option<LendingInstruction>
    requires |ps| == 10
  {
    var liquidityAmount :- ParseU64(ps[0].value);
    var flashLoanFeeWad :- ParseU64(ps[1].value);
    var borrowFeeWad :- ParseU64(ps[2].value);
    var hostFeePercentage :- ParseU8(ps[3].value);
    var liquidationThreshold :- ParseU8(ps[4].value);
    var loanToValueRatio :- ParseU8(ps[5].value);
    var maxBorrowRate :- ParseU8(ps[6].value);
    var minBorrowRate :- ParseU8(ps[7].value);
    var optimalBorrowRate :- ParseU8(ps[8].value);
    var optimalUtilizationRate :- ParseU8(ps[9].value);
    var fees := ReserveFees(borrowFeeWad, flashLoanFeeWad, hostFeePercentage);
    Some(InitReserve(liquidityAmount, ReserveConfig(
      optimalUtilizationRate, loanToValueRatio, liquidationBonus, liquidationThreshold,
      minBorrowRate, optimalBorrowRate, maxBorrowRate, fees)))
  }

  /** The configuration field the projection leaves out, zero for every other tag. */
  function LiquidationBonusOf(ins: LendingInstruction): u8 {
    if ins.InitReserve? then ins.config.liquidationBonus else 0
  }

  /** The payload read back from the projected properties of `ins`. */
  ghost predicate PayloadReadsBack(ext: Externals, keyOf: string -> Option<Pubkey>, ctx: Context, ins: LendingInstruction) {
    var ps := Properties(ext, ctx, ins);
    |ps| == |KeySchema(KindOf(ins))| && RecoverPayload(keyOf, KindOf(ins), ps, LiquidationBonusOf(ins)) == Some(ins)
  }

  // One lemma per arm of the projection: each payload reads back from its
  // own property values.

  lemma InitLendingMarketReadsBack(ext: Externals, keyOf: string -> Option<Pubkey>, ctx: Context, owner: Pubkey, quoteCurrency: Bytes32)
    requires KeyTextInvertible(ext, keyOf)
    ensures PayloadReadsBack(ext, keyOf, ctx, InitLendingMarket(owner, quoteCurrency))
  {
  }

  lemma SetLendingMarketOwnerReadsBack(ext: Externals, keyOf: string -> Option<Pubkey>, ctx: Context, newOwner: Pubkey)
    requires KeyTextInvertible(ext, keyOf)
    ensures PayloadReadsBack(ext, keyOf, ctx, SetLendingMarketOwner(newOwner))
  {
  }

  /** Ten property values that render the fields of `amount` and `c` read back as them. */
  lemma InitReserveValuesReadBack(ps: seq<InstructionProperty>, amount: u64, c: ReserveConfig)
    requires |ps| == 10
    requires ps[0].value == Decimal(amount)
    requires ps[1].value == Decimal(c.fees.flashLoanFeeWad)
    requires ps[2].value == Decimal(c.fees.borrowFeeWad)
    requires ps[3].value == Decimal(c.fees.hostFeePercentage)
    requires ps[4].value == Decimal(c.liquidationThreshold)
    requires ps[5].value == Decimal(c.loanToValueRatio)
    requires ps[6].value == Decimal(c.maxBorrowRate)
    requires ps[7].value == Decimal(c.minBorrowRate)
    requires ps[8].value == Decimal(c.optimalBorrowRate)
    requires ps[9].value == Decimal(c.optimalUtilizationRate)
    ensures RecoverInitReserve(ps, c.liquidationBonus) == Some(InitReserve(amount, c))
  {
    ParseU64OfDecimal(amount);
    ParseU64OfDecimal(c.fees.flashLoanFeeWad);
    ParseU64OfDecimal(c.fees.borrowFeeWad);
    ParseU8OfDecimal(c.fees.hostFeePercentage);
    ParseU8OfDecimal(c.liquidationThreshold);
    ParseU8OfDecimal(c.loanToValueRatio);
    ParseU8OfDecimal(c.maxBorrowRate);
    ParseU8OfDecimal(c.minBorrowRate);
    ParseU8OfDecimal(c.optimalBorrowRate);
    ParseU8OfDecimal(c.optimalUtilizationRate);
  }

  lemma InitReserveReadsBack(ext: Externals, keyOf: string -> Option<Pubkey>, ctx: Context, amount: u64, c: ReserveConfig)
    ensures PayloadReadsBack(ext, keyOf, ctx, InitReserve(amount, c))
  {
    var ps := ReserveProperties(ctx, amount, c);
    InitReserveValuesReadBack(ps, amount, c);
    assert Properties(ext, ctx, InitReserve(amount, c)) == ps;
  }

  lemma DepositReserveLiquidityReadsBack(ext: Externals, keyOf: string -> Option<Pubkey>, ctx: Context, amount: u64)
    ensures PayloadReadsBack(ext, keyOf, ctx, DepositReserveLiquidity(amount))
  {
    ParseU64OfDecimal(amount);
  }

  lemma RedeemReserveCollateralReadsBack(ext: Externals, keyOf: string -> Option<Pubkey>, ctx: Context, amount: u64)
    ensures PayloadReadsBack(ext, keyOf, ctx, RedeemReserveCollateral(amount))
  {
    ParseU64OfDecimal(amount);
  }

  lemma DepositObligationCollateralReadsBack(ext: Externals, keyOf: string -> Option<Pubkey>, ctx: Context, amount: u64)
    ensures PayloadReadsBack(ext, keyOf, ctx, DepositObligationCollateral(amount))
  {
    ParseU64OfDecimal(amount);
  }

  lemma WithdrawObligationCollateralReadsBack(ext: Externals, keyOf: string -> Option<Pubkey>, ctx: Context, amount: u64)
    ensures PayloadReadsBack(ext, keyOf, ctx, WithdrawObligationCollateral(amount))
  {
    ParseU64OfDecimal(amount);
  }

  lemma BorrowObligationLiquidityReadsBack(ext: Externals, keyOf: string -> Option<Pubkey>, ctx: Context, amount: u64)
    ensures PayloadReadsBack(ext, keyOf, ctx, BorrowObligationLiquidity(amount))
  {
    ParseU64OfDecimal(amount);
  }

  lemma RepayObligationLiquidityReadsBack(ext: Externals, keyOf: string -> Option<Pubkey>, ctx: Context, amount: u64)
    ensures PayloadReadsBack(ext, keyOf, ctx, RepayObligationLiquidity(amount))
  {
    ParseU64OfDecimal(amount);
  }

  lemma LiquidateObligationReadsBack(ext: Externals, keyOf: string -> Option<Pubkey>, ctx: Context, amount: u64)
    ensures PayloadReadsBack(ext, keyOf, ctx, LiquidateObligation(amount))
  {
    ParseU64OfDecimal(amount);
  }

  lemma FlashLoanReadsBack(ext: Externals, keyOf: string -> Option<Pubkey>, ctx: Context, amount: u64)
    ensures PayloadReadsBack(ext, keyOf, ctx, FlashLoan(amount))
  {
    ParseU64OfDecimal(amount);
  }

  /** Every payload reads back from the property values the projection gives it. */
  lemma {:induction false} PayloadLossless(ext: Externals, keyOf: string -> Option<Pubkey>, ctx: Context, ins: LendingInstruction)
    requires KeyTextInvertible(ext, keyOf)
    ensures PayloadReadsBack(ext, keyOf, ctx, ins)
  {
    match ins
    case InitLendingMarket(owner, quoteCurrency) => InitLendingMarketReadsBack(ext, keyOf, ctx, owner, quoteCurrency);
    case SetLendingMarketOwner(newOwner) => SetLendingMarketOwnerReadsBack(ext, keyOf, ctx, newOwner);
    case InitReserve(amount, c) => InitReserveReadsBack(ext, keyOf, ctx, amount, c);
    case RefreshReserve =>
    case DepositReserveLiquidity(amount) => DepositReserveLiquidityReadsBack(ext, keyOf, ctx, amount);
    case RedeemReserveCollateral(amount) => RedeemReserveCollateralReadsBack(ext, keyOf, ctx, amount);
    case InitObligation =>
    case RefreshObligation =>
    case DepositObligationCollateral(amount) => DepositObligationCollateralReadsBack(ext, keyOf, ctx, amount);
    case WithdrawObligationCollateral(amount) => WithdrawObligationCollateralReadsBack(ext, keyOf, ctx, amount);
    case BorrowObligationLiquidity(amount) => BorrowObligationLiquidityReadsBack(ext, keyOf, ctx, amount);
    case RepayObligationLiquidity(amount) => RepayObligationLiquidityReadsBack(ext, keyOf, ctx, amount);
    case LiquidateObligation(amount) => LiquidateObligationReadsBack(ext, keyOf, ctx, amount);
    case FlashLoan(amount) => FlashLoanReadsBack(ext, keyOf, ctx, amount);
  }

  /**
   * The projection is lossless apart from `liquidation_bonus`: reading back
   * any projected instruction gives that instruction.
   */
  lemma {:induction false} ProjectionLossless(ext: Externals, keyOf: string -> Option<Pubkey>, ctx: Context, ins: LendingInstruction)
    requires KeyTextInvertible(ext, keyOf)
    ensures Recover(keyOf, ProjectInstruction(ext, ctx, ins), LiquidationBonusOf(ins)) == Some(ins)
  {
    NameRoundTrip(KindOf(ins));
    PayloadLossless(ext, keyOf, ctx, ins);
  }

  /**
   * Decoded instructions that agree on `liquidation_bonus` and project to the
   * same records are the same instruction.
   */
  lemma ProjectionInjective(ext: Externals, keyOf: string -> Option<Pubkey>, ctx: Context, a: LendingInstruction, b: LendingInstruction)
    requires KeyTextInvertible(ext, keyOf)
    requires LiquidationBonusOf(a) == LiquidationBonusOf(b)
    ensures ProjectInstruction(ext, ctx, a) == ProjectInstruction(ext, ctx, b) ==> a == b
  {
    ProjectionLossless(ext, keyOf, ctx, a);
    ProjectionLossless(ext, keyOf, ctx, b);
  }
}
