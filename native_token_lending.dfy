/**
 * The projector of `process_native_token_lending_instruction`: it decodes the
 * instruction data and maps the decoded lending instruction to one function
 * record and an ordered list of property records, every one stamped with the
 * caller's context.
 */
module NativeTokenLending {
  import opened Wrappers
  import opened Integers
  import opened LendingInstruction
  import opened Records

  /**
   * The collaborators the projector calls but does not define:
   * `LendingInstruction::unpack` and the public-key text of `Pubkey::to_string`.
   */
  datatype Externals = Externals(
    unpack: seq<u8> -> Option<LendingInstruction>,
    keyText: Pubkey -> string)

  /** The fixed operation name of each instruction tag. */
  function FunctionName(kind: InstructionKind): (name: string)
  {
    match kind
    case InitLendingMarketKind => "init-lending-market"
    case SetLendingMarketOwnerKind => "set-lending-market-owner"
    case InitReserveKind => "init-reserve"
    case RefreshReserveKind => "refresh-reserve"
    case DepositReserveLiquidityKind => "deposit-reserve-liquidity"
    case RedeemReserveCollateralKind => "redeem-reserve-collateral"
    case InitObligationKind => "init-obligation"
    case RefreshObligationKind => "refresh-obligation"
    case DepositObligationCollateralKind => "deposit-obligation-collateral"
    case WithdrawObligationCollateralKind => "withdraw-obligation-collateral"
    case BorrowObligationLiquidityKind => "borrow-obligation-liquidity"
    case RepayObligationLiquidityKind => "repay-obligation-liquidity"
    case LiquidateObligationKind => "liquidate-obligation"
    case FlashLoanKind => "flash-loan"
  }

  /** The tag an operation name belongs to, if any: the inverse of `FunctionName`. */
  function KindOfName(name: string): (r: Option<InstructionKind>)
    ensures r.Some? ==> FunctionName(r.value) == name
    ensures r.None? ==> forall kind :: FunctionName(kind) != name
  {
    if name == "init-lending-market" then Some(InitLendingMarketKind)
    else if name == "set-lending-market-owner" then Some(SetLendingMarketOwnerKind)
    else if name == "init-reserve" then Some(InitReserveKind)
    else if name == "refresh-reserve" then Some(RefreshReserveKind)
    else if name == "deposit-reserve-liquidity" then Some(DepositReserveLiquidityKind)
    else if name == "redeem-reserve-collateral" then Some(RedeemReserveCollateralKind)
    else if name == "init-obligation" then Some(InitObligationKind)
    else if name == "refresh-obligation" then Some(RefreshObligationKind)
    else if name == "deposit-obligation-collateral" then Some(DepositObligationCollateralKind)
    else if name == "withdraw-obligation-collateral" then Some(WithdrawObligationCollateralKind)
    else if name == "borrow-obligation-liquidity" then Some(BorrowObligationLiquidityKind)
    else if name == "repay-obligation-liquidity" then Some(RepayObligationLiquidityKind)
    else if name == "liquidate-obligation" then Some(LiquidateObligationKind)
    else if name == "flash-loan" then Some(FlashLoanKind)
    else None
  }

  /** The fourteen operation names are pairwise distinct. */
  lemma FunctionNamesDistinct(a: InstructionKind, b: InstructionKind)
    ensures FunctionName(a) == FunctionName(b) <==> a == b
  {
    match a
    case InitLendingMarketKind =>
    case SetLendingMarketOwnerKind =>
    case InitReserveKind =>
    case RefreshReserveKind =>
    case DepositReserveLiquidityKind =>
    case RedeemReserveCollateralKind =>
    case InitObligationKind =>
    case RefreshObligationKind =>
    case DepositObligationCollateralKind =>
    case WithdrawObligationCollateralKind =>
    case BorrowObligationLiquidityKind =>
    case RepayObligationLiquidityKind =>
    case LiquidateObligationKind =>
    case FlashLoanKind =>
  }

  /** Every tag's name reads back as that tag, and as no other. */
  lemma NameRoundTrip(kind: InstructionKind)
    ensures KindOfName(FunctionName(kind)) == Some(kind)
  {
    var r := KindOfName(FunctionName(kind));
    assert r.Some?;
    FunctionNamesDistinct(r.value, kind);
  }

  /**
   * The (key, parent_key) pairs each tag emits, in order. `flash_loan_fee_wad`
   * sits under "fees" while the other two fee fields sit under "config/fees":
   * that is how the source writes it.
   */
  function KeySchema(kind: InstructionKind): seq<(string, string)> {
    match kind
    case InitLendingMarketKind => [("owner", ""), ("quote_currency", "")]
    case SetLendingMarketOwnerKind => [("new_owner", "")]
    case InitReserveKind =>
      [ ("liquidity_amount", ""),
        ("flash_loan_fee_wad", "fees"),
        ("borrow_fee_wad", "config/fees"),
        ("host_fee_percentage", "config/fees"),
        ("liquidation_threshold", "config"),
        ("loan_to_value_ratio", "config"),
        ("max_borrow_rate", "config"),
        ("min_borrow_rate", "config"),
        ("optimal_borrow_rate", "config"),
        ("optimal_utilization_rate", "config") ]
    case RefreshReserveKind => []
    case DepositReserveLiquidityKind => [("liquidity_amount", "")]
    case RedeemReserveCollateralKind => [("collateral_amount", "")]
    case InitObligationKind => []
    case RefreshObligationKind => []
    case DepositObligationCollateralKind => [("collateral_amount", "")]
    case WithdrawObligationCollateralKind => [("collateral_amount", "")]
    case BorrowObligationLiquidityKind => [("liquidity_amount", "")]
    case RepayObligationLiquidityKind => [("liquidity_amount", "")]
    case LiquidateObligationKind => [("liquidity_amount", "")]
    case FlashLoanKind => [("amount", "")]
  }

  /** A payload field of a decoded instruction: a number or a public key. */
  datatype FieldValue = Number(n: nat) | Key(k: Pubkey)

  /** The field of an `InitReserve` payload a key names: its amount or one of its configuration's. */
  function ReserveField(liquidityAmount: u64, c: ReserveConfig, key: string): Option<FieldValue> {
    if key == "liquidity_amount" then Some(Number(liquidityAmount))
    else if key == "flash_loan_fee_wad" then Some(Number(c.fees.flashLoanFeeWad))
    else if key == "borrow_fee_wad" then Some(Number(c.fees.borrowFeeWad))
    else if key == "host_fee_percentage" then Some(Number(c.fees.hostFeePercentage))
    else if key == "liquidation_threshold" then Some(Number(c.liquidationThreshold))
    else if key == "loan_to_value_ratio" then Some(Number(c.loanToValueRatio))
    else if key == "max_borrow_rate" then Some(Number(c.maxBorrowRate))
    else if key == "min_borrow_rate" then Some(Number(c.minBorrowRate))
    else if key == "optimal_borrow_rate" then Some(Number(c.optimalBorrowRate))
    else if key == "optimal_utilization_rate" then Some(Number(c.optimalUtilizationRate))
    else if key == "liquidation_bonus" then Some(Number(c.liquidationBonus))
    else None
  }

  /** The payload field a property key names, looked up by name in the decoded instruction. */
  function FieldNamed(ins: LendingInstruction, key: string): Option<FieldValue> {
    match ins
    case InitLendingMarket(owner, quoteCurrency) =>
      if key == "owner" then Some(Key(owner))
      else if key == "quote_currency" then Some(Key(Pubkey(quoteCurrency)))
      else None
    case SetLendingMarketOwner(newOwner) =>
      if key == "new_owner" then Some(Key(newOwner)) else None
    case InitReserve(liquidityAmount, c) => ReserveField(liquidityAmount, c, key)
    case DepositReserveLiquidity(liquidityAmount) =>
      if key == "liquidity_amount" then Some(Number(liquidityAmount)) else None
    case RedeemReserveCollateral(collateralAmount) =>
      if key == "collateral_amount" then Some(Number(collateralAmount)) else None
    case DepositObligationCollateral(collateralAmount) =>
      if key == "collateral_amount" then Some(Number(collateralAmount)) else None
    case WithdrawObligationCollateral(collateralAmount) =>
      if key == "collateral_amount" then Some(Number(collateralAmount)) else None
    case BorrowObligationLiquidity(liquidityAmount) =>
      if key == "liquidity_amount" then Some(Number(liquidityAmount)) else None
    case RepayObligationLiquidity(liquidityAmount) =>
      if key == "liquidity_amount" then Some(Number(liquidityAmount)) else None
    case LiquidateObligation(liquidityAmount) =>
      if key == "liquidity_amount" then Some(Number(liquidityAmount)) else None
    case FlashLoan(amount) =>
      if key == "amount" then Some(Number(amount)) else None
    case _ => None
  }

  /** How the source renders a field: `to_string` on integers and on public keys. */
  function Render(ext: Externals, v: FieldValue): string {
    match v
    case Number(n) => Decimal(n)
    case Key(k) => ext.keyText(k)
  }

  /** One property record stamped with the caller's context. */
  function Property(ctx: Context, key: string, value: string, parentKey: string): InstructionProperty {
    InstructionProperty(ctx.instructionIndex, ctx.transactionHash, ctx.parentIndex, key, value, parentKey, ctx.timestamp)
  }

  /** The ten property records of `InitReserve`: its amount, then its configuration. */
  function ReserveProperties(ctx: Context, liquidityAmount: u64, config: ReserveConfig): seq<InstructionProperty> {
    [ Property(ctx, "liquidity_amount", Decimal(liquidityAmount), ""),
      Property(ctx, "flash_loan_fee_wad", Decimal(config.fees.flashLoanFeeWad), "fees"),
      Property(ctx, "borrow_fee_wad", Decimal(config.fees.borrowFeeWad), "config/fees"),
      Property(ctx, "host_fee_percentage", Decimal(config.fees.hostFeePercentage), "config/fees"),
      Property(ctx, "liquidation_threshold", Decimal(config.liquidationThreshold), "config"),
      Property(ctx, "loan_to_value_ratio", Decimal(config.loanToValueRatio), "config"),
      Property(ctx, "max_borrow_rate", Decimal(config.maxBorrowRate), "config"),
      Property(ctx, "min_borrow_rate", Decimal(config.minBorrowRate), "config"),
      Property(ctx, "optimal_borrow_rate", Decimal(config.optimalBorrowRate), "config"),
      Property(ctx, "optimal_utilization_rate", Decimal(config.optimalUtilizationRate), "config") ]
  }

  /** The property records of each arm of the match, in the order the source lists them. */
  function Properties(ext: Externals, ctx: Context, ins: LendingInstruction): seq<InstructionProperty> {
    match ins
    case InitLendingMarket(owner, quoteCurrency) =>
      [ Property(ctx, "owner", ext.keyText(owner), ""),
        Property(ctx, "quote_currency", ext.keyText(Pubkey(quoteCurrency)), "") ]
    case SetLendingMarketOwner(newOwner) =>
      [ Property(ctx, "new_owner", ext.keyText(newOwner), "") ]
    case InitReserve(liquidityAmount, config) => ReserveProperties(ctx, liquidityAmount, config)
    case RefreshReserve => []
    case DepositReserveLiquidity(liquidityAmount) =>
      [ Property(ctx, "liquidity_amount", Decimal(liquidityAmount), "") ]
    case RedeemReserveCollateral(collateralAmount) =>
      [ Property(ctx, "collateral_amount", Decimal(collateralAmount), "") ]
    case InitObligation => []
    // The source's arm reads a `collateral_amount` this variant does not bind.
    case RefreshObligation => []
    case DepositObligationCollateral(collateralAmount) =>
      [ Property(ctx, "collateral_amount", Decimal(collateralAmount), "") ]
    case WithdrawObligationCollateral(collateralAmount) =>
      [ Property(ctx, "collateral_amount", Decimal(collateralAmount), "") ]
    case BorrowObligationLiquidity(liquidityAmount) =>
      [ Property(ctx, "liquidity_amount", Decimal(liquidityAmount), "") ]
    case RepayObligationLiquidity(liquidityAmount) =>
      [ Property(ctx, "liquidity_amount", Decimal(liquidityAmount), "") ]
    case LiquidateObligation(liquidityAmount) =>
      [ Property(ctx, "liquidity_amount", Decimal(liquidityAmount), "") ]
    case FlashLoan(amount) =>
      [ Property(ctx, "amount", Decimal(amount), "") ]
  }

  /**
   * The instruction set of one decoded instruction: a function record named
   * after its tag and the property records of its payload, all echoing the
   * caller's context.
   */
  function ProjectInstruction(ext: Externals, ctx: Context, ins: LendingInstruction): (s: InstructionSet)
    ensures FunctionEchoes(s.func, ctx)
    ensures s.func.functionName == FunctionName(KindOf(ins))
    ensures forall i :: 0 <= i < |s.properties| ==> PropertyEchoes(s.properties[i], ctx)
    ensures Schema(s.properties) == KeySchema(KindOf(ins))
  {
    var f := InstructionFunction(
      ctx.instructionIndex, ctx.transactionHash, ctx.parentIndex, ctx.program,
      FunctionName(KindOf(ins)), ctx.timestamp);
    PropertiesSchema(ext, ctx, ins);
    PropertiesEcho(ext, ctx, ins);
    InstructionSet(f, Properties(ext, ctx, ins))
  }

  /** Each arm emits exactly the keys and parent keys its tag's schema lists, in that order. */
  lemma PropertiesSchema(ext: Externals, ctx: Context, ins: LendingInstruction)
    ensures Schema(Properties(ext, ctx, ins)) == KeySchema(KindOf(ins))
  {
  }

  /** Every property record carries the caller's hash, indices and timestamp. */
  lemma PropertiesEcho(ext: Externals, ctx: Context, ins: LendingInstruction)
    ensures forall i :: 0 <= i < |Properties(ext, ctx, ins)| ==> PropertyEchoes(Properties(ext, ctx, ins)[i], ctx)
  {
  }

  /**
   * `process_native_token_lending_instruction`: no result exactly when the
   * data does not decode, otherwise the projection of what it decodes to.
   */
  function Project(ext: Externals, ctx: Context, data: seq<u8>): (r: Option<InstructionSet>)
    ensures r.None? <==> ext.unpack(data).None?
    ensures r.Some? ==> r.value == ProjectInstruction(ext, ctx, ext.unpack(data).value)
  {
    match ext.unpack(data)
    case None => None
    case Some(ins) => Some(ProjectInstruction(ext, ctx, ins))
  }

  /** The property values of `ps` render the payload fields of `ins` that their keys name. */
  predicate RendersNamedFields(ext: Externals, ins: LendingInstruction, ps: seq<InstructionProperty>, from: nat, to: nat)
    requires from <= to <= |ps|
  {
    forall i :: from <= i < to ==>
      FieldNamed(ins, ps[i].key).Some? && ps[i].value == Render(ext, FieldNamed(ins, ps[i].key).value)
  }

  /** Each `InitReserve` property value renders the reserve field its key names. */
  lemma ReserveRendersFields(ext: Externals, ctx: Context, amount: u64, c: ReserveConfig, i: nat)
    requires i < 10
    ensures var p := ReserveProperties(ctx, amount, c)[i];
      ReserveField(amount, c, p.key).Some? && p.value == Render(ext, ReserveField(amount, c, p.key).value)
  {
  }

  /** All ten `InitReserve` property values render the fields their keys name. */
  lemma InitReserveRendersNamedFields(ext: Externals, ctx: Context, amount: u64, config: ReserveConfig)
    ensures var ps := Properties(ext, ctx, InitReserve(amount, config));
      |ps| == 10 && RendersNamedFields(ext, InitReserve(amount, config), ps, 0, 10)
  {
    var ps := ReserveProperties(ctx, amount, config);
    forall i | 0 <= i < 10
      ensures ReserveField(amount, config, ps[i].key).Some?
      ensures ps[i].value == Render(ext, ReserveField(amount, config, ps[i].key).value)
    {
      ReserveRendersFields(ext, ctx, amount, config, i);
    }
  }

  /**
   * Each property's value is the rendering of the payload field its key names:
   * no value is swapped or taken from another field. Which fields appear is
   * fixed by `KeySchema`, and `liquidation_bonus` never does.
   */
  lemma PropertyValuesRenderFields(ext: Externals, ctx: Context, ins: LendingInstruction)
    ensures var ps := ProjectInstruction(ext, ctx, ins).properties;
      RendersNamedFields(ext, ins, ps, 0, |ps|)
  {
    assert ProjectInstruction(ext, ctx, ins).properties == Properties(ext, ctx, ins);
    match ins
    case InitReserve(amount, config) => InitReserveRendersNamedFields(ext, ctx, amount, config);
    case _ =>
  }

  /** `InitReserve` never reports `liquidation_bonus`: changing it changes nothing in the output. */
  lemma InitReserveIgnoresLiquidationBonus(ext: Externals, ctx: Context, amount: u64, config: ReserveConfig, bonus: u8)
    ensures ProjectInstruction(ext, ctx, InitReserve(amount, config))
         == ProjectInstruction(ext, ctx, InitReserve(amount, config.(liquidationBonus := bonus)))
  {
  }

  /** No property record of any instruction has the key `liquidation_bonus`. */
  lemma LiquidationBonusNeverReported(ext: Externals, ctx: Context, ins: LendingInstruction)
    ensures forall p :: p in ProjectInstruction(ext, ctx, ins).properties ==> p.key != "liquidation_bonus"
  {
    var ps := ProjectInstruction(ext, ctx, ins).properties;
    forall p | p in ps
      ensures p.key != "liquidation_bonus"
    {
      var i :| 0 <= i < |ps| && ps[i] == p;
      assert Schema(ps)[i].0 == p.key;
      assert KeySchema(KindOf(ins))[i].0 == p.key;
    }
  }

  /**
   * The three fields of `config.fees` are not reported under one path:
   * `flash_loan_fee_wad` gets "fees", its two siblings "config/fees".
   */
  lemma FeesParentKeysDiffer(ext: Externals, ctx: Context, amount: u64, config: ReserveConfig)
    ensures var ps := Properties(ext, ctx, InitReserve(amount, config));
      && |ps| == 10
      && ps[1].key == "flash_loan_fee_wad" && ps[1].parentKey == "fees"
      && ps[2].key == "borrow_fee_wad" && ps[2].parentKey == "config/fees"
      && ps[3].key == "host_fee_percentage" && ps[3].parentKey == "config/fees"
  {
  }

  /** A deposit of 500 in transaction "TX1", instruction 2, with no parent instruction. */
  lemma DepositReserveLiquidityExample(ext: Externals, data: seq<u8>, t: Timestamp, program: string)
    requires ext.unpack(data) == Some(DepositReserveLiquidity(500))
    ensures Project(ext, Context("TX1", 2, -1, t, program), data)
      == Some(InstructionSet(
        InstructionFunction(2, "TX1", -1, program, "deposit-reserve-liquidity", t),
        [InstructionProperty(2, "TX1", -1, "liquidity_amount", "500", "", t)]))
  {
    assert Decimal(500) == "500" by {
      assert Decimal(5) == "5";
      assert Decimal(50) == "50";
    }
  }

  /** `RefreshReserve` yields its function record and no property records. */
  lemma RefreshReserveExample(ext: Externals, data: seq<u8>, ctx: Context)
    requires ext.unpack(data) == Some(RefreshReserve)
    ensures Project(ext, ctx, data).Some?
    ensures Project(ext, ctx, data).value.func.functionName == "refresh-reserve"
    ensures Project(ext, ctx, data).value.properties == []
  {
  }
}
