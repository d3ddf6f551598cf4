# Native token-lending instruction projector

This project models `process_native_token_lending_instruction`, the function of
the Solana transaction indexer that turns one instruction of the SPL
token-lending program into flat database records. The function first decodes
the instruction bytes into a `LendingInstruction`, a closed union of 14
variants. If decoding fails it yields nothing. If it succeeds, it yields one
`InstructionSet`, which holds:

- one `InstructionFunction` record, whose `function_name` is a fixed kebab-case
  name for the variant ("init-lending-market", …, "flash-loan");
- an ordered list of `InstructionProperty` records, one per reported payload
  field: every field except `InitReserve`'s `config.liquidation_bonus`. Each
  one carries a key, the field's value as text, and a parent key naming where
  the field sits in the payload. The only nesting is `InitReserve`'s
  `config` and `config.fees`.

Every record is stamped with the caller's transaction hash, instruction index,
parent index and timestamp.

Files:

- `wrappers.dfy`: `Option`, with the `:-` failure protocol.
- `integers.dfy`: the unsigned widths `u8` and `u64`, plus `i16`. Also:
  - `Decimal`, which models Rust's `to_string` on unsigned integers: canonical
    decimal, with no sign and no leading zeros.
  - `ParseDecimal`, `ParseU8` and `ParseU64`, strict parsers of that form.
  - The proofs that `ParseDecimal` and `Decimal` invert one another, and that
    `ParseU8` and `ParseU64` accept exactly the renderings of their values.
- `lending_instruction.dfy`: the decoded instruction. It has its 14 variants,
  `ReserveConfig` with nested `ReserveFees`, and `Pubkey` as 32 bytes.
- `records.dfy`: the output records, the caller's `Context`, and the
  (key, parent key) schema of a property list.
- `native_token_lending.dfy`: the projector and its properties.
- `read_back.dfy`: a reader that rebuilds the instruction from its records.
  The source has no such reader. It is the partner used to prove that the
  projection loses nothing except `liquidation_bonus`.

Modelling decisions:

- Externals:
  - The decoder `LendingInstruction::unpack` lives in the `spl_token_lending`
    crate.
  - `Pubkey::to_string` (base58) lives in `solana_sdk`.
  - Neither is part of this model. Both are parameters in `Externals`.
  - The read-back assumes only that some `keyOf` inverts `keyText`, as base58
    decoding inverts base58 encoding.
- The function record reads from a variable `instruction` that the source never
  declares.
  - This appears in every arm, for example `src/programs/native_token_lending.rs:31-36`.
  - The record also reads `instruction.program`, but the function has no program
    parameter (`src/programs/native_token_lending.rs:8-19`).
  - The model passes a `Context` holding the hash, instruction index, parent
    index, timestamp and program. The function record echoes it, just as the
    property records echo the parameters.
- The `RefreshObligation` arm reads a `collateral_amount` that the variant does
  not bind.
  - The variant is at `src/programs/native_token_lending.rs:262`; the read is at line 278.
  - The variant carries no payload, so the model emits no property records for it.
- `flash_loan_fee_wad` is reported with parent key "fees". Its two siblings in
  `config.fees` are reported with "config/fees"
  (`src/programs/native_token_lending.rs:112,121,130`). The model reproduces
  this as written.
- `InitReserve` emits ten property records, as the code lists them
  (`src/programs/native_token_lending.rs:96-187`).
- `ReserveConfig` has one more field, `liquidation_bonus`, which the projector
  never reports. The model keeps the field and proves that the output does not
  depend on it.
- The timestamp (`chrono::NaiveDateTime`) is an opaque value that is only copied.

## Model

| member | source | states |
|---|---|---|
| NativeTokenLending.Project | src/programs/native_token_lending.rs:19-428 | The result is absent exactly when the data does not decode. Otherwise it is the projection of the decoded instruction. |
| NativeTokenLending.ProjectInstruction | src/programs/native_token_lending.rs:24-423 | The function record echoes the context and carries the variant's fixed name. Every property record echoes the hash, instruction index, parent index and timestamp. The (key, parent key) list equals the variant's schema `KeySchema`, in order: 10 for `InitReserve`, with the "fees"/"config/fees"/"config" parents; `owner`, `quote_currency` for `InitLendingMarket`; `new_owner`; one `liquidity_amount`/`collateral_amount`/`amount` with parent "" for each single-amount variant; none for `RefreshReserve`, `InitObligation`, `RefreshObligation`. |
| NativeTokenLending.PropertiesEcho | src/programs/native_token_lending.rs:38-420 | Every property record of every variant carries the caller's transaction hash, instruction index, parent index and timestamp. |
| NativeTokenLending.PropertiesSchema | src/programs/native_token_lending.rs:24-423 | Each variant emits exactly the keys and parent keys of its schema, in the schema's order. |
| NativeTokenLending.KindOfName | src/programs/native_token_lending.rs:35-407 | A name maps back to the tag whose function name it is. Absence means no tag has that name. |
| NativeTokenLending.FunctionNamesDistinct | src/programs/native_token_lending.rs:35-407 | Two tags have the same function name if and only if they are the same tag, so the 14 names are pairwise distinct. |
| NativeTokenLending.NameRoundTrip | src/programs/native_token_lending.rs:35-407 | Reading a tag's function name back yields that tag. |
| NativeTokenLending.PropertyValuesRenderFields | src/programs/native_token_lending.rs:38-420 | In every variant, each emitted property's value is the rendering of the payload field its key names: decimal for integers, public-key text for keys. No value is swapped or taken from another field. Which fields appear is fixed by `KeySchema`. |
| NativeTokenLending.LiquidationBonusNeverReported | src/programs/native_token_lending.rs:96-187 | No property record of any instruction has the key `liquidation_bonus`. |
| NativeTokenLending.InitReserveRendersNamedFields | src/programs/native_token_lending.rs:96-187 | All ten `InitReserve` values render the `config` or `config.fees` field their key names. |
| NativeTokenLending.ReserveRendersFields | src/programs/native_token_lending.rs:102-183 | The i-th `InitReserve` property value renders the reserve field its key names. |
| NativeTokenLending.InitReserveIgnoresLiquidationBonus | src/programs/native_token_lending.rs:83-188 | Changing `liquidation_bonus` leaves the whole `InitReserve` output unchanged. |
| NativeTokenLending.FeesParentKeysDiffer | src/programs/native_token_lending.rs:106-131 | In `config.fees`, `flash_loan_fee_wad` has parent key "fees", while `borrow_fee_wad` and `host_fee_percentage` have "config/fees". |
| NativeTokenLending.DepositReserveLiquidityExample | src/programs/native_token_lending.rs:203-225 | A deposit of 500 projects to the complete function record "deposit-reserve-liquidity" and the single property ("liquidity_amount", "500", ""). |
| NativeTokenLending.RefreshReserveExample | src/programs/native_token_lending.rs:190-202 | `RefreshReserve` yields the function record "refresh-reserve" and no properties. |
| Integers.Decimal | src/programs/native_token_lending.rs:102 | Integer `to_string` yields a non-empty string of digits. It starts with '0' only for zero, and has one digit exactly below ten. |
| Integers.DecimalRoundTrip | src/programs/native_token_lending.rs:102 | Parsing the decimal rendering of n yields n. |
| Integers.ParseDecimalRoundTrip | src/programs/native_token_lending.rs:102 | Every text that parses is the decimal rendering of its value. |
| Integers.ParseU64RendersBack | src/programs/native_token_lending.rs:102 | Every text the `u64` parser accepts is the decimal rendering of the value it returns. |
| Integers.ParseU8RendersBack | src/programs/native_token_lending.rs:129 | Every text the `u8` parser accepts is the decimal rendering of the value it returns. |
| Integers.ParseU64OfDecimal | src/programs/native_token_lending.rs:102 | The decimal rendering of any `u64` parses back to it. |
| Integers.ParseU8OfDecimal | src/programs/native_token_lending.rs:129 | The decimal rendering of any `u8` parses back to it. |
| Integers.DecimalInjective | src/programs/native_token_lending.rs:111 | Distinct integers have distinct renderings. |
| ReadBack.ProjectionLossless | src/programs/native_token_lending.rs:24-423 | When public-key text can be read back, the records of any instruction read back to that instruction. `liquidation_bonus` is the one field supplied separately. |
| ReadBack.PayloadLossless | src/programs/native_token_lending.rs:38-420 | The property values of every variant read back to its payload. |
| ReadBack.ProjectionInjective | src/programs/native_token_lending.rs:24-423 | Two instructions that agree on `liquidation_bonus` and project to the same records are equal. |
| ReadBack.InitReserveValuesReadBack | src/programs/native_token_lending.rs:96-187 | Ten property values that render an `InitReserve` payload's fields read back to that payload. |
| ReadBack.InitReserveReadsBack | src/programs/native_token_lending.rs:83-188 | The `InitReserve` records read back to the instruction. |
| ReadBack.InitLendingMarketReadsBack | src/programs/native_token_lending.rs:25-59 | The owner and quote-currency key texts read back to both keys. |
| ReadBack.SetLendingMarketOwnerReadsBack | src/programs/native_token_lending.rs:60-82 | The new-owner key text reads back to the key. |
| ReadBack.DepositReserveLiquidityReadsBack | src/programs/native_token_lending.rs:203-225 | The `liquidity_amount` text reads back to the amount. |
| ReadBack.RedeemReserveCollateralReadsBack | src/programs/native_token_lending.rs:226-248 | The `collateral_amount` text reads back to the amount. |
| ReadBack.DepositObligationCollateralReadsBack | src/programs/native_token_lending.rs:285-307 | The `collateral_amount` text reads back to the amount. |
| ReadBack.WithdrawObligationCollateralReadsBack | src/programs/native_token_lending.rs:308-330 | The `collateral_amount` text reads back to the amount. |
| ReadBack.BorrowObligationLiquidityReadsBack | src/programs/native_token_lending.rs:331-353 | The `liquidity_amount` text reads back to the amount. |
| ReadBack.RepayObligationLiquidityReadsBack | src/programs/native_token_lending.rs:354-376 | The `liquidity_amount` text reads back to the amount. |
| ReadBack.LiquidateObligationReadsBack | src/programs/native_token_lending.rs:377-399 | The `liquidity_amount` text reads back to the amount. |
| ReadBack.FlashLoanReadsBack | src/programs/native_token_lending.rs:400-422 | The `amount` text reads back to the amount. |

## Left out

- The wire format of `LendingInstruction::unpack` lives in the external `spl_token_lending` crate. That crate is not part of this model, so the decoder is a parameter.
- Base58 rendering of public keys (`Pubkey::to_string`, `Pubkey::new_from_array`) lives in `solana_sdk`, which is not part of this model. It is a parameter. The read-back only assumes that it is invertible.
- The `tracing::error!` log line on a decode failure (`src/programs/native_token_lending.rs:426-427`) is a side effect and is not modelled. The result is still `None`.
- `async` is left out: nothing is awaited.
- `chrono::NaiveDateTime` is an opaque pair of seconds and nanoseconds that is only copied.
- `ReadBack.ProjectionLossless`: `liquidation_bonus` is not recovered from the records, because the projector never emits it. The caller supplies it.
- `NativeTokenLending.ProjectInstruction`: for `RefreshObligation` it emits no property records. The source reads an unbound `collateral_amount` in that arm, which gives no behaviour to follow.
