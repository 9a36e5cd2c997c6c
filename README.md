# Pump.fun dual-venue swap engine — a Dafny model

This project models the swap-construction core of a trading bot for the
pump.fun token launchpad on Solana. A token first trades on its **bonding
curve**. Once the curve completes, it trades on a **PumpSwap** AMM pool.
The engine does five things:

- it decides which venue a mint trades on, and remembers that per mint;
- for PumpSwap, it scans the program's accounts for pools of the mint, decodes their two on-chain layouts, scores them and picks the best, caching the pool it found;
- it sizes the trade from reserves, with slippage bounds truncated to integer lamports and base units;
- it assembles the exact instruction list for each venue: compute-budget instructions, associated-token-account creation, wrapped-SOL transfer and sync, the swap instruction with its account list and little-endian payload, and closing the wrapped-SOL or token account;
- it confirms the sent transaction with a bounded number of polls.

The configuration object is modelled too: dotted-key lookup and the start-up validation.

Modules, one per source file:

| file | module | source |
|---|---|---|
| `solana.dfy` | `Solana` | shared vocabulary: bytes, u64 packing, `int()` truncation, symbolic addresses, instructions |
| `pool_utils.dfy` | `PoolUtils` | `utils/pool_utils.py` |
| `pump_swap.dfy` | `PumpSwap` | `model/pump_fun/pump_swap/pump_swap.py` |
| `pump_fun.dfy` | `PumpFun` | `model/pump_fun/bonding_curve/pump_fun.py` |
| `unified_pump_fun.dfy` | `UnifiedPumpFun` | `model/pump_fun/unified_pump_fun.py` |
| `common_utils.dfy` | `CommonUtils` | `utils/common_utils.py` (`confirm_txn`) |
| `config.dfy` | `Configuration` | `config.py` (`get`, `_validate_config`) |

How the model stands in for things it cannot see:

- **Addresses.** An address is symbolic: `Key(bytes)` is a literal key, `Named(k)` is a key read from configuration entry `k`, `Pda(seeds, program)` is a program-derived address, and `Ata(owner, mint)` is an associated token account. Derivation is therefore collision-free by construction.
- **Floats.** Python floats are exact reals. `int()` is `Trunc`, which rounds toward zero. `float("inf")` is `Price.Infinite`.
- **Exceptions.** An exception a flow can raise is a `Result` failure. Its kind is named: `ZeroDivisionError`, `struct.error`, `KeyError`, `UnboundLocalError`, a non-finite float reaching `int()`, or `OverflowError` when a compute-budget or transfer instruction gets an integer outside the u32 or u64 range it takes.
- **RPC reads.** What the network reads return is a parameter: the account set that already exists, the token balance, the coin data, the program-account scan, the reserves, the poll answers, and the curve's quote function.
- **Flows and their specifications.** Each flow that builds a list step by step is a method. The method is proved equal to a specification function, such as `BuyOutcome` or `SellBondingCurveOutcome`, and the lemmas state the properties of that function.
- **Caches.** The two façade caches are map fields of the classes `PumpSwapStrategy` and `UnifiedPumpFun`.

Behaviour of the code a reader may not expect (the model follows the code):

- `utils/pool_utils.py:63` multiplies by `1 + slippage_pct` without dividing by 100. A 10 % slippage therefore allows eleven times the SOL (`SlippageIsAFactorNotAPercentage`).
- The buy sizing does not fail on an empty base reserve. The price is infinite and the base amount is 0. An empty quote reserve with a non-empty base reserve raises `ZeroDivisionError` (`ConvertSolToBaseTokens`).
- The pool score doubles the SOL side only when both reserves are positive (`utils/pool_utils.py:220-224`).
- The best pool is returned even when every score is ≤ 0. The selection is the first maximum in scan order, which is what the stable descending sort puts first.
- On the AMM venue, an empty base reserve makes the sell raise rather than return a bound ≤ 0 (`SellRaisesOnEmptyBaseReserve`). An empty quote reserve skips the sale (`SellStopsOnEmptyQuoteReserve`).
- The PumpSwap sell does not check that the percentage lies in 1..100. Only the bonding-curve sell does.
- A confirmation timeout and an on-chain failure both return False. A failure found on the last allowed request makes as many requests as a timeout, so the two cannot be told apart in that case.
- The compute-unit budget of the PumpSwap flows is read from `solana.unit_compute_budget` (`utils/pool_utils.py:33`). The validator checks `solana.unit_budget`. The model takes the budget as the setting `unitComputeBudget`, and a budget of 0 raises `ZeroDivisionError`.

## Model

| member | source | states |
|---|---|---|
| Solana.PackU64 | model/pump_fun/pump_swap/pump_swap.py:280-281 | `struct.pack("<Q", n)` succeeds exactly when 0 ≤ n < 2^64 and then gives 8 bytes |
| Solana.PackU64Decodes | model/pump_fun/pump_swap/pump_swap.py:280-281 | the packed bytes read back little-endian as n |
| Solana.SwapData | model/pump_fun/pump_swap/pump_swap.py:278-281 | the swap payload exists exactly when both amounts fit in a u64 |
| Solana.SwapDataEncodes | model/pump_fun/pump_swap/pump_swap.py:278-281 | the payload is the discriminator followed by the two amounts, each as 8 little-endian bytes |
| Solana.LittleEndianRoundTrip | utils/pool_utils.py:199 | a number below 256^w written as w little-endian bytes reads back as itself |
| Solana.FromLittleEndianRoundTrip | utils/pool_utils.py:75-97 | reading `Int16ul`/`Int64ul` bytes and writing them back gives the same bytes |
| Solana.TruncBounds | utils/pool_utils.py:61-64 | `int()` truncates toward zero: within 1 below a non-negative value and within 1 above a negative one |
| Solana.TruncMonotonic | utils/pool_utils.py:64 | truncation preserves order |
| PoolUtils.GetPrice | utils/pool_utils.py:37-40 | the price is infinite exactly when the base reserve is ≤ 0; otherwise price × base reserve = quote reserve |
| PoolUtils.ConvertSolToBaseTokens | utils/pool_utils.py:52-65 | raises ZeroDivisionError exactly for a positive base and empty quote reserve; the SOL bound is `int(sol × (1 + slippage) × lamports)`; an empty base reserve buys 0 units |
| PoolUtils.BuySizingInvertsPrice | utils/pool_utils.py:59-61 | spending price × x SOL buys `int(x × 10^decimals)` base units: sizing inverts the price |
| PoolUtils.MaxQuoteInMonotonic | utils/pool_utils.py:63-64 | more SOL never lowers the lamport bound |
| PoolUtils.SlippageIsAFactorNotAPercentage | utils/pool_utils.py:63 | slippage 10 on 1 SOL allows 11 SOL, as written |
| PoolUtils.ComputeUnitPriceFromTotalFee | utils/pool_utils.py:67-73 | raises ZeroDivisionError exactly when the unit count is 0 |
| PoolUtils.ComputeUnitPriceBounds | utils/pool_utils.py:71-73 | the micro-lamport price is the floor of fee × 10^6 / units: price × units ≤ fee × 10^6 < (price + 1) × units |
| PoolUtils.ComputeUnitPriceMonotonic | utils/pool_utils.py:71-73 | a larger fee never gives a lower unit price |
| PoolUtils.NegativeFeeGivesNegativePrice | utils/pool_utils.py:67-73 | a fee below zero by at least one micro-lamport per unit gives a negative unit price |
| PoolUtils.EncodeLayout | utils/pool_utils.py:75-97 | an encoded pool state is 235 bytes with a coin creator and 203 bytes without |
| PoolUtils.ParseLayout | utils/pool_utils.py:75-97 | parsing succeeds exactly on a body at least as long as the layout; the coin creator is present exactly in the current layout; the parsed state re-encodes to the bytes read |
| PoolUtils.ParseReencodes | utils/pool_utils.py:75-97 | the fields read at their offsets re-encode to the layout's prefix of the body |
| PoolUtils.DecodeEncodedLayout | utils/pool_utils.py:75-97 | parsing an encoded state gives the state back |
| PoolUtils.DecodePoolAccount | utils/pool_utils.py:272-283 | an account decodes exactly when 8 + 203 bytes are present; it is current exactly from 8 + 235 bytes; a coin creator is present exactly for current pools; the base mint is the bytes at offset 43 filtered on |
| PoolUtils.CurrentLayoutRoundTrip | utils/pool_utils.py:275-277 | tag + current encoding + any trailing bytes decodes to the state as a current pool |
| PoolUtils.LegacyLayoutRoundTrip | utils/pool_utils.py:278-281 | tag + legacy encoding + fewer than 32 trailing bytes decodes to the state as a legacy pool |
| PoolUtils.TruncatedCurrentDecodesAsLegacy | utils/pool_utils.py:275-281 | a current pool cut to the legacy length decodes as legacy, without its coin creator |
| PoolUtils.ParseSeesPrefixOnly | utils/pool_utils.py:276 | bytes after the layout do not change what is parsed |
| PoolUtils.DerivePoolAddressPumpSwap | utils/pool_utils.py:195-204 | the pool address exists exactly for a 2-byte index and is the PDA of "pool", the index in 2 little-endian bytes, creator, base and quote mints |
| PoolUtils.DeriveCreatorVault | utils/pool_utils.py:44-50 | the vault authority is the PDA of "creator_vault" and the creator; the vault is its token account for the quote mint |
| PoolUtils.ConvertPoolKeys | utils/pool_utils.py:99-121 | the keys carry a coin creator exactly for a current pool, and carry the mints and pool token accounts of the state |
| PoolUtils.MatchingCandidatesExactly | utils/pool_utils.py:266-301 | a candidate is listed exactly when some scanned account yields it, and every candidate has the searched base mint |
| PoolUtils.ScanAccount | utils/pool_utils.py:267-301 | one scan step keeps an account exactly when it decodes and its base mint is the searched one, under the account's own address |
| PoolUtils.FindPoolsByMint | utils/pool_utils.py:236-306 | the candidates are the matching accounts in response order, and "found" holds exactly when there is one |
| PoolUtils.CalculatePoolScore | utils/pool_utils.py:209-230 | the score is positive exactly when the pool holds SOL, zero exactly when it holds none, and between the SOL and 2.2 times it |
| PoolUtils.ScoreIncreasesWithLiquidity | utils/pool_utils.py:209-230 | with both reserves positive and the same layout, more SOL scores strictly higher |
| PoolUtils.CurrentLayoutScoresHigher | utils/pool_utils.py:227-229 | at equal positive SOL liquidity a current pool outscores a legacy one |
| PoolUtils.FirstMaxIndex | utils/pool_utils.py:385-386 | the chosen index has the highest score and no earlier pool has an equal score |
| PoolUtils.BestIsUnique | utils/pool_utils.py:385-386 | the best pool under this selection is unique |
| PoolUtils.BestPrecedesEqualScores | utils/pool_utils.py:385-386 | ties go to the pool scanned first |
| PoolUtils.BestPool | utils/pool_utils.py:317-388 | no pool is found exactly when no candidate could be scored |
| PoolUtils.BestPoolNotFoundIff | utils/pool_utils.py:330-382 | no pool is found exactly when every candidate of the mint has unreadable reserves, unknown decimals or an empty base vault |
| PoolUtils.ScoreCandidate | utils/pool_utils.py:337-379 | a candidate is scored exactly when its reserves are read, the decimals are known and its base vault is not empty (the exact price division raises on a zero base, and the scan skips it) |
| PoolUtils.ScoredPoolsEmptyIff | utils/pool_utils.py:330-382 | nothing is scored exactly when every candidate is skipped |
| PoolUtils.EmptyBaseVaultNeverRanked | utils/pool_utils.py:187-192 | no ranked pool has an empty base vault |
| PoolUtils.BestPoolIsHighestScoring | utils/pool_utils.py:381-388 | the returned pool and type are those of the highest-scoring scored pool, and its base token is the mint |
| PoolUtils.ScoredPoolsComeFromCandidates | utils/pool_utils.py:332-379 | every scored pool comes from one of the candidates |
| PoolUtils.ScoreCandidates | utils/pool_utils.py:330-379 | the loop collects the scored candidates in order, skipping those whose reserves could not be read, whose mint info is missing or whose base vault is empty |
| PoolUtils.FindBestPoolByMint | utils/pool_utils.py:317-388 | the search returns the best pool of the scored candidates, or not-found |
| PumpSwap.DeriveUserVolumeAccumulator | model/pump_fun/pump_swap/pump_swap.py:662-665 | a user's volume accumulator is neither `GLOBAL_VOLUME_ACCUMULATOR` nor `DERIVED_EVENT_AUTHORITY` |
| PumpSwap.DeriveCoinCreatorVaultAuthority | model/pump_fun/pump_swap/pump_swap.py:668-671 | a creator's vault authority is neither program-wide account nor the volume accumulator of the same key |
| PumpSwap.DerivedAddressesDistinct | model/pump_fun/pump_swap/pump_swap.py:656-677 | `GLOBAL_VOLUME_ACCUMULATOR` (`derive_global_volume_accumulator`) and `DERIVED_EVENT_AUTHORITY` (`derive_event_authority`) differ from each other, from the configured event authority and from every user accumulator and creator vault authority; the user accumulator determines the user |
| PumpSwap.CoinCreatorVaultAuthorityAgrees | model/pump_fun/pump_swap/pump_swap.py:668-671 | the vault authority derived here equals the one from `derive_creator_vault`, and the vault is its quote-mint token account |
| PumpSwap.LegacyBuyAccounts | model/pump_fun/pump_swap/pump_swap.py:283-301 | 17 accounts, the user second; only the user signs; exactly the pool, the user, its two token accounts, the pool's two and the fee recipient's token account are writable |
| PumpSwap.CurrentBuyAccounts | model/pump_fun/pump_swap/pump_swap.py:367-389 | 21 accounts with the same signer; the pool read-only; the creator vault, its authority and the two volume accumulators last |
| PumpSwap.CurrentSellAccounts | model/pump_fun/pump_swap/pump_swap.py:563-584 | 19 accounts, the user the only signer, with the current-layout writable set |
| PumpSwap.LegacySellAccounts | model/pump_fun/pump_swap/pump_swap.py:629-647 | 17 accounts with the legacy writable set |
| PumpSwap.BuildOldPumpSwapBuy | model/pump_fun/pump_swap/pump_swap.py:237-307 | succeeds exactly when both amounts fit in a u64 and otherwise raises struct.error; the instruction targets PumpSwap with the legacy accounts and the buy payload |
| PumpSwap.BuildNewPumpSwapBuy | model/pump_fun/pump_swap/pump_swap.py:309-395 | the same for the 21-account current buy |
| PumpSwap.BuildNewPumpSwapSell | model/pump_fun/pump_swap/pump_swap.py:516-590 | the same for the 19-account current sell |
| PumpSwap.BuildOldPumpSwapSell | model/pump_fun/pump_swap/pump_swap.py:592-653 | the same for the 17-account legacy sell |
| PumpSwap.CurrentBuyExtendsCurrentSell | model/pump_fun/pump_swap/pump_swap.py:367-389 | the current buy list is the current sell list plus the two writable volume accumulators |
| PumpSwap.LegacyBuyDiffersFromCurrent | model/pump_fun/pump_swap/pump_swap.py:283-301 | the legacy buy list agrees with the first 17 current accounts except that the pool is writable and the configured event authority replaces the derived one |
| PumpSwap.LegacySellMatchesLegacyBuy | model/pump_fun/pump_swap/pump_swap.py:629-647 | the legacy sell and buy lists are identical |
| PumpSwap.SwapPayload | model/pump_fun/pump_swap/pump_swap.py:278-281 | a built swap's data is the discriminator and the two amounts in little-endian |
| PumpSwap.CreateAtaIfNeeded | model/pump_fun/pump_swap/pump_swap.py:70-84 | no instruction exactly when the owner's token account for the mint exists; otherwise one, paid by the owner, creating exactly that account |
| PumpSwap.PlanBuy | model/pump_fun/pump_swap/pump_swap.py:123-136 | a current pool without a coin creator raises KeyError; a plan needs a non-zero unit budget, its SOL bound is `int(sol × (1 + slippage) × lamports)` and its unit price is the fee's price over the budget |
| PumpSwap.Buy | model/pump_fun/pump_swap/pump_swap.py:100-234 | the buy flow builds exactly `BuyOutcome`: budget, price, wrapped-SOL account if missing, transfer, sync, base account if missing, swap by pool type, close; the budget, price and transfer raise OverflowError outside u32, u64 and u64 before the swap is built |
| PumpSwap.BuyOverflowsIff | model/pump_fun/pump_swap/pump_swap.py:132-153 | after planning, a buy raises OverflowError exactly when the compute budget is outside u32, or the unit price or the SOL bound is outside u64 |
| PumpSwap.NegativeFeeRaises | model/pump_fun/pump_swap/pump_swap.py:132-141 | a fee at least one micro-lamport per unit below zero makes the buy raise OverflowError |
| PumpSwap.BuyDispatchesOnPoolType | model/pump_fun/pump_swap/pump_swap.py:169-203 | a buy succeeds only for the two pool types, and its swap has 21 accounts exactly for a current pool |
| PumpSwap.BuyListShape | model/pump_fun/pump_swap/pump_swap.py:138-214 | compute budget first; the wrapped-SOL transfer of the SOL bound and the sync follow the creations; the swap and the close of the wrapped-SOL account come last |
| PumpSwap.BuyTransactionShape | model/pump_fun/pump_swap/pump_swap.py:138-214 | every built buy starts with the unit limit, transfers into and syncs the wrapped-SOL account, swaps, and closes it |
| PumpSwap.BoughtFromPlan | model/pump_fun/pump_swap/pump_swap.py:127-214 | a built buy comes from a successful plan and swap, and reports the planned base amount |
| PumpSwap.BuySwapPayload | model/pump_fun/pump_swap/pump_swap.py:169-203 | the buy swap carries the planned base amount and SOL bound in its payload |
| PumpSwap.BuyCreatesBeforeWriting | model/pump_fun/pump_swap/pump_swap.py:142-167 | no instruction of a buy writes to a token account before the instruction that creates it |
| PumpSwap.BuyListCreatesBeforeWriting | model/pump_fun/pump_swap/pump_swap.py:142-167 | the same for every instruction list the buy assembles |
| PumpSwap.PlanSale | model/pump_fun/pump_swap/pump_swap.py:418-454 | a planned sale has a positive lamport bound and a coin creator for a current pool |
| PumpSwap.Sell | model/pump_fun/pump_swap/pump_swap.py:397-514 | the sell flow builds exactly `SellOutcome`; the budget and price raise OverflowError outside u32 and u64 before the swap is built |
| PumpSwap.SellOverflowsIff | model/pump_fun/pump_swap/pump_swap.py:449-458 | once a sale is planned, it raises OverflowError exactly when the compute budget is outside u32 or the unit price outside u64 |
| PumpSwap.SellNeedsBalance | model/pump_fun/pump_swap/pump_swap.py:418-428 | without a positive balance, or with a non-positive share, nothing is sold |
| PumpSwap.NonPositiveShare | model/pump_fun/pump_swap/pump_swap.py:424-428 | a non-positive percentage of a positive balance is a non-positive amount |
| PumpSwap.SellStopsAtFullSlippage | model/pump_fun/pump_swap/pump_swap.py:440-448 | a slippage of 100 % or more never sells |
| PumpSwap.NonNegativePrice | model/pump_fun/pump_swap/pump_swap.py:440 | non-negative reserves with base stock give a finite, non-negative price |
| PumpSwap.NoSolBoundAtFullSlippage | model/pump_fun/pump_swap/pump_swap.py:441-445 | at 100 % slippage or more the lamport bound is ≤ 0 |
| PumpSwap.SellStopsOnEmptyQuoteReserve | model/pump_fun/pump_swap/pump_swap.py:440-448 | an empty SOL reserve never sells |
| PumpSwap.SellRaisesOnEmptyBaseReserve | model/pump_fun/pump_swap/pump_swap.py:440-444 | an empty base reserve makes the lamport bound non-finite, and the sale raises |
| PumpSwap.SellNeedsCoinCreator | model/pump_fun/pump_swap/pump_swap.py:430-432 | a current-pool sale without a coin creator raises KeyError |
| PumpSwap.SellPlanAmounts | model/pump_fun/pump_swap/pump_swap.py:424-444 | the sold base units, the minimum SOL and its lamport bound are computed from the balance share and the reserve price |
| PumpSwap.SellListShape | model/pump_fun/pump_swap/pump_swap.py:456-495 | compute budget first, creations before writes, the swap and the close of the wrapped-SOL account last |
| PumpSwap.SellTransactionShape | model/pump_fun/pump_swap/pump_swap.py:456-495 | every sent sale has that shape, and its swap has 19 accounts exactly for a current pool |
| PumpSwap.SoldFromPlan | model/pump_fun/pump_swap/pump_swap.py:424-514 | a sent sale comes from a planned sale and its swap, and reports the planned minimum SOL |
| PumpSwap.SellSwapPayload | model/pump_fun/pump_swap/pump_swap.py:464-484 | the sell swap carries the planned base amount and lamport bound in its payload |
| PumpFun.CurveAccounts | model/pump_fun/bonding_curve/pump_fun.py:75-108 | 12 accounts in the documented order; only the user signs; the fee recipient, curve, curve and user token accounts, user and creator vault are writable |
| PumpFun.CurveListsSwapOnePair | model/pump_fun/bonding_curve/pump_fun.py:78-108 | the buy and sell lists differ only in the swapped places of the token program and the creator vault |
| PumpFun.CreateSwapInstruction | model/pump_fun/bonding_curve/pump_fun.py:69-115 | succeeds exactly when both amounts fit in a u64 and otherwise raises struct.error; the instruction targets the pump.fun program with those accounts and payload |
| PumpFun.CurveSwapPayload | model/pump_fun/bonding_curve/pump_fun.py:110-113 | the data is the 8-byte opcode followed by the two amounts in little-endian |
| PumpFun.CreatorVaultPerCreator | model/pump_fun/bonding_curve/pump_fun.py:149 | the creator vault PDA is different for every creator |
| PumpFun.ReportedConfirmation | model/pump_fun/bonding_curve/pump_fun.py:209-214 | the flow reports True only for a transaction it built and sent |
| PumpFun.MaxSolCostCoversSpend | model/pump_fun/bonding_curve/pump_fun.py:172-173 | with no negative inputs the SOL cap is a lamport count no smaller than the SOL spent |
| PumpFun.BuyBondingCurve | model/pump_fun/bonding_curve/pump_fun.py:130-214 | the buy flow builds exactly `BuyBondingCurveOutcome` |
| PumpFun.BuyAmountIsFixed | model/pump_fun/bonding_curve/pump_fun.py:166-170 | every curve buy asks for 1 000 000 000 base units, whatever SOL is spent |
| PumpFun.CurveBuyDeclinesIff | model/pump_fun/bonding_curve/pump_fun.py:134-142 | a buy is declined exactly when there is no coin data or the curve is complete |
| PumpFun.CurveBuyRaisesIff | model/pump_fun/bonding_curve/pump_fun.py:172-194 | on a live curve the buy raises exactly when the SOL bound is outside u64 (struct.error) or, next, the configured budget or price is outside u32 or u64 (OverflowError) |
| PumpFun.CurveBuyShape | model/pump_fun/bonding_curve/pump_fun.py:153-203 | budget first and within range, creations before writes; the user token account is created exactly when none exists; the swap comes last |
| PumpFun.CurveBuyPayload | model/pump_fun/bonding_curve/pump_fun.py:166-188 | the swap buys 10^9 units with the slippage-adjusted SOL bound from the user's first token account |
| PumpFun.MinSolOutputBelowQuote | model/pump_fun/bonding_curve/pump_fun.py:259-260 | with no negative inputs the minimum SOL output never exceeds the quote in lamports, and is not negative up to 100 % slippage |
| PumpFun.SellBondingCurve | model/pump_fun/bonding_curve/pump_fun.py:216-311 | the sell flow builds exactly `SellBondingCurveOutcome` |
| PumpFun.CurveSellDeclinesIff | model/pump_fun/bonding_curve/pump_fun.py:220-246 | a sale is declined exactly for a percentage outside 1..100, no coin data, a complete curve, or a missing or zero balance |
| PumpFun.CurveSellChecksPercentageFirst | model/pump_fun/bonding_curve/pump_fun.py:220-224 | an invalid percentage decides before any lookup |
| PumpFun.CurveSellRaisesOnNegativeBound | model/pump_fun/bonding_curve/pump_fun.py:259-275 | a negative minimum SOL output makes the swap packing raise struct.error |
| PumpFun.CurveSellShape | model/pump_fun/bonding_curve/pump_fun.py:277-299 | budget first and within range; the swap sells from the user's associated account; the account is closed after the swap exactly for a 100 % sale |
| PumpFun.CurveSellPayload | model/pump_fun/bonding_curve/pump_fun.py:250-275 | the swap sells the share of the balance in 10^6 units, bounded by the curve quote less slippage |
| CommonUtils.ConfirmFrom | utils/common_utils.py:40-66 | a confirmation from the k-th request on needs a request left in the budget |
| CommonUtils.ConfirmTxn | utils/common_utils.py:37-66 | the polling loop returns `ConfirmFrom` and makes `PollsFrom` requests, at most one per retry |
| CommonUtils.NoPollsWithoutRetries | utils/common_utils.py:38-40 | a retry budget ≤ 0 makes no request and confirms nothing |
| CommonUtils.PollsBounded | utils/common_utils.py:40-63 | never more requests than retries |
| CommonUtils.ConfirmedIff | utils/common_utils.py:40-66 | confirmed exactly when some request within the budget finds the transaction without error and no earlier one found it |
| CommonUtils.FoundStopsPolling | utils/common_utils.py:51-58 | answers after the first found status change neither the result nor the request count |
| Configuration.Split | config.py:80 | `str.split('.')` gives at least one piece |
| Configuration.SplitJoins | config.py:80 | the pieces contain no dot and join back to the key |
| Configuration.ResolveAppend | config.py:81-87 | walking a longer path walks its prefix, then the rest |
| Configuration.MissingLastKeyIsNull | config.py:83-84 | a missing last key reads as None, not the default |
| Configuration.MissingInnerKeyIsDefault | config.py:82-86 | a missing key with keys after it gives the default |
| Configuration.NonDictBeforeEndIsDefault | config.py:85-86 | a non-mapping reached with keys left gives the default |
| Configuration.Contains | config.py:68-73 | `in` tests keys of a mapping and raises TypeError on None or a number |
| Configuration.FirstMissing | config.py:61-64 | the first required section absent, or none exactly when all are present |
| Configuration.ValidationAcceptsIff | config.py:59-74 | with mapping sections, validation passes exactly when the four sections, `rpc_url`, `unit_budget` and `unit_price` are present |
| Configuration.Config.constructor | config.py:17-20 | the object holds the loaded mapping, before validation |
| Configuration.Config.Load | config.py:17-21 | loading then validating raises exactly the error `Validation` gives, and a configuration object exists only for a mapping `Validation` accepts |
| Configuration.Config.Get | config.py:78-87 | the loop returns `GetValue` of the split key |
| Configuration.Config.ValidateConfig | config.py:59-74 | the checks raise exactly `Validation` of the configuration |
| UnifiedPumpFun.StrategyName | model/pump_fun/unified_pump_fun.py:50-51 | "BondingCurve" names exactly the curve strategy and "PumpSwap" (lines 112-113) exactly the pool strategy |
| UnifiedPumpFun.Detect | model/pump_fun/unified_pump_fun.py:138-171 | detection keeps a cache of valid states and adds at most the mint |
| UnifiedPumpFun.DetectRoutesByCompletion | model/pump_fun/unified_pump_fun.py:153-171 | an uncached mint routes to PumpSwap exactly when its curve is complete, and is cached |
| UnifiedPumpFun.DetectFailureCachesNothing | model/pump_fun/unified_pump_fun.py:147-161 | missing or failing coin data gives no strategy and leaves the cache unchanged |
| UnifiedPumpFun.DetectionIsRemembered | model/pump_fun/unified_pump_fun.py:143-157 | once detected, later detections return the same strategy without looking at coin data again |
| UnifiedPumpFun.CachedLookup | model/pump_fun/unified_pump_fun.py:62-74 | an uncached mint is searched with `find_best_pool_by_mint`; a not-found result leaves the cache unchanged |
| UnifiedPumpFun.FoundPoolIsRemembered | model/pump_fun/unified_pump_fun.py:64-72 | a found pool is served from the cache afterwards, even after the chain changes |
| UnifiedPumpFun.NotFoundIsSearchedAgain | model/pump_fun/unified_pump_fun.py:67-74 | a mint without a pool is searched again on the next call |
| UnifiedPumpFun.CacheHoldsFoundPools | model/pump_fun/unified_pump_fun.py:71-72 | only found pools are cached |
| UnifiedPumpFun.PumpSwapStrategy.constructor | model/pump_fun/unified_pump_fun.py:57-60 | the pool cache starts empty |
| UnifiedPumpFun.PumpSwapStrategy.GetPoolData | model/pump_fun/unified_pump_fun.py:62-74 | returns and caches exactly as `CachedLookup` |
| UnifiedPumpFun.PumpSwapStrategy.Trade | model/pump_fun/unified_pump_fun.py:76-110 | without a pool it reports False without trading; otherwise it trades on the cached or found pool |
| UnifiedPumpFun.PoolTrade | model/pump_fun/unified_pump_fun.py:79-92 | no pool reports False |
| UnifiedPumpFun.DispatchResult | model/pump_fun/unified_pump_fun.py:173-223 | without a strategy the façade returns False |
| UnifiedPumpFun.DispatchNeedsConfirmation | model/pump_fun/unified_pump_fun.py:186-197 | True means the venue the mint was routed to reported a confirmed trade, on a found pool for PumpSwap |
| UnifiedPumpFun.UnifiedPumpFun.constructor | model/pump_fun/unified_pump_fun.py:122-136 | both caches start empty |
| UnifiedPumpFun.UnifiedPumpFun.DetectTradingStrategy | model/pump_fun/unified_pump_fun.py:138-171 | returns and caches exactly as `Detect` |
| UnifiedPumpFun.UnifiedPumpFun.Dispatch | model/pump_fun/unified_pump_fun.py:173-223 | buy and sell return `DispatchResult`; the token cache follows `Detect`; the pool cache changes only on the PumpSwap route |
| UnifiedPumpFun.SwapBuyReport | model/pump_fun/pump_swap/pump_swap.py:100-234 | the buy on a pool raises exactly when `BuyOutcome` fails, and reports True exactly when it built a transaction that confirms |
| UnifiedPumpFun.SwapSellReport | model/pump_fun/pump_swap/pump_swap.py:397-514 | the sell on a pool raises exactly when `SellOutcome` fails, and reports True exactly when it built a sale that confirms |
| UnifiedPumpFun.CurveReport | model/pump_fun/unified_pump_fun.py:42-48 | the curve strategy always reports, with True only for a sent transaction |
| UnifiedPumpFun.SkippedSaleReportsFalse | model/pump_fun/unified_pump_fun.py:102-110 | a PumpSwap sale the flow skips reports False through the façade |

## Left out

- Network I/O is not modelled. This covers RPC reads, sending a transaction, blockhashes, signing, `time.sleep`, logging and `print`. Reads enter as parameters, and whether a sent transaction confirms is the `confirm` parameter of the reports.
- Concurrency is not modelled. The async calls are sequential here, and the caches have a single writer.
- Public-key encoding is not modelled: base58 strings, `Pubkey.from_string`, and the range check solders applies to account keys. PDA and associated-account derivation is symbolic and cannot collide. Bump seeds are dropped.
- `bytes.fromhex` of the discriminators and opcodes is not modelled. The configured discriminators are settings, and the two curve opcodes are their decoded 8 bytes.
- Floating-point rounding, NaN and overflow are not modelled. Arithmetic is exact over reals. A non-finite value reaching `int()` is the single error `NonFiniteError`; Python raises `OverflowError` for an infinity and `ValueError` for a NaN.
- `tokens_for_sol` is a total function parameter. Its own exceptions are not modelled.
- `get_token_balance`, `get_coin_data`, `fetch_pool_state` and `fetch_pool_base_price` are not part of this model. Their results are inputs: balance, coin data, and reserves per pool.
- An exception from these reads is not modelled, except where the flow catches it: the pool scan and scoring skip the account, and detection gives no strategy. The exact price division of the scoring step raises on an empty base vault, so scoring skips that pool too.
- `UnifiedPumpFun.get_token_info` and `close` are not modelled. They report or release resources and construct no trade.
- Configuration loading is not modelled: `.env`, environment variables, the YAML file, `get_payer_keypair` and the typed properties. The loaded mapping is the argument of `Config.Load`, and numbers in it are integers.
- Configuration.Config.constructor: holds any mapping without validating it; `__init__` as a whole, validation included, is `Config.Load`, which only constructs an object for a mapping `Validation` accepts.
- The exceptions of the swap builders' account constructors are not modelled.
- The façade's buy and sell are a single `Dispatch`. What the chosen venue reports is a parameter, computed by `SwapBuyReport`, `SwapSellReport` or `CurveReport`.
- The value of `Config.get('solana.unit_compute_budget')` is not modelled as possibly absent. It is the setting `unitComputeBudget`, an integer.
