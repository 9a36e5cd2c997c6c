/**
 * Transaction assembly for the constant-product AMM venue: the four swap
 * instruction builders (legacy and current account lists, buy and sell), the
 * program-derived addresses they use, and the buy and sell flows that wrap a
 * swap with compute-budget, wrapped-SOL and token-account instructions.
 */
module PumpSwap {
  import opened Solana
  import opened PoolUtils

  /** The configuration the flows read: discriminators, SOL scale and compute budget. */
  datatype SwapSettings = SwapSettings(
    buyDiscriminator: seq<Byte>,
    sellDiscriminator: seq<Byte>,
    lamportsPerSol: real,
    unitComputeBudget: int)

  // ---------------------------------------------------------------------
  // Program-derived addresses

  const GLOBAL_VOLUME_ACCUMULATOR: Address := Pda([Literal("global_volume_accumulator")], PUMPSWAP_PROGRAM_ID)
  const DERIVED_EVENT_AUTHORITY: Address := Pda([Literal("__event_authority")], PUMPSWAP_PROGRAM_ID)

  /** A user's volume accumulator is neither of the program-wide accounts. */
  function DeriveUserVolumeAccumulator(user: Address): (r: Address)
    ensures r != GLOBAL_VOLUME_ACCUMULATOR && r != DERIVED_EVENT_AUTHORITY
  {
    Pda([Literal("user_volume_accumulator"), KeyOf(user)], PUMPSWAP_PROGRAM_ID)
  }

  /**
   * A creator's vault authority is neither of the program-wide accounts nor
   * the volume accumulator the same key would have as a user.
   */
  function DeriveCoinCreatorVaultAuthority(coinCreator: Address): (r: Address)
    ensures r != GLOBAL_VOLUME_ACCUMULATOR && r != DERIVED_EVENT_AUTHORITY
    ensures r != DeriveUserVolumeAccumulator(coinCreator)
  {
    Pda([Literal("creator_vault"), KeyOf(coinCreator)], PUMPSWAP_PROGRAM_ID)
  }

  /**
   * The accounts a current-layout swap derives are pairwise distinct, none is
   * the configured event authority, and a user's volume accumulator is
   * theirs alone.
   */
  lemma DerivedAddressesDistinct(user: Address, other: Address, coinCreator: Address)
    ensures GLOBAL_VOLUME_ACCUMULATOR != DERIVED_EVENT_AUTHORITY
    ensures DeriveUserVolumeAccumulator(user) !in {GLOBAL_VOLUME_ACCUMULATOR, DERIVED_EVENT_AUTHORITY, DeriveCoinCreatorVaultAuthority(coinCreator)}
    ensures DERIVED_EVENT_AUTHORITY != EVENT_AUTHORITY
    ensures DeriveUserVolumeAccumulator(user) == DeriveUserVolumeAccumulator(other) ==> user == other
  {
  }

  /** The vault authority derived here is the one the pool helpers pair with the vault's token account. */
  lemma CoinCreatorVaultAuthorityAgrees(coinCreator: Address, quoteMint: Address)
    ensures DeriveCreatorVault(coinCreator, quoteMint).1 == DeriveCoinCreatorVaultAuthority(coinCreator)
    ensures DeriveCreatorVault(coinCreator, quoteMint).0 == Ata(DeriveCoinCreatorVaultAuthority(coinCreator), quoteMint)
  {
  }

  // ---------------------------------------------------------------------
  // Swap instruction builders

  /** The eleven accounts every swap names first, in instruction order. */
  datatype SwapKeys = SwapKeys(
    pool: Address,
    user: Address,
    globalConfig: Address,
    baseMint: Address,
    quoteMint: Address,
    userBaseTokenAta: Address,
    userQuoteTokenAta: Address,
    poolBaseTokenAccount: Address,
    poolQuoteTokenAccount: Address,
    protocolFeeRecipient: Address,
    protocolFeeRecipientAta: Address)

  /** The keys the buy flow passes for `user` trading on `pool`. */
  function TradeKeys(user: Address, pool: PoolData): SwapKeys
  {
    SwapKeys(
      pool.poolPubkey, user, GLOBAL_CONFIG_PUB, pool.tokenBase, pool.tokenQuote,
      Ata(user, pool.tokenBase), Ata(user, pool.tokenQuote),
      pool.poolBaseTokenAccount, pool.poolQuoteTokenAccount,
      PROTOCOL_FEE_RECIP, PROTOCOL_FEE_RECIP_ATA)
  }

  const LEGACY_WRITABLE: set<int> := {0, 1, 5, 6, 7, 8, 10}
  const CURRENT_BUY_WRITABLE: set<int> := {1, 5, 6, 7, 8, 10, 17, 19, 20}
  const CURRENT_SELL_WRITABLE: set<int> := {1, 5, 6, 7, 8, 10, 17}
  const USER_ONLY: set<int> := {1}

  /** What every swap instruction promises: the program, the payload, the user and who signs and writes. */
  predicate IsSwap(ix: Instruction, discriminator: seq<Byte>, first: int, second: int,
                   user: Address, count: nat, writables: set<int>)
  {
    && ix.programId == PUMPSWAP_PROGRAM_ID
    && SwapData(discriminator, first, second) == Some(ix.data)
    && 2 <= count == |ix.accounts|
    && ix.accounts[1].key == user
    && HasFlags(ix.accounts, USER_ONLY, writables)
  }

  /** The legacy buy's accounts: the pool writable, the configured event authority at 15. */
  function LegacyBuyAccounts(keys: SwapKeys): (r: seq<AccountMeta>)
    ensures |r| == 17 && r[1].key == keys.user
    ensures HasFlags(r, USER_ONLY, LEGACY_WRITABLE)
  {
    [
      AccountMeta(keys.pool, false, true),
      AccountMeta(keys.user, true, true),
      AccountMeta(keys.globalConfig, false, false),
      AccountMeta(keys.baseMint, false, false),
      AccountMeta(keys.quoteMint, false, false),
      AccountMeta(keys.userBaseTokenAta, false, true),
      AccountMeta(keys.userQuoteTokenAta, false, true),
      AccountMeta(keys.poolBaseTokenAccount, false, true),
      AccountMeta(keys.poolQuoteTokenAccount, false, true),
      AccountMeta(keys.protocolFeeRecipient, false, false),
      AccountMeta(keys.protocolFeeRecipientAta, false, true),
      AccountMeta(TOKEN_PROGRAM_PUB, false, false),
      AccountMeta(TOKEN_PROGRAM_PUB, false, false),
      AccountMeta(SYSTEM_PROGRAM_ID, false, false),
      AccountMeta(ASSOCIATED_TOKEN, false, false),
      AccountMeta(EVENT_AUTHORITY, false, false),
      AccountMeta(PUMPSWAP_PROGRAM_ID, false, false)
    ]
  }

  /**
   * The current buy's accounts: the pool read-only, the derived event
   * authority, then the creator vault and the two volume accumulators.
   */
  function CurrentBuyAccounts(keys: SwapKeys, vaultAuth: Address, vaultAta: Address): (r: seq<AccountMeta>)
    ensures |r| == 21 && r[1].key == keys.user
    ensures HasFlags(r, USER_ONLY, CURRENT_BUY_WRITABLE)
    ensures r[17].key == vaultAta && r[18].key == vaultAuth
    ensures r[19].key == GLOBAL_VOLUME_ACCUMULATOR && r[20].key == DeriveUserVolumeAccumulator(keys.user)
  {
    var globalVolumeAccumulator := GLOBAL_VOLUME_ACCUMULATOR;
    var userVolumeAccumulator := DeriveUserVolumeAccumulator(keys.user);
    var eventAuthority := DERIVED_EVENT_AUTHORITY;
    [
      AccountMeta(keys.pool, false, false),
      AccountMeta(keys.user, true, true),
      AccountMeta(keys.globalConfig, false, false),
      AccountMeta(keys.baseMint, false, false),
      AccountMeta(keys.quoteMint, false, false),
      AccountMeta(keys.userBaseTokenAta, false, true),
      AccountMeta(keys.userQuoteTokenAta, false, true),
      AccountMeta(keys.poolBaseTokenAccount, false, true),
      AccountMeta(keys.poolQuoteTokenAccount, false, true),
      AccountMeta(keys.protocolFeeRecipient, false, false),
      AccountMeta(keys.protocolFeeRecipientAta, false, true),
      AccountMeta(TOKEN_PROGRAM_PUB, false, false),
      AccountMeta(TOKEN_PROGRAM_PUB, false, false),
      AccountMeta(SYSTEM_PROGRAM_ID, false, false),
      AccountMeta(ASSOCIATED_TOKEN, false, false),
      AccountMeta(eventAuthority, false, false),
      AccountMeta(PUMPSWAP_PROGRAM_ID, false, false),
      AccountMeta(vaultAta, false, true),
      AccountMeta(vaultAuth, false, false),
      AccountMeta(globalVolumeAccumulator, false, true),
      AccountMeta(userVolumeAccumulator, false, true)
    ]
  }

  /** The current sell's accounts: the current buy's without the volume accumulators. */
  function CurrentSellAccounts(user: Address, pool: PoolData, protocolFeeRecipient: Address,
                               protocolFeeRecipientAta: Address, vaultAuth: Address, vaultAta: Address)
    : (r: seq<AccountMeta>)
    ensures |r| == 19 && r[1].key == user
    ensures HasFlags(r, USER_ONLY, CURRENT_SELL_WRITABLE)
  {
    var eventAuthority := DERIVED_EVENT_AUTHORITY;
    [
      AccountMeta(pool.poolPubkey, false, false),
      AccountMeta(user, true, true),
      AccountMeta(GLOBAL_CONFIG_PUB, false, false),
      AccountMeta(pool.tokenBase, false, false),
      AccountMeta(pool.tokenQuote, false, false),
      AccountMeta(Ata(user, pool.tokenBase), false, true),
      AccountMeta(Ata(user, pool.tokenQuote), false, true),
      AccountMeta(pool.poolBaseTokenAccount, false, true),
      AccountMeta(pool.poolQuoteTokenAccount, false, true),
      AccountMeta(protocolFeeRecipient, false, false),
      AccountMeta(protocolFeeRecipientAta, false, true),
      AccountMeta(TOKEN_PROGRAM_PUB, false, false),
      AccountMeta(TOKEN_PROGRAM_PUB, false, false),
      AccountMeta(SYSTEM_PROGRAM_ID, false, false),
      AccountMeta(ASSOCIATED_TOKEN, false, false),
      AccountMeta(eventAuthority, false, false),
      AccountMeta(PUMPSWAP_PROGRAM_ID, false, false),
      AccountMeta(vaultAta, false, true),
      AccountMeta(vaultAuth, false, false)
    ]
  }

  /** The legacy sell's accounts: the legacy buy's list, built from the pool data. */
  function LegacySellAccounts(user: Address, pool: PoolData, protocolFeeRecipient: Address,
                              protocolFeeRecipientAta: Address)
    : (r: seq<AccountMeta>)
    ensures |r| == 17 && r[1].key == user
    ensures HasFlags(r, USER_ONLY, LEGACY_WRITABLE)
  {
    [
      AccountMeta(pool.poolPubkey, false, true),
      AccountMeta(user, true, true),
      AccountMeta(GLOBAL_CONFIG_PUB, false, false),
      AccountMeta(pool.tokenBase, false, false),
      AccountMeta(pool.tokenQuote, false, false),
      AccountMeta(Ata(user, pool.tokenBase), false, true),
      AccountMeta(Ata(user, pool.tokenQuote), false, true),
      AccountMeta(pool.poolBaseTokenAccount, false, true),
      AccountMeta(pool.poolQuoteTokenAccount, false, true),
      AccountMeta(protocolFeeRecipient, false, false),
      AccountMeta(protocolFeeRecipientAta, false, true),
      AccountMeta(TOKEN_PROGRAM_PUB, false, false),
      AccountMeta(TOKEN_PROGRAM_PUB, false, false),
      AccountMeta(SYSTEM_PROGRAM_ID, false, false),
      AccountMeta(ASSOCIATED_TOKEN, false, false),
      AccountMeta(EVENT_AUTHORITY, false, false),
      AccountMeta(PUMPSWAP_PROGRAM_ID, false, false)
    ]
  }

  /** build_buy_instruction_old: the swap payload, then the legacy buy accounts. */
  function BuildOldPumpSwapBuy(discriminator: seq<Byte>, keys: SwapKeys, baseAmountOut: int, maxQuoteAmountIn: int)
    : (r: Result<Instruction, Raised>)
    ensures r.Success? <==> InU64(baseAmountOut) && InU64(maxQuoteAmountIn)
    ensures r.Failure? ==> r.error == StructError
    ensures r.Success? ==> IsSwap(r.value, discriminator, baseAmountOut, maxQuoteAmountIn, keys.user, 17, LEGACY_WRITABLE)
  {
    match SwapData(discriminator, baseAmountOut, maxQuoteAmountIn)
    case None => Failure(StructError)
    case Some(data) => Success(Instruction(PUMPSWAP_PROGRAM_ID, data, LegacyBuyAccounts(keys)))
  }

  /** build_buy_instruction_new: the swap payload, then the current buy accounts. */
  function BuildNewPumpSwapBuy(discriminator: seq<Byte>, keys: SwapKeys, baseAmountOut: int, maxQuoteAmountIn: int,
                               vaultAuth: Address, vaultAta: Address)
    : (r: Result<Instruction, Raised>)
    ensures r.Success? <==> InU64(baseAmountOut) && InU64(maxQuoteAmountIn)
    ensures r.Failure? ==> r.error == StructError
    ensures r.Success? ==> IsSwap(r.value, discriminator, baseAmountOut, maxQuoteAmountIn, keys.user, 21, CURRENT_BUY_WRITABLE)
  {
    match SwapData(discriminator, baseAmountOut, maxQuoteAmountIn)
    case None => Failure(StructError)
    case Some(data) => Success(Instruction(PUMPSWAP_PROGRAM_ID, data, CurrentBuyAccounts(keys, vaultAuth, vaultAta)))
  }

  /** build_sell_instruction_new: the swap payload, then the current sell accounts. */
  function BuildNewPumpSwapSell(discriminator: seq<Byte>, user: Address, pool: PoolData, baseAmountIn: int,
                                minQuoteAmountOut: int, protocolFeeRecipient: Address, protocolFeeRecipientAta: Address,
                                vaultAuth: Address, vaultAta: Address)
    : (r: Result<Instruction, Raised>)
    ensures r.Success? <==> InU64(baseAmountIn) && InU64(minQuoteAmountOut)
    ensures r.Failure? ==> r.error == StructError
    ensures r.Success? ==> IsSwap(r.value, discriminator, baseAmountIn, minQuoteAmountOut, user, 19, CURRENT_SELL_WRITABLE)
  {
    match SwapData(discriminator, baseAmountIn, minQuoteAmountOut)
    case None => Failure(StructError)
    case Some(data) =>
      Success(Instruction(PUMPSWAP_PROGRAM_ID, data,
        CurrentSellAccounts(user, pool, protocolFeeRecipient, protocolFeeRecipientAta, vaultAuth, vaultAta)))
  }

  /** build_sell_instruction_old: the swap payload, then the legacy sell accounts. */
  function BuildOldPumpSwapSell(discriminator: seq<Byte>, user: Address, pool: PoolData, baseAmountIn: int,
                                minQuoteAmountOut: int, protocolFeeRecipient: Address, protocolFeeRecipientAta: Address)
    : (r: Result<Instruction, Raised>)
    ensures r.Success? <==> InU64(baseAmountIn) && InU64(minQuoteAmountOut)
    ensures r.Failure? ==> r.error == StructError
    ensures r.Success? ==> IsSwap(r.value, discriminator, baseAmountIn, minQuoteAmountOut, user, 17, LEGACY_WRITABLE)
  {
    match SwapData(discriminator, baseAmountIn, minQuoteAmountOut)
    case None => Failure(StructError)
    case Some(data) =>
      Success(Instruction(PUMPSWAP_PROGRAM_ID, data,
        LegacySellAccounts(user, pool, protocolFeeRecipient, protocolFeeRecipientAta)))
  }

  /**
   * For the same trade, the current sell names exactly the current buy's
   * first 19 accounts; the buy adds the global and the user's volume
   * accumulator.
   */
  lemma CurrentBuyExtendsCurrentSell(user: Address, pool: PoolData, vaultAuth: Address, vaultAta: Address)
    ensures CurrentBuyAccounts(TradeKeys(user, pool), vaultAuth, vaultAta)
         == CurrentSellAccounts(user, pool, PROTOCOL_FEE_RECIP, PROTOCOL_FEE_RECIP_ATA, vaultAuth, vaultAta)
            + [AccountMeta(GLOBAL_VOLUME_ACCUMULATOR, false, true),
               AccountMeta(DeriveUserVolumeAccumulator(user), false, true)]
  {
  }

  /**
   * The legacy and current buy lists agree on their first 17 accounts except
   * that the legacy one writes the pool and names the configured event
   * authority.
   */
  lemma LegacyBuyDiffersFromCurrent(keys: SwapKeys, vaultAuth: Address, vaultAta: Address)
    ensures
      var legacy := LegacyBuyAccounts(keys);
      var current := CurrentBuyAccounts(keys, vaultAuth, vaultAta);
      && (forall k :: 0 <= k < 17 && k != 0 && k != 15 ==> legacy[k] == current[k])
      && legacy[0] == current[0].(isWritable := true)
      && legacy[15] == current[15].(key := EVENT_AUTHORITY)
  {
  }

  /** For the same trade, the legacy sell names the same accounts as the legacy buy. */
  lemma LegacySellMatchesLegacyBuy(user: Address, pool: PoolData)
    ensures LegacyBuyAccounts(TradeKeys(user, pool))
         == LegacySellAccounts(user, pool, PROTOCOL_FEE_RECIP, PROTOCOL_FEE_RECIP_ATA)
  {
  }

  /** The payload of a built swap decodes to the amounts it was built from. */
  lemma SwapPayload(swap: Instruction, discriminator: seq<Byte>, first: int, second: int)
    requires SwapData(discriminator, first, second) == Some(swap.data)
    ensures EncodesSwapData(swap.data, discriminator, first, second)
  {
    SwapDataEncodes(discriminator, first, second);
  }

  // ---------------------------------------------------------------------
  // Buy

  /**
   * create_ata_if_needed: nothing when the owner's token account for the
   * mint exists, otherwise one instruction, paid by the owner, creating
   * exactly that account.
   */
  function CreateAtaIfNeeded(existing: set<Address>, owner: Address, mint: Address): (r: seq<Ix>)
    ensures r == [] <==> Ata(owner, mint) in existing
    ensures |r| <= 1
    ensures forall k :: 0 <= k < |r| ==> r[k].CreateAta? && r[k].payer == owner && Ata(r[k].owner, r[k].mint) == Ata(owner, mint)
  {
    if Ata(owner, mint) in existing then [] else [CreateAta(owner, owner, mint)]
  }

  /** The amounts a buy settles before it assembles any instruction. */
  datatype BuyPlan = BuyPlan(sizing: BuySizing, microLamports: int)

  /**
   * The numeric part of a buy: the creator must be known for the current
   * layout, then the sizing at the pool price and the compute-unit price
   * for the fee. Each step can raise.
   */
  function PlanBuy(settings: SwapSettings, pool: PoolData, solAmount: real, poolType: string,
                   slippagePct: real, feeSol: real): (r: Result<BuyPlan, Raised>)
    ensures poolType == NEW_POOL_TYPE && pool.coinCreator.None? ==> r == Failure(KeyError)
    ensures r.Success? ==>
      && settings.unitComputeBudget != 0
      && r.value.sizing.maxQuoteInLamports == Trunc(solAmount * (1.0 + slippagePct) * settings.lamportsPerSol)
      && r.value.microLamports == ComputeUnitPriceFromTotalFee(Trunc(feeSol * settings.lamportsPerSol), settings.unitComputeBudget).value
  {
    if poolType == NEW_POOL_TYPE && pool.coinCreator.None? then Failure(KeyError)
    else
      var sizing := ConvertSolToBaseTokens(solAmount, pool.baseBalanceTokens, pool.quoteBalanceSol,
                                           pool.decimalsBase, slippagePct, settings.lamportsPerSol);
      if sizing.Failure? then Failure(sizing.error)
      else
        var microLamports := ComputeUnitPriceFromTotalFee(Trunc(feeSol * settings.lamportsPerSol), settings.unitComputeBudget);
        if microLamports.Failure? then Failure(microLamports.error)
        else Success(BuyPlan(sizing.value, microLamports.value))
  }

  /** The swap instruction a buy uses; an unknown pool type leaves it unassigned. */
  function BuySwap(settings: SwapSettings, user: Address, pool: PoolData, poolType: string, sizing: BuySizing)
    : Result<Instruction, Raised>
    requires poolType == NEW_POOL_TYPE ==> pool.coinCreator.Some?
  {
    if poolType == NEW_POOL_TYPE then
      var vault := DeriveCreatorVault(pool.coinCreator.value, pool.tokenQuote);
      BuildNewPumpSwapBuy(settings.buyDiscriminator, TradeKeys(user, pool), sizing.baseAmountOut,
                          sizing.maxQuoteInLamports, vault.1, vault.0)
    else if poolType == OLD_POOL_TYPE then
      BuildOldPumpSwapBuy(settings.buyDiscriminator, TradeKeys(user, pool), sizing.baseAmountOut, sizing.maxQuoteInLamports)
    else
      Failure(UnboundLocalError)
  }

  /** The buy transaction: budget, wrap SOL, make sure the base account exists, swap, unwrap. */
  function BuyInstructions(settings: SwapSettings, plan: BuyPlan, user: Address, pool: PoolData,
                           existing: set<Address>, swap: Instruction): seq<Ix>
  {
    var wsolAta := Ata(user, pool.tokenQuote);
    [SetComputeUnitLimit(settings.unitComputeBudget), SetComputeUnitPrice(plan.microLamports)]
    + CreateAtaIfNeeded(existing, user, pool.tokenQuote)
    + [Transfer(user, wsolAta, plan.sizing.maxQuoteInLamports), SyncNative(wsolAta)]
    + CreateAtaIfNeeded(existing, user, pool.tokenBase)
    + [Invoke(swap), CloseAccount(wsolAta, user, user)]
  }

  datatype BuyTrade = BuyTrade(instructions: seq<Ix>, baseAmountOut: int)

  /**
   * What a buy of `solAmount` SOL produces, or the exception it raises. The
   * compute-budget instructions and the SOL transfer are built before the
   * swap, so their range checks come first.
   */
  function BuyOutcome(settings: SwapSettings, user: Address, pool: PoolData, solAmount: real, poolType: string,
                      slippagePct: real, feeSol: real, existing: set<Address>): Result<BuyTrade, Raised>
  {
    match PlanBuy(settings, pool, solAmount, poolType, slippagePct, feeSol)
    case Failure(e) => Failure(e)
    case Success(plan) =>
      if !BudgetFits(settings.unitComputeBudget, plan.microLamports) || !InU64(plan.sizing.maxQuoteInLamports) then
        Failure(OverflowError)
      else
        var swap := BuySwap(settings, user, pool, poolType, plan.sizing);
        if swap.Failure? then Failure(swap.error)
        else Success(BuyTrade(BuyInstructions(settings, plan, user, pool, existing, swap.value), plan.sizing.baseAmountOut))
  }

  /**
   * The buy flow, appending instructions as it goes. `existing` is the set of
   * accounts the chain reports as present when the flow runs.
   */
  method Buy(settings: SwapSettings, user: Address, pool: PoolData, solAmount: real, poolType: string,
             slippagePct: real, feeSol: real, existing: set<Address>) returns (r: Result<BuyTrade, Raised>)
    ensures r == BuyOutcome(settings, user, pool, solAmount, poolType, slippagePct, feeSol, existing)
  {
    var planned := PlanBuy(settings, pool, solAmount, poolType, slippagePct, feeSol);
    if planned.Failure? {
      return Failure(planned.error);
    }
    var plan := planned.value;

    var instructions: seq<Ix> := [];
    if !InU32(settings.unitComputeBudget) {
      return Failure(OverflowError);
    }
    instructions := instructions + [SetComputeUnitLimit(settings.unitComputeBudget)];
    if !InU64(plan.microLamports) {
      return Failure(OverflowError);
    }
    instructions := instructions + [SetComputeUnitPrice(plan.microLamports)];
    instructions := instructions + CreateAtaIfNeeded(existing, user, pool.tokenQuote);
    var wsolAta := Ata(user, pool.tokenQuote);
    if !InU64(plan.sizing.maxQuoteInLamports) {
      return Failure(OverflowError);
    }
    instructions := instructions + [Transfer(user, wsolAta, plan.sizing.maxQuoteInLamports)];
    instructions := instructions + [SyncNative(wsolAta)];
    instructions := instructions + CreateAtaIfNeeded(existing, user, pool.tokenBase);

    var buyIx: Result<Instruction, Raised>;
    if poolType == NEW_POOL_TYPE {
      var vault := DeriveCreatorVault(pool.coinCreator.value, pool.tokenQuote);
      buyIx := BuildNewPumpSwapBuy(settings.buyDiscriminator, TradeKeys(user, pool), plan.sizing.baseAmountOut,
                                   plan.sizing.maxQuoteInLamports, vault.1, vault.0);
    } else if poolType == OLD_POOL_TYPE {
      buyIx := BuildOldPumpSwapBuy(settings.buyDiscriminator, TradeKeys(user, pool), plan.sizing.baseAmountOut,
                                   plan.sizing.maxQuoteInLamports);
    } else {
      return Failure(UnboundLocalError);
    }
    if buyIx.Failure? {
      return Failure(buyIx.error);
    }
    instructions := instructions + [Invoke(buyIx.value)];
    instructions := instructions + [CloseAccount(wsolAta, user, user)];
    assert instructions == BuyInstructions(settings, plan, user, pool, existing, buyIx.value);
    r := Success(BuyTrade(instructions, plan.sizing.baseAmountOut));
  }

  /** A buy succeeds only for the two known pool types, and the swap's layout follows the type. */
  lemma BuyDispatchesOnPoolType(settings: SwapSettings, user: Address, pool: PoolData, solAmount: real,
                                poolType: string, slippagePct: real, feeSol: real, existing: set<Address>, trade: BuyTrade)
    requires BuyOutcome(settings, user, pool, solAmount, poolType, slippagePct, feeSol, existing) == Success(trade)
    ensures poolType == NEW_POOL_TYPE || poolType == OLD_POOL_TYPE
    ensures 2 <= |trade.instructions| && trade.instructions[|trade.instructions| - 2].Invoke?
    ensures |trade.instructions[|trade.instructions| - 2].instruction.accounts| == 21 <==> poolType == NEW_POOL_TYPE
  {
    var plan := PlanBuy(settings, pool, solAmount, poolType, slippagePct, feeSol).value;
    var swap := BuySwap(settings, user, pool, poolType, plan.sizing).value;
    BuyListShape(settings, plan, user, pool, existing, swap);
  }

  /**
   * Once the numbers are settled, a buy raises OverflowError exactly when
   * the compute budget, the compute-unit price or the SOL bound is outside
   * the range its instruction takes; the swap builders raise other errors.
   * A fee below zero is one way in: it makes the unit price negative.
   */
  lemma BuyOverflowsIff(settings: SwapSettings, user: Address, pool: PoolData, solAmount: real,
                        poolType: string, slippagePct: real, feeSol: real, existing: set<Address>)
    requires PlanBuy(settings, pool, solAmount, poolType, slippagePct, feeSol).Success?
    ensures
      var plan := PlanBuy(settings, pool, solAmount, poolType, slippagePct, feeSol).value;
      BuyOutcome(settings, user, pool, solAmount, poolType, slippagePct, feeSol, existing) == Failure(OverflowError)
      <==> !BudgetFits(settings.unitComputeBudget, plan.microLamports) || !InU64(plan.sizing.maxQuoteInLamports)
  {
  }

  /**
   * A negative fee of at least one micro-lamport per compute unit makes the
   * buy raise OverflowError at the compute-unit price, whatever the pool.
   */
  lemma NegativeFeeRaises(settings: SwapSettings, user: Address, pool: PoolData, solAmount: real,
                          poolType: string, slippagePct: real, feeSol: real, existing: set<Address>)
    requires PlanBuy(settings, pool, solAmount, poolType, slippagePct, feeSol).Success?
    requires 0 < settings.unitComputeBudget
    requires Trunc(feeSol * settings.lamportsPerSol) * 1000000 <= -settings.unitComputeBudget
    ensures BuyOutcome(settings, user, pool, solAmount, poolType, slippagePct, feeSol, existing) == Failure(OverflowError)
  {
    var fee := Trunc(feeSol * settings.lamportsPerSol);
    NegativeFeeGivesNegativePrice(fee, settings.unitComputeBudget);
    PlannedUnitPrice(settings, pool, solAmount, poolType, slippagePct, feeSol, fee);
    BuyOverflowsIff(settings, user, pool, solAmount, poolType, slippagePct, feeSol, existing);
  }

  lemma PlannedUnitPrice(settings: SwapSettings, pool: PoolData, solAmount: real,
                         poolType: string, slippagePct: real, feeSol: real, fee: int)
    requires PlanBuy(settings, pool, solAmount, poolType, slippagePct, feeSol).Success?
    requires fee == Trunc(feeSol * settings.lamportsPerSol)
    ensures PlanBuy(settings, pool, solAmount, poolType, slippagePct, feeSol).value.microLamports
         == ComputeUnitPriceFromTotalFee(fee, settings.unitComputeBudget).value
  {
  }

  /** Where each instruction of a buy sits. */
  lemma BuyListShape(settings: SwapSettings, plan: BuyPlan, user: Address, pool: PoolData,
                     existing: set<Address>, swap: Instruction)
    ensures
      var ixs := BuyInstructions(settings, plan, user, pool, existing, swap);
      var wsolAta := Ata(user, pool.tokenQuote);
      var t := 2 + |CreateAtaIfNeeded(existing, user, pool.tokenQuote)|;
      && ComputeBudgetFirst(ixs)
      && ixs[0] == SetComputeUnitLimit(settings.unitComputeBudget)
      && ixs[1] == SetComputeUnitPrice(plan.microLamports)
      && t + 4 <= |ixs|
      && ixs[t] == Transfer(user, wsolAta, plan.sizing.maxQuoteInLamports)
      && ixs[t + 1] == SyncNative(wsolAta)
      && ixs[|ixs| - 2] == Invoke(swap)
      && ixs[|ixs| - 1] == CloseAccount(wsolAta, user, user)
  {
  }

  /**
   * A successful buy: the compute budget comes first, SOL is moved into the
   * wrapped-SOL account and synced right away, the swap comes next to last,
   * and the wrapped-SOL account is closed back to the user last.
   */
  lemma BuyTransactionShape(settings: SwapSettings, user: Address, pool: PoolData, solAmount: real,
                            poolType: string, slippagePct: real, feeSol: real, existing: set<Address>, trade: BuyTrade)
    requires BuyOutcome(settings, user, pool, solAmount, poolType, slippagePct, feeSol, existing) == Success(trade)
    ensures ComputeBudgetFirst(trade.instructions)
    ensures
      var ixs := trade.instructions;
      var wsolAta := Ata(user, pool.tokenQuote);
      && ixs[0] == SetComputeUnitLimit(settings.unitComputeBudget)
      && ixs[|ixs| - 1] == CloseAccount(wsolAta, user, user)
      && ixs[|ixs| - 2].Invoke?
      && exists t :: 2 <= t < |ixs| - 3 && ixs[t].Transfer? && ixs[t] == Transfer(user, wsolAta, ixs[t].lamports)
                                         && ixs[t + 1] == SyncNative(wsolAta)
  {
    var plan := PlanBuy(settings, pool, solAmount, poolType, slippagePct, feeSol).value;
    var swap := BuySwap(settings, user, pool, poolType, plan.sizing).value;
    BuyListShape(settings, plan, user, pool, existing, swap);
    var t := 2 + |CreateAtaIfNeeded(existing, user, pool.tokenQuote)|;
    assert trade.instructions[t] == Transfer(user, Ata(user, pool.tokenQuote), plan.sizing.maxQuoteInLamports);
  }

  /** A successful buy is the transaction of its plan around the swap the pool type selects. */
  lemma BoughtFromPlan(settings: SwapSettings, user: Address, pool: PoolData, solAmount: real,
                       poolType: string, slippagePct: real, feeSol: real, existing: set<Address>, trade: BuyTrade)
    requires BuyOutcome(settings, user, pool, solAmount, poolType, slippagePct, feeSol, existing) == Success(trade)
    ensures
      var planned := PlanBuy(settings, pool, solAmount, poolType, slippagePct, feeSol);
      && planned.Success?
      && (poolType == NEW_POOL_TYPE ==> pool.coinCreator.Some?)
      && BuySwap(settings, user, pool, poolType, planned.value.sizing).Success?
      && trade.baseAmountOut == planned.value.sizing.baseAmountOut
      && trade.instructions == BuyInstructions(settings, planned.value, user, pool, existing,
                                               BuySwap(settings, user, pool, poolType, planned.value.sizing).value)
  {
  }

  /**
   * The swap a buy builds asks for the sized base amount and caps the SOL
   * it may spend at the sized lamport bound.
   */
  lemma BuySwapPayload(settings: SwapSettings, user: Address, pool: PoolData, poolType: string,
                       sizing: BuySizing, swap: Instruction)
    requires poolType == NEW_POOL_TYPE ==> pool.coinCreator.Some?
    requires BuySwap(settings, user, pool, poolType, sizing) == Success(swap)
    ensures EncodesSwapData(swap.data, settings.buyDiscriminator, sizing.baseAmountOut, sizing.maxQuoteInLamports)
  {
    SwapPayload(swap, settings.buyDiscriminator, sizing.baseAmountOut, sizing.maxQuoteInLamports);
  }

  /** No token account the buy creates is written by an earlier instruction. */
  lemma BuyCreatesBeforeWriting(settings: SwapSettings, user: Address, pool: PoolData, solAmount: real,
                                poolType: string, slippagePct: real, feeSol: real, existing: set<Address>, trade: BuyTrade)
    requires BuyOutcome(settings, user, pool, solAmount, poolType, slippagePct, feeSol, existing) == Success(trade)
    requires pool.tokenBase != pool.tokenQuote
    ensures CreatedBeforeWritten(trade.instructions)
  {
    var plan := PlanBuy(settings, pool, solAmount, poolType, slippagePct, feeSol).value;
    var swap := BuySwap(settings, user, pool, poolType, plan.sizing).value;
    BuyListCreatesBeforeWriting(settings, plan, user, pool, existing, swap);
  }

  lemma BuyListCreatesBeforeWriting(settings: SwapSettings, plan: BuyPlan, user: Address, pool: PoolData,
                                    existing: set<Address>, swap: Instruction)
    requires pool.tokenBase != pool.tokenQuote
    ensures CreatedBeforeWritten(BuyInstructions(settings, plan, user, pool, existing, swap))
  {
    var ixs := BuyInstructions(settings, plan, user, pool, existing, swap);
    var quoteCreation := CreateAtaIfNeeded(existing, user, pool.tokenQuote);
    var t := 2 + |quoteCreation|;
    var baseAt := t + 2;
    assert user < Ata(user, pool.tokenBase);
    forall i, j | 0 <= j < i < |ixs| && ixs[i].CreateAta?
      ensures !Writes(ixs[j], Ata(ixs[i].owner, ixs[i].mint))
    {
      if i < t {
        assert ixs[i] == CreateAta(user, user, pool.tokenQuote) && j < 2;
      } else {
        assert i == baseAt && ixs[i] == CreateAta(user, user, pool.tokenBase);
        assert j < 2 || ixs[j] in quoteCreation + [Transfer(user, Ata(user, pool.tokenQuote), plan.sizing.maxQuoteInLamports),
                                                  SyncNative(Ata(user, pool.tokenQuote))];
      }
    }
  }

  // ---------------------------------------------------------------------
  // Sell

  /** The share of the balance to sell: balance * (sell_pct / 100). */
  function AmountToSell(balance: real, sellPct: real): real
  {
    balance * (sellPct / 100.0)
  }

  /** The SOL the sale must return at least: the sold value less the slippage share. */
  function MinSolOut(toSell: real, price: real, slippagePct: real): real
  {
    toSell * price * (1.0 - slippagePct / 100.0)
  }

  /** The amounts a sale settles before it assembles any instruction, or why it stops. */
  datatype SellPlan = SkipSale | SellFor(baseAmountIn: int, minSolOut: real, minQuoteAmountOut: int, microLamports: int)

  /**
   * The numeric part of a sell: nothing to sell without a positive share of
   * a positive balance; the creator must be known for the current layout;
   * an infinite price makes the SOL bound infinite or NaN, which int()
   * rejects; a bound that truncates to zero or less stops the sale; last
   * comes the compute-unit price for the fee.
   */
  function PlanSale(settings: SwapSettings, pool: PoolData, balance: Option<real>, sellPct: real,
                    poolType: string, slippagePct: real, feeSol: real): (r: Result<SellPlan, Raised>)
    ensures r.Success? && r.value.SellFor? ==>
      && (poolType == NEW_POOL_TYPE ==> pool.coinCreator.Some?)
      && 0 < r.value.minQuoteAmountOut
  {
    if balance.None? || balance.value <= 0.0 then Success(SkipSale)
    else
      var toSell := AmountToSell(balance.value, sellPct);
      if toSell <= 0.0 then Success(SkipSale)
      else if poolType == NEW_POOL_TYPE && pool.coinCreator.None? then Failure(KeyError)
      else
        var baseAmountIn := Trunc(toSell * UnitsPerToken(pool.decimalsBase));
        var price := GetPrice(pool.baseBalanceTokens, pool.quoteBalanceSol);
        if price.Infinite? then Failure(NonFiniteError)
        else
          var minSolOut := MinSolOut(toSell, price.value, slippagePct);
          var minQuoteAmountOut := Trunc(minSolOut * settings.lamportsPerSol);
          if minQuoteAmountOut <= 0 then Success(SkipSale)
          else
            var microLamports := ComputeUnitPriceFromTotalFee(Trunc(feeSol * settings.lamportsPerSol), settings.unitComputeBudget);
            if microLamports.Failure? then Failure(microLamports.error)
            else Success(SellFor(baseAmountIn, minSolOut, minQuoteAmountOut, microLamports.value))
  }

  /** The swap instruction a sell uses; every type other than the current one uses the legacy layout. */
  function SellSwap(settings: SwapSettings, user: Address, pool: PoolData, poolType: string, plan: SellPlan)
    : Result<Instruction, Raised>
    requires plan.SellFor?
    requires poolType == NEW_POOL_TYPE ==> pool.coinCreator.Some?
  {
    if poolType == NEW_POOL_TYPE then
      var vault := DeriveCreatorVault(pool.coinCreator.value, pool.tokenQuote);
      BuildNewPumpSwapSell(settings.sellDiscriminator, user, pool, plan.baseAmountIn, plan.minQuoteAmountOut,
                           PROTOCOL_FEE_RECIP, PROTOCOL_FEE_RECIP_ATA, vault.1, vault.0)
    else
      BuildOldPumpSwapSell(settings.sellDiscriminator, user, pool, plan.baseAmountIn, plan.minQuoteAmountOut,
                           PROTOCOL_FEE_RECIP, PROTOCOL_FEE_RECIP_ATA)
  }

  /** The sell transaction: budget, make sure the wrapped-SOL account exists, swap, unwrap. */
  function SellInstructions(settings: SwapSettings, plan: SellPlan, user: Address, pool: PoolData,
                            existing: set<Address>, swap: Instruction): seq<Ix>
    requires plan.SellFor?
  {
    [SetComputeUnitLimit(settings.unitComputeBudget), SetComputeUnitPrice(plan.microLamports)]
    + CreateAtaIfNeeded(existing, user, pool.tokenQuote)
    + [Invoke(swap), CloseAccount(Ata(user, pool.tokenQuote), user, user)]
  }

  datatype SellAttempt = NotSold | Sold(instructions: seq<Ix>, minSolOut: real)

  /** What selling `sellPct` percent of a base-token `balance` produces: no sale, a transaction, or the exception raised. */
  function SellOutcome(settings: SwapSettings, user: Address, pool: PoolData, balance: Option<real>, sellPct: real,
                       poolType: string, slippagePct: real, feeSol: real, existing: set<Address>)
    : Result<SellAttempt, Raised>
  {
    match PlanSale(settings, pool, balance, sellPct, poolType, slippagePct, feeSol)
    case Failure(e) => Failure(e)
    case Success(SkipSale) => Success(NotSold)
    case Success(plan) =>
      if !BudgetFits(settings.unitComputeBudget, plan.microLamports) then Failure(OverflowError)
      else
        var swap := SellSwap(settings, user, pool, poolType, plan);
        if swap.Failure? then Failure(swap.error)
        else Success(Sold(SellInstructions(settings, plan, user, pool, existing, swap.value), plan.minSolOut))
  }

  /** The sell flow, appending instructions as it goes. */
  method Sell(settings: SwapSettings, user: Address, pool: PoolData, balance: Option<real>, sellPct: real,
              poolType: string, slippagePct: real, feeSol: real, existing: set<Address>)
    returns (r: Result<SellAttempt, Raised>)
    ensures r == SellOutcome(settings, user, pool, balance, sellPct, poolType, slippagePct, feeSol, existing)
  {
    var planned := PlanSale(settings, pool, balance, sellPct, poolType, slippagePct, feeSol);
    if planned.Failure? {
      return Failure(planned.error);
    }
    var plan := planned.value;
    if plan.SkipSale? {
      return Success(NotSold);
    }

    var instructions: seq<Ix> := [];
    if !InU32(settings.unitComputeBudget) {
      return Failure(OverflowError);
    }
    instructions := instructions + [SetComputeUnitLimit(settings.unitComputeBudget)];
    if !InU64(plan.microLamports) {
      return Failure(OverflowError);
    }
    instructions := instructions + [SetComputeUnitPrice(plan.microLamports)];
    instructions := instructions + CreateAtaIfNeeded(existing, user, pool.tokenQuote);

    var sellIx: Result<Instruction, Raised>;
    if poolType == NEW_POOL_TYPE {
      var vault := DeriveCreatorVault(pool.coinCreator.value, pool.tokenQuote);
      sellIx := BuildNewPumpSwapSell(settings.sellDiscriminator, user, pool, plan.baseAmountIn, plan.minQuoteAmountOut,
                                     PROTOCOL_FEE_RECIP, PROTOCOL_FEE_RECIP_ATA, vault.1, vault.0);
    } else {
      sellIx := BuildOldPumpSwapSell(settings.sellDiscriminator, user, pool, plan.baseAmountIn, plan.minQuoteAmountOut,
                                     PROTOCOL_FEE_RECIP, PROTOCOL_FEE_RECIP_ATA);
    }
    if sellIx.Failure? {
      return Failure(sellIx.error);
    }
    instructions := instructions + [Invoke(sellIx.value)];
    var wsolAta := Ata(user, pool.tokenQuote);
    instructions := instructions + [CloseAccount(wsolAta, user, user)];
    assert instructions == SellInstructions(settings, plan, user, pool, existing, sellIx.value);
    r := Success(Sold(instructions, plan.minSolOut));
  }

  /** Without a positive share of a positive balance there is nothing to sell, and no exception. */
  lemma SellNeedsBalance(settings: SwapSettings, user: Address, pool: PoolData, balance: Option<real>, sellPct: real,
                         poolType: string, slippagePct: real, feeSol: real, existing: set<Address>)
    requires balance.None? || balance.value <= 0.0 || sellPct <= 0.0
    ensures SellOutcome(settings, user, pool, balance, sellPct, poolType, slippagePct, feeSol, existing) == Success(NotSold)
  {
    if balance.Some? && balance.value > 0.0 {
      NonPositiveShare(balance.value, sellPct);
    }
    assert PlanSale(settings, pool, balance, sellPct, poolType, slippagePct, feeSol) == Success(SkipSale);
  }

  lemma NonPositiveShare(balance: real, sellPct: real)
    requires 0.0 < balance && sellPct <= 0.0
    ensures AmountToSell(balance, sellPct) <= 0.0
  {
    assert balance * (sellPct / 100.0) == -(balance * (-sellPct / 100.0));
  }

  /**
   * A slippage of 100% or more at a finite, non-negative price leaves no
   * positive SOL bound, so the sell stops without sending.
   */
  lemma SellStopsAtFullSlippage(settings: SwapSettings, user: Address, pool: PoolData, balance: Option<real>,
                                sellPct: real, poolType: string, slippagePct: real, feeSol: real, existing: set<Address>)
    requires 100.0 <= slippagePct && 0.0 <= settings.lamportsPerSol
    requires 0.0 < pool.baseBalanceTokens && 0.0 <= pool.quoteBalanceSol
    requires poolType == NEW_POOL_TYPE ==> pool.coinCreator.Some?
    ensures SellOutcome(settings, user, pool, balance, sellPct, poolType, slippagePct, feeSol, existing) == Success(NotSold)
  {
    if balance.Some? && balance.value > 0.0 {
      var toSell := AmountToSell(balance.value, sellPct);
      if toSell > 0.0 {
        NonNegativePrice(pool.baseBalanceTokens, pool.quoteBalanceSol);
        var price := GetPrice(pool.baseBalanceTokens, pool.quoteBalanceSol).value;
        NoSolBoundAtFullSlippage(toSell, price, slippagePct, settings.lamportsPerSol);
      }
    }
    assert PlanSale(settings, pool, balance, sellPct, poolType, slippagePct, feeSol) == Success(SkipSale);
  }

  lemma NonNegativePrice(baseBalanceTokens: real, quoteBalanceSol: real)
    requires 0.0 < baseBalanceTokens && 0.0 <= quoteBalanceSol
    ensures GetPrice(baseBalanceTokens, quoteBalanceSol).Finite?
    ensures GetPrice(baseBalanceTokens, quoteBalanceSol).value >= 0.0
  {
  }

  lemma NoSolBoundAtFullSlippage(toSell: real, price: real, slippagePct: real, lamportsPerSol: real)
    requires 0.0 < toSell && 0.0 <= price && 100.0 <= slippagePct && 0.0 <= lamportsPerSol
    ensures Trunc(MinSolOut(toSell, price, slippagePct) * lamportsPerSol) <= 0
  {
    var value := toSell * price;
    assert 0.0 <= value;
    var factor := 1.0 - slippagePct / 100.0;
    assert factor <= 0.0;
    assert value * factor <= 0.0 by {
      assert value * factor == -(value * -factor);
    }
    var scaled := MinSolOut(toSell, price, slippagePct) * lamportsPerSol;
    assert scaled <= 0.0 by {
      assert scaled == -(-(value * factor) * lamportsPerSol);
    }
    TruncBounds(scaled);
  }

  /** With an empty quote reserve the price is zero, so a sell stops without sending. */
  lemma SellStopsOnEmptyQuoteReserve(settings: SwapSettings, user: Address, pool: PoolData, balance: Option<real>,
                                     sellPct: real, poolType: string, slippagePct: real, feeSol: real, existing: set<Address>)
    requires 0.0 < pool.baseBalanceTokens && pool.quoteBalanceSol == 0.0
    requires poolType == NEW_POOL_TYPE ==> pool.coinCreator.Some?
    ensures SellOutcome(settings, user, pool, balance, sellPct, poolType, slippagePct, feeSol, existing) == Success(NotSold)
  {
    if balance.Some? && balance.value > 0.0 {
      var toSell := AmountToSell(balance.value, sellPct);
      if toSell > 0.0 {
        assert GetPrice(pool.baseBalanceTokens, pool.quoteBalanceSol) == Finite(0.0);
        assert MinSolOut(toSell, 0.0, slippagePct) * settings.lamportsPerSol == 0.0;
        TruncBounds(0.0);
      }
    }
    assert PlanSale(settings, pool, balance, sellPct, poolType, slippagePct, feeSol) == Success(SkipSale);
  }

  /** When the reserves report no base tokens the price is infinite and a sale with something to sell raises. */
  lemma SellRaisesOnEmptyBaseReserve(settings: SwapSettings, user: Address, pool: PoolData, balance: real,
                                     sellPct: real, poolType: string, slippagePct: real, feeSol: real, existing: set<Address>)
    requires pool.baseBalanceTokens <= 0.0 && 0.0 < balance && 0.0 < AmountToSell(balance, sellPct)
    requires poolType == NEW_POOL_TYPE ==> pool.coinCreator.Some?
    ensures SellOutcome(settings, user, pool, Some(balance), sellPct, poolType, slippagePct, feeSol, existing) == Failure(NonFiniteError)
  {
    assert PlanSale(settings, pool, Some(balance), sellPct, poolType, slippagePct, feeSol) == Failure(NonFiniteError);
  }

  /** The current layout needs the pool's coin creator; without it a sale with something to sell raises. */
  lemma SellNeedsCoinCreator(settings: SwapSettings, user: Address, pool: PoolData, balance: real,
                             sellPct: real, slippagePct: real, feeSol: real, existing: set<Address>)
    requires pool.coinCreator.None? && 0.0 < balance && 0.0 < AmountToSell(balance, sellPct)
    ensures SellOutcome(settings, user, pool, Some(balance), sellPct, NEW_POOL_TYPE, slippagePct, feeSol, existing) == Failure(KeyError)
  {
    assert PlanSale(settings, pool, Some(balance), sellPct, NEW_POOL_TYPE, slippagePct, feeSol) == Failure(KeyError);
  }

  /**
   * Once a sale is planned, it raises OverflowError exactly when the compute
   * budget or the compute-unit price is outside the range its instruction
   * takes; the swap builders raise other errors.
   */
  lemma SellOverflowsIff(settings: SwapSettings, user: Address, pool: PoolData, balance: Option<real>, sellPct: real,
                         poolType: string, slippagePct: real, feeSol: real, existing: set<Address>)
    requires PlanSale(settings, pool, balance, sellPct, poolType, slippagePct, feeSol).Success?
    requires PlanSale(settings, pool, balance, sellPct, poolType, slippagePct, feeSol).value.SellFor?
    ensures
      var plan := PlanSale(settings, pool, balance, sellPct, poolType, slippagePct, feeSol).value;
      SellOutcome(settings, user, pool, balance, sellPct, poolType, slippagePct, feeSol, existing) == Failure(OverflowError)
      <==> !BudgetFits(settings.unitComputeBudget, plan.microLamports)
  {
  }

  /** The amounts of a sale that goes ahead, in terms of the inputs. */
  lemma SellPlanAmounts(settings: SwapSettings, pool: PoolData, balance: Option<real>, sellPct: real,
                        poolType: string, slippagePct: real, feeSol: real, plan: SellPlan)
    requires PlanSale(settings, pool, balance, sellPct, poolType, slippagePct, feeSol) == Success(plan)
    requires plan.SellFor?
    ensures balance.Some? && GetPrice(pool.baseBalanceTokens, pool.quoteBalanceSol).Finite?
    ensures plan.minSolOut == MinSolOut(AmountToSell(balance.value, sellPct), GetPrice(pool.baseBalanceTokens, pool.quoteBalanceSol).value, slippagePct)
    ensures plan.minQuoteAmountOut == Trunc(plan.minSolOut * settings.lamportsPerSol)
    ensures plan.baseAmountIn == Trunc(AmountToSell(balance.value, sellPct) * UnitsPerToken(pool.decimalsBase))
  {
  }

  /** Where each instruction of a sale sits. */
  lemma SellListShape(settings: SwapSettings, plan: SellPlan, user: Address, pool: PoolData,
                      existing: set<Address>, swap: Instruction)
    requires plan.SellFor?
    ensures
      var ixs := SellInstructions(settings, plan, user, pool, existing, swap);
      && ComputeBudgetFirst(ixs)
      && CreatedBeforeWritten(ixs)
      && ixs[0] == SetComputeUnitLimit(settings.unitComputeBudget)
      && ixs[1] == SetComputeUnitPrice(plan.microLamports)
      && ixs[|ixs| - 2] == Invoke(swap)
      && ixs[|ixs| - 1] == CloseAccount(Ata(user, pool.tokenQuote), user, user)
  {
  }

  /**
   * A sale that goes ahead: the compute budget comes first, nothing is
   * written before it is created, the swap comes next to last and uses the
   * current layout exactly for the current pool type, and the wrapped-SOL
   * account is closed back to the user last.
   */
  lemma SellTransactionShape(settings: SwapSettings, user: Address, pool: PoolData, balance: Option<real>,
                             sellPct: real, poolType: string, slippagePct: real, feeSol: real, existing: set<Address>,
                             ixs: seq<Ix>, minSolOut: real)
    requires SellOutcome(settings, user, pool, balance, sellPct, poolType, slippagePct, feeSol, existing) == Success(Sold(ixs, minSolOut))
    ensures ComputeBudgetFirst(ixs) && CreatedBeforeWritten(ixs)
    ensures ixs[|ixs| - 1] == CloseAccount(Ata(user, pool.tokenQuote), user, user)
    ensures ixs[|ixs| - 2].Invoke?
    ensures |ixs[|ixs| - 2].instruction.accounts| == 19 <==> poolType == NEW_POOL_TYPE
  {
    var plan := PlanSale(settings, pool, balance, sellPct, poolType, slippagePct, feeSol).value;
    var swap := SellSwap(settings, user, pool, poolType, plan).value;
    SellListShape(settings, plan, user, pool, existing, swap);
  }

  /** A sale that goes ahead is the transaction of its plan around the swap the pool type selects. */
  lemma SoldFromPlan(settings: SwapSettings, user: Address, pool: PoolData, balance: Option<real>,
                     sellPct: real, poolType: string, slippagePct: real, feeSol: real, existing: set<Address>,
                     ixs: seq<Ix>, minSolOut: real)
    requires SellOutcome(settings, user, pool, balance, sellPct, poolType, slippagePct, feeSol, existing) == Success(Sold(ixs, minSolOut))
    ensures
      var planned := PlanSale(settings, pool, balance, sellPct, poolType, slippagePct, feeSol);
      && planned.Success? && planned.value.SellFor?
      && (poolType == NEW_POOL_TYPE ==> pool.coinCreator.Some?)
      && SellSwap(settings, user, pool, poolType, planned.value).Success?
      && minSolOut == planned.value.minSolOut
      && ixs == SellInstructions(settings, planned.value, user, pool, existing,
                                 SellSwap(settings, user, pool, poolType, planned.value).value)
  {
  }

  /** The swap a sale builds sells the planned base amount for at least the planned lamports. */
  lemma SellSwapPayload(settings: SwapSettings, user: Address, pool: PoolData, poolType: string,
                        plan: SellPlan, swap: Instruction)
    requires plan.SellFor? && (poolType == NEW_POOL_TYPE ==> pool.coinCreator.Some?)
    requires SellSwap(settings, user, pool, poolType, plan) == Success(swap)
    ensures EncodesSwapData(swap.data, settings.sellDiscriminator, plan.baseAmountIn, plan.minQuoteAmountOut)
  {
    SwapPayload(swap, settings.sellDiscriminator, plan.baseAmountIn, plan.minQuoteAmountOut);
  }
}
