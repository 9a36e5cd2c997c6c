/**
 * The bonding-curve venue: the twelve-account swap instruction shared by
 * buys and sells, and the buy and sell flows that guard a trade, size it and
 * assemble its transaction. Chain reads (coin data, token accounts, the
 * token balance, the curve quote) are parameters; sending and confirming
 * the transaction is the `confirm` parameter of `ReportedConfirmation`.
 */
module PumpFun {
  import opened Solana

  // Fixed identities from configuration.
  const PUMP_FUN_PROGRAM: Address := Named("constants.pump_fun_program")
  const GLOBAL: Address := Named("constants.global")
  const FEE_RECIPIENT: Address := Named("constants.fee_recipient")
  const EVENT_AUTHORITY: Address := Named("constants.event_authority")

  /** The operation codes "66063d1201daebea" (buy) and "33e685a4017f83ad" (sell), hex-decoded. */
  const BUY_OPCODE: seq<Byte> := [0x66, 0x06, 0x3d, 0x12, 0x01, 0xda, 0xeb, 0xea]
  const SELL_OPCODE: seq<Byte> := [0x33, 0xe6, 0x85, 0xa4, 0x01, 0x7f, 0x83, 0xad]

  const SOL_DEC: real := 1000000000.0
  const TOKEN_DEC: real := 1000000.0

  /** Configuration values the flows read: the compute-unit limit and price. */
  datatype CurveSettings = CurveSettings(unitBudget: int, unitPrice: int)

  /** What get_coin_data reports about a mint on the curve. */
  datatype CoinData = CoinData(
    mint: Address,
    bondingCurve: Address,
    associatedBondingCurve: Address,
    creator: Address,
    complete: bool,
    virtualSolReserves: real,
    virtualTokenReserves: real)

  // ---------------------------------------------------------------------
  // The swap instruction

  /** Writable positions: fee recipient, curve, curve token account, user token account, user, creator vault. */
  function CurveWritable(isBuy: bool): set<int>
  {
    if isBuy then {1, 3, 4, 5, 6, 9} else {1, 3, 4, 5, 6, 8}
  }

  /**
   * The account list of a curve swap; a buy lists the token program before
   * the creator vault and a sell lists them the other way round.
   */
  function CurveAccounts(isBuy: bool, mint: Address, bondingCurve: Address, associatedBondingCurve: Address,
                         associatedUser: Address, user: Address, creatorVault: Address): (r: seq<AccountMeta>)
    ensures |r| == 12
    ensures r[6] == AccountMeta(user, true, true)
    ensures HasFlags(r, {6}, CurveWritable(isBuy))
    ensures r[0].key == GLOBAL && r[1].key == FEE_RECIPIENT && r[2].key == mint && r[3].key == bondingCurve
    ensures r[4].key == associatedBondingCurve && r[5].key == associatedUser && r[7].key == SYSTEM_PROGRAM
    ensures r[if isBuy then 8 else 9].key == TOKEN_PROGRAM && r[if isBuy then 9 else 8].key == creatorVault
    ensures r[10].key == EVENT_AUTHORITY && r[11].key == PUMP_FUN_PROGRAM
  {
    if isBuy then
      [ AccountMeta(GLOBAL, false, false),
        AccountMeta(FEE_RECIPIENT, false, true),
        AccountMeta(mint, false, false),
        AccountMeta(bondingCurve, false, true),
        AccountMeta(associatedBondingCurve, false, true),
        AccountMeta(associatedUser, false, true),
        AccountMeta(user, true, true),
        AccountMeta(SYSTEM_PROGRAM, false, false),
        AccountMeta(TOKEN_PROGRAM, false, false),
        AccountMeta(creatorVault, false, true),
        AccountMeta(EVENT_AUTHORITY, false, false),
        AccountMeta(PUMP_FUN_PROGRAM, false, false) ]
    else
      [ AccountMeta(GLOBAL, false, false),
        AccountMeta(FEE_RECIPIENT, false, true),
        AccountMeta(mint, false, false),
        AccountMeta(bondingCurve, false, true),
        AccountMeta(associatedBondingCurve, false, true),
        AccountMeta(associatedUser, false, true),
        AccountMeta(user, true, true),
        AccountMeta(SYSTEM_PROGRAM, false, false),
        AccountMeta(creatorVault, false, true),
        AccountMeta(TOKEN_PROGRAM, false, false),
        AccountMeta(EVENT_AUTHORITY, false, false),
        AccountMeta(PUMP_FUN_PROGRAM, false, false) ]
  }

  /** The buy and sell lists agree everywhere except that positions 8 and 9 trade places. */
  lemma CurveListsSwapOnePair(mint: Address, bondingCurve: Address, associatedBondingCurve: Address,
                              associatedUser: Address, user: Address, creatorVault: Address)
    ensures
      var buy := CurveAccounts(true, mint, bondingCurve, associatedBondingCurve, associatedUser, user, creatorVault);
      var sell := CurveAccounts(false, mint, bondingCurve, associatedBondingCurve, associatedUser, user, creatorVault);
      && (forall k :: 0 <= k < 12 && k != 8 && k != 9 ==> buy[k] == sell[k])
      && buy[8] == sell[9] && buy[9] == sell[8]
  {
  }

  /**
   * A curve swap with its accounts and payload: the opcode followed by the
   * two amounts as "<Q", which struct.pack refuses outside the u64 range.
   */
  predicate IsCurveSwap(ix: Instruction, opcode: seq<Byte>, amount: int, solAmount: int, isBuy: bool,
                        associatedUser: Address, user: Address, creatorVault: Address)
  {
    && ix.programId == PUMP_FUN_PROGRAM
    && SwapData(opcode, amount, solAmount) == Some(ix.data)
    && |ix.accounts| == 12
    && ix.accounts[5].key == associatedUser
    && ix.accounts[6] == AccountMeta(user, true, true)
    && ix.accounts[if isBuy then 9 else 8].key == creatorVault
    && HasFlags(ix.accounts, {6}, CurveWritable(isBuy))
  }

  /** create_swap_instruction: struct.error unless both amounts fit in a u64. */
  function CreateSwapInstruction(opcode: seq<Byte>, mint: Address, bondingCurve: Address,
                                 associatedBondingCurve: Address, associatedUser: Address, user: Address,
                                 creatorVault: Address, amount: int, solAmount: int, isBuy: bool)
    : (r: Result<Instruction, Raised>)
    ensures r.Success? <==> InU64(amount) && InU64(solAmount)
    ensures r.Failure? ==> r.error == StructError
    ensures r.Success? ==> IsCurveSwap(r.value, opcode, amount, solAmount, isBuy, associatedUser, user, creatorVault)
  {
    match SwapData(opcode, amount, solAmount)
    case None => Failure(StructError)
    case Some(data) =>
      Success(Instruction(PUMP_FUN_PROGRAM, data,
                          CurveAccounts(isBuy, mint, bondingCurve, associatedBondingCurve, associatedUser, user, creatorVault)))
  }

  /** The payload of a curve swap decodes to the amounts it was built from. */
  lemma CurveSwapPayload(ix: Instruction, opcode: seq<Byte>, amount: int, solAmount: int, isBuy: bool,
                         associatedUser: Address, user: Address, creatorVault: Address)
    requires IsCurveSwap(ix, opcode, amount, solAmount, isBuy, associatedUser, user, creatorVault)
    ensures |ix.data| == |opcode| + 16
    ensures EncodesSwapData(ix.data, opcode, amount, solAmount)
  {
    SwapDataEncodes(opcode, amount, solAmount);
  }

  /** The creator's fee vault: the curve program's address for ["creator-vault", creator]. */
  function CreatorVault(creator: Address): Address
  {
    Pda([Literal("creator-vault"), KeyOf(creator)], PUMP_FUN_PROGRAM)
  }

  /** Every creator has a vault of their own: two creators never share one. */
  lemma CreatorVaultPerCreator(creator1: Address, creator2: Address)
    ensures CreatorVault(creator1) == CreatorVault(creator2) <==> creator1 == creator2
  {
  }

  datatype CurveTrade = Declined | Submit(instructions: seq<Ix>)

  /**
   * The boolean a flow returns: a declined trade and a raised exception
   * both report False; a submitted transaction reports what sending and
   * confirming it reports.
   */
  function ReportedConfirmation(outcome: Result<CurveTrade, Raised>, confirm: seq<Ix> -> bool): (ok: bool)
    ensures ok ==> outcome.Success? && outcome.value.Submit?
  {
    match outcome
    case Success(Submit(ixs)) => confirm(ixs)
    case _ => false
  }

  // ---------------------------------------------------------------------
  // Buy

  /** The fixed buy size: 1000 tokens of six decimals, whatever the SOL amount. */
  const BUY_TOKEN_AMOUNT: int := Trunc(1000.0 * TOKEN_DEC)

  /** The SOL a buy may spend: the SOL amount plus the slippage percentage, in lamports. */
  function MaxSolCost(solIn: real, slippage: int): int
  {
    Trunc(solIn * (1.0 + slippage as real / 100.0) * SOL_DEC)
  }

  /**
   * For a non-negative SOL amount and slippage, the cap is a whole number of
   * lamports no smaller than the SOL amount itself in lamports.
   */
  lemma MaxSolCostCoversSpend(solIn: real, slippage: int)
    requires 0.0 <= solIn && 0 <= slippage
    ensures Trunc(solIn * SOL_DEC) <= MaxSolCost(solIn, slippage)
    ensures 0 <= MaxSolCost(solIn, slippage)
  {
    var extra := solIn * (slippage as real / 100.0);
    assert 0.0 <= extra;
    assert solIn * (1.0 + slippage as real / 100.0) * SOL_DEC == solIn * SOL_DEC + extra * SOL_DEC;
    TruncMonotonic(solIn * SOL_DEC, solIn * (1.0 + slippage as real / 100.0) * SOL_DEC);
    TruncBounds(solIn * SOL_DEC);
  }

  /** The first token account the user already holds for the mint, else the associated one the buy creates. */
  function TokenAccountFor(user: Address, mint: Address, tokenAccounts: seq<Address>): Address
  {
    if |tokenAccounts| > 0 then tokenAccounts[0] else Ata(user, mint)
  }

  function TokenAccountCreation(user: Address, mint: Address, tokenAccounts: seq<Address>): seq<Ix>
  {
    if |tokenAccounts| > 0 then [] else [CreateAta(user, user, mint)]
  }

  function CurveBuySwap(user: Address, coin: CoinData, tokenAccounts: seq<Address>, solIn: real, slippage: int)
    : Result<Instruction, Raised>
  {
    CreateSwapInstruction(BUY_OPCODE, coin.mint, coin.bondingCurve, coin.associatedBondingCurve,
                          TokenAccountFor(user, coin.mint, tokenAccounts), user, CreatorVault(coin.creator),
                          BUY_TOKEN_AMOUNT, MaxSolCost(solIn, slippage), true)
  }

  /** The buy transaction: budget, the token account when the user has none, the swap. */
  function CurveBuyInstructions(settings: CurveSettings, user: Address, mint: Address, tokenAccounts: seq<Address>,
                                swap: Instruction): seq<Ix>
  {
    [SetComputeUnitLimit(settings.unitBudget), SetComputeUnitPrice(settings.unitPrice)]
    + TokenAccountCreation(user, mint, tokenAccounts)
    + [Invoke(swap)]
  }

  /**
   * What buy_bonding_curve does before sending: `coin` is what get_coin_data
   * returned and `tokenAccounts` the user's token accounts for the mint.
   */
  function BuyBondingCurveOutcome(settings: CurveSettings, user: Address, coin: Option<CoinData>,
                                  tokenAccounts: seq<Address>, solIn: real, slippage: int): Result<CurveTrade, Raised>
  {
    if coin.None? || coin.value.complete then Success(Declined)
    else
      match CurveBuySwap(user, coin.value, tokenAccounts, solIn, slippage)
      case Failure(e) => Failure(e)
      case Success(swap) =>
        if !BudgetFits(settings.unitBudget, settings.unitPrice) then Failure(OverflowError)
        else Success(Submit(CurveBuyInstructions(settings, user, coin.value.mint, tokenAccounts, swap)))
  }

  /** The buy flow, collecting instructions as it goes. */
  method BuyBondingCurve(settings: CurveSettings, user: Address, coin: Option<CoinData>,
                         tokenAccounts: seq<Address>, solIn: real, slippage: int) returns (r: Result<CurveTrade, Raised>)
    ensures r == BuyBondingCurveOutcome(settings, user, coin, tokenAccounts, solIn, slippage)
  {
    if coin.None? {
      return Success(Declined);
    }
    var data := coin.value;
    if data.complete {
      return Success(Declined);
    }
    var creatorVault := CreatorVault(data.creator);

    var additional: seq<Ix> := [];
    var associatedUser: Address;
    if |tokenAccounts| > 0 {
      associatedUser := tokenAccounts[0];
    } else {
      associatedUser := Ata(user, data.mint);
      additional := additional + [CreateAta(user, user, data.mint)];
    }

    var amount := Trunc(1000.0 * TOKEN_DEC);
    var maxSolCost := Trunc(solIn * (1.0 + slippage as real / 100.0) * SOL_DEC);
    var swap := CreateSwapInstruction(BUY_OPCODE, data.mint, data.bondingCurve, data.associatedBondingCurve,
                                      associatedUser, user, creatorVault, amount, maxSolCost, true);
    assert swap == CurveBuySwap(user, data, tokenAccounts, solIn, slippage);
    if swap.Failure? {
      return Failure(swap.error);
    }

    if !InU32(settings.unitBudget) || !InU64(settings.unitPrice) {
      return Failure(OverflowError);
    }
    var instructions := [SetComputeUnitLimit(settings.unitBudget), SetComputeUnitPrice(settings.unitPrice)];
    if |additional| > 0 {
      instructions := instructions + additional;
    }
    instructions := instructions + [Invoke(swap.value)];
    assert instructions == CurveBuyInstructions(settings, user, data.mint, tokenAccounts, swap.value);
    r := Success(Submit(instructions));
  }

  /** The buy size does not depend on the SOL amount: it is 10^9 base units. */
  lemma BuyAmountIsFixed()
    ensures BUY_TOKEN_AMOUNT == 1000000000
  {
    TruncBounds(1000.0 * TOKEN_DEC);
  }

  /** A buy is declined exactly when there is no coin data or the curve is complete. */
  lemma CurveBuyDeclinesIff(settings: CurveSettings, user: Address, coin: Option<CoinData>,
                            tokenAccounts: seq<Address>, solIn: real, slippage: int)
    ensures BuyBondingCurveOutcome(settings, user, coin, tokenAccounts, solIn, slippage) == Success(Declined)
        <==> coin.None? || coin.value.complete
  {
  }

  /**
   * Past the guards, a buy raises exactly when the SOL bound does not fit a
   * u64 (for instance with a negative SOL amount), which struct.pack refuses,
   * or when the configured compute budget does not fit its instructions,
   * which solders refuses next.
   */
  lemma CurveBuyRaisesIff(settings: CurveSettings, user: Address, coin: CoinData,
                          tokenAccounts: seq<Address>, solIn: real, slippage: int)
    requires !coin.complete
    ensures BuyBondingCurveOutcome(settings, user, Some(coin), tokenAccounts, solIn, slippage).Failure?
        <==> !InU64(MaxSolCost(solIn, slippage)) || !BudgetFits(settings.unitBudget, settings.unitPrice)
    ensures BuyBondingCurveOutcome(settings, user, Some(coin), tokenAccounts, solIn, slippage).Failure? ==>
            BuyBondingCurveOutcome(settings, user, Some(coin), tokenAccounts, solIn, slippage).error
            == if InU64(MaxSolCost(solIn, slippage)) then OverflowError else StructError
  {
    BuyAmountIsFixed();
  }

  /**
   * A submitted buy: the compute budget first, and within the ranges its
   * instructions take, the token account created right after it exactly
   * when the user holds none, the swap last.
   */
  lemma CurveBuyShape(settings: CurveSettings, user: Address, coin: Option<CoinData>,
                      tokenAccounts: seq<Address>, solIn: real, slippage: int, ixs: seq<Ix>)
    requires BuyBondingCurveOutcome(settings, user, coin, tokenAccounts, solIn, slippage) == Success(Submit(ixs))
    ensures coin.Some? && ComputeBudgetFirst(ixs) && CreatedBeforeWritten(ixs)
    ensures ixs[0] == SetComputeUnitLimit(settings.unitBudget) && ixs[1] == SetComputeUnitPrice(settings.unitPrice)
    ensures BudgetFits(settings.unitBudget, settings.unitPrice)
    ensures |ixs| == 4 <==> |tokenAccounts| == 0
    ensures |tokenAccounts| == 0 ==> ixs[2] == CreateAta(user, user, coin.value.mint)
    ensures ixs[|ixs| - 1].Invoke?
  {
  }

  /**
   * The swap of a submitted buy spends from the token account the buy uses,
   * pays the creator's vault, asks for the fixed amount and caps the SOL at
   * the slippage-adjusted SOL amount.
   */
  lemma CurveBuyPayload(settings: CurveSettings, user: Address, coin: Option<CoinData>,
                        tokenAccounts: seq<Address>, solIn: real, slippage: int, ixs: seq<Ix>)
    requires BuyBondingCurveOutcome(settings, user, coin, tokenAccounts, solIn, slippage) == Success(Submit(ixs))
    ensures coin.Some? && 3 <= |ixs| && ixs[|ixs| - 1].Invoke?
    ensures
      var swap := ixs[|ixs| - 1].instruction;
      && IsCurveSwap(swap, BUY_OPCODE, BUY_TOKEN_AMOUNT, MaxSolCost(solIn, slippage), true,
                     TokenAccountFor(user, coin.value.mint, tokenAccounts), user, CreatorVault(coin.value.creator))
      && EncodesSwapData(swap.data, BUY_OPCODE, 1000000000, MaxSolCost(solIn, slippage))
  {
    var swap := CurveBuySwap(user, coin.value, tokenAccounts, solIn, slippage).value;
    assert ixs[|ixs| - 1] == Invoke(swap);
    BuyAmountIsFixed();
    CurveSwapPayload(swap, BUY_OPCODE, BUY_TOKEN_AMOUNT, MaxSolCost(solIn, slippage), true,
                     TokenAccountFor(user, coin.value.mint, tokenAccounts), user, CreatorVault(coin.value.creator));
  }

  // ---------------------------------------------------------------------
  // Sell

  /** The share of the balance to sell: balance * (percentage / 100). */
  function SellTokenAmount(balance: real, percentage: int): real
  {
    balance * (percentage as real / 100.0)
  }

  /** The curve's quote for the sold tokens, with reserves scaled to SOL and whole tokens. */
  function SolOut(coin: CoinData, tokens: real, tokensForSol: (real, real, real) -> real): real
  {
    tokensForSol(tokens, coin.virtualSolReserves / SOL_DEC, coin.virtualTokenReserves / TOKEN_DEC)
  }

  /** The SOL a sale must return at least: the quote less the slippage percentage, in lamports. */
  function MinSolOutput(solOut: real, slippage: int): int
  {
    Trunc(solOut * (1.0 - slippage as real / 100.0) * SOL_DEC)
  }

  /**
   * For a non-negative quote and slippage, the minimum never asks for more
   * lamports than the quote; up to 100% slippage it is not negative.
   */
  lemma MinSolOutputBelowQuote(solOut: real, slippage: int)
    requires 0.0 <= solOut && 0 <= slippage
    ensures MinSolOutput(solOut, slippage) <= Trunc(solOut * SOL_DEC)
    ensures slippage <= 100 ==> 0 <= MinSolOutput(solOut, slippage)
  {
    var cut := solOut * (slippage as real / 100.0);
    assert 0.0 <= cut;
    var scaled := solOut * (1.0 - slippage as real / 100.0) * SOL_DEC;
    assert scaled == solOut * SOL_DEC - cut * SOL_DEC;
    TruncMonotonic(scaled, solOut * SOL_DEC);
    if slippage <= 100 {
      var factor := 1.0 - slippage as real / 100.0;
      NonNegativeProduct(solOut, factor);
      TruncBounds(scaled);
    }
  }

  lemma NonNegativeProduct(a: real, b: real)
    requires 0.0 <= a && 0.0 <= b
    ensures 0.0 <= a * b
  {
  }

  /** A sale always sells from, and closes, the user's associated token account. */
  function CurveSellSwap(user: Address, coin: CoinData, balance: real, percentage: int,
                         tokensForSol: (real, real, real) -> real, slippage: int): Result<Instruction, Raised>
  {
    var tokens := SellTokenAmount(balance, percentage);
    CreateSwapInstruction(SELL_OPCODE, coin.mint, coin.bondingCurve, coin.associatedBondingCurve,
                          Ata(user, coin.mint), user, CreatorVault(coin.creator),
                          Trunc(tokens * TOKEN_DEC), MinSolOutput(SolOut(coin, tokens, tokensForSol), slippage), false)
  }

  /** The sell transaction: budget, the swap, and a close of the token account on a full sale. */
  function CurveSellInstructions(settings: CurveSettings, user: Address, mint: Address, percentage: int,
                                 swap: Instruction): seq<Ix>
  {
    [SetComputeUnitLimit(settings.unitBudget), SetComputeUnitPrice(settings.unitPrice), Invoke(swap)]
    + (if percentage == 100 then [CloseAccount(Ata(user, mint), user, user)] else [])
  }

  /**
   * What sell_bonding_curve does before sending: `balance` is what
   * get_token_balance returned and `tokensForSol` the curve's quote function.
   */
  function SellBondingCurveOutcome(settings: CurveSettings, user: Address, percentage: int, coin: Option<CoinData>,
                                   balance: Option<real>, tokensForSol: (real, real, real) -> real, slippage: int)
    : Result<CurveTrade, Raised>
  {
    if !(1 <= percentage <= 100) then Success(Declined)
    else if coin.None? || coin.value.complete then Success(Declined)
    else if balance.None? || balance.value == 0.0 then Success(Declined)
    else
      match CurveSellSwap(user, coin.value, balance.value, percentage, tokensForSol, slippage)
      case Failure(e) => Failure(e)
      case Success(swap) =>
        if !BudgetFits(settings.unitBudget, settings.unitPrice) then Failure(OverflowError)
        else Success(Submit(CurveSellInstructions(settings, user, coin.value.mint, percentage, swap)))
  }

  /** The sell flow, collecting instructions as it goes. */
  method SellBondingCurve(settings: CurveSettings, user: Address, percentage: int, coin: Option<CoinData>,
                          balance: Option<real>, tokensForSol: (real, real, real) -> real, slippage: int)
    returns (r: Result<CurveTrade, Raised>)
    ensures r == SellBondingCurveOutcome(settings, user, percentage, coin, balance, tokensForSol, slippage)
  {
    if !(1 <= percentage <= 100) {
      return Success(Declined);
    }
    if coin.None? {
      return Success(Declined);
    }
    var data := coin.value;
    if data.complete {
      return Success(Declined);
    }
    var associatedUser := Ata(user, data.mint);
    if balance.None? || balance.value == 0.0 {
      return Success(Declined);
    }

    var swap := CurveSellSwap(user, data, balance.value, percentage, tokensForSol, slippage);
    if swap.Failure? {
      return Failure(swap.error);
    }

    var additional: seq<Ix> := [];
    if percentage == 100 {
      additional := additional + [CloseAccount(associatedUser, user, user)];
    }
    if !InU32(settings.unitBudget) || !InU64(settings.unitPrice) {
      return Failure(OverflowError);
    }
    var instructions := [SetComputeUnitLimit(settings.unitBudget), SetComputeUnitPrice(settings.unitPrice), Invoke(swap.value)];
    if |additional| > 0 {
      instructions := instructions + additional;
    }
    assert instructions == CurveSellInstructions(settings, user, data.mint, percentage, swap.value);
    r := Success(Submit(instructions));
  }

  /**
   * A sale is declined exactly when the percentage is outside 1..100, there
   * is no coin data, the curve is complete, or the balance is missing or zero.
   */
  lemma CurveSellDeclinesIff(settings: CurveSettings, user: Address, percentage: int, coin: Option<CoinData>,
                             balance: Option<real>, tokensForSol: (real, real, real) -> real, slippage: int)
    ensures SellBondingCurveOutcome(settings, user, percentage, coin, balance, tokensForSol, slippage) == Success(Declined)
        <==> !(1 <= percentage <= 100) || coin.None? || coin.value.complete || balance.None? || balance.value == 0.0
  {
  }

  /** The percentage is checked before anything is looked up: outside 1..100 nothing else matters. */
  lemma CurveSellChecksPercentageFirst(settings: CurveSettings, user: Address, percentage: int,
                                       coin1: Option<CoinData>, balance1: Option<real>,
                                       coin2: Option<CoinData>, balance2: Option<real>,
                                       tokensForSol: (real, real, real) -> real, slippage: int)
    requires !(1 <= percentage <= 100)
    ensures SellBondingCurveOutcome(settings, user, percentage, coin1, balance1, tokensForSol, slippage)
         == SellBondingCurveOutcome(settings, user, percentage, coin2, balance2, tokensForSol, slippage)
  {
  }

  /**
   * Unlike the AMM sell there is no guard on the SOL bound: a bound below
   * zero (a slippage above 100% on a positive quote) raises struct.error, so
   * the flow reports False without sending.
   */
  lemma CurveSellRaisesOnNegativeBound(settings: CurveSettings, user: Address, percentage: int, coin: CoinData,
                                       balance: real, tokensForSol: (real, real, real) -> real, slippage: int)
    requires 1 <= percentage <= 100 && !coin.complete && balance != 0.0
    requires MinSolOutput(SolOut(coin, SellTokenAmount(balance, percentage), tokensForSol), slippage) < 0
    ensures SellBondingCurveOutcome(settings, user, percentage, Some(coin), Some(balance), tokensForSol, slippage)
         == Failure(StructError)
  {
  }

  /**
   * A submitted sale: the compute budget first, and within the ranges its
   * instructions take, then the swap, then, on a full sale only, the close
   * of the very token account the swap sold from.
   */
  lemma CurveSellShape(settings: CurveSettings, user: Address, percentage: int, coin: Option<CoinData>,
                       balance: Option<real>, tokensForSol: (real, real, real) -> real, slippage: int, ixs: seq<Ix>)
    requires SellBondingCurveOutcome(settings, user, percentage, coin, balance, tokensForSol, slippage) == Success(Submit(ixs))
    ensures coin.Some? && ComputeBudgetFirst(ixs)
    ensures ixs[0] == SetComputeUnitLimit(settings.unitBudget) && ixs[1] == SetComputeUnitPrice(settings.unitPrice)
    ensures BudgetFits(settings.unitBudget, settings.unitPrice)
    ensures ixs[2].Invoke? && ixs[2].instruction.accounts[5].key == Ata(user, coin.value.mint)
    ensures |ixs| == 4 <==> percentage == 100
    ensures percentage == 100 ==> ixs[3] == CloseAccount(Ata(user, coin.value.mint), user, user)
  {
  }

  /**
   * The swap of a submitted sale sells the requested share of the balance,
   * in base units, for at least the slippage-reduced curve quote, in lamports.
   */
  lemma CurveSellPayload(settings: CurveSettings, user: Address, percentage: int, coin: Option<CoinData>,
                         balance: Option<real>, tokensForSol: (real, real, real) -> real, slippage: int, ixs: seq<Ix>)
    requires SellBondingCurveOutcome(settings, user, percentage, coin, balance, tokensForSol, slippage) == Success(Submit(ixs))
    ensures coin.Some? && balance.Some? && 3 <= |ixs| && ixs[2].Invoke?
    ensures
      var tokens := SellTokenAmount(balance.value, percentage);
      EncodesSwapData(ixs[2].instruction.data, SELL_OPCODE, Trunc(tokens * TOKEN_DEC),
                      MinSolOutput(SolOut(coin.value, tokens, tokensForSol), slippage))
  {
    var tokens := SellTokenAmount(balance.value, percentage);
    var swap := CurveSellSwap(user, coin.value, balance.value, percentage, tokensForSol, slippage).value;
    assert ixs[2] == Invoke(swap);
    CurveSwapPayload(swap, SELL_OPCODE, Trunc(tokens * TOKEN_DEC), MinSolOutput(SolOut(coin.value, tokens, tokensForSol), slippage),
                     false, Ata(user, coin.value.mint), user, CreatorVault(coin.value.creator));
  }
}
