/**
 * Pool utilities of the AMM venue: reserve pricing and trade sizing, the
 * compute-budget fee translation, the two binary layouts of a pool account
 * and their decoder, pool-derived addresses, the liquidity score, and pool
 * discovery and ranking over a snapshot of the program's accounts.
 */
module PoolUtils {
  import opened Solana

  const NEW_POOL_TYPE: string := "NEW"
  const OLD_POOL_TYPE: string := "OLD"

  // Identities read from configuration at import time.
  const PUMPSWAP_PROGRAM_ID: Address := Named("PUMP_SWAP_PROGRAM")
  const EVENT_AUTHORITY: Address := Named("constants.event_authority_pump_swap")
  const PROTOCOL_FEE_RECIP: Address := Named("constants.protocol_fee_recipient")
  const PROTOCOL_FEE_RECIP_ATA: Address := Named("constants.protocol_fee_recipient_ata")
  const GLOBAL_CONFIG_PUB: Address := Named("constants.global_config_pump_swap")
  const TOKEN_PROGRAM_PUB: Address := TOKEN_PROGRAM
  const SYSTEM_PROGRAM_ID: Address := SYSTEM_PROGRAM
  const ASSOCIATED_TOKEN: Address := ASSOC_TOKEN_ACC_PROG

  // ---------------------------------------------------------------------
  // Pricing and sizing

  /** A float price; float("inf") marks a pool without base reserves. */
  datatype Price = Finite(value: real) | Infinite

  function GetPrice(baseBalanceTokens: real, quoteBalanceSol: real): (p: Price)
    ensures p.Infinite? <==> baseBalanceTokens <= 0.0
    ensures p.Finite? ==> p.value * baseBalanceTokens == quoteBalanceSol
  {
    if baseBalanceTokens <= 0.0 then Infinite else Finite(quoteBalanceSol / baseBalanceTokens)
  }

  datatype BuySizing = BuySizing(baseAmountOut: int, maxQuoteInLamports: int)

  /**
   * The base amount a SOL budget buys at the pool price and the SOL bound
   * with slippage. The slippage is applied as a plain factor `1 + slippagePct`,
   * not divided by 100.
   */
  function ConvertSolToBaseTokens(
    solAmount: real, baseBalanceTokens: real, quoteBalanceSol: real,
    decimalsBase: nat, slippagePct: real, lamportsPerSol: real): (r: Result<BuySizing, Raised>)
    ensures r.Failure? <==> 0.0 < baseBalanceTokens && quoteBalanceSol == 0.0
    ensures r.Failure? ==> r.error == ZeroDivisionError
    ensures r.Success? ==>
      r.value.maxQuoteInLamports == Trunc(solAmount * (1.0 + slippagePct) * lamportsPerSol)
    ensures r.Success? && baseBalanceTokens <= 0.0 ==> r.value.baseAmountOut == 0
  {
    var maxQuoteInLamports := Trunc(solAmount * (1.0 + slippagePct) * lamportsPerSol);
    var price := GetPrice(baseBalanceTokens, quoteBalanceSol);
    if price.Infinite? then
      // a finite amount divided by infinity is zero
      Success(BuySizing(0, maxQuoteInLamports))
    else if price.value == 0.0 then Failure(ZeroDivisionError)
    else Success(BuySizing(BaseUnitsFor(solAmount, price.value, decimalsBase), maxQuoteInLamports))
  }

  /** Base units in one whole token: 10^decimals. */
  function UnitsPerToken(decimals: nat): real
  {
    Pow10(decimals)
  }

  /** A SOL amount at a price, as whole base units: int(sol / price * 10^decimals). */
  function BaseUnitsFor(solAmount: real, price: real, decimals: nat): int
    requires price != 0.0
  {
    Trunc(solAmount / price * UnitsPerToken(decimals))
  }

  /** At a positive pool price, spending `price * x` SOL buys `x` tokens, up to integer truncation. */
  lemma BuySizingInvertsPrice(
    x: real, price: real, baseBalanceTokens: real, quoteBalanceSol: real,
    decimalsBase: nat, slippagePct: real, lamportsPerSol: real)
    requires 0.0 < baseBalanceTokens && 0.0 < quoteBalanceSol
    requires GetPrice(baseBalanceTokens, quoteBalanceSol) == Finite(price)
    ensures
      var r := ConvertSolToBaseTokens(price * x, baseBalanceTokens, quoteBalanceSol, decimalsBase, slippagePct, lamportsPerSol);
      r.Success? && r.value.baseAmountOut == Trunc(x * UnitsPerToken(decimalsBase))
  {
    assert price * baseBalanceTokens == quoteBalanceSol;
    assert price != 0.0;
    BaseUnitsAtRatio(price * x, price, x, decimalsBase);
  }

  lemma BaseUnitsAtRatio(sol: real, price: real, x: real, decimals: nat)
    requires price != 0.0 && sol == price * x
    ensures BaseUnitsFor(sol, price, decimals) == Trunc(x * UnitsPerToken(decimals))
  {
    DivisionCancels(sol, price, x);
  }

  lemma DivisionCancels(sol: real, price: real, x: real)
    requires price != 0.0 && sol == price * x
    ensures sol / price == x
  {
    assert sol / price * price == sol;
    assert (sol / price - x) * price == 0.0;
  }

  /** The SOL bound grows with the budget when the slippage factor is non-negative. */
  lemma {:induction false} MaxQuoteInMonotonic(
    sol1: real, sol2: real, baseBalanceTokens: real, quoteBalanceSol: real,
    decimalsBase: nat, slippagePct: real, lamportsPerSol: real)
    requires sol1 <= sol2 && -1.0 <= slippagePct && 0.0 <= lamportsPerSol
    requires !(0.0 < baseBalanceTokens && quoteBalanceSol == 0.0)
    ensures
      ConvertSolToBaseTokens(sol1, baseBalanceTokens, quoteBalanceSol, decimalsBase, slippagePct, lamportsPerSol).value.maxQuoteInLamports
      <= ConvertSolToBaseTokens(sol2, baseBalanceTokens, quoteBalanceSol, decimalsBase, slippagePct, lamportsPerSol).value.maxQuoteInLamports
  {
    ScaleMonotone(sol1, sol2, 1.0 + slippagePct);
    ScaleMonotone(sol1 * (1.0 + slippagePct), sol2 * (1.0 + slippagePct), lamportsPerSol);
    TruncMonotonic(sol1 * (1.0 + slippagePct) * lamportsPerSol, sol2 * (1.0 + slippagePct) * lamportsPerSol);
  }

  lemma ScaleMonotone(a: real, b: real, k: real)
    requires a <= b && 0.0 <= k
    ensures a * k <= b * k
  {
    assert (b - a) * k >= 0.0;
  }

  /**
   * A percentage-style slippage of 10 lets the buy spend up to eleven times
   * the SOL budget, because the factor is `1 + slippagePct`.
   */
  lemma SlippageIsAFactorNotAPercentage()
    ensures
      var r := ConvertSolToBaseTokens(1.0, 1000.0, 10.0, 6, 10.0, 1000000000.0);
      r.Success? && r.value.maxQuoteInLamports == 11000000000
  {
    assert 1.0 * (1.0 + 10.0) * 1000000000.0 == 11000000000.0;
  }

  /**
   * lamports / compute units, scaled to micro-lamports and truncated; a zero
   * compute budget is a float division by zero.
   */
  function ComputeUnitPriceFromTotalFee(totalLams: int, computeUnits: int): (r: Result<int, Raised>)
    ensures r.Failure? <==> computeUnits == 0
    ensures r.Failure? ==> r.error == ZeroDivisionError
  {
    if computeUnits == 0 then Failure(ZeroDivisionError)
    else Success(Trunc(totalLams as real / computeUnits as real * 1000000.0))
  }

  /**
   * The price is the largest whole number of micro-lamports per unit whose
   * total over the budget stays within the fee.
   */
  lemma ComputeUnitPriceBounds(totalLams: int, computeUnits: int, price: int)
    requires 0 <= totalLams && 0 < computeUnits
    requires ComputeUnitPriceFromTotalFee(totalLams, computeUnits) == Success(price)
    ensures 0 <= price
    ensures price as real * computeUnits as real <= totalLams as real * 1000000.0
    ensures totalLams as real * 1000000.0 < (price as real + 1.0) * computeUnits as real
  {
    TruncBounds(totalLams as real / computeUnits as real * 1000000.0);
    ScaledQuotientLower(totalLams as real, computeUnits as real, price as real);
    ScaledQuotientUpper(totalLams as real, computeUnits as real, price as real);
  }

  /**
   * A fee below zero by at least one micro-lamport per unit gives a
   * negative price, which no compute-unit price instruction accepts.
   */
  lemma NegativeFeeGivesNegativePrice(totalLams: int, computeUnits: int)
    requires 0 < computeUnits && totalLams * 1000000 <= -computeUnits
    ensures ComputeUnitPriceFromTotalFee(totalLams, computeUnits).value < 0
  {
    ScaledQuotientAtMostMinusOne(totalLams as real, computeUnits as real);
    TruncBounds(totalLams as real / computeUnits as real * 1000000.0);
  }

  lemma ScaledQuotientAtMostMinusOne(a: real, c: real)
    requires 0.0 < c && a * 1000000.0 <= -c
    ensures a / c * 1000000.0 <= -1.0
  {
    var g := a / c * 1000000.0 + 1.0;
    assert g * c == a * 1000000.0 + c;
    assert g == (g * c) / c;
  }

  lemma ScaledQuotientLower(a: real, c: real, r: real)
    requires 0.0 < c && r <= a / c * 1000000.0
    ensures r * c <= a * 1000000.0
  {
    var y := a / c;
    assert y * c == a;
    var g := y * 1000000.0 - r;
    assert g * c >= 0.0;
    assert g * c == a * 1000000.0 - r * c;
  }

  lemma ScaledQuotientUpper(a: real, c: real, r: real)
    requires 0.0 < c && a / c * 1000000.0 < r + 1.0
    ensures a * 1000000.0 < (r + 1.0) * c
  {
    var y := a / c;
    assert y * c == a;
    var g := r + 1.0 - y * 1000000.0;
    assert g * c > 0.0;
    assert g * c == (r + 1.0) * c - a * 1000000.0;
  }

  lemma ComputeUnitPriceMonotonic(fee1: int, fee2: int, computeUnits: int)
    requires fee1 <= fee2 && 0 < computeUnits
    ensures ComputeUnitPriceFromTotalFee(fee1, computeUnits).value <= ComputeUnitPriceFromTotalFee(fee2, computeUnits).value
  {
    var cu := computeUnits as real;
    assert fee1 as real / cu <= fee2 as real / cu;
    TruncMonotonic(fee1 as real / cu * 1000000.0, fee2 as real / cu * 1000000.0);
  }

  // ---------------------------------------------------------------------
  // Pool account layouts

  type U16 = x: int | 0 <= x < 0x1_0000
  type U64 = x: int | 0 <= x < 0x1_0000_0000_0000_0000
  type Key = s: seq<Byte> | |s| == 32 witness seq(32, _ => 0)

  /** The fields of a pool account; `coinCreator` exists in the current layout only. */
  datatype PoolState = PoolState(
    poolBump: Byte,
    index: U16,
    creator: Key,
    baseMint: Key,
    quoteMint: Key,
    lpMint: Key,
    poolBaseTokenAccount: Key,
    poolQuoteTokenAccount: Key,
    lpSupply: U64,
    coinCreator: Option<Key>)

  const ACCOUNT_TAG_SIZE: nat := 8
  const LEGACY_SIZE: nat := 203
  const CURRENT_SIZE: nat := 235
  /** Offset of base_mint in the raw account: tag, bump, index, creator. */
  const BASE_MINT_OFFSET: nat := 43

  function LayoutSize(withCoinCreator: bool): nat
  {
    if withCoinCreator then CURRENT_SIZE else LEGACY_SIZE
  }

  /**
   * The layout as bytes: u8 bump, u16le index, six 32-byte keys, u64le LP
   * supply and, in the current layout, the 32-byte coin creator.
   */
  function EncodeLayout(s: PoolState): (body: seq<Byte>)
    ensures |body| == LayoutSize(s.coinCreator.Some?)
  {
    [s.poolBump] + LittleEndian(s.index, 2) + s.creator + s.baseMint + s.quoteMint + s.lpMint
    + s.poolBaseTokenAccount + s.poolQuoteTokenAccount + LittleEndian(s.lpSupply, 8)
    + (if s.coinCreator.Some? then s.coinCreator.value else [])
  }

  /**
   * Struct.parse of one layout: fields are read at fixed offsets, a short
   * body fails and trailing bytes are ignored.
   */
  function ParseLayout(body: seq<Byte>, withCoinCreator: bool): (r: Option<PoolState>)
    ensures r.Some? <==> |body| >= LayoutSize(withCoinCreator)
    ensures r.Some? ==> r.value.coinCreator.Some? == withCoinCreator
    ensures r.Some? ==> EncodeLayout(r.value) == body[..LayoutSize(withCoinCreator)]
  {
    if |body| < LayoutSize(withCoinCreator) then None
    else
      ParseReencodes(body, withCoinCreator);
      Some(ParseFields(body, withCoinCreator))
  }

  function ParseFields(body: seq<Byte>, withCoinCreator: bool): PoolState
    requires |body| >= LayoutSize(withCoinCreator)
  {
    Pow256Values();
    PoolState(
      body[0], FromLittleEndian(body[1..3]),
      body[3..35], body[35..67], body[67..99], body[99..131], body[131..163], body[163..195],
      FromLittleEndian(body[195..203]),
      if withCoinCreator then var cc: Key := body[203..235]; Some(cc) else None)
  }

  lemma ParseReencodes(body: seq<Byte>, withCoinCreator: bool)
    requires |body| >= LayoutSize(withCoinCreator)
    ensures EncodeLayout(ParseFields(body, withCoinCreator)) == body[..LayoutSize(withCoinCreator)]
  {
    FromLittleEndianRoundTrip(body[1..3]);
    FromLittleEndianRoundTrip(body[195..203]);
    var s := ParseFields(body, withCoinCreator);
    assert [s.poolBump] == body[..1];
    PrefixGrows(body, 1, 3);
    PrefixGrows(body, 3, 35);
    PrefixGrows(body, 35, 67);
    PrefixGrows(body, 67, 99);
    PrefixGrows(body, 99, 131);
    PrefixGrows(body, 131, 163);
    PrefixGrows(body, 163, 195);
    PrefixGrows(body, 195, 203);
    if withCoinCreator {
      PrefixGrows(body, 203, 235);
    }
  }

  lemma PrefixGrows(body: seq<Byte>, a: nat, b: nat)
    requires a <= b <= |body|
    ensures body[..b] == body[..a] + body[a..b]
  {
  }

  datatype DecodedPool = DecodedPool(state: PoolState, poolType: string)

  /**
   * The decoder of a raw pool account: strip the 8-byte tag, try the current
   * layout, fall back to the legacy layout, else not a pool.
   */
  function DecodePoolAccount(raw: seq<Byte>): (r: Option<DecodedPool>)
    ensures r.Some? <==> |raw| >= ACCOUNT_TAG_SIZE + LEGACY_SIZE
    ensures r.Some? ==>
      && (r.value.poolType == NEW_POOL_TYPE <==> |raw| >= ACCOUNT_TAG_SIZE + CURRENT_SIZE)
      && (r.value.poolType == NEW_POOL_TYPE || r.value.poolType == OLD_POOL_TYPE)
      && (r.value.state.coinCreator.Some? <==> r.value.poolType == NEW_POOL_TYPE)
      && raw[BASE_MINT_OFFSET..BASE_MINT_OFFSET + 32] == r.value.state.baseMint
  {
    var body := if |raw| >= ACCOUNT_TAG_SIZE then raw[ACCOUNT_TAG_SIZE..] else [];
    match ParseLayout(body, true)
    case Some(s) =>
      assert s.baseMint == EncodeLayout(s)[35..67];
      Some(DecodedPool(s, NEW_POOL_TYPE))
    case None =>
      match ParseLayout(body, false)
      case Some(s) =>
        assert s.baseMint == EncodeLayout(s)[35..67];
        Some(DecodedPool(s, OLD_POOL_TYPE))
      case None => None
  }

  lemma {:induction false} DecodeEncodedLayout(s: PoolState)
    ensures ParseLayout(EncodeLayout(s), s.coinCreator.Some?) == Some(s)
  {
    Pow256Values();
    LittleEndianRoundTrip(s.index, 2);
    LittleEndianRoundTrip(s.lpSupply, 8);
    var e := EncodeLayout(s);
    LeadingFieldsAt(s);
    TrailingFieldsAt(s);
    if s.coinCreator.Some? {
      var cc := s.coinCreator.value;
      var p := e[..LEGACY_SIZE];
      assert e == p + cc;
      AppendedSlice(p, cc);
    }
  }

  lemma LeadingFieldsAt(s: PoolState)
    ensures var e := EncodeLayout(s);
      && e[0] == s.poolBump && e[1..3] == LittleEndian(s.index, 2)
      && e[3..35] == s.creator && e[35..67] == s.baseMint
  {
    var e := EncodeLayout(s);
    assert e[1..3] == LittleEndian(s.index, 2);
    assert e[3..35] == s.creator;
  }

  lemma TrailingFieldsAt(s: PoolState)
    ensures var e := EncodeLayout(s);
      && e[67..99] == s.quoteMint && e[99..131] == s.lpMint
      && e[131..163] == s.poolBaseTokenAccount && e[163..195] == s.poolQuoteTokenAccount
      && e[195..203] == LittleEndian(s.lpSupply, 8)
  {
    var e := EncodeLayout(s);
    assert e[67..99] == s.quoteMint;
    assert e[99..131] == s.lpMint;
    assert e[131..163] == s.poolBaseTokenAccount;
    assert e[163..195] == s.poolQuoteTokenAccount;
  }

  lemma AppendedSlice(p: seq<Byte>, c: seq<Byte>)
    ensures (p + c)[|p|..|p| + |c|] == c
  {
  }

  /** A current-layout account, with any trailing bytes, decodes to its fields. */
  lemma CurrentLayoutRoundTrip(tag: seq<Byte>, s: PoolState, trailing: seq<Byte>)
    requires |tag| == ACCOUNT_TAG_SIZE && s.coinCreator.Some?
    ensures DecodePoolAccount(tag + EncodeLayout(s) + trailing) == Some(DecodedPool(s, NEW_POOL_TYPE))
  {
    var raw := tag + EncodeLayout(s) + trailing;
    var body := raw[ACCOUNT_TAG_SIZE..];
    assert body == EncodeLayout(s) + trailing;
    DecodeEncodedLayout(s);
    assert body[..CURRENT_SIZE] == EncodeLayout(s);
    ParseSeesPrefixOnly(body, EncodeLayout(s), true);
  }

  /** A legacy-layout account (trailing bytes too few for a coin creator) decodes as legacy. */
  lemma LegacyLayoutRoundTrip(tag: seq<Byte>, s: PoolState, trailing: seq<Byte>)
    requires |tag| == ACCOUNT_TAG_SIZE && s.coinCreator.None? && |trailing| < CURRENT_SIZE - LEGACY_SIZE
    ensures DecodePoolAccount(tag + EncodeLayout(s) + trailing) == Some(DecodedPool(s, OLD_POOL_TYPE))
  {
    var raw := tag + EncodeLayout(s) + trailing;
    var body := raw[ACCOUNT_TAG_SIZE..];
    assert body == EncodeLayout(s) + trailing;
    DecodeEncodedLayout(s);
    assert body[..LEGACY_SIZE] == EncodeLayout(s);
    ParseSeesPrefixOnly(body, EncodeLayout(s), false);
  }

  /** A current-layout account cut to legacy length decodes as legacy, dropping only the coin creator. */
  lemma TruncatedCurrentDecodesAsLegacy(tag: seq<Byte>, s: PoolState)
    requires |tag| == ACCOUNT_TAG_SIZE && s.coinCreator.Some?
    ensures DecodePoolAccount(tag + EncodeLayout(s)[..LEGACY_SIZE])
         == Some(DecodedPool(s.(coinCreator := None), OLD_POOL_TYPE))
  {
    var legacy := s.(coinCreator := None);
    assert EncodeLayout(s)[..LEGACY_SIZE] == EncodeLayout(legacy);
    LegacyLayoutRoundTrip(tag, legacy, []);
    assert tag + EncodeLayout(legacy) + [] == tag + EncodeLayout(legacy);
  }

  lemma ParseSeesPrefixOnly(body: seq<Byte>, prefix: seq<Byte>, withCoinCreator: bool)
    requires |prefix| == LayoutSize(withCoinCreator) <= |body| && body[..|prefix|] == prefix
    ensures ParseLayout(body, withCoinCreator) == ParseLayout(prefix, withCoinCreator)
  {
    var n := |prefix|;
    assert body[0] == prefix[0];
    assert body[1..3] == prefix[1..3];
    assert body[3..35] == prefix[3..35];
    assert body[35..67] == prefix[35..67];
    assert body[67..99] == prefix[67..99];
    assert body[99..131] == prefix[99..131];
    assert body[131..163] == prefix[131..163];
    assert body[163..195] == prefix[163..195];
    assert body[195..203] == prefix[195..203];
    assert withCoinCreator ==> body[203..235] == prefix[203..235];
  }

  // ---------------------------------------------------------------------
  // Derived addresses

  /** The pool address seeded by "pool", the index as two little-endian bytes, creator and both mints. */
  function DerivePoolAddressPumpSwap(creator: Address, baseMint: Address, quoteMint: Address, index: int): (r: Option<Address>)
    ensures r.Some? <==> 0 <= index < U16_BOUND
    ensures r.Some? ==>
      && r.value.Pda? && r.value.program == PUMPSWAP_PROGRAM_ID && |r.value.seeds| == 5
      && r.value.seeds[0] == Literal("pool")
      && r.value.seeds[1].Raw? && |r.value.seeds[1].raw| == 2 && FromLittleEndian(r.value.seeds[1].raw) == index
      && r.value.seeds[2..] == [KeyOf(creator), KeyOf(baseMint), KeyOf(quoteMint)]
  {
    // int.to_bytes(2, "little") raises for an index that does not fit
    if 0 <= index < U16_BOUND then
      Pow256Values();
      LittleEndianRoundTrip(index, 2);
      Some(Pda([Literal("pool"), Raw(LittleEndian(index, 2)), KeyOf(creator), KeyOf(baseMint), KeyOf(quoteMint)], PUMPSWAP_PROGRAM_ID))
    else None
  }

  const CREATOR_VAULT_SEED: string := "creator_vault"

  /** (vault ATA, vault authority): the authority is the PDA ["creator_vault", creator]. */
  function DeriveCreatorVault(creator: Address, quoteMint: Address): (r: (Address, Address))
    ensures r.1 == Pda([Literal(CREATOR_VAULT_SEED), KeyOf(creator)], PUMPSWAP_PROGRAM_ID)
    ensures r.0 == Ata(r.1, quoteMint)
  {
    var vaultAuth := Pda([Literal(CREATOR_VAULT_SEED), KeyOf(creator)], PUMPSWAP_PROGRAM_ID);
    (Ata(vaultAuth, quoteMint), vaultAuth)
  }

  // ---------------------------------------------------------------------
  // Discovery and ranking

  /** convert_pool_keys: the decoded fields as account identities. */
  datatype PoolKeys = PoolKeys(
    poolBump: Byte,
    index: U16,
    creator: Address,
    baseMint: Address,
    quoteMint: Address,
    lpMint: Address,
    poolBaseTokenAccount: Address,
    poolQuoteTokenAccount: Address,
    lpSupply: U64,
    coinCreator: Option<Address>)

  function ConvertPoolKeys(s: PoolState, poolType: string): (k: PoolKeys)
    requires poolType == NEW_POOL_TYPE ==> s.coinCreator.Some?
    ensures k.coinCreator.Some? <==> poolType == NEW_POOL_TYPE
    ensures k.baseMint == Key(s.baseMint) && k.quoteMint == Key(s.quoteMint)
    ensures k.poolBaseTokenAccount == Key(s.poolBaseTokenAccount)
    ensures k.poolQuoteTokenAccount == Key(s.poolQuoteTokenAccount)
  {
    PoolKeys(
      s.poolBump, s.index, Key(s.creator), Key(s.baseMint), Key(s.quoteMint), Key(s.lpMint),
      Key(s.poolBaseTokenAccount), Key(s.poolQuoteTokenAccount), s.lpSupply,
      if poolType == NEW_POOL_TYPE then Some(Key(s.coinCreator.value)) else None)
  }

  datatype ProgramAccount = ProgramAccount(pubkey: Address, data: seq<Byte>)

  datatype PoolCandidate = PoolCandidate(poolAddress: Address, poolKeys: PoolKeys, poolType: string, accountData: seq<Byte>)

  /** One response entry as a candidate: it must decode and its base mint must be the searched mint. */
  function CandidateOf(account: ProgramAccount, mint: Address): Option<PoolCandidate>
  {
    match DecodePoolAccount(account.data)
    case None => None
    case Some(d) =>
      var keys := ConvertPoolKeys(d.state, d.poolType);
      if keys.baseMint != mint then None
      else Some(PoolCandidate(account.pubkey, keys, d.poolType, account.data))
  }

  function MatchingCandidates(accounts: seq<ProgramAccount>, mint: Address): seq<PoolCandidate>
  {
    if accounts == [] then []
    else
      Listed(CandidateOf(accounts[0], mint)) + MatchingCandidates(accounts[1..], mint)
  }

  lemma {:induction false} MatchingCandidatesExactly(accounts: seq<ProgramAccount>, mint: Address, c: PoolCandidate)
    ensures c in MatchingCandidates(accounts, mint) <==>
      exists i :: 0 <= i < |accounts| && CandidateOf(accounts[i], mint) == Some(c)
    ensures c in MatchingCandidates(accounts, mint) ==> c.poolKeys.baseMint == mint
  {
    if accounts != [] {
      MatchingCandidatesExactly(accounts[1..], mint, c);
      if exists i :: 0 <= i < |accounts| && CandidateOf(accounts[i], mint) == Some(c) {
        var i :| 0 <= i < |accounts| && CandidateOf(accounts[i], mint) == Some(c);
        if i > 0 {
          assert accounts[1..][i - 1] == accounts[i];
        }
      }
      if c in MatchingCandidates(accounts[1..], mint) {
        var i :| 0 <= i < |accounts[1..]| && CandidateOf(accounts[1..][i], mint) == Some(c);
        assert accounts[i + 1] == accounts[1..][i];
      }
    }
  }

  /** Candidates keep the response order. */
  lemma {:induction false} MatchingCandidatesConcat(a: seq<ProgramAccount>, b: seq<ProgramAccount>, mint: Address)
    ensures MatchingCandidates(a + b, mint) == MatchingCandidates(a, mint) + MatchingCandidates(b, mint)
  {
    if a == [] {
      assert a + b == b;
    } else {
      assert (a + b)[0] == a[0];
      assert (a + b)[1..] == a[1..] + b;
      MatchingCandidatesConcat(a[1..], b, mint);
    }
  }

  lemma MatchingCandidatesSnoc(accounts: seq<ProgramAccount>, i: int, mint: Address)
    requires 0 <= i < |accounts|
    ensures MatchingCandidates(accounts[..i + 1], mint) == MatchingCandidates(accounts[..i], mint) + Listed(CandidateOf(accounts[i], mint))
  {
    assert accounts[..i + 1] == accounts[..i] + [accounts[i]];
    MatchingCandidatesConcat(accounts[..i], [accounts[i]], mint);
    assert [accounts[i]][1..] == [];
  }

  /** One step of the scan: decode the account and keep it only when its base mint is the searched one. */
  method ScanAccount(account: ProgramAccount, mint: Address) returns (candidate: Option<PoolCandidate>)
    ensures candidate == CandidateOf(account, mint)
    ensures candidate.Some? ==> candidate.value.poolKeys.baseMint == mint && candidate.value.poolAddress == account.pubkey
  {
    var decoded := DecodePoolAccount(account.data);
    if decoded.None? {
      return None;
    }
    var poolKeys := ConvertPoolKeys(decoded.value.state, decoded.value.poolType);
    if poolKeys.baseMint != mint {
      return None;
    }
    return Some(PoolCandidate(account.pubkey, poolKeys, decoded.value.poolType, account.data));
  }

  /** The scan loop: skip what does not decode or names another base mint. */
  method FindPoolsByMint(mint: Address, response: Option<seq<ProgramAccount>>) returns (found: bool, candidates: seq<PoolCandidate>)
    ensures candidates == (if response.Some? then MatchingCandidates(response.value, mint) else [])
    ensures found <==> candidates != []
  {
    if response.None? || response.value == [] {
      return false, [];
    }
    var accounts := response.value;
    candidates := [];
    var i := 0;
    while i < |accounts|
      invariant 0 <= i <= |accounts|
      invariant candidates == MatchingCandidates(accounts[..i], mint)
    {
      MatchingCandidatesSnoc(accounts, i, mint);
      var candidate := ScanAccount(accounts[i], mint);
      if candidate.Some? {
        candidates := candidates + [candidate.value];
      }
      i := i + 1;
    }
    assert accounts[..i] == accounts;
    found := |candidates| > 0;
  }

  /** Liquidity score: twice the SOL side for a two-sided pool, times 1.1 for the current layout. */
  function CalculatePoolScore(quoteBalanceSol: real, baseBalanceTokens: real, poolType: string): (score: real)
    ensures score > 0.0 <==> quoteBalanceSol > 0.0
    ensures score == 0.0 <==> quoteBalanceSol == 0.0
    ensures 0.0 <= quoteBalanceSol ==> quoteBalanceSol <= score <= 2.2 * quoteBalanceSol
  {
    var totalLiquiditySol := if baseBalanceTokens > 0.0 && quoteBalanceSol > 0.0 then quoteBalanceSol * 2.0 else quoteBalanceSol;
    var poolTypeBonus := if poolType == NEW_POOL_TYPE then 1.1 else 1.0;
    totalLiquiditySol * poolTypeBonus
  }

  /** More SOL in a two-sided pool of the same layout scores strictly higher. */
  lemma ScoreIncreasesWithLiquidity(sol1: real, base1: real, sol2: real, base2: real, poolType: string)
    requires 0.0 < sol1 < sol2 && 0.0 < base1 && 0.0 < base2
    ensures CalculatePoolScore(sol1, base1, poolType) < CalculatePoolScore(sol2, base2, poolType)
  {
  }

  /** With equal balances and some SOL, a current-layout pool outscores a legacy one. */
  lemma CurrentLayoutScoresHigher(sol: real, base: real)
    requires 0.0 < sol
    ensures CalculatePoolScore(sol, base, NEW_POOL_TYPE) > CalculatePoolScore(sol, base, OLD_POOL_TYPE)
  {
  }

  datatype PoolData = PoolData(
    poolPubkey: Address,
    tokenBase: Address,
    tokenQuote: Address,
    poolBaseTokenAccount: Address,
    poolQuoteTokenAccount: Address,
    baseBalanceTokens: real,
    quoteBalanceSol: real,
    decimalsBase: nat,
    coinCreator: Option<Address>)

  datatype ScoredPool = ScoredPool(poolData: PoolData, poolType: string, poolAddress: Address, score: real, solLiquidity: real)

  /** The token-account balances of a pool's two vaults, as read at call time. */
  datatype Reserves = Reserves(baseBalanceTokens: real, quoteBalanceSol: real)

  /**
   * The answers the chain gives during one discovery: the filtered program
   * accounts (None when the query fails), the vault balances per pool
   * address (absent when they cannot be read) and the mint's decimals.
   */
  datatype ChainSnapshot = ChainSnapshot(
    programAccounts: Option<seq<ProgramAccount>>,
    reserves: map<Address, Reserves>,
    mintDecimals: Option<nat>)

  /**
   * One candidate priced and scored; None when the candidate is skipped.
   * It is skipped when a read fails, and also when its base vault is empty:
   * the price fetch divides the quote balance by the base balance exactly,
   * which raises on a zero divisor (division by zero, or an invalid
   * operation for 0/0), and the scan catches that. A negative base balance
   * does not raise.
   */
  function ScoreCandidate(c: PoolCandidate, chain: ChainSnapshot): (r: Option<ScoredPool>)
    ensures r.Some? <==>
      && c.poolAddress in chain.reserves
      && chain.mintDecimals.Some?
      && chain.reserves[c.poolAddress].baseBalanceTokens != 0.0
  {
    if c.poolAddress !in chain.reserves || chain.mintDecimals.None? then None
    else if chain.reserves[c.poolAddress].baseBalanceTokens == 0.0 then None
    else
      var r := chain.reserves[c.poolAddress];
      var data := PoolData(
        c.poolAddress, c.poolKeys.baseMint, c.poolKeys.quoteMint,
        c.poolKeys.poolBaseTokenAccount, c.poolKeys.poolQuoteTokenAccount,
        r.baseBalanceTokens, r.quoteBalanceSol, chain.mintDecimals.value,
        if c.poolType == NEW_POOL_TYPE then c.poolKeys.coinCreator else None);
      Some(ScoredPool(data, c.poolType, c.poolAddress, CalculatePoolScore(r.quoteBalanceSol, r.baseBalanceTokens, c.poolType), r.quoteBalanceSol))
  }

  function ScoredPools(candidates: seq<PoolCandidate>, chain: ChainSnapshot): seq<ScoredPool>
  {
    if candidates == [] then []
    else
      Listed(ScoreCandidate(candidates[0], chain)) + ScoredPools(candidates[1..], chain)
  }

  lemma {:induction false} ScoredPoolsConcat(a: seq<PoolCandidate>, b: seq<PoolCandidate>, chain: ChainSnapshot)
    ensures ScoredPools(a + b, chain) == ScoredPools(a, chain) + ScoredPools(b, chain)
  {
    if a == [] {
      assert a + b == b;
    } else {
      assert (a + b)[0] == a[0];
      assert (a + b)[1..] == a[1..] + b;
      ScoredPoolsConcat(a[1..], b, chain);
    }
  }

  lemma ScoredPoolsSnoc(candidates: seq<PoolCandidate>, i: int, chain: ChainSnapshot)
    requires 0 <= i < |candidates|
    ensures ScoredPools(candidates[..i + 1], chain) == ScoredPools(candidates[..i], chain) + Listed(ScoreCandidate(candidates[i], chain))
  {
    assert candidates[..i + 1] == candidates[..i] + [candidates[i]];
    ScoredPoolsConcat(candidates[..i], [candidates[i]], chain);
    assert [candidates[i]][1..] == [];
  }

  /** Position k holds a maximal score and every earlier position scores strictly less. */
  ghost predicate IsBest(pools: seq<ScoredPool>, k: int)
  {
    && 0 <= k < |pools|
    && (forall j :: 0 <= j < |pools| ==> pools[j].score <= pools[k].score)
    && (forall j :: 0 <= j < k ==> pools[j].score < pools[k].score)
  }

  lemma BestIsUnique(pools: seq<ScoredPool>, k1: int, k2: int)
    requires IsBest(pools, k1) && IsBest(pools, k2)
    ensures k1 == k2
  {
    assert pools[k1].score == pools[k2].score;
    BestPrecedesEqualScores(pools, k1, k2);
    BestPrecedesEqualScores(pools, k2, k1);
  }

  lemma BestPrecedesEqualScores(pools: seq<ScoredPool>, k: int, j: int)
    requires IsBest(pools, k) && 0 <= j < |pools| && pools[j].score == pools[k].score
    ensures k <= j
  {
  }

  /** The element a stable descending sort by score puts first. */
  function FirstMaxIndex(pools: seq<ScoredPool>): (k: nat)
    requires pools != []
    ensures IsBest(pools, k)
  {
    if |pools| == 1 then 0
    else
      var prefix := pools[..|pools| - 1];
      var k := FirstMaxIndex(prefix);
      assert forall j :: 0 <= j < |prefix| ==> prefix[j] == pools[j];
      if pools[|pools| - 1].score > pools[k].score then |pools| - 1 else k
  }

  datatype PoolLookup = PoolFound(data: PoolData, poolType: string) | PoolNotFound

  /** The candidates the program scan yields for the mint; none when the query fails. */
  function CandidatesOf(mint: Address, chain: ChainSnapshot): seq<PoolCandidate>
  {
    if chain.programAccounts.Some? then MatchingCandidates(chain.programAccounts.value, mint) else []
  }

  function DiscoveredPools(mint: Address, chain: ChainSnapshot): seq<ScoredPool>
  {
    ScoredPools(CandidatesOf(mint, chain), chain)
  }

  /** Nothing is scored exactly when every candidate is skipped. */
  lemma {:induction false} ScoredPoolsEmptyIff(candidates: seq<PoolCandidate>, chain: ChainSnapshot)
    ensures ScoredPools(candidates, chain) == [] <==>
      forall i :: 0 <= i < |candidates| ==> ScoreCandidate(candidates[i], chain).None?
  {
    if candidates != [] {
      ScoredPoolsEmptyIff(candidates[1..], chain);
      assert forall i :: 1 <= i < |candidates| ==> candidates[i] == candidates[1..][i - 1];
    }
  }

  /** A pool whose base vault is empty is never ranked. */
  lemma EmptyBaseVaultNeverRanked(mint: Address, chain: ChainSnapshot, k: int)
    requires 0 <= k < |DiscoveredPools(mint, chain)|
    ensures DiscoveredPools(mint, chain)[k].poolData.baseBalanceTokens != 0.0
  {
    var candidates := CandidatesOf(mint, chain);
    ScoredPoolsComeFromCandidates(candidates, chain, k);
  }

  /**
   * No pool is found exactly when every candidate of the mint is skipped:
   * its reserves cannot be read, the mint's decimals are unknown, or its
   * base vault is empty.
   */
  lemma BestPoolNotFoundIff(mint: Address, chain: ChainSnapshot)
    ensures BestPool(mint, chain).PoolNotFound? <==>
      forall i :: 0 <= i < |CandidatesOf(mint, chain)| ==>
        var c := CandidatesOf(mint, chain)[i];
        c.poolAddress !in chain.reserves || chain.mintDecimals.None? || chain.reserves[c.poolAddress].baseBalanceTokens == 0.0
  {
    ScoredPoolsEmptyIff(CandidatesOf(mint, chain), chain);
  }

  function BestPool(mint: Address, chain: ChainSnapshot): (r: PoolLookup)
    ensures r.PoolNotFound? <==> DiscoveredPools(mint, chain) == []
  {
    var pools := DiscoveredPools(mint, chain);
    if pools == [] then PoolNotFound
    else
      var best := pools[FirstMaxIndex(pools)];
      PoolFound(best.poolData, best.poolType)
  }

  /** The found pool is the first of the highest-scoring priced candidates, and its base is the mint. */
  lemma {:induction false} BestPoolIsHighestScoring(mint: Address, chain: ChainSnapshot)
    requires BestPool(mint, chain).PoolFound?
    ensures exists k :: (IsBest(DiscoveredPools(mint, chain), k)
      && DiscoveredPools(mint, chain)[k].poolData == BestPool(mint, chain).data
      && DiscoveredPools(mint, chain)[k].poolType == BestPool(mint, chain).poolType)
    ensures BestPool(mint, chain).data.tokenBase == mint
  {
    var pools := DiscoveredPools(mint, chain);
    var k := FirstMaxIndex(pools);
    var candidates := CandidatesOf(mint, chain);
    ScoredPoolsComeFromCandidates(candidates, chain, k);
    var i :| 0 <= i < |candidates| && ScoreCandidate(candidates[i], chain) == Some(pools[k]);
    assert candidates[i] in candidates;
    MatchingCandidatesExactly(chain.programAccounts.value, mint, candidates[i]);
  }

  lemma {:induction false} ScoredPoolsComeFromCandidates(candidates: seq<PoolCandidate>, chain: ChainSnapshot, k: int)
    requires 0 <= k < |ScoredPools(candidates, chain)|
    ensures exists i :: 0 <= i < |candidates| && ScoreCandidate(candidates[i], chain) == Some(ScoredPools(candidates, chain)[k])
  {
    var head := Listed(ScoreCandidate(candidates[0], chain));
    if k < |head| {
      assert ScoreCandidate(candidates[0], chain) == Some(ScoredPools(candidates, chain)[k]);
    } else {
      ScoredPoolsComeFromCandidates(candidates[1..], chain, k - |head|);
      var i :| 0 <= i < |candidates[1..]| && ScoreCandidate(candidates[1..][i], chain) == Some(ScoredPools(candidates[1..], chain)[k - |head|]);
      assert candidates[i + 1] == candidates[1..][i];
    }
  }

  /** The scoring loop: candidates whose reads fail are skipped. */
  method ScoreCandidates(candidates: seq<PoolCandidate>, chain: ChainSnapshot) returns (scoredPools: seq<ScoredPool>)
    ensures scoredPools == ScoredPools(candidates, chain)
  {
    scoredPools := [];
    var i := 0;
    while i < |candidates|
      invariant 0 <= i <= |candidates|
      invariant scoredPools == ScoredPools(candidates[..i], chain)
    {
      ScoredPoolsSnoc(candidates, i, chain);
      var scored := ScoreCandidate(candidates[i], chain);
      if scored.Some? {
        scoredPools := scoredPools + [scored.value];
      }
      i := i + 1;
    }
    assert candidates[..i] == candidates;
  }

  /**
   * Discovery followed by ranking: score every candidate whose reads
   * succeed, then keep the first of the highest scores.
   */
  method FindBestPoolByMint(mint: Address, chain: ChainSnapshot) returns (r: PoolLookup)
    ensures r == BestPool(mint, chain)
  {
    var found, candidates := FindPoolsByMint(mint, chain.programAccounts);
    if !found {
      return PoolNotFound;
    }
    var scoredPools := ScoreCandidates(candidates, chain);
    if scoredPools == [] {
      return PoolNotFound;
    }
    var best := scoredPools[FirstMaxIndex(scoredPools)];
    r := PoolFound(best.poolData, best.poolType);
  }
}
