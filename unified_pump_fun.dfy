/**
 * The unified trading façade: it detects whether a mint still trades on the
 * bonding curve or has moved to a PumpSwap pool, remembers that per mint,
 * and hands the trade to the matching strategy. The PumpSwap strategy
 * remembers the pools it found per mint.
 *
 * What a strategy's trade reports is a `VenueResult`; `SwapBuyReport`,
 * `SwapSellReport` and `CurveReport` compute it from the venue models.
 */
module UnifiedPumpFun {
  import opened Solana
  import PoolUtils
  import PumpSwap
  import PumpFun

  datatype Venue = BondingCurve | PumpSwapPool

  /** get_strategy_name of the two strategies. */
  function StrategyName(v: Venue): (name: string)
    ensures name == "BondingCurve" <==> v.BondingCurve?
    ensures name == "PumpSwap" <==> v.PumpSwapPool?
  {
    match v
    case BondingCurve => "BondingCurve"
    case PumpSwapPool => "PumpSwap"
  }

  /** What a strategy's buy or sell gives back: the confirmation it reports, or an exception. */
  datatype VenueResult = Reported(confirmed: bool) | Raised

  /** The façade catches every exception of a strategy and reports False for it. */
  function Succeeded(r: VenueResult): bool
  {
    r.Reported? && r.confirmed
  }

  // ---------------------------------------------------------------------
  // Strategy detection

  /** The cached (is_valid, is_on_bonding_curve) pair of a mint. */
  datatype TokenState = TokenState(isValid: bool, isOnBondingCurve: bool)

  /** What get_coin_data gives for a mint: coin data with its completion flag, nothing, or an exception. */
  datatype CoinLookup = CoinFound(complete: bool) | CoinMissing | LookupRaised

  function VenueOf(state: TokenState): Option<Venue>
  {
    if !state.isValid then None
    else if state.isOnBondingCurve then Some(BondingCurve)
    else Some(PumpSwapPool)
  }

  predicate OnlyValidStates(cache: map<Address, TokenState>)
  {
    forall m :: m in cache ==> cache[m].isValid
  }

  /**
   * _detect_trading_strategy: a cached state decides without a lookup;
   * otherwise coin data decides and is cached, and a missing or failed
   * lookup gives no strategy and caches nothing.
   */
  function Detect(cache: map<Address, TokenState>, mint: Address, coin: CoinLookup)
    : (r: (Option<Venue>, map<Address, TokenState>))
    ensures OnlyValidStates(cache) ==> OnlyValidStates(r.1)
    ensures r.1.Keys == cache.Keys || r.1.Keys == cache.Keys + {mint}
  {
    if mint in cache then (VenueOf(cache[mint]), cache)
    else
      match coin
      case CoinFound(complete) =>
        var state := TokenState(true, !complete);
        (VenueOf(state), cache[mint := state])
      case _ => (None, cache)
  }

  /** An uncached mint goes to PumpSwap when its curve is complete and to the curve otherwise. */
  lemma DetectRoutesByCompletion(cache: map<Address, TokenState>, mint: Address, complete: bool)
    requires mint !in cache
    ensures Detect(cache, mint, CoinFound(complete)).0 == Some(if complete then PumpSwapPool else BondingCurve)
    ensures mint in Detect(cache, mint, CoinFound(complete)).1
  {
  }

  /** Without coin data, or when the lookup raises, there is no strategy and the cache is unchanged. */
  lemma DetectFailureCachesNothing(cache: map<Address, TokenState>, mint: Address, coin: CoinLookup)
    requires mint !in cache && !coin.CoinFound?
    ensures Detect(cache, mint, coin) == (None, cache)
  {
  }

  /**
   * Once a mint's strategy is detected, later detections give the same
   * strategy and leave the cache alone, whatever a new lookup would say.
   */
  lemma {:induction false} DetectionIsRemembered(cache: map<Address, TokenState>, mint: Address,
                                                 first: CoinLookup, later: CoinLookup)
    requires Detect(cache, mint, first).0.Some?
    ensures Detect(Detect(cache, mint, first).1, mint, later) == Detect(cache, mint, first)
  {
    var (venue, updated) := Detect(cache, mint, first);
    assert mint in updated;
    if mint !in cache {
      assert updated[mint] == TokenState(true, !first.complete);
    }
  }

  // ---------------------------------------------------------------------
  // Pool lookups

  /**
   * _get_pool_data: a cached pool is returned as it is; otherwise the best
   * pool is searched and cached only when one is found.
   */
  function CachedLookup(cache: map<Address, PoolUtils.PoolLookup>, mint: Address, chain: PoolUtils.ChainSnapshot)
    : (r: (PoolUtils.PoolLookup, map<Address, PoolUtils.PoolLookup>))
    ensures mint !in cache ==> r.0 == PoolUtils.BestPool(mint, chain)
    ensures r.0.PoolNotFound? ==> r.1 == cache
  {
    if mint in cache then (cache[mint], cache)
    else
      var found := PoolUtils.BestPool(mint, chain);
      (found, if found.PoolFound? then cache[mint := found] else cache)
  }

  predicate OnlyFoundPools(cache: map<Address, PoolUtils.PoolLookup>)
  {
    forall m :: m in cache ==> cache[m].PoolFound?
  }

  /** A found pool is served from the cache afterwards, even when the chain has changed. */
  lemma {:induction false} FoundPoolIsRemembered(cache: map<Address, PoolUtils.PoolLookup>, mint: Address,
                                                 chain: PoolUtils.ChainSnapshot, later: PoolUtils.ChainSnapshot)
    requires CachedLookup(cache, mint, chain).0.PoolFound?
    ensures CachedLookup(CachedLookup(cache, mint, chain).1, mint, later) == CachedLookup(cache, mint, chain)
  {
    var (found, updated) := CachedLookup(cache, mint, chain);
    assert mint in updated && updated[mint] == found;
  }

  /** A mint without a pool is searched again on the next call, against the chain as it is then. */
  lemma NotFoundIsSearchedAgain(cache: map<Address, PoolUtils.PoolLookup>, mint: Address,
                                chain: PoolUtils.ChainSnapshot, later: PoolUtils.ChainSnapshot)
    requires CachedLookup(cache, mint, chain).0.PoolNotFound?
    ensures CachedLookup(CachedLookup(cache, mint, chain).1, mint, later) == CachedLookup(cache, mint, later)
  {
  }

  /** Only found pools enter the cache. */
  lemma CacheHoldsFoundPools(cache: map<Address, PoolUtils.PoolLookup>, mint: Address, chain: PoolUtils.ChainSnapshot)
    requires OnlyFoundPools(cache)
    ensures OnlyFoundPools(CachedLookup(cache, mint, chain).1)
    ensures CachedLookup(cache, mint, chain).0.PoolNotFound? ==> mint !in CachedLookup(cache, mint, chain).1
  {
  }

  /** The PumpSwap strategy: buy or sell on the mint's best pool, with found pools cached. */
  class PumpSwapStrategy {
    var poolCache: map<Address, PoolUtils.PoolLookup>

    predicate Valid()
      reads this
    {
      OnlyFoundPools(poolCache)
    }

    constructor()
      ensures Valid() && poolCache == map[]
    {
      poolCache := map[];
    }

    method GetPoolData(mint: Address, chain: PoolUtils.ChainSnapshot) returns (r: PoolUtils.PoolLookup)
      requires Valid()
      modifies this
      ensures Valid()
      ensures (r, poolCache) == CachedLookup(old(poolCache), mint, chain)
    {
      if mint in poolCache {
        return poolCache[mint];
      }
      r := PoolUtils.FindBestPoolByMint(mint, chain);
      if r.PoolFound? {
        poolCache := poolCache[mint := r];
      }
    }

    /**
     * buy and sell: no pool means False without trading; otherwise the
     * trade on the pool reports, its first element being the confirmation.
     */
    method Trade(mint: Address, chain: PoolUtils.ChainSnapshot, onPool: (PoolUtils.PoolData, string) -> VenueResult)
      returns (r: VenueResult)
      requires Valid()
      modifies this
      ensures Valid()
      ensures r == PoolTrade(CachedLookup(old(poolCache), mint, chain).0, onPool)
      ensures poolCache == CachedLookup(old(poolCache), mint, chain).1
    {
      var lookup := GetPoolData(mint, chain);
      if lookup.PoolNotFound? {
        return Reported(false);
      }
      r := onPool(lookup.data, lookup.poolType);
    }
  }

  function PoolTrade(lookup: PoolUtils.PoolLookup, onPool: (PoolUtils.PoolData, string) -> VenueResult): (r: VenueResult)
    ensures lookup.PoolNotFound? ==> r == Reported(false)
  {
    match lookup
    case PoolNotFound => Reported(false)
    case PoolFound(data, poolType) => onPool(data, poolType)
  }

  // ---------------------------------------------------------------------
  // The façade

  /**
   * What the façade's buy or sell returns: False without a strategy; the
   * strategy's confirmation otherwise, with an exception read as False.
   */
  function DispatchResult(tokenStates: map<Address, TokenState>, pools: map<Address, PoolUtils.PoolLookup>,
                          mint: Address, coin: CoinLookup, chain: PoolUtils.ChainSnapshot,
                          onCurve: VenueResult, onPool: (PoolUtils.PoolData, string) -> VenueResult): (ok: bool)
    ensures Detect(tokenStates, mint, coin).0.None? ==> !ok
  {
    match Detect(tokenStates, mint, coin).0
    case None => false
    case Some(BondingCurve) => Succeeded(onCurve)
    case Some(PumpSwapPool) => Succeeded(PoolTrade(CachedLookup(pools, mint, chain).0, onPool))
  }

  /** A trade reports True only when the venue the mint belongs to confirmed it. */
  lemma {:induction false} DispatchNeedsConfirmation(tokenStates: map<Address, TokenState>,
                                                     pools: map<Address, PoolUtils.PoolLookup>, mint: Address,
                                                     coin: CoinLookup, chain: PoolUtils.ChainSnapshot,
                                                     onCurve: VenueResult,
                                                     onPool: (PoolUtils.PoolData, string) -> VenueResult)
    requires DispatchResult(tokenStates, pools, mint, coin, chain, onCurve, onPool)
    ensures Detect(tokenStates, mint, coin).0 == Some(BondingCurve) ==> onCurve == Reported(true)
    ensures Detect(tokenStates, mint, coin).0 == Some(PumpSwapPool) ==>
      && CachedLookup(pools, mint, chain).0.PoolFound?
      && onPool(CachedLookup(pools, mint, chain).0.data, CachedLookup(pools, mint, chain).0.poolType) == Reported(true)
  {
    var venue := Detect(tokenStates, mint, coin).0;
    if venue == Some(PumpSwapPool) {
      var lookup := CachedLookup(pools, mint, chain).0;
      assert Succeeded(PoolTrade(lookup, onPool));
    }
  }

  class UnifiedPumpFun {
    var tokenStateCache: map<Address, TokenState>
    const pumpSwapStrategy: PumpSwapStrategy

    predicate Valid()
      reads this, pumpSwapStrategy
    {
      OnlyValidStates(tokenStateCache) && pumpSwapStrategy.Valid()
    }

    constructor()
      ensures Valid() && fresh(pumpSwapStrategy)
      ensures tokenStateCache == map[] && pumpSwapStrategy.poolCache == map[]
    {
      tokenStateCache := map[];
      pumpSwapStrategy := new PumpSwapStrategy();
    }

    method DetectTradingStrategy(mint: Address, coin: CoinLookup) returns (strategy: Option<Venue>)
      requires Valid()
      modifies this
      ensures Valid()
      ensures (strategy, tokenStateCache) == Detect(old(tokenStateCache), mint, coin)
    {
      var isValid: bool;
      var isOnBondingCurve: bool;
      if mint in tokenStateCache {
        isValid := tokenStateCache[mint].isValid;
        isOnBondingCurve := tokenStateCache[mint].isOnBondingCurve;
      } else {
        if !coin.CoinFound? {
          return None;
        }
        isValid := true;
        isOnBondingCurve := !coin.complete;
        tokenStateCache := tokenStateCache[mint := TokenState(isValid, isOnBondingCurve)];
      }
      if !isValid {
        return None;
      }
      if isOnBondingCurve {
        return Some(BondingCurve);
      }
      return Some(PumpSwapPool);
    }

    /**
     * buy and sell of the façade: detect the strategy, then trade with it.
     * `onCurve` is what the curve strategy reports for this trade and
     * `onPool` what the PumpSwap trade reports on a given pool.
     */
    method Dispatch(mint: Address, coin: CoinLookup, chain: PoolUtils.ChainSnapshot,
                    onCurve: VenueResult, onPool: (PoolUtils.PoolData, string) -> VenueResult) returns (ok: bool)
      requires Valid()
      modifies this, pumpSwapStrategy
      ensures Valid()
      ensures ok == DispatchResult(old(tokenStateCache), old(pumpSwapStrategy.poolCache), mint, coin, chain, onCurve, onPool)
      ensures tokenStateCache == Detect(old(tokenStateCache), mint, coin).1
      ensures pumpSwapStrategy.poolCache ==
        if Detect(old(tokenStateCache), mint, coin).0 == Some(PumpSwapPool)
        then CachedLookup(old(pumpSwapStrategy.poolCache), mint, chain).1
        else old(pumpSwapStrategy.poolCache)
    {
      var strategy := DetectTradingStrategy(mint, coin);
      if strategy.None? {
        return false;
      }
      var result: VenueResult;
      if strategy.value == BondingCurve {
        result := onCurve;
      } else {
        result := pumpSwapStrategy.Trade(mint, chain, onPool);
      }
      ok := Succeeded(result);
    }
  }

  // ---------------------------------------------------------------------
  // What the venues report

  /**
   * PumpSwap's buy on a pool: an exception propagates out of the strategy;
   * otherwise the confirmation of the sent transaction. The strategy's
   * `onPool` is `(pool, poolType) => SwapBuyReport(..., pool, poolType)`.
   */
  function SwapBuyReport(settings: PumpSwap.SwapSettings, user: Address, solAmount: real, slippagePct: real,
                         feeSol: real, existing: set<Address>, confirm: seq<Ix> -> bool,
                         pool: PoolUtils.PoolData, poolType: string): (r: VenueResult)
    ensures
      var outcome := PumpSwap.BuyOutcome(settings, user, pool, solAmount, poolType, slippagePct, feeSol, existing);
      && (r.Raised? <==> outcome.Failure?)
      && (r == Reported(true) <==> outcome.Success? && confirm(outcome.value.instructions))
  {
    match PumpSwap.BuyOutcome(settings, user, pool, solAmount, poolType, slippagePct, feeSol, existing)
    case Failure(_) => Raised
    case Success(trade) => Reported(confirm(trade.instructions))
  }

  /** PumpSwap's sell on a pool: an exception propagates, and a skipped sale reports False. */
  function SwapSellReport(settings: PumpSwap.SwapSettings, user: Address, balance: Option<real>, sellPct: real,
                          slippagePct: real, feeSol: real, existing: set<Address>, confirm: seq<Ix> -> bool,
                          pool: PoolUtils.PoolData, poolType: string): (r: VenueResult)
    ensures
      var outcome := PumpSwap.SellOutcome(settings, user, pool, balance, sellPct, poolType, slippagePct, feeSol, existing);
      && (r.Raised? <==> outcome.Failure?)
      && (r == Reported(true) <==> outcome.Success? && outcome.value.Sold? && confirm(outcome.value.instructions))
  {
    match PumpSwap.SellOutcome(settings, user, pool, balance, sellPct, poolType, slippagePct, feeSol, existing)
    case Failure(_) => Raised
    case Success(NotSold) => Reported(false)
    case Success(Sold(ixs, _)) => Reported(confirm(ixs))
  }

  /** The curve strategy's trade: the curve flows catch their own exceptions, so it always reports. */
  function CurveReport(outcome: Result<PumpFun.CurveTrade, Raised>, confirm: seq<Ix> -> bool): (r: VenueResult)
    ensures r.Reported?
    ensures r.confirmed ==> outcome.Success? && outcome.value.Submit?
  {
    Reported(PumpFun.ReportedConfirmation(outcome, confirm))
  }

  /** A PumpSwap sale that the sell flow skips never reports success through the façade. */
  lemma SkippedSaleReportsFalse(settings: PumpSwap.SwapSettings, user: Address, balance: Option<real>, sellPct: real,
                                slippagePct: real, feeSol: real, existing: set<Address>, confirm: seq<Ix> -> bool,
                                pool: PoolUtils.PoolData, poolType: string)
    requires PumpSwap.SellOutcome(settings, user, pool, balance, sellPct, poolType, slippagePct, feeSol, existing)
          == Success(PumpSwap.NotSold)
    ensures !Succeeded(SwapSellReport(settings, user, balance, sellPct, slippagePct, feeSol, existing, confirm, pool, poolType))
  {
  }
}
