/**
 * The portfolio pipeline for one wallet: gather the holdings of every chain,
 * drop scam tokens, choose a price for each holding, value the positions,
 * merge them and total them.
 *
 * Inputs stand for the calls the pipeline makes: whether the address is
 * valid, each chain's fetch result (None when it raised), the CoinGecko
 * response for native coins, and the token price table.
 */
module MultiChain {
  import opened Wrappers
  import opened Numbers
  import opened Holdings
  import opened ScamFilter
  import opened Stablecoins
  import opened Calculator
  import opened Deduplicate
  import opened Pricing
  import opened Prices

  datatype PipelineError =
    | InvalidAddress          // the address check raises before any chain is fetched
    | StablecoinPriceMissing  // `min(1.003, None)` raises for a stablecoin quote without a price

  /** `{"portfolio": merged, "total_value": ..., "total_pnl": ...}`. */
  datatype Portfolio = Portfolio(portfolio: seq<MergedPosition>, totalValue: real, totalPnl: real)

  // ---------------------------------------------------------------------------
  // Specification
  // ---------------------------------------------------------------------------

  /** The holdings the scam filter keeps, in order. */
  function Kept(hs: seq<Holding>, order: seq<string>): (r: seq<Holding>)
    requires IsIterationOrder(order)
    ensures forall i :: 0 <= i < |r| ==> !IsScamToken(r[i], order).suppressed
    ensures forall i :: 0 <= i < |r| ==> r[i] in hs
    ensures forall i :: 0 <= i < |hs| && !IsScamToken(hs[i], order).suppressed ==> hs[i] in r
  {
    if |hs| == 0 then []
    else
      var init := Kept(hs[..|hs| - 1], order);
      var h := hs[|hs| - 1];
      assert forall i :: 0 <= i < |hs| - 1 ==> hs[..|hs| - 1][i] == hs[i];
      if IsScamToken(h, order).suppressed then init else init + [h]
  }

  /** A holding priced by contract: a token with a contract address. */
  predicate ByContract(h: Holding) {
    h.isErc20 && Truthy(h.contractAddress)
  }

  /** `native_symbols`: the symbols of the kept holdings not priced by contract. */
  function NativeSymbols(kept: seq<Holding>): set<string> {
    set i | 0 <= i < |kept| && !ByContract(kept[i]) :: SymbolText(kept[i])
  }

  /** `erc20_contracts`: the contract addresses of the kept holdings priced by contract. */
  function Erc20Contracts(kept: seq<Holding>): set<string> {
    set i | 0 <= i < |kept| && ByContract(kept[i]) :: kept[i].contractAddress.value
  }

  /** The native symbols in holding order, repeats included: one listing of `NativeSymbols`. */
  function NativeSymbolList(kept: seq<Holding>): (r: seq<string>)
    ensures forall s :: s in r <==> s in NativeSymbols(kept)
  {
    if |kept| == 0 then []
    else
      var init := kept[..|kept| - 1];
      var h := kept[|kept| - 1];
      PartitionSnoc(init, h);
      assert kept == init + [h];
      NativeSymbolList(init) + (if ByContract(h) then [] else [SymbolText(h)])
  }

  /** `prices.get(key)` for a key that may be None. */
  function Lookup(prices: map<string, Quote>, key: Option<string>): Option<Quote> {
    if key.Some? && key.value in prices then Some(prices[key.value]) else None
  }

  /** `max(0.996, min(1.003, q))`. */
  function ClampStable(q: real): (r: real)
    ensures 0.996 <= r <= 1.003
    ensures 0.996 <= q <= 1.003 ==> r == q
    ensures q < 0.996 ==> r == 0.996
    ensures q > 1.003 ==> r == 1.003
  {
    var capped := if q < 1.003 then q else 1.003;
    if capped > 0.996 then capped else 0.996
  }

  /** The quote the pipeline looks up for a holding: by contract for a token, by symbol for a native coin. */
  function QuoteFor(h: Holding, nativePrices: map<string, Quote>, erc20Prices: map<string, Quote>): Option<Quote> {
    if h.isErc20 then Lookup(erc20Prices, h.contractAddress) else Lookup(nativePrices, h.symbol)
  }

  /**
   * The price the pipeline passes to the calculator. A stablecoin's quote is
   * clamped into the peg band, without a quote it is exactly 1.0, and a quote
   * whose "usd" is None raises; other holdings take their quote, or 0.0
   * without one.
   */
  function SelectPrice(h: Holding, nativePrices: map<string, Quote>, erc20Prices: map<string, Quote>): (r: Result<real, PipelineError>)
    ensures IsStablecoin(SymbolText(h)) && r.Ok? ==> 0.996 <= r.value <= 1.003
    ensures r.Err? <==> IsStablecoin(SymbolText(h)) && QuoteFor(h, nativePrices, erc20Prices) == Some(Quote(None))
    ensures r.Err? ==> r.error == StablecoinPriceMissing
    ensures IsStablecoin(SymbolText(h)) && QuoteFor(h, nativePrices, erc20Prices).None? ==> r == Ok(1.0)
    ensures IsStablecoin(SymbolText(h)) && QuoteFor(h, nativePrices, erc20Prices).Some? &&
            QuoteFor(h, nativePrices, erc20Prices).value.usd.Some? ==>
              r == Ok(ClampStable(QuoteFor(h, nativePrices, erc20Prices).value.usd.value))
    ensures !IsStablecoin(SymbolText(h)) && QuoteFor(h, nativePrices, erc20Prices).Some? &&
            QuoteFor(h, nativePrices, erc20Prices).value.usd.Some? ==>
              r == Ok(QuoteFor(h, nativePrices, erc20Prices).value.usd.value)
    ensures !IsStablecoin(SymbolText(h)) && h.isErc20 && Lookup(erc20Prices, h.contractAddress).None? ==> r == Ok(0.0)
    ensures !IsStablecoin(SymbolText(h)) && !h.isErc20 && Lookup(nativePrices, h.symbol).None? ==> r == Ok(0.0)
    ensures !IsStablecoin(SymbolText(h)) && QuoteFor(h, nativePrices, erc20Prices) == Some(Quote(None)) ==> r == Ok(0.0)
  {
    var quote := QuoteFor(h, nativePrices, erc20Prices);
    if IsStablecoin(SymbolText(h)) then
      match quote
      case None => Ok(1.0)
      case Some(Quote(None)) => Err(StablecoinPriceMissing)
      case Some(Quote(Some(q))) => Ok(ClampStable(q))
    else
      match quote
      case Some(Quote(Some(q))) => Ok(q)
      case _ => Ok(0.0)
  }

  /** The positions of the kept holdings, in order, or the first error. */
  function PositionsOf(kept: seq<Holding>, nativePrices: map<string, Quote>, erc20Prices: map<string, Quote>)
    : Result<seq<Option<Position>>, PipelineError>
  {
    if |kept| == 0 then Ok([])
    else
      match PositionsOf(kept[..|kept| - 1], nativePrices, erc20Prices)
      case Err(e) => Err(e)
      case Ok(ps) =>
        var h := kept[|kept| - 1];
        match SelectPrice(h, nativePrices, erc20Prices)
        case Err(e) => Err(e)
        case Ok(price) =>
          var p := CalculatePosition(h, Some(price));
          Ok(if p.Some? then ps + [p] else ps)
  }

  function MergedValue(m: MergedPosition): real { m.currentValue }
  function MergedInvested(m: MergedPosition): real { m.invested }

  /** The result for merged entries: the sum of the values, and that sum less the sum of the investments. */
  function Totals(merged: seq<MergedPosition>): Portfolio {
    Portfolio(merged, Sum(merged, MergedValue), Sum(merged, MergedValue) - Sum(merged, MergedInvested))
  }

  /** The whole pipeline as a function of its inputs. */
  function PortfolioOf(addressValid: bool, fetched: seq<Option<seq<Holding>>>, order: seq<string>,
                       nativeResponse: Option<UsdTable>, erc20Prices: map<string, Quote>): Result<Portfolio, PipelineError>
    requires IsIterationOrder(order)
  {
    if !addressValid then Err(InvalidAddress)
    else
      var kept := Kept(Gathered(fetched), order);
      var nativePrices := FetchNativePrices(NativeSymbolList(kept), nativeResponse);
      match PositionsOf(kept, nativePrices, erc20Prices)
      case Err(e) => Err(e)
      case Ok(ps) => Ok(Totals(SortDesc(Rows(ps))))
  }

  // ---------------------------------------------------------------------------
  // The imperative code
  // ---------------------------------------------------------------------------

  /**
   * `fetch_multi_chain_portfolio`. The native price request receives the
   * set of native symbols as a list in whatever order the set yields; the
   * prices depend only on the set's members.
   */
  method FetchMultiChainPortfolio(addressValid: bool, fetched: seq<Option<seq<Holding>>>, order: seq<string>,
                                  nativeResponse: Option<UsdTable>, erc20Prices: map<string, Quote>)
    returns (r: Result<Portfolio, PipelineError>)
    requires IsIterationOrder(order)
    ensures r == PortfolioOf(addressValid, fetched, order, nativeResponse, erc20Prices)
  {
    if !addressValid {
      return Err(InvalidAddress);
    }
    var allHoldings: seq<Holding> := [];
    for i := 0 to |fetched|
      invariant allHoldings == Gathered(fetched[..i])
    {
      assert fetched[..i + 1][..i] == fetched[..i];
      if fetched[i].Some? {
        allHoldings := allHoldings + fetched[i].value;
      }
    }
    assert fetched[..|fetched|] == fetched;

    var filtered, nativeSymbols, erc20Contracts := FilterAndPartition(allHoldings, order);
    var symbolList := ListOf(nativeSymbols);
    var nativePrices := FetchNativePrices(symbolList, nativeResponse);
    NativePricesByMembership(symbolList, NativeSymbolList(filtered), nativeResponse);

    var positions := ValuePositions(filtered, nativePrices, erc20Prices);
    if positions.Err? {
      return Err(positions.error);
    }
    var merged := DeduplicatePositions(positions.value);
    r := Ok(Totals(merged));
  }

  /**
   * The pricing loop: chooses each kept holding's price and values it,
   * keeping the positions the calculator produces; a stablecoin quote
   * without a price stops the pipeline.
   */
  method ValuePositions(filtered: seq<Holding>, nativePrices: map<string, Quote>, erc20Prices: map<string, Quote>)
    returns (r: Result<seq<Option<Position>>, PipelineError>)
    ensures r == PositionsOf(filtered, nativePrices, erc20Prices)
  {
    var positions: seq<Option<Position>> := [];
    for i := 0 to |filtered|
      invariant PositionsOf(filtered[..i], nativePrices, erc20Prices) == Ok(positions)
    {
      assert filtered[..i + 1][..i] == filtered[..i];
      var price := SelectPrice(filtered[i], nativePrices, erc20Prices);
      if price.Err? {
        ErrorPersists(filtered, i + 1, nativePrices, erc20Prices);
        ErrorIsTheOnlyOne(filtered, nativePrices, erc20Prices);
        return Err(price.error);
      }
      var position := CalculatePosition(filtered[i], Some(price.value));
      if position.Some? {
        positions := positions + [position];
      }
    }
    assert filtered[..|filtered|] == filtered;
    return Ok(positions);
  }

  /**
   * The scam-filter loop: keeps the holdings the filter passes and sorts
   * each into the token contracts or the native symbols.
   */
  method FilterAndPartition(hs: seq<Holding>, order: seq<string>)
    returns (filtered: seq<Holding>, nativeSymbols: set<string>, erc20Contracts: set<string>)
    requires IsIterationOrder(order)
    ensures filtered == Kept(hs, order)
    ensures nativeSymbols == NativeSymbols(filtered)
    ensures erc20Contracts == Erc20Contracts(filtered)
  {
    filtered, nativeSymbols, erc20Contracts := [], {}, {};
    for i := 0 to |hs|
      invariant filtered == Kept(hs[..i], order)
      invariant nativeSymbols == NativeSymbols(filtered)
      invariant erc20Contracts == Erc20Contracts(filtered)
    {
      assert hs[..i + 1][..i] == hs[..i];
      var h := hs[i];
      var verdict := IsScamToken(h, order);
      if verdict.suppressed {
        continue;
      }
      PartitionSnoc(filtered, h);
      filtered := filtered + [h];
      if h.isErc20 && Truthy(h.contractAddress) {
        erc20Contracts := erc20Contracts + {h.contractAddress.value};
      } else {
        nativeSymbols := nativeSymbols + {SymbolText(h)};
      }
    }
    assert hs[..|hs|] == hs;
  }

  /** `list(s)`: the elements of a set, each once, in an order the model does not fix. */
  method ListOf(s: set<string>) returns (list: seq<string>)
    ensures forall x :: x in list <==> x in s
    ensures forall i, j :: 0 <= i < j < |list| ==> list[i] != list[j]
  {
    list := [];
    var rest := s;
    while rest != {}
      invariant rest <= s
      invariant forall x :: x in s <==> x in list || x in rest
      invariant forall x :: x in list ==> x !in rest
      invariant forall i, j :: 0 <= i < j < |list| ==> list[i] != list[j]
      decreases |rest|
    {
      var x :| x in rest;
      list := list + [x];
      rest := rest - {x};
    }
  }

  // ---------------------------------------------------------------------------
  // Lemmas
  // ---------------------------------------------------------------------------

  lemma PartitionSnoc(kept: seq<Holding>, h: Holding)
    ensures NativeSymbols(kept + [h]) == NativeSymbols(kept) + (if ByContract(h) then {} else {SymbolText(h)})
    ensures Erc20Contracts(kept + [h]) == Erc20Contracts(kept) + (if ByContract(h) then {h.contractAddress.value} else {})
  {
    var s := kept + [h];
    assert forall i :: 0 <= i < |kept| ==> s[i] == kept[i];
    assert s[|kept|] == h;
  }

  /** Once the positions of a prefix fail, the positions of the whole list fail too. */
  lemma {:induction false} ErrorPersists(kept: seq<Holding>, j: int, nativePrices: map<string, Quote>, erc20Prices: map<string, Quote>)
    requires 0 <= j <= |kept|
    requires PositionsOf(kept[..j], nativePrices, erc20Prices).Err?
    ensures PositionsOf(kept, nativePrices, erc20Prices).Err?
    decreases |kept|
  {
    if j == |kept| {
      assert kept[..j] == kept;
    } else {
      var init := kept[..|kept| - 1];
      assert init[..j] == kept[..j];
      ErrorPersists(init, j, nativePrices, erc20Prices);
    }
  }

  /** The only way the positions fail is a stablecoin quote without a price. */
  lemma {:induction false} ErrorIsTheOnlyOne(kept: seq<Holding>, nativePrices: map<string, Quote>, erc20Prices: map<string, Quote>)
    ensures PositionsOf(kept, nativePrices, erc20Prices).Err? ==>
            PositionsOf(kept, nativePrices, erc20Prices).error == StablecoinPriceMissing
  {
    if |kept| > 0 {
      ErrorIsTheOnlyOne(kept[..|kept| - 1], nativePrices, erc20Prices);
    }
  }

  lemma NativeChainsMembership(a: seq<string>, b: seq<string>)
    requires forall s :: s in a <==> s in b
    ensures |Platforms(NativeChains(a))| == 0 <==> |Platforms(NativeChains(b))| == 0
  {
    var ca, cb := NativeChains(a), NativeChains(b);
    if |Platforms(ca)| > 0 {
      var i :| 0 <= i < |ca| && ca[i] in ChainToPlatform;
      assert ca[i] in ca;
      var s :| s in a && s in SymbolToChain && SymbolToChain[s] == ca[i];
      assert ca[i] in cb;
    }
    if |Platforms(cb)| > 0 {
      var i :| 0 <= i < |cb| && cb[i] in ChainToPlatform;
      assert cb[i] in cb;
      var s :| s in b && s in SymbolToChain && SymbolToChain[s] == cb[i];
      assert cb[i] in ca;
    }
  }

  /** The native prices depend only on which symbols are asked for, not on their order or repetition. */
  lemma NativePricesByMembership(a: seq<string>, b: seq<string>, response: Option<UsdTable>)
    requires forall s :: s in a <==> s in b
    ensures FetchNativePrices(a, response) == FetchNativePrices(b, response)
  {
    NativeChainsMembership(a, b);
  }

  /** Every position comes from a kept holding, so a suppressed holding is never valued. */
  lemma {:induction false} PositionsFromKept(kept: seq<Holding>, nativePrices: map<string, Quote>, erc20Prices: map<string, Quote>)
    requires PositionsOf(kept, nativePrices, erc20Prices).Ok?
    ensures forall p :: p in PositionsOf(kept, nativePrices, erc20Prices).value ==>
              p.Some? && exists h :: h in kept && h.amount > 0.0 && p.value.symbol == h.symbol &&
                                     p.value.chain == h.chain && p.value.amount == h.amount
  {
    if |kept| > 0 {
      var init := kept[..|kept| - 1];
      PositionsFromKept(init, nativePrices, erc20Prices);
      forall h | h in init
        ensures h in kept
      {
        var i :| 0 <= i < |init| && init[i] == h;
        assert kept[i] == h;
      }
    }
  }

  /**
   * The calculator never sets `is_erc20`, so the deduplicator files every
   * pipeline position under the token marker: a native coin and a token of
   * the same symbol on the same chain are merged into one entry.
   */
  lemma {:induction false} PipelineKeysAreErc20(kept: seq<Holding>, nativePrices: map<string, Quote>, erc20Prices: map<string, Quote>)
    requires PositionsOf(kept, nativePrices, erc20Prices).Ok?
    ensures forall p :: p in PositionsOf(kept, nativePrices, erc20Prices).value ==>
              p.Some? && p.value.isErc20 == None && KeyOf(p.value).marker == Erc20
  {
    if |kept| > 0 {
      PipelineKeysAreErc20(kept[..|kept| - 1], nativePrices, erc20Prices);
    }
  }

  /** An invalid address fails the pipeline whatever the chains would return. */
  lemma InvalidAddressFails(fetched: seq<Option<seq<Holding>>>, order: seq<string>, nativeResponse: Option<UsdTable>,
                            erc20Prices: map<string, Quote>)
    requires IsIterationOrder(order)
    ensures PortfolioOf(false, fetched, order, nativeResponse, erc20Prices) == Err(InvalidAddress)
  {
  }
}
