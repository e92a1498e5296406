/**
 * The older price interface kept for compatibility: native prices keyed by
 * coin symbol and token prices keyed by contract, each wrapped as {"usd": p}.
 */
module Prices {
  import opened Wrappers
  import opened Pricing

  /** `{"usd": p}`; `p` is None when no price was found. */
  datatype Quote = Quote(usd: Option<real>)

  /** The coin symbols the wrapper understands, and the chain each stands for. */
  const SymbolToChain: map<string, string> :=
    map["ETH" := "ethereum", "POL" := "polygon", "BNB" := "bsc", "AVAX" := "avalanche"]

  /** `[symbol_to_chain[s] for s in symbols if s in symbol_to_chain]`. */
  function NativeChains(symbols: seq<string>): (r: seq<string>)
    ensures forall c :: c in r ==> exists s :: s in symbols && s in SymbolToChain && SymbolToChain[s] == c
    ensures forall s :: s in symbols && s in SymbolToChain ==> SymbolToChain[s] in r
  {
    if |symbols| == 0 then []
    else
      var rest := NativeChains(symbols[..|symbols| - 1]);
      var s := symbols[|symbols| - 1];
      assert forall t :: t in symbols[..|symbols| - 1] ==> t in symbols;
      assert forall t :: t in symbols ==> t in symbols[..|symbols| - 1] || t == s;
      if s in SymbolToChain then rest + [SymbolToChain[s]] else rest
  }

  /**
   * `fetch_native_prices`: one entry for each known symbol among the inputs
   * (matched with its case), holding the price of its chain, if any.
   */
  function FetchNativePrices(symbols: seq<string>, response: Option<UsdTable>): (r: map<string, Quote>)
    ensures forall s :: s in r <==> s in SymbolToChain && s in symbols
  {
    var prices := NativePrices(NativeChains(symbols), response);
    map s | s in SymbolToChain && s in symbols ::
      Quote(if SymbolToChain[s] in prices then prices[SymbolToChain[s]] else None)
  }

  /** Symbols are matched with their case: "eth" gets no entry. */
  lemma LowerCaseSymbolIgnored(symbols: seq<string>, response: Option<UsdTable>)
    ensures "eth" !in FetchNativePrices(symbols, response)
  {
  }

  /** BNB and AVAX stand for chains CoinGecko pricing does not support, so their price is always None. */
  lemma BnbAndAvaxNeverPriced(symbols: seq<string>, response: Option<UsdTable>)
    ensures "BNB" in FetchNativePrices(symbols, response) ==> FetchNativePrices(symbols, response)["BNB"] == Quote(None)
    ensures "AVAX" in FetchNativePrices(symbols, response) ==> FetchNativePrices(symbols, response)["AVAX"] == Quote(None)
  {
    var prices := NativePrices(NativeChains(symbols), response);
    assert "bsc" !in ChainToPlatform && "avalanche" !in ChainToPlatform;
    assert "bsc" !in prices && "avalanche" !in prices;
  }

  /**
   * Each entry holds the "usd" price of its chain's platform when the chain has
   * a platform and the response carries it, and None otherwise, including when
   * the request failed.
   */
  lemma NativePriceOfSymbol(symbols: seq<string>, response: Option<UsdTable>, s: string)
    requires s in SymbolToChain && s in symbols
    ensures var c := SymbolToChain[s];
            response.Some? && c in ChainToPlatform && ChainToPlatform[c] in response.value ==>
              FetchNativePrices(symbols, response)[s] == Quote(response.value[ChainToPlatform[c]])
    ensures var c := SymbolToChain[s];
            !(response.Some? && c in ChainToPlatform && ChainToPlatform[c] in response.value) ==>
              FetchNativePrices(symbols, response)[s] == Quote(None)
  {
    var c := SymbolToChain[s];
    var chains := NativeChains(symbols);
    assert c in chains;
    if c in ChainToPlatform {
      var i :| 0 <= i < |chains| && chains[i] == c;
      assert chains[i] in ChainToPlatform;
    }
  }

  /** `fetch_erc20_prices`: the token prices under the same keys, each wrapped. */
  function FetchErc20Prices(chain: string, contracts: seq<string>,
                            fetch: TokenFetch): (r: map<string, Quote>)
    ensures forall a :: a in r <==> a in Erc20Prices(chain, contracts, fetch)
    ensures forall a :: a in r ==> r[a] == Quote(Erc20Prices(chain, contracts, fetch)[a])
  {
    var prices := Erc20Prices(chain, contracts, fetch);
    map a | a in prices :: Quote(prices[a])
  }
}
