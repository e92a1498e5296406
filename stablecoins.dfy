/** The stablecoin predicate: case-insensitive membership in a fixed set of tickers. */
module Stablecoins {
  import opened Text

  /** The tickers treated as dollar-pegged. */
  const Tickers: set<string> :=
    {"USDT", "USDC", "DAI", "BUSD", "TUSD", "USDP", "GUSD", "FRAX", "USD1"}

  /**
   * `is_stablecoin`: the upper-cased symbol is one of the tickers; nothing is
   * trimmed, so a recognised symbol is made of letters and digits only.
   */
  function IsStablecoin(symbol: string): (r: bool)
    ensures r ==> IsAlnum(symbol)
  {
    var up := Upper(symbol);
    if up in Tickers then
      assert IsAlnum(up);
      assert forall i :: 0 <= i < |symbol| ==> up[i] == UpperChar(symbol[i]);
      true
    else false
  }

  /** Case does not matter: a symbol, its upper-cased and its lower-cased form agree. */
  lemma StablecoinIgnoresCase(symbol: string)
    ensures IsStablecoin(symbol) == IsStablecoin(Upper(symbol))
    ensures IsStablecoin(symbol) == IsStablecoin(Lower(symbol))
  {
    UpperIdempotent(symbol);
    UpperOfLower(symbol);
  }

  /** A stablecoin symbol has exactly the length of one of the tickers: 3 or 4 characters. */
  lemma StablecoinLength(symbol: string)
    requires IsStablecoin(symbol)
    ensures |symbol| == 3 || |symbol| == 4
  {
    assert |Upper(symbol)| == |symbol|;
  }

  /** No trimming is done: a ticker with surrounding space is not recognised. */
  lemma PaddedTickerIsNot(t: string)
    requires t in Tickers
    ensures !IsStablecoin(" " + t)
    ensures !IsStablecoin(t + " ")
  {
    assert Upper(" " + t)[0] == ' ';
    assert Upper(t + " ")[|t|] == ' ';
  }

  lemma StablecoinExamples()
    ensures IsStablecoin("usdc") && IsStablecoin("Dai") && IsStablecoin("usd1")
    ensures !IsStablecoin("WETH") && !IsStablecoin(" USDC")
  {
    assert Upper("usdc") == "USDC";
    assert Upper("Dai") == "DAI";
    assert Upper("usd1") == "USD1";
    assert Upper("WETH") == "WETH";
    PaddedTickerIsNot("USDC");
  }
}
