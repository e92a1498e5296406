/**
 * Ethereum token balances from Alchemy, with symbols and decimals from the
 * token-metadata cache. The request is the `response` input (None when it
 * raised) and the loaded cache is the `cache` input. The endpoint URL is a
 * fixed non-empty prefix followed by the key, so its emptiness guard never
 * returns early.
 */
module EthereumErc20 {
  import opened Wrappers
  import opened Text
  import opened Numbers
  import opened Holdings
  import opened Alchemy

  /** A cache entry `{"symbol": ..., "decimals": ...}`. */
  datatype TokenMeta = TokenMeta(symbol: string, decimals: int)

  /** The metadata of a contract the cache does not know. */
  const DefaultMeta := TokenMeta("ERC20", 18)

  /**
   * The treatment of one balance: a hex balance that does not parse raises, a
   * zero balance is skipped, a missing contract raises; otherwise a token
   * holding on "ethereum" for the lower-cased contract, scaled by the cached
   * decimals.
   */
  function BalanceStep(cache: map<string, TokenMeta>): TokenBalance -> Step {
    (t: TokenBalance) =>
      var raw := RawBalance(t);
      if raw.None? then Fail
      else if raw.value == 0 then Skip
      else if t.contractAddress.None? then Fail
      else
        var addr := Lower(t.contractAddress.value);
        var meta := if addr in cache then cache[addr] else DefaultMeta;
        Keep(Holding(
          symbol := Some(meta.symbol),
          amount := Scale(raw.value, meta.decimals),
          costBasis := 0.0,
          isErc20 := true,
          chain := "ethereum",
          contractAddress := Some(addr),
          decimals := None,
          source := None))
  }

  /** The adapter's result: no holdings when the request failed, None when the parsing loop raises. */
  function EthHoldings(response: Option<seq<TokenBalance>>, cache: map<string, TokenMeta>): Option<seq<Holding>> {
    if response.None? then Some([]) else Collected(response.value, BalanceStep(cache))
  }

  /** `fetch_eth_erc20_balances`: also returns the cache it saves back, which is the one it loaded. */
  method FetchEthErc20Balances(response: Option<seq<TokenBalance>>, cache: map<string, TokenMeta>)
    returns (r: Option<seq<Holding>>, saved: map<string, TokenMeta>)
    ensures r == EthHoldings(response, cache)
    ensures saved == cache
  {
    saved := cache;
    if response.None? {
      return Some([]), saved;
    }
    r := BalancesToHoldings(response.value, cache);
  }

  /** The loop over the token balances, reading the cache. */
  method BalancesToHoldings(tokens: seq<TokenBalance>, cache: map<string, TokenMeta>) returns (r: Option<seq<Holding>>)
    ensures r == Collected(tokens, BalanceStep(cache))
  {
    var holdings: seq<Holding> := [];
    for i := 0 to |tokens|
      invariant Collected(tokens[..i], BalanceStep(cache)) == Some(holdings)
    {
      CollectedStep(tokens, i, BalanceStep(cache));
      var t := tokens[i];
      var raw := RawBalance(t);
      if raw.None? {
        CollectedFails(tokens, i, BalanceStep(cache));
        return None;
      }
      if raw.value == 0 {
        continue;
      }
      if t.contractAddress.None? {
        CollectedFails(tokens, i, BalanceStep(cache));
        return None;
      }
      var addr := Lower(t.contractAddress.value);
      var meta := if addr in cache then cache[addr] else DefaultMeta;
      holdings := holdings + [Holding(
        symbol := Some(meta.symbol),
        amount := Scale(raw.value, meta.decimals),
        costBasis := 0.0,
        isErc20 := true,
        chain := "ethereum",
        contractAddress := Some(addr),
        decimals := None,
        source := None)];
    }
    assert tokens[..|tokens|] == tokens;
    r := Some(holdings);
  }

  /**
   * Every holding is an Ethereum token with a lower-case contract, a nonzero
   * amount, and the cached symbol of its contract, or "ERC20" (with 18
   * decimals) for a contract the cache does not know.
   */
  lemma EthHoldingShape(response: Option<seq<TokenBalance>>, cache: map<string, TokenMeta>, h: Holding)
    requires EthHoldings(response, cache).Some? && h in EthHoldings(response, cache).value
    ensures h.isErc20 && h.chain == "ethereum" && h.costBasis == 0.0
    ensures h.contractAddress.Some? && Lower(h.contractAddress.value) == h.contractAddress.value
    ensures h.amount != 0.0
    ensures h.contractAddress.value in cache ==> h.symbol == Some(cache[h.contractAddress.value].symbol)
    ensures h.contractAddress.value !in cache ==>
              h.symbol == Some("ERC20") && exists raw: int :: raw != 0 && h.amount == Scale(raw, 18)
  {
    var items := response.value;
    CollectedFrom(items, BalanceStep(cache), h);
    var i :| 0 <= i < |items| && BalanceStep(cache)(items[i]) == Keep(h);
    var raw := RawBalance(items[i]).value;
    var addr := Lower(items[i].contractAddress.value);
    var meta := if addr in cache then cache[addr] else DefaultMeta;
    ScaleRoundTrip(raw, meta.decimals);
    LowerIdempotent(items[i].contractAddress.value);
  }

  /** A balance entry without a contract address raises, unless its balance is zero. */
  lemma MissingContractRaises(tokens: seq<TokenBalance>, cache: map<string, TokenMeta>, i: int)
    requires 0 <= i < |tokens| && tokens[i].contractAddress.None?
    requires RawBalance(tokens[i]).Some? && RawBalance(tokens[i]).value != 0
    ensures EthHoldings(Some(tokens), cache) == None
  {
    CollectedFails(tokens, i, BalanceStep(cache));
  }
}
