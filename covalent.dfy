/**
 * Token holdings from a Covalent balances response. The HTTP request is the
 * `response` input: None when the request, the status check or the JSON
 * decoding raised; otherwise the response's `data.items` list.
 */
module Covalent {
  import opened Wrappers
  import opened Text
  import opened Numbers
  import opened Holdings

  /** One entry of `items`; every key may be missing (None). */
  datatype CovalentItem = CovalentItem(
    contractAddress: Option<string>,
    contractDecimals: Option<int>,
    balance: Option<string>,
    tickerSymbol: Option<string>)

  /**
   * The treatment of one item: skipped without a contract, without decimals or
   * with a zero balance; a balance `int()` cannot parse raises; otherwise a
   * token holding with the balance scaled by the decimals.
   */
  function ItemStep(chainSymbol: string): CovalentItem -> Step {
    (item: CovalentItem) =>
      if !Truthy(item.contractAddress) || item.contractDecimals.None? then Skip
      else
        var raw := if item.balance.Some? then ParseInt(item.balance.value, 10) else Some(0);
        if raw.None? then Fail
        else if raw.value == 0 then Skip
        else Keep(Holding(
          symbol := Some(if Truthy(item.tickerSymbol) then item.tickerSymbol.value else "UNKNOWN"),
          amount := Scale(raw.value, item.contractDecimals.value),
          costBasis := 0.0,
          isErc20 := true,
          chain := chainSymbol,
          contractAddress := Some(Lower(item.contractAddress.value)),
          decimals := None,
          source := None))
  }

  /** The holdings the adapter returns: none without an API key, and none when anything raised. */
  function CovalentHoldings(apiKey: Option<string>, chainSymbol: string, response: Option<seq<CovalentItem>>): seq<Holding> {
    if !Truthy(apiKey) || response.None? then []
    else Collected(response.value, ItemStep(chainSymbol)).GetOr([])
  }

  /** `fetch_covalent_erc20_holdings`. */
  method FetchCovalentErc20Holdings(apiKey: Option<string>, chainSymbol: string, response: Option<seq<CovalentItem>>)
    returns (holdings: seq<Holding>)
    ensures holdings == CovalentHoldings(apiKey, chainSymbol, response)
  {
    if !Truthy(apiKey) {
      return [];
    }
    if response.None? {
      return [];
    }
    var items := response.value;
    holdings := [];
    for i := 0 to |items|
      invariant Collected(items[..i], ItemStep(chainSymbol)) == Some(holdings)
    {
      CollectedStep(items, i, ItemStep(chainSymbol));
      var item := items[i];
      if !Truthy(item.contractAddress) {
        continue;
      }
      if item.contractDecimals.None? {
        continue;
      }
      var balanceRaw := if item.balance.Some? then ParseInt(item.balance.value, 10) else Some(0);
      if balanceRaw.None? {
        CollectedFails(items, i, ItemStep(chainSymbol));
        return [];
      }
      if balanceRaw.value == 0 {
        continue;
      }
      var decimals := item.contractDecimals.value;
      var amount := Scale(balanceRaw.value, decimals);
      var holding := Holding(
        symbol := Some(if Truthy(item.tickerSymbol) then item.tickerSymbol.value else "UNKNOWN"),
        amount := amount,
        costBasis := 0.0,
        isErc20 := true,
        chain := chainSymbol,
        contractAddress := Some(Lower(item.contractAddress.value)),
        decimals := None,
        source := None);
      assert ItemStep(chainSymbol)(item) == Keep(holding);
      holdings := holdings + [holding];
    }
    assert items[..|items|] == items;
  }

  /**
   * Every returned holding is a token on the given chain with a symbol, a
   * lower-case contract, no cost basis and a nonzero amount: a nonzero raw
   * balance scaled by some number of decimals.
   */
  lemma CovalentHoldingShape(apiKey: Option<string>, chainSymbol: string, response: Option<seq<CovalentItem>>, h: Holding)
    requires h in CovalentHoldings(apiKey, chainSymbol, response)
    ensures h.isErc20 && h.costBasis == 0.0 && h.chain == chainSymbol
    ensures Truthy(h.symbol)
    ensures h.contractAddress.Some? && Lower(h.contractAddress.value) == h.contractAddress.value
    ensures h.amount != 0.0
    ensures exists raw: int, d: int :: raw != 0 && h.amount == Scale(raw, d)
  {
    var items := response.value;
    CollectedFrom(items, ItemStep(chainSymbol), h);
    var i :| 0 <= i < |items| && ItemStep(chainSymbol)(items[i]) == Keep(h);
    var item := items[i];
    var raw := if item.balance.Some? then ParseInt(item.balance.value, 10) else Some(0);
    ScaleRoundTrip(raw.value, item.contractDecimals.value);
    LowerIdempotent(item.contractAddress.value);
  }

  /** An item with a contract and decimals but an unparsable balance discards the whole result. */
  lemma BadBalanceDiscardsAll(apiKey: Option<string>, chainSymbol: string, items: seq<CovalentItem>, i: int)
    requires 0 <= i < |items|
    requires Truthy(items[i].contractAddress) && items[i].contractDecimals.Some?
    requires items[i].balance.Some? && ParseInt(items[i].balance.value, 10).None?
    ensures CovalentHoldings(apiKey, chainSymbol, Some(items)) == []
  {
    CollectedFails(items, i, ItemStep(chainSymbol));
  }

  /** The holdings follow the items' order: two runs of items give their holdings one after the other. */
  lemma CovalentKeepsOrder(apiKey: Option<string>, chainSymbol: string, a: seq<CovalentItem>, b: seq<CovalentItem>)
    requires Truthy(apiKey)
    requires Collected(a, ItemStep(chainSymbol)).Some? && Collected(b, ItemStep(chainSymbol)).Some?
    ensures CovalentHoldings(apiKey, chainSymbol, Some(a + b)) ==
            CovalentHoldings(apiKey, chainSymbol, Some(a)) + CovalentHoldings(apiKey, chainSymbol, Some(b))
  {
    CollectedAppend(a, b, ItemStep(chainSymbol));
  }
}
