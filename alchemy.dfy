/**
 * Token holdings from an Alchemy `alchemy_getTokenBalances` response. The
 * request is the `response` input: None when it raised; otherwise the
 * `result.tokenBalances` list.
 */
module Alchemy {
  import opened Wrappers
  import opened Text
  import opened Holdings
  import ScamFilter

  /** One entry of `tokenBalances`; each key may be missing (None). */
  datatype TokenBalance = TokenBalance(tokenBalance: Option<string>, contractAddress: Option<string>)

  /** The networks with an Alchemy endpoint, by lower-case chain name. */
  const Networks: set<string> := {"ethereum", "polygon", "arbitrum", "optimism", "base"}

  /** `int(item.get("tokenBalance", "0"), 16)`: None when it raises. */
  function RawBalance(item: TokenBalance): Option<int> {
    ParseInt(item.tokenBalance.GetOr("0"), 16)
  }

  /**
   * The treatment of one balance: a hex balance that does not parse raises, a
   * zero balance is skipped, any other becomes a token holding with the raw
   * integer amount, no symbol and the contract as given.
   */
  function BalanceStep(chain: string): TokenBalance -> Step {
    (item: TokenBalance) =>
      var raw := RawBalance(item);
      if raw.None? then Fail
      else if raw.value == 0 then Skip
      else Keep(Holding(
        symbol := None,
        amount := raw.value as real,
        costBasis := 0.0,
        isErc20 := true,
        chain := chain,
        contractAddress := item.contractAddress,
        decimals := None,
        source := Some("alchemy")))
  }

  /**
   * The result of the adapter: no holdings without an API key, for a chain
   * without an endpoint, or when the request failed; None when parsing a
   * balance raises (the parsing loop is outside the request's error handling).
   */
  function AlchemyHoldings(apiKey: Option<string>, chain: string, response: Option<seq<TokenBalance>>): Option<seq<Holding>> {
    if !Truthy(apiKey) || Lower(chain) !in Networks || response.None? then Some([])
    else Collected(response.value, BalanceStep(chain))
  }

  /** `fetch_alchemy_erc20_holdings`. */
  method FetchAlchemyErc20Holdings(apiKey: Option<string>, chain: string, response: Option<seq<TokenBalance>>)
    returns (r: Option<seq<Holding>>)
    ensures r == AlchemyHoldings(apiKey, chain, response)
  {
    if !Truthy(apiKey) {
      return Some([]);
    }
    if Lower(chain) !in Networks {
      return Some([]);
    }
    if response.None? {
      return Some([]);
    }
    var balances := response.value;
    var holdings: seq<Holding> := [];
    for i := 0 to |balances|
      invariant Collected(balances[..i], BalanceStep(chain)) == Some(holdings)
    {
      CollectedStep(balances, i, BalanceStep(chain));
      var item := balances[i];
      var rawBalance := ParseInt(item.tokenBalance.GetOr("0"), 16);
      if rawBalance.None? {
        CollectedFails(balances, i, BalanceStep(chain));
        return None;
      }
      if rawBalance.value == 0 {
        continue;
      }
      holdings := holdings + [Holding(
        symbol := None,
        amount := rawBalance.value as real,
        costBasis := 0.0,
        isErc20 := true,
        chain := chain,
        contractAddress := item.contractAddress,
        decimals := None,
        source := Some("alchemy"))];
    }
    assert balances[..|balances|] == balances;
    r := Some(holdings);
  }

  /**
   * Every Alchemy holding is a token on the chain as given, with no symbol and
   * an unscaled nonzero integer amount, and the scam filter therefore always
   * suppresses it as "missing_symbol".
   */
  lemma AlchemyHoldingsSuppressed(apiKey: Option<string>, chain: string, response: Option<seq<TokenBalance>>,
                                  order: seq<string>, h: Holding)
    requires ScamFilter.IsIterationOrder(order)
    requires AlchemyHoldings(apiKey, chain, response).Some? && h in AlchemyHoldings(apiKey, chain, response).value
    ensures h.isErc20 && h.chain == chain && h.symbol.None? && h.source == Some("alchemy")
    ensures h.amount != 0.0 && h.amount == h.amount.Floor as real
    ensures ScamFilter.IsScamToken(h, order) == ScamFilter.Verdict(true, "missing_symbol")
  {
    var items := response.value;
    CollectedFrom(items, BalanceStep(chain), h);
    var i :| 0 <= i < |items| && BalanceStep(chain)(items[i]) == Keep(h);
  }

  /**
   * The endpoint is chosen ignoring case; a chain without one gives no
   * holdings, and writing the chain in upper case keeps the same balances,
   * labelled with the chain as written.
   */
  lemma EndpointChoice(apiKey: Option<string>, chain: string, response: Option<seq<TokenBalance>>)
    ensures Lower(chain) !in Networks ==> AlchemyHoldings(apiKey, chain, response) == Some([])
    ensures AlchemyHoldings(apiKey, Upper(chain), response).Some? <==> AlchemyHoldings(apiKey, chain, response).Some?
    ensures AlchemyHoldings(apiKey, chain, response).Some? ==>
              Relabelled(AlchemyHoldings(apiKey, chain, response).value,
                         AlchemyHoldings(apiKey, Upper(chain), response).value, Upper(chain))
  {
    LowerOfUpper(chain);
    if Truthy(apiKey) && Lower(chain) in Networks && response.Some? {
      ChainOnlyRelabels(response.value, chain, Upper(chain));
    }
  }

  /** `r2` is `r1` with every holding's chain set to `c`. */
  predicate Relabelled(r1: seq<Holding>, r2: seq<Holding>, c: string) {
    |r1| == |r2| && forall i :: 0 <= i < |r1| ==> r2[i] == r1[i].(chain := c)
  }

  /** The chain name changes only the holdings' chain field, never which balances are kept. */
  lemma {:induction false} ChainOnlyRelabels(items: seq<TokenBalance>, c1: string, c2: string)
    ensures Collected(items, BalanceStep(c1)).Some? <==> Collected(items, BalanceStep(c2)).Some?
    ensures Collected(items, BalanceStep(c1)).Some? ==>
              Relabelled(Collected(items, BalanceStep(c1)).value, Collected(items, BalanceStep(c2)).value, c2)
  {
    if |items| > 0 {
      var init := items[..|items| - 1];
      ChainOnlyRelabels(init, c1, c2);
      var x := items[|items| - 1];
      var s1, s2 := BalanceStep(c1)(x), BalanceStep(c2)(x);
      assert s1.Keep? ==> s2 == Keep(s1.holding.(chain := c2));
    }
  }
}
