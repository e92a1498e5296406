/**
 * CoinGecko pricing: native coin prices per chain in one request, token
 * prices per contract in batches of 50. The HTTP responses are inputs: a
 * response is None when the request or its decoding failed.
 */
module Pricing {
  import opened Wrappers
  import opened Text

  /** The CoinGecko platform id of each supported chain. */
  const ChainToPlatform: map<string, string> := map[
    "ethereum" := "ethereum",
    "arbitrum" := "arbitrum-one",
    "optimism" := "optimistic-ethereum",
    "polygon" := "polygon-pos",
    "base" := "base"]

  /** The chains of `ChainToPlatform` in the dictionary's order. */
  const ChainOrder: seq<string> := ["ethereum", "arbitrum", "optimism", "polygon", "base"]

  /** The number of contracts priced per token request. */
  const BatchSize: nat := 50

  /**
   * A decoded price response: for each id or address in the response, its
   * "usd" entry (None when that entry is missing or null).
   */
  type UsdTable = map<string, Option<real>>

  lemma ChainOrderCoversTable()
    ensures forall c :: c in ChainOrder <==> c in ChainToPlatform
  {
  }

  // ---------------------------------------------------------------------------
  // get_native_prices
  // ---------------------------------------------------------------------------

  /** `[CHAIN_TO_PLATFORM[c] for c in chains if c in CHAIN_TO_PLATFORM]`. */
  function Platforms(chains: seq<string>): (r: seq<string>)
    ensures |r| == 0 <==> forall i :: 0 <= i < |chains| ==> chains[i] !in ChainToPlatform
  {
    if |chains| == 0 then []
    else
      var rest := Platforms(chains[..|chains| - 1]);
      var c := chains[|chains| - 1];
      if c in ChainToPlatform then rest + [ChainToPlatform[c]] else rest
  }

  /**
   * The native prices: nothing when no requested chain has a platform or the
   * request failed; otherwise every supported chain whose platform id is in
   * the response, requested or not, with that platform's "usd" entry.
   */
  function NativePrices(chains: seq<string>, response: Option<UsdTable>): (prices: UsdTable)
    ensures |Platforms(chains)| == 0 || response.None? ==> prices == map[]
    ensures |Platforms(chains)| > 0 && response.Some? ==>
              forall c :: c in prices <==> c in ChainToPlatform && ChainToPlatform[c] in response.value
    ensures forall c :: c in prices ==>
              (response.Some? && c in ChainToPlatform &&
               ChainToPlatform[c] in response.value && prices[c] == response.value[ChainToPlatform[c]])
  {
    if |Platforms(chains)| == 0 || response.None? then map[]
    else
      map c | c in ChainToPlatform && ChainToPlatform[c] in response.value :: response.value[ChainToPlatform[c]]
  }

  /**
   * `get_native_prices`: collects the platforms, and unless there are none
   * or the request failed, fills the result chain by chain.
   */
  method GetNativePrices(chains: seq<string>, response: Option<UsdTable>) returns (prices: UsdTable)
    ensures prices == NativePrices(chains, response)
  {
    var platforms: seq<string> := [];
    for i := 0 to |chains|
      invariant platforms == Platforms(chains[..i])
    {
      assert chains[..i + 1][..i] == chains[..i];
      if chains[i] in ChainToPlatform {
        platforms := platforms + [ChainToPlatform[chains[i]]];
      }
    }
    assert chains[..|chains|] == chains;
    if |platforms| == 0 {
      return map[];
    }
    if response.None? {
      return map[];
    }
    prices := PricesByChain(response.value);
  }

  /** The loop over `CHAIN_TO_PLATFORM.items()`: each chain whose platform id the response holds. */
  method PricesByChain(data: UsdTable) returns (prices: UsdTable)
    ensures prices == map c | c in ChainToPlatform && ChainToPlatform[c] in data :: data[ChainToPlatform[c]]
  {
    ChainOrderCoversTable();
    prices := map[];
    for j := 0 to |ChainOrder|
      invariant forall c :: c in prices <==> c in ChainOrder[..j] && ChainToPlatform[c] in data
      invariant forall c :: c in prices ==> prices[c] == data[ChainToPlatform[c]]
    {
      var chain := ChainOrder[j];
      assert ChainOrder[..j + 1] == ChainOrder[..j] + [chain];
      var platform := ChainToPlatform[chain];
      if platform in data {
        prices := prices[chain := data[platform]];
      }
    }
    assert ChainOrder[..|ChainOrder|] == ChainOrder;
  }

  /** A chain that was not asked for is still priced when its platform is in the response. */
  lemma UnrequestedChainPriced(response: UsdTable)
    requires "ethereum" in response && "base" in response
    ensures "base" in NativePrices(["ethereum"], Some(response))
  {
    var chains := ["ethereum"];
    assert chains[0] in ChainToPlatform;
    assert |Platforms(chains)| > 0;
    assert ChainToPlatform["base"] in response;
  }

  // ---------------------------------------------------------------------------
  // get_erc20_prices
  // ---------------------------------------------------------------------------

  /** The contract lists of the token requests: consecutive slices of at most 50. */
  function Batches(contracts: seq<string>): seq<seq<string>>
    decreases |contracts|
  {
    if |contracts| == 0 then []
    else if |contracts| <= BatchSize then [contracts]
    else [contracts[..BatchSize]] + Batches(contracts[BatchSize..])
  }

  function Flatten(bs: seq<seq<string>>): seq<string> {
    if |bs| == 0 then [] else bs[0] + Flatten(bs[1..])
  }

  /** The batches cover the contract list in order, without overlap, each of 1 to 50 contracts. */
  lemma {:induction false} BatchesPartition(contracts: seq<string>)
    ensures Flatten(Batches(contracts)) == contracts
    ensures forall i :: 0 <= i < |Batches(contracts)| ==> 0 < |Batches(contracts)[i]| <= BatchSize
    ensures |Batches(contracts)| == (|contracts| + BatchSize - 1) / BatchSize
    decreases |contracts|
  {
    if |contracts| > BatchSize {
      var rest := contracts[BatchSize..];
      BatchesPartition(rest);
      assert Batches(contracts)[1..] == Batches(rest);
      assert contracts == contracts[..BatchSize] + rest;
    } else if |contracts| > 0 {
      assert Batches(contracts)[1..] == [];
    }
  }

  /** `for addr, info in data.items(): prices[addr.lower()] = info.get("usd")`, in response order. */
  function ApplyEntries(prices: UsdTable, entries: seq<(string, Option<real>)>): UsdTable {
    if |entries| == 0 then prices
    else
      var last := entries[|entries| - 1];
      ApplyEntries(prices, entries[..|entries| - 1])[Lower(last.0) := last.1]
  }

  /** A key is set by the entries exactly when it was set before or some entry's address lower-cases to it. */
  lemma {:induction false} ApplyEntriesKeys(prices: UsdTable, entries: seq<(string, Option<real>)>, k: string)
    ensures k in ApplyEntries(prices, entries) <==>
            k in prices || exists i :: 0 <= i < |entries| && Lower(entries[i].0) == k
  {
    if |entries| > 0 {
      var init := entries[..|entries| - 1];
      ApplyEntriesKeys(prices, init, k);
      if exists i :: 0 <= i < |init| && Lower(init[i].0) == k {
        var i :| 0 <= i < |init| && Lower(init[i].0) == k;
        assert entries[i] == init[i];
      }
      if exists i :: 0 <= i < |entries| && Lower(entries[i].0) == k {
        var i :| 0 <= i < |entries| && Lower(entries[i].0) == k;
        if i < |init| {
          assert init[i] == entries[i];
        }
      }
    }
  }

  lemma {:induction false} ApplyEntriesAppend(prices: UsdTable, a: seq<(string, Option<real>)>, b: seq<(string, Option<real>)>)
    ensures ApplyEntries(prices, a + b) == ApplyEntries(ApplyEntries(prices, a), b)
  {
    if |b| > 0 {
      assert (a + b)[..|a + b| - 1] == a + b[..|b| - 1];
      ApplyEntriesAppend(prices, a, b[..|b| - 1]);
    } else {
      assert a + b == a;
    }
  }

  /** The last entry whose address lower-cases to a key decides that key's price. */
  lemma {:induction false} LaterEntryWins(prices: UsdTable, entries: seq<(string, Option<real>)>, addr: string, usd: Option<real>)
    requires forall i :: 0 <= i < |entries| ==> Lower(entries[i].0) != Lower(addr)
    ensures Lower(addr) in ApplyEntries(prices, [(addr, usd)] + entries)
    ensures ApplyEntries(prices, [(addr, usd)] + entries)[Lower(addr)] == usd
  {
    ApplyEntriesAppend(prices, [(addr, usd)], entries);
    var start := ApplyEntries(prices, [(addr, usd)]);
    assert [(addr, usd)][..0] == [];
    assert start[Lower(addr)] == usd;
    UnsetKeyKept(start, entries, Lower(addr));
  }

  lemma {:induction false} UnsetKeyKept(prices: UsdTable, entries: seq<(string, Option<real>)>, k: string)
    requires k in prices
    requires forall i :: 0 <= i < |entries| ==> Lower(entries[i].0) != k
    ensures k in ApplyEntries(prices, entries) && ApplyEntries(prices, entries)[k] == prices[k]
  {
    if |entries| > 0 {
      UnsetKeyKept(prices, entries[..|entries| - 1], k);
    }
  }

  /**
   * A value of the token price response: a dictionary with an optional "usd"
   * entry, or anything else, on which `info.get("usd")` raises.
   */
  datatype PriceInfo = Info(usd: Option<real>) | NotADict

  /** The token request for a platform and a batch: the response's items in order, or None when it raised. */
  type TokenFetch = (string, seq<string>) -> Option<seq<(string, PriceInfo)>>

  /** The index of the first entry whose value is not a dictionary, or the length when there is none. */
  function FirstNonDict(entries: seq<(string, PriceInfo)>): (n: nat)
    ensures n <= |entries|
    ensures forall i :: 0 <= i < n ==> entries[i].1.Info?
    ensures n < |entries| ==> entries[n].1.NotADict?
  {
    if |entries| == 0 || entries[0].1.NotADict? then 0
    else
      var n := 1 + FirstNonDict(entries[1..]);
      assert forall i :: 1 <= i < n ==> entries[i] == entries[1..][i - 1];
      n
  }

  /**
   * The entries the loop applies before it raises: those before the first
   * value that is not a dictionary, each with its "usd" entry.
   */
  function Applied(entries: seq<(string, PriceInfo)>): (r: seq<(string, Option<real>)>)
    ensures |r| == FirstNonDict(entries)
    ensures forall i :: 0 <= i < |r| ==> r[i] == (entries[i].0, entries[i].1.usd)
  {
    var n := FirstNonDict(entries);
    seq(n, i requires 0 <= i < n => (entries[i].0, entries[i].1.usd))
  }

  /**
   * One batch: a failed request adds nothing; otherwise the entries are
   * applied in order until one whose value is not a dictionary raises, and
   * the prices set before it stay.
   */
  function ApplyBatch(prices: UsdTable, platform: string, batch: seq<string>,
                      fetch: TokenFetch): UsdTable {
    match fetch(platform, batch)
    case None => prices
    case Some(entries) => ApplyEntries(prices, Applied(entries))
  }

  function FoldBatches(prices: UsdTable, platform: string, batches: seq<seq<string>>,
                       fetch: TokenFetch): UsdTable
    decreases |batches|
  {
    if |batches| == 0 then prices
    else FoldBatches(ApplyBatch(prices, platform, batches[0], fetch), platform, batches[1..], fetch)
  }

  /** The token prices: nothing for no contracts or an unsupported chain, else every batch in turn. */
  function Erc20Prices(chain: string, contracts: seq<string>,
                       fetch: TokenFetch): UsdTable {
    if |contracts| == 0 || chain !in ChainToPlatform then map[]
    else FoldBatches(map[], ChainToPlatform[chain], Batches(contracts), fetch)
  }

  /**
   * `get_erc20_prices`: requests the contracts 50 at a time; a failed
   * request is skipped, an entry that is not a dictionary ends its batch
   * keeping the prices set before it, and the later batches still run.
   */
  method GetErc20Prices(chain: string, contracts: seq<string>,
                        fetch: TokenFetch)
    returns (prices: UsdTable)
    ensures prices == Erc20Prices(chain, contracts, fetch)
  {
    if |contracts| == 0 {
      return map[];
    }
    if chain !in ChainToPlatform {
      return map[];
    }
    var platform := ChainToPlatform[chain];
    prices := map[];
    var i := 0;
    while i < |contracts|
      invariant 0 <= i <= |contracts|
      invariant FoldBatches(prices, platform, Batches(contracts[i..]), fetch) == Erc20Prices(chain, contracts, fetch)
      decreases |contracts| - i
    {
      var end := if i + BatchSize < |contracts| then i + BatchSize else |contracts|;
      var batch := contracts[i..end];
      assert Batches(contracts[i..]) == [batch] + Batches(contracts[end..]) by {
        if |contracts[i..]| > BatchSize {
          assert contracts[i..][..BatchSize] == batch;
          assert contracts[i..][BatchSize..] == contracts[end..];
        } else {
          assert contracts[end..] == [];
          assert contracts[i..] == batch;
        }
      }
      var response := fetch(platform, batch);
      if response.Some? {
        var entries := response.value;
        ghost var applied := Applied(entries);
        var before := prices;
        var j := 0;
        while j < |entries| && entries[j].1.Info?
          invariant j <= FirstNonDict(entries)
          invariant prices == ApplyEntries(before, applied[..j])
        {
          assert applied[..j + 1][..j] == applied[..j];
          prices := prices[Lower(entries[j].0) := entries[j].1.usd];
          j := j + 1;
        }
        assert applied[..j] == applied;
      }
      i := end;
    }
    assert contracts[|contracts|..] == [];
  }

  /** A failed batch leaves the prices as they were and the remaining batches unaffected. */
  lemma FailedBatchSkipped(prices: UsdTable, platform: string, batch: seq<string>, rest: seq<seq<string>>,
                           fetch: TokenFetch)
    requires fetch(platform, batch).None?
    ensures FoldBatches(prices, platform, [batch] + rest, fetch) == FoldBatches(prices, platform, rest, fetch)
  {
    assert ([batch] + rest)[1..] == rest;
  }

  /**
   * An entry whose value is not a dictionary raises inside the batch's error
   * handling: the prices of the entries before it are kept, none after it is
   * applied, and the later batches still run.
   */
  lemma PartialBatchKept(prices: UsdTable, platform: string, batch: seq<string>, rest: seq<seq<string>>,
                         fetch: TokenFetch, i: int)
    requires fetch(platform, batch).Some?
    requires var entries := fetch(platform, batch).value;
             0 <= i < |entries| && entries[i].1.NotADict? &&
             forall k :: 0 <= k < i ==> entries[k].1.Info?
    ensures var entries := fetch(platform, batch).value;
            FoldBatches(prices, platform, [batch] + rest, fetch) ==
            FoldBatches(ApplyEntries(prices, Applied(entries[..i])), platform, rest, fetch)
    ensures |Applied(fetch(platform, batch).value[..i])| == i
  {
    var entries := fetch(platform, batch).value;
    assert Applied(entries) == Applied(entries[..i]);
    assert ([batch] + rest)[1..] == rest;
  }

  /** Later batches never remove a price an earlier batch found. */
  lemma {:induction false} FoldKeepsKeys(prices: UsdTable, platform: string, batches: seq<seq<string>>,
                                         fetch: TokenFetch, k: string)
    requires k in prices
    ensures k in FoldBatches(prices, platform, batches, fetch)
    decreases |batches|
  {
    if |batches| > 0 {
      var next := ApplyBatch(prices, platform, batches[0], fetch);
      if fetch(platform, batches[0]).Some? {
        ApplyEntriesKeys(prices, Applied(fetch(platform, batches[0]).value), k);
      }
      FoldKeepsKeys(next, platform, batches[1..], fetch, k);
    }
  }

  lemma {:induction false} ApplyEntriesLowercase(prices: UsdTable, entries: seq<(string, Option<real>)>)
    requires forall k :: k in prices ==> Lower(k) == k
    ensures forall k :: k in ApplyEntries(prices, entries) ==> Lower(k) == k
  {
    if |entries| > 0 {
      ApplyEntriesLowercase(prices, entries[..|entries| - 1]);
      LowerIdempotent(entries[|entries| - 1].0);
    }
  }

  lemma {:induction false} FoldLowercase(prices: UsdTable, platform: string, batches: seq<seq<string>>,
                                         fetch: TokenFetch)
    requires forall k :: k in prices ==> Lower(k) == k
    ensures forall k :: k in FoldBatches(prices, platform, batches, fetch) ==> Lower(k) == k
    decreases |batches|
  {
    if |batches| > 0 {
      if fetch(platform, batches[0]).Some? {
        ApplyEntriesLowercase(prices, Applied(fetch(platform, batches[0]).value));
      }
      FoldLowercase(ApplyBatch(prices, platform, batches[0], fetch), platform, batches[1..], fetch);
    }
  }

  /** Every returned token key is a lower-cased address. */
  lemma Erc20KeysLowercase(chain: string, contracts: seq<string>,
                           fetch: TokenFetch)
    ensures forall k :: k in Erc20Prices(chain, contracts, fetch) ==> Lower(k) == k
  {
    if |contracts| > 0 && chain in ChainToPlatform {
      FoldLowercase(map[], ChainToPlatform[chain], Batches(contracts), fetch);
    }
  }

  /** Nothing is requested or returned for no contracts or an unsupported chain. */
  lemma Erc20NothingToPrice(chain: string, contracts: seq<string>,
                            fetch: TokenFetch)
    requires |contracts| == 0 || chain !in ChainToPlatform
    ensures Erc20Prices(chain, contracts, fetch) == map[]
  {
  }
}
