# Crypto portfolio tracker: a verified model of the pipeline core

This project models the core of a multi-chain crypto portfolio tracker in
Dafny. For one EVM wallet the tracker gathers token and coin holdings from
several chains and providers (Covalent, Alchemy, a token-metadata cache,
RouteScan and RPC log discovery). It then drops scam tokens, prices each
holding (stablecoin quotes are clamped to a peg band), values the positions,
merges identical positions and totals them. Next to that pipeline the model
covers the analytics (summary totals, allocation by asset and by chain,
asset-class exposure, an ROI timeline and provenance), the SQLite holdings
cache and the chain registry.

One Dafny module stands for each source file:

- **Pure code becomes functions and lemmas:** the scam filter, the
  stablecoin predicate, the calculator, the merge keys, the price wrappers,
  the summary, provenance, the registry lookup and the discovery fallback.
- **Code that works by loops becomes methods:** the pipeline, the
  deduplicator with its in-place stable sort on an `array`, the pricing
  loops, the performance timeline, allocation, exposure, the assembler and
  the provider parsers. Each loop is proved equal to a specification
  function, and the promised properties are proved about those functions.
- **The holdings cache becomes a class:** `HoldingsCache.Cache` holds the
  table as a `map` field.

Shared modules:

- `Wrappers` holds `Option` and `Result`.
- `Text` holds ASCII case mapping, substrings, `isalnum`, `strip`, string
  order and `int()` parsing.
- `Numbers` holds rounding to cents, powers of ten, sums, grouped sums and
  percentage shares.
- `Holdings` holds the holding record, the dictionary-shaped record, and the
  two ways results are collected: concatenating chain results while skipping
  failures, and an item loop that may skip, raise or keep.

Everything outside the program's own logic is an input. That covers HTTP
responses, RPC answers, the clock, the database and address validation.
`None` stands for a call that raised.

## Model

| member | source | states |
|---|---|---|
| ScamFilter.FirstKeyword | portfolio/filters/scam.py:28-30 | the keyword reported is the first, in set iteration order, that occurs in the lower-cased symbol; None exactly when no keyword occurs |
| ScamFilter.IsScamToken | portfolio/filters/scam.py:17-39 | checks in the order missing symbol, known look-alike, keyword, non-alphanumeric; a symbol passing all of them gives (False, ""); suppressed iff the reason is non-empty |
| ScamFilter.OrderMattersOnlyForSeveralKeywords | portfolio/filters/scam.py:4-14 | when at most one keyword occurs, the verdict is the same for every iteration order of the keyword set |
| ScamFilter.NativeGetsNoSpecialTreatment | portfolio/filters/scam.py:35-39 | flipping `is_erc20` never changes the verdict |
| ScamFilter.ClaimAirdropKeywords | portfolio/filters/scam.py:4-14 | "claim" and "airdrop" are the only keywords that occur in "claimairdrop" |
| ScamFilter.ClaimAirdropIsSuppressed | portfolio/filters/scam.py:28-30 | "ClaimAirdrop" is suppressed as keyword:claim or keyword:airdrop, depending on the iteration order |
| ScamFilter.VisitDotComKeywords | portfolio/filters/scam.py:4-14 | "visit" and ".com" are the only keywords that occur in "visit.com" |
| ScamFilter.VisitDotComIsKeyword | portfolio/filters/scam.py:19-33 | "visit.com" is reported for a keyword, never as non_alphanumeric, because the keyword check comes first |
| ScamFilter.EthPasses | portfolio/filters/scam.py:17-39 | "ETH" passes every check, as a token and as a native coin |
| Stablecoins.StablecoinIgnoresCase | portfolio/filters/stablecoins.py:14-15 | a symbol and its upper- and lower-cased forms are classified alike |
| Stablecoins.StablecoinLength | portfolio/filters/stablecoins.py:1-11 | every recognised symbol has the length of one of the nine tickers (3 or 4) |
| Stablecoins.PaddedTickerIsNot | portfolio/filters/stablecoins.py:15 | no trimming: a ticker with a leading or trailing space is not a stablecoin |
| Stablecoins.StablecoinExamples | portfolio/filters/stablecoins.py:1-15 | "usdc", "Dai" and "usd1" are stablecoins; "WETH" and " USDC" are not |
| Stablecoins.IsStablecoin | portfolio/filters/stablecoins.py:14-15 | true iff the upper-cased symbol is one of the nine tickers; nothing is trimmed, so every stablecoin symbol is alphanumeric |
| Calculator.Value | portfolio/calculator.py:11-25 | invested = amount × cost basis; pnl = value − invested; without a positive price the value is 0 and pnl_pct is 0 or −100; with one, value = amount × price and pnl_pct × invested = pnl × 100 when invested > 0, else 0 |
| Calculator.CalculatePosition | portfolio/calculator.py:6-36 | None exactly when amount ≤ 0; otherwise symbol, chain and amount copied, and the four money figures are the exact ones rounded to cents |
| Calculator.GainIffPositivePercentage | portfolio/calculator.py:21-24 | with a price and a positive investment, pnl_pct is positive exactly on a gain and zero exactly at break-even |
| Calculator.UnpricedLosesInvestment | portfolio/calculator.py:13-20 | without a usable price the pnl is minus the investment, whatever its sign |
| Calculator.GainScenario | tests/test_calculator.py:6-14 | 1 unit bought at 20000, priced 30000: invested 20000, value 30000, pnl 10000, +50 % |
| Calculator.LossScenario | tests/test_calculator.py:17-25 | 2 units bought at 2500, priced 2000: invested 5000, value 4000, pnl −1000, −20 % |
| Calculator.UnpricedScenario | portfolio/calculator.py:13-20 | 2 units bought at 2500 with no price: value 0, pnl −5000, −100 %, price unavailable |
| MergeKeys.CanonicalSymbol | portfolio/merge/keys.py:1-9 | a missing or empty symbol gives "UNKNOWN"; the result is always stripped and upper case |
| MergeKeys.CanonicalSymbolIdempotent | portfolio/merge/keys.py:7-9 | canonicalising twice equals canonicalising once unless the symbol is all white space |
| MergeKeys.BlankSymbol | portfolio/merge/keys.py:7-9 | an all-white-space symbol canonicalises to "", which a second pass turns into "UNKNOWN" |
| MergeKeys.KeyOf | portfolio/merge/keys.py:12-29 | the key's symbol is canonical, its chain is copied (default "unknown"), its contract is "native" for a non-token and the lower-cased contract (default "unknown") for a token |
| MergeKeys.ChainsNeverMerge | portfolio/merge/keys.py:21-29 | positions on different chains never share a key |
| MergeKeys.SymbolsNeverMerge | portfolio/merge/keys.py:20-29 | positions whose canonical symbols differ never share a key |
| MergeKeys.CaseAndSpaceDoNotSeparate | portfolio/merge/keys.py:9 | symbols that differ only in case and surrounding space get the same key symbol |
| MergeKeys.WethIsNotEth | portfolio/merge/keys.py:1-9 | WETH and ETH never share a key |
| Deduplicate.Present | portfolio/merge/deduplicate.py:19-21 | the kept positions are exactly the truthy entries; falsy ones are skipped |
| Deduplicate.KeyOf | portfolio/merge/deduplicate.py:23-26 | the key keeps the symbol and chain; it is native iff `is_erc20` is present and false, so a missing `is_erc20` counts as a token |
| Deduplicate.RowsFor | portfolio/merge/deduplicate.py:38-47 | one output entry per bucket key, in key order, each the bucket's totals |
| Deduplicate.DeduplicatePositions | portfolio/merge/deduplicate.py:4-50 | the result is the merged entries, one per key, sorted by value (largest first, stable) |
| Deduplicate.FillBuckets | portfolio/merge/deduplicate.py:9-35 | the dictionary holds exactly the keys seen, in first-seen order, each bucket with the exact totals of its positions |
| Deduplicate.AddPosition | portfolio/merge/deduplicate.py:23-35 | one loop step adds the position to its own bucket and leaves every other bucket alone |
| Deduplicate.BucketOfSnoc | portfolio/merge/deduplicate.py:28-35 | a position changes only the bucket of its key, by its amount, value and investment (0 when missing) |
| Deduplicate.BucketOfUnseen | portfolio/merge/deduplicate.py:9-17 | a key not yet seen has the default empty bucket |
| Deduplicate.SortByValueDesc | portfolio/merge/deduplicate.py:49 | the in-place sort leaves the array equal to the stable descending sort of its old contents |
| Deduplicate.InsertNext | portfolio/merge/deduplicate.py:49 | one insertion step inserts the next entry into the sorted prefix and leaves the rest alone |
| Deduplicate.InsertDescAt | portfolio/merge/deduplicate.py:49 | an entry is inserted right after the last entry whose value is at least its own |
| Deduplicate.InsertedAt | portfolio/merge/deduplicate.py:49 | an array that agrees pointwise with the sorted prefix with the entry at position j is that insertion |
| Deduplicate.InsertDescPermutation | portfolio/merge/deduplicate.py:49 | insertion adds exactly the entry to the multiset of entries |
| Deduplicate.SortDescPermutation | portfolio/merge/deduplicate.py:49 | sorting is a permutation of its input |
| Deduplicate.InsertDescSorted | portfolio/merge/deduplicate.py:49 | insertion keeps a descending list descending |
| Deduplicate.SortDescSorted | portfolio/merge/deduplicate.py:49 | the output is non-increasing by current value |
| Deduplicate.WithValueAppend | portfolio/merge/deduplicate.py:49 | the entries of one value in a concatenation are those of each part, in order |
| Deduplicate.InsertDescStable | portfolio/merge/deduplicate.py:49 | insertion places an entry after every earlier entry of equal value |
| Deduplicate.SortDescStable | portfolio/merge/deduplicate.py:49 | the sort is stable: entries of equal value keep their input order |
| Deduplicate.RowsForAmounts | portfolio/merge/deduplicate.py:33-47 | the output amounts add up to the grouped totals of the input amounts |
| Deduplicate.AmountConserved | portfolio/merge/deduplicate.py:33-45 | the output amounts sum to the input amounts exactly; before rounding, the grouped values and investments sum to the input totals |
| Deduplicate.OneRowPerKey | portfolio/merge/deduplicate.py:28-47 | exactly one entry per distinct key, every position's key among them; each entry's symbol and chain are those of a position with its key, so nothing merges across chains |
| Deduplicate.PermutationInvariant | portfolio/merge/deduplicate.py:19-35 | reordering the input changes neither the set of buckets nor their unrounded totals |
| Deduplicate.PresentAppend | portfolio/merge/deduplicate.py:19-21 | skipping falsy entries distributes over concatenation |
| Deduplicate.FalsyEntrySkipped | portfolio/merge/deduplicate.py:20-21 | inserting a falsy entry anywhere changes nothing |
| MultiChain.Kept | portfolio/multi_chain.py:38-48 | the kept holdings are exactly the input holdings the scam filter does not suppress |
| MultiChain.NativeSymbolList | portfolio/multi_chain.py:55 | the list handed to native pricing holds exactly the members of `native_symbols` |
| MultiChain.ClampStable | portfolio/multi_chain.py:72 | the clamp lies in [0.996, 1.003], is the identity inside that band and gives the nearer bound outside it |
| MultiChain.SelectPrice | portfolio/multi_chain.py:60-92 | a stablecoin is priced exactly 1.0 without a quote and at its quote clamped to [0.996, 1.003] otherwise, and fails exactly when its quote's "usd" is None; any other holding is priced at its quote, or 0.0 without one |
| MultiChain.FetchMultiChainPortfolio | portfolio/multi_chain.py:15-108 | the pipeline result is the specification: the address is checked, chain results are gathered while failures are skipped, then filtering, pricing, valuing, merging and totals follow |
| MultiChain.ValuePositions | portfolio/multi_chain.py:58-96 | the pricing loop gives the positions of the kept holdings in order, or the first error |
| MultiChain.FilterAndPartition | portfolio/multi_chain.py:34-53 | the filter loop keeps the unsuppressed holdings and puts each contract into the token set or each symbol into the native set |
| MultiChain.ListOf | portfolio/multi_chain.py:55-56 | `list(set)` holds exactly the set's members, each once |
| MultiChain.PartitionSnoc | portfolio/multi_chain.py:50-53 | a kept holding adds its contract to `erc20_contracts` iff it is a token with a truthy contract, and otherwise adds its symbol to `native_symbols` |
| MultiChain.ErrorPersists | portfolio/multi_chain.py:70-72 | once a holding's price raises, the whole pipeline raises |
| MultiChain.ErrorIsTheOnlyOne | portfolio/multi_chain.py:70-72 | the only error after the address check is a stablecoin quote whose price is None |
| MultiChain.NativeChainsMembership | portfolio/prices.py:43 | whether any platform is requested depends only on which symbols are asked for |
| MultiChain.NativePricesByMembership | portfolio/multi_chain.py:55 | the native prices depend only on the set of native symbols, not on the list order `list()` chooses |
| MultiChain.PositionsFromKept | portfolio/multi_chain.py:38-96 | every position comes from a kept holding, so a suppressed token is never valued |
| MultiChain.PipelineKeysAreErc20 | portfolio/merge/deduplicate.py:23-26 | pipeline positions carry no `is_erc20`, so the deduplicator files every one under the token marker |
| MultiChain.InvalidAddressFails | portfolio/multi_chain.py:16 | an invalid address fails before any chain result is used |
| Pricing.ChainOrderCoversTable | portfolio/pricing.py:9-15 | the dictionary order of `CHAIN_TO_PLATFORM` lists exactly its keys |
| Pricing.Platforms | portfolio/pricing.py:30 | the platform list is empty iff no requested chain is in `CHAIN_TO_PLATFORM` |
| Pricing.NativePrices | portfolio/pricing.py:26-55 | {} without a supported chain or when the request fails; otherwise a chain is present iff its platform is in the response, even if it was not requested |
| Pricing.GetNativePrices | portfolio/pricing.py:26-55 | `get_native_prices` computes the specification |
| Pricing.PricesByChain | portfolio/pricing.py:50-53 | the loop maps each chain whose platform the response holds to that platform's usd value |
| Pricing.UnrequestedChainPriced | portfolio/pricing.py:50-53 | "base" is priced when only "ethereum" was requested, since both share a platform id |
| Pricing.BatchesPartition | portfolio/pricing.py:71-72 | the batches cover the contracts in order without overlap, each of 1 to 50, ⌈n/50⌉ of them |
| Pricing.ApplyEntriesKeys | portfolio/pricing.py:84-85 | a key is set iff it was set before or some response address lower-cases to it |
| Pricing.ApplyEntriesAppend | portfolio/pricing.py:84-85 | applying two runs of entries is applying one after the other |
| Pricing.LaterEntryWins | portfolio/pricing.py:84-85 | the last entry whose address lower-cases to a key decides its price |
| Pricing.UnsetKeyKept | portfolio/pricing.py:84-85 | a price no entry touches is kept |
| Pricing.GetErc20Prices | portfolio/pricing.py:58-89 | `get_erc20_prices` computes the specification: every batch in turn; a failed request adds nothing, and an entry that is not a dictionary ends its batch |
| Pricing.FailedBatchSkipped | portfolio/pricing.py:86-87 | a batch whose request raises adds nothing and the later batches still run |
| Pricing.PartialBatchKept | portfolio/pricing.py:73-87 | an entry whose value is not a dictionary raises inside the batch's error handling: the prices of the entries before it stay, none after it is applied, and later batches still run |
| Pricing.FirstNonDict | portfolio/pricing.py:84-85 | the index where the entry loop raises: every earlier value is a dictionary and the value there is not |
| Pricing.FoldKeepsKeys | portfolio/pricing.py:71-87 | later batches never remove a price an earlier batch found |
| Pricing.ApplyEntriesLowercase | portfolio/pricing.py:85 | entries only add lower-case keys |
| Pricing.FoldLowercase | portfolio/pricing.py:71-87 | all batches together only add lower-case keys |
| Pricing.Erc20KeysLowercase | portfolio/pricing.py:85 | every returned token key is a lower-cased address |
| Pricing.Erc20NothingToPrice | portfolio/pricing.py:62-67 | an empty contract list or an unsupported chain gives {} |
| Prices.NativeChains | portfolio/prices.py:43 | the chains requested are exactly those of the requested symbols the mapping knows |
| Prices.FetchNativePrices | portfolio/prices.py:24-51 | an entry exists exactly for the requested symbols among ETH, POL, BNB and AVAX (its value is stated by Prices.NativePriceOfSymbol) |
| Prices.LowerCaseSymbolIgnored | portfolio/prices.py:43-51 | symbols are matched case-sensitively: "eth" gets no entry |
| Prices.BnbAndAvaxNeverPriced | portfolio/prices.py:36-51 | BNB and AVAX always get a None price, since their chains have no platform |
| Prices.NativePriceOfSymbol | portfolio/prices.py:43-51 | each requested known symbol holds the "usd" price of its chain's platform when the chain has one and the response carries it, and None otherwise, including a failed request |
| Prices.FetchErc20Prices | portfolio/prices.py:54-61 | same keys as `get_erc20_prices`, each price wrapped as {"usd": p} |
| Performance.InitialValue | portfolio/analytics/performance.py:71 | the initial value is never 0; it is the first snapshot's value when that is present and nonzero, 1.0 otherwise |
| Performance.ComputePerformanceMetrics | portfolio/analytics/performance.py:62-95 | the loop builds the specification's metrics: none for an empty history, else one timeline point per snapshot |
| Performance.TimelineMatchesHistory | portfolio/analytics/performance.py:76-88 | one point per snapshot in order, copying time, value and pnl (0 when missing); each value equals initial × (1 + roi) |
| Performance.FirstRoiZero | portfolio/analytics/performance.py:79 | the first roi is 0 whenever the first value is present and nonzero |
| Performance.LatestFromLastSnapshot | portfolio/analytics/performance.py:72-93 | latest value and total pnl come from the last snapshot, 0 when missing |
| Performance.ZeroStartBecomesOne | portfolio/analytics/performance.py:71 | a missing or zero first value makes the initial value 1.0 |
| Summary.BuildPortfolioSummary | portfolio/analytics/summary.py:12-19 | each total is within half a cent of the exact sum (missing fields count 0) and lies on a whole cent |
| Summary.EmptySummary | portfolio/analytics/summary.py:4-19 | no positions give totals 0 and 0 |
| Summary.MissingFieldsCountZero | portfolio/analytics/summary.py:4-9 | a position without value or pnl adds nothing |
| Summary.SummaryOrderIndependent | portfolio/analytics/summary.py:4-9 | the summary does not depend on the order of the positions |
| Summary.TotalsAdd | portfolio/analytics/summary.py:4-9 | the totals of a concatenation are the sums of the totals |
| Summary.CalculateTotalValue | portfolio/analytics/summary.py:4-5 | 0 for no positions; non-negative when every value is (a missing value counts 0) |
| Summary.CalculateTotalPnl | portfolio/analytics/summary.py:8-9 | 0 for no positions; non-negative when every pnl is, non-positive when every pnl is (a missing pnl counts 0) |
| Numbers.SumSign | portfolio/analytics/summary.py:4-9 | a sum of non-negative terms is non-negative, a sum of non-positive terms non-positive |
| Allocation.CalculateTotalValue | portfolio/analytics/allocation.py:13-19 | the total is the sum of amount × price, a missing field counting 0 |
| Allocation.AllocateBy | portfolio/analytics/allocation.py:22-38 | the loop's group totals, turned into percentages, give the specification's allocation |
| Allocation.AllocationByAsset | portfolio/analytics/allocation.py:22-38 | the allocation grouped by symbol (default "UNKNOWN") |
| Allocation.AllocationByChain | portfolio/analytics/allocation.py:41-57 | the allocation grouped by chain (default "UNKNOWN") |
| Allocation.AllocationKeys | portfolio/analytics/allocation.py:26-38 | {} for a zero total; otherwise the keys are exactly the distinct groups, each within half a cent of its exact share |
| Allocation.AllocationSumsTo100 | portfolio/analytics/allocation.py:35-38 | with a nonzero total the unrounded shares add up to 100 |
| Allocation.UnpricedAddsNothing | portfolio/analytics/allocation.py:16-18 | a holding without a price or amount adds nothing to the total or to any group |
| Allocation.AllocationOrderIndependent | portfolio/analytics/allocation.py:22-57 | the allocation does not depend on the order of the holdings |
| Allocation.MissingSymbolIsUnknown | portfolio/analytics/allocation.py:30 | a holding without a symbol is counted under "UNKNOWN" |
| Allocation.WorthOfFields | portfolio/analytics/allocation.py:7-18 | a holding is worth amount × price, and 0 when either is missing |
| Allocation.SymbolOf | portfolio/analytics/allocation.py:30 | the holding's symbol, or "UNKNOWN" when it has none |
| Allocation.ChainOf | portfolio/analytics/allocation.py:49 | the holding's chain, or "UNKNOWN" when it has none |
| Exposure.AssetClass | portfolio/analytics/exposure.py:13-18 | each position falls in exactly one of native, stablecoin and erc20; native iff `is_erc20` is falsy |
| Exposure.AssetClassExposure | portfolio/analytics/exposure.py:5-23 | the one-pass loop computes the specification's exposure |
| Exposure.ExposureKeysAndTotal | portfolio/analytics/exposure.py:20-23 | with a nonzero total the keys are exactly the classes that occur, all among the three, and the unrounded shares add up to 100 |
| Exposure.ZeroTotalIsEmpty | portfolio/analytics/exposure.py:20-21 | a zero total gives {} |
| Exposure.NativeTakesPrecedence | portfolio/analytics/exposure.py:13-14 | a native "USDC" counts as native |
| Exposure.LowerCaseStablecoin | portfolio/analytics/exposure.py:15 | a token "usdc" counts as a stablecoin |
| Exposure.FraxCountsAsErc20 | portfolio/analytics/exposure.py:15-18 | FRAX is a stablecoin to the stablecoin filter but counts as erc20 here |
| Provenance.InferProvenance | portfolio/analytics/provenance.py:1-8 | native iff not a token; airdrop_or_transfer iff a token with cost basis 0 or missing; swap otherwise; confidence medium exactly for airdrop_or_transfer |
| Provenance.NativeIgnoresCostBasis | portfolio/analytics/provenance.py:2-3 | a native coin is (native, high) whatever its cost basis |
| Provenance.NegativeCostBasisIsSwap | portfolio/analytics/provenance.py:8 | a token with a negative cost basis is (swap, high) |
| HoldingsCache.HoldingKey | portfolio/cache/sqlite.py:65-68 | the key is the chain, ":", then the contract for a token or the symbol otherwise |
| HoldingsCache.HoldingKeyInjective | portfolio/cache/sqlite.py:65-68 | on chains without ":" two holdings share a key iff they share chain and identity |
| HoldingsCache.NativeAndTokenCanCollide | portfolio/cache/sqlite.py:65-68 | a native coin whose symbol equals a token's contract text gets that token's key |
| HoldingsCache.Cache.constructor | portfolio/cache/sqlite.py:29 | a new table is empty and every row sits under its holding's key |
| HoldingsCache.Cache.SetCachedHoldings | portfolio/cache/sqlite.py:101-124 | the table becomes the old table with each holding written in turn at `now`; rows stay under their holdings' keys |
| HoldingsCache.Cache.GetCachedHoldings | portfolio/cache/sqlite.py:71-98 | on a table whose rows are filed under their holding's key: None iff no row of the wallet and chain has updated_at ≥ now − max age; otherwise one holding per fresh row, exactly their payloads, each once |
| HoldingsCache.WrittenKeysMatch | portfolio/cache/sqlite.py:106-121 | a write keeps every row under its holding's key |
| HoldingsCache.WrittenOthersUntouched | portfolio/cache/sqlite.py:106-121 | rows of another wallet, chain or asset key are untouched |
| HoldingsCache.WrittenLastWins | portfolio/cache/sqlite.py:110-119 | a written key holds the last holding with that key, stamped `now` |
| HoldingsCache.WrittenStamped | portfolio/cache/sqlite.py:104-119 | after a write each row is either an untouched old row or a row of this wallet and chain stamped `now` |
| HoldingsCache.ReadAfterWrite | portfolio/cache/sqlite.py:77-119 | reading right after a write, with a non-negative max age, finds the last holding of every key written |
| Registry.FindChain | portfolio/chains/registry.py:42-46 | None iff no chain's symbol equals the input ignoring case; otherwise the first that does |
| Registry.GetChainBySymbol | portfolio/chains/registry.py:42-46 | the result is a registered chain matching the symbol, and None iff none matches |
| Registry.SymbolsDistinct | portfolio/chains/registry.py:14-39 | the registered symbols differ ignoring case, so at most one chain matches |
| Registry.LookupIgnoresCase | portfolio/chains/registry.py:44 | a symbol and its upper- and lower-cased forms find the same chain |
| Registry.FindChainByLower | portfolio/chains/registry.py:44 | the lookup depends on the symbol only through its lower-cased form |
| Registry.LookupExamples | portfolio/chains/registry.py:27-31 | "eth" finds Ethereum; "BNB" finds nothing, since the BSC entry's symbol is "BSC" |
| Assembler.Outcomes | portfolio/chains/assembler.py:10-18 | one outcome per registered chain, in order |
| Assembler.BuildHoldingsForWallet | portfolio/chains/assembler.py:7-20 | the result is the concatenation, in registry order, of the enabled chains' successful fetches |
| Assembler.AssembledFromEnabledChains | portfolio/chains/assembler.py:11-16 | every holding comes from an enabled chain whose fetch succeeded |
| Assembler.FailedChainIsolated | portfolio/chains/assembler.py:14-18 | a disabled or failing chain drops out while the chains before and after it still contribute, in order |
| Assembler.NothingEnabled | portfolio/chains/assembler.py:8-20 | no enabled chain gives [] |
| Assembler.NoSuccessGathersNothing | portfolio/chains/assembler.py:14-18 | when every chain fails, nothing is gathered |
| Holdings.FailedChainContributesNothing | portfolio/multi_chain.py:21-31 | a chain whose fetch raises contributes nothing and the remaining chains are gathered in order |
| Holdings.GatheredMembership | portfolio/multi_chain.py:28-29 | every gathered holding comes from some successful fetch |
| Holdings.CollectedAppend | portfolio/wallets/covalent.py:36-59 | the item loop over two runs of items concatenates their holdings |
| Holdings.CollectedFails | portfolio/wallets/covalent.py:67-69 | one raising item makes the whole loop raise, wherever it stands |
| Holdings.CollectedFrom | portfolio/wallets/covalent.py:36-59 | every collected holding is the one kept from some item |
| Holdings.CollectedStep | portfolio/wallets/covalent.py:36-59 | a skipped item leaves the collected holdings unchanged and a kept one appends its holding |
| Covalent.FetchCovalentErc20Holdings | portfolio/wallets/covalent.py:13-69 | [] without a key or when anything raises; otherwise the items' holdings in order, skipping items without contract or decimals and zero balances |
| Covalent.CovalentHoldingShape | portfolio/wallets/covalent.py:47-59 | each holding is a token on the given chain with a truthy symbol ("UNKNOWN" by default), a lower-case contract, cost basis 0 and a nonzero amount that is a nonzero raw balance scaled by some number of decimals |
| Covalent.BadBalanceDiscardsAll | portfolio/wallets/covalent.py:67-69 | one unparsable balance discards the whole result |
| Covalent.CovalentKeepsOrder | portfolio/wallets/covalent.py:36-59 | holdings follow the items' order |
| Alchemy.FetchAlchemyErc20Holdings | portfolio/wallets/alchemy.py:11-67 | [] without a key, for an unsupported chain or a failed request; a raise for an unparsable hex balance; otherwise a holding per nonzero balance |
| Alchemy.AlchemyHoldingsSuppressed | portfolio/wallets/alchemy.py:55-64 | every holding is a token on the chain as given, without a symbol, with an unscaled nonzero integer amount, and so is always suppressed as missing_symbol |
| Alchemy.EndpointChoice | portfolio/wallets/alchemy.py:20-30 | the chain is matched ignoring case and an unsupported chain gives []; the upper-cased chain keeps exactly the same balances, in order, labelled with the chain as written |
| Alchemy.ChainOnlyRelabels | portfolio/wallets/alchemy.py:50-65 | two chain names give results that fail together and otherwise agree holding by holding except for the chain field |
| EthereumErc20.FetchEthErc20Balances | portfolio/wallets/ethereum_erc20.py:13-54 | the specification's holdings; the cache saved back is the one loaded |
| EthereumErc20.BalancesToHoldings | portfolio/wallets/ethereum_erc20.py:35-51 | the balance loop computes the item-by-item collection |
| EthereumErc20.EthHoldingShape | portfolio/wallets/ethereum_erc20.py:40-50 | each holding is an Ethereum token with a lower-case contract and a nonzero amount, carrying the cached symbol, or "ERC20" scaled by 18 decimals when the contract is not cached |
| EthereumErc20.MissingContractRaises | portfolio/wallets/ethereum_erc20.py:40 | a nonzero balance without a contract address makes the loop raise |
| Erc20Discovery.FromBlock | portfolio/wallets/erc20_discovery.py:85-86 | the start block is never negative, never after the latest block, and either 0 or exactly 3,000,000 blocks back |
| Erc20Discovery.ContractsFromItems | portfolio/wallets/erc20_discovery.py:70-77 | the loop collects the lower-cased addresses of the items that have one |
| Erc20Discovery.ContractsFromLogs | portfolio/wallets/erc20_discovery.py:100-102 | the loop collects the lower-cased addresses of the logs |
| Erc20Discovery.DiscoverViaRpc | portfolio/wallets/erc20_discovery.py:80-104 | None when the node is not connected or a call raises; otherwise the logs' contracts |
| Erc20Discovery.DiscoverErc20Contracts | portfolio/wallets/erc20_discovery.py:19-48 | raises iff the address is invalid; otherwise a strictly sorted list of exactly the contracts the RouteScan-then-RPC policy finds |
| Erc20Discovery.DiscoveredLowercase | portfolio/wallets/erc20_discovery.py:70-102 | every discovered contract is lower case |
| Erc20Discovery.FallbackToRpc | portfolio/wallets/erc20_discovery.py:26-38 | without key and chain id, or when RouteScan raises or finds nothing, the RPC result decides |
| Erc20Discovery.RoutescanExtraction | portfolio/wallets/erc20_discovery.py:72-75 | items without an address are skipped and addresses differing only in case are found once |
| Erc20Discovery.RpcFailureGivesNothing | portfolio/wallets/erc20_discovery.py:38-48 | when the RPC fails, the discovery returns [] |
| Erc20Discovery.SortedDistinct | portfolio/wallets/erc20_discovery.py:34-44 | a sorted result holds each contract once |
| Erc20Discovery.InsertSorted | portfolio/wallets/erc20_discovery.py:34-44 | insertion keeps the list strictly sorted and adds exactly the new element |
| Erc20Discovery.SortedList | portfolio/wallets/erc20_discovery.py:34-44 | `sorted(set)` is strictly sorted and holds exactly the set's members |
| Text.ParseInt | portfolio/wallets/alchemy.py:51-53 | `int(s, base)` succeeds exactly when what follows an optional sign (and, in base 16, an optional 0x) is a non-empty run of digits of the base; it gives 0 exactly when those digits are all zero |
| Numbers.Round2Close | portfolio/analytics/summary.py:17-18 | rounding to cents moves a value by at most half a cent |
| Numbers.ScaleRoundTrip | portfolio/wallets/covalent.py:47-48 | scaling by 10^decimals is undone by multiplying back, so a nonzero raw balance gives a nonzero amount |
| Numbers.SumPermutation | portfolio/analytics/summary.py:4-9 | a sum does not depend on the order of its terms |
| Numbers.DistinctKeysPermutation | portfolio/merge/deduplicate.py:19-28 | a bucket key present for one order of the input is present for any other |
| Numbers.GroupTotalsPermutation | portfolio/analytics/allocation.py:29-33 | the per-group totals do not depend on the order of the input |
| Numbers.GroupsPartitionTotal | portfolio/merge/deduplicate.py:33-35 | the group totals over the distinct keys add up to the overall total |
| Numbers.SharesSumTo100 | portfolio/analytics/allocation.py:35-38 | unrounded percentage shares over the distinct groups add up to 100 |

## Left out

- Erc20Discovery.DiscoverViaRpc: the `eth_getLogs` topic filter is not modelled. Its third topic is the Keccak hash of the lower-cased wallet (portfolio/wallets/erc20_discovery.py:88-97), not the zero-padded address, and the logs it returns are an input.
- Pricing.PricesByChain, Pricing.NativePrices: every value of the native price response is taken to be a dictionary. A value that is not one makes `.get("usd")` at portfolio/pricing.py:53 raise out of `get_native_prices`, and that case is not modelled.
- Network, RPC, database and clock. Every HTTP response, Web3 answer and RPC call is an input value or a function parameter. `None` means the call raised. The SQLite table is an in-memory map and `now` is a parameter. The JSON encoding of a payload is the identity. Row order from the query is not fixed: the read loop takes the fresh rows in any order.
- Address normalisation (portfolio/wallets/normalize.py) is the boolean input `addressValid`.
- Logging and the deprecation warning are left out.
- Floating point. Money is exact `real`. Python's `round(x, 2)` is given one concrete definition (round half to even on exact reals, `Numbers.Round2`). Properties about rounded figures are stated as "within half a cent of the exact value" or before rounding, never about IEEE results.
- Text is ASCII only. `lower`, `upper`, `isalnum` and `strip` follow ASCII rules. `int()` accepts an optional sign and, for base 16, a `0x` prefix. It does not accept surrounding white space or underscores.
- Dictionary records have every key optional, and a missing key is `None`. A key that is present with the value `None` is not modelled.
- Dictionary order of results. Allocation, exposure and price results are `map`s, so their key order is not modelled. The order of iterating `SCAM_KEYWORDS` is a parameter constrained to list the set.
- The pipeline's token price table is an input looked up by the contract as written. The real call at portfolio/multi_chain.py:56 passes one argument to a two-argument function (portfolio/prices.py:54).
- The chain list of the pipeline and of the assembler. `get_enabled_chains` does not exist in the registry, and the registry's frozen `Chain` has no `is_enabled` or `fetch_holdings`. As written, `build_holdings_for_wallet` therefore raises AttributeError at portfolio/chains/assembler.py:11, outside the `try`, before any chain is fetched. The model uses the evidently intended wiring instead: the pipeline takes the chains' fetch results as a sequence, and the assembler takes `enabled` and `fetch` as function parameters over the registered chains.
- The holding record follows how the code uses it: symbol, amount, cost basis, is_erc20, chain, contract, decimals and source. The dataclass in portfolio/models.py declares different fields and no defaults. Where an adapter does not pass a field, the model fills it with cost basis 0.0, decimals None and source None. portfolio/wallets/ethereum_erc20.py:44-50 passes none of the three, so the cost basis 0 stated by EthereumErc20.EthHoldingShape is this model default. portfolio/wallets/covalent.py:51-58 passes no decimals or source. In allocation a record without amount or price contributes 0, just as such an object would through `getattr`'s default.
- The zero-quantity test at tests/test_calculator.py:28-36 expects a position, but the calculator's `amount <= 0` guard returns none. The model follows the code (`Calculator.CalculatePosition` is None exactly when amount ≤ 0), and `Calculator.UnpricedScenario` covers the unpriced branch instead.
- EthereumErc20.FetchEthErc20Balances: the `ALCHEMY_URL` emptiness guard is omitted, because the URL is a fixed non-empty prefix plus the key and the guard can never fire. A loop that raises means the cache is not saved; the model still returns the loaded cache as `saved`, which is identical either way.
- Covalent: the chain id and wallet address are used only to build the URL, so they are not parameters.
- portfolio/wallets/erc20.py, evm_tokens.py and evm.py, and portfolio/chains/evm.py and provider.py, are not part of this model. They are network-bound or thin dispatch. So are `get_portfolio_history` and the SQL reader of performance.py, portfolio/storage.py, portfolio/cache/token_metadata.py (its loaded map is the `cache` input), services/exporter.py and the web layers.
