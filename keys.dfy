/**
 * Merge keys: the canonical symbol and the (symbol, chain, contract) key of
 * a position. The deduplicator does not use these; they are a separate helper.
 */
module MergeKeys {
  import opened Wrappers
  import opened Text
  import opened Holdings

  /**
   * `canonical_symbol`: "UNKNOWN" for a missing or empty symbol, otherwise the
   * symbol stripped of surrounding white space and upper-cased.
   */
  function CanonicalSymbol(symbol: Option<string>): (r: string)
    ensures !Truthy(symbol) ==> r == "UNKNOWN"
    ensures Trimmed(r) && Upper(r) == r
  {
    if !Truthy(symbol) then "UNKNOWN"
    else
      var s := Strip(symbol.value);
      StripTrims(symbol.value);
      UpperKeepsTrimmed(s);
      UpperIdempotent(s);
      Upper(s)
  }

  /** Canonicalising twice is canonicalising once, unless the symbol is all white space. */
  lemma CanonicalSymbolIdempotent(symbol: Option<string>)
    requires !Truthy(symbol) || Strip(symbol.value) != ""
    ensures CanonicalSymbol(Some(CanonicalSymbol(symbol))) == CanonicalSymbol(symbol)
  {
    var c := CanonicalSymbol(symbol);
    if Truthy(symbol) {
      assert |c| == |Strip(symbol.value)|;
    }
    StripOfTrimmed(c);
  }

  /** An all-white-space symbol canonicalises to "", which canonicalises to "UNKNOWN". */
  lemma BlankSymbol(s: string)
    requires s != "" && Strip(s) == ""
    ensures CanonicalSymbol(Some(s)) == ""
    ensures CanonicalSymbol(Some(CanonicalSymbol(Some(s)))) == "UNKNOWN"
  {
  }

  /** `(canonical_symbol, chain, contract)`. */
  datatype AssetKey = AssetKey(symbol: string, chain: string, contract: string)

  /**
   * `asset_key`: a native position (no `is_erc20`, or false) gets the contract
   * "native"; a token its lower-cased contract address, "unknown" when absent.
   * The chain is taken as it is, "unknown" when absent.
   */
  function KeyOf(position: Record): (k: AssetKey)
    ensures k.symbol == CanonicalSymbol(position.symbol)
    ensures k.chain == position.chain.GetOr("unknown")
    ensures !IsTrue(position.isErc20) ==> k.contract == "native"
    ensures IsTrue(position.isErc20) ==> k.contract == Lower(position.contractAddress.GetOr("unknown"))
    ensures Lower(k.contract) == k.contract
  {
    var symbol := CanonicalSymbol(position.symbol);
    var chain := position.chain.GetOr("unknown");
    var contract := if !IsTrue(position.isErc20) then "native"
                    else Lower(position.contractAddress.GetOr("unknown"));
    LowerIdempotent(position.contractAddress.GetOr("unknown"));
    assert Lower("native") == "native";
    AssetKey(symbol, chain, contract)
  }

  /** Positions on different chains never share a key. */
  lemma ChainsNeverMerge(p1: Record, p2: Record)
    requires p1.chain.GetOr("unknown") != p2.chain.GetOr("unknown")
    ensures KeyOf(p1) != KeyOf(p2)
  {
  }

  /** Two positions share a key only if their canonical symbols agree: WETH never merges into ETH. */
  lemma SymbolsNeverMerge(p1: Record, p2: Record)
    requires CanonicalSymbol(p1.symbol) != CanonicalSymbol(p2.symbol)
    ensures KeyOf(p1) != KeyOf(p2)
  {
  }

  /** Symbols differing only in case and surrounding space share the symbol part of a key. */
  lemma CaseAndSpaceDoNotSeparate(p1: Record, p2: Record)
    requires Truthy(p1.symbol) && Truthy(p2.symbol)
    requires Upper(Strip(p1.symbol.value)) == Upper(Strip(p2.symbol.value))
    ensures KeyOf(p1).symbol == KeyOf(p2).symbol
  {
  }

  lemma WethIsNotEth(p1: Record, p2: Record)
    requires p1.symbol == Some("WETH") && p2.symbol == Some("ETH")
    ensures KeyOf(p1) != KeyOf(p2)
  {
    assert Strip("WETH") == "WETH";
    assert Strip("ETH") == "ETH";
    assert |CanonicalSymbol(p1.symbol)| == 4;
    assert |CanonicalSymbol(p2.symbol)| == 3;
  }
}
