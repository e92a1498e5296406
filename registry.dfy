/** The registry of supported EVM chains and the lookup of a chain by its symbol. */
module Registry {
  import opened Wrappers
  import opened Text

  datatype Chain = Chain(name: string, symbol: string, rpcEnvVar: string, coingeckoId: string)

  /** `CHAINS`, in declaration order. */
  const Chains: seq<Chain> := [
    Chain("Ethereum", "ETH", "ALCHEMY_ETH_RPC_URL", "ethereum"),
    Chain("Arbitrum", "ARB", "ALCHEMY_ARB_RPC_URL", "arbitrum-one"),
    Chain("Binance Smart Chain", "BSC", "BSC_RPC_URL", "binance-smart-chain"),
    Chain("Polygon", "MATIC", "POLYGON_RPC_URL", "polygon")
  ]

  predicate Matches(c: Chain, symbol: string) {
    Lower(c.symbol) == Lower(symbol)
  }

  /** The first chain of `cs` whose symbol equals `symbol` ignoring case, if any. */
  function FindChain(cs: seq<Chain>, symbol: string): (r: Option<Chain>)
    ensures r.None? <==> forall i :: 0 <= i < |cs| ==> !Matches(cs[i], symbol)
    ensures r.Some? ==> exists i :: 0 <= i < |cs| && cs[i] == r.value && Matches(cs[i], symbol) &&
                                    forall j :: 0 <= j < i ==> !Matches(cs[j], symbol)
  {
    if |cs| == 0 then None
    else if Matches(cs[0], symbol) then Some(cs[0])
    else
      var r := FindChain(cs[1..], symbol);
      assert forall i :: 1 <= i < |cs| ==> cs[i] == cs[1..][i - 1];
      if r.Some? then
        var i :| 0 <= i < |cs[1..]| && cs[1..][i] == r.value && Matches(cs[1..][i], symbol) &&
                 forall j :: 0 <= j < i ==> !Matches(cs[1..][j], symbol);
        assert cs[i + 1] == r.value;
        r
      else r
  }

  /** `get_chain_by_symbol`. */
  function GetChainBySymbol(symbol: string): (r: Option<Chain>)
    ensures r.Some? ==> r.value in Chains && Matches(r.value, symbol)
    ensures r.None? <==> forall c :: c in Chains ==> !Matches(c, symbol)
  {
    FindChain(Chains, symbol)
  }

  /** No two registered chains have symbols equal up to case, so at most one chain matches. */
  lemma SymbolsDistinct(symbol: string)
    ensures forall i, j :: 0 <= i < j < |Chains| ==> Lower(Chains[i].symbol) != Lower(Chains[j].symbol)
    ensures forall i, j :: 0 <= i < |Chains| && 0 <= j < |Chains| && Matches(Chains[i], symbol) && Matches(Chains[j], symbol) ==> i == j
  {
    assert Lower("ETH") == "eth";
    assert Lower("ARB") == "arb";
    assert Lower("BSC") == "bsc";
    assert Lower("MATIC") == "matic";
  }

  /** The lookup reads the symbol only through its lower-cased form. */
  lemma {:induction false} FindChainByLower(cs: seq<Chain>, a: string, b: string)
    requires Lower(a) == Lower(b)
    ensures FindChain(cs, a) == FindChain(cs, b)
  {
    if |cs| > 0 {
      FindChainByLower(cs[1..], a, b);
    }
  }

  /** The lookup ignores case: a symbol and its upper- and lower-case forms find the same chain. */
  lemma LookupIgnoresCase(symbol: string)
    ensures GetChainBySymbol(Upper(symbol)) == GetChainBySymbol(symbol)
    ensures GetChainBySymbol(Lower(symbol)) == GetChainBySymbol(symbol)
  {
    LowerOfUpper(symbol);
    FindChainByLower(Chains, Upper(symbol), symbol);
    LowerIdempotent(symbol);
    FindChainByLower(Chains, Lower(symbol), symbol);
  }

  /** "eth" finds Ethereum; "BNB" finds nothing, since the BSC entry's symbol is "BSC". */
  lemma LookupExamples()
    ensures GetChainBySymbol("eth") == Some(Chains[0])
    ensures GetChainBySymbol("BNB") == None
  {
    assert Lower("eth") == Lower("ETH") by {
      assert Lower("eth") == "eth";
      assert Lower("ETH") == "eth";
    }
    assert Matches(Chains[0], "eth");
    var bnb := Lower("BNB");
    assert |bnb| == 3 && bnb[0] == 'b' && bnb[1] == 'n';
    assert Lower(Chains[0].symbol)[0] == 'e';
    assert Lower(Chains[1].symbol)[0] == 'a';
    assert Lower(Chains[2].symbol)[1] == 's';
    assert |Lower(Chains[3].symbol)| == 5;
    assert forall c :: c in Chains ==> !Matches(c, "BNB");
  }
}
