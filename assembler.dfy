/**
 * Assembly of a wallet's holdings across the registered chains. Whether a
 * chain is enabled and what its fetch returns are given as functions; a
 * fetch that raises is None.
 */
module Assembler {
  import opened Wrappers
  import opened Holdings
  import opened Registry

  /** The outcome of each chain in order: None for a disabled chain or a failed fetch. */
  function Outcomes(chains: seq<Chain>, wallet: string, enabled: Chain -> bool,
                    fetch: (Chain, string) -> Option<seq<Holding>>): (r: seq<Option<seq<Holding>>>)
    ensures |r| == |chains|
  {
    seq(|chains|, i requires 0 <= i < |chains| => if enabled(chains[i]) then fetch(chains[i], wallet) else None)
  }

  /** `build_holdings_for_wallet`: skips disabled chains, survives failing ones, concatenates the rest. */
  method BuildHoldingsForWallet(wallet: string, enabled: Chain -> bool, fetch: (Chain, string) -> Option<seq<Holding>>)
    returns (holdings: seq<Holding>)
    ensures holdings == Gathered(Outcomes(Chains, wallet, enabled, fetch))
  {
    ghost var outcomes := Outcomes(Chains, wallet, enabled, fetch);
    holdings := [];
    for i := 0 to |Chains|
      invariant holdings == Gathered(outcomes[..i])
    {
      assert outcomes[..i + 1][..i] == outcomes[..i];
      var chain := Chains[i];
      if !enabled(chain) {
        continue;
      }
      var chainHoldings := fetch(chain, wallet);
      if chainHoldings.Some? {
        holdings := holdings + chainHoldings.value;
      }
    }
    assert outcomes[..|Chains|] == outcomes;
  }

  /**
   * Every assembled holding was returned by the successful fetch of an
   * enabled chain; a disabled chain or a failed fetch contributes nothing.
   */
  lemma AssembledFromEnabledChains(wallet: string, enabled: Chain -> bool,
                                   fetch: (Chain, string) -> Option<seq<Holding>>, h: Holding)
    requires h in Gathered(Outcomes(Chains, wallet, enabled, fetch))
    ensures exists i :: 0 <= i < |Chains| && enabled(Chains[i]) && fetch(Chains[i], wallet).Some? &&
                        h in fetch(Chains[i], wallet).value
  {
    GatheredMembership(Outcomes(Chains, wallet, enabled, fetch), h);
  }

  /** A failing chain drops out: the result is what the chains before and after it give, in order. */
  lemma FailedChainIsolated(wallet: string, enabled: Chain -> bool,
                            fetch: (Chain, string) -> Option<seq<Holding>>, i: int)
    requires 0 <= i < |Chains| && (!enabled(Chains[i]) || fetch(Chains[i], wallet).None?)
    ensures var o := Outcomes(Chains, wallet, enabled, fetch);
            Gathered(o) == Gathered(o[..i]) + Gathered(o[i + 1..])
  {
    var o := Outcomes(Chains, wallet, enabled, fetch);
    assert o == o[..i] + [None] + o[i + 1..];
    FailedChainContributesNothing(o[..i], o[i + 1..]);
  }

  /** With no chain enabled, the wallet has no holdings. */
  lemma NothingEnabled(wallet: string, enabled: Chain -> bool, fetch: (Chain, string) -> Option<seq<Holding>>)
    requires forall c :: c in Chains ==> !enabled(c)
    ensures Gathered(Outcomes(Chains, wallet, enabled, fetch)) == []
  {
    var o := Outcomes(Chains, wallet, enabled, fetch);
    forall i | 0 <= i < |o| ensures o[i].None? {
      assert Chains[i] in Chains;
    }
    NoSuccessGathersNothing(o);
  }

  lemma {:induction false} NoSuccessGathersNothing(results: seq<Option<seq<Holding>>>)
    requires forall i :: 0 <= i < |results| ==> results[i].None?
    ensures Gathered(results) == []
  {
    if |results| > 0 {
      NoSuccessGathersNothing(results[..|results| - 1]);
    }
  }
}
