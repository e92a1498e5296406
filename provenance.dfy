/** Where a position most likely came from, inferred from its kind and its cost basis. */
module Provenance {
  import opened Wrappers
  import opened Holdings

  /** `{"source": ..., "confidence": ...}`. */
  datatype Origin = Origin(source: string, confidence: string)

  /**
   * `infer_provenance`: a native coin is "native"; a token with no cost basis
   * (missing or 0) was an airdrop or transfer; any other token was bought in
   * a swap. Only the airdrop guess has medium confidence.
   */
  function InferProvenance(p: Record): (r: Origin)
    ensures r.source in {"native", "airdrop_or_transfer", "swap"}
    ensures r.source == "native" <==> !IsTrue(p.isErc20)
    ensures r.source == "airdrop_or_transfer" <==> IsTrue(p.isErc20) && p.costBasis.GetOr(0.0) == 0.0
    ensures r.confidence == "medium" <==> r.source == "airdrop_or_transfer"
    ensures r.confidence in {"high", "medium"}
  {
    if !IsTrue(p.isErc20) then Origin("native", "high")
    else if p.costBasis.GetOr(0.0) == 0.0 then Origin("airdrop_or_transfer", "medium")
    else Origin("swap", "high")
  }

  /** A native coin is native whatever its cost basis. */
  lemma NativeIgnoresCostBasis(p: Record, c: Option<real>)
    requires !IsTrue(p.isErc20)
    ensures InferProvenance(p.(costBasis := c)) == Origin("native", "high")
  {
  }

  /** A token with a negative cost basis counts as a swap. */
  lemma NegativeCostBasisIsSwap(p: Record)
    requires IsTrue(p.isErc20) && p.costBasis.Some? && p.costBasis.value < 0.0
    ensures InferProvenance(p) == Origin("swap", "high")
  {
  }
}
