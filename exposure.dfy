/** Exposure of a portfolio's value by asset class (native coin, stablecoin, other token), in percent. */
module Exposure {
  import opened Wrappers
  import opened Text
  import opened Numbers
  import opened Holdings
  import Stablecoins
  import Summary

  /** The three stablecoins this classification recognises. */
  const StableSymbols: set<string> := {"USDC", "USDT", "DAI"}

  /**
   * A position's class: native when `is_erc20` is missing or false, otherwise
   * stablecoin when its upper-cased symbol is one of the three, otherwise erc20.
   */
  function AssetClass(p: Record): (c: string)
    ensures c in {"native", "stablecoin", "erc20"}
    ensures c == "native" <==> !IsTrue(p.isErc20)
  {
    if !IsTrue(p.isErc20) then "native"
    else if Upper(p.symbol.GetOr("")) in StableSymbols then "stablecoin"
    else "erc20"
  }

  /** The exposure: empty when the positions are worth nothing, else each class's share in percent, rounded. */
  function ExposureOf(ps: seq<Record>): map<string, real> {
    var total := Sum(ps, Summary.ValueOf);
    if total == 0.0 then map[]
    else Percentages(GroupTotals(ps, AssetClass, Summary.ValueOf), total)
  }

  /** `asset_class_exposure`: one pass accumulating the total and the class totals. */
  method AssetClassExposure(ps: seq<Record>) returns (r: map<string, real>)
    ensures r == ExposureOf(ps)
  {
    var totals: map<string, real> := map[];
    var totalValue := 0.0;
    for i := 0 to |ps|
      invariant totalValue == Sum(ps[..i], Summary.ValueOf)
      invariant totals == GroupTotals(ps[..i], AssetClass, Summary.ValueOf)
    {
      var p := ps[i];
      var value := p.currentValue.GetOr(0.0);
      assert ps[..i + 1] == ps[..i] + [p];
      assert ps[..i + 1][..i] == ps[..i];
      totalValue := totalValue + value;
      var k;
      if !IsTrue(p.isErc20) {
        k := "native";
      } else if Upper(p.symbol.GetOr("")) in {"USDC", "USDT", "DAI"} {
        k := "stablecoin";
      } else {
        k := "erc20";
      }
      assert k == AssetClass(p) && value == Summary.ValueOf(p);
      GroupTotalsSnoc(ps[..i], p, AssetClass, Summary.ValueOf);
      totals := totals[k := (if k in totals then totals[k] else 0.0) + value];
    }
    assert ps[..|ps|] == ps;
    if totalValue == 0.0 {
      return map[];
    }
    r := Percentages(totals, totalValue);
  }

  /**
   * The keys of a nonzero exposure are the classes that received at least one
   * position, and before rounding the percentages add up to 100.
   */
  lemma ExposureKeysAndTotal(ps: seq<Record>)
    requires Sum(ps, Summary.ValueOf) != 0.0
    ensures forall k :: k in ExposureOf(ps) <==> exists i :: 0 <= i < |ps| && AssetClass(ps[i]) == k
    ensures forall k :: k in ExposureOf(ps) ==> k in {"native", "stablecoin", "erc20"}
    ensures SumShares(DistinctKeys(ps, AssetClass), ps, AssetClass, Summary.ValueOf, Sum(ps, Summary.ValueOf)) == 100.0
  {
    DistinctKeysSpec(ps, AssetClass);
    SharesSumTo100(ps, AssetClass, Summary.ValueOf);
  }

  /** Positions worth nothing in total give an empty exposure. */
  lemma ZeroTotalIsEmpty(ps: seq<Record>)
    requires Sum(ps, Summary.ValueOf) == 0.0
    ensures ExposureOf(ps) == map[]
  {
  }

  /** The native test comes first: a native coin named "USDC" counts as native. */
  lemma NativeTakesPrecedence(p: Record)
    requires p.symbol == Some("USDC") && p.isErc20 != Some(true)
    ensures AssetClass(p) == "native"
  {
  }

  /** The stablecoin test ignores case: an erc20 "usdc" is a stablecoin. */
  lemma LowerCaseStablecoin(p: Record)
    requires p.symbol == Some("usdc") && p.isErc20 == Some(true)
    ensures AssetClass(p) == "stablecoin"
  {
    assert Upper("usdc") == "USDC";
  }

  /** FRAX is a stablecoin to the stablecoin filter but counts as erc20 here. */
  lemma FraxCountsAsErc20(p: Record)
    requires p.symbol == Some("FRAX") && p.isErc20 == Some(true)
    ensures Stablecoins.IsStablecoin("FRAX")
    ensures AssetClass(p) == "erc20"
  {
    assert Upper("FRAX") == "FRAX";
  }
}
