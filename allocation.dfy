/** Allocation of a portfolio's value by asset symbol and by chain, in percent. */
module Allocation {
  import opened Wrappers
  import opened Numbers
  import opened Holdings

  /** `amount * price`, each 0.0 when the key is missing. */
  function Worth(h: Record): real {
    h.amount.GetOr(0.0) * h.price.GetOr(0.0)
  }

  /** A holding is worth amount × price when it has both, and nothing when either is missing. */
  lemma WorthOfFields(h: Record)
    ensures h.amount.None? || h.price.None? ==> Worth(h) == 0.0
    ensures h.amount.Some? && h.price.Some? ==> Worth(h) == h.amount.value * h.price.value
  {
  }

  /** `_get(h, "symbol", "UNKNOWN")`. */
  function SymbolOf(h: Record): (s: string)
    ensures h.symbol.None? ==> s == "UNKNOWN"
    ensures h.symbol.Some? ==> s == h.symbol.value
  {
    h.symbol.GetOr("UNKNOWN")
  }

  /** `_get(h, "chain", "UNKNOWN")`. */
  function ChainOf(h: Record): (c: string)
    ensures h.chain.None? ==> c == "UNKNOWN"
    ensures h.chain.Some? ==> c == h.chain.value
  {
    h.chain.GetOr("UNKNOWN")
  }

  /**
   * The allocation by `key`: empty when the portfolio is worth nothing,
   * otherwise each key's share of the value in percent, rounded to 2 places.
   */
  function AllocationOf(hs: seq<Record>, key: Record -> string): map<string, real> {
    var total := Sum(hs, Worth);
    if total == 0.0 then map[]
    else Percentages(GroupTotals(hs, key, Worth), total)
  }

  /** `calculate_total_value`. */
  method CalculateTotalValue(hs: seq<Record>) returns (total: real)
    ensures total == Sum(hs, Worth)
  {
    total := 0.0;
    for i := 0 to |hs|
      invariant total == Sum(hs[..i], Worth)
    {
      var amount := hs[i].amount.GetOr(0.0);
      var price := hs[i].price.GetOr(0.0);
      assert hs[..i + 1][..i] == hs[..i];
      total := total + amount * price;
    }
    assert hs[..|hs|] == hs;
  }

  /** The body shared by both allocations: group the worth by `key`, then take percentages. */
  method AllocateBy(hs: seq<Record>, key: Record -> string) returns (r: map<string, real>)
    ensures r == AllocationOf(hs, key)
  {
    var portfolioValue := CalculateTotalValue(hs);
    if portfolioValue == 0.0 {
      return map[];
    }
    var totals: map<string, real> := map[];
    for i := 0 to |hs|
      invariant totals == GroupTotals(hs[..i], key, Worth)
    {
      var k := key(hs[i]);
      var amount := hs[i].amount.GetOr(0.0);
      var price := hs[i].price.GetOr(0.0);
      var worth := amount * price;
      assert worth == Worth(hs[i]);
      assert hs[..i + 1] == hs[..i] + [hs[i]];
      GroupTotalsSnoc(hs[..i], hs[i], key, Worth);
      totals := totals[k := (if k in totals then totals[k] else 0.0) + worth];
    }
    assert hs[..|hs|] == hs;
    r := Percentages(totals, portfolioValue);
  }

  /** `allocation_by_asset`. */
  method AllocationByAsset(hs: seq<Record>) returns (r: map<string, real>)
    ensures r == AllocationOf(hs, SymbolOf)
  {
    r := AllocateBy(hs, SymbolOf);
  }

  /** `allocation_by_chain`. */
  method AllocationByChain(hs: seq<Record>) returns (r: map<string, real>)
    ensures r == AllocationOf(hs, ChainOf)
  {
    r := AllocateBy(hs, ChainOf);
  }

  /**
   * A portfolio worth nothing has no allocation; otherwise the keys are
   * exactly the keys of the holdings, and each share is within half a
   * hundredth of the exact percentage.
   */
  lemma AllocationKeys(hs: seq<Record>, key: Record -> string)
    ensures Sum(hs, Worth) == 0.0 ==> AllocationOf(hs, key) == map[]
    ensures Sum(hs, Worth) != 0.0 ==>
              forall k :: k in AllocationOf(hs, key) <==> exists i :: 0 <= i < |hs| && key(hs[i]) == k
    ensures Sum(hs, Worth) != 0.0 ==>
              forall k :: k in AllocationOf(hs, key) ==>
                -0.005 <= AllocationOf(hs, key)[k] - Share(hs, key, Worth, k, Sum(hs, Worth)) <= 0.005
  {
    DistinctKeysSpec(hs, key);
    if Sum(hs, Worth) != 0.0 {
      forall k | k in AllocationOf(hs, key)
        ensures -0.005 <= AllocationOf(hs, key)[k] - Share(hs, key, Worth, k, Sum(hs, Worth)) <= 0.005
      {
        Round2Close(Share(hs, key, Worth, k, Sum(hs, Worth)));
      }
    }
  }

  /** Before rounding, the shares of all keys add up to 100 percent. */
  lemma AllocationSumsTo100(hs: seq<Record>, key: Record -> string)
    requires Sum(hs, Worth) != 0.0
    ensures forall k :: k in AllocationOf(hs, key) <==> k in DistinctKeys(hs, key)
    ensures SumShares(DistinctKeys(hs, key), hs, key, Worth, Sum(hs, Worth)) == 100.0
  {
    SharesSumTo100(hs, key, Worth);
  }

  /** A holding without a price (or an amount) adds nothing to the total or to any group. */
  lemma UnpricedAddsNothing(hs: seq<Record>, h: Record, key: Record -> string, k: string)
    requires h.price.None? || h.amount.None?
    ensures Sum(hs + [h], Worth) == Sum(hs, Worth)
    ensures GroupSum(hs + [h], key, Worth, k) == GroupSum(hs, key, Worth, k)
  {
    assert (hs + [h])[..|hs + [h]| - 1] == hs;
    GroupSumSnoc(hs, h, key, Worth, k);
  }

  /** The allocation does not depend on the order of the holdings. */
  lemma AllocationOrderIndependent(hs: seq<Record>, gs: seq<Record>, key: Record -> string)
    requires multiset(hs) == multiset(gs)
    ensures AllocationOf(hs, key) == AllocationOf(gs, key)
  {
    SumPermutation(hs, gs, Worth);
    GroupTotalsPermutation(hs, gs, key, Worth);
  }

  /** A holding without a symbol is counted under "UNKNOWN". */
  lemma MissingSymbolIsUnknown(hs: seq<Record>, i: int)
    requires 0 <= i < |hs| && hs[i].symbol.None? && Sum(hs, Worth) != 0.0
    ensures "UNKNOWN" in AllocationOf(hs, SymbolOf)
  {
    DistinctKeysSpec(hs, SymbolOf);
  }
}
