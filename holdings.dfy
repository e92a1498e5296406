/** The records that flow through the portfolio pipeline. */
module Holdings {
  import opened Wrappers

  /**
   * A raw balance of one asset on one chain, with the fields the wallet
   * adapters fill in and the pipeline reads. `symbol` is None when the
   * adapter could not resolve it; `contract_address` is None for native coins.
   */
  datatype Holding = Holding(
    symbol: Option<string>,
    amount: real,
    costBasis: real,
    isErc20: bool,
    chain: string,
    contractAddress: Option<string>,
    decimals: Option<int>,
    source: Option<string>)

  /**
   * A position or holding read as a dictionary by the analytics code: every
   * key may be absent (None). Each function reads only some of the keys.
   */
  datatype Record = Record(
    symbol: Option<string>,
    chain: Option<string>,
    amount: Option<real>,
    price: Option<real>,
    currentValue: Option<real>,
    pnl: Option<real>,
    isErc20: Option<bool>,
    contractAddress: Option<string>,
    costBasis: Option<real>)

  /** Python truthiness of an optional string: present and non-empty. */
  predicate Truthy(s: Option<string>) {
    s.Some? && s.value != ""
  }

  /** Python truthiness of an optional boolean. */
  predicate IsTrue(b: Option<bool>) {
    b == Some(true)
  }

  /**
   * The holdings of several chains, concatenated in chain order; a chain
   * whose fetch failed (None) contributes nothing.
   */
  function Gathered(results: seq<Option<seq<Holding>>>): seq<Holding> {
    if |results| == 0 then []
    else Gathered(results[..|results| - 1]) + (if results[|results| - 1].Some? then results[|results| - 1].value else [])
  }

  /** A chain whose fetch failed contributes nothing; the other chains are still gathered in order. */
  lemma {:induction false} FailedChainContributesNothing(before: seq<Option<seq<Holding>>>, after: seq<Option<seq<Holding>>>)
    ensures Gathered(before + [None] + after) == Gathered(before) + Gathered(after)
    decreases |after|
  {
    if |after| == 0 {
      assert before + [None] + after == before + [None];
      assert (before + [None])[..|before|] == before;
    } else {
      var init := after[..|after| - 1];
      FailedChainContributesNothing(before, init);
      assert (before + [None] + after)[..|before + [None] + after| - 1] == before + [None] + init;
      GatheredAppendLast(before, init, after[|after| - 1]);
    }
  }

  lemma {:induction false} GatheredAppendLast(before: seq<Option<seq<Holding>>>, init: seq<Option<seq<Holding>>>,
                                             last: Option<seq<Holding>>)
    requires Gathered(before + [None] + init) == Gathered(before) + Gathered(init)
    ensures Gathered(before + [None] + init + [last]) == Gathered(before) + Gathered(init + [last])
  {
    var contributed := if last.Some? then last.value else [];
    var s := before + [None] + init;
    assert (s + [last])[..|s|] == s;
    assert Gathered(s + [last]) == Gathered(s) + contributed;
    assert (init + [last])[..|init|] == init;
    assert Gathered(init + [last]) == Gathered(init) + contributed;
  }

  /** Every gathered holding comes from a chain whose fetch succeeded. */
  lemma {:induction false} GatheredMembership(results: seq<Option<seq<Holding>>>, h: Holding)
    requires h in Gathered(results)
    ensures exists i :: 0 <= i < |results| && results[i].Some? && h in results[i].value
  {
    var init := results[..|results| - 1];
    if h in Gathered(init) {
      GatheredMembership(init, h);
      var i :| 0 <= i < |init| && init[i].Some? && h in init[i].value;
      assert results[i] == init[i];
    } else {
      assert results[|results| - 1].Some? && h in results[|results| - 1].value;
    }
  }

  // ---------------------------------------------------------------------------
  // Per-item parsing in the wallet adapters
  // ---------------------------------------------------------------------------

  /** What an adapter does with one item of a response: skip it, raise, or keep a holding. */
  datatype Step = Skip | Fail | Keep(holding: Holding)

  /** The holdings kept from `items` in order, or None when some item raises. */
  function Collected<T>(items: seq<T>, step: T -> Step): Option<seq<Holding>> {
    if |items| == 0 then Some([])
    else
      var init := Collected(items[..|items| - 1], step);
      match step(items[|items| - 1])
      case Skip => init
      case Fail => None
      case Keep(h) => if init.Some? then Some(init.value + [h]) else None
  }

  /** Collecting two runs of items one after the other concatenates their holdings. */
  lemma {:induction false} CollectedAppend<T>(a: seq<T>, b: seq<T>, step: T -> Step)
    ensures Collected(a + b, step) ==
            if Collected(a, step).Some? && Collected(b, step).Some?
            then Some(Collected(a, step).value + Collected(b, step).value) else None
    decreases |b|
  {
    if |b| == 0 {
      assert a + b == a;
      if Collected(a, step).Some? {
        assert Collected(a, step).value + [] == Collected(a, step).value;
      }
    } else {
      var init := b[..|b| - 1];
      assert (a + b)[..|a + b| - 1] == a + init;
      assert (a + b)[|a + b| - 1] == b[|b| - 1];
      CollectedAppend(a, init, step);
      var ca, ci := Collected(a, step), Collected(init, step);
      match step(b[|b| - 1])
      case Skip =>
      case Fail =>
      case Keep(h) =>
        if ca.Some? && ci.Some? {
          assert ca.value + ci.value + [h] == ca.value + (ci.value + [h]);
        }
    }
  }

  /** One more item: a skipped item changes nothing, a kept one appends its holding. */
  lemma CollectedStep<T>(items: seq<T>, i: int, step: T -> Step)
    requires 0 <= i < |items|
    ensures step(items[i]).Skip? ==> Collected(items[..i + 1], step) == Collected(items[..i], step)
    ensures step(items[i]).Keep? && Collected(items[..i], step).Some? ==>
              Collected(items[..i + 1], step) == Some(Collected(items[..i], step).value + [step(items[i]).holding])
  {
    assert items[..i + 1][..i] == items[..i];
  }

  /** One item that raises makes the whole collection raise, wherever it stands. */
  lemma CollectedFails<T>(items: seq<T>, i: int, step: T -> Step)
    requires 0 <= i < |items| && step(items[i]).Fail?
    ensures Collected(items, step).None?
  {
    assert items == items[..i] + [items[i]] + items[i + 1..];
    CollectedAppend(items[..i] + [items[i]], items[i + 1..], step);
    CollectedAppend(items[..i], [items[i]], step);
  }

  /** Every collected holding is the holding kept from some item. */
  lemma {:induction false} CollectedFrom<T>(items: seq<T>, step: T -> Step, h: Holding)
    requires Collected(items, step).Some? && h in Collected(items, step).value
    ensures exists i :: 0 <= i < |items| && step(items[i]) == Keep(h)
  {
    var init := items[..|items| - 1];
    if Collected(init, step).Some? && h in Collected(init, step).value {
      CollectedFrom(init, step, h);
      var i :| 0 <= i < |init| && step(init[i]) == Keep(h);
      assert items[i] == init[i];
    }
  }
}
