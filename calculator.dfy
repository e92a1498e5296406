/** The position calculator: value, profit and loss of one holding at one price. */
module Calculator {
  import opened Wrappers
  import opened Numbers
  import opened Holdings

  /**
   * The dictionary `calculate_position` returns. `invested` and `isErc20`
   * are optional because the deduplicator also reads dictionaries built
   * elsewhere (`pos.get("invested", 0.0)`, `pos.get("is_erc20", True)`);
   * the calculator always sets `invested` and never sets `is_erc20`.
   */
  datatype Position = Position(
    symbol: Option<string>,
    chain: string,
    amount: real,
    invested: Option<real>,
    currentValue: real,
    pnl: real,
    pnlPct: real,
    priceAvailable: bool,
    isErc20: Option<bool>)

  /** The figures of a position before rounding. */
  datatype Valuation = Valuation(invested: real, currentValue: real, pnl: real, pnlPct: real, priceAvailable: bool)

  /** A usable price: present and positive. */
  predicate Priced(price: Option<real>) {
    price.Some? && price.value > 0.0
  }

  /**
   * The arithmetic of `calculate_position`. Without a usable price the value
   * is zero and the whole investment is lost (-100 %, or 0 % when nothing was
   * invested, also for a negative investment); with one, the percentage is
   * taken against a positive investment only, so nothing is divided by zero.
   */
  function Value(amount: real, costBasis: real, price: Option<real>): (v: Valuation)
    ensures v.invested == amount * costBasis
    ensures v.pnl == v.currentValue - v.invested
    ensures v.priceAvailable <==> Priced(price)
    ensures v.priceAvailable ==> v.currentValue == amount * price.value
    ensures !v.priceAvailable ==> v.currentValue == 0.0
    ensures !v.priceAvailable ==> v.pnlPct == (if v.invested == 0.0 then 0.0 else -100.0)
    ensures v.priceAvailable && v.invested > 0.0 ==> v.pnlPct * v.invested == v.pnl * 100.0
    ensures v.priceAvailable && v.invested <= 0.0 ==> v.pnlPct == 0.0
  {
    var invested := amount * costBasis;
    if !Priced(price) then
      Valuation(invested, 0.0, -invested, if invested == 0.0 then 0.0 else -100.0, false)
    else
      var currentValue := amount * price.value;
      var pnl := currentValue - invested;
      Valuation(invested, currentValue, pnl, if invested > 0.0 then pnl / invested * 100.0 else 0.0, true)
  }

  /**
   * `calculate_position`: no position for a non-positive amount; otherwise
   * symbol, chain and amount copied, the money figures rounded to cents.
   */
  function CalculatePosition(h: Holding, price: Option<real>): (r: Option<Position>)
    ensures r.None? <==> h.amount <= 0.0
    ensures r.Some? ==>
              var v := Value(h.amount, h.costBasis, price);
              && r.value.symbol == h.symbol && r.value.chain == h.chain && r.value.amount == h.amount
              && r.value.invested == Some(Round2(v.invested))
              && r.value.currentValue == Round2(v.currentValue)
              && r.value.pnl == Round2(v.pnl)
              && r.value.pnlPct == Round2(v.pnlPct)
              && r.value.priceAvailable == v.priceAvailable
              && r.value.isErc20 == None
  {
    if h.amount <= 0.0 then None
    else
      var v := Value(h.amount, h.costBasis, price);
      Some(Position(h.symbol, h.chain, h.amount, Some(Round2(v.invested)), Round2(v.currentValue),
                    Round2(v.pnl), Round2(v.pnlPct), v.priceAvailable, None))
  }

  /** With a usable price and a positive investment, the percentage is positive exactly on a gain. */
  lemma GainIffPositivePercentage(amount: real, costBasis: real, price: Option<real>)
    requires Priced(price) && amount * costBasis > 0.0
    ensures var v := Value(amount, costBasis, price);
            (v.pnlPct > 0.0 <==> v.currentValue > v.invested) && (v.pnlPct == 0.0 <==> v.currentValue == v.invested)
  {
    var v := Value(amount, costBasis, price);
    assert v.pnlPct == v.pnl / v.invested * 100.0;
  }

  /** Without a usable price the loss is the whole investment, whatever its sign. */
  lemma UnpricedLosesInvestment(amount: real, costBasis: real, price: Option<real>)
    requires !Priced(price)
    ensures var v := Value(amount, costBasis, price);
            v.pnl == -(amount * costBasis) && (amount * costBasis < 0.0 ==> v.pnlPct == -100.0)
  {
  }

  /** One unit bought at 20000 and priced at 30000: value 30000, gain 10000, +50 %. */
  lemma GainScenario(h: Holding)
    requires h.amount == 1.0 && h.costBasis == 20000.0
    ensures CalculatePosition(h, Some(30000.0)) ==
            Some(Position(h.symbol, h.chain, 1.0, Some(20000.0), 30000.0, 10000.0, 50.0, true, None))
  {
    Round2Exact(2000000);
    Round2Exact(3000000);
    Round2Exact(1000000);
    Round2Exact(5000);
  }

  /** Two units bought at 2500 and priced at 2000: value 4000, loss 1000, -20 %. */
  lemma LossScenario(h: Holding)
    requires h.amount == 2.0 && h.costBasis == 2500.0
    ensures CalculatePosition(h, Some(2000.0)) ==
            Some(Position(h.symbol, h.chain, 2.0, Some(5000.0), 4000.0, -1000.0, -20.0, true, None))
  {
    Round2Exact(500000);
    Round2Exact(400000);
    Round2Exact(-100000);
    Round2Exact(-2000);
  }

  /** A holding with no price and a cost basis: value 0, the investment lost, -100 %. */
  lemma UnpricedScenario(h: Holding)
    requires h.amount == 2.0 && h.costBasis == 2500.0
    ensures CalculatePosition(h, None) ==
            Some(Position(h.symbol, h.chain, 2.0, Some(5000.0), 0.0, -5000.0, -100.0, false, None))
  {
    Round2Exact(500000);
    Round2Exact(0);
    Round2Exact(-500000);
    Round2Exact(-10000);
  }
}
