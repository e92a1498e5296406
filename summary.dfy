/** Portfolio summary: total value and total profit and loss over a list of positions. */
module Summary {
  import opened Wrappers
  import opened Numbers
  import opened Holdings

  /** `p.get("current_value", 0.0)`. */
  function ValueOf(p: Record): real { p.currentValue.GetOr(0.0) }

  /** `p.get("pnl", 0.0)`. */
  function PnlOf(p: Record): real { p.pnl.GetOr(0.0) }

  /** `calculate_total_value`: the sum of the current values, a missing one counting 0. */
  function CalculateTotalValue(ps: seq<Record>): (r: real)
    ensures |ps| == 0 ==> r == 0.0
    ensures (forall i :: 0 <= i < |ps| ==> ValueOf(ps[i]) >= 0.0) ==> r >= 0.0
  {
    SumSign(ps, ValueOf);
    Sum(ps, ValueOf)
  }

  /** `calculate_total_pnl`: the sum of the profits and losses, a missing one counting 0. */
  function CalculateTotalPnl(ps: seq<Record>): (r: real)
    ensures |ps| == 0 ==> r == 0.0
    ensures (forall i :: 0 <= i < |ps| ==> PnlOf(ps[i]) >= 0.0) ==> r >= 0.0
    ensures (forall i :: 0 <= i < |ps| ==> PnlOf(ps[i]) <= 0.0) ==> r <= 0.0
  {
    SumSign(ps, PnlOf);
    Sum(ps, PnlOf)
  }

  /** `{"total_value": ..., "total_pnl": ...}`, both rounded to cents. */
  datatype PortfolioSummary = PortfolioSummary(totalValue: real, totalPnl: real)

  /** `build_portfolio_summary`: each total within half a cent of the exact one, and on a whole cent. */
  function BuildPortfolioSummary(ps: seq<Record>): (r: PortfolioSummary)
    ensures -0.005 <= r.totalValue - CalculateTotalValue(ps) <= 0.005
    ensures -0.005 <= r.totalPnl - CalculateTotalPnl(ps) <= 0.005
    ensures Round2(r.totalValue) == r.totalValue && Round2(r.totalPnl) == r.totalPnl
  {
    Round2Close(CalculateTotalValue(ps));
    Round2Close(CalculateTotalPnl(ps));
    Round2Idempotent(CalculateTotalValue(ps));
    Round2Idempotent(CalculateTotalPnl(ps));
    PortfolioSummary(Round2(CalculateTotalValue(ps)), Round2(CalculateTotalPnl(ps)))
  }

  /** No positions: both totals are zero. */
  lemma EmptySummary()
    ensures BuildPortfolioSummary([]) == PortfolioSummary(0.0, 0.0)
  {
    Round2Exact(0);
  }

  /** A position without a value or a pnl adds nothing to the totals. */
  lemma MissingFieldsCountZero(ps: seq<Record>, p: Record)
    requires p.currentValue.None? && p.pnl.None?
    ensures CalculateTotalValue(ps + [p]) == CalculateTotalValue(ps)
    ensures CalculateTotalPnl(ps + [p]) == CalculateTotalPnl(ps)
  {
    assert (ps + [p])[..|ps + [p]| - 1] == ps;
  }

  /** The totals do not depend on the order of the positions. */
  lemma SummaryOrderIndependent(ps: seq<Record>, qs: seq<Record>)
    requires multiset(ps) == multiset(qs)
    ensures BuildPortfolioSummary(ps) == BuildPortfolioSummary(qs)
  {
    SumPermutation(ps, qs, ValueOf);
    SumPermutation(ps, qs, PnlOf);
  }

  /** The totals of two lists together are the sums of their totals (before rounding). */
  lemma TotalsAdd(ps: seq<Record>, qs: seq<Record>)
    ensures CalculateTotalValue(ps + qs) == CalculateTotalValue(ps) + CalculateTotalValue(qs)
    ensures CalculateTotalPnl(ps + qs) == CalculateTotalPnl(ps) + CalculateTotalPnl(qs)
  {
    SumAppend(ps, qs, ValueOf);
    SumAppend(ps, qs, PnlOf);
  }
}
