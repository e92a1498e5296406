/** Performance metrics over a wallet's history of portfolio snapshots. */
module Performance {
  import opened Wrappers

  /** A snapshot as read from the history: each key may be missing. */
  datatype Snapshot = Snapshot(snapshotTime: Option<string>, totalValue: Option<real>, totalPnl: Option<real>)

  /** One point of the timeline. */
  datatype TimelinePoint = TimelinePoint(snapshotTime: Option<string>, totalValue: real, totalPnl: real, roi: real)

  datatype Metrics = Metrics(initialValue: real, latestValue: real, totalPnl: real, history: seq<TimelinePoint>)

  /** `history[0].get("total_value") or 1.0`: a missing or zero first value is replaced by 1.0. */
  function InitialValue(first: Snapshot): (v: real)
    ensures v != 0.0
    ensures first.totalValue.Some? && first.totalValue.value != 0.0 ==> v == first.totalValue.value
  {
    if first.totalValue.Some? && first.totalValue.value != 0.0 then first.totalValue.value else 1.0
  }

  /** The return on investment of a value against the initial value; the zero guard never fires. */
  function Roi(value: real, initial: real): real {
    if initial != 0.0 then (value - initial) / initial else 0.0
  }

  function Point(s: Snapshot, initial: real): TimelinePoint {
    TimelinePoint(s.snapshotTime, s.totalValue.GetOr(0.0), s.totalPnl.GetOr(0.0), Roi(s.totalValue.GetOr(0.0), initial))
  }

  /** The metrics of a history: none for an empty one. */
  function MetricsOf(history: seq<Snapshot>): Option<Metrics> {
    if |history| == 0 then None
    else
      var initial := InitialValue(history[0]);
      var latest := history[|history| - 1];
      Some(Metrics(initial, latest.totalValue.GetOr(0.0), latest.totalPnl.GetOr(0.0),
                   seq(|history|, i requires 0 <= i < |history| => Point(history[i], initial))))
  }

  /** `compute_performance_metrics`: builds the timeline point by point. */
  method ComputePerformanceMetrics(history: seq<Snapshot>) returns (r: Option<Metrics>)
    ensures r == MetricsOf(history)
  {
    if |history| == 0 {
      return None;
    }
    var initialValue := if history[0].totalValue.Some? && history[0].totalValue.value != 0.0
                        then history[0].totalValue.value else 1.0;
    var latest := history[|history| - 1];
    var timeline: seq<TimelinePoint> := [];
    for i := 0 to |history|
      invariant |timeline| == i
      invariant forall j :: 0 <= j < i ==> timeline[j] == Point(history[j], initialValue)
    {
      var h := history[i];
      var totalValue := h.totalValue.GetOr(0.0);
      var pnl := h.totalPnl.GetOr(0.0);
      var roi := if initialValue != 0.0 then (totalValue - initialValue) / initialValue else 0.0;
      timeline := timeline + [TimelinePoint(h.snapshotTime, totalValue, pnl, roi)];
    }
    assert initialValue == InitialValue(history[0]);
    assert timeline == seq(|history|, i requires 0 <= i < |history| => Point(history[i], initialValue));
    r := Some(Metrics(initialValue, latest.totalValue.GetOr(0.0), latest.totalPnl.GetOr(0.0), timeline));
  }

  /**
   * The timeline has one point per snapshot, in order, copying its time,
   * value and pnl (0 when missing), and each value is recovered from its
   * return: value == initial * (1 + roi).
   */
  lemma TimelineMatchesHistory(history: seq<Snapshot>)
    requires |history| > 0
    ensures var m := MetricsOf(history).value;
            && |m.history| == |history|
            && forall i :: 0 <= i < |history| ==>
                 && m.history[i].snapshotTime == history[i].snapshotTime
                 && m.history[i].totalValue == history[i].totalValue.GetOr(0.0)
                 && m.history[i].totalPnl == history[i].totalPnl.GetOr(0.0)
                 && m.history[i].totalValue == m.initialValue * (1.0 + m.history[i].roi)
  {
    var m := MetricsOf(history).value;
    forall i | 0 <= i < |history|
      ensures m.history[i].totalValue == m.initialValue * (1.0 + m.history[i].roi)
    {
      var v, init := m.history[i].totalValue, m.initialValue;
      assert m.history[i].roi == (v - init) / init;
      assert ((v - init) / init) * init == v - init;
    }
  }

  /** The first point's return is zero whenever the first snapshot has a nonzero value. */
  lemma FirstRoiZero(history: seq<Snapshot>)
    requires |history| > 0 && history[0].totalValue.Some? && history[0].totalValue.value != 0.0
    ensures MetricsOf(history).value.history[0].roi == 0.0
  {
  }

  /** The latest value and pnl are the last snapshot's, 0 when missing. */
  lemma LatestFromLastSnapshot(history: seq<Snapshot>)
    requires |history| > 0
    ensures MetricsOf(history).value.latestValue == history[|history| - 1].totalValue.GetOr(0.0)
    ensures MetricsOf(history).value.totalPnl == history[|history| - 1].totalPnl.GetOr(0.0)
  {
  }

  /** A first snapshot with a zero or missing value makes the initial value 1.0. */
  lemma ZeroStartBecomesOne(history: seq<Snapshot>)
    requires |history| > 0 && (history[0].totalValue.None? || history[0].totalValue.value == 0.0)
    ensures MetricsOf(history).value.initialValue == 1.0
  {
  }
}
