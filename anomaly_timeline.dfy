/**
 * The anomaly timeline: the chart points drawn from the history and the
 * click handler that selects an anomalous point.
 */
module AnomalyTimeline {
  import opened Wrappers
  import opened Json
  import opened AnomalyStore

  /** One chart point; `isAnomaly` is `None` where the reading has no flag. */
  datatype ChartPoint = ChartPoint(index: nat, score: Value, isAnomaly: Option<Value>, fullData: Record)

  /** `r.anomaly_score || 0`: the score when it is truthy, 0 otherwise. */
  function Score(r: Record): (v: Value)
    ensures FieldTruthy(r, "anomaly_score") ==> v == r["anomaly_score"]
    ensures !FieldTruthy(r, "anomaly_score") ==> v == Num(0.0)
  {
    if FieldTruthy(r, "anomaly_score") then r["anomaly_score"] else Num(0.0)
  }

  /**
   * `chartData`: one point per reading, in store order, carrying its position,
   * its score, its flag and the reading itself. The threshold is not an input:
   * it only positions the reference line.
   */
  function ChartData(readings: seq<Record>): (pts: seq<ChartPoint>)
    ensures |pts| == |readings|
    ensures forall i :: 0 <= i < |pts| ==> pts[i].index == i && pts[i].fullData == readings[i]
    ensures forall i :: 0 <= i < |pts| ==> pts[i].isAnomaly == Get(readings[i], "is_anomaly")
    ensures forall i :: 0 <= i < |pts| ==> pts[i].score == Score(readings[i])
  {
    seq(|readings|, i requires 0 <= i < |readings| =>
      ChartPoint(i, Score(readings[i]), Get(readings[i], "is_anomaly"), readings[i]))
  }

  /** The store action a click on `data` dispatches, if any: `data && data.isAnomaly`. */
  function DotClick(data: Option<ChartPoint>): (a: Option<Action>)
    ensures a.Some? <==> data.Some? && data.value.isAnomaly.Some? && Truthy(data.value.isAnomaly.value)
    ensures a.Some? ==> a.value == SelectAnomaly(data.value.fullData)
  {
    match data
    case Some(p) =>
      if p.isAnomaly.Some? && Truthy(p.isAnomaly.value) then Some(SelectAnomaly(p.fullData)) else None
    case None => None
  }

  /**
   * A click on a chart point selects that point's reading exactly when the
   * reading is anomalous, so every click the timeline dispatches is guarded.
   */
  lemma ChartClickSelectsIffAnomalous(readings: seq<Record>, i: nat)
    requires i < |readings|
    ensures DotClick(Some(ChartData(readings)[i])).Some? <==> IsAnomalous(readings[i])
    ensures DotClick(Some(ChartData(readings)[i])).Some? ==>
      DotClick(Some(ChartData(readings)[i])).value == SelectAnomaly(readings[i])
    ensures DotClick(Some(ChartData(readings)[i])).Some? ==> Guarded(DotClick(Some(ChartData(readings)[i])).value)
  {
  }

  /**
   * The actions a sequence of clicks on the chart points at positions
   * `clicks` dispatches, in click order; a click on a normal point dispatches
   * nothing. Every one of them is guarded.
   */
  function ClickActions(readings: seq<Record>, clicks: seq<nat>): (acts: seq<Action>)
    requires forall j :: 0 <= j < |clicks| ==> clicks[j] < |readings|
    ensures |acts| <= |clicks|
    ensures forall j :: 0 <= j < |acts| ==> Guarded(acts[j])
    decreases |clicks|
  {
    if clicks == [] then []
    else
      var first := DotClick(Some(ChartData(readings)[clicks[0]]));
      ChartClickSelectsIffAnomalous(readings, clicks[0]);
      var rest := ClickActions(readings, clicks[1..]);
      if first.Some? then [first.value] + rest else rest
  }

  /** However the user clicks on the chart, the selection stays an anomalous reading. */
  lemma ChartClicksKeepSelectionAnomalous(s: StoreState, readings: seq<Record>, clicks: seq<nat>)
    requires SelectionAnomalous(s)
    requires forall j :: 0 <= j < |clicks| ==> clicks[j] < |readings|
    ensures SelectionAnomalous(Run(s, ClickActions(readings, clicks)))
  {
    GuardedRunSelectsAnomalies(s, ClickActions(readings, clicks));
  }

  /** `handleDotClick`: selects the point's reading when it is anomalous and changes nothing otherwise. */
  method HandleDotClick(store: Store, data: Option<ChartPoint>)
    requires store.Valid()
    modifies store
    ensures store.Valid()
    ensures DotClick(data).Some? ==> store.State() == Apply(old(store.State()), DotClick(data).value)
    ensures DotClick(data).None? ==> store.State() == old(store.State())
  {
    if data.Some? && data.value.isAnomaly.Some? && Truthy(data.value.isAnomaly.value) {
      store.SelectAnomaly(data.value.fullData);
    }
  }
}
