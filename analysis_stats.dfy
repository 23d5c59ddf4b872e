/**
 * The statistics panel: counts, the mean score, the per-sensor summary and
 * the most volatile sensor of the history.
 */
module AnalysisStats {
  import opened Wrappers
  import opened Json
  import opened Aggregates
  import AnomalyStore

  /** The summary of one sensor column; `variance` is the range max - min. */
  datatype SensorStat = SensorStat(avg: real, max: real, min: real, variance: real)

  datatype Volatile = Volatile(name: string, variance: real)

  datatype Stats = Stats(
    totalReadings: nat,
    anomalyCount: nat,
    normalCount: int,
    detectionRate: real,
    avgScore: real,
    mostVolatile: Volatile,
    sensorStats: map<string, SensorStat>)

  /** The summary of a non-empty column: its mean, maximum, minimum and range. */
  function ChannelStat(xs: seq<real>): (st: SensorStat)
    requires |xs| > 0
    ensures st.avg == Mean(xs).value
    ensures st.max in xs && st.min in xs
    ensures forall i :: 0 <= i < |xs| ==> st.min <= xs[i] <= st.max
    ensures st.min <= st.avg <= st.max
    ensures st.variance == st.max - st.min >= 0.0
  {
    MeanBetween(xs);
    SensorStat(Mean(xs).value, Max(xs), Min(xs), Max(xs) - Min(xs))
  }

  /**
   * The position a stable sort by decreasing value puts first: the earliest
   * position holding the maximum.
   */
  function FirstMax(vs: seq<real>): (i: nat)
    requires |vs| > 0
    ensures i < |vs|
    ensures forall j :: 0 <= j < |vs| ==> vs[j] <= vs[i]
    ensures forall j :: 0 <= j < i ==> vs[j] < vs[i]
  {
    if |vs| == 1 then 0
    else
      var init := vs[..|vs| - 1];
      var i := FirstMax(init);
      assert forall j :: 0 <= j < |vs| - 1 ==> init[j] == vs[j];
      if vs[|vs| - 1] > vs[i] then |vs| - 1 else i
  }

  /**
   * The entries of `sensorStats` in insertion order, sorted stably by
   * decreasing variance; the first one. Its variance is the largest, and every
   * sensor listed before it has a strictly smaller one.
   */
  function MostVolatile(sensorStats: map<string, SensorStat>): (v: Volatile)
    requires forall k :: k in AnomalyStore.SensorNames ==> k in sensorStats
    ensures v.name in sensorStats && v.variance == sensorStats[v.name].variance
    ensures forall j :: 0 <= j < |AnomalyStore.SensorNames| ==>
      sensorStats[AnomalyStore.SensorNames[j]].variance <= v.variance
    ensures exists i ::
      && 0 <= i < |AnomalyStore.SensorNames|
      && v.name == AnomalyStore.SensorNames[i]
      && forall j :: 0 <= j < i ==> sensorStats[AnomalyStore.SensorNames[j]].variance < v.variance
  {
    var names := AnomalyStore.SensorNames;
    var vs := seq(|names|, i requires 0 <= i < |names| => sensorStats[names[i]].variance);
    var i := FirstMax(vs);
    assert forall j :: 0 <= j < |names| ==> vs[j] == sensorStats[names[j]].variance;
    Volatile(names[i], vs[i])
  }

  /** The per-sensor table `sensorStats` would hold once every sensor has been summarised. */
  function SensorTable(readings: seq<Record>): (t: map<string, SensorStat>)
    requires |readings| > 0
    ensures t.Keys == set k | k in AnomalyStore.SensorNames
    ensures forall k :: k in t ==> t[k] == ChannelStat(Column(readings, k))
  {
    map k | k in AnomalyStore.SensorNames :: ChannelStat(Column(readings, k))
  }

  /**
   * The `stats` memo: `None` for an empty history, otherwise the counts, the
   * mean score, the sensor table filled one sensor at a time, and the most
   * volatile sensor.
   */
  method ComputeStats(readings: seq<Record>, anomalies: seq<Record>) returns (stats: Option<Stats>)
    ensures stats.None? <==> |readings| == 0
    ensures stats.Some? ==>
      var st := stats.value;
      && st.totalReadings == |readings|
      && st.anomalyCount == |anomalies|
      && st.normalCount == |readings| - |anomalies|
      && st.detectionRate == (|anomalies| as real) / (|readings| as real) * 100.0
      && st.avgScore == Mean(Column(readings, "anomaly_score")).value
      && st.sensorStats == SensorTable(readings)
      && st.mostVolatile == MostVolatile(st.sensorStats)
  {
    if |readings| == 0 {
      return None;
    }
    var anomalyCount := |anomalies|;
    var normalCount := |readings| - anomalyCount;
    var avgScore := Sum(Column(readings, "anomaly_score")) / (|readings| as real);
    var sensorStats := SummariseSensors(readings);
    var mostVolatile := MostVolatile(sensorStats);
    stats := Some(Stats(
      |readings|, anomalyCount, normalCount,
      (anomalyCount as real) / (|readings| as real) * 100.0,
      avgScore, mostVolatile, sensorStats));
  }

  /** The `forEach` over the eight sensors, filling the table one sensor at a time. */
  method SummariseSensors(readings: seq<Record>) returns (sensorStats: map<string, SensorStat>)
    requires |readings| > 0
    ensures sensorStats == SensorTable(readings)
  {
    sensorStats := map[];
    var names := AnomalyStore.SensorNames;
    var i := 0;
    while i < |names|
      invariant 0 <= i <= |names|
      invariant forall k :: k in sensorStats <==> k in names[..i]
      invariant forall k :: k in sensorStats ==> sensorStats[k] == ChannelStat(Column(readings, k))
    {
      var values := Column(readings, names[i]);
      var avg := Sum(values) / (|values| as real);
      var mx := Max(values);
      var mn := Min(values);
      assert SensorStat(avg, mx, mn, mx - mn) == ChannelStat(values);
      TableStep(readings, names, i, sensorStats);
      sensorStats := sensorStats[names[i] := SensorStat(avg, mx, mn, mx - mn)];
      i := i + 1;
    }
    TableComplete(readings, sensorStats);
  }

  /** A table holding exactly the summaries of all the sensors is the sensor table. */
  lemma TableComplete(readings: seq<Record>, sensorStats: map<string, SensorStat>)
    requires |readings| > 0
    requires forall k :: k in sensorStats <==> k in AnomalyStore.SensorNames[..|AnomalyStore.SensorNames|]
    requires forall k :: k in sensorStats ==> sensorStats[k] == ChannelStat(Column(readings, k))
    ensures sensorStats == SensorTable(readings)
  {
    assert AnomalyStore.SensorNames[..|AnomalyStore.SensorNames|] == AnomalyStore.SensorNames;
  }

  /** Summarising one more sensor extends the table by exactly that sensor's entry. */
  lemma TableStep(readings: seq<Record>, names: seq<string>, i: nat, sensorStats: map<string, SensorStat>)
    requires |readings| > 0 && i < |names|
    requires forall k :: k in sensorStats <==> k in names[..i]
    requires forall k :: k in sensorStats ==> sensorStats[k] == ChannelStat(Column(readings, k))
    ensures var t := sensorStats[names[i] := ChannelStat(Column(readings, names[i]))];
      && (forall k :: k in t <==> k in names[..i + 1])
      && (forall k :: k in t ==> t[k] == ChannelStat(Column(readings, k)))
  {
    assert names[..i + 1] == names[..i] + [names[i]];
  }

  /** The detection rate is a percentage whenever the store invariant holds. */
  lemma DetectionRateIsPercentage(readingCount: nat, anomalyCount: nat)
    requires 0 < readingCount && anomalyCount <= readingCount
    ensures 0.0 <= (anomalyCount as real) / (readingCount as real) * 100.0 <= 100.0
  {
    var a := anomalyCount as real;
    var n := readingCount as real;
    assert a / n <= 1.0 by {
      assert a <= n;
      assert a / n <= n / n;
    }
  }

  /** In every reachable store state the normal count is non-negative and the detection rate a percentage. */
  lemma ReachableCountsAreSane(actions: seq<AnomalyStore.Action>)
    ensures var s := AnomalyStore.Run(AnomalyStore.Initial(), actions);
      && |s.readings| - |s.anomalies| >= 0
      && (|s.readings| > 0 ==>
            0.0 <= (|s.anomalies| as real) / (|s.readings| as real) * 100.0 <= 100.0)
  {
    var s := AnomalyStore.Run(AnomalyStore.Initial(), actions);
    AnomalyStore.ReachableBounded(actions);
    if |s.readings| > 0 {
      DetectionRateIsPercentage(|s.readings|, |s.anomalies|);
    }
  }
}
