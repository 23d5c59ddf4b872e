/**
 * The attack comparison panel: per-feature averages of attack and normal
 * samples, and the SVM detection run on the first attack samples.
 */
module AttackComparison {
  import opened Wrappers
  import opened Json
  import opened Gateway
  import opened Aggregates
  import AttackGen

  /** The features the panel compares, under the dataset's capitalised names. */
  const FeatureNames: seq<string> := [
    "Accelerometer1RMS", "Accelerometer2RMS", "Current", "Pressure",
    "Temperature", "Thermocouple", "Voltage", "VolumeFlowRateRMS"]

  /** The flow column under the normal dataset's own name, which has spaces. */
  const DatasetFlowKey: string := "Volume Flow RateRMS"

  /** At most this many attack samples are sent to the detector. */
  const BatchWindow: nat := 10

  /** The sample key a feature's average reads: only the flow feature is renamed. */
  function SourceKey(feature: string): (key: string)
    ensures feature == "VolumeFlowRateRMS" ==> key == DatasetFlowKey
    ensures feature != "VolumeFlowRateRMS" ==> key == feature
  {
    if feature == "VolumeFlowRateRMS" then DatasetFlowKey else feature
  }

  /**
   * `calculateAverages`: for each feature, the mean of its source column with
   * missing or falsy values read as 0; `None` is the NaN of an empty sample list.
   */
  function Averages(samples: seq<Record>): (avgs: map<string, Option<real>>)
    ensures avgs.Keys == set f | f in FeatureNames
    ensures forall f :: f in avgs ==> avgs[f] == Mean(Column(samples, SourceKey(f)))
  {
    map f | f in FeatureNames :: Mean(Column(samples, SourceKey(f)))
  }

  /** `calculateAverages` as written: fills the averages one feature at a time. */
  method CalculateAverages(samples: seq<Record>) returns (avgs: map<string, Option<real>>)
    ensures avgs == Averages(samples)
  {
    avgs := map[];
    var i := 0;
    while i < |FeatureNames|
      invariant 0 <= i <= |FeatureNames|
      invariant forall f :: f in avgs <==> f in FeatureNames[..i]
      invariant forall f :: f in avgs ==> avgs[f] == Mean(Column(samples, SourceKey(f)))
    {
      var feature := FeatureNames[i];
      var key := SourceKey(feature);
      var values := Column(samples, key);
      var avg := if |values| == 0 then None else Some(Sum(values) / (|values| as real));
      avgs := avgs[feature := avg];
      assert FeatureNames[..i + 1] == FeatureNames[..i] + [feature];
      i := i + 1;
    }
    assert FeatureNames[..i] == FeatureNames;
  }

  /**
   * Samples that carry their flow under `VolumeFlowRateRMS` and not under the
   * dataset's spaced name, as generated attack samples do, always average a
   * flow of 0.
   */
  lemma {:induction false} FlowAverageIgnoresUnspacedKey(samples: seq<Record>)
    requires |samples| > 0
    requires forall i :: 0 <= i < |samples| ==> DatasetFlowKey !in samples[i]
    ensures Averages(samples)["VolumeFlowRateRMS"] == Some(0.0)
  {
    var c := Column(samples, DatasetFlowKey);
    assert forall i :: 0 <= i < |c| ==> c[i] == 0.0;
    SumOfZeros(c);
    assert Sum(c) / (|c| as real) == 0.0;
  }

  /**
   * A non-empty batch from the attack generator shows a flow average of 0 in
   * the comparison, whatever flow values its records carry.
   */
  lemma GeneratedFlowAverageIsZero(records: seq<AttackGen.AttackRecord>)
    requires |records| > 0
    ensures var samples := seq(|records|, i requires 0 <= i < |records| => records[i].ToRecord());
      Averages(samples)["VolumeFlowRateRMS"] == Some(0.0)
  {
    var samples := seq(|records|, i requires 0 <= i < |records| => records[i].ToRecord());
    FlowAverageIgnoresUnspacedKey(samples);
  }

  /** The reading keys of the SVM request that copy a sample column, and the column each copies. */
  const CopiedColumns: map<string, string> := map[
    "Accelerometer1RMS" := "Accelerometer1RMS",
    "Accelerometer2RMS" := "Accelerometer2RMS",
    "current" := "Current",
    "pressure" := "Pressure",
    "temperature" := "Temperature",
    "thermocouple" := "Thermocouple",
    "voltage" := "Voltage"]

  /**
   * The SVM request built from one attack sample: lower-case channel names,
   * the flow from `VolumeFlowRateRMS` or else the dataset's spaced name, and
   * `datetime` in seconds. `parseMillis` is `new Date(...).getTime()`, `None`
   * for an invalid date; undefined values are dropped as `JSON.stringify` does.
   */
  function SampleToReading(sample: Record, parseMillis: Option<Value> -> Option<real>): (r: Record)
    ensures "datetime" in r
    ensures r["datetime"] == (match parseMillis(Get(sample, "datetime"))
                              case Some(ms) => Num(ms / 1000.0)
                              case None => Null)
    ensures Get(r, "VolumeFlowRateRMS") == Or(Get(sample, "VolumeFlowRateRMS"), Get(sample, DatasetFlowKey))
    ensures forall k :: k in CopiedColumns ==> Get(r, k) == Get(sample, CopiedColumns[k])
    ensures forall k :: k in r ==> k == "datetime" || k == "VolumeFlowRateRMS" || k in CopiedColumns
  {
    var datetime := match parseMillis(Get(sample, "datetime"))
      case Some(ms) => Num(ms / 1000.0)
      case None => Null;
    var channels := map k | k in CopiedColumns && CopiedColumns[k] in sample :: sample[CopiedColumns[k]];
    WithOpt(channels, "VolumeFlowRateRMS", Or(Get(sample, "VolumeFlowRateRMS"), Get(sample, DatasetFlowKey)))["datetime" := datetime]
  }

  /**
   * The detector's flag for each of the first min(10, n) samples, in sample
   * order; a rejected call counts as not anomalous.
   */
  function BatchDetections(
    samples: seq<Record>,
    svm: Record -> Result<SvmDetection>,
    parseMillis: Option<Value> -> Option<real>): (flags: seq<bool>)
    ensures |flags| == if |samples| < BatchWindow then |samples| else BatchWindow
    ensures forall i :: 0 <= i < |flags| ==>
      (flags[i] <==> svm(SampleToReading(samples[i], parseMillis)).Ok?
                     && svm(SampleToReading(samples[i], parseMillis)).value.isAnomaly)
  {
    var window := if |samples| <= BatchWindow then samples else samples[..BatchWindow];
    seq(|window|, i requires 0 <= i < |window| =>
      var r := svm(SampleToReading(window[i], parseMillis));
      r.Ok? && r.value.isAnomaly)
  }

  /** `detectedCount`: the anomalous detections of the batch, never more than min(10, n). */
  function DetectedCount(
    samples: seq<Record>,
    svm: Record -> Result<SvmDetection>,
    parseMillis: Option<Value> -> Option<real>): (n: nat)
    ensures n <= |samples| && n <= BatchWindow
  {
    var flags := BatchDetections(samples, svm, parseMillis);
    CountTrue(flags)
  }

  /** The panel's state. */
  class ComparisonView {
    var normalData: Option<SampleBatch>
    var attackStats: Option<map<string, Option<real>>>
    var normalStats: Option<map<string, Option<real>>>
    var isLoading: bool

    constructor ()
      ensures normalData == None && attackStats == None && normalStats == None && !isLoading
    {
      normalData := None;
      attackStats := None;
      normalStats := None;
      isLoading := false;
    }

    /**
     * `loadComparisonData`: asks for as many normal samples as the attack
     * batch reports, averages both, then runs the batch detection and answers
     * its count. A rejected sample request leaves the panel's data as it was.
     */
    method LoadComparisonData(
      attackData: AttackBatch,
      getSample: int -> Result<SampleBatch>,
      svm: Record -> Result<SvmDetection>,
      parseMillis: Option<Value> -> Option<real>)
      returns (detected: Option<nat>)
      modifies this
      ensures !isLoading
      ensures getSample(attackData.count).Fail? ==>
        && detected == None
        && normalData == old(normalData)
        && attackStats == old(attackStats)
        && normalStats == old(normalStats)
      ensures getSample(attackData.count).Ok? ==>
        && normalData == Some(getSample(attackData.count).value)
        && attackStats == Some(Averages(attackData.samples))
        && normalStats == Some(Averages(getSample(attackData.count).value.samples))
        && detected == Some(DetectedCount(attackData.samples, svm, parseMillis))
    {
      isLoading := true;
      var normal := getSample(attackData.count);
      if normal.Fail? {
        isLoading := false;
        return None;
      }
      normalData := Some(normal.value);
      var attackAvg := CalculateAverages(attackData.samples);
      var normalAvg := CalculateAverages(normal.value.samples);
      attackStats := Some(attackAvg);
      normalStats := Some(normalAvg);
      detected := Some(DetectedCount(attackData.samples, svm, parseMillis));
      isLoading := false;
    }
  }
}
