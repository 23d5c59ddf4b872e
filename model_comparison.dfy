/**
 * The three-model comparison: the last-10 window of the history, the three
 * detector payloads, the sequential calls, the verdict rows and the vote.
 */
module ModelComparison {
  import opened Wrappers
  import opened Json
  import opened Gateway
  import opened Aggregates
  import AnomalyStore
  import ResearchLog

  const WindowSize: nat := 10

  /** The channels of a reading, under the names the detectors' request schema uses. */
  const Channels: seq<string> := AnomalyStore.SensorNames

  /** `readings.slice(-10)`: the newest min(10, n) readings in store order. */
  function RecentReadings(readings: seq<Record>): (w: seq<Record>)
    ensures |w| == if |readings| < WindowSize then |readings| else WindowSize
    ensures w == readings[|readings| - |w|..]
  {
    AnomalyStore.Newest(readings, WindowSize)
  }

  /**
   * The SVM payload: `datetime` in seconds and the channels of the latest
   * reading copied as they are; a missing channel stays missing.
   */
  function SvmPayload(latest: Record): (p: Record)
    ensures "datetime" in p && p["datetime"] == MillisToSeconds(Get(latest, "timestamp"))
    ensures forall k :: k in p ==> k == "datetime" || k in Channels
    ensures forall k :: k in Channels ==> (k in p <==> k in latest)
    ensures forall k :: k in Channels && k in latest ==> p[k] == latest[k]
  {
    (map k | k in Channels && k in latest :: latest[k])["datetime" := MillisToSeconds(Get(latest, "timestamp"))]
  }

  /** One element of the LSTM and battery payloads: every channel present, a missing or falsy one as 0. */
  function SequenceEntry(r: Record): (p: Record)
    ensures "datetime" in p && p["datetime"] == MillisToSeconds(Get(r, "timestamp"))
    ensures forall k :: k in p <==> k == "datetime" || k in Channels
    ensures forall k :: k in Channels ==> p[k] == Num(NumOr0(r, k))
  {
    (map k | k in Channels :: Num(NumOr0(r, k)))["datetime" := MillisToSeconds(Get(r, "timestamp"))]
  }

  /** The LSTM payload, and equally the battery payload: one entry per window reading, in window order. */
  function SequencePayload(window: seq<Record>): (ps: seq<Record>)
    ensures |ps| == |window|
    ensures forall i :: 0 <= i < |window| ==> ps[i] == SequenceEntry(window[i])
  {
    seq(|window|, i requires 0 <= i < |window| => SequenceEntry(window[i]))
  }

  /** A request the comparison sends to the backend. */
  datatype Request =
    | SvmRequest(reading: Record)
    | LstmRequest(sequence: seq<Record>)
    | BatteryRequest(sequence: seq<Record>)

  datatype ComparisonResults = ComparisonResults(
    svm: SvmDetection, lstm: LstmDetection, battery: BatteryDetection, timestamp: int)

  /** What the operator is told: the alert of the guard, the alert of a failure, or the new result. */
  datatype RunOutcome = NeedMoreReadings | ComparisonFailed | Compared

  /**
   * The requests of one run on a full window, in the order they are awaited:
   * SVM, then LSTM, then battery, stopping after the first that fails.
   */
  function Requests(
    window: seq<Record>,
    svm: Record -> Result<SvmDetection>,
    lstm: seq<Record> -> Result<LstmDetection>,
    battery: seq<Record> -> Result<BatteryDetection>): (rs: seq<Request>)
    requires |window| > 0
    ensures 1 <= |rs| <= 3
    ensures rs[0] == SvmRequest(SvmPayload(window[|window| - 1]))
    ensures |rs| >= 2 <==> svm(SvmPayload(window[|window| - 1])).Ok?
    ensures |rs| >= 2 ==> rs[1] == LstmRequest(SequencePayload(window))
    ensures |rs| == 3 <==> |rs| >= 2 && lstm(SequencePayload(window)).Ok?
    ensures |rs| == 3 ==> rs[2] == BatteryRequest(SequencePayload(window))
  {
    var p := SvmPayload(window[|window| - 1]);
    var q := SequencePayload(window);
    if svm(p).Fail? then [SvmRequest(p)]
    else if lstm(q).Fail? then [SvmRequest(p), LstmRequest(q)]
    else [SvmRequest(p), LstmRequest(q), BatteryRequest(q)]
  }

  /** The outcome of the three awaited calls: all three answers, or failure if any call rejects. */
  function Compare(
    window: seq<Record>,
    svm: Record -> Result<SvmDetection>,
    lstm: seq<Record> -> Result<LstmDetection>,
    battery: seq<Record> -> Result<BatteryDetection>,
    stamp: int): (r: Result<ComparisonResults>)
    requires |window| > 0
    ensures r.Ok? <==>
      && svm(SvmPayload(window[|window| - 1])).Ok?
      && lstm(SequencePayload(window)).Ok?
      && battery(SequencePayload(window)).Ok?
    ensures r.Ok? ==> r.value.svm == svm(SvmPayload(window[|window| - 1])).value
    ensures r.Ok? ==> r.value.lstm == lstm(SequencePayload(window)).value
    ensures r.Ok? ==> r.value.battery == battery(SequencePayload(window)).value
    ensures r.Ok? ==> r.value.timestamp == stamp
  {
    var p := SvmPayload(window[|window| - 1]);
    var q := SequencePayload(window);
    match (svm(p), lstm(q), battery(q))
    case (Ok(a), Ok(b), Ok(c)) => Ok(ComparisonResults(a, b, c, stamp))
    case _ => Fail("Comparison failed")
  }

  /** The event `runComparison` logs after storing a result. */
  function RunEvent(r: ComparisonResults): Record {
    map[
      "event" := Str("model_comparison_run"),
      "svm_score" := Num(r.svm.anomalyScore),
      "lstm_score" := Num(r.lstm.reconstructionError),
      "battery_score" := Num(r.battery.anomalyScore),
      "svm_anomaly" := Bool(r.svm.isAnomaly),
      "lstm_anomaly" := Bool(r.lstm.isAnomaly),
      "battery_anomaly" := Bool(r.battery.isSpoofed)]
  }

  /** One card of the comparison. */
  datatype Verdict = Verdict(
    model: string, confidence: real, score: real, isAnomaly: bool, approach: string, responseTime: string)

  /**
   * `comparisonData`: the three cards in fixed order. LSTM and battery have no
   * confidence of their own and show the placeholders 85 and 90.
   */
  function ComparisonData(results: Option<ComparisonResults>): (rows: Option<seq<Verdict>>)
    ensures rows.None? <==> results.None?
    ensures rows.Some? ==> |rows.value| == 3
    ensures rows.Some? ==> rows.value[0].isAnomaly == results.value.svm.isAnomaly
    ensures rows.Some? ==> rows.value[1].isAnomaly == results.value.lstm.isAnomaly
    ensures rows.Some? ==> rows.value[2].isAnomaly == results.value.battery.isSpoofed
    ensures rows.Some? ==>
      && rows.value[0].model == "SVM\n(Instant)"
      && rows.value[0].confidence == results.value.svm.confidence * 100.0
      && rows.value[0].score == Abs(results.value.svm.anomalyScore) >= 0.0
    ensures rows.Some? ==>
      && rows.value[1].model == "LSTM\n(Temporal)"
      && rows.value[1].confidence == 85.0
      && rows.value[1].score == results.value.lstm.reconstructionError * 100.0
    ensures rows.Some? ==>
      && rows.value[2].model == "Battery\n(Specialized)"
      && rows.value[2].confidence == 90.0
      && rows.value[2].score == results.value.battery.anomalyScore * 100.0
  {
    match results
    case None => None
    case Some(r) => Some([
      Verdict("SVM\n(Instant)", r.svm.confidence * 100.0, Abs(r.svm.anomalyScore),
              r.svm.isAnomaly, "Single-Point", "< 50ms"),
      Verdict("LSTM\n(Temporal)", 85.0, r.lstm.reconstructionError * 100.0,
              r.lstm.isAnomaly, "Sequential", "~ 100ms"),
      Verdict("Battery\n(Specialized)", 90.0, r.battery.anomalyScore * 100.0,
              r.battery.isSpoofed, "Voltage-Focused", "~ 80ms")])
  }

  /** The anomaly votes: how many cards say anomaly. */
  function Votes(rows: seq<Verdict>): (n: nat)
    ensures n <= |rows|
  {
    CountTrue(seq(|rows|, i requires 0 <= i < |rows| => rows[i].isAnomaly))
  }

  /** Consensus is declared only for 0 or 3 votes. */
  predicate Agreement(rows: seq<Verdict>) {
    Votes(rows) == 0 || Votes(rows) == 3
  }

  function B2N(b: bool): nat {
    if b then 1 else 0
  }

  /**
   * The vote counts the three detectors' flags, and the models agree exactly
   * when all three flags are equal.
   */
  lemma {:induction false} VoteCountsFlags(r: ComparisonResults)
    ensures var rows := ComparisonData(Some(r)).value;
      && Votes(rows) == B2N(r.svm.isAnomaly) + B2N(r.lstm.isAnomaly) + B2N(r.battery.isSpoofed)
      && (Agreement(rows) <==> r.svm.isAnomaly == r.lstm.isAnomaly == r.battery.isSpoofed)
  {
    var rows := ComparisonData(Some(r)).value;
    var flags := seq(|rows|, i requires 0 <= i < |rows| => rows[i].isAnomaly);
    assert flags == [r.svm.isAnomaly, r.lstm.isAnomaly, r.battery.isSpoofed];
    assert flags[1..][1..] == [r.battery.isSpoofed];
    assert flags[1..][1..][1..] == [];
    assert CountTrue(flags[1..][1..]) == B2N(r.battery.isSpoofed);
    assert CountTrue(flags[1..]) == B2N(r.lstm.isAnomaly) + B2N(r.battery.isSpoofed);
  }

  /**
   * With the backend's confidence `|score| / 100`, the SVM card's confidence
   * equals the score the card shows.
   */
  lemma SvmCardConfidenceIsScore(r: ComparisonResults)
    requires r.svm.confidence == Abs(r.svm.anomalyScore) / 100.0
    ensures ComparisonData(Some(r)).value[0].confidence == ComparisonData(Some(r)).value[0].score
  {
    var card := ComparisonData(Some(r)).value[0];
    assert card.confidence == r.svm.confidence * 100.0;
    assert card.score == Abs(r.svm.anomalyScore);
  }

  /** The comparison card: its stored result and busy flag. */
  class ComparisonPanel {
    var comparisonResults: Option<ComparisonResults>
    var isComparing: bool
    /** The requests sent so far, in the order they were awaited. */
    ghost var sent: seq<Request>

    constructor ()
      ensures comparisonResults == None && !isComparing && sent == []
    {
      comparisonResults := None;
      isComparing := false;
      sent := [];
    }

    /**
     * `runComparison` on the store's readings. `stamp` is the clock reading
     * stored with a result, `logStamp` and `iso` those of the log entry.
     */
    method RunComparison(
      readings: seq<Record>,
      svm: Record -> Result<SvmDetection>,
      lstm: seq<Record> -> Result<LstmDetection>,
      battery: seq<Record> -> Result<BatteryDetection>,
      stamp: int,
      logger: ResearchLog.ResearchLogger, logStamp: nat, iso: string)
      returns (outcome: RunOutcome)
      modifies this, logger`logs
      ensures |readings| < WindowSize ==>
        && outcome == NeedMoreReadings
        && sent == old(sent)
        && comparisonResults == old(comparisonResults)
        && isComparing == old(isComparing)
        && logger.logs == old(logger.logs)
      ensures |readings| >= WindowSize ==>
        var window := RecentReadings(readings);
        var r := Compare(window, svm, lstm, battery, stamp);
        && sent == old(sent) + Requests(window, svm, lstm, battery)
        && !isComparing
        && outcome == (if r.Ok? then Compared else ComparisonFailed)
        && comparisonResults == (if r.Ok? then Some(r.value) else old(comparisonResults))
        && logger.logs == old(logger.logs) +
             (if r.Ok? then [ResearchLog.Entry(logger.sessionId, logger.userId, RunEvent(r.value), logStamp, iso)] else [])
    {
      var recent := RecentReadings(readings);
      if |recent| < WindowSize {
        return NeedMoreReadings;
      }
      isComparing := true;
      var r := AwaitDetectors(recent, svm, lstm, battery, stamp);
      if r.Ok? {
        comparisonResults := Some(r.value);
        logger.Log(RunEvent(r.value), logStamp, iso);
        outcome := Compared;
      } else {
        outcome := ComparisonFailed;
      }
      isComparing := false;
    }

    /**
     * The body of the `try`: the SVM call on the latest reading, then the LSTM
     * and battery calls on the window, each awaited before the next is made;
     * the first rejected call ends the run.
     */
    method AwaitDetectors(
      window: seq<Record>,
      svm: Record -> Result<SvmDetection>,
      lstm: seq<Record> -> Result<LstmDetection>,
      battery: seq<Record> -> Result<BatteryDetection>,
      stamp: int)
      returns (r: Result<ComparisonResults>)
      requires |window| > 0
      modifies this`sent
      ensures sent == old(sent) + Requests(window, svm, lstm, battery)
      ensures r == Compare(window, svm, lstm, battery, stamp)
    {
      var latest := window[|window| - 1];
      var svmPayload := SvmPayload(latest);
      sent := sent + [SvmRequest(svmPayload)];
      var svmResult := svm(svmPayload);
      if svmResult.Fail? {
        return Fail("Comparison failed");
      }
      var lstmSequence := SequencePayload(window);
      sent := sent + [LstmRequest(lstmSequence)];
      var lstmResult := lstm(lstmSequence);
      if lstmResult.Fail? {
        return Fail("Comparison failed");
      }
      var batterySequence := SequencePayload(window);
      sent := sent + [BatteryRequest(batterySequence)];
      var batteryResult := battery(batterySequence);
      if batteryResult.Fail? {
        return Fail("Comparison failed");
      }
      r := Ok(ComparisonResults(svmResult.value, lstmResult.value, batteryResult.value, stamp));
    }
  }
}
