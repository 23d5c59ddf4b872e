/**
 * The backend's HTTP handlers: validation, length guards, the last-10
 * window, the response bodies and error statuses, and the streaming
 * severity ladder. The detectors' networks are parameters.
 */
module App {
  import opened Wrappers
  import opened Json
  import opened Gateway
  import opened Aggregates
  import opened Requests
  import LstmModel
  import AttackGen
  import ModelComparison

  /** The status FastAPI answers a body that fails validation with. */
  const ValidationStatus: int := 422
  const MinSequence: nat := 10
  /** The battery detector's fixed reconstruction-error threshold. */
  const BatteryThreshold: real := 0.05
  /** The SVM decision boundary: a score at or above it is an anomaly. */
  const SvmBoundary: real := 60.0

  /** `GET /api/health`: which detectors were loaded at start-up. */
  function HealthCheck(svmLoaded: bool, lstmLoaded: bool, batteryLoaded: bool): (h: Health)
    ensures h.status == "healthy"
    ensures h.svmLoaded == svmLoaded && h.lstmLoaded == lstmLoaded && h.batteryLoaded == batteryLoaded
  {
    Health("healthy", svmLoaded, lstmLoaded, batteryLoaded)
  }

  /** The SVM detector's decision: 1 for a score at or above 60, -1 otherwise. */
  function SvmPrediction(score: real): (p: int)
    ensures p == 1 || p == -1
    ensures p == 1 <==> score >= SvmBoundary
  {
    if score >= SvmBoundary then 1 else -1
  }

  /** Validates every element of a list body; the first invalid one rejects the list. */
  function ParseAll(bodies: seq<Record>): (r: Result<seq<SensorReading>>)
    ensures r.Ok? <==> forall i :: 0 <= i < |bodies| ==> ParseSensorReading(bodies[i]).Ok?
    ensures r.Ok? ==> |r.value| == |bodies|
    ensures r.Ok? ==> forall i :: 0 <= i < |bodies| ==> r.value[i] == ParseSensorReading(bodies[i]).value
  {
    if bodies == [] then Ok([])
    else
      var first := ParseSensorReading(bodies[0]);
      var rest := ParseAll(bodies[1..]);
      if first.Fail? then Fail(first.error)
      else if rest.Fail? then Fail(rest.error)
      else
        assert forall i :: 1 <= i < |bodies| ==> bodies[1..][i - 1] == bodies[i];
        Ok([first.value] + rest.value)
  }

  /**
   * `POST /api/anomaly/detect-svm`: the reading's nine values go to the
   * detector; the verdict is an anomaly exactly when the prediction is 1, the
   * confidence is |score| / 100 and the timestamp echoes the reading's.
   */
  function DetectSvm(body: Record, svmScore: seq<real> -> Result<real>): (resp: Response<SvmDetection>)
    ensures ParseSensorReading(body).Fail? ==> resp == Error(ValidationStatus, ParseSensorReading(body).error)
    ensures resp.Success? <==>
      ParseSensorReading(body).Ok? && svmScore(ToArray(ParseSensorReading(body).value)).Ok?
    ensures resp.Success? ==>
      var reading := ParseSensorReading(body).value;
      var score := svmScore(ToArray(reading)).value;
      && (resp.body.isAnomaly <==> SvmPrediction(score) == 1)
      && resp.body.anomalyScore == score
      && resp.body.confidence * 100.0 == Abs(score)
      && resp.body.timestamp == reading.datetime
    ensures resp.Error? ==> resp.status == ValidationStatus || resp.status == 500
  {
    match ParseSensorReading(body)
    case Fail(e) => Error(ValidationStatus, e)
    case Ok(reading) =>
      match svmScore(ToArray(reading))
      case Fail(e) => Error(500, e)
      case Ok(score) =>
        Success(SvmDetection(SvmPrediction(score) == 1, score, Abs(score) / 100.0, reading.datetime))
  }

  /** The detector input as written: `[r.to_array() for r in window]`. */
  function ArrayRows(window: seq<SensorReading>): seq<seq<real>> {
    seq(|window|, i requires 0 <= i < |window| => ToArray(window[i]))
  }

  /**
   * `POST /api/anomaly/detect-lstm` as written: fewer than ten readings are
   * refused with 400 before the detector runs; otherwise the nine-value
   * vectors of the last ten readings go to the detector, and any detector
   * error becomes a 500. The detector's flag is returned as it is, so the
   * answer is encoded only when that flag is a Python `bool`.
   */
  function DetectLstm(bodies: seq<Record>, lstm: LstmModel.LstmDetector): (resp: Response<LstmDetection>)
    ensures ParseAll(bodies).Fail? ==> resp == Error(ValidationStatus, ParseAll(bodies).error)
    ensures ParseAll(bodies).Ok? && |bodies| < MinSequence ==>
      resp == Error(400, "LSTM requires at least 10 sequential readings")
    ensures ParseAll(bodies).Ok? && |bodies| >= MinSequence ==>
      resp == LstmAnswer(lstm.Detect(ArrayRows(LstmModel.LastRows(ParseAll(bodies).value))), lstm.threshold)
  {
    match ParseAll(bodies)
    case Fail(e) => Error(ValidationStatus, e)
    case Ok(readings) =>
      if |readings| < MinSequence then Error(400, "LSTM requires at least 10 sequential readings")
      else
        LstmAnswer(lstm.Detect(ArrayRows(LstmModel.LastRows(readings))), lstm.threshold)
  }

  /** The LSTM handler's answer once the detector has run: its error is a 500, and its flag is encoded as it is. */
  function LstmAnswer(detected: Result<(Flag, real)>, threshold: real): (resp: Response<LstmDetection>)
    ensures detected.Fail? ==> resp == Error(500, detected.error)
    ensures detected.Ok? && !detected.value.0.PyBool? ==> resp == Error(500, EncodeFailure)
    ensures detected.Ok? && detected.value.0.PyBool? ==>
      resp == Success(LstmDetection(detected.value.0.Truth(), detected.value.1, threshold))
  {
    match detected
    case Fail(e) => Error(500, e)
    case Ok(result) =>
      match EncodeFlag(result.0)
      case Fail(e) => Error(500, e)
      case Ok(isAnomaly) => Success(LstmDetection(isAnomaly, result.1, threshold))
  }

  /**
   * Whatever detector is loaded, the handler as written never answers a
   * verdict: the flag it returns is a `numpy.bool_`, which cannot be encoded.
   */
  lemma DetectLstmNeverAnswers(bodies: seq<Record>, lstm: LstmModel.LstmDetector)
    ensures DetectLstm(bodies, lstm).Error?
    ensures ParseAll(bodies).Ok? ==> DetectLstm(bodies, lstm).status != ValidationStatus
  {
    if ParseAll(bodies).Ok? && |bodies| >= MinSequence {
      DetectorAnswerIsError(lstm, ArrayRows(LstmModel.LastRows(ParseAll(bodies).value)));
    }
  }

  /** Whatever rows it is given, the detector's answer returned as it is is an error. */
  lemma DetectorAnswerIsError(lstm: LstmModel.LstmDetector, rows: seq<seq<real>>)
    ensures LstmAnswer(lstm.Detect(rows), lstm.threshold).Error?
    ensures LstmAnswer(lstm.Detect(rows), lstm.threshold).status == 500
  {
    var detected := lstm.Detect(rows);
    assert detected.Ok? ==> detected.value.0.NumpyBool?;
  }

  /**
   * The detector the backend loads has its scaler fitted on the eight LSTM
   * columns, but the handler sends nine-value vectors: every request that
   * passes the length guard ends in a 500.
   */
  lemma DetectLstmAlwaysFails(bodies: seq<Record>, lstm: LstmModel.LstmDetector)
    requires lstm.width == |LstmModel.LstmFeatures|
    requires ParseAll(bodies).Ok? && |bodies| >= MinSequence
    ensures DetectLstm(bodies, lstm).Error? && DetectLstm(bodies, lstm).status == 500
  {
    var readings := ParseAll(bodies).value;
    var window := LstmModel.LastRows(readings);
    var rows := ArrayRows(window);
    assert |rows[0]| == ArrayWidth;
    assert lstm.Detect(rows).Fail?;
  }

  /** The detector row of a reading: `to_array` without its final voltage, i.e. the LSTM columns in order. */
  function LstmRow(r: SensorReading): (row: seq<real>)
    ensures |row| == |LstmModel.LstmFeatures|
    ensures row == ToArray(r)[..|LstmModel.LstmFeatures|]
    ensures row[0] == r.datetime && row[7] == r.volumeFlowRateRms
  {
    ToArray(r)[..8]
  }

  /** The detector input of the corrected handler: the LSTM columns of each reading. */
  function LstmRows(window: seq<SensorReading>): seq<seq<real>> {
    seq(|window|, i requires 0 <= i < |window| => LstmRow(window[i]))
  }

  /** `detect_lstm` sending the columns the scaler was fitted on and returning `bool(is_anomaly)`. */
  function DetectLstmCorrected(bodies: seq<Record>, lstm: LstmModel.LstmDetector): (resp: Response<LstmDetection>)
    ensures ParseAll(bodies).Fail? ==> resp == Error(ValidationStatus, ParseAll(bodies).error)
    ensures ParseAll(bodies).Ok? && |bodies| < MinSequence ==>
      resp == Error(400, "LSTM requires at least 10 sequential readings")
    ensures ParseAll(bodies).Ok? && |bodies| >= MinSequence ==>
      var window := LstmModel.LastRows(ParseAll(bodies).value);
      var detected := lstm.Detect(LstmRows(window));
      && (detected.Ok? ==> resp.Success?)
      && (detected.Fail? ==> resp == Error(500, detected.error))
  {
    match ParseAll(bodies)
    case Fail(e) => Error(ValidationStatus, e)
    case Ok(readings) =>
      if |readings| < MinSequence then Error(400, "LSTM requires at least 10 sequential readings")
      else
        var window := LstmModel.LastRows(readings);
        match lstm.Detect(LstmRows(window))
        case Fail(e) => Error(500, e)
        case Ok(result) => Success(LstmDetection(result.0.Truth(), result.1, lstm.threshold))
  }

  /**
   * With eight-column rows every valid request of ten or more readings gets
   * a verdict, anomalous exactly when the error of the last ten rows is
   * strictly above the detector's threshold.
   */
  lemma DetectLstmCorrectedAnswers(bodies: seq<Record>, lstm: LstmModel.LstmDetector)
    requires lstm.width == |LstmModel.LstmFeatures|
    requires ParseAll(bodies).Ok? && |bodies| >= MinSequence
    ensures DetectLstmCorrected(bodies, lstm).Success?
    ensures var window := LstmModel.LastRows(ParseAll(bodies).value);
      var rows := LstmRows(window);
      var body := DetectLstmCorrected(bodies, lstm).body;
      && body.threshold == lstm.threshold
      && body.reconstructionError == lstm.reconstructionError(rows)
      && (body.isAnomaly <==> lstm.reconstructionError(rows) > lstm.threshold)
  {
    var window := LstmModel.LastRows(ParseAll(bodies).value);
    var rows := LstmRows(window);
    assert |rows| == |window| == MinSequence;
    assert forall i :: 0 <= i < |rows| ==> |rows[i]| == |LstmModel.LstmFeatures|;
    assert LstmModel.HasWidth(rows, lstm.width);
    assert LstmModel.LastRows(rows) == rows;
    var detected := lstm.Detect(rows);
    assert detected.Ok?;
    assert DetectLstmCorrected(bodies, lstm) == Success(LstmDetection(detected.value.0.Truth(), detected.value.1, lstm.threshold));
  }

  /** The battery detector: the error its network gives a (time, voltage) window. */
  datatype BatteryDetector = BatteryDetector(reconstructionError: seq<(real, real)> -> real)
  {
    /**
     * `detect`: the last ten pairs; spoofed when the error is strictly above
     * 0.05. The error is a numpy float, so the flag is a `numpy.bool_`.
     */
    function Detect(pairs: seq<(real, real)>): (r: (Flag, real))
      ensures r.1 == reconstructionError(LstmModel.LastRows(pairs))
      ensures r.0.NumpyBool?
      ensures r.0.Truth() <==> r.1 > BatteryThreshold
    {
      var error := reconstructionError(LstmModel.LastRows(pairs));
      (NumpyBool(error > BatteryThreshold), error)
    }
  }

  /** The (datetime, voltage) pair of a reading. */
  function VoltagePair(r: SensorReading): (real, real) {
    (r.datetime, r.voltage)
  }

  /** The (datetime, voltage) pairs of a window. */
  function PairRows(window: seq<SensorReading>): seq<(real, real)> {
    seq(|window|, i requires 0 <= i < |window| => VoltagePair(window[i]))
  }

  /**
   * `POST /api/battery/detect` as written: the same ten-reading guard, then
   * the (datetime, voltage) pairs of the last ten readings go to the
   * detector, whose flag is returned as it is under `is_spoofed`.
   */
  function DetectBattery(bodies: seq<Record>, battery: BatteryDetector): (resp: Response<BatteryDetection>)
    ensures ParseAll(bodies).Fail? ==> resp == Error(ValidationStatus, ParseAll(bodies).error)
    ensures ParseAll(bodies).Ok? && |bodies| < MinSequence ==>
      resp == Error(400, "Battery detection requires at least 10 readings")
    ensures ParseAll(bodies).Ok? && |bodies| >= MinSequence ==>
      var result := battery.Detect(PairRows(LstmModel.LastRows(ParseAll(bodies).value)));
      && (!result.0.PyBool? ==> resp == Error(500, EncodeFailure))
      && (result.0.PyBool? ==> resp == Success(BatteryDetection(result.0.Truth(), result.1)))
  {
    match ParseAll(bodies)
    case Fail(e) => Error(ValidationStatus, e)
    case Ok(readings) =>
      if |readings| < MinSequence then Error(400, "Battery detection requires at least 10 readings")
      else
        var result := battery.Detect(PairRows(LstmModel.LastRows(readings)));
        match EncodeFlag(result.0)
        case Fail(e) => Error(500, e)
        case Ok(isSpoofed) => Success(BatteryDetection(isSpoofed, result.1))
  }

  /**
   * Every valid request of ten or more readings gets a 500: the detector's
   * `numpy.bool_` flag cannot be encoded into the answer.
   */
  lemma DetectBatteryAlwaysFails(bodies: seq<Record>, battery: BatteryDetector)
    requires ParseAll(bodies).Ok? && |bodies| >= MinSequence
    ensures DetectBattery(bodies, battery) == Error(500, EncodeFailure)
  {
    var result := battery.Detect(PairRows(LstmModel.LastRows(ParseAll(bodies).value)));
    assert result.0.NumpyBool?;
  }

  /**
   * `detect_battery_spoofing` returning `bool(is_spoofed)`: every valid
   * request of ten or more readings gets the error of its last ten
   * (datetime, voltage) pairs, spoofed exactly when it is above 0.05.
   */
  function DetectBatteryCorrected(bodies: seq<Record>, battery: BatteryDetector): (resp: Response<BatteryDetection>)
    ensures ParseAll(bodies).Fail? ==> resp == Error(ValidationStatus, ParseAll(bodies).error)
    ensures ParseAll(bodies).Ok? && |bodies| < MinSequence ==>
      resp == Error(400, "Battery detection requires at least 10 readings")
    ensures ParseAll(bodies).Ok? && |bodies| >= MinSequence ==>
      var pairs := PairRows(LstmModel.LastRows(ParseAll(bodies).value));
      && resp.Success?
      && resp.body.anomalyScore == battery.reconstructionError(pairs)
      && (resp.body.isSpoofed <==> battery.reconstructionError(pairs) > BatteryThreshold)
  {
    match ParseAll(bodies)
    case Fail(e) => Error(ValidationStatus, e)
    case Ok(readings) =>
      if |readings| < MinSequence then Error(400, "Battery detection requires at least 10 readings")
      else
        var pairs := PairRows(LstmModel.LastRows(readings));
        assert |pairs| == MinSequence;
        assert LstmModel.LastRows(pairs) == pairs;
        var result := battery.Detect(pairs);
        Success(BatteryDetection(result.0.Truth(), result.1))
  }

  /** The streaming severity of a score. */
  function Severity(score: real): (s: string)
    ensures s == "high" <==> score > 80.0
    ensures s == "medium" <==> 60.0 < score <= 80.0
    ensures s == "low" <==> score <= 60.0
  {
    if score > 80.0 then "high" else if score > 60.0 then "medium" else "low"
  }

  /**
   * Severity and the SVM verdict disagree only at the boundary: a score of
   * exactly 60 is an anomaly rated "low"; any other anomaly is rated higher,
   * and a normal score is always "low".
   */
  lemma SeverityAgreesWithVerdict(score: real)
    ensures SvmPrediction(score) == -1 ==> Severity(score) == "low"
    ensures SvmPrediction(score) == 1 && score != SvmBoundary ==> Severity(score) != "low"
    ensures SvmPrediction(SvmBoundary) == 1 && Severity(SvmBoundary) == "low"
  {
  }

  /**
   * `POST /api/attacks/generate`: a valid request is handed to the generator;
   * the answer echoes the type and counts the records; a generator error is a 500.
   */
  method GenerateAttack(body: Record, generator: AttackGen.AttackGenerator, now: nat -> string)
    returns (resp: Response<AttackBatch>)
    ensures ParseAttackRequest(body).Fail? ==> resp == Error(ValidationStatus, ParseAttackRequest(body).error)
    ensures resp.Success? ==>
      && ParseAttackRequest(body).Ok?
      && resp.body.attackType == ParseAttackRequest(body).value.attackType
      && resp.body.count == |resp.body.samples|
      && forall i :: 0 <= i < |resp.body.samples| ==>
           "Attack" in resp.body.samples[i] && resp.body.samples[i]["Attack"] == Str(AttackGen.AttackName(resp.body.attackType))
    ensures ParseAttackRequest(body).Ok? && ParseAttackRequest(body).value.attackType == "fuzzy" ==>
      resp.Success? && resp.body.count == ParseAttackRequest(body).value.numSamples
    ensures ParseAttackRequest(body).Ok? && ParseAttackRequest(body).value.attackType != "fuzzy" ==>
      var n := ParseAttackRequest(body).value.numSamples;
      && (resp.Success? <==> n <= |generator.df|)
      && (resp.Success? ==> resp.body.count == if resp.body.attackType == "dos" then 5 * n else n)
    ensures resp.Error? ==> resp.status == ValidationStatus || resp.status == 500
  {
    var request := ParseAttackRequest(body);
    if request.Fail? {
      return Error(ValidationStatus, request.error);
    }
    var records, _ := generator.Generate(request.value.attackType, request.value.numSamples, now);
    if records.Fail? {
      return Error(500, records.error);
    }
    var samples := seq(|records.value|, i requires 0 <= i < |records.value| => records.value[i].ToRecord());
    resp := Success(AttackBatch(request.value.attackType, samples, |samples|));
  }

  /** `GET /api/data/sample`: `n` dataset rows and their count; a refused sample is a 500. */
  method GetSampleData(n: int, generator: AttackGen.AttackGenerator) returns (resp: Response<SampleBatch>)
    ensures resp.Success? <==> 0 <= n <= |generator.df|
    ensures resp.Success? ==> resp.body.count == |resp.body.samples| == n
    ensures resp.Error? ==> resp.status == 500
  {
    var samples, _ := generator.GetNormalSamples(n);
    if samples.Fail? {
      return Error(500, samples.error);
    }
    resp := Success(SampleBatch(samples.value, |samples.value|));
  }

  /**
   * The comparison's LSTM and battery payload entries always validate when
   * the reading's timestamp is a number: every channel is present, defaulted
   * to 0, under the schema's aliases.
   */
  lemma SequenceEntryValidates(r: Record)
    requires Get(r, "timestamp").Some? && Get(r, "timestamp").value.Num?
    ensures ParseSensorReading(ModelComparison.SequenceEntry(r)).Ok?
    ensures ParseSensorReading(ModelComparison.SequenceEntry(r)).value.voltage == NumOr0(r, "voltage")
  {
    var p := ModelComparison.SequenceEntry(r);
    assert p["datetime"].Num?;
    ChannelValidates(r, "Accelerometer1RMS", "accelerometer1_rms");
    ChannelValidates(r, "Accelerometer2RMS", "accelerometer2_rms");
    ChannelValidates(r, "current", "current");
    ChannelValidates(r, "pressure", "pressure");
    ChannelValidates(r, "temperature", "temperature");
    ChannelValidates(r, "thermocouple", "thermocouple");
    ChannelValidates(r, "voltage", "voltage");
    ChannelValidates(r, "VolumeFlowRateRMS", "volume_flow_rate_rms");
    assert Field(p, "datetime", "datetime").Ok?;
  }

  /** A channel of a sequence entry is a number under its alias. */
  lemma ChannelValidates(r: Record, alias: string, name: string)
    requires alias in ModelComparison.Channels
    ensures Field(ModelComparison.SequenceEntry(r), alias, name).Ok?
    ensures Field(ModelComparison.SequenceEntry(r), alias, name).value == NumOr0(r, alias)
  {
  }

  /**
   * The comparison always sends ten readings, so, with the detector the
   * backend loads, its LSTM request is answered with a 500 whenever the
   * window's timestamps are numbers.
   */
  lemma ComparisonLstmRequestFails(readings: seq<Record>, lstm: LstmModel.LstmDetector)
    requires |readings| >= ModelComparison.WindowSize
    requires forall i :: 0 <= i < |readings| ==> Get(readings[i], "timestamp").Some? && Get(readings[i], "timestamp").value.Num?
    requires lstm.width == |LstmModel.LstmFeatures|
    ensures var payload := ModelComparison.SequencePayload(ModelComparison.RecentReadings(readings));
      DetectLstm(payload, lstm).Error? && DetectLstm(payload, lstm).status == 500
  {
    var window := ModelComparison.RecentReadings(readings);
    var payload := ModelComparison.SequencePayload(window);
    assert |payload| == MinSequence;
    forall i | 0 <= i < |payload|
      ensures ParseSensorReading(payload[i]).Ok?
    {
      assert window[i] == readings[|readings| - |window| + i];
      SequenceEntryValidates(window[i]);
    }
    DetectLstmAlwaysFails(payload, lstm);
  }
}
