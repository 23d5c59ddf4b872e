/**
 * The JSON bodies the backend's HTTP handlers answer with, shared by the
 * handlers that produce them and the frontend components that consume them.
 */
module Gateway {
  import opened Wrappers
  import opened Json

  /** A handler's answer: a body with status 200, or an error status with its error text. */
  datatype Response<T> = Success(body: T) | Error(status: int, error: string)

  /**
   * A flag as a handler's answer holds it: a Python `bool`, or the
   * `numpy.bool_` that comparing two numpy floats gives.
   */
  datatype Flag = PyBool(b: bool) | NumpyBool(nb: bool)
  {
    /** `bool(flag)`: the truth value, whichever type holds it. */
    function Truth(): bool {
      if PyBool? then b else nb
    }
  }

  /** The text the server answers an exception raised after the handler has returned. */
  const EncodeFailure: string := "Internal Server Error"

  /**
   * FastAPI's `jsonable_encoder` on a flag of the answer: a Python `bool` is
   * encoded as itself; there is no rule for `numpy.bool_`, so encoding raises
   * after the handler has returned, outside its `try`, and the server answers 500.
   */
  function EncodeFlag(f: Flag): (r: Result<bool>)
    ensures r.Ok? <==> f.PyBool?
    ensures r.Ok? ==> r.value == f.Truth()
    ensures r.Fail? ==> r.error == EncodeFailure
  {
    match f
    case PyBool(b) => Ok(b)
    case NumpyBool(_) => Fail(EncodeFailure)
  }

  /** Body of `POST /api/anomaly/detect-svm`. */
  datatype SvmDetection = SvmDetection(isAnomaly: bool, anomalyScore: real, confidence: real, timestamp: real)
  {
    /** The JSON object the browser receives, with the backend's own key names. */
    function Body(): Record {
      map[
        "success" := Bool(true),
        "method" := Str("One-Class SVM"),
        "is_anomaly" := Bool(isAnomaly),
        "anomaly_score" := Num(anomalyScore),
        "confidence" := Num(confidence),
        "timestamp" := Num(timestamp)]
    }
  }

  /** Body of `POST /api/anomaly/detect-lstm`. */
  datatype LstmDetection = LstmDetection(isAnomaly: bool, reconstructionError: real, threshold: real)

  /** Body of `POST /api/battery/detect`. */
  datatype BatteryDetection = BatteryDetection(isSpoofed: bool, anomalyScore: real)

  /** Body of `POST /api/attacks/generate`. */
  datatype AttackBatch = AttackBatch(attackType: string, samples: seq<Record>, count: int)

  /** Body of `GET /api/data/sample`. */
  datatype SampleBatch = SampleBatch(samples: seq<Record>, count: int)

  /** Body of `GET /api/health`. */
  datatype Health = Health(status: string, svmLoaded: bool, lstmLoaded: bool, batteryLoaded: bool)

  /**
   * What an awaited API call gives the frontend: the body, or a rejection.
   * The HTTP client rejects every non-2xx status.
   */
  function Received<T>(r: Response<T>): (out: Result<T>)
    ensures out.Ok? <==> r.Success?
    ensures r.Success? ==> out.value == r.body
  {
    match r
    case Success(body) => Ok(body)
    case Error(status, error) => Fail(error)
  }
}
