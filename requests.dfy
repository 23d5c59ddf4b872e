/**
 * The backend's request schemas: a sensor reading with its model-input
 * vector, and the attack-generation request with its bounds.
 */
module Requests {
  import opened Wrappers
  import opened Json

  /** A validated sensor reading; every field is required. */
  datatype SensorReading = SensorReading(
    datetime: real,
    accelerometer1Rms: real,
    accelerometer2Rms: real,
    current: real,
    pressure: real,
    temperature: real,
    thermocouple: real,
    voltage: real,
    volumeFlowRateRms: real)

  /** Length of the model-input vector `to_array` builds. */
  const ArrayWidth: nat := 9

  /** `to_array`: the nine values, with the flow before the voltage, which comes last. */
  function ToArray(r: SensorReading): (a: seq<real>)
    ensures |a| == ArrayWidth
    ensures a[0] == r.datetime && a[8] == r.voltage
    ensures a[1] == r.accelerometer1Rms && a[2] == r.accelerometer2Rms
    ensures a[3] == r.current && a[4] == r.pressure && a[5] == r.temperature
    ensures a[6] == r.thermocouple && a[7] == r.volumeFlowRateRms
  {
    [r.datetime, r.accelerometer1Rms, r.accelerometer2Rms, r.current, r.pressure,
     r.temperature, r.thermocouple, r.volumeFlowRateRms, r.voltage]
  }

  /** Reads a nine-value vector back in `to_array`'s order. */
  function FromArray(a: seq<real>): SensorReading
    requires |a| == ArrayWidth
  {
    SensorReading(a[0], a[1], a[2], a[3], a[4], a[5], a[6], a[8], a[7])
  }

  /** `to_array` loses nothing: the vector determines the reading and back. */
  lemma ArrayRoundTrip(r: SensorReading, a: seq<real>)
    requires |a| == ArrayWidth
    ensures FromArray(ToArray(r)) == r
    ensures ToArray(FromArray(a)) == a
  {
  }

  /**
   * One float field of the request body. With `populate_by_name` a field that
   * has an alias is found under the alias or else under its own name.
   */
  function Field(obj: Record, alias: string, name: string): (r: Result<real>)
    ensures r.Ok? <==> (alias in obj && obj[alias].Num?) || (alias !in obj && name in obj && obj[name].Num?)
    ensures r.Ok? && alias in obj ==> r.value == obj[alias].n
    ensures r.Ok? && alias !in obj ==> r.value == obj[name].n
  {
    if alias in obj then
      if obj[alias].Num? then Ok(obj[alias].n) else Fail(alias + ": Input should be a valid number")
    else if name in obj then
      if obj[name].Num? then Ok(obj[name].n) else Fail(name + ": Input should be a valid number")
    else Fail(alias + ": Field required")
  }

  /** Validation of a JSON object as a `SensorReading`; any missing or non-numeric field rejects it. */
  function ParseSensorReading(obj: Record): (r: Result<SensorReading>)
    ensures r.Ok? <==>
      && Field(obj, "datetime", "datetime").Ok?
      && Field(obj, "Accelerometer1RMS", "accelerometer1_rms").Ok?
      && Field(obj, "Accelerometer2RMS", "accelerometer2_rms").Ok?
      && Field(obj, "current", "current").Ok?
      && Field(obj, "pressure", "pressure").Ok?
      && Field(obj, "temperature", "temperature").Ok?
      && Field(obj, "thermocouple", "thermocouple").Ok?
      && Field(obj, "voltage", "voltage").Ok?
      && Field(obj, "VolumeFlowRateRMS", "volume_flow_rate_rms").Ok?
    ensures r.Ok? ==> r.value == SensorReading(
      Field(obj, "datetime", "datetime").value,
      Field(obj, "Accelerometer1RMS", "accelerometer1_rms").value,
      Field(obj, "Accelerometer2RMS", "accelerometer2_rms").value,
      Field(obj, "current", "current").value,
      Field(obj, "pressure", "pressure").value,
      Field(obj, "temperature", "temperature").value,
      Field(obj, "thermocouple", "thermocouple").value,
      Field(obj, "voltage", "voltage").value,
      Field(obj, "VolumeFlowRateRMS", "volume_flow_rate_rms").value)
  {
    var d := Field(obj, "datetime", "datetime");
    var a1 := Field(obj, "Accelerometer1RMS", "accelerometer1_rms");
    var a2 := Field(obj, "Accelerometer2RMS", "accelerometer2_rms");
    var c := Field(obj, "current", "current");
    var p := Field(obj, "pressure", "pressure");
    var t := Field(obj, "temperature", "temperature");
    var th := Field(obj, "thermocouple", "thermocouple");
    var v := Field(obj, "voltage", "voltage");
    var f := Field(obj, "VolumeFlowRateRMS", "volume_flow_rate_rms");
    if d.Fail? then Fail(d.error)
    else if a1.Fail? then Fail(a1.error)
    else if a2.Fail? then Fail(a2.error)
    else if c.Fail? then Fail(c.error)
    else if p.Fail? then Fail(p.error)
    else if t.Fail? then Fail(t.error)
    else if th.Fail? then Fail(th.error)
    else if v.Fail? then Fail(v.error)
    else if f.Fail? then Fail(f.error)
    else Ok(SensorReading(d.value, a1.value, a2.value, c.value, p.value, t.value, th.value, v.value, f.value))
  }

  /** A reading as the frontend sends it, under the aliases. */
  function Serialize(r: SensorReading): Record {
    map[
      "datetime" := Num(r.datetime),
      "Accelerometer1RMS" := Num(r.accelerometer1Rms),
      "Accelerometer2RMS" := Num(r.accelerometer2Rms),
      "current" := Num(r.current),
      "pressure" := Num(r.pressure),
      "temperature" := Num(r.temperature),
      "thermocouple" := Num(r.thermocouple),
      "voltage" := Num(r.voltage),
      "VolumeFlowRateRMS" := Num(r.volumeFlowRateRms)]
  }

  /** A reading sent under its aliases is validated back to itself. */
  lemma ParseSerialized(r: SensorReading)
    ensures ParseSensorReading(Serialize(r)) == Ok(r)
  {
  }

  /** The attack types the request schema admits. */
  const AttackTypes: set<string> := {"fuzzy", "spoofing", "replay", "dos"}
  const DefaultNumSamples: int := 10
  const MinNumSamples: int := 1
  const MaxNumSamples: int := 1000

  datatype AttackRequest = AttackRequest(attackType: string, numSamples: int)

  /** An integer-valued JSON number: what the schema's `int` accepts. */
  predicate IsInteger(x: real) {
    x == x.Floor as real
  }

  /**
   * Validation of the attack request body: `attack_type` is required and is
   * one of the four types; `num_samples` defaults to 10 and otherwise must be
   * an integer in 1..1000.
   */
  function ParseAttackRequest(obj: Record): (r: Result<AttackRequest>)
    ensures r.Ok? <==>
      && "attack_type" in obj && obj["attack_type"].Str? && obj["attack_type"].s in AttackTypes
      && ("num_samples" in obj ==>
            obj["num_samples"].Num? && IsInteger(obj["num_samples"].n)
            && MinNumSamples as real <= obj["num_samples"].n <= MaxNumSamples as real)
    ensures r.Ok? ==> r.value.attackType in AttackTypes
    ensures r.Ok? ==> MinNumSamples <= r.value.numSamples <= MaxNumSamples
    ensures r.Ok? ==> r.value.attackType == obj["attack_type"].s
    ensures r.Ok? && "num_samples" !in obj ==> r.value.numSamples == DefaultNumSamples
    ensures r.Ok? && "num_samples" in obj ==> r.value.numSamples as real == obj["num_samples"].n
  {
    if "attack_type" !in obj || !obj["attack_type"].Str? || obj["attack_type"].s !in AttackTypes then
      Fail("attack_type: Input should be 'fuzzy', 'spoofing', 'replay' or 'dos'")
    else if "num_samples" !in obj then
      Ok(AttackRequest(obj["attack_type"].s, DefaultNumSamples))
    else
      var v := obj["num_samples"];
      if !v.Num? || !IsInteger(v.n) then Fail("num_samples: Input should be a valid integer")
      else if v.n < MinNumSamples as real then Fail("num_samples: Input should be greater than or equal to 1")
      else if v.n > MaxNumSamples as real then Fail("num_samples: Input should be less than or equal to 1000")
      else Ok(AttackRequest(obj["attack_type"].s, v.n.Floor))
  }

  /** The body `generateAttack(attackType, numSamples)` posts. */
  function AttackBody(attackType: string, numSamples: int): Record {
    map["attack_type" := Str(attackType), "num_samples" := Num(numSamples as real)]
  }

  /** A body with an admitted type and count is accepted as exactly that request. */
  lemma AttackBodyAccepted(attackType: string, numSamples: int)
    requires attackType in AttackTypes && MinNumSamples <= numSamples <= MaxNumSamples
    ensures ParseAttackRequest(AttackBody(attackType, numSamples)) == Ok(AttackRequest(attackType, numSamples))
  {
    var body := AttackBody(attackType, numSamples);
    assert body["attack_type"] == Str(attackType);
    assert body["num_samples"] == Num(numSamples as real);
    assert (numSamples as real).Floor == numSamples;
    assert ParseAttackRequest(body).Ok?;
  }
}
