/**
 * The synthetic attack generator: fuzzy records drawn at random, and
 * spoofing, replay and DoS records built from rows sampled without
 * replacement from the normal dataset.
 */
module AttackGen {
  import opened Wrappers
  import opened Json
  import opened Text

  /** One row of the normal dataset, with its own column names. */
  datatype DatasetRow = DatasetRow(
    tag: string,
    datetime: string,
    accelerometer1Rms: real,
    accelerometer2Rms: real,
    current: real,
    pressure: real,
    temperature: real,
    thermocouple: real,
    voltage: real,
    volumeFlowRateRms: real)
  {
    /** The row as `to_dict('records')` gives it; the flow column keeps its spaces. */
    function ToRecord(): Record {
      map[
        "tag" := Str(tag),
        "datetime" := Str(datetime),
        "Accelerometer1RMS" := Num(accelerometer1Rms),
        "Accelerometer2RMS" := Num(accelerometer2Rms),
        "Current" := Num(current),
        "Pressure" := Num(pressure),
        "Temperature" := Num(temperature),
        "Thermocouple" := Num(thermocouple),
        "Voltage" := Num(voltage),
        "Volume Flow RateRMS" := Num(volumeFlowRateRms)]
    }
  }

  /** One generated attack record. */
  datatype AttackRecord = AttackRecord(
    tag: string,
    datetime: string,
    accelerometer1Rms: real,
    accelerometer2Rms: real,
    current: real,
    pressure: real,
    temperature: real,
    thermocouple: real,
    voltage: real,
    volumeFlowRateRms: real,
    attack: string)
  {
    /** The record as the API returns it; the flow key has no spaces. */
    function ToRecord(): (r: Record)
      ensures "VolumeFlowRateRMS" in r && "Volume Flow RateRMS" !in r
      ensures "Attack" in r && r["Attack"] == Str(attack)
      ensures "datetime" in r && r["datetime"] == Str(datetime)
    {
      map[
        "tag" := Str(tag),
        "datetime" := Str(datetime),
        "Accelerometer1RMS" := Num(accelerometer1Rms),
        "Accelerometer2RMS" := Num(accelerometer2Rms),
        "Current" := Num(current),
        "Pressure" := Num(pressure),
        "Temperature" := Num(temperature),
        "Thermocouple" := Num(thermocouple),
        "Voltage" := Num(voltage),
        "VolumeFlowRateRMS" := Num(volumeFlowRateRms),
        "Attack" := Str(attack)]
    }
  }

  /** The `Attack` label each generator writes. */
  function AttackName(attackType: string): string {
    match attackType
    case "fuzzy" => "Fuzzy"
    case "spoofing" => "Spoofing"
    case "replay" => "Replay"
    case "dos" => "DoS"
    case _ => ""
  }

  predicate IsAttackType(attackType: string) {
    attackType in {"fuzzy", "spoofing", "replay", "dos"}
  }

  /** A fuzzy tag: `Fuzzy_` followed by the four digits of an integer in 1000..9999. */
  predicate FuzzyTag(tag: string) {
    && |tag| == 10
    && tag[..6] == "Fuzzy_"
    && (forall i :: 6 <= i < 10 ==> IsDigit(tag[i]))
    && 1000 <= DigitsValue(tag[6..]) <= 9999
  }

  /** Every channel of a fuzzy record lies in the range it was drawn from. */
  predicate InFuzzyRanges(r: AttackRecord) {
    && 0.0 <= r.accelerometer1Rms <= 50.0
    && 0.0 <= r.accelerometer2Rms <= 50.0
    && 0.0 <= r.current <= 10.0
    && 10.0 <= r.pressure <= 100.0
    && 20.0 <= r.temperature <= 100.0
    && 10.0 <= r.thermocouple <= 50.0
    && 200.0 <= r.voltage <= 250.0
    && 5.0 <= r.volumeFlowRateRms <= 50.0
  }

  predicate Within(x: real, center: real, bound: real) {
    center - bound <= x <= center + bound
  }

  /**
   * A spoofed copy of `row`: same tag, new time, and each channel within its
   * own bound of the row's value.
   */
  predicate Spoofed(r: AttackRecord, row: DatasetRow, now: string) {
    && r.tag == row.tag && r.datetime == now && r.attack == "Spoofing"
    && Within(r.accelerometer1Rms, row.accelerometer1Rms, 2.0)
    && Within(r.accelerometer2Rms, row.accelerometer2Rms, 2.0)
    && Within(r.current, row.current, 1.0)
    && Within(r.pressure, row.pressure, 5.0)
    && Within(r.temperature, row.temperature, 3.0)
    && Within(r.thermocouple, row.thermocouple, 2.0)
    && Within(r.voltage, row.voltage, 5.0)
    && Within(r.volumeFlowRateRms, row.volumeFlowRateRms, 3.0)
  }

  /** The row copied unchanged apart from the time and the label. */
  function Copied(row: DatasetRow, now: string, attack: string): (r: AttackRecord)
    ensures r.tag == row.tag && r.datetime == now && r.attack == attack
  {
    AttackRecord(row.tag, now, row.accelerometer1Rms, row.accelerometer2Rms, row.current,
                 row.pressure, row.temperature, row.thermocouple, row.voltage, row.volumeFlowRateRms, attack)
  }

  /** The columns an attack record shares, under the same name, with its dataset row. */
  const SameNamedColumns: set<string> := {
    "tag", "Accelerometer1RMS", "Accelerometer2RMS", "Current", "Pressure",
    "Temperature", "Thermocouple", "Voltage"}

  /** A copied record carries every channel of its row, the flow renamed to `VolumeFlowRateRMS`. */
  lemma CopiedKeepsChannels(row: DatasetRow, now: string, attack: string)
    ensures var out := Copied(row, now, attack).ToRecord();
      var src := row.ToRecord();
      && out["VolumeFlowRateRMS"] == src["Volume Flow RateRMS"]
      && forall k :: k in SameNamedColumns ==> out[k] == src[k]
  {
    var out := Copied(row, now, attack).ToRecord();
    var src := row.ToRecord();
    assert out["VolumeFlowRateRMS"] == Num(row.volumeFlowRateRms) == src["Volume Flow RateRMS"];
    assert out["tag"] == src["tag"];
    assert out["Accelerometer1RMS"] == src["Accelerometer1RMS"];
    assert out["Accelerometer2RMS"] == src["Accelerometer2RMS"];
    assert out["Current"] == src["Current"];
    assert out["Pressure"] == src["Pressure"];
    assert out["Temperature"] == src["Temperature"];
    assert out["Thermocouple"] == src["Thermocouple"];
    assert out["Voltage"] == src["Voltage"];
  }

  /** `n` distinct positions of a dataset of `size` rows. */
  predicate IsSample(picked: seq<nat>, n: int, size: nat) {
    && |picked| == n
    && (forall i :: 0 <= i < |picked| ==> picked[i] < size)
    && (forall i, j :: 0 <= i < j < |picked| ==> picked[i] != picked[j])
  }

  /** The generator over the normal dataset `df`, read once when it is built. */
  class AttackGenerator {
    const df: seq<DatasetRow>

    constructor (rows: seq<DatasetRow>)
      ensures df == rows
    {
      df := rows;
    }

    /**
     * `df.sample(n)`: `n` distinct rows in random order; a negative `n` or one
     * larger than the dataset is refused.
     */
    method Sample(n: int) returns (picked: Result<seq<nat>>)
      ensures picked.Ok? <==> 0 <= n <= |df|
      ensures picked.Ok? ==> IsSample(picked.value, n, |df|)
    {
      if n < 0 || n > |df| {
        return Fail("a larger sample than the population cannot be taken without replacement");
      }
      var first: seq<nat> := seq(n, i requires 0 <= i < n => i);
      assert IsSample(first, n, |df|);
      var rows: seq<nat> :| IsSample(rows, n, |df|);
      picked := Ok(rows);
    }

    /** `generate`: dispatches on the attack type and refuses any other. */
    method Generate(attackType: string, n: int, now: nat -> string)
      returns (out: Result<seq<AttackRecord>>, picked: seq<nat>)
      ensures !IsAttackType(attackType) ==> out == Fail("Unknown attack type: " + attackType)
      ensures attackType == "fuzzy" ==> out.Ok? && |out.value| == (if n < 0 then 0 else n)
      ensures attackType in {"spoofing", "replay", "dos"} ==> (out.Ok? <==> 0 <= n <= |df|)
      ensures out.Ok? && attackType in {"spoofing", "replay"} ==> |out.value| == n
      ensures out.Ok? && attackType == "dos" ==> |out.value| == 5 * n
      ensures out.Ok? ==> forall i :: 0 <= i < |out.value| ==>
        out.value[i].attack == AttackName(attackType) && out.value[i].datetime == now(i)
    {
      picked := [];
      if attackType == "fuzzy" {
        var records := GenerateFuzzy(n, now);
        out := Ok(records);
      } else if attackType == "spoofing" {
        out, picked := GenerateSpoofing(n, now);
      } else if attackType == "replay" {
        out, picked := GenerateReplay(n, now);
      } else if attackType == "dos" {
        out, picked := GenerateDos(n, now);
      } else {
        out := Fail("Unknown attack type: " + attackType);
      }
    }

    /**
     * `_generate_fuzzy`: `n` records (none for a negative `n`), each channel
     * drawn uniformly from its range, tagged `Fuzzy_` and a four-digit integer.
     */
    method GenerateFuzzy(n: int, now: nat -> string) returns (out: seq<AttackRecord>)
      ensures |out| == if n < 0 then 0 else n
      ensures forall i :: 0 <= i < |out| ==>
        && InFuzzyRanges(out[i]) && FuzzyTag(out[i].tag)
        && out[i].attack == "Fuzzy" && out[i].datetime == now(i)
    {
      out := [];
      var i := 0;
      while i < n
        invariant 0 <= i && (n >= 0 ==> i <= n) && (n < 0 ==> i == 0)
        invariant |out| == i
        invariant forall j :: 0 <= j < i ==>
          && InFuzzyRanges(out[j]) && FuzzyTag(out[j].tag)
          && out[j].attack == "Fuzzy" && out[j].datetime == now(j)
      {
        var k: nat :| 1000 <= k <= 9999;
        var tag := "Fuzzy_" + NatToString(k);
        TagOfFour(k);
        var a1 := Uniform(0.0, 50.0);
        var a2 := Uniform(0.0, 50.0);
        var current := Uniform(0.0, 10.0);
        var pressure := Uniform(10.0, 100.0);
        var temperature := Uniform(20.0, 100.0);
        var thermocouple := Uniform(10.0, 50.0);
        var voltage := Uniform(200.0, 250.0);
        var flow := Uniform(5.0, 50.0);
        out := out + [AttackRecord(tag, now(i), a1, a2, current, pressure, temperature,
                                   thermocouple, voltage, flow, "Fuzzy")];
        i := i + 1;
      }
    }

    /**
     * `_generate_spoofing`: one record per sampled row, in sample order, each
     * channel moved by at most its bound.
     */
    method GenerateSpoofing(n: int, now: nat -> string) returns (out: Result<seq<AttackRecord>>, picked: seq<nat>)
      ensures out.Ok? <==> 0 <= n <= |df|
      ensures out.Ok? ==> IsSample(picked, n, |df|) && |out.value| == n
      ensures out.Ok? ==> forall i :: 0 <= i < n ==> Spoofed(out.value[i], df[picked[i]], now(i))
    {
      var sampled := Sample(n);
      picked := [];
      if sampled.Fail? {
        return Fail(sampled.error), picked;
      }
      picked := sampled.value;
      var records: seq<AttackRecord> := [];
      var i := 0;
      while i < |picked|
        invariant 0 <= i <= |picked|
        invariant |records| == i
        invariant forall j :: 0 <= j < i ==> Spoofed(records[j], df[picked[j]], now(j))
      {
        var row := df[picked[i]];
        var d1 := Uniform(-2.0, 2.0);
        var d2 := Uniform(-2.0, 2.0);
        var dc := Uniform(-1.0, 1.0);
        var dp := Uniform(-5.0, 5.0);
        var dt := Uniform(-3.0, 3.0);
        var dth := Uniform(-2.0, 2.0);
        var dv := Uniform(-5.0, 5.0);
        var dflow := Uniform(-3.0, 3.0);
        records := records + [AttackRecord(
          row.tag, now(i),
          row.accelerometer1Rms + d1, row.accelerometer2Rms + d2, row.current + dc,
          row.pressure + dp, row.temperature + dt, row.thermocouple + dth,
          row.voltage + dv, row.volumeFlowRateRms + dflow, "Spoofing")];
        i := i + 1;
      }
      out := Ok(records);
    }

    /** `_generate_replay`: each sampled row copied unchanged with a new time. */
    method GenerateReplay(n: int, now: nat -> string) returns (out: Result<seq<AttackRecord>>, picked: seq<nat>)
      ensures out.Ok? <==> 0 <= n <= |df|
      ensures out.Ok? ==> IsSample(picked, n, |df|) && |out.value| == n
      ensures out.Ok? ==> forall i :: 0 <= i < n ==> out.value[i] == Copied(df[picked[i]], now(i), "Replay")
    {
      var sampled := Sample(n);
      picked := [];
      if sampled.Fail? {
        return Fail(sampled.error), picked;
      }
      picked := sampled.value;
      var records: seq<AttackRecord> := [];
      var i := 0;
      while i < |picked|
        invariant 0 <= i <= |picked|
        invariant |records| == i
        invariant forall j :: 0 <= j < i ==> records[j] == Copied(df[picked[j]], now(j), "Replay")
      {
        records := records + [Copied(df[picked[i]], now(i), "Replay")];
        i := i + 1;
      }
      out := Ok(records);
    }

    /**
     * `_generate_dos`: the sampled block copied five times over, each round
     * in the same row order.
     */
    method GenerateDos(n: int, now: nat -> string) returns (out: Result<seq<AttackRecord>>, picked: seq<nat>)
      ensures out.Ok? <==> 0 <= n <= |df|
      ensures out.Ok? ==> IsSample(picked, n, |df|) && |out.value| == 5 * n
      ensures out.Ok? ==> forall t :: 0 <= t < 5 * n ==> out.value[t] == Copied(df[picked[t % n]], now(t), "DoS")
    {
      var sampled := Sample(n);
      picked := [];
      if sampled.Fail? {
        return Fail(sampled.error), picked;
      }
      picked := sampled.value;
      var records: seq<AttackRecord> := [];
      var round := 0;
      while round < 5
        invariant 0 <= round <= 5
        invariant |records| == round * n
        invariant forall t :: 0 <= t < |records| ==> records[t] == Copied(df[picked[t % n]], now(t), "DoS")
      {
        records := AppendRound(records, picked, now, round);
        round := round + 1;
      }
      out := Ok(records);
    }

    /** One round of the DoS loop: the sampled block appended once more, in row order. */
    method AppendRound(records: seq<AttackRecord>, picked: seq<nat>, now: nat -> string, round: nat)
      returns (extended: seq<AttackRecord>)
      requires forall i :: 0 <= i < |picked| ==> picked[i] < |df|
      requires |records| == round * |picked|
      requires forall t :: 0 <= t < |records| ==>
        records[t] == Copied(df[picked[t % |picked|]], now(t), "DoS")
      ensures |extended| == (round + 1) * |picked|
      ensures forall t :: 0 <= t < |extended| ==>
        extended[t] == Copied(df[picked[t % |picked|]], now(t), "DoS")
    {
      var n := |picked|;
      extended := records;
      var j := 0;
      while j < n
        invariant 0 <= j <= n
        invariant |extended| == round * n + j
        invariant forall t :: 0 <= t < |extended| ==> extended[t] == Copied(df[picked[t % n]], now(t), "DoS")
      {
        RoundPosition(round, n, j);
        extended := extended + [Copied(df[picked[j]], now(round * n + j), "DoS")];
        j := j + 1;
      }
      assert round * n + n == (round + 1) * n;
    }

    /** `get_normal_samples`: `n` distinct dataset rows under their own column names. */
    method GetNormalSamples(n: int) returns (out: Result<seq<Record>>, picked: seq<nat>)
      ensures out.Ok? <==> 0 <= n <= |df|
      ensures out.Ok? ==> IsSample(picked, n, |df|) && |out.value| == n
      ensures out.Ok? ==> forall i :: 0 <= i < n ==> out.value[i] == df[picked[i]].ToRecord()
    {
      var sampled := Sample(n);
      picked := [];
      if sampled.Fail? {
        return Fail(sampled.error), picked;
      }
      picked := sampled.value;
      out := Ok(seq(n, i requires 0 <= i < n => df[picked[i]].ToRecord()));
    }
  }

  /** The tag built from an integer of 1000..9999 is a fuzzy tag that reads back as that integer. */
  lemma TagOfFour(k: nat)
    requires 1000 <= k <= 9999
    ensures FuzzyTag("Fuzzy_" + NatToString(k))
    ensures DigitsValue(("Fuzzy_" + NatToString(k))[6..]) == k
  {
    var tag := "Fuzzy_" + NatToString(k);
    FourDigits(k);
    NatToStringRoundTrip(k);
    assert tag[6..] == NatToString(k);
    assert tag[..6] == "Fuzzy_";
  }

  /** `random.uniform(lo, hi)`: `lo + (hi - lo) * random()`, with `random()` in [0, 1). */
  method Uniform(lo: real, hi: real) returns (x: real)
    requires lo <= hi
    ensures lo <= x <= hi
  {
    var u: real :| 0.0 <= u < 1.0;
    var w := hi - lo;
    assert 0.0 <= w * u;
    assert w * u <= w by {
      assert w * u <= w * 1.0;
    }
    x := lo + w * u;
  }

  /** A multiple of a positive `n` strictly between -n and n is 0. */
  lemma MulSmall(n: int, k: int)
    requires n > 0 && -n < n * k < n
    ensures k == 0
  {
  }

  /** Adding `n` does not change the remainder modulo `n`. */
  lemma ModShift(a: nat, n: nat)
    requires n > 0
    ensures (a + n) % n == a % n
  {
    var q, r := a / n, a % n;
    var q2, r2 := (a + n) / n, (a + n) % n;
    assert a == n * q + r;
    assert a + n == n * q2 + r2;
    assert n * (q + 1 - q2) == r2 - r;
    MulSmall(n, q + 1 - q2);
  }

  /** Position `j` of round `round` is element `j` of the block. */
  lemma {:induction false} RoundPosition(round: nat, n: nat, j: nat)
    requires j < n
    ensures (round * n + j) % n == j
  {
    if round > 0 {
      RoundPosition(round - 1, n, j);
      assert round * n + j == ((round - 1) * n + j) + n;
      ModShift((round - 1) * n + j, n);
    } else {
      assert round * n + j == j;
    }
  }

  /** In a DoS batch every record repeats the one a block earlier, apart from its time. */
  lemma DosRepeatsBlock(df: seq<DatasetRow>, picked: seq<nat>, out: seq<AttackRecord>, now: nat -> string, t: nat)
    requires IsSample(picked, |picked|, |df|) && |out| == 5 * |picked|
    requires forall s :: 0 <= s < |out| ==> out[s] == Copied(df[picked[s % |picked|]], now(s), "DoS")
    requires |picked| <= t < |out|
    ensures out[t] == out[t - |picked|].(datetime := now(t))
  {
    var n := |picked|;
    ModShift(t - n, n);
  }
}
