/**
 * The bounded history store: one state record (readings, anomalies,
 * threshold, isStreaming, selectedAnomaly) changed only by six actions.
 * `StoreState`, `Action` and `Apply` are its specification; `Store` is the
 * store itself, whose methods are proved to perform `Apply`.
 */
module AnomalyStore {
  import opened Wrappers
  import opened Json

  /** Capacity of the readings buffer (`slice(-49)` plus the new record). */
  const ReadingsCapacity: nat := 50
  /** Capacity of the anomalies buffer (`slice(-29)` plus the new record). */
  const AnomaliesCapacity: nat := 30
  const DefaultThreshold: real := 60.0

  /** The eight sensor channels of a history reading, in the order the panels list them. */
  const SensorNames: seq<string> := [
    "Accelerometer1RMS", "Accelerometer2RMS", "current", "pressure",
    "temperature", "thermocouple", "voltage", "VolumeFlowRateRMS"]

  /** `s.slice(-n)` for a positive `n`: the newest min(n, |s|) elements, in order. */
  function Newest<T>(s: seq<T>, n: nat): (r: seq<T>)
    requires n > 0
    ensures |r| == if |s| < n then |s| else n
    ensures r == s[|s| - |r|..]
  {
    if |s| <= n then s else s[|s| - n..]
  }

  /** `[...buf.slice(-(cap - 1)), x]`: a FIFO buffer of capacity `cap` that evicts its oldest elements. */
  function Push<T>(buf: seq<T>, x: T, cap: nat): (r: seq<T>)
    requires cap > 1
    ensures |r| == if |buf| < cap then |buf| + 1 else cap
    ensures r[|r| - 1] == x
  {
    Newest(buf, cap - 1) + [x]
  }

  /**
   * What a push keeps: the elements before the new one are the newest
   * survivors of `buf`, in order, and below capacity nothing is evicted.
   */
  lemma PushKeepsNewest<T>(buf: seq<T>, x: T, cap: nat)
    requires cap > 1
    ensures var r := Push(buf, x, cap);
      && r[..|r| - 1] == buf[|buf| - (|r| - 1)..]
      && (|buf| < cap ==> r == buf + [x])
  {
    var r := Push(buf, x, cap);
    assert r[..|r| - 1] == Newest(buf, cap - 1);
  }

  /** The history record `{ ...reading, ...detection, timestamp: stamp }`. */
  function Annotate(reading: Record, detection: Record, stamp: int): Record {
    reading + detection + map["timestamp" := Num(stamp as real)]
  }

  /**
   * The history record has the keys of both objects and `timestamp`; the
   * detection's fields override the reading's, and the stamp overrides both.
   */
  lemma AnnotateMerges(reading: Record, detection: Record, stamp: int)
    ensures var r := Annotate(reading, detection, stamp);
      && r.Keys == reading.Keys + detection.Keys + {"timestamp"}
      && r["timestamp"] == Num(stamp as real)
      && (forall k :: k in detection && k != "timestamp" ==> r[k] == detection[k])
      && (forall k :: k in reading && k !in detection && k != "timestamp" ==> r[k] == reading[k])
  {
  }

  /** The anomaly record `{ ...detection, timestamp: stamp }`. */
  function AnomalyEntry(detection: Record, stamp: int): Record {
    detection + map["timestamp" := Num(stamp as real)]
  }

  /** The anomaly record keeps the detection's fields and the stamp, and no field of the reading. */
  lemma AnomalyEntryFields(reading: Record, detection: Record, stamp: int)
    ensures var r := AnomalyEntry(detection, stamp);
      && r.Keys == detection.Keys + {"timestamp"}
      && r["timestamp"] == Num(stamp as real)
      && (forall k :: k in detection && k != "timestamp" ==> r[k] == detection[k])
      && (forall k :: k in reading && k !in detection && k != "timestamp" ==> k !in r)
  {
  }

  /** A record the frontend treats as anomalous: its `is_anomaly` is truthy. */
  predicate IsAnomalous(r: Record) {
    FieldTruthy(r, "is_anomaly")
  }

  datatype StoreState = StoreState(
    readings: seq<Record>,
    anomalies: seq<Record>,
    threshold: real,
    isStreaming: bool,
    selectedAnomaly: Option<Record>)

  /**
   * The six actions. `AddReading` carries the two `Date.now()` readings it
   * makes, one for the history record and one for the anomaly record.
   */
  datatype Action =
    | AddReading(reading: Record, detection: Record, readingStamp: int, anomalyStamp: int)
    | SetThreshold(value: real)
    | SetStreaming(flag: bool)
    | ClearHistory
    | SelectAnomaly(anomaly: Record)
    | ClearSelection

  function Initial(): StoreState {
    StoreState([], [], DefaultThreshold, false, None)
  }

  /** The state after one action. */
  function Apply(s: StoreState, a: Action): StoreState {
    match a
    case AddReading(reading, detection, t1, t2) =>
      s.(readings := Push(s.readings, Annotate(reading, detection, t1), ReadingsCapacity),
         anomalies := if IsAnomalous(detection)
                      then Push(s.anomalies, AnomalyEntry(detection, t2), AnomaliesCapacity)
                      else s.anomalies)
    case SetThreshold(v) => s.(threshold := v)
    case SetStreaming(f) => s.(isStreaming := f)
    case ClearHistory => s.(readings := [], anomalies := [])
    case SelectAnomaly(r) => s.(selectedAnomaly := Some(r))
    case ClearSelection => s.(selectedAnomaly := None)
  }

  /** The state after a sequence of actions, applied in order. */
  function Run(s: StoreState, actions: seq<Action>): StoreState
    decreases |actions|
  {
    if actions == [] then s else Run(Apply(s, actions[0]), actions[1..])
  }

  /** The store invariant: both buffers within capacity, and no more anomalies than readings. */
  predicate Bounded(s: StoreState) {
    && |s.readings| <= ReadingsCapacity
    && |s.anomalies| <= AnomaliesCapacity
    && |s.anomalies| <= |s.readings|
  }

  lemma ApplyBounded(s: StoreState, a: Action)
    requires Bounded(s)
    ensures Bounded(Apply(s, a))
  {
    match a
    case AddReading(reading, detection, t1, t2) =>
      AddReadingFields(s, reading, detection, t1, t2);
      PushesKeepBounds(s.readings, s.anomalies, Annotate(reading, detection, t1),
                       AnomalyEntry(detection, t2), IsAnomalous(detection));
    case _ =>
  }

  /** The two pushes of `addReading` keep both capacities and the anomalies behind the readings. */
  lemma PushesKeepBounds<T, U>(readings: seq<T>, anomalies: seq<U>, x: T, y: U, grows: bool)
    requires |readings| <= ReadingsCapacity && |anomalies| <= AnomaliesCapacity && |anomalies| <= |readings|
    ensures var readings' := Push(readings, x, ReadingsCapacity);
      var anomalies' := if grows then Push(anomalies, y, AnomaliesCapacity) else anomalies;
      |readings'| <= ReadingsCapacity && |anomalies'| <= AnomaliesCapacity && |anomalies'| <= |readings'|
  {
  }

  /** Every action sequence keeps the store invariant. */
  lemma {:induction false} RunBounded(s: StoreState, actions: seq<Action>)
    requires Bounded(s)
    ensures Bounded(Run(s, actions))
    decreases |actions|
  {
    if actions != [] {
      ApplyBounded(s, actions[0]);
      RunBounded(Apply(s, actions[0]), actions[1..]);
    }
  }

  /** Every state reachable from the initial one satisfies the store invariant. */
  lemma ReachableBounded(actions: seq<Action>)
    ensures Bounded(Run(Initial(), actions))
  {
    RunBounded(Initial(), actions);
  }

  /**
   * What `addReading` does: the readings buffer grows by one up to 50 with the
   * new record last and the newest older records before it; the anomalies
   * buffer does the same up to 30 only for an anomalous detection; threshold,
   * streaming flag and selection are untouched.
   */
  lemma AddReadingEffect(s: StoreState, reading: Record, detection: Record, t1: int, t2: int)
    ensures var s' := Apply(s, AddReading(reading, detection, t1, t2));
      && |s'.readings| == (if |s.readings| < ReadingsCapacity then |s.readings| + 1 else ReadingsCapacity)
      && s'.readings[|s'.readings| - 1] == Annotate(reading, detection, t1)
      && s'.readings[..|s'.readings| - 1] == s.readings[|s.readings| - (|s'.readings| - 1)..]
      && (IsAnomalous(detection) ==>
            && |s'.anomalies| == (if |s.anomalies| < AnomaliesCapacity then |s.anomalies| + 1 else AnomaliesCapacity)
            && s'.anomalies[|s'.anomalies| - 1] == AnomalyEntry(detection, t2)
            && s'.anomalies[..|s'.anomalies| - 1] == s.anomalies[|s.anomalies| - (|s'.anomalies| - 1)..])
      && (!IsAnomalous(detection) ==> s'.anomalies == s.anomalies)
      && s'.threshold == s.threshold
      && s'.isStreaming == s.isStreaming
      && s'.selectedAnomaly == s.selectedAnomaly
  {
    AddReadingFields(s, reading, detection, t1, t2);
    PushKeepsNewest(s.readings, Annotate(reading, detection, t1), ReadingsCapacity);
    PushKeepsNewest(s.anomalies, AnomalyEntry(detection, t2), AnomaliesCapacity);
  }

  /** The state `addReading` produces, field by field. */
  lemma AddReadingFields(s: StoreState, reading: Record, detection: Record, t1: int, t2: int)
    ensures Apply(s, AddReading(reading, detection, t1, t2)) == StoreState(
      Push(s.readings, Annotate(reading, detection, t1), ReadingsCapacity),
      if IsAnomalous(detection) then Push(s.anomalies, AnomalyEntry(detection, t2), AnomaliesCapacity) else s.anomalies,
      s.threshold, s.isStreaming, s.selectedAnomaly)
  {
  }

  /** `clearHistory` empties both buffers and touches nothing else. */
  lemma ClearHistoryEffect(s: StoreState)
    ensures Apply(s, ClearHistory) == s.(readings := [], anomalies := [])
  {
  }

  /** Setters replace one field without validation; of two writes the last one wins. */
  lemma LastWriteWins(s: StoreState, a: Action, b: Action)
    requires (a.SetThreshold? && b.SetThreshold?) || (a.SetStreaming? && b.SetStreaming?)
          || ((a.SelectAnomaly? || a.ClearSelection?) && (b.SelectAnomaly? || b.ClearSelection?))
    ensures Apply(Apply(s, a), b) == Apply(s, b)
  {
  }

  /** `e` is the element `j` places from the newest end of `buf`. */
  ghost predicate AtFromEnd<T>(e: T, buf: seq<T>, j: nat) {
    j < |buf| && buf[|buf| - 1 - j] == e
  }

  /** An action that pushes an anomaly record: an `addReading` with a truthy `is_anomaly`. */
  predicate PushesAnomaly(a: Action) {
    a.AddReading? && IsAnomalous(a.detection)
  }

  /** How many of `actions` push an anomaly record. */
  function AnomalousReadings(actions: seq<Action>): (n: nat)
    ensures n <= |actions|
  {
    if actions == [] then 0
    else (if PushesAnomaly(actions[0]) then 1 else 0) + AnomalousReadings(actions[1..])
  }

  /** Only `clearHistory` and anomalous readings change the anomalies buffer. */
  lemma AnomaliesAfter(s: StoreState, a: Action)
    requires !a.ClearHistory?
    ensures !PushesAnomaly(a) ==> Apply(s, a).anomalies == s.anomalies
    ensures PushesAnomaly(a) ==> Apply(s, a).anomalies == Push(s.anomalies, AnomalyEntry(a.detection, a.anomalyStamp), AnomaliesCapacity)
  {
  }

  /**
   * An anomaly record that is among the newest `j + 1` entries survives any
   * further actions without a `clearHistory` that push fewer than `30 - j`
   * anomaly records, however many normal readings, and so history evictions,
   * come in between.
   */
  lemma {:induction false} AnomalySurvives(s: StoreState, e: Record, j: nat, later: seq<Action>)
    requires AtFromEnd(e, s.anomalies, j)
    requires j + AnomalousReadings(later) < AnomaliesCapacity
    requires forall i :: 0 <= i < |later| ==> !later[i].ClearHistory?
    ensures e in Run(s, later).anomalies
    decreases |later|
  {
    if later == [] {
      assert s.anomalies[|s.anomalies| - 1 - j] == e;
    } else {
      var a := later[0];
      var s' := Apply(s, a);
      var j' := if PushesAnomaly(a) then j + 1 else j;
      AnomaliesAfter(s, a);
      assert AtFromEnd(e, s'.anomalies, j') by {
        if PushesAnomaly(a) {
          PushShifts(s.anomalies, AnomalyEntry(a.detection, a.anomalyStamp), AnomaliesCapacity, e, j);
        }
      }
      assert forall i :: 0 <= i < |later| - 1 ==> !later[1..][i].ClearHistory? by {
        forall i | 0 <= i < |later| - 1 ensures !later[1..][i].ClearHistory? {
          assert later[1..][i] == later[i + 1];
        }
      }
      AnomalySurvives(s', e, j', later[1..]);
      assert Run(s, later) == Run(s', later[1..]);
    }
  }

  /** A push moves every surviving element one place further from the newest end. */
  lemma PushShifts<T>(buf: seq<T>, x: T, cap: nat, e: T, j: nat)
    requires cap > 1
    requires AtFromEnd(e, buf, j)
    requires j + 2 <= cap
    ensures AtFromEnd(e, Push(buf, x, cap), j + 1)
  {
    var r := Push(buf, x, cap);
    PushKeepsNewest(buf, x, cap);
    assert r[|r| - 2 - j] == r[..|r| - 1][|r| - 2 - j];
  }

  /**
   * The anomaly record of an `addReading` stays in the anomalies buffer through
   * any later actions without a `clearHistory` that hold fewer than 30
   * anomalous readings. Normal readings in between are unlimited, so the
   * record outlives its own reading, which 50 further readings push out of
   * the history.
   */
  lemma AnomalyOutlivesReading(s: StoreState, reading: Record, detection: Record, t1: int, t2: int, later: seq<Action>)
    requires IsAnomalous(detection)
    requires AnomalousReadings(later) < AnomaliesCapacity
    requires forall i :: 0 <= i < |later| ==> !later[i].ClearHistory?
    ensures AnomalyEntry(detection, t2) in Run(Apply(s, AddReading(reading, detection, t1, t2)), later).anomalies
  {
    var s' := Apply(s, AddReading(reading, detection, t1, t2));
    AnomaliesAfter(s, AddReading(reading, detection, t1, t2));
    assert AtFromEnd(AnomalyEntry(detection, t2), s'.anomalies, 0);
    AnomalySurvives(s', AnomalyEntry(detection, t2), 0, later);
  }

  /** In particular the record survives any 29 further readings, anomalous or not. */
  lemma AnomalySurvivesReadings(s: StoreState, reading: Record, detection: Record, t1: int, t2: int, later: seq<Action>)
    requires IsAnomalous(detection)
    requires |later| < AnomaliesCapacity
    requires forall i :: 0 <= i < |later| ==> later[i].AddReading?
    ensures AnomalyEntry(detection, t2) in Run(Apply(s, AddReading(reading, detection, t1, t2)), later).anomalies
  {
    AnomalyOutlivesReading(s, reading, detection, t1, t2, later);
  }

  /** An action that keeps the callers' rule: only anomalous records are selected. */
  predicate Guarded(a: Action) {
    a.SelectAnomaly? ==> IsAnomalous(a.anomaly)
  }

  predicate SelectionAnomalous(s: StoreState) {
    s.selectedAnomaly.Some? ==> IsAnomalous(s.selectedAnomaly.value)
  }

  /**
   * The store does not check what is selected; when every caller checks
   * `is_anomaly` first, the selection is only ever an anomalous record.
   */
  lemma {:induction false} GuardedRunSelectsAnomalies(s: StoreState, actions: seq<Action>)
    requires SelectionAnomalous(s)
    requires forall i :: 0 <= i < |actions| ==> Guarded(actions[i])
    ensures SelectionAnomalous(Run(s, actions))
    decreases |actions|
  {
    if actions != [] {
      assert Guarded(actions[0]);
      assert forall i :: 0 <= i < |actions| - 1 ==> actions[1..][i] == actions[i + 1];
      GuardedRunSelectsAnomalies(Apply(s, actions[0]), actions[1..]);
    }
  }

  /** The store itself. Each method performs the action of the same name. */
  class Store {
    var readings: seq<Record>
    var anomalies: seq<Record>
    var threshold: real
    var isStreaming: bool
    var selectedAnomaly: Option<Record>

    function State(): StoreState
      reads this
    {
      StoreState(readings, anomalies, threshold, isStreaming, selectedAnomaly)
    }

    ghost predicate Valid()
      reads this
    {
      Bounded(State())
    }

    constructor ()
      ensures State() == Initial()
      ensures Valid()
    {
      readings := [];
      anomalies := [];
      threshold := DefaultThreshold;
      isStreaming := false;
      selectedAnomaly := None;
    }

    method AddReading(reading: Record, detection: Record, readingStamp: int, anomalyStamp: int)
      requires Valid()
      modifies this
      ensures Valid()
      ensures State() == Apply(old(State()), Action.AddReading(reading, detection, readingStamp, anomalyStamp))
    {
      ghost var before := State();
      ApplyBounded(before, Action.AddReading(reading, detection, readingStamp, anomalyStamp));
      AddReadingFields(before, reading, detection, readingStamp, anomalyStamp);
      readings, anomalies :=
        Push(readings, Annotate(reading, detection, readingStamp), ReadingsCapacity),
        if IsAnomalous(detection) then Push(anomalies, AnomalyEntry(detection, anomalyStamp), AnomaliesCapacity)
        else anomalies;
    }

    method SetThreshold(value: real)
      requires Valid()
      modifies this
      ensures Valid()
      ensures State() == Apply(old(State()), Action.SetThreshold(value))
    {
      threshold := value;
    }

    method SetStreaming(flag: bool)
      requires Valid()
      modifies this
      ensures Valid()
      ensures State() == Apply(old(State()), Action.SetStreaming(flag))
    {
      isStreaming := flag;
    }

    method ClearHistory()
      requires Valid()
      modifies this
      ensures Valid()
      ensures State() == Apply(old(State()), Action.ClearHistory)
    {
      readings := [];
      anomalies := [];
    }

    method SelectAnomaly(anomaly: Record)
      requires Valid()
      modifies this
      ensures Valid()
      ensures State() == Apply(old(State()), Action.SelectAnomaly(anomaly))
    {
      selectedAnomaly := Some(anomaly);
    }

    method ClearSelection()
      requires Valid()
      modifies this
      ensures Valid()
      ensures State() == Apply(old(State()), Action.ClearSelection)
    {
      selectedAnomaly := None;
    }
  }
}
