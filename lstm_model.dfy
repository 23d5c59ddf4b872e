/**
 * The LSTM autoencoder detector, apart from the network: the sliding
 * windows used to calibrate it, and the truncation, width check and strict
 * threshold test of `detect`.
 */
module LstmModel {
  import opened Wrappers
  import opened Gateway

  const SeqLen: nat := 10

  /** The columns the detector's scaler is fitted on: no voltage. */
  const LstmFeatures: seq<string> := [
    "datetime", "Accelerometer1RMS", "Accelerometer2RMS", "Current", "Pressure",
    "Temperature", "Thermocouple", "Volume Flow RateRMS"]

  /** `sequence[-10:]`: the last min(10, n) rows. */
  function LastRows<T>(sequence: seq<T>): (w: seq<T>)
    ensures |w| == if |sequence| < SeqLen then |sequence| else SeqLen
    ensures w == sequence[|sequence| - |w|..]
  {
    if |sequence| <= SeqLen then sequence else sequence[|sequence| - SeqLen..]
  }

  /** Every row of `rows` has `width` values. */
  predicate HasWidth(rows: seq<seq<real>>, width: nat) {
    forall i :: 0 <= i < |rows| ==> |rows[i]| == width
  }

  /**
   * The detector: its calibrated threshold, the number of columns its scaler
   * was fitted on, and the reconstruction error the network gives a window.
   */
  datatype LstmDetector = LstmDetector(threshold: real, width: nat, reconstructionError: seq<seq<real>> -> real)
  {
    /**
     * `detect`: only the last ten rows are used; the scaler refuses an empty
     * window or a row of the wrong width; otherwise the window is anomalous
     * when its error is strictly above the threshold. Both are numpy floats,
     * so the flag is a `numpy.bool_`.
     */
    function Detect(sequence: seq<seq<real>>): (r: Result<(Flag, real)>)
      ensures var window := LastRows(sequence);
        && (r.Ok? <==> |window| > 0 && HasWidth(window, width))
        && (r.Ok? ==> r.value.1 == reconstructionError(window))
        && (r.Ok? ==> r.value.0.NumpyBool?)
        && (r.Ok? ==> (r.value.0.Truth() <==> reconstructionError(window) > threshold))
    {
      var window := LastRows(sequence);
      if |window| == 0 then Fail("Found array with 0 sample(s) while a minimum of 1 is required by StandardScaler.")
      else if !HasWidth(window, width) then
        Fail("X has a different number of features than StandardScaler is expecting as input.")
      else
        var error := reconstructionError(window);
        Ok((NumpyBool(error > threshold), error))
    }
  }

  /** Only the last ten rows matter: two inputs with the same last ten rows get the same answer. */
  lemma DetectUsesLastTen(d: LstmDetector, s: seq<seq<real>>, t: seq<seq<real>>)
    requires |s| >= SeqLen && |t| >= SeqLen
    requires s[|s| - SeqLen..] == t[|t| - SeqLen..]
    ensures d.Detect(s) == d.Detect(t)
  {
    assert LastRows(s) == LastRows(t);
  }

  /** The windows `_create_sequences` is specified to build: every start that leaves a row after the window. */
  function Windows<T>(data: seq<T>, seqLen: nat): (ws: seq<seq<T>>)
    ensures |ws| == if |data| > seqLen then |data| - seqLen else 0
    ensures forall i :: 0 <= i < |ws| ==> ws[i] == data[i..i + seqLen]
  {
    var count := if |data| > seqLen then |data| - seqLen else 0;
    seq(count, i requires 0 <= i < count => data[i..i + seqLen])
  }

  /** `_create_sequences`: one window per start in `range(len(data) - seq_len)`, appended in order. */
  method CreateSequences<T>(data: seq<T>, seqLen: nat) returns (xs: seq<seq<T>>)
    ensures xs == Windows(data, seqLen)
  {
    xs := [];
    var i := 0;
    while i < |data| - seqLen
      invariant 0 <= i
      invariant |data| > seqLen ==> i <= |data| - seqLen
      invariant |data| <= seqLen ==> i == 0
      invariant |xs| == i
      invariant forall j :: 0 <= j < i ==> xs[j] == data[j..j + seqLen]
    {
      xs := xs + [data[i..i + seqLen]];
      i := i + 1;
    }
  }

  /**
   * Every window is `seqLen` long, consecutive windows overlap in all but one
   * row, and the last row is never part of a window: the final window is not
   * produced.
   */
  lemma {:induction false} WindowsShape<T>(data: seq<T>, seqLen: nat, i: nat)
    requires seqLen > 0 && i + 1 < |Windows(data, seqLen)|
    ensures |Windows(data, seqLen)[i]| == seqLen
    ensures Windows(data, seqLen)[i + 1][..seqLen - 1] == Windows(data, seqLen)[i][1..]
    ensures |Windows(data, seqLen)| + seqLen == |data|
  {
    var ws := Windows(data, seqLen);
    assert ws[i] == data[i..i + seqLen];
    assert ws[i + 1] == data[i + 1..i + 1 + seqLen];
    assert i + 1 + seqLen <= |data|;
    forall k | 0 <= k < seqLen - 1
      ensures ws[i + 1][..seqLen - 1][k] == ws[i][1..][k]
    {
      assert ws[i + 1][k] == data[i + 1 + k];
    }
    assert ws[i + 1][..seqLen - 1] == data[i + 1..i + seqLen];
    assert ws[i][1..] == data[i + 1..i + seqLen];
  }
}
