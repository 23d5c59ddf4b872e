/**
 * The attack generator panel: its choices and defaults, the generate action,
 * and the CSV export of the last generated batch.
 */
module AttackGeneratorPanel {
  import opened Wrappers
  import opened Json
  import opened Text
  import opened Gateway
  import Requests
  import ResearchLog

  /** The attack types offered, in display order. */
  const AttackTypes: seq<string> := ["fuzzy", "spoofing", "replay", "dos"]
  const DefaultAttackType: string := "fuzzy"
  const DefaultNumSamples: int := 50
  const SliderMin: int := 10
  const SliderMax: int := 200
  const SliderStep: int := 10

  /** A value the sample-count slider can take. */
  predicate SliderValue(n: int) {
    SliderMin <= n <= SliderMax && (n - SliderMin) % SliderStep == 0
  }

  /**
   * The panel offers exactly the types the backend admits, its defaults are
   * among its choices, and every choice it can post is accepted unchanged.
   */
  lemma PanelChoicesAccepted(attackType: string, n: int)
    requires attackType in AttackTypes && SliderValue(n)
    ensures (set t | t in AttackTypes) == Requests.AttackTypes
    ensures DefaultAttackType in AttackTypes && SliderValue(DefaultNumSamples)
    ensures Requests.ParseAttackRequest(Requests.AttackBody(attackType, n))
      == Ok(Requests.AttackRequest(attackType, n))
  {
    Requests.AttackBodyAccepted(attackType, n);
  }

  /** The event logged after a successful generation. */
  function GeneratedEvent(attackType: string, numSamples: int): Record {
    map[
      "event" := Str("attack_generated"),
      "attack_type" := Str(attackType),
      "num_samples" := Num(numSamples as real),
      "success" := Bool(true)]
  }

  class GeneratorPanel {
    var attackType: string
    var numSamples: int
    var isGenerating: bool
    var generatedData: Option<AttackBatch>

    constructor ()
      ensures attackType == DefaultAttackType && numSamples == DefaultNumSamples
      ensures !isGenerating && generatedData == None
    {
      attackType := DefaultAttackType;
      numSamples := DefaultNumSamples;
      isGenerating := false;
      generatedData := None;
    }

    /**
     * `handleGenerate`: asks for a batch of the chosen type and size. On
     * success it keeps the batch, logs the generation and hands the batch to
     * the parent's callback when there is one; on failure nothing but the busy
     * flag changes.
     */
    method HandleGenerate(
      generate: (string, int) -> Result<AttackBatch>,
      logger: ResearchLog.ResearchLogger, hasCallback: bool, stamp: nat, iso: string)
      returns (notified: Option<AttackBatch>)
      modifies this, logger`logs
      ensures !isGenerating
      ensures attackType == old(attackType) && numSamples == old(numSamples)
      ensures generate(attackType, numSamples).Fail? ==>
        && generatedData == old(generatedData)
        && logger.logs == old(logger.logs)
        && notified == None
      ensures generate(attackType, numSamples).Ok? ==>
        && generatedData == Some(generate(attackType, numSamples).value)
        && logger.logs == old(logger.logs) +
             [ResearchLog.Entry(logger.sessionId, logger.userId, GeneratedEvent(attackType, numSamples), stamp, iso)]
        && notified == (if hasCallback then Some(generate(attackType, numSamples).value) else None)
    {
      isGenerating := true;
      var result := generate(attackType, numSamples);
      if result.Fail? {
        isGenerating := false;
        return None;
      }
      generatedData := Some(result.value);
      logger.Log(GeneratedEvent(attackType, numSamples), stamp, iso);
      notified := if hasCallback then Some(result.value) else None;
      isGenerating := false;
    }
  }

  /**
   * One CSV cell, as `Array.prototype.join` renders a value: a missing or
   * null value is the empty string, a string is itself, a boolean is `true`
   * or `false` and an object is `[object Object]`. `render` is the
   * number-to-text conversion of numbers (and of arrays, whose elements go
   * through the same conversion).
   */
  function Cell(row: Record, h: string, render: Value -> string): (c: string)
    ensures h !in row || row[h].Null? ==> c == ""
    ensures h in row && row[h].Str? ==> c == row[h].s
    ensures h in row && row[h].Bool? ==> c == (if row[h].b then "true" else "false")
    ensures h in row && row[h].Obj? ==> c == "[object Object]"
    ensures h in row && (row[h].Num? || row[h].Arr?) ==> c == render(row[h])
  {
    if h !in row then ""
    else match row[h]
      case Null => ""
      case Str(s) => s
      case Bool(b) => if b then "true" else "false"
      case Obj(_) => "[object Object]"
      case _ => render(row[h])
  }

  /** The cells of one sample, in header order. */
  function Cells(row: Record, header: seq<string>, render: Value -> string): (cs: seq<string>)
    ensures |cs| == |header|
    ensures forall j :: 0 <= j < |header| ==> cs[j] == Cell(row, header[j], render)
  {
    seq(|header|, j requires 0 <= j < |header| => Cell(row, header[j], render))
  }

  /** The CSV lines: the header, then one line per sample in sample order. */
  function CsvLines(header: seq<string>, samples: seq<Record>, render: Value -> string): (lines: seq<string>)
    ensures |lines| == 1 + |samples|
    ensures lines[0] == Join(header, ',')
    ensures forall i :: 0 <= i < |samples| ==> lines[i + 1] == Join(Cells(samples[i], header, render), ',')
  {
    [Join(header, ',')] + seq(|samples|, i requires 0 <= i < |samples| => Join(Cells(samples[i], header, render), ','))
  }

  datatype Download = NoData | Crash | Csv(text: string)

  /**
   * `handleDownload`: nothing without generated data; the header is the keys
   * of the first sample, in the order `keysOf` lists them, so an empty batch
   * makes the handler throw.
   */
  function HandleDownload(data: Option<AttackBatch>, keysOf: Record -> seq<string>, render: Value -> string): (d: Download)
    ensures data.None? <==> d.NoData?
    ensures d.Crash? <==> data.Some? && data.value.samples == []
    ensures d.Csv? ==>
      d.text == Join(CsvLines(keysOf(data.value.samples[0]), data.value.samples, render), '\n')
  {
    match data
    case None => NoData
    case Some(batch) =>
      if batch.samples == [] then Crash
      else Csv(Join(CsvLines(keysOf(batch.samples[0]), batch.samples, render), '\n'))
  }

  /** No header name and no rendered cell contains `c`. */
  predicate Avoids(header: seq<string>, samples: seq<Record>, render: Value -> string, c: char) {
    && (forall j :: 0 <= j < |header| ==> c !in header[j])
    && (forall i, j :: 0 <= i < |samples| && 0 <= j < |header| ==> c !in Cell(samples[i], header[j], render))
  }

  /**
   * Without quoting the CSV reads back only when no value holds a separator:
   * then it has 1 + |samples| lines, the first splits into the header and
   * each other into its sample's cells.
   */
  lemma {:induction false} CsvReadsBack(header: seq<string>, samples: seq<Record>, render: Value -> string, i: nat)
    requires |header| >= 1 && i < |samples|
    requires Avoids(header, samples, render, '\n') && Avoids(header, samples, render, ',')
    ensures Split(Join(CsvLines(header, samples, render), '\n'), '\n') == CsvLines(header, samples, render)
    ensures |Split(Join(CsvLines(header, samples, render), '\n'), '\n')| == 1 + |samples|
    ensures Split(CsvLines(header, samples, render)[0], ',') == header
    ensures Split(CsvLines(header, samples, render)[i + 1], ',') == Cells(samples[i], header, render)
  {
    var lines := CsvLines(header, samples, render);
    LinesAvoidNewline(header, samples, render);
    SplitJoin(lines, '\n');
    assert '\n' != ',';
    assert forall p :: p in header ==> ',' !in p;
    SplitJoin(header, ',');
    CellsAvoid(header, samples, render, i, ',');
    SplitJoin(Cells(samples[i], header, render), ',');
  }

  /** The cells of sample `i` avoid `c` when every cell does. */
  lemma CellsAvoid(header: seq<string>, samples: seq<Record>, render: Value -> string, i: nat, c: char)
    requires i < |samples| && Avoids(header, samples, render, c)
    ensures forall p :: p in Cells(samples[i], header, render) ==> c !in p
  {
    var cs := Cells(samples[i], header, render);
    forall p | p in cs
      ensures c !in p
    {
      var j :| 0 <= j < |cs| && cs[j] == p;
      assert c !in Cell(samples[i], header[j], render);
    }
  }

  /** No CSV line contains a line break when no header name or cell does. */
  lemma LinesAvoidNewline(header: seq<string>, samples: seq<Record>, render: Value -> string)
    requires Avoids(header, samples, render, '\n')
    ensures forall l :: l in CsvLines(header, samples, render) ==> '\n' !in l
  {
    var lines := CsvLines(header, samples, render);
    forall l | l in lines
      ensures '\n' !in l
    {
      var k :| 0 <= k < |lines| && lines[k] == l;
      if k == 0 {
        assert forall p :: p in header ==> '\n' !in p;
        JoinAvoids(header, ',', '\n');
      } else {
        CellsAvoid(header, samples, render, k - 1, '\n');
        JoinAvoids(Cells(samples[k - 1], header, render), ',', '\n');
      }
    }
  }
}
