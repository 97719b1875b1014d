/** The batch tab: rows parsed from a CSV file are normalised into feature records,
    scored one at a time in file order, tagged with the answer or an error marker,
    and summarised over the rows that carry no error. */
module Batch {
  import opened Js
  import opened Client

  /** A parsed CSV row: column name to cell text. */
  type RawRow = map<string, string>

  /** A cell of a result row: text from the file or the service, or a number. */
  datatype Value = Text(s: string) | Numeric(r: real)

  /** A result row, a JavaScript object keyed by column name. */
  type Row = map<string, Value>

  /** JavaScript's `parseInt` and `parseFloat` on a cell's text. */
  datatype Parsers = Parsers(parseInt: string -> Number, parseFloat: string -> Number)

  /** The remote scorer: the settled answer of the `n`-th call, made with the given
      record. The call index lets the same record fail on one call and succeed on another. */
  type Scorer = (nat, CustomerFeatures) -> Outcome<PredictionResponse>

  const ChurnProbabilityColumn: string := "Churn_Probability"
  const PredictionColumn: string := "Prediction"
  const RiskLevelColumn: string := "Risk_Level"
  const ErrorColumn: string := "Error"
  const WillChurn: string := "Will Churn"
  const WillNotChurn: string := "Will Not Churn"
  const PredictionFailed: string := "Prediction failed"
  const NoFileError: string := "Please select a CSV file"

  // ---------------------------------------------------------------------------
  // Normalisation

  /** The parse of one cell; a missing column reads as `undefined`, which both
      parsers turn into `NaN`. */
  function Cell(row: RawRow, column: string, parse: string -> Number): (n: Number)
    ensures column !in row ==> n == NaN
    ensures column in row ==> n == parse(row[column])
  {
    if column in row then parse(row[column]) else NaN
  }

  /** The fallback of `|| d` for each field: 1 for the product count, 0 for the rest. */
  function Default(field: Field): real {
    if field == NumOfProducts then 1.0 else 0.0
  }

  /** The parser each field goes through: `parseFloat` for the balance and the
      salary, `parseInt` for everything else. */
  function ParserFor(field: Field, parsers: Parsers): string -> Number {
    if field == Balance || field == EstimatedSalary then parsers.parseFloat else parsers.parseInt
  }

  /** The feature record built from one row. */
  function Normalize(row: RawRow, parsers: Parsers): (f: CustomerFeatures)
    ensures forall field: Field :: Get(f, field) == OrElse(Cell(row, field.Name(), ParserFor(field, parsers)), Default(field))
  {
    CustomerFeatures(
      OrElse(Cell(row, "CreditScore", parsers.parseInt), 0.0),
      OrElse(Cell(row, "Age", parsers.parseInt), 0.0),
      OrElse(Cell(row, "Tenure", parsers.parseInt), 0.0),
      OrElse(Cell(row, "Balance", parsers.parseFloat), 0.0),
      OrElse(Cell(row, "NumOfProducts", parsers.parseInt), 1.0),
      OrElse(Cell(row, "HasCrCard", parsers.parseInt), 0.0),
      OrElse(Cell(row, "IsActiveMember", parsers.parseInt), 0.0),
      OrElse(Cell(row, "EstimatedSalary", parsers.parseFloat), 0.0),
      OrElse(Cell(row, "Geography_Germany", parsers.parseInt), 0.0),
      OrElse(Cell(row, "Geography_Spain", parsers.parseInt), 0.0))
  }

  /** Normalisation is total and never yields `NaN`; the product count is never 0. */
  lemma NormalizeNeverFails(row: RawRow, parsers: Parsers)
    ensures forall field: Field :: Get(Normalize(row, parsers), field) != NaN
    ensures Truthy(Normalize(row, parsers).numOfProducts)
  {
  }

  /** A missing cell, an unparsable one and one that parses to 0 all give the field's default. */
  lemma FalsyCellGivesDefault(row: RawRow, parsers: Parsers, field: Field)
    requires field.Name() !in row || !Truthy(ParserFor(field, parsers)(row[field.Name()]))
    ensures Get(Normalize(row, parsers), field) == Finite(Default(field))
  {
  }

  /** A cell that parses to a non-zero number is kept as parsed. */
  lemma TruthyCellIsKept(row: RawRow, parsers: Parsers, field: Field)
    requires field.Name() in row && Truthy(ParserFor(field, parsers)(row[field.Name()]))
    ensures Get(Normalize(row, parsers), field) == ParserFor(field, parsers)(row[field.Name()])
  {
  }

  /** The geography flags are normalised independently: a row whose two geography
      cells both parse to 1 gives a record with both flags at 1. */
  lemma BothGeographyFlagsPass(row: RawRow, parsers: Parsers)
    requires "Geography_Germany" in row && parsers.parseInt(row["Geography_Germany"]) == Finite(1.0)
    requires "Geography_Spain" in row && parsers.parseInt(row["Geography_Spain"]) == Finite(1.0)
    ensures Normalize(row, parsers).geographyGermany == Finite(1.0)
    ensures Normalize(row, parsers).geographySpain == Finite(1.0)
  {
  }

  // ---------------------------------------------------------------------------
  // Tagging each row with its answer

  function Label(prediction: int): (s: string)
    ensures s == WillChurn <==> prediction == 1
  {
    if prediction == 1 then WillChurn else WillNotChurn
  }

  /** `{ ...row }`: the row's cells as text. */
  function Spread(raw: RawRow): (r: Row)
    ensures r.Keys == raw.Keys
    ensures forall k :: k in raw ==> r[k] == Text(raw[k])
  {
    map k | k in raw :: Text(raw[k])
  }

  /** The columns an answer adds to (or overwrites in) a row. */
  function AddedColumns(outcome: Outcome<PredictionResponse>): set<string> {
    if outcome.Ok? then {ChurnProbabilityColumn, PredictionColumn, RiskLevelColumn} else {ErrorColumn}
  }

  /** The result row for one input row: the answer's three columns on success,
      the error marker on failure, every other column of the input kept. */
  function Tag(raw: RawRow, outcome: Outcome<PredictionResponse>): (r: Row)
    ensures r.Keys == raw.Keys + AddedColumns(outcome)
    ensures forall k :: k in raw && k !in AddedColumns(outcome) ==> r[k] == Text(raw[k])
    ensures outcome.Ok? ==>
              r[ChurnProbabilityColumn] == Numeric(outcome.value.churnProbability) &&
              r[RiskLevelColumn] == Text(outcome.value.riskLevel) &&
              (r[PredictionColumn] == Text(WillChurn) <==> outcome.value.prediction == 1) &&
              (r[PredictionColumn] == Text(WillNotChurn) <==> outcome.value.prediction != 1)
    ensures outcome.Fail? ==> r[ErrorColumn] == Text(PredictionFailed)
  {
    match outcome
    case Ok(pred) =>
      Spread(raw)[ChurnProbabilityColumn := Numeric(pred.churnProbability)]
                 [PredictionColumn := Text(Label(pred.prediction))]
                 [RiskLevelColumn := Text(pred.riskLevel)]
    case Fail(_) =>
      Spread(raw)[ErrorColumn := Text(PredictionFailed)]
  }

  /** The answers the scorer gives, call `i` being made for row `i`. */
  function Outcomes(rows: seq<RawRow>, score: Scorer, parsers: Parsers): (outs: seq<Outcome<PredictionResponse>>)
    ensures |outs| == |rows|
    ensures forall i :: 0 <= i < |rows| ==> outs[i] == score(i, Normalize(rows[i], parsers))
  {
    seq(|rows|, i requires 0 <= i < |rows| => score(i, Normalize(rows[i], parsers)))
  }

  /** The rows tagged with their answers, pairwise. */
  function TagAll(rows: seq<RawRow>, outs: seq<Outcome<PredictionResponse>>): (r: seq<Row>)
    requires |rows| == |outs|
    ensures |r| == |rows|
    ensures forall i :: 0 <= i < |rows| ==> r[i] == Tag(rows[i], outs[i])
  {
    if rows == [] then [] else [Tag(rows[0], outs[0])] + TagAll(rows[1..], outs[1..])
  }

  /** The scoring loop: one awaited call per row, in file order; a failed call
      tags its row and the loop moves on without retrying. */
  method ScoreRows(rows: seq<RawRow>, score: Scorer, parsers: Parsers) returns (predictions: seq<Row>)
    ensures |predictions| == |rows|
    ensures forall i :: 0 <= i < |rows| ==> predictions[i] == Tag(rows[i], score(i, Normalize(rows[i], parsers)))
  {
    predictions := [];
    var i := 0;
    while i < |rows|
      invariant 0 <= i <= |rows|
      invariant |predictions| == i
      invariant forall j :: 0 <= j < i ==> predictions[j] == Tag(rows[j], score(j, Normalize(rows[j], parsers)))
    {
      var features := Normalize(rows[i], parsers);
      var answer := score(i, features);
      predictions := predictions + [Tag(rows[i], answer)];
      i := i + 1;
    }
  }

  // ---------------------------------------------------------------------------
  // Statistics

  datatype Stats = Stats(total: nat, churn: nat, avgProbability: real, highRisk: nat)

  /** `!p.Error`: the row has no `Error` cell, or an empty or zero one. */
  predicate NoError(p: Row) {
    ErrorColumn !in p ||
    match p[ErrorColumn]
    case Text(s) => s == ""
    case Numeric(r) => r == 0.0
  }

  /** `predictions.filter((p) => !p.Error)`. */
  function ValidPredictions(ps: seq<Row>): (r: seq<Row>)
    ensures |r| <= |ps|
    ensures forall p :: p in r <==> p in ps && NoError(p)
  {
    if ps == [] then []
    else if NoError(ps[0]) then [ps[0]] + ValidPredictions(ps[1..])
    else ValidPredictions(ps[1..])
  }

  /** The filter keeps every error-free row as often as it occurs and drops every
      other row. */
  lemma {:induction false} ValidPredictionsCounts(ps: seq<Row>)
    ensures forall p :: multiset(ValidPredictions(ps))[p] == if NoError(p) then multiset(ps)[p] else 0
  {
    if ps != [] {
      ValidPredictionsCounts(ps[1..]);
      assert ps == [ps[0]] + ps[1..];
    }
  }

  /** The filter keeps the rows' order: filtering a concatenation is concatenating
      the filtered parts. */
  lemma {:induction false} ValidPredictionsAppend(a: seq<Row>, b: seq<Row>)
    ensures ValidPredictions(a + b) == ValidPredictions(a) + ValidPredictions(b)
  {
    if a == [] {
      assert a + b == b;
    } else {
      var ab := a + b;
      assert ab[0] == a[0];
      assert ab[1..] == a[1..] + b;
      ValidPredictionsAppend(a[1..], b);
      if NoError(a[0]) {
        calc {
          ValidPredictions(ab);
          [a[0]] + ValidPredictions(a[1..] + b);
          [a[0]] + (ValidPredictions(a[1..]) + ValidPredictions(b));
          ([a[0]] + ValidPredictions(a[1..])) + ValidPredictions(b);
        }
      }
    }
  }

  /** A single row is kept exactly when it has no error. */
  lemma ValidPredictionsSingle(p: Row)
    ensures ValidPredictions([p]) == if NoError(p) then [p] else []
  {
    assert [p][1..] == [];
  }

  /** The number of rows whose `column` holds the given text. */
  function CountText(ps: seq<Row>, column: string, text: string): (n: nat)
    ensures n <= |ps|
  {
    if ps == [] then 0
    else (if column in ps[0] && ps[0][column] == Text(text) then 1 else 0) + CountText(ps[1..], column, text)
  }

  function Probability(p: Row): real {
    if ChurnProbabilityColumn in p && p[ChurnProbabilityColumn].Numeric? then p[ChurnProbabilityColumn].r else 0.0
  }

  /** `reduce((sum, p) => sum + p.Churn_Probability, 0)`. */
  function SumProbability(ps: seq<Row>): real {
    if ps == [] then 0.0 else Probability(ps[0]) + SumProbability(ps[1..])
  }

  /** The summary of a run: computed over the rows without an error, and absent
      when there is none. */
  function Summarize(ps: seq<Row>): (s: Option<Stats>)
    ensures s.Some? <==> exists p :: p in ps && NoError(p)
    ensures s.Some? ==> s.value.total == |ValidPredictions(ps)| <= |ps|
    ensures s.Some? ==> s.value.churn <= s.value.total && s.value.highRisk <= s.value.total
  {
    var valid := ValidPredictions(ps);
    if |valid| > 0 then
      assert valid[0] in valid;
      Some(Stats(
        |valid|,
        CountText(valid, PredictionColumn, WillChurn),
        SumProbability(valid) / |valid| as real,
        CountText(valid, RiskLevelColumn, "High")))
    else
      assert forall p :: p in ps && NoError(p) ==> p in valid;
      None
  }

  // ---------------------------------------------------------------------------
  // Statistics in terms of the scorer's answers

  function CountOk(outs: seq<Outcome<PredictionResponse>>): (n: nat)
    ensures n <= |outs|
  {
    if outs == [] then 0 else (if outs[0].Ok? then 1 else 0) + CountOk(outs[1..])
  }

  function CountChurn(outs: seq<Outcome<PredictionResponse>>): nat {
    if outs == [] then 0
    else (if outs[0].Ok? && outs[0].value.prediction == 1 then 1 else 0) + CountChurn(outs[1..])
  }

  function CountHighRisk(outs: seq<Outcome<PredictionResponse>>): nat {
    if outs == [] then 0
    else (if outs[0].Ok? && outs[0].value.riskLevel == "High" then 1 else 0) + CountHighRisk(outs[1..])
  }

  function SumOk(outs: seq<Outcome<PredictionResponse>>): real {
    if outs == [] then 0.0
    else (if outs[0].Ok? then outs[0].value.churnProbability else 0.0) + SumOk(outs[1..])
  }

  /** The input row has no `Error` column of its own that would survive the spread. */
  predicate NoErrorCell(raw: RawRow) {
    ErrorColumn !in raw || raw[ErrorColumn] == ""
  }

  /** A failed call always removes its row from the statistics. */
  lemma FailedRowIsExcluded(raw: RawRow, e: HttpError)
    ensures !NoError(Tag(raw, Fail(e)))
  {
  }

  /** Tagged rows without an error marker never outnumber the successful calls. */
  lemma {:induction false} ValidAtMostOk(rows: seq<RawRow>, outs: seq<Outcome<PredictionResponse>>)
    requires |rows| == |outs|
    ensures |ValidPredictions(TagAll(rows, outs))| <= CountOk(outs)
  {
    if rows != [] {
      ValidAtMostOk(rows[1..], outs[1..]);
      assert TagAll(rows, outs) == [Tag(rows[0], outs[0])] + TagAll(rows[1..], outs[1..]);
      assert TagAll(rows, outs)[1..] == TagAll(rows[1..], outs[1..]);
    }
  }

  /** When no input row brings its own `Error` cell, the rows counted are exactly
      the successful calls, and every statistic is the matching count over the answers. */
  lemma {:induction false} ValidMatchesOutcomes(rows: seq<RawRow>, outs: seq<Outcome<PredictionResponse>>)
    requires |rows| == |outs|
    requires forall i :: 0 <= i < |rows| ==> NoErrorCell(rows[i])
    ensures |ValidPredictions(TagAll(rows, outs))| == CountOk(outs)
    ensures CountText(ValidPredictions(TagAll(rows, outs)), PredictionColumn, WillChurn) == CountChurn(outs)
    ensures CountText(ValidPredictions(TagAll(rows, outs)), RiskLevelColumn, "High") == CountHighRisk(outs)
    ensures SumProbability(ValidPredictions(TagAll(rows, outs))) == SumOk(outs)
  {
    if rows != [] {
      ValidMatchesOutcomes(rows[1..], outs[1..]);
      var tagged := TagAll(rows, outs);
      var head := Tag(rows[0], outs[0]);
      assert tagged[1..] == TagAll(rows[1..], outs[1..]);
      assert tagged[0] == head;
      if outs[0].Ok? {
        assert NoError(head);
        assert ValidPredictions(tagged) == [head] + ValidPredictions(tagged[1..]);
        assert ([head] + ValidPredictions(tagged[1..]))[1..] == ValidPredictions(tagged[1..]);
      } else {
        assert !NoError(head);
      }
    }
  }

  /** The summary of a run whose input rows bring no `Error` cell: absent exactly when
      no call succeeded, otherwise the counts and the mean over the successful answers. */
  lemma StatsOfRun(rows: seq<RawRow>, outs: seq<Outcome<PredictionResponse>>)
    requires |rows| == |outs|
    requires forall i :: 0 <= i < |rows| ==> NoErrorCell(rows[i])
    ensures Summarize(TagAll(rows, outs)).None? <==> CountOk(outs) == 0
    ensures CountOk(outs) > 0 ==>
              Summarize(TagAll(rows, outs)) ==
              Some(Stats(CountOk(outs), CountChurn(outs), SumOk(outs) / CountOk(outs) as real, CountHighRisk(outs)))
  {
    ValidMatchesOutcomes(rows, outs);
  }

  /** The mean over the successful answers is a probability when they all are. */
  lemma {:induction false} MeanIsProbability(outs: seq<Outcome<PredictionResponse>>)
    requires forall i :: 0 <= i < |outs| && outs[i].Ok? ==> 0.0 <= outs[i].value.churnProbability <= 1.0
    ensures 0.0 <= SumOk(outs) <= CountOk(outs) as real
    ensures CountOk(outs) > 0 ==> 0.0 <= SumOk(outs) / CountOk(outs) as real <= 1.0
  {
    if outs != [] {
      MeanIsProbability(outs[1..]);
    }
    if CountOk(outs) > 0 {
      var n := CountOk(outs) as real;
      assert SumOk(outs) / n * n == SumOk(outs);
    }
  }

  /** An input column named `Error` with a non-empty cell survives the spread, so a
      row whose call succeeded is still left out of the statistics. */
  lemma ErrorColumnHidesSuccess(raw: RawRow, pred: PredictionResponse)
    requires ErrorColumn in raw && raw[ErrorColumn] != ""
    ensures !NoError(Tag(raw, Ok(pred)))
    ensures Summarize([Tag(raw, Ok(pred))]) == None
  {
  }

  // ---------------------------------------------------------------------------
  // The tab's state

  /** A file chosen in the file input. */
  datatype CsvFile = CsvFile(name: string)

  class BatchTab {
    var file: Option<CsvFile>
    var loading: bool
    var error: Option<string>
    var results: seq<Row>
    var stats: Option<Stats>

    constructor ()
      ensures file == None && !loading && error == None && results == [] && stats == None
    {
      file, loading, error, results, stats := None, false, None, [], None;
    }

    /** `handleFileChange`: a chosen file replaces the old one and clears the error
        and the results; the statistics stay. */
    method HandleFileChange(selected: Option<CsvFile>)
      modifies this
      ensures selected.Some? ==> file == selected && error == None && results == []
      ensures selected.None? ==> file == old(file) && error == old(error) && results == old(results)
      ensures loading == old(loading) && stats == old(stats)
    {
      if selected.Some? {
        file := selected;
        error := None;
        results := [];
      }
    }

    /** `handlePredictBatch` up to the parse: without a file it only sets the error;
        with one it starts loading, clears the error and the results, and asks the
        parser for the rows. */
    method HandlePredictBatch() returns (parseStarted: bool)
      modifies this
      ensures parseStarted <==> file.Some?
      ensures file == old(file) && stats == old(stats)
      ensures !parseStarted ==> error == Some(NoFileError) && results == old(results) && loading == old(loading)
      ensures parseStarted ==> loading && error == None && results == []
    {
      if file.None? {
        error := Some(NoFileError);
        return false;
      }
      loading := true;
      error := None;
      results := [];
      return true;
    }

    /** The parser's `complete` callback: scores every row, stores the tagged rows,
        and replaces the statistics only when some row has no error. */
    method OnParseComplete(rows: seq<RawRow>, score: Scorer, parsers: Parsers)
      modifies this
      ensures results == TagAll(rows, Outcomes(rows, score, parsers))
      ensures |results| == |rows|
      ensures Summarize(results).Some? ==> stats == Summarize(results)
      ensures Summarize(results).None? ==> stats == old(stats)
      ensures !loading && error == old(error) && file == old(file)
    {
      var predictions := ScoreRows(rows, score, parsers);
      assert predictions == TagAll(rows, Outcomes(rows, score, parsers));
      results := predictions;
      var summary := Summarize(predictions);
      if summary.Some? {
        stats := summary;
      }
      loading := false;
    }

    /** The parser's `error` callback. */
    method OnParseError(message: string)
      modifies this
      ensures error == Some("CSV parsing error: " + message) && !loading
      ensures results == old(results) && stats == old(stats) && file == old(file)
    {
      error := Some("CSV parsing error: " + message);
      loading := false;
    }

    /** `downloadResults`: nothing without results, otherwise the rows handed to
        `Papa.unparse`; the state is not touched, so repeating it gives the same rows. */
    method DownloadResults() returns (exported: Option<seq<Row>>)
      ensures exported.None? <==> results == []
      ensures exported.Some? ==> exported.value == results
    {
      if |results| == 0 {
        return None;
      }
      return Some(results);
    }
  }
}
