/**
 * The CSV log: its fixed column layout, the row written for one run, and a writer that
 * appends to the log file, writing the header first when the file is empty. The file is
 * modelled as its sequence of rows, each a sequence of cell texts.
 */
module CsvLog {
  import opened Outcomes
  import opened Gateway

  /** `[prefix + name for name in names]`. */
  function Prefixed(prefix: string, names: seq<string>): (r: seq<string>)
    ensures |r| == |names|
    ensures forall i :: 0 <= i < |names| ==> r[i] == prefix + names[i]
  {
    if names == [] then [] else [prefix + names[0]] + Prefixed(prefix, names[1..])
  }

  const FourGMetricNames: seq<string> := Prefixed("4g_", BaseTowerMetricNames)

  const FiveGMetricNames: seq<string> := Prefixed("5g_", BaseTowerMetricNames)

  /** The header row: throughput scalars, then the 4G columns, then the 5G columns. */
  const OrderedColumnNames: seq<string> := ThroughputMetricNames + FourGMetricNames + FiveGMetricNames

  const ColumnSet: set<string> := set c | c in OrderedColumnNames

  /** The arguments of one `add_run_output` call; a speed-test float is given by its text, `None` when not measured. */
  datatype RunOutput = RunOutput(
    ping: Option<string>,
    download: Option<string>,
    upload: Option<string>,
    timestamp: string,
    fourG: TowerMetrics,
    fiveG: TowerMetrics)

  /** The error `csv.DictWriter.writerow` raises for keys that are not columns. */
  datatype WriteError = ValueError(wrongFields: set<string>)

  /** The cell the csv module writes for an optional value: `None` becomes an empty cell. */
  function CellText(v: Option<string>): string {
    match v
    case None => ""
    case Some(t) => t
  }

  lemma {:induction false} PrefixInjective(prefix: string, a: string, b: string)
    requires prefix + a == prefix + b
    ensures a == b
  {
    assert a == (prefix + a)[|prefix|..];
    assert b == (prefix + b)[|prefix|..];
  }

  /** `{prefix + key: value for key, value in m.items()}`. */
  function PrefixKeys(prefix: string, m: map<string, string>): (r: map<string, string>)
    ensures forall k {:trigger prefix + k} :: k in m ==> prefix + k in r && r[prefix + k] == m[k]
    ensures forall k :: k in r ==> |prefix| <= |k| && k[..|prefix|] == prefix && k[|prefix|..] in m
  {
    forall a, b | a in m && b in m && prefix + a == prefix + b ensures a == b {
      PrefixInjective(prefix, a, b);
    }
    var r := map k | k in m :: prefix + k := m[k];
    assert forall k :: k in r ==> |prefix| <= |k| && k[..|prefix|] == prefix && k[|prefix|..] in m by {
      forall k | k in r ensures |prefix| <= |k| && k[..|prefix|] == prefix && k[|prefix|..] in m {
        var k' :| k' in m && k == prefix + k';
        assert k[|prefix|..] == k';
      }
    }
    r
  }

  /** The dict `add_run_output` assembles: the four scalars, updated with the 4G and then the 5G record. */
  function RowDict(run: RunOutput): map<string, string> {
    ScalarCells(run) + PrefixKeys("4g_", run.fourG) + PrefixKeys("5g_", run.fiveG)
  }

  /** The four throughput entries of the row dict. */
  function ScalarCells(run: RunOutput): map<string, string> {
    map["timestamp" := run.timestamp,
        "ping" := CellText(run.ping),
        "download" := CellText(run.download),
        "upload" := CellText(run.upload)]
  }

  /** Keys of a row dict that are not columns; `writerow` raises if there is any. */
  function WrongFields(row: map<string, string>): set<string> {
    row.Keys - ColumnSet
  }

  /** The cells `writerow` writes for `columns`: each column's value, or "" when the dict lacks it. */
  function RowCells(columns: seq<string>, row: map<string, string>): (cells: seq<string>)
    ensures |cells| == |columns|
    ensures forall i :: 0 <= i < |columns| ==> cells[i] == GetOr(row, columns[i], "")
  {
    if columns == [] then []
    else [GetOr(row, columns[0], "")] + RowCells(columns[1..], row)
  }

  /** The data row `writerow` writes for a row dict, in header order. */
  function DataRow(row: map<string, string>): seq<string> {
    RowCells(OrderedColumnNames, row)
  }

  /** Both records carry only tower-metric field names. */
  predicate KnownFields(run: RunOutput) {
    run.fourG.Keys <= TowerMetricKeys && run.fiveG.Keys <= TowerMetricKeys
  }

  /** The log file after one `add_run_output` call on a file holding `file`. */
  function AfterRun(file: seq<seq<string>>, run: RunOutput): (r: seq<seq<string>>)
    ensures file != [] ==> |file| <= |r| <= |file| + 1 && r[..|file|] == file
    ensures file == [] ==> 1 <= |r| <= 2 && r[0] == OrderedColumnNames
  {
    var start := if file == [] then [OrderedColumnNames] else file;
    var rows := Written(run);
    assert (start + rows)[..|start|] == start;
    start + rows
  }

  /** The data row one call writes: none when its dict has a wrong field. */
  function Written(run: RunOutput): (rows: seq<seq<string>>)
    ensures |rows| <= 1
  {
    var row := RowDict(run);
    if WrongFields(row) == {} then [DataRow(row)] else []
  }

  /** The log file after one call per element of `runs`, in order. */
  function AfterRuns(file: seq<seq<string>>, runs: seq<RunOutput>): seq<seq<string>>
    decreases |runs|
  {
    if runs == [] then file else AfterRuns(AfterRun(file, runs[0]), runs[1..])
  }

  /** The data rows the calls for `runs` write: one per run whose dict has no wrong field. */
  function RowsWritten(runs: seq<RunOutput>): seq<seq<string>> {
    FlatMap(Written, runs)
  }

  /** The concatenation of `f(x)` over the elements `x` of `xs`, in order. */
  function FlatMap<T, U>(f: T -> seq<U>, xs: seq<T>): seq<U>
    decreases |xs|
  {
    if xs == [] then [] else f(xs[0]) + FlatMap(f, xs[1..])
  }

  /** The log file as the writer sees it: the rows at `log_file_path`. */
  class CsvWriter {
    var logFile: seq<seq<string>>

    constructor (existing: seq<seq<string>>)
      ensures logFile == existing
    {
      logFile := existing;
    }

    /**
     * `add_run_output`: opens the file for appending, writes the header when the file is empty,
     * assembles the row dict and writes it, or raises ValueError (after the header) when the
     * dict has a key that is not a column.
     */
    method AddRunOutput(ping: Option<string>, download: Option<string>, upload: Option<string>,
                        timestamp: string, fourG: TowerMetrics, fiveG: TowerMetrics)
      returns (outcome: Result<(), WriteError>)
      modifies this
      ensures logFile == AfterRun(old(logFile), RunOutput(ping, download, upload, timestamp, fourG, fiveG))
      ensures outcome.Ok? <==> KnownFields(RunOutput(ping, download, upload, timestamp, fourG, fiveG))
      ensures outcome.Err? ==>
                outcome.error.wrongFields == WrongFields(RowDict(RunOutput(ping, download, upload, timestamp, fourG, fiveG)))
    {
      var run := RunOutput(ping, download, upload, timestamp, fourG, fiveG);
      ghost var before := logFile;
      // `tell() == 0`: nothing has been written to the file yet
      if logFile == [] {
        logFile := [OrderedColumnNames];
      }
      var row := ScalarCells(run);
      row := row + PrefixKeys("4g_", run.fourG);
      row := row + PrefixKeys("5g_", run.fiveG);
      // `writerow` first checks the dict's keys against the columns
      var wrong := WrongFields(row);
      assert wrong == {} <==> KnownFields(run) by {
        WrongFieldsIffUnknownKeys(run);
      }
      if wrong != {} {
        outcome := Err(ValueError(wrong));
        AfterRunCases(before, run);
      } else {
        logFile := logFile + [DataRow(row)];
        outcome := Ok(());
        AfterRunCases(before, run);
      }
    }
  }

  /** The two outcomes of one call: the header (when the file was empty), then the data row unless the dict has a wrong field. */
  lemma AfterRunCases(file: seq<seq<string>>, run: RunOutput)
    ensures WrongFields(RowDict(run)) != {} ==> AfterRun(file, run) == if file == [] then [OrderedColumnNames] else file
    ensures WrongFields(RowDict(run)) == {} ==>
              AfterRun(file, run) == (if file == [] then [OrderedColumnNames] else file) + [DataRow(RowDict(run))]
  {
    var start := if file == [] then [OrderedColumnNames] else file;
    assert AfterRun(file, run) == start + Written(run);
    if WrongFields(RowDict(run)) != {} {
      assert Written(run) == [];
      assert start + [] == start;
    } else {
      assert Written(run) == [DataRow(RowDict(run))];
    }
  }

  /** The tower-metric names are pairwise distinct. */
  lemma BaseNamesDistinct()
    ensures forall i, j :: 0 <= i < j < |BaseTowerMetricNames| ==> BaseTowerMetricNames[i] != BaseTowerMetricNames[j]
  {
  }

  /** The header has twenty columns: the four throughput names, then each metric with "4g_", then with "5g_". */
  lemma ColumnLayout()
    ensures |OrderedColumnNames| == 20
    ensures forall i :: 0 <= i < 4 ==> OrderedColumnNames[i] == ThroughputMetricNames[i]
    ensures forall i :: 0 <= i < 8 ==> OrderedColumnNames[4 + i] == "4g_" + BaseTowerMetricNames[i]
    ensures forall i :: 0 <= i < 8 ==> OrderedColumnNames[12 + i] == "5g_" + BaseTowerMetricNames[i]
  {
    var front := ThroughputMetricNames + FourGMetricNames;
    assert OrderedColumnNames == front + FiveGMetricNames;
    assert |front| == 12;
    forall i | 0 <= i < 4 ensures OrderedColumnNames[i] == ThroughputMetricNames[i] {
      assert OrderedColumnNames[i] == front[i];
    }
    forall i | 0 <= i < 8 ensures OrderedColumnNames[4 + i] == "4g_" + BaseTowerMetricNames[i] {
      assert OrderedColumnNames[4 + i] == front[4 + i] == FourGMetricNames[i];
    }
  }

  /** Which group a column belongs to can be read off its first character. */
  lemma ColumnFirstChar(i: nat)
    requires i < |OrderedColumnNames|
    ensures |OrderedColumnNames[i]| > 0
    ensures i < 4 ==> OrderedColumnNames[i][0] in {'t', 'p', 'd', 'u'}
    ensures 4 <= i < 12 ==> OrderedColumnNames[i] == "4g_" + BaseTowerMetricNames[i - 4] && OrderedColumnNames[i][0] == '4'
    ensures 12 <= i ==> OrderedColumnNames[i] == "5g_" + BaseTowerMetricNames[i - 12] && OrderedColumnNames[i][0] == '5'
  {
    ColumnLayout();
    if i < 4 {
      ThroughputInitial(i);
    } else if i < 12 {
      assert ("4g_" + BaseTowerMetricNames[i - 4])[0] == '4';
    } else {
      assert ("5g_" + BaseTowerMetricNames[i - 12])[0] == '5';
    }
  }

  /** Each throughput name starts with a letter. */
  lemma ThroughputInitial(i: nat)
    requires i < 4
    ensures |ThroughputMetricNames[i]| > 0 && ThroughputMetricNames[i][0] in {'t', 'p', 'd', 'u'}
    ensures ThroughputMetricNames[i][0] == ['t', 'p', 'd', 'u'][i]
  {
  }

  /** Two positions inside one prefixed group hold different names. */
  lemma {:induction false} SameGroupDistinct(base: nat, i: nat, j: nat)
    requires base == 4 || base == 12
    requires base <= i < j < base + 8
    ensures OrderedColumnNames[i] != OrderedColumnNames[j]
  {
    ColumnFirstChar(i);
    ColumnFirstChar(j);
    if OrderedColumnNames[i] == OrderedColumnNames[j] {
      PrefixInjective(if base == 4 then "4g_" else "5g_", BaseTowerMetricNames[i - base], BaseTowerMetricNames[j - base]);
      BaseNamesDistinct();
    }
  }

  /** Two different positions of the header hold different column names. */
  lemma {:induction false} ColumnsDistinctAt(i: nat, j: nat)
    requires i < j < |OrderedColumnNames|
    ensures OrderedColumnNames[i] != OrderedColumnNames[j]
  {
    if j < 4 {
      ColumnLayout();
      ThroughputDistinct(i, j);
    } else if 4 <= i && j < 12 {
      SameGroupDistinct(4, i, j);
    } else if 12 <= i {
      SameGroupDistinct(12, i, j);
    } else {
      ColumnFirstChar(i);
      ColumnFirstChar(j);
      assert OrderedColumnNames[i][0] != OrderedColumnNames[j][0];
    }
  }

  /** The four throughput names start with four different letters. */
  lemma ThroughputDistinct(i: nat, j: nat)
    requires i < j < 4
    ensures ThroughputMetricNames[i] != ThroughputMetricNames[j]
  {
    ThroughputInitial(i);
    ThroughputInitial(j);
  }

  /** The first four columns, one by one. */
  lemma ThroughputColumns()
    ensures |OrderedColumnNames| == 20
    ensures OrderedColumnNames[0] == "timestamp" && OrderedColumnNames[1] == "ping"
    ensures OrderedColumnNames[2] == "download" && OrderedColumnNames[3] == "upload"
  {
    ColumnLayout();
  }

  /** No column name occurs twice in the header. */
  lemma ColumnsDistinct()
    ensures forall i, j :: 0 <= i < j < |OrderedColumnNames| ==> OrderedColumnNames[i] != OrderedColumnNames[j]
  {
    forall i, j | 0 <= i < j < |OrderedColumnNames|
      ensures OrderedColumnNames[i] != OrderedColumnNames[j]
    {
      ColumnsDistinctAt(i, j);
    }
  }

  /** A column starting with a group's digit is that group's prefix followed by a tower metric. */
  lemma {:induction false} ColumnInGroup(prefix: string, base: nat, i: nat)
    requires (prefix == "4g_" && base == 4) || (prefix == "5g_" && base == 12)
    requires i < |OrderedColumnNames| && |OrderedColumnNames[i]| > 0 && OrderedColumnNames[i][0] == prefix[0]
    ensures base <= i < base + 8 && OrderedColumnNames[i] == prefix + BaseTowerMetricNames[i - base]
  {
    ColumnFirstChar(i);
  }

  /** A prefixed field name that is a column names a tower metric. */
  lemma {:induction false} ColumnToMetric(prefix: string, base: nat, k: string)
    requires (prefix == "4g_" && base == 4) || (prefix == "5g_" && base == 12)
    requires prefix + k in ColumnSet
    ensures k in TowerMetricKeys
  {
    var i :| 0 <= i < |OrderedColumnNames| && OrderedColumnNames[i] == prefix + k;
    assert (prefix + k)[0] == prefix[0];
    ColumnInGroup(prefix, base, i);
    PrefixInjective(prefix, k, BaseTowerMetricNames[i - base]);
  }

  /** Every tower metric, prefixed, is a column. */
  lemma {:induction false} MetricToColumn(prefix: string, base: nat, k: string)
    requires (prefix == "4g_" && base == 4) || (prefix == "5g_" && base == 12)
    requires k in TowerMetricKeys
    ensures prefix + k in ColumnSet
  {
    var n :| 0 <= n < |BaseTowerMetricNames| && BaseTowerMetricNames[n] == k;
    ColumnFirstChar(base + n);
    assert OrderedColumnNames[base + n] == prefix + k;
  }

  /** A prefixed field name is a column exactly when the field is a tower metric. */
  lemma {:induction false} PrefixedColumn(prefix: string, k: string)
    requires prefix == "4g_" || prefix == "5g_"
    ensures prefix + k in ColumnSet <==> k in TowerMetricKeys
  {
    var base := if prefix == "4g_" then 4 else 12;
    if prefix + k in ColumnSet {
      ColumnToMetric(prefix, base, k);
    }
    if k in TowerMetricKeys {
      MetricToColumn(prefix, base, k);
    }
  }

  /** Every key of the row dict of a run with known fields is a column. */
  lemma {:induction false} KnownFieldsAreColumns(run: RunOutput)
    requires KnownFields(run)
    ensures WrongFields(RowDict(run)) == {}
  {
    var four := PrefixKeys("4g_", run.fourG);
    var five := PrefixKeys("5g_", run.fiveG);
    forall c | c in RowDict(run) ensures c in ColumnSet {
      if c in five {
        assert c == "5g_" + c[3..];
        PrefixedColumn("5g_", c[3..]);
      } else if c in four {
        assert c == "4g_" + c[3..];
        PrefixedColumn("4g_", c[3..]);
      } else {
        assert c in ThroughputMetricNames;
      }
    }
  }

  /** A record key that is not a tower metric leaves a wrong field in the row dict. */
  lemma {:induction false} UnknownFieldIsWrong(run: RunOutput)
    requires !KnownFields(run)
    ensures WrongFields(RowDict(run)) != {}
  {
    if !(run.fourG.Keys <= TowerMetricKeys) {
      var k :| k in run.fourG && k !in TowerMetricKeys;
      PrefixedColumn("4g_", k);
      assert "4g_" + k in RowDict(run) by {
        assert "4g_" + k in PrefixKeys("4g_", run.fourG);
      }
      assert "4g_" + k in WrongFields(RowDict(run));
    } else {
      var k :| k in run.fiveG && k !in TowerMetricKeys;
      PrefixedColumn("5g_", k);
      assert "5g_" + k in RowDict(run);
      assert "5g_" + k in WrongFields(RowDict(run));
    }
  }

  /** `writerow` raises exactly when a record carries a field name that is not a tower metric. */
  lemma WrongFieldsIffUnknownKeys(run: RunOutput)
    ensures WrongFields(RowDict(run)) == {} <==> KnownFields(run)
  {
    if KnownFields(run) {
      KnownFieldsAreColumns(run);
    } else {
      UnknownFieldIsWrong(run);
    }
  }

  /** The row dict has a "4g_" column for exactly the 4G record's fields, holding their values. */
  lemma {:induction false} FourGEntry(run: RunOutput, n: string)
    ensures ("4g_" + n in RowDict(run)) == (n in run.fourG)
    ensures n in run.fourG ==> RowDict(run)["4g_" + n] == run.fourG[n]
  {
    var c := "4g_" + n;
    assert c[0] == '4';
    if c in PrefixKeys("5g_", run.fiveG) {
      PrefixKeysInitial("5g_", run.fiveG, c);
    }
    if c in ScalarCells(run) {
      ScalarKeysInitial(run, c);
    }
    if c in PrefixKeys("4g_", run.fourG) {
      assert c[3..] == n;
    }
  }

  /** The row dict has a "5g_" column for exactly the 5G record's fields, holding their values. */
  lemma {:induction false} FiveGEntry(run: RunOutput, n: string)
    ensures ("5g_" + n in RowDict(run)) == (n in run.fiveG)
    ensures n in run.fiveG ==> RowDict(run)["5g_" + n] == run.fiveG[n]
  {
    var c := "5g_" + n;
    assert c[0] == '5';
    if c in PrefixKeys("4g_", run.fourG) {
      PrefixKeysInitial("4g_", run.fourG, c);
    }
    if c in ScalarCells(run) {
      ScalarKeysInitial(run, c);
    }
    if c in PrefixKeys("5g_", run.fiveG) {
      assert c[3..] == n;
    }
  }

  /** Every key of a prefixed dict starts with the prefix's first character. */
  lemma {:induction false} PrefixKeysInitial(prefix: string, m: map<string, string>, k: string)
    requires prefix != "" && k in PrefixKeys(prefix, m)
    ensures |k| > 0 && k[0] == prefix[0]
  {
    assert k[..|prefix|] == prefix;
  }

  /** Every throughput key starts with a letter, never with a generation's digit. */
  lemma ScalarKeysInitial(run: RunOutput, c: string)
    requires c in ScalarCells(run)
    ensures |c| > 0 && c[0] in {'t', 'p', 'd', 'u'}
  {
    assert c == "timestamp" || c == "ping" || c == "download" || c == "upload";
  }

  /** A throughput entry of the row dict is not overridden by either record. */
  lemma {:induction false} ScalarEntry(run: RunOutput, c: string)
    requires c in ScalarCells(run)
    ensures c in RowDict(run) && RowDict(run)[c] == ScalarCells(run)[c]
  {
    ScalarKeysInitial(run, c);
    if c in PrefixKeys("4g_", run.fourG) {
      PrefixKeysInitial("4g_", run.fourG, c);
    }
    if c in PrefixKeys("5g_", run.fiveG) {
      PrefixKeysInitial("5g_", run.fiveG, c);
    }
  }

  /** After both `update` calls the row dict still holds the four throughput entries. */
  lemma {:induction false} ScalarCellsLookup(run: RunOutput)
    ensures "timestamp" in RowDict(run) && RowDict(run)["timestamp"] == run.timestamp
    ensures "ping" in RowDict(run) && RowDict(run)["ping"] == CellText(run.ping)
    ensures "download" in RowDict(run) && RowDict(run)["download"] == CellText(run.download)
    ensures "upload" in RowDict(run) && RowDict(run)["upload"] == CellText(run.upload)
  {
    var scalars := ScalarCells(run);
    assert scalars["timestamp"] == run.timestamp && scalars["ping"] == CellText(run.ping);
    assert scalars["download"] == CellText(run.download) && scalars["upload"] == CellText(run.upload);
    ScalarEntry(run, "timestamp");
    ScalarEntry(run, "ping");
    ScalarEntry(run, "download");
    ScalarEntry(run, "upload");
  }

  /** The first four cells of a data row are the dict's throughput entries. */
  lemma ThroughputCells(row: map<string, string>)
    requires "timestamp" in row && "ping" in row && "download" in row && "upload" in row
    ensures |DataRow(row)| == 20
    ensures DataRow(row)[0] == row["timestamp"] && DataRow(row)[1] == row["ping"]
    ensures DataRow(row)[2] == row["download"] && DataRow(row)[3] == row["upload"]
  {
    ThroughputColumns();
  }

  /** The cell of one tower metric's 4G column in a run's data row. */
  lemma {:induction false} FourGCell(run: RunOutput, i: nat)
    requires i < 8
    ensures DataRow(RowDict(run))[4 + i] == GetOr(run.fourG, BaseTowerMetricNames[i], "")
  {
    ColumnFirstChar(4 + i);
    FourGEntry(run, BaseTowerMetricNames[i]);
  }

  /** The cell of one tower metric's 5G column in a run's data row. */
  lemma {:induction false} FiveGCell(run: RunOutput, i: nat)
    requires i < 8
    ensures DataRow(RowDict(run))[12 + i] == GetOr(run.fiveG, BaseTowerMetricNames[i], "")
  {
    ColumnFirstChar(12 + i);
    FiveGEntry(run, BaseTowerMetricNames[i]);
  }

  /**
   * The data row puts the timestamp and the three speed-test values (empty when not measured)
   * in the first four columns, then each 4G field, then each 5G field, "" for a missing field.
   */
  lemma DataRowLayout(run: RunOutput)
    ensures |DataRow(RowDict(run))| == 20
    ensures DataRow(RowDict(run))[0] == run.timestamp
    ensures DataRow(RowDict(run))[1] == CellText(run.ping)
    ensures DataRow(RowDict(run))[2] == CellText(run.download)
    ensures DataRow(RowDict(run))[3] == CellText(run.upload)
    ensures forall i :: 0 <= i < 8 ==>
              DataRow(RowDict(run))[4 + i] == GetOr(run.fourG, BaseTowerMetricNames[i], "") &&
              DataRow(RowDict(run))[12 + i] == GetOr(run.fiveG, BaseTowerMetricNames[i], "")
  {
    ScalarCellsLookup(run);
    ThroughputCells(RowDict(run));
    forall i | 0 <= i < 8
      ensures DataRow(RowDict(run))[4 + i] == GetOr(run.fourG, BaseTowerMetricNames[i], "")
      ensures DataRow(RowDict(run))[12 + i] == GetOr(run.fiveG, BaseTowerMetricNames[i], "")
    {
      FourGCell(run, i);
      FiveGCell(run, i);
    }
  }

  /**
   * The records the gateway client returns always fit the log: the call writes one data row,
   * and every metric of both records lands in its own column.
   */
  lemma {:induction false} StatusRecordsAreLogged(fetch: FetchOutcome, ping: Option<string>, download: Option<string>,
                                                  upload: Option<string>, timestamp: string)
    requires RadioStatus(fetch).Ok?
    ensures var run := RunOutput(ping, download, upload, timestamp, RadioStatus(fetch).value.0, RadioStatus(fetch).value.1);
            Written(run) == [DataRow(RowDict(run))] &&
            forall i :: 0 <= i < 8 ==>
              DataRow(RowDict(run))[4 + i] == run.fourG[BaseTowerMetricNames[i]] &&
              DataRow(RowDict(run))[12 + i] == run.fiveG[BaseTowerMetricNames[i]]
  {
    var run := RunOutput(ping, download, upload, timestamp, RadioStatus(fetch).value.0, RadioStatus(fetch).value.1);
    WrittenKnown(run);
    forall i | 0 <= i < 8
      ensures DataRow(RowDict(run))[4 + i] == run.fourG[BaseTowerMetricNames[i]]
      ensures DataRow(RowDict(run))[12 + i] == run.fiveG[BaseTowerMetricNames[i]]
    {
      FourGCell(run, i);
      FiveGCell(run, i);
    }
  }

  /** Runs on a non-empty file leave its rows untouched and append only data rows: no second header. */
  lemma {:induction false} AppendToNonEmptyFile(file: seq<seq<string>>, runs: seq<RunOutput>)
    requires file != []
    ensures AfterRuns(file, runs) == file + RowsWritten(runs)
    decreases |runs|
  {
    if runs != [] {
      var next := file + Written(runs[0]);
      assert AfterRuns(file, runs) == AfterRuns(next, runs[1..]);
      AppendToNonEmptyFile(next, runs[1..]);
      ConcatAssoc(file, Written(runs[0]), RowsWritten(runs[1..]));
    }
  }

  /** Runs on an empty file write the header once, as the first row, then the data rows. */
  lemma {:induction false} AppendToEmptyFile(runs: seq<RunOutput>)
    requires runs != []
    ensures AfterRuns([], runs) == [OrderedColumnNames] + RowsWritten(runs)
  {
    var next := [OrderedColumnNames] + Written(runs[0]);
    assert AfterRuns([], runs) == AfterRuns(next, runs[1..]);
    AppendToNonEmptyFile(next, runs[1..]);
    ConcatAssoc([OrderedColumnNames], Written(runs[0]), RowsWritten(runs[1..]));
  }

  /** A run whose records carry only tower-metric fields writes its data row. */
  lemma WrittenKnown(run: RunOutput)
    requires KnownFields(run)
    ensures Written(run) == [DataRow(RowDict(run))]
  {
    KnownFieldsAreColumns(run);
  }

  /** When `f` gives one element for each element of `xs`, flat-mapping is mapping. */
  lemma {:induction false} FlatMapSingletons<T, U>(f: T -> seq<U>, xs: seq<T>)
    requires forall i :: 0 <= i < |xs| ==> |f(xs[i])| == 1
    ensures |FlatMap(f, xs)| == |xs|
    ensures forall i :: 0 <= i < |xs| ==> FlatMap(f, xs)[i] == f(xs[i])[0]
    decreases |xs|
  {
    if xs != [] {
      FlatMapSingletons(f, xs[1..]);
      forall i | 0 < i < |xs| ensures FlatMap(f, xs)[i] == f(xs[i])[0] {
        assert xs[1..][i - 1] == xs[i];
      }
    }
  }

  /** Runs whose records carry only tower-metric fields each write exactly their own data row. */
  lemma OneRowPerKnownRun(runs: seq<RunOutput>)
    requires forall i :: 0 <= i < |runs| ==> KnownFields(runs[i])
    ensures |RowsWritten(runs)| == |runs|
    ensures forall i :: 0 <= i < |runs| ==> RowsWritten(runs)[i] == DataRow(RowDict(runs[i]))
  {
    forall i | 0 <= i < |runs| ensures Written(runs[i]) == [DataRow(RowDict(runs[i]))] {
      WrittenKnown(runs[i]);
    }
    FlatMapSingletons(Written, runs);
  }

  /** N calls on a fresh file leave one header line followed by N data lines, in call order. */
  lemma FreshFileAfterRuns(runs: seq<RunOutput>)
    requires runs != []
    requires forall i :: 0 <= i < |runs| ==> KnownFields(runs[i])
    ensures |AfterRuns([], runs)| == |runs| + 1
    ensures AfterRuns([], runs)[0] == OrderedColumnNames
    ensures forall i :: 0 <= i < |runs| ==> AfterRuns([], runs)[i + 1] == DataRow(RowDict(runs[i]))
  {
    AppendToEmptyFile(runs);
    OneRowPerKnownRun(runs);
    HeaderThenRows(AfterRuns([], runs), RowsWritten(runs), runs);
  }

  /** A file that is the header followed by one data row per run has the shape `FreshFileAfterRuns` states. */
  lemma HeaderThenRows(file: seq<seq<string>>, rows: seq<seq<string>>, runs: seq<RunOutput>)
    requires file == [OrderedColumnNames] + rows
    requires |rows| == |runs| && forall i :: 0 <= i < |runs| ==> rows[i] == DataRow(RowDict(runs[i]))
    ensures |file| == |runs| + 1 && file[0] == OrderedColumnNames
    ensures forall i :: 0 <= i < |runs| ==> file[i + 1] == DataRow(RowDict(runs[i]))
  {
    ConsIndex(OrderedColumnNames, rows);
  }

  /** Indexing into a sequence with one element put in front: position i + 1 is position i of the rest. */
  lemma ConsIndex<T>(head: T, rest: seq<T>)
    ensures |[head] + rest| == |rest| + 1 && ([head] + rest)[0] == head
    ensures forall i :: 0 <= i < |rest| ==> ([head] + rest)[i + 1] == rest[i]
  {
  }

  /** Concatenation is associative; stated once so the file lemmas need not rediscover it for rows of rows. */
  lemma ConcatAssoc<T>(a: seq<T>, b: seq<T>, c: seq<T>)
    ensures a + b + c == a + (b + c)
  {
  }
}
