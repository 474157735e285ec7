# tmng_stats gateway client and CSV log, in Dafny

tmng_stats runs an internet speed test next to a T-Mobile home-internet gateway (a Nokia
"trashcan"). It also logs in to the gateway's admin web API and reads the radio metrics
of the 4G (LTE) and 5G towers the gateway is attached to. Each run becomes one row of a
CSV log. This project models the core of `speed_test_nokia_gateway.py` and proves
properties of the model:

- **Tower-metric extraction** (`_extract_tower_stats`, module `Gateway`). The decoded JSON
  of `cell_status_app.cgi` becomes two records, one for 4G and one for 5G. Each record maps
  the eight names `rsrp, rsrq, rssi, snr, band, cell_id, ecgi, enbid` to text. A generation
  that is missing gets the all-empty default record. A present generation is read from
  element 0 of its array, through a fixed source key per field. The Python operations
  involved are modelled in module `PyJson`, each with the exception it raises: truthiness,
  `in`, `[key]`, `[0]`, `.get(key, '')` and `str()`. These exceptions are real outcomes:
  an empty cell array raises IndexError.
- **Fetch logic** (`get_cell_status` and `_get_radio_status`). The HTTP session is
  abstracted:
  - the login POST becomes its response (status code and text);
  - the status GET becomes its outcome: either something raised (the GET or `.json()`), or
    the body decoded to a JSON value.

  The requests issued are returned, so "no GET after a failed login" can be stated. The
  model keeps the code's failure mode. When the body decodes to a non-`None` value that is
  falsy, or extraction raises, neither metrics local is bound. The `return` then raises
  UnboundLocalError; the `finally` block supplies defaults only while the body is still
  `None`.
- **CSV log** (`SpeedTestNokiaGatewayCsvWriter`, module `CsvLog`):
  - The 20-column header is derived from the name lists.
  - The row dict is assembled as `add_run_output` does: the scalars, updated with the
    "4g_"-prefixed record and then the "5g_"-prefixed one.
  - `csv.DictWriter` writes the columns in header order, with "" for a missing key or a
    `None` value. It raises ValueError when the dict has a key that is not a column.
  - The log file is a field `logFile: seq<seq<string>>` of class `CsvWriter`, one entry
    per row. `AddRunOutput` writes the header only when the file is empty.

The modules are `Outcomes` (Option, Result), `PyJson`, `Gateway` and `CsvLog`.

## Model

| member | source | states |
|---|---|---|
| PyJson.FalsyValues | speed_test_nokia_gateway.py:129 | Python truthiness as the `if response_json` tests use it: `None`, `False`, 0, 0.0, -0.0, "", [] and {} are falsy; `True`, "0", a non-empty list and a non-empty dict are truthy. |
| PyJson.Contains | speed_test_nokia_gateway.py:148 | `key in v` tests a dict's keys, a list's elements for an equal string, and a string for a substring. A number, bool or `None` raises TypeError. |
| PyJson.Subscript | speed_test_nokia_gateway.py:150-170 | `v[key]` succeeds iff v is a dict holding key, and then yields that key's value. Otherwise it raises (KeyError for a missing key, TypeError for a non-dict). |
| PyJson.First | speed_test_nokia_gateway.py:150-170 | `v[0]` of a list is its element 0. An empty list raises IndexError. Only a list or a string yields a value. |
| PyJson.GetOrEmpty | speed_test_nokia_gateway.py:150-170 | `v.get(key, '')` succeeds iff v is a dict. It yields the key's value when present and "" otherwise. A non-dict raises AttributeError. |
| Gateway.DefaultRecordShape | speed_test_nokia_gateway.py:26-37 | The default record has exactly the eight metric names as keys, each mapped to "". |
| Gateway.CellMetrics | speed_test_nokia_gateway.py:149-158 | A cell entry yields a record iff it is a dict, otherwise AttributeError (`.get` on a non-dict). The record's key set is exactly the eight metric names. |
| Gateway.CellMetricsFields | speed_test_nokia_gateway.py:150-157 | Each field comes from its fixed source key: RSRPCurrent→rsrp, RSRQCurrent→rsrq, RSSICurrent→rssi, SNRCurrent→snr, Band→band, Cellid→cell_id, ECGI→ecgi, eNBID→enbid. The value is the `str()` of the source field, or "" when the cell lacks that key. |
| Gateway.GenerationMetrics | speed_test_nokia_gateway.py:144-158 | Every record a generation yields, defaulted or read, has exactly the eight metric names as keys. |
| Gateway.ExtractTowerStats | speed_test_nokia_gateway.py:142-173 | Both returned records always have the eight-name key set. A falsy response (`None` included) yields two default records. Extraction succeeds iff both generations succeed, and then the two records are exactly what each generation yields on its own. |
| Gateway.PresentGenerationReadsFirstCell | speed_test_nokia_gateway.py:148-158 | For a generation key present in the object, only element 0 of its array is read. The generation succeeds iff its value is a non-empty array whose element 0 is a dict. An empty array raises IndexError. |
| Gateway.AbsentGenerationIsDefault | speed_test_nokia_gateway.py:144-161 | A generation key absent from the object gives the default record, whatever else the object holds. An object with neither key gives two default records. |
| Gateway.NonObjectResponse | speed_test_nokia_gateway.py:143-173 | A truthy response that is not a dict: a non-empty list naming neither generation key gives two default records. A list holding the string `cell_stat_lte`, or a string containing it, raises TypeError at `[key]`. A truthy number or bool raises TypeError at `in`. |
| Gateway.FourGIgnoresOtherKeys | speed_test_nokia_gateway.py:147-158 | Two objects that agree on `cell_stat_lte` give the same 4G outcome, record or exception, whatever their 5G data. The pair itself is lost when either generation raises, so the 4G records agree when both extractions succeed. |
| Gateway.FiveGIgnoresOtherKeys | speed_test_nokia_gateway.py:160-171 | Two objects that agree on `cell_stat_5G` give the same 5G outcome, record or exception, whatever their 4G data. The pair itself is lost when either generation raises, so the 5G records agree when both extractions succeed. |
| Gateway.SampleFourGOnlyResponse | test_speed_test_nokia_gateway.py:40-53 | Take a response whose only generation is one 4G cell with band B71, cell id 61, ECGI 310260225122877 and eNBID 879386. It yields exactly those 4G values, "" for the 4G fields it lacks, and a default 5G record. |
| Gateway.RadioStatus | speed_test_nokia_gateway.py:118-140 | A GET or decode that raises, or a `null` body, yields two default records. A non-null falsy body yields UnboundLocalError. A truthy body yields the extracted records, or UnboundLocalError when extraction raises. Every Ok result has the eight-name key sets. |
| Gateway.GetRadioStatus | speed_test_nokia_gateway.py:111-140 | Issues one GET of `cell_status_app.cgi` with a 5-second timeout. Its try/except/finally, with the locals possibly unbound, returns exactly `RadioStatus`. |
| Gateway.GetCellStatus | speed_test_nokia_gateway.py:48-62 | Always POSTs the login form (`name`, `pswd`) first. A status other than 200 raises RequestException with the response text, and no GET is issued. Status 200 issues exactly one GET and returns the radio status. |
| CsvLog.Prefixed | speed_test_nokia_gateway.py:181-183 | The prefixed name list has the same length as the base list, and element i is the prefix followed by base name i. |
| CsvLog.ColumnLayout | speed_test_nokia_gateway.py:185-188 | The header has 20 columns: the four throughput names, then "4g_" plus each metric, then "5g_" plus each metric, position by position. |
| CsvLog.ThroughputColumns | speed_test_nokia_gateway.py:19-24 | The first four columns are timestamp, ping, download, upload. |
| CsvLog.ColumnsDistinct | speed_test_nokia_gateway.py:181-188 | No column name occurs twice in the header. |
| CsvLog.PrefixedColumn | speed_test_nokia_gateway.py:181-183 | "4g_"+k or "5g_"+k is a column iff k is one of the eight metric names. |
| CsvLog.PrefixKeys | speed_test_nokia_gateway.py:221-222 | The prefixed dict holds prefix+k with value m[k] for every key k of m. Every key it holds is the prefix followed by a key of m. |
| CsvLog.ScalarCellsLookup | speed_test_nokia_gateway.py:215-222 | After both `update` calls, the row dict still maps timestamp to the timestamp, and ping, download and upload to their texts ("" when not measured). Neither record can displace them. |
| CsvLog.ScalarEntry | speed_test_nokia_gateway.py:215-222 | Neither `update` call overrides a throughput entry: a "4g_" or "5g_" key never equals timestamp, ping, download or upload. |
| CsvLog.FourGEntry | speed_test_nokia_gateway.py:215-222 | The assembled row dict has "4g_"+n iff the 4G record has n, and then holds the 4G value. The 5G update never overwrites it. |
| CsvLog.FiveGEntry | speed_test_nokia_gateway.py:215-222 | The assembled row dict has "5g_"+n iff the 5G record has n, and then holds the 5G value. |
| CsvLog.RowCells | speed_test_nokia_gateway.py:224 | `DictWriter` writes one cell per column, in column order. Each cell is the dict's value for that column, or "" when the dict lacks it. The data row (`DataRow`) is this over the header. |
| CsvLog.Written | speed_test_nokia_gateway.py:221-224 | A single `writerow` call appends at most one row. |
| CsvLog.AfterRun | speed_test_nokia_gateway.py:207-224 | Appending keeps a non-empty file's rows as a prefix and adds at most one row. An empty file gets the header first, then at most one row. |
| CsvLog.WrongFieldsIffUnknownKeys | speed_test_nokia_gateway.py:208-224 | `writerow` raises ValueError (the row dict has a key that is not a column) iff a record carries a field name outside the eight metric names. |
| CsvLog.DataRowLayout | speed_test_nokia_gateway.py:215-224 | The data row has 20 cells. Cells 0-3 hold the timestamp and the ping, download and upload texts, "" when not measured. Cell 4+i holds 4G field i and cell 12+i holds 5G field i, "" when the record lacks it. |
| CsvLog.CsvWriter.constructor | speed_test_nokia_gateway.py:190-191 | The writer starts from the file's existing rows. |
| CsvLog.CsvWriter.AddRunOutput | speed_test_nokia_gateway.py:193-224 | The new file is `AfterRun(old file, run)`: the header first if the file was empty, then the data row unless `writerow` raises. The call succeeds iff both records carry only metric names. On failure it reports exactly the row dict's non-column keys, and the header stays written. |
| CsvLog.AfterRunCases | speed_test_nokia_gateway.py:211-224 | One call leaves the earlier rows (or a fresh header) followed by exactly one data row, or by nothing when the row dict has a wrong field. |
| CsvLog.AppendToNonEmptyFile | speed_test_nokia_gateway.py:207-212 | Any sequence of calls on a non-empty file keeps its rows as a prefix and appends only data rows: no second header. |
| CsvLog.AppendToEmptyFile | speed_test_nokia_gateway.py:211-212 | Calls on an empty file write the header exactly once, as the first row, followed by the data rows. |
| CsvLog.OneRowPerKnownRun | speed_test_nokia_gateway.py:221-224 | Runs whose records carry only metric names write one data row each, in call order. |
| CsvLog.FreshFileAfterRuns | speed_test_nokia_gateway.py:207-224 | N calls (N ≥ 1) with such runs on a fresh file leave N+1 rows: the header, then the data row of call i at position i+1. |
| CsvLog.StatusRecordsAreLogged | speed_test_nokia_gateway.py:215-224 | Records returned by the gateway client always fit the log. The call writes one data row, and every metric of both records lands in its own column. |

## Left out

- `perform_internet_speed_test` and `perform_speed_test_with_tower_metrics` are not modelled. The first is the external speed-test library, wall-clock time and floating-point rounding; the second only sequences two calls. The writer instead takes the speed-test values as optional texts.
- The HTTP session is reduced to its observable outcomes: `requests.session()`, the POST and GET themselves, timeouts and `response.json()` decoding. A login POST that raises (a connection failure) propagates out of `get_cell_status` unchanged and is not modelled.
- CsvLog.CsvWriter.AddRunOutput: open()/write failures (OSError) are not modelled; the file is always writable.
- `logging.exception` calls are side effects only and are left out.
- The csv module's quoting and escaping, line endings, and byte-level file handling are left out. The file is a sequence of rows of cell texts.
- PyJson.Str: `str()` of a nested list or dict in a cell field (Python's repr of it) is rendered as "" instead of the repr text. A float is carried as the text `str()` gives for it rather than computed from a binary value.
- `radio_status_endpoint_url` (speed_test_nokia_gateway.py:41) is built but never used, so it is not modelled.
- ng_speedtest-cli.py is command-line wiring only and is not part of this model.
