# Moving-average crossover job, modelled in Dafny

This project models the core of a small batch job (`run.py`). The job reads a
configuration mapping (`seed`, `window`, `version`) and a price table with a
`close` column. It computes a trailing rolling mean of `close` and derives a
0/1 signal per row: 1 when the price is strictly above its rolling mean. It
then reports the row count and the signal rate (the mean of the signal
series) in a JSON result record. Any failure yields an error-shaped record
instead.

The model is pure, like the source. It has one module per component, each in
its own file:

- `values.dfy` (`Values`): configuration/JSON scalars, the `ValueError`
  failure and `Option`/`Result`.
- `config_loader.dfy` (`ConfigLoader`): key validation of the parsed
  configuration (`load_config`).
- `data_loader.dfy` (`DataLoader`): the table, emptiness and `close`-column
  validation (`load_data`), and extraction of the `close` column.
- `signal_processor.dfy` (`SignalProcessor`): rolling mean, signals, signal
  rate and `process_data`.
- `run_reporter.dfy` (`RunReporter`): the all-or-nothing pipeline inside
  `main`'s `try` block, the two record shapes and the whole run.

Prices are exact `real`s. The rolling mean is `None` on the first
`window - 1` rows. This states the warm-up rule explicitly instead of relying
on NaN: a row whose mean is undefined gets signal 0. `signal_rate` is an
`Option<real>`; `None` stands for pandas' NaN mean of an empty series, which
the data loader makes unreachable.

`load_data` rejects a table when `DataFrame.empty` holds, i.e. when it has
no rows or no columns. The error record's version is the literal `"v1"`,
whatever the configuration says.

## Model

| member | source | states |
|---|---|---|
| `ConfigLoader.FirstMissingFrom` | run.py:31-34 | The scan over the required keys stops at the first key the mapping lacks: every key before it is present, and it is absent unless the scan ran off the end. |
| `ConfigLoader.LoadConfig` | run.py:31-36 | Succeeds iff `seed`, `window` and `version` are all present, and then returns the mapping unchanged. Otherwise the error names the first missing key in the order seed, window, version. |
| `DataLoader.LoadData` | run.py:45-51 | Succeeds iff the table is non-empty and has a `close` column, and then returns it unchanged. An empty table fails with "Input CSV is empty" even without `close`. A non-empty table without `close` fails with the missing-column message. |
| `DataLoader.LoadDataIdempotent` | run.py:45-51 | A table the loader accepted is accepted again, unchanged (a direct consequence of `LoadData`'s contract). |
| `DataLoader.CloseColumnCells` | run.py:58 | Entry `i` of the `close` column is row `i`'s cell under the first `close` header, for every row. |
| `SignalProcessor.RollingMean` | run.py:57-58 | One mean per row. It is undefined exactly on the first `window - 1` rows. Past that, the mean times `window` equals the sum of the trailing window that ends at the row. |
| `SignalProcessor.Signals` | run.py:58-61 | One signal per input row, aligned by index. Every signal is 0 or 1, and every warm-up row (index below `window - 1`) is 0 whatever its price. |
| `SignalProcessor.SignalIffAboveWindowSum` | run.py:58-61 | For a row at index `window - 1` or later, the signal is 1 iff the price exceeds the window sum divided by `window`. Equivalently, iff `window` times the price exceeds the window sum. |
| `SignalProcessor.SumOfBitsCountsOnes` | run.py:61-65 | The sum of a 0/1 series equals its number of ones, which lies between 0 and the series length. |
| `SignalProcessor.SignalRate` | run.py:65 | The mean of a 0/1 series is undefined exactly for an empty series. Otherwise the rate times the length equals the number of ones, and the rate lies in [0, 1]. |
| `SignalProcessor.ProcessData` | run.py:53-67 | `rows_processed` is the row count, warm-up rows included. The signal series is the signal series of the `close` column and is as long as the table. The rate is that series' mean: defined iff the table has a row, and then in [0, 1]. |
| `SignalProcessor.ShortSeriesRateIsZero` | run.py:57-65 | A non-empty series shorter than the window has only 0 signals, so its rate is 0. |
| `SignalProcessor.SignalsArePrefixStable` | run.py:58-61 | The window trails the row: appending later rows never changes an earlier row's signal. |
| `SignalProcessor.WorkedExample` | run.py:58-65 | With window 3 and closes 1, 2, 3, 2, 5, the signals are 0, 0, 1, 0, 1, the rate is 2/5 and 5 rows are processed: `process_data` returns exactly that triple. |
| `RunReporter.Pipeline` | run.py:84-94 | The pipeline completes iff the config has the three keys, the table is non-empty and it has `close`. A failure carries the message of the first failing check: config before data, emptiness before the column. On completion it holds the configured version and seed, the row count and the `close` column's signal rate, which lies in [0, 1]. |
| `RunReporter.Report` | run.py:102-126 | A completed outcome gives the success shape with status "success", the outcome's version, row count, rate and seed, metric "signal_rate" and the given latency. A failure gives the error shape with version "v1", status "error" and the error's message. |
| `RunReporter.Run` | run.py:80-126 | Status is "success" iff every validation passes. A success record echoes the config's version and seed, has metric "signal_rate", counts every row, carries the latency it was given and holds the signal rate of the `close` column, which lies in [0, 1]. Any failure gives the error record: version "v1", status "error" and the first failing check's message. |
| `RunReporter.RunDependsOnlyOnInputs` | run.py:98-110 | Two runs on the same configuration and table give the same record, apart from the latency. |
| `RunReporter.FailuresReportFirstCheck` | run.py:84-89 | A configuration without `seed` is reported as missing `seed`, whatever the table. A valid configuration with an empty table is reported as empty, whether or not the table has `close` (instances of `Run`'s contract with the literal messages). |
| `RunReporter.MalformedWindowFailsEarlier` | run.py:84-126 | A text window without `seed` gives the missing-`seed` error record, and a zero window with an empty table gives the empty-input error record: the window is never consulted. |
| `RunReporter.WorkedScenario` | run.py:84-110 | With seed 42, window 3, version "v1" and closes 1, 2, 3, 2, 5, the run gives the success record with version "v1", 5 rows, rate 0.4 and seed 42. |

## Left out

- Command-line parsing and logging setup and calls (run.py:11-21, 70-77 and every `logger` line): plumbing and observability.
- File-existence checks and their `FileNotFoundError`s, plus YAML and CSV parsing (run.py:25-29, 40-43): filesystem access and foreign parsers. The loaders take an already-parsed mapping or table. A YAML document that does not parse to a mapping (an empty file gives `None`) is not modelled.
- Writing the record to the output file and to standard output, and `sys.exit(1)` (run.py:112-116, 128-132): I/O and process control. `Record`'s fields are declared in the key order `json.dump` writes.
- Measuring `latency_ms` (run.py:78, 98, 119): wall-clock time. It is a parameter of `Run`.
- `np.random.seed` (run.py:55, 86): global random state that no later step reads. A seed numpy rejects would raise; the model accepts every seed value.
- Floating-point rounding and NaN prices: prices are exact reals. Text columns and non-numeric `close` cells are not modelled either; every cell is a real.
- Exceptions other than the loaders' `ValueError`s (malformed documents, pandas errors): they come from the foreign parsers and libraries left out above.
- `RunReporter.Pipeline`: requires the configured `window` to be an integer of at least 1, but only for inputs that pass every check and so reach `rolling`. pandas' behaviour for zero, negative or non-integer windows is library-dependent and the code does not validate it. Inputs that fail earlier are modelled whatever their window.
- `RunReporter.Run`: the same window precondition as `Pipeline`, again only for inputs that pass every check.
- `SignalProcessor.SignalRate`: requires a 0/1 series, the only kind `process_data` produces. The mean of arbitrary integers is not modelled.
- `DataLoader.CloseColumn`: takes the first column named `close`. `read_csv` renames duplicate headers, so there is only one.
