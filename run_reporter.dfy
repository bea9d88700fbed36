/** The run reporter (`main`): runs the loaders and the processor as one
    all-or-nothing pipeline and turns its outcome into the single JSON result
    record, success-shaped or error-shaped. Reading files, writing the record
    to the output file and standard output, logging and the exit status are
    outside the model; the elapsed time is a parameter. */
module RunReporter {
  import opened Values
  import opened ConfigLoader
  import opened DataLoader
  import opened SignalProcessor

  /** The result record, in the two shapes `main` writes. Each field is one
      key of the JSON object, and the fields are declared in the order the
      keys are written: `version`, `rows_processed`, `metric`, `value`,
      `latency_ms`, `seed`, `status` for a success, and `version`, `status`,
      `error_message` for an error. */
  datatype Record =
    | SuccessRecord(version: Value, rowsProcessed: nat, metric: string, value: real,
                    latencyMs: nat, seed: Value, status: string)
    | ErrorRecord(version: Value, status: string, errorMessage: string)

  /** The version the error record reports, whatever the configuration says. */
  const FallbackVersion: string := "v1"

  /** How one pass through the pipeline ended: with the figures the success
      record needs, or with the first error raised. */
  datatype Outcome =
    | Completed(version: Value, rowsProcessed: nat, signalRate: real, seed: Value)
    | Failed(error: Error)

  /** The configured window is one `rolling` accepts as a width: a positive
      integer (checked only when the key is present at all). It matters only
      to a run that passes every check and so reaches `process_data`. */
  predicate WindowAccepted(config: Config) {
    "window" in config ==> config["window"].Int? && config["window"].i >= 1
  }

  /** Everything the pipeline validates: the required configuration keys, a
      non-empty table and a `close` column. */
  predicate Accepted(config: Config, df: Table) {
    HasRequiredKeys(config) && !df.IsEmpty() && "close" in df.columns
  }

  /** The message of the first check that fails: configuration before data,
      emptiness before the `close` column. */
  function FirstFailure(config: Config, df: Table): string
    requires !Accepted(config, df)
  {
    if "seed" !in config then MissingKeyMessage("seed")
    else if "window" !in config then MissingKeyMessage("window")
    else if "version" !in config then MissingKeyMessage("version")
    else if df.IsEmpty() then EmptyMessage
    else MissingCloseMessage
  }

  /** The body of the `try` block: load and validate the configuration, load
      and validate the table, process it. Any error ends the pass; later steps
      do not run. */
  function Pipeline(config: Config, df: Table): (o: Outcome)
    requires (Accepted(config, df) ==> WindowAccepted(config)) && df.WellFormed()
    ensures o.Completed? <==> Accepted(config, df)
    ensures o.Failed? ==> o.error.message == FirstFailure(config, df)
    ensures o.Completed? ==>
      && o.version == config["version"]
      && o.seed == config["seed"]
      && o.rowsProcessed == |df.rows|
      && Some(o.signalRate) == SignalRate(Signals(CloseColumn(df), config["window"].i))
      && 0.0 <= o.signalRate <= 1.0
  {
    match LoadConfig(config)
    case Err(e) =>
      assert !HasRequiredKeys(config) && e.message == FirstFailure(config, df);
      Failed(e)
    case Ok(cfg) =>
      assert cfg == config && HasRequiredKeys(config);
      match LoadData(df)
      case Err(e) =>
        assert e.message == FirstFailure(config, df);
        Failed(e)
      case Ok(table) =>
        assert table == df;
        var p := ProcessData(table, cfg["seed"], cfg["window"].i);
        Completed(cfg["version"], p.rowsProcessed, p.signalRate.value, cfg["seed"])
  }

  /** The record `main` writes for an outcome: the success shape carries the
      outcome's figures, the metric name and the success status; the error
      shape carries only the fallback version, the error status and the
      error's message. */
  function Report(o: Outcome, latencyMs: nat): (r: Record)
    ensures r.SuccessRecord? <==> o.Completed?
    ensures r.status == (if o.Completed? then "success" else "error")
    ensures o.Completed? ==>
      && r.version == o.version
      && r.rowsProcessed == o.rowsProcessed
      && r.metric == "signal_rate"
      && r.value == o.signalRate
      && r.latencyMs == latencyMs
      && r.seed == o.seed
    ensures o.Failed? ==> r.version == Str(FallbackVersion) && r.errorMessage == o.error.message
  {
    match o
    case Completed(version, rows, rate, seed) =>
      SuccessRecord(version, rows, "signal_rate", rate, latencyMs, seed, "success")
    case Failed(e) =>
      ErrorRecord(Str(FallbackVersion), "error", e.message)
  }

  /** One run of the job on an already-parsed configuration and table: the
      pipeline's outcome turned into the record. It succeeds exactly when
      every validation passes. A successful run echoes the configured version
      and seed, names the metric, counts every row (warm-up rows included) and
      reports the rate of the signal series of the `close` column, a value in
      [0, 1]. A failed run reports the fallback version, the error status and
      the message of the first check that failed. */
  function Run(config: Config, df: Table, latencyMs: nat): (r: Record)
    requires (Accepted(config, df) ==> WindowAccepted(config)) && df.WellFormed()
    ensures r.status == "success" <==> Accepted(config, df)
    ensures r.SuccessRecord? <==> Accepted(config, df)
    ensures r.SuccessRecord? ==>
      && r.version == config["version"]
      && r.seed == config["seed"]
      && r.metric == "signal_rate"
      && r.rowsProcessed == |df.rows|
      && r.latencyMs == latencyMs
      && Some(r.value) == SignalRate(Signals(CloseColumn(df), config["window"].i))
      && 0.0 <= r.value <= 1.0
    ensures r.ErrorRecord? ==>
      && r.version == Str("v1")
      && r.status == "error"
      && r.errorMessage == FirstFailure(config, df)
  {
    Report(Pipeline(config, df), latencyMs)
  }

  /** Two runs on the same inputs differ at most in the elapsed time. This
      documents a consequence of `Run`'s contract; it needs no proof steps. */
  lemma RunDependsOnlyOnInputs(config: Config, df: Table, latency1: nat, latency2: nat)
    requires (Accepted(config, df) ==> WindowAccepted(config)) && df.WellFormed()
    ensures var r1, r2 := Run(config, df, latency1), Run(config, df, latency2);
      && r1.SuccessRecord? == r2.SuccessRecord?
      && (r1.SuccessRecord? ==> r1 == r2.(latencyMs := latency1))
      && (r1.ErrorRecord? ==> r1 == r2)
  {
  }

  /** The checks run in order: a configuration without `seed` is reported as
      missing `seed` whatever the table, and a complete configuration with an
      empty table is reported as empty whether or not the table has `close`.
      Both are instances of `Run`'s contract, spelled out with the literal
      messages; neither depends on the configured window. */
  lemma FailuresReportFirstCheck(config: Config, df: Table)
    requires df.WellFormed()
    ensures "seed" !in config ==>
      Run(config, df, 0) == ErrorRecord(Str("v1"), "error", "Missing required config key: seed")
    ensures HasRequiredKeys(config) && df.IsEmpty() ==>
      Run(config, df, 0) == ErrorRecord(Str("v1"), "error", "Input CSV is empty")
  {
  }

  /** A malformed window does not matter when an earlier check fails: a text
      window without `seed` reports the missing `seed`, and a zero window
      with an empty table reports emptiness. */
  lemma MalformedWindowFailsEarlier(df: Table)
    requires df.WellFormed()
    ensures Run(map["window" := Str("abc")], df, 0)
      == ErrorRecord(Str("v1"), "error", "Missing required config key: seed")
    ensures Run(map["seed" := Int(1), "window" := Int(0), "version" := Str("v1")], Table([], []), 0)
      == ErrorRecord(Str("v1"), "error", "Input CSV is empty")
  {
  }

  /** The worked scenario: seed 42, window 3, version "v1" and closes
      1, 2, 3, 2, 5 give a success record over 5 rows with rate 2/5. */
  lemma WorkedScenario(latencyMs: nat)
    ensures
      var config := map["seed" := Int(42), "window" := Int(3), "version" := Str("v1")];
      var df := Table(["close"], [[1.0], [2.0], [3.0], [2.0], [5.0]]);
      Run(config, df, latencyMs)
        == SuccessRecord(Str("v1"), 5, "signal_rate", 0.4, latencyMs, Int(42), "success")
  {
    var config := map["seed" := Int(42), "window" := Int(3), "version" := Str("v1")];
    var df := Table(["close"], [[1.0], [2.0], [3.0], [2.0], [5.0]]);
    assert HasRequiredKeys(config);
    assert CloseColumn(df) == [1.0, 2.0, 3.0, 2.0, 5.0];
    WorkedExample();
  }
}
