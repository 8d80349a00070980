/**
 * The regridder tool: `regrid` makes the output folder, aggregates every period the
 * regridder's extractor yields and appends the aggregate to the NetCDF output through
 * `netcdf4formatter.py`, then closes the formatter; `dispatch` turns the command-line
 * arguments into a call of `regrid`.
 *
 * `regrid` as written asks the extractor for `generate_data`, a method the
 * regridder's `Extractor` does not define, so it raises before reading anything
 * (`RegridAsWritten`). The model of the pipeline that the rest of this module uses
 * calls `generateData`, the method the extractor does define (`RegridRun`).
 *
 * The aggregator (`Aggregator.aggregate`) is given as a function of the period's
 * start, end and data, already configured with the box and the resolution.
 */
module Regridding {
  import opened Wrappers
  import opened Text
  import opened Paths
  import opened Calendar
  import opened Datasets
  import opened Formatting
  import opened RegridExtraction
  import opened Netcdf
  import opened CommandLine

  /** `aggregator.aggregate(start_dt, end_dt, data)`. */
  type Aggregate = (DateTime, DateTime, Dataset) -> Dataset

  /**
   * What the tool did, in order: each period processed pairs the data the aggregator
   * made of it with the files written for that data.
   */
  datatype Event = MadeDirs(path: string) | Processed(period: Period, aggregated: Dataset, outputs: seq<Output>) | Closed

  /** The events of a run and the error that ended it, if any. */
  datatype Run = Run(events: seq<Event>, failure: Option<string>)

  /** The run of `events` followed by `rest`. */
  function Then(events: seq<Event>, rest: Run): Run {
    Run(events + rest.events, rest.failure)
  }

  /** The arguments of `regrid`. */
  datatype Request = Request(variables: seq<string>, lonMin: real, lonMax: real, latMin: real, latMax: real,
                             temporalResolution: string, spatialResolution: real,
                             start: DateTime, end: DateTime, inputPath: string, outputPath: string,
                             namePattern: string, yDim: string, xDim: string, tDim: string)

  /** The methods the regridder's `Extractor` class defines. */
  const ExtractorMethods: set<string> := {"generateYearData", "generateData"}

  /** The error of looking up an attribute the extractor does not have. */
  function NoAttribute(name: string): string {
    "AttributeError: 'Extractor' object has no attribute '" + name + "'"
  }

  /** Processing one period: aggregate it, then write the aggregate. */
  function ProcessItem(f: Formatter, item: Item, aggregate: Aggregate): (Event, Option<string>) {
    var p := item.period;
    var aggregated := aggregate(p.start, p.end, item.data);
    var written := Write(f, p.start, p.mid, p.end, aggregated);
    if written.Success? then (Processed(p, aggregated, written.value), None)
    else (Processed(p, aggregated, []), Some(written.error))
  }

  /** The processing `regrid` applies to each yielded period. */
  function Processor(f: Formatter, aggregate: Aggregate): Item -> (Event, Option<string>) {
    item => ProcessItem(f, item, aggregate)
  }

  /** The processing of the periods from index `k` on, stopping at the first that raises. */
  function PeriodsFrom(items: seq<Item>, k: nat, process: Item -> (Event, Option<string>)): Run
    decreases |items| - k
  {
    if k >= |items| then Run([], None)
    else
      var (event, failure) := process(items[k]);
      if failure.Some? then Run([event], failure)
      else Then([event], PeriodsFrom(items, k + 1, process))
  }

  /** The loop over the yielded periods and the `close` after it, following the events `made`. */
  function Outcome(made: seq<Event>, items: seq<Item>, process: Item -> (Event, Option<string>)): Run {
    var periods := PeriodsFrom(items, 0, process);
    if periods.failure.Some? then Then(made, periods) else Run(made + periods.events + [Closed], None)
  }

  /** What the extractor `regrid` builds yields through `generateData`. */
  function Yielded(r: Request, open: string -> Dataset, periods: (string, DateTime, DateTime) -> seq<Period>): seq<Item> {
    GeneratedData(Extractor(r.inputPath, r.variables, r.tDim), r.start, r.end, r.temporalResolution, open, periods)
  }

  /**
   * What `regrid` does with the periods `items` its generator yields: the folder is
   * made, then every period is aggregated and written in turn, and the formatter is
   * closed when no write raised.
   */
  function RegridRun(r: Request, items: seq<Item>, aggregate: Aggregate): Run {
    Outcome([MadeDirs(r.outputPath)], items, Processor(Formatter(r.outputPath, r.namePattern), aggregate))
  }

  /**
   * `regrid` as written, given what `generateData` would yield: after the folder is
   * made and the extractor, aggregator and formatter are built, the loop header looks
   * up `extractor.generate_data`. Only a method the class defines can be found; any
   * other name raises, and then nothing is aggregated, written or closed.
   */
  function RegridAsWritten(r: Request, items: seq<Item>, aggregate: Aggregate): (run: Run)
    ensures run.failure == Some(NoAttribute("generate_data"))
    ensures forall e :: e in run.events ==> e == MadeDirs(r.outputPath)
  {
    if "generate_data" in ExtractorMethods then RegridRun(r, items, aggregate)
    else Run([MadeDirs(r.outputPath)], Some(NoAttribute("generate_data")))
  }

  /** The body of the `for` loop of `regrid` for one yielded period. */
  method ProcessPeriod(f: Formatter, item: Item, aggregate: Aggregate) returns (event: Event, failure: Option<string>)
    ensures (event, failure) == ProcessItem(f, item, aggregate)
  {
    var (sDt, midDt, eDt) := (item.period.start, item.period.mid, item.period.end);
    var aggregatedData := aggregate(sDt, eDt, item.data);
    var written := Write(f, sDt, midDt, eDt, aggregatedData);
    if written.Success? {
      event, failure := Processed(item.period, aggregatedData, written.value), None;
    } else {
      event, failure := Processed(item.period, aggregatedData, []), Some(written.error);
    }
  }

  /** A period processed without error is followed by the later periods. */
  lemma PeriodsFromStep(items: seq<Item>, k: nat, process: Item -> (Event, Option<string>), done: seq<Event>)
    requires k < |items| && process(items[k]).1.None?
    ensures Then(done, PeriodsFrom(items, k, process))
            == Then(done + [process(items[k]).0], PeriodsFrom(items, k + 1, process))
  {
    var rest := PeriodsFrom(items, k + 1, process);
    var event := process(items[k]).0;
    assert done + ([event] + rest.events) == (done + [event]) + rest.events;
  }

  /** The `for` loop of `regrid` over the yielded periods, then `formatter.close()`. */
  method ProcessAll(made: seq<Event>, f: Formatter, items: seq<Item>, aggregate: Aggregate) returns (run: Run)
    ensures run == Outcome(made, items, Processor(f, aggregate))
  {
    ghost var process := Processor(f, aggregate);
    var done: seq<Event> := [];
    for k := 0 to |items|
      invariant PeriodsFrom(items, 0, process) == Then(done, PeriodsFrom(items, k, process))
    {
      var event, failure := ProcessPeriod(f, items[k], aggregate);
      if failure.Some? {
        return Run(made + (done + [event]), failure);
      }
      PeriodsFromStep(items, k, process, done);
      done := done + [event];
    }
    run := Run(made + done + [Closed], None);
  }

  /** `regrid`, with the generator the extractor defines. */
  method Regrid(r: Request, open: string -> Dataset, periods: (string, DateTime, DateTime) -> seq<Period>,
                aggregate: Aggregate)
    returns (run: Run)
    ensures run == RegridRun(r, Yielded(r, open, periods), aggregate)
  {
    var made := [MadeDirs(r.outputPath)];
    var ex := Extractor(r.inputPath, r.variables, r.tDim);
    var f := Formatter(r.outputPath, r.namePattern);
    var items := GenerateData(ex, r.start, r.end, r.temporalResolution, r.lonMin, r.latMin, r.lonMax, r.latMax,
                              open, periods);
    run := ProcessAll(made, f, items, aggregate);
  }

  /**
   * The `i`-th event of the periods from `k` on is the processing of period `k + i`,
   * and every one before the last ended normally.
   */
  lemma {:induction false} PeriodsFromAt(items: seq<Item>, k: nat, process: Item -> (Event, Option<string>), i: nat)
    requires i < |PeriodsFrom(items, k, process).events|
    ensures k + i < |items|
    ensures PeriodsFrom(items, k, process).events[i] == process(items[k + i]).0
    ensures i < |PeriodsFrom(items, k, process).events| - 1 ==> process(items[k + i]).1.None?
    decreases i
  {
    if i > 0 {
      PeriodsFromAt(items, k + 1, process, i - 1);
    }
  }

  /**
   * The periods from `k` on end normally exactly when every one from `k` on does, and
   * then there is one event per period; otherwise the error is that of the last one.
   */
  lemma {:induction false} PeriodsFromEnd(items: seq<Item>, k: nat, process: Item -> (Event, Option<string>))
    requires k <= |items|
    ensures var run := PeriodsFrom(items, k, process);
      && |run.events| <= |items| - k
      && (run.failure.None? <==> forall j :: k <= j < |items| ==> process(items[j]).1.None?)
      && (run.failure.None? ==> |run.events| == |items| - k)
      && (run.failure.Some? ==> |run.events| >= 1 && run.failure == process(items[k + |run.events| - 1]).1)
    decreases |items| - k
  {
    if k < |items| {
      PeriodsFromEnd(items, k + 1, process);
    }
  }

  /**
   * Processing a period aggregates that period's data over its start and end, and
   * writes exactly that aggregate, in one file named after the period's mid time; a
   * write that raises writes nothing.
   */
  lemma ProcessItemWrites(f: Formatter, item: Item, aggregate: Aggregate)
    ensures var (event, failure) := ProcessItem(f, item, aggregate);
      var p := item.period;
      var aggregated := aggregate(p.start, p.end, item.data);
      && event.Processed? && event.period == p && event.aggregated == aggregated
      && (failure.None? <==> OutputFilename(f, p.mid).Success?)
      && (failure.None? ==> event.outputs == [NetcdfFile(PathJoin(f.outputFolder, OutputFilename(f, p.mid).value + ".nc"), aggregated)])
      && (failure.Some? ==> event.outputs == [] && failure.value == Message(OutputFilename(f, p.mid).error))
  {
  }

  /**
   * The order of the loop and the `close`: after the events `made` come the periods,
   * each processed in the generator's order; `close` comes last, exactly when no
   * period raised, after every period.
   */
  lemma OutcomeOrder(made: seq<Event>, items: seq<Item>, process: Item -> (Event, Option<string>))
    requires Closed !in made
    requires forall j :: 0 <= j < |items| ==> process(items[j]).0 != Closed
    ensures var run := Outcome(made, items, process);
      && run.events[..|made|] == made
      && (Closed in run.events <==> run.failure.None?)
      && (run.failure.None? <==> forall j :: 0 <= j < |items| ==> process(items[j]).1.None?)
      && (run.failure.None? ==> |run.events| == |made| + |items| + 1 && run.events[|run.events| - 1] == Closed)
      && (forall i :: |made| <= i < |run.events| && run.events[i] != Closed ==>
            i - |made| < |items| && run.events[i] == process(items[i - |made|]).0)
  {
    var run := Outcome(made, items, process);
    var done := PeriodsFrom(items, 0, process);
    PeriodsFromEnd(items, 0, process);
    var closing := if run.failure.None? then [Closed] else [];
    assert run.events == made + done.events + closing;
    forall i | |made| <= i < |run.events| && run.events[i] != Closed
      ensures i - |made| < |items| && run.events[i] == process(items[i - |made|]).0
    {
      assert i - |made| < |done.events|;
      assert run.events[i] == done.events[i - |made|];
      PeriodsFromAt(items, 0, process, i - |made|);
    }
    forall i | 0 <= i < |done.events| ensures done.events[i] != Closed {
      PeriodsFromAt(items, 0, process, i);
    }
  }

  /**
   * The loop and the `close` over the periods, for one formatter: each period is
   * aggregated and its aggregate written, in order, and `close` comes last exactly when
   * every period's file name could be made.
   */
  lemma ProcessAllOrder(made: seq<Event>, f: Formatter, items: seq<Item>, aggregate: Aggregate)
    requires Closed !in made
    ensures var run := Outcome(made, items, Processor(f, aggregate));
      && run.events[..|made|] == made
      && (Closed in run.events <==> run.failure.None?)
      && (run.failure.None? <==> forall j :: 0 <= j < |items| ==> OutputFilename(f, items[j].period.mid).Success?)
      && (run.failure.None? ==> |run.events| == |made| + |items| + 1 && run.events[|run.events| - 1] == Closed)
      && (forall i :: |made| <= i < |run.events| && run.events[i] != Closed ==>
            i - |made| < |items| && run.events[i] == ProcessItem(f, items[i - |made|], aggregate).0)
  {
    var process := Processor(f, aggregate);
    forall j | 0 <= j < |items|
      ensures process(items[j]) == ProcessItem(f, items[j], aggregate)
      ensures process(items[j]).0 != Closed
      ensures process(items[j]).1.None? <==> OutputFilename(f, items[j].period.mid).Success?
    {
      ProcessItemWrites(f, items[j], aggregate);
    }
    OutcomeOrder(made, items, process);
  }

  /**
   * The order of a `regrid` run over the periods `items` its generator yields: the
   * folder is made first; then each period is aggregated and its aggregate written, in
   * the generator's order; and `close` comes last, once, exactly when every period's
   * file name could be made, after all of them.
   */
  lemma RegridOrder(r: Request, items: seq<Item>, aggregate: Aggregate)
    ensures RegridRun(r, items, aggregate).events[0] == MadeDirs(r.outputPath)
    ensures var run := RegridRun(r, items, aggregate);
      Closed in run.events <==> run.failure.None?
    ensures var run := RegridRun(r, items, aggregate);
      var f := Formatter(r.outputPath, r.namePattern);
      run.failure.None? <==> forall j :: 0 <= j < |items| ==> OutputFilename(f, items[j].period.mid).Success?
    ensures var run := RegridRun(r, items, aggregate);
      run.failure.None? ==> |run.events| == |items| + 2 && run.events[|items| + 1] == Closed
    ensures var run := RegridRun(r, items, aggregate);
      var f := Formatter(r.outputPath, r.namePattern);
      forall i :: 1 <= i < |run.events| && run.events[i] != Closed ==>
        i - 1 < |items| && run.events[i] == ProcessItem(f, items[i - 1], aggregate).0
  {
    var f := Formatter(r.outputPath, r.namePattern);
    var made := [MadeDirs(r.outputPath)];
    var run := RegridRun(r, items, aggregate);
    assert run == Outcome(made, items, Processor(f, aggregate));
    ProcessAllOrder(made, f, items, aggregate);
    assert |made| == 1 && run.events[..1] == made;
    forall i | 1 <= i < |run.events| && run.events[i] != Closed
      ensures i - 1 < |items| && run.events[i] == ProcessItem(f, items[i - 1], aggregate).0
    {
      assert i - |made| == i - 1;
      assert i - 1 < |items|;
      assert run.events[i] == ProcessItem(f, items[i - |made|], aggregate).0;
    }
  }

  /**
   * The discrepancy: whenever the extractor has at least one period to yield, the
   * corrected pipeline processes it, while `regrid` as written processes none and
   * never closes its formatter.
   */
  lemma AsWrittenProcessesNothing(r: Request, items: seq<Item>, aggregate: Aggregate)
    requires |items| >= 1
    ensures |RegridAsWritten(r, items, aggregate).events| == 1 && RegridAsWritten(r, items, aggregate).failure.Some?
    ensures |RegridRun(r, items, aggregate).events| >= 2
    ensures RegridRun(r, items, aggregate).events[1].Processed?
    ensures RegridRun(r, items, aggregate) != RegridAsWritten(r, items, aggregate)
  {
    var f := Formatter(r.outputPath, r.namePattern);
    var done := PeriodsFrom(items, 0, Processor(f, aggregate));
    assert done.events[0] == ProcessItem(f, items[0], aggregate).0;
    assert RegridRun(r, items, aggregate).events[1] == done.events[0];
  }

  /** The arguments `dispatch` reads; the dates and the output path are `None` when not given. */
  datatype Args = Args(temporalResolution: string, spatialResolution: real,
                       lonMin: real, lonMax: real, latMin: real, latMax: real,
                       startYear: Option<int>, startMonth: Option<int>, startDay: Option<int>,
                       endYear: Option<int>, endMonth: Option<int>, endDay: Option<int>,
                       inPath: string, outPath: Option<string>, outputNamePattern: string, variables: string)

  /** The call of `regrid` that `dispatch` makes, with the default dimension names. */
  function RequestOf(a: Args, outPath: string, start: DateTime, end: DateTime): Request {
    Request(SplitAndStrip(a.variables), a.lonMin, a.lonMax, a.latMin, a.latMax,
            a.temporalResolution, a.spatialResolution, start, end, a.inPath, outPath, a.outputNamePattern,
            "lat", "lon", "time")
  }

  /**
   * What `dispatch` does: it builds the start datetime, then the end datetime, each at
   * 12:00:00, either of which can raise before anything is done; then it runs `regrid`
   * on the parsed variable list, whose `os.makedirs` raises at once when no output path
   * was given.
   */
  function DispatchRun(a: Args, open: string -> Dataset, periods: (string, DateTime, DateTime) -> seq<Period>,
                       aggregate: Aggregate): Run {
    var start := NoonOf(a.startYear, a.startMonth, a.startDay);
    var end := NoonOf(a.endYear, a.endMonth, a.endDay);
    if start.Failure? then Run([], Some(start.error))
    else if end.Failure? then Run([], Some(end.error))
    else if a.outPath.None? then Run([], Some(MissingPath))
    else
      var r := RequestOf(a, a.outPath.value, start.value, end.value);
      RegridRun(r, Yielded(r, open, periods), aggregate)
  }

  /** `dispatch`. */
  method Dispatch(a: Args, open: string -> Dataset, periods: (string, DateTime, DateTime) -> seq<Period>,
                  aggregate: Aggregate)
    returns (run: Run)
    ensures run == DispatchRun(a, open, periods, aggregate)
  {
    var start := NoonOf(a.startYear, a.startMonth, a.startDay);
    if start.Failure? {
      return Run([], Some(start.error));
    }
    var end := NoonOf(a.endYear, a.endMonth, a.endDay);
    if end.Failure? {
      return Run([], Some(end.error));
    }
    var variables := SplitAndStrip(a.variables);
    if a.outPath.None? {
      return Run([], Some(MissingPath));
    }
    var r := Request(variables, a.lonMin, a.lonMax, a.latMin, a.latMax, a.temporalResolution, a.spatialResolution,
                     start.value, end.value, a.inPath, a.outPath.value, a.outputNamePattern, "lat", "lon", "time");
    run := Regrid(r, open, periods, aggregate);
  }

  /**
   * When both dates are given and valid, `dispatch` runs `regrid` from midday of the
   * start day to midday of the end day, on the comma-separated variables stripped, in
   * order, provided an output path was given; a missing date field or a missing output
   * path raises before the folder is made.
   */
  lemma DispatchCallsRegrid(a: Args, open: string -> Dataset, periods: (string, DateTime, DateTime) -> seq<Period>,
                            aggregate: Aggregate)
    ensures (a.startYear.None? || a.startMonth.None? || a.startDay.None?) ==>
      DispatchRun(a, open, periods, aggregate) == Run([], Some(MissingField))
    ensures NoonOf(a.startYear, a.startMonth, a.startDay).Success? && NoonOf(a.endYear, a.endMonth, a.endDay).Success?
            && a.outPath.None? ==>
      DispatchRun(a, open, periods, aggregate) == Run([], Some(MissingPath))
    ensures NoonOf(a.startYear, a.startMonth, a.startDay).Success? && NoonOf(a.endYear, a.endMonth, a.endDay).Success?
            && a.outPath.Some? ==>
      var start := Noon(a.startYear.value, a.startMonth.value, a.startDay.value);
      var end := Noon(a.endYear.value, a.endMonth.value, a.endDay.value);
      var r := RequestOf(a, a.outPath.value, start, end);
      && AtNoon(start) && AtNoon(end)
      && DispatchRun(a, open, periods, aggregate) == RegridRun(r, Yielded(r, open, periods), aggregate)
      && r.variables == SplitAndStrip(a.variables)
      && |r.variables| == CountChar(a.variables, ',') + 1
      && r.outputPath == a.outPath.value
  {
  }
}
