/**
 * The subsetter tool: `subset` makes the output folder, chooses a formatter from the
 * format name, writes every slice the subsetter's extractor yields through it, and
 * closes it; `dispatch` turns the command-line arguments into a call of `subset`.
 *
 * What the tool does to the world is recorded as a sequence of events. The NetCDF
 * formatter the subsetter uses (`common/netcdf4_formatter.py`) is not part of this
 * model: its `write` is given as a function.
 */
module Subsetting {
  import opened Wrappers
  import opened Text
  import opened Paths
  import opened Calendar
  import opened Datasets
  import opened Formatting
  import opened SubsetExtraction
  import opened Geotiff
  import opened CommandLine

  /** The two formatters `subset` can choose. */
  datatype Kind = NetCDF | GeoTIFF

  /** The exception `subset` raises for a format it does not know. */
  function Unsupported(format: string): string {
    "Exception: Export format " + format + " is not supported"
  }

  /**
   * The format selection of `subset`: `"netcdf"` and `"geotiff"` pick their formatter,
   * and every other name is refused.
   */
  function SelectFormat(format: string): (r: Result<Kind, string>)
    ensures r == Success(NetCDF) <==> format == "netcdf"
    ensures r == Success(GeoTIFF) <==> format == "geotiff"
    ensures r.Failure? <==> format != "netcdf" && format != "geotiff"
    ensures r.Failure? ==> r.error == Unsupported(format)
  {
    if format == "netcdf" then Success(NetCDF)
    else if format == "geotiff" then Success(GeoTIFF)
    else Failure(Unsupported(format))
  }

  /** The command line's default format, `"netcdf4"`, is one that `subset` refuses. */
  lemma DefaultFormatRejected()
    ensures SelectFormat(SubsetDefaultFormat) == Failure(Unsupported("netcdf4"))
  {
  }

  /** What one `formatter.write` did: the files it wrote, then the error it raised, if any. */
  datatype Step = Step(outputs: seq<Output>, failure: Option<string>)

  /** The `write(data, variable_names, original_filename)` of the subsetter's NetCDF formatter. */
  type NetcdfWriter = (Formatter, Dataset, seq<string>, string) -> Step

  /** What the tool did, in order. */
  datatype Event = MadeDirs(path: string) | Wrote(filename: string, outputs: seq<Output>) | Closed

  /** The events of a run and the error that ended it, if any. */
  datatype Run = Run(events: seq<Event>, failure: Option<string>)

  /** The run of `events` followed by `rest`. */
  function Then(events: seq<Event>, rest: Run): Run {
    Run(events + rest.events, rest.failure)
  }

  /** The arguments of `subset`. */
  datatype Request = Request(variables: seq<string>, lonMin: real, lonMax: real, latMin: real, latMax: real,
                             start: DateTime, end: DateTime, inputPath: Option<string>, outputPath: string,
                             namePattern: string, outputFormat: string,
                             yDim: string, xDim: string, tDim: string)

  /** The extractor `subset` builds from its arguments. */
  function ExtractorOf(r: Request): Extractor {
    Extractor(r.inputPath, r.variables, r.yDim, r.xDim, r.tDim, r.lonMin, r.latMin, r.lonMax, r.latMax)
  }

  /**
   * The `write` of one yielded slice: its data, the requested variables and the file it
   * came from; the GeoTIFF formatter is given no times.
   */
  function WriteItem(kind: Kind, f: Formatter, item: Item, variables: seq<string>, netcdf: NetcdfWriter): Step {
    match kind
    case NetCDF => netcdf(f, item.data, variables, item.filename)
    case GeoTIFF =>
      var w := Rasters(f.outputFolder, variables, CommonStem(f, None, Some(item.filename)), item.data);
      Step(w.outputs, w.failure)
  }

  /** The `write` that `subset` applies to each yielded slice. */
  function Writer(kind: Kind, f: Formatter, variables: seq<string>, netcdf: NetcdfWriter): Item -> Step {
    item => WriteItem(kind, f, item, variables, netcdf)
  }

  /** The writes of the slices from index `k` on, stopping at the first that raises. */
  function WritesFrom(items: seq<Item>, k: nat, write: Item -> Step): Run
    decreases |items| - k
  {
    if k >= |items| then Run([], None)
    else
      var step := write(items[k]);
      var event := Wrote(items[k].filename, step.outputs);
      if step.failure.Some? then Run([event], step.failure)
      else Then([event], WritesFrom(items, k + 1, write))
  }

  /**
   * What the loop over a generator's slices and the `close` after it add to the events
   * `made` so far: the slices are written as the generator yields them; a write that
   * raises ends the run, an error the generator raises after its last slice ends it
   * too, and only a run without error closes the formatter.
   */
  function Outcome(made: seq<Event>, write: Item -> Step, stream: Stream<Item>): Run {
    var writes := WritesFrom(stream.items, 0, write);
    if writes.failure.Some? then Then(made, writes)
    else if stream.failure.Some? then Run(made + writes.events, stream.failure)
    else Run(made + writes.events + [Closed], None)
  }

  /** What the extractor `subset` builds yields and raises through `generate_data`. */
  function Yielded(r: Request, glob: string -> seq<string>, open: string -> Dataset): Stream<Item>
    requires Valid(r.start)
  {
    GeneratedData(ExtractorOf(r), r.start, r.end, glob, open)
  }

  /**
   * What `subset` does with the slices `stream` its generator yields and raises: the
   * output folder is made first, a refused format raises before the generator is
   * asked for anything, and otherwise the slices are written and the formatter closed.
   */
  function SubsetRun(r: Request, stream: Stream<Item>, netcdf: NetcdfWriter): Run {
    var made := [MadeDirs(r.outputPath)];
    var kind := SelectFormat(r.outputFormat);
    if kind.Failure? then Run(made, Some(kind.error))
    else Outcome(made, Writer(kind.value, Formatter(r.outputPath, r.namePattern), r.variables, netcdf), stream)
  }

  /** The `formatter.write` call for one yielded slice. */
  method WriteSlice(kind: Kind, f: Formatter, item: Item, variables: seq<string>, netcdf: NetcdfWriter)
    returns (step: Step)
    ensures step == WriteItem(kind, f, item, variables, netcdf)
  {
    if kind == GeoTIFF {
      var w := CommonWrite(f, item.data, variables, None, None, None, Some(item.filename));
      step := Step(w.outputs, w.failure);
    } else {
      step := netcdf(f, item.data, variables, item.filename);
    }
  }

  /** A write that ends normally is followed by the writes of the later slices. */
  lemma WritesFromStep(items: seq<Item>, k: nat, write: Item -> Step, done: seq<Event>)
    requires k < |items| && write(items[k]).failure.None?
    ensures var event := Wrote(items[k].filename, write(items[k]).outputs);
      Then(done, WritesFrom(items, k, write)) == Then(done + [event], WritesFrom(items, k + 1, write))
  {
    var event := Wrote(items[k].filename, write(items[k]).outputs);
    var rest := WritesFrom(items, k + 1, write);
    assert done + ([event] + rest.events) == (done + [event]) + rest.events;
  }

  /** The `for` loop of `subset` over the generator's slices, then `formatter.close()`. */
  method WriteAll(made: seq<Event>, kind: Kind, f: Formatter, stream: Stream<Item>, variables: seq<string>,
                  netcdf: NetcdfWriter)
    returns (run: Run)
    ensures run == Outcome(made, Writer(kind, f, variables, netcdf), stream)
  {
    ghost var write := Writer(kind, f, variables, netcdf);
    var done: seq<Event> := [];
    for k := 0 to |stream.items|
      invariant WritesFrom(stream.items, 0, write) == Then(done, WritesFrom(stream.items, k, write))
    {
      var item := stream.items[k];
      var step := WriteSlice(kind, f, item, variables, netcdf);
      var event := Wrote(item.filename, step.outputs);
      if step.failure.Some? {
        return Run(made + (done + [event]), step.failure);
      }
      WritesFromStep(stream.items, k, write, done);
      done := done + [event];
    }
    if stream.failure.Some? {
      return Run(made + done, stream.failure);
    }
    run := Run(made + done + [Closed], None);
  }

  /** `subset`. */
  method Subset(r: Request, glob: string -> seq<string>, open: string -> Dataset, netcdf: NetcdfWriter)
    returns (run: Run)
    requires Valid(r.start)
    ensures run == SubsetRun(r, Yielded(r, glob, open), netcdf)
  {
    var made := [MadeDirs(r.outputPath)];
    var ex := Extractor(r.inputPath, r.variables, r.yDim, r.xDim, r.tDim, r.lonMin, r.latMin, r.lonMax, r.latMax);
    var kind: Kind;
    if r.outputFormat == "netcdf" {
      kind := NetCDF;
    } else if r.outputFormat == "geotiff" {
      kind := GeoTIFF;
    } else {
      return Run(made, Some(Unsupported(r.outputFormat)));
    }
    var f := Formatter(r.outputPath, r.namePattern);
    var stream := GenerateData(ex, r.start, r.end, glob, open);
    run := WriteAll(made, kind, f, stream, r.variables, netcdf);
  }

  /**
   * The `i`-th write of the slices from `k` on is the write of slice `k + i`, and every
   * write before the last one ended normally.
   */
  lemma {:induction false} WritesFromAt(items: seq<Item>, k: nat, write: Item -> Step, i: nat)
    requires i < |WritesFrom(items, k, write).events|
    ensures k + i < |items|
    ensures WritesFrom(items, k, write).events[i] == Wrote(items[k + i].filename, write(items[k + i]).outputs)
    ensures i < |WritesFrom(items, k, write).events| - 1 ==> write(items[k + i]).failure.None?
    decreases i
  {
    if i > 0 {
      WritesFromAt(items, k + 1, write, i - 1);
    }
  }

  /**
   * The writes from `k` on end normally exactly when every write from `k` on does, and
   * then there is one per slice; otherwise the error is that of the last write made.
   */
  lemma {:induction false} WritesFromEnd(items: seq<Item>, k: nat, write: Item -> Step)
    requires k <= |items|
    ensures var run := WritesFrom(items, k, write);
      && |run.events| <= |items| - k
      && (run.failure.None? <==> forall j :: k <= j < |items| ==> write(items[j]).failure.None?)
      && (run.failure.None? ==> |run.events| == |items| - k)
      && (run.failure.Some? ==> |run.events| >= 1 && run.failure == write(items[k + |run.events| - 1]).failure)
    decreases |items| - k
  {
    if k < |items| {
      WritesFromEnd(items, k + 1, write);
    }
  }

  /**
   * The order of a run's events: after the events `made` come the writes, one per slice,
   * in the generator's order, each with that slice's file name and what its write made;
   * and `close` comes last, exactly when nothing raised, after a write of every slice.
   */
  predicate WritesInOrder(run: Run, made: seq<Event>, items: seq<Item>, write: Item -> Step) {
    && |made| <= |run.events| && run.events[..|made|] == made
    && (Closed in run.events <==> run.failure.None?)
    && (run.failure.None? ==> |run.events| == |made| + |items| + 1 && run.events[|run.events| - 1] == Closed)
    && (forall i :: |made| <= i < |run.events| && run.events[i] != Closed ==>
          i - |made| < |items|
          && run.events[i] == Wrote(items[i - |made|].filename, write(items[i - |made|]).outputs))
  }

  /** The loop and the `close` after the events `made` keep the order of the writes. */
  lemma OutcomeOrder(made: seq<Event>, write: Item -> Step, stream: Stream<Item>)
    requires Closed !in made
    ensures WritesInOrder(Outcome(made, write, stream), made, stream.items, write)
  {
    var run := Outcome(made, write, stream);
    var items := stream.items;
    var writes := WritesFrom(items, 0, write);
    WritesFromEnd(items, 0, write);
    var closing := if run.failure.None? then [Closed] else [];
    assert run.events == made + writes.events + closing;
    forall i | |made| <= i < |run.events| && run.events[i] != Closed
      ensures i - |made| < |items|
      ensures run.events[i] == Wrote(items[i - |made|].filename, write(items[i - |made|]).outputs)
    {
      assert i - |made| < |writes.events|;
      assert run.events[i] == writes.events[i - |made|];
      WritesFromAt(items, 0, write, i - |made|);
    }
    forall i | 0 <= i < |writes.events| ensures writes.events[i] != Closed {
      WritesFromAt(items, 0, write, i);
    }
  }

  /**
   * The order of a `subset` run with a supported format: the folder is made first,
   * then the slices are written in the generator's order by the selected formatter,
   * and `close` comes last, exactly when nothing raised.
   */
  lemma SubsetOrder(r: Request, stream: Stream<Item>, netcdf: NetcdfWriter)
    requires SelectFormat(r.outputFormat).Success?
    ensures WritesInOrder(SubsetRun(r, stream, netcdf), [MadeDirs(r.outputPath)], stream.items,
                          Writer(SelectFormat(r.outputFormat).value, Formatter(r.outputPath, r.namePattern),
                                 r.variables, netcdf))
  {
    OutcomeOrder([MadeDirs(r.outputPath)],
                 Writer(SelectFormat(r.outputFormat).value, Formatter(r.outputPath, r.namePattern), r.variables, netcdf),
                 stream);
  }

  /** A refused format raises right after the folder is made: nothing is written or closed. */
  lemma RefusedFormatWritesNothing(r: Request, stream: Stream<Item>, netcdf: NetcdfWriter)
    requires r.outputFormat != "netcdf" && r.outputFormat != "geotiff"
    ensures SubsetRun(r, stream, netcdf) == Run([MadeDirs(r.outputPath)], Some(Unsupported(r.outputFormat)))
  {
  }

  /**
   * A GeoTIFF write of a slice names its rasters after the file the slice came from,
   * whatever the name pattern: the rasters are one per variable, in order, each
   * `stem-variable.tif` in the output folder for the file name's stem.
   */
  lemma GeotiffItemRasters(f: Formatter, item: Item, variables: seq<string>, netcdf: NetcdfWriter)
    ensures var step := WriteItem(GeoTIFF, f, item, variables, netcdf);
      && (forall i :: 0 <= i < |step.outputs| ==>
            step.outputs[i].RasterFile?
            && step.outputs[i].path == PathJoin(f.outputFolder, TifName(SplitExtRoot(item.filename), variables[i])))
      && (step.failure.None? <==> forall v :: v in variables ==> v in item.data.vars)
      && (step.failure.None? ==> |step.outputs| == |variables|)
      && WriteItem(GeoTIFF, Formatter(f.outputFolder, ""), item, variables, netcdf) == step
  {
    var stem := CommonStem(f, None, Some(item.filename));
    RastersOutputs(f.outputFolder, variables, stem, item.data);
    RastersSucceed(f.outputFolder, variables, stem, item.data);
  }

  /** The arguments `dispatch` reads; the dates and the paths are `None` when not given. */
  datatype Args = Args(lonMin: real, lonMax: real, latMin: real, latMax: real,
                       startYear: Option<int>, startMonth: Option<int>, startDay: Option<int>,
                       endYear: Option<int>, endMonth: Option<int>, endDay: Option<int>,
                       inPath: Option<string>, outPath: Option<string>, outputNamePattern: string,
                       outputFormat: string, variables: string)

  /** The call of `subset` that `dispatch` makes, with the default dimension names. */
  function RequestOf(a: Args, outPath: string, start: DateTime, end: DateTime): Request {
    Request(SplitAndStrip(a.variables), a.lonMin, a.lonMax, a.latMin, a.latMax, start, end,
            a.inPath, outPath, a.outputNamePattern, a.outputFormat, "lat", "lon", "time")
  }

  /**
   * What `dispatch` does: it builds the start datetime, then the end datetime, each at
   * 12:00:00, either of which can raise before anything is done; then it runs `subset`
   * on the parsed variable list, whose `os.makedirs` raises at once when no output path
   * was given.
   */
  function DispatchRun(a: Args, glob: string -> seq<string>, open: string -> Dataset, netcdf: NetcdfWriter): Run {
    var start := NoonOf(a.startYear, a.startMonth, a.startDay);
    var end := NoonOf(a.endYear, a.endMonth, a.endDay);
    if start.Failure? then Run([], Some(start.error))
    else if end.Failure? then Run([], Some(end.error))
    else if a.outPath.None? then Run([], Some(MissingPath))
    else
      var r := RequestOf(a, a.outPath.value, start.value, end.value);
      SubsetRun(r, Yielded(r, glob, open), netcdf)
  }

  /** `dispatch`. */
  method Dispatch(a: Args, glob: string -> seq<string>, open: string -> Dataset, netcdf: NetcdfWriter)
    returns (run: Run)
    ensures run == DispatchRun(a, glob, open, netcdf)
  {
    var start := NoonOf(a.startYear, a.startMonth, a.startDay);
    if start.Failure? {
      return Run([], Some(start.error));
    }
    var end := NoonOf(a.endYear, a.endMonth, a.endDay);
    if end.Failure? {
      return Run([], Some(end.error));
    }
    var variables := SplitAndStrip(a.variables);
    if a.outPath.None? {
      return Run([], Some(MissingPath));
    }
    var r := Request(variables, a.lonMin, a.lonMax, a.latMin, a.latMax, start.value, end.value,
                     a.inPath, a.outPath.value, a.outputNamePattern, a.outputFormat, "lat", "lon", "time");
    run := Subset(r, glob, open, netcdf);
  }

  /**
   * When both dates are given and valid, `dispatch` runs `subset` from midday of the
   * start day to midday of the end day, on the comma-separated variables stripped, in
   * order, provided an output path was given; a missing date field or a missing output
   * path raises before the folder is made.
   */
  lemma DispatchCallsSubset(a: Args, glob: string -> seq<string>, open: string -> Dataset, netcdf: NetcdfWriter)
    ensures (a.startYear.None? || a.startMonth.None? || a.startDay.None?) ==>
      DispatchRun(a, glob, open, netcdf) == Run([], Some(MissingField))
    ensures NoonOf(a.startYear, a.startMonth, a.startDay).Success? && NoonOf(a.endYear, a.endMonth, a.endDay).Success?
            && a.outPath.None? ==>
      DispatchRun(a, glob, open, netcdf) == Run([], Some(MissingPath))
    ensures NoonOf(a.startYear, a.startMonth, a.startDay).Success? && NoonOf(a.endYear, a.endMonth, a.endDay).Success?
            && a.outPath.Some? ==>
      var start := Noon(a.startYear.value, a.startMonth.value, a.startDay.value);
      var end := Noon(a.endYear.value, a.endMonth.value, a.endDay.value);
      var r := RequestOf(a, a.outPath.value, start, end);
      && Valid(start) && AtNoon(start) && AtNoon(end)
      && DispatchRun(a, glob, open, netcdf) == SubsetRun(r, Yielded(r, glob, open), netcdf)
      && r.variables == SplitAndStrip(a.variables)
      && |r.variables| == CountChar(a.variables, ',') + 1
      && r.inputPath == a.inPath && r.outputPath == a.outPath.value
  {
  }

  /**
   * With the command line's default format, valid dates and an output path,
   * `dispatch` always ends with the unsupported-format exception right after making
   * the output folder.
   */
  lemma DispatchDefaultFormat(a: Args, glob: string -> seq<string>, open: string -> Dataset, netcdf: NetcdfWriter)
    requires a.outputFormat == SubsetDefaultFormat
    requires NoonOf(a.startYear, a.startMonth, a.startDay).Success? && NoonOf(a.endYear, a.endMonth, a.endDay).Success?
    ensures a.outPath.Some? ==>
      DispatchRun(a, glob, open, netcdf) == Run([MadeDirs(a.outPath.value)], Some(Unsupported("netcdf4")))
    ensures a.outPath.None? ==> DispatchRun(a, glob, open, netcdf) == Run([], Some(MissingPath))
  {
    DefaultFormatRejected();
  }

  /**
   * Without an input path `subset` makes the folder and then, as soon as the generator
   * reaches the first day of the range, raises the `AttributeError` of `None.replace`;
   * nothing is written or closed. An empty range visits no day and closes normally.
   */
  lemma MissingInputRaises(r: Request, glob: string -> seq<string>, open: string -> Dataset, netcdf: NetcdfWriter)
    requires r.inputPath.None? && SelectFormat(r.outputFormat).Success?
    requires Valid(r.start) && Valid(r.end) && AtNoon(r.start) && AtNoon(r.end)
    ensures NotAfter(r.start, r.end) ==>
      SubsetRun(r, Yielded(r, glob, open), netcdf) == Run([MadeDirs(r.outputPath)], Some(NoLocation))
    ensures !NotAfter(r.start, r.end) ==>
      SubsetRun(r, Yielded(r, glob, open), netcdf) == Run([MadeDirs(r.outputPath), Closed], None)
  {
    var ex := ExtractorOf(r);
    GenerateDataWalksRange(ex, r.start, r.end, glob, open);
    var days := DaysFrom(r.start, r.end);
    if NotAfter(r.start, r.end) {
      assert days == [r.start] + DaysFrom(NextDay(r.start), r.end);
      assert Visitor(ex, glob, open)(days[0]) == Fail(NoLocation);
    }
  }
}
