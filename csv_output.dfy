/**
 * The regridder's `CSVFormatter`: the first `write` opens one CSV file, named after
 * that period's mid time, and writes the header row; every `write` then appends one row
 * with the mid date and the mean of each requested variable. The file name comes from
 * the regridder's base formatter, given here as `nameOf`; the means are given as `mean`.
 */
module CsvOutput {
  import opened Wrappers
  import opened Paths
  import opened Calendar
  import opened Datasets
  import opened Formatting

  /** A row of the CSV file: the header, or a date followed by one mean per variable. */
  datatype Row =
    | Header(columns: seq<string>)
    | Values(year: int, month: int, day: int, means: seq<real>)

  /** The header row for a list of variables. */
  function HeaderFor(variableNames: seq<string>): (columns: seq<string>)
    ensures |columns| == 3 + |variableNames|
    ensures columns[..3] == ["year", "month", "day"] && columns[3..] == variableNames
  {
    ["year", "month", "day"] + variableNames
  }

  /** The means `prefix` computed first, then whatever the rest of the row gives or raises. */
  function Ahead(prefix: seq<real>, rest: Result<seq<real>, string>): Result<seq<real>, string> {
    if rest.Success? then Success(prefix + rest.value) else rest
  }

  /** The means of the variables from the `k`-th on; a missing variable raises `KeyError`. */
  function MeansFrom(data: Dataset, names: seq<string>, k: nat, mean: (Dataset, string) -> real)
    : Result<seq<real>, string>
    requires k <= |names|
    decreases |names| - k
  {
    if k == |names| then Success([])
    else if names[k] !in data.vars then Failure(Message(MissingKey(names[k])))
    else Ahead([mean(data, names[k])], MeansFrom(data, names, k + 1, mean))
  }

  /** The means of one data row: `float(data[variable].mean(skipna=True))` for each variable. */
  function Means(data: Dataset, names: seq<string>, mean: (Dataset, string) -> real): Result<seq<real>, string> {
    MeansFrom(data, names, 0, mean)
  }

  /**
   * The means from the `k`-th variable on can be computed exactly when every one of
   * those variables is in the dataset; they are then one per variable, in order.
   */
  lemma {:induction false} MeansFromValues(data: Dataset, names: seq<string>, k: nat, mean: (Dataset, string) -> real)
    requires k <= |names|
    ensures var r := MeansFrom(data, names, k, mean);
      && (r.Success? <==> forall j :: k <= j < |names| ==> names[j] in data.vars)
      && (r.Success? ==> |r.value| == |names| - k
                         && forall j :: 0 <= j < |r.value| ==> r.value[j] == mean(data, names[k + j]))
    decreases |names| - k
  {
    if k < |names| && names[k] in data.vars {
      MeansFromValues(data, names, k + 1, mean);
      var rest := MeansFrom(data, names, k + 1, mean);
      if rest.Success? {
        var r := MeansFrom(data, names, k, mean);
        assert r.value == [mean(data, names[k])] + rest.value;
        forall j | 0 < j < |r.value| ensures r.value[j] == mean(data, names[k + j]) {
          assert r.value[j] == rest.value[j - 1];
        }
      }
    }
  }

  /** When the means cannot be computed, the error is `KeyError` for the first missing variable. */
  lemma {:induction false} MeansFromFailure(data: Dataset, names: seq<string>, k: nat, mean: (Dataset, string) -> real)
    requires k <= |names| && MeansFrom(data, names, k, mean).Failure?
    ensures exists j :: k <= j < |names| && names[j] !in data.vars
                        && (forall i :: k <= i < j ==> names[i] in data.vars)
                        && MeansFrom(data, names, k, mean).error == Message(MissingKey(names[j]))
    decreases |names| - k
  {
    if names[k] in data.vars {
      MeansFromFailure(data, names, k + 1, mean);
      var j :| k + 1 <= j < |names| && names[j] !in data.vars
               && (forall i :: k + 1 <= i < j ==> names[i] in data.vars)
               && MeansFrom(data, names, k + 1, mean).error == Message(MissingKey(names[j]));
      assert forall i :: k <= i < j ==> names[i] in data.vars;
    }
  }

  /**
   * A data row has one mean per variable, in order, exactly when every variable is in
   * the dataset; otherwise it raises `KeyError` for the first missing one.
   */
  lemma MeansSpec(data: Dataset, names: seq<string>, mean: (Dataset, string) -> real)
    ensures var r := Means(data, names, mean);
      && (r.Success? <==> forall j :: 0 <= j < |names| ==> names[j] in data.vars)
      && (r.Success? ==> |r.value| == |names| && forall j :: 0 <= j < |names| ==> r.value[j] == mean(data, names[j]))
      && (r.Failure? ==> exists j :: 0 <= j < |names| && names[j] !in data.vars
                                     && (forall i :: 0 <= i < j ==> names[i] in data.vars)
                                     && r.error == Message(MissingKey(names[j])))
  {
    MeansFromValues(data, names, 0, mean);
    if Means(data, names, mean).Failure? {
      MeansFromFailure(data, names, 0, mean);
    }
  }

  /** What writing a row raises once `close` has set the writer to `None`. */
  const NoWriter := "AttributeError: 'NoneType' object has no attribute 'writerow'"

  /** What `close` raises when no file was ever opened. */
  const NoFile := "AttributeError: 'NoneType' object has no attribute 'close'"

  /** The arguments of one `write` call. */
  datatype WriteCall = WriteCall(startDt: DateTime, midDt: DateTime, endDt: DateTime,
                                 data: Dataset, variableNames: seq<string>)

  /** The number of calls that ended normally. */
  function Successes(failures: seq<Option<string>>): nat {
    if failures == [] then 0
    else Successes(failures[..|failures| - 1]) + (if failures[|failures| - 1].None? then 1 else 0)
  }

  /** The data row a call writes when it ends normally. */
  function DataRow(call: WriteCall, mean: (Dataset, string) -> real): Row {
    var means := Means(call.data, call.variableNames, mean);
    Values(call.midDt.year, call.midDt.month, call.midDt.day, if means.Success? then means.value else [])
  }

  /** The data rows of the calls that ended normally, in call order. */
  function DataRows(calls: seq<WriteCall>, failures: seq<Option<string>>, mean: (Dataset, string) -> real): seq<Row>
    requires |failures| == |calls|
  {
    if calls == [] then []
    else
      var n := |calls| - 1;
      DataRows(calls[..n], failures[..n], mean) + (if failures[n].None? then [DataRow(calls[n], mean)] else [])
  }

  /** Extending the calls by one adds that call's data row when it ended normally. */
  lemma DataRowsSnoc(calls: seq<WriteCall>, failures: seq<Option<string>>, i: nat, failure: Option<string>,
                     mean: (Dataset, string) -> real)
    requires |failures| == i < |calls|
    ensures DataRows(calls[..i + 1], failures + [failure], mean)
            == DataRows(calls[..i], failures, mean) + (if failure.None? then [DataRow(calls[i], mean)] else [])
  {
    assert calls[..i + 1][..i] == calls[..i];
    assert (failures + [failure])[..i] == failures;
  }

  /** There is one data row per call that ended normally. */
  lemma {:induction false} DataRowsCount(calls: seq<WriteCall>, failures: seq<Option<string>>, mean: (Dataset, string) -> real)
    requires |failures| == |calls|
    ensures |DataRows(calls, failures, mean)| == Successes(failures)
    ensures forall k :: 0 <= k < |DataRows(calls, failures, mean)| ==> DataRows(calls, failures, mean)[k].Values?
  {
    if calls != [] {
      var n := |calls| - 1;
      DataRowsCount(calls[..n], failures[..n], mean);
    }
  }

  class CsvFormatter {
    /** The output folder. */
    const outputFolder: string
    /** The path of the opened file, or `None` before the first `write`. */
    var outfile: Option<string>
    /** True while the csv writer exists, that is from the first `write` to `close`. */
    var writerOpen: bool
    /** The rows written to the file, in order. */
    var rows: seq<Row>

    /**
     * A file is open exactly when something has been written to it; its first row is
     * the header and every later row is a data row.
     */
    ghost predicate Valid()
      reads this
    {
      && (outfile.None? <==> rows == [])
      && (writerOpen ==> outfile.Some?)
      && (rows != [] ==> rows[0].Header?)
      && (forall i :: 0 < i < |rows| ==> rows[i].Values?)
    }

    /** `CSVFormatter(path, name_pattern)`: no file open yet and no writer. */
    constructor(path: string)
      ensures outputFolder == path && outfile == None && !writerOpen && rows == []
      ensures Valid()
    {
      outputFolder := path;
      outfile := None;
      writerOpen := false;
      rows := [];
    }

    /**
     * `write(start_dt, mid_dt, end_dt, data, variable_names)`. The first call opens
     * `nameOf(mid_dt) + ".csv"` in the output folder and writes the header; later calls
     * keep that file, whatever their mid time. Then the row of means is built (a missing
     * variable raises `KeyError` before anything more is written) and is appended, unless
     * the writer has been closed.
     */
    method Write(nameOf: DateTime -> string, startDt: DateTime, midDt: DateTime, endDt: DateTime,
                 data: Dataset, variableNames: seq<string>, mean: (Dataset, string) -> real)
      returns (failure: Option<string>)
      requires Valid()
      modifies this
      ensures Valid()
      ensures old(outfile).None? ==> outfile == Some(PathJoin(outputFolder, nameOf(midDt) + ".csv")) && writerOpen
      ensures old(outfile).Some? ==> outfile == old(outfile) && writerOpen == old(writerOpen)
      ensures var base := if old(outfile).None? then old(rows) + [Header(HeaderFor(variableNames))] else old(rows);
        var means := Means(data, variableNames, mean);
        && (means.Failure? ==> rows == base && failure == Some(means.error))
        && (means.Success? && !writerOpen ==> rows == base && failure == Some(NoWriter))
        && (means.Success? && writerOpen ==>
              rows == base + [Values(midDt.year, midDt.month, midDt.day, means.value)] && failure == None)
      ensures rows == (if old(outfile).None? then old(rows) + [Header(HeaderFor(variableNames))] else old(rows))
                      + (if failure.None? then [DataRow(WriteCall(startDt, midDt, endDt, data, variableNames), mean)] else [])
    {
      if outfile.None? {
        var outputPath := PathJoin(outputFolder, nameOf(midDt) + ".csv");
        outfile := Some(outputPath);
        writerOpen := true;
        rows := rows + [Header(HeaderFor(variableNames))];
      }
      var outrow: seq<real> := [];
      if Means(data, variableNames, mean).Success? {
        assert outrow + Means(data, variableNames, mean).value == Means(data, variableNames, mean).value;
      }
      for k := 0 to |variableNames|
        invariant Means(data, variableNames, mean) == Ahead(outrow, MeansFrom(data, variableNames, k, mean))
      {
        var variable := variableNames[k];
        if variable !in data.vars {
          return Some(Message(MissingKey(variable)));
        }
        var rest := MeansFrom(data, variableNames, k + 1, mean);
        if rest.Success? {
          assert outrow + ([mean(data, variable)] + rest.value) == (outrow + [mean(data, variable)]) + rest.value;
        }
        outrow := outrow + [mean(data, variable)];
      }
      assert outrow == Means(data, variableNames, mean).value;
      if !writerOpen {
        return Some(NoWriter);
      }
      rows := rows + [Values(midDt.year, midDt.month, midDt.day, outrow)];
      failure := None;
    }

    /**
     * `close()`: the writer is set to `None` in any case; closing raises when no file
     * was ever opened. The rows written stay as they are.
     */
    method Close() returns (failure: Option<string>)
      requires Valid()
      modifies this
      ensures Valid()
      ensures !writerOpen && outfile == old(outfile) && rows == old(rows)
      ensures failure.Some? <==> old(outfile).None?
      ensures failure.Some? ==> failure.value == NoFile
    {
      writerOpen := false;
      if outfile.None? {
        return Some(NoFile);
      }
      failure := None;
    }

    /**
     * A sequence of `write` calls on one formatter. The first call of a fresh formatter
     * opens the file named after its own mid time and writes the header for its own
     * variables; every call that ends normally adds exactly one data row, and a call
     * that raises adds none.
     */
    method WriteEach(nameOf: DateTime -> string, calls: seq<WriteCall>, mean: (Dataset, string) -> real)
      returns (failures: seq<Option<string>>)
      requires Valid()
      modifies this
      ensures Valid()
      ensures |failures| == |calls|
      ensures old(rows) <= rows
      ensures rows == old(rows) + (if old(outfile).None? && calls != [] then [Header(HeaderFor(calls[0].variableNames))] else [])
                                + DataRows(calls, failures, mean)
      ensures |rows| == |old(rows)| + (if old(outfile).None? && calls != [] then 1 else 0) + Successes(failures)
      ensures old(outfile).None? && calls != [] ==>
        && rows[0] == Header(HeaderFor(calls[0].variableNames))
        && outfile == Some(PathJoin(outputFolder, nameOf(calls[0].midDt) + ".csv"))
      ensures old(outfile).Some? || calls == [] ==> outfile == old(outfile)
      ensures old(outfile).None? && calls == [] ==> rows == []
    {
      failures := [];
      var i := 0;
      while i < |calls|
        invariant 0 <= i <= |calls| && |failures| == i
        invariant Valid()
        invariant old(rows) <= rows
        invariant rows == old(rows) + (if old(outfile).None? && i > 0 then [Header(HeaderFor(calls[0].variableNames))] else [])
                                    + DataRows(calls[..i], failures, mean)
        invariant old(outfile).None? && i > 0 ==>
          && rows[0] == Header(HeaderFor(calls[0].variableNames))
          && outfile == Some(PathJoin(outputFolder, nameOf(calls[0].midDt) + ".csv"))
        invariant old(outfile).Some? || i == 0 ==> outfile == old(outfile)
        invariant old(outfile).None? && i == 0 ==> rows == []
      {
        var call := calls[i];
        var failure := Write(nameOf, call.startDt, call.midDt, call.endDt, call.data, call.variableNames, mean);
        DataRowsSnoc(calls, failures, i, failure, mean);
        failures := failures + [failure];
        i := i + 1;
      }
      assert calls[..i] == calls;
      DataRowsCount(calls, failures, mean);
    }
  }
}
