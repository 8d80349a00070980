/**
 * The regridder's two NetCDF formatters: `netcdf4formatter.py`, which names its file
 * with its own copy of `get_output_filename`, and `netcdf4_formatter.py`, which names
 * it after the regridder's base formatter (given here as `nameOf`). Each `write` writes
 * the whole dataset to one `.nc` file named after the period's mid time.
 */
module Netcdf {
  import opened Wrappers
  import opened Text
  import opened Decimal
  import opened Paths
  import opened Calendar
  import opened Datasets
  import opened Formatting
  import opened CommandLine

  /** The path `write` writes to: the mid time's name with `.nc`, in the output folder. */
  function NetcdfPath(f: Formatter, midDt: DateTime): (r: Result<string, string>)
    ensures r.Success? <==> OutputFilename(f, midDt).Success?
    ensures r.Success? ==> r.value == PathJoin(f.outputFolder, OutputFilename(f, midDt).value + ".nc")
    ensures r.Failure? ==> r.error == Message(OutputFilename(f, midDt).error)
  {
    var name := OutputFilename(f, midDt);
    if name.Success? then Success(PathJoin(f.outputFolder, name.value + ".nc")) else Failure(Message(name.error))
  }

  /**
   * `NetCDF4Formatter.write(start_dt, mid_dt, end_dt, data)` of `netcdf4formatter.py`:
   * one file holding the whole dataset, whose path depends on the mid time only.
   */
  function Write(f: Formatter, startDt: DateTime, midDt: DateTime, endDt: DateTime, data: Dataset)
    : (r: Result<seq<Output>, string>)
    ensures r.Success? <==> NetcdfPath(f, midDt).Success?
    ensures r.Success? ==> |r.value| == 1 && r.value[0] == NetcdfFile(NetcdfPath(f, midDt).value, data)
    ensures r.Failure? ==> r.error == NetcdfPath(f, midDt).error
  {
    var path := NetcdfPath(f, midDt);
    if path.Success? then Success([NetcdfFile(path.value, data)]) else Failure(path.error)
  }

  /**
   * With the regridder's default pattern, the file of a period is its mid time's
   * timestamp, the fixed product text (which already ends in `.nc`) and another `.nc`.
   */
  lemma DefaultPatternPath(f: Formatter, midDt: DateTime)
    requires f.namePattern == RegridDefaultPattern
    ensures NetcdfPath(f, midDt) == Success(PathJoin(f.outputFolder, TimestampName(midDt, RegridTail) + ".nc"))
  {
    RegridDefaultNames(f, midDt, midDt);
  }

  /**
   * With the regridder's default pattern, periods with different valid mid times
   * (four-digit years) are written to different files, so none overwrites another.
   */
  lemma DefaultPatternPathsDistinct(f: Formatter, m1: DateTime, m2: DateTime)
    requires f.namePattern == RegridDefaultPattern
    requires Valid(m1) && 1000 <= m1.year <= MaxYear && Valid(m2) && 1000 <= m2.year <= MaxYear && m1 != m2
    ensures NetcdfPath(f, m1) != NetcdfPath(f, m2)
  {
    DefaultPatternPath(f, m1);
    DefaultPatternPath(f, m2);
    TimestampNameRelative(m1, RegridTail);
    TimestampNameRelative(m2, RegridTail);
    if TimestampName(m1, RegridTail) == TimestampName(m2, RegridTail) {
      TimestampNameInjective(m1, m2, RegridTail);
    }
    NcPathsDistinct(f.outputFolder, TimestampName(m1, RegridTail), TimestampName(m2, RegridTail));
  }

  /** Different relative names give different `.nc` paths in one folder. */
  lemma NcPathsDistinct(folder: string, a: string, b: string)
    requires a != b && !StartsWith(a, "/") && !StartsWith(b, "/")
    ensures PathJoin(folder, a + ".nc") != PathJoin(folder, b + ".nc")
  {
    var na := a + ".nc";
    var nb := b + ".nc";
    RelativeExtended(a, ".nc");
    RelativeExtended(b, ".nc");
    assert a == na[..|na| - 3];
    assert b == nb[..|nb| - 3];
    PathJoinDistinct(folder, na, nb);
  }

  /**
   * `NetCDF4Formatter.write(start_dt, mid_dt, end_dt, data, variable_names)` of
   * `netcdf4_formatter.py`: one file holding the whole dataset, named after the mid time;
   * the start and end times and the variable names play no part.
   */
  function NamedWrite(folder: string, nameOf: DateTime -> string, startDt: DateTime, midDt: DateTime,
                      endDt: DateTime, data: Dataset, variableNames: seq<string>): (outputs: seq<Output>)
    ensures |outputs| == 1 && outputs[0] == NetcdfFile(PathJoin(folder, nameOf(midDt) + ".nc"), data)
  {
    [NetcdfFile(PathJoin(folder, nameOf(midDt) + ".nc"), data)]
  }

  /** Mid times with different relative names are written to different files. */
  lemma NamedWritePathsDistinct(folder: string, nameOf: DateTime -> string, m1: DateTime, m2: DateTime)
    requires nameOf(m1) != nameOf(m2)
    requires !StartsWith(nameOf(m1), "/") && !StartsWith(nameOf(m2), "/")
    ensures PathJoin(folder, nameOf(m1) + ".nc") != PathJoin(folder, nameOf(m2) + ".nc")
  {
    NcPathsDistinct(folder, nameOf(m1), nameOf(m2));
  }
}
