/**
 * What the two command-line dispatchers share: the defaults of their options, the
 * noon datetimes they build from the year, month and day options, and the parsing of
 * `--variables`.
 */
module CommandLine {
  import opened Wrappers
  import opened Text
  import opened Decimal
  import opened Calendar
  import opened Formatting

  /** The fixed text after the timestamp in the subsetter's default `--output-name-pattern`. */
  const SubsetTail := "-EOCIS-LEVEL-PRODUCT-vVERSION-fv01.0"

  /** The subsetter's default `--output-name-pattern`. */
  const SubsetDefaultPattern := "{Y}{m}{d}{H}{M}{S}-EOCIS-LEVEL-PRODUCT-vVERSION-fv01.0"

  /** The fixed text after the timestamp in the regridder's default `--output-name-pattern`. */
  const RegridTail := "-EOCIS-LEVEL-PRODUCT-vVERSION-fv01.0.nc"

  /** The regridder's default `--output-name-pattern`. */
  const RegridDefaultPattern := "{Y}{m}{d}{H}{M}{S}-EOCIS-LEVEL-PRODUCT-vVERSION-fv01.0.nc"

  /** The subsetter's default `--output-format`. */
  const SubsetDefaultFormat := "netcdf4"

  /** The default `--variables` of both dispatchers. */
  const DefaultVariables := ""

  /** The subsetter's default pattern is the timestamp followed by its fixed text. */
  lemma SubsetDefaultIsTimestamp()
    ensures SubsetDefaultPattern == TimestampPattern(SubsetTail)
  {
    var q := TimestampPattern(SubsetTail);
    assert |SubsetDefaultPattern| == |q|;
    forall i | 0 <= i < |q| ensures SubsetDefaultPattern[i] == q[i] {}
  }

  /** The regridder's default pattern is the timestamp followed by its fixed text. */
  lemma RegridDefaultIsTimestamp()
    ensures RegridDefaultPattern == TimestampPattern(RegridTail)
  {
    var q := TimestampPattern(RegridTail);
    assert |RegridDefaultPattern| == |q|;
    forall i | 0 <= i < |q| ensures RegridDefaultPattern[i] == q[i] {}
  }

  lemma SubsetTailLiteral()
    ensures NoBraces(SubsetTail)
  {
  }

  lemma RegridTailLiteral()
    ensures NoBraces(RegridTail)
  {
  }

  /**
   * With the subsetter's default pattern an output is named by its timestamp, year to
   * second, followed by the fixed product text; valid datetimes with four-digit years
   * that differ get different names.
   */
  lemma SubsetDefaultNames(f: Formatter, t1: DateTime, t2: DateTime)
    requires f.namePattern == SubsetDefaultPattern
    ensures OutputFilename(f, t1) == Success(TimestampName(t1, SubsetTail))
    ensures Valid(t1) && 1000 <= t1.year <= MaxYear && Valid(t2) && 1000 <= t2.year <= MaxYear && t1 != t2
            ==> OutputFilename(f, t1) != OutputFilename(f, t2)
  {
    SubsetTailLiteral();
    SubsetDefaultIsTimestamp();
    TimestampPatternName(f, t1, SubsetTail);
    TimestampPatternName(f, t2, SubsetTail);
    if Valid(t1) && 1000 <= t1.year <= MaxYear && Valid(t2) && 1000 <= t2.year <= MaxYear
       && OutputFilename(f, t1) == OutputFilename(f, t2) {
      TimestampNameInjective(t1, t2, SubsetTail);
    }
  }

  /**
   * With the regridder's default pattern an output is named by its timestamp followed by
   * the fixed product text, which already ends in `.nc`; different valid datetimes with
   * four-digit years get different names.
   */
  lemma RegridDefaultNames(f: Formatter, t1: DateTime, t2: DateTime)
    requires f.namePattern == RegridDefaultPattern
    ensures OutputFilename(f, t1) == Success(TimestampName(t1, RegridTail))
    ensures Valid(t1) && 1000 <= t1.year <= MaxYear && Valid(t2) && 1000 <= t2.year <= MaxYear && t1 != t2
            ==> OutputFilename(f, t1) != OutputFilename(f, t2)
  {
    RegridTailLiteral();
    RegridDefaultIsTimestamp();
    TimestampPatternName(f, t1, RegridTail);
    TimestampPatternName(f, t2, RegridTail);
    if Valid(t1) && 1000 <= t1.year <= MaxYear && Valid(t2) && 1000 <= t2.year <= MaxYear
       && OutputFilename(f, t1) == OutputFilename(f, t2) {
      TimestampNameInjective(t1, t2, RegridTail);
    }
  }

  /** What `datetime.datetime` raises for a date option that was not given. */
  const MissingField := "TypeError: 'NoneType' object cannot be interpreted as an integer"

  /**
   * `datetime.datetime(year, month, day, 12, 0, 0)` from the three options (each `None`
   * when not given): every argument is converted before any range is checked, and the
   * year is checked before the month and the month before the day.
   */
  function NoonOf(year: Option<int>, month: Option<int>, day: Option<int>): (r: Result<DateTime, string>)
    ensures r.Success? <==> (year.Some? && month.Some? && day.Some?
                             && Make(year.value, month.value, day.value, 12, 0, 0).Some?)
    ensures r.Success? ==> r.value == Noon(year.value, month.value, day.value) && AtNoon(r.value)
    ensures (year.None? || month.None? || day.None?) ==> r == Failure(MissingField)
  {
    if year.None? || month.None? || day.None? then Failure(MissingField)
    else if !(1 <= year.value <= MaxYear) then
      Failure("ValueError: year " + IntToString(year.value) + " is out of range")
    else if !(1 <= month.value <= 12) then Failure("ValueError: month must be in 1..12")
    else if !(1 <= day.value <= DaysInMonth(year.value, month.value)) then
      Failure("ValueError: day is out of range for month")
    else Success(Noon(year.value, month.value, day.value))
  }

  /** A month outside 1..12 is reported as such even when the day is out of range too. */
  lemma NoonOfChecksMonthFirst(year: int, month: int, day: int)
    requires 1 <= year <= MaxYear && !(1 <= month <= 12)
    ensures NoonOf(Some(year), Some(month), Some(day)) == Failure("ValueError: month must be in 1..12")
  {
  }

  /** What `os.makedirs` raises for an output path that was not given. */
  const MissingPath := "TypeError: expected str, bytes or os.PathLike object, not NoneType"

  /** The default `--variables` asks for one variable with the empty name. */
  lemma DefaultVariablesParse()
    ensures SplitAndStrip(DefaultVariables) == [""]
  {
    SplitAndStripEmpty();
  }
}
