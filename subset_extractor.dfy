/**
 * The subsetter's `Extractor`: for each day of the range it fills the location pattern
 * with the day's date, globs for input files, and yields the one matching file's data
 * restricted to the requested variables and the bounding box.
 *
 * `glob.glob` and `xr.open_dataset` are given as functions of the path: the files
 * present while the extractor runs.
 */
module SubsetExtraction {
  import opened Wrappers
  import opened Text
  import opened Decimal
  import opened Paths
  import opened Calendar
  import opened Datasets
  import opened YearSlicing
  import Formatting

  /** The extractor's configuration, as its constructor stores it; the location may be `None`. */
  datatype Extractor = Extractor(location: Option<string>, variableNames: seq<string>,
                                 yDim: string, xDim: string, tDim: string,
                                 lonMin: real, latMin: real, lonMax: real, latMax: real)

  /** The `sel` applied to a dataset: a slice on the y dimension and one on the x dimension. */
  datatype Selection = Selection(yDim: string, yFrom: real, yTo: real, xDim: string, xFrom: real, xTo: real)

  /** One yielded `(dt, data, filename)`: the data is the kept dataset with its selection. */
  datatype Item = Item(dt: DateTime, data: Dataset, selection: Selection, filename: string)

  /**
   * The location with `{YEAR}`, `{MONTH}` and `{DAY}` replaced, in that order, by the
   * day's year in four digits and its month and day in two.
   */
  function InputPattern(location: string, dt: DateTime): string
  {
    var withYear := Replace(location, "{YEAR}", PadInt(dt.year, 4));
    var withMonth := Replace(withYear, "{MONTH}", PadInt(dt.month, 2));
    Replace(withMonth, "{DAY}", PadInt(dt.day, 2))
  }

  /** After the substitution no `{YEAR}`, `{MONTH}` or `{DAY}` is left. */
  lemma InputPatternFilled(location: string, dt: DateTime)
    ensures var p := InputPattern(location, dt);
      !Occurs("{YEAR}", p) && !Occurs("{MONTH}", p) && !Occurs("{DAY}", p)
  {
    var y, m, d := PadInt(dt.year, 4), PadInt(dt.month, 2), PadInt(dt.day, 2);
    var withYear := Replace(location, "{YEAR}", y);
    var withMonth := Replace(withYear, "{MONTH}", m);
    DigitsForeign("{YEAR}", y);
    DigitsForeign("{YEAR}", m);
    DigitsForeign("{YEAR}", d);
    DigitsForeign("{MONTH}", m);
    DigitsForeign("{MONTH}", d);
    DigitsForeign("{DAY}", d);
    ReplaceRemovesAll(location, "{YEAR}", y);
    ReplaceRemovesAll(withYear, "{MONTH}", m);
    ReplaceKeepsAbsent(withYear, "{MONTH}", m, "{YEAR}");
    ReplaceRemovesAll(withMonth, "{DAY}", d);
    ReplaceKeepsAbsent(withMonth, "{DAY}", d, "{YEAR}");
    ReplaceKeepsAbsent(withMonth, "{DAY}", d, "{MONTH}");
  }

  /** A location without placeholders is globbed as it is, whatever the day. */
  lemma InputPatternFixed(location: string, dt: DateTime)
    requires !Occurs("{YEAR}", location) && !Occurs("{MONTH}", location) && !Occurs("{DAY}", location)
    ensures InputPattern(location, dt) == location
  {
    ReplaceAbsent(location, "{YEAR}", PadInt(dt.year, 4));
    ReplaceAbsent(location, "{MONTH}", PadInt(dt.month, 2));
    ReplaceAbsent(location, "{DAY}", PadInt(dt.day, 2));
  }

  /**
   * The substituted fields read back as the date, the year in exactly four characters
   * and the month and day in exactly two.
   */
  lemma InputPatternFields(dt: DateTime)
    requires Valid(dt) && dt.year <= MaxYear
    ensures PadInt(dt.year, 4) == ZeroPad(dt.year, 4) && |ZeroPad(dt.year, 4)| == 4
    ensures ParseDigits(ZeroPad(dt.year, 4)) == dt.year
    ensures PadInt(dt.month, 2) == ZeroPad(dt.month, 2) && |ZeroPad(dt.month, 2)| == 2
    ensures ParseDigits(ZeroPad(dt.month, 2)) == dt.month
    ensures PadInt(dt.day, 2) == ZeroPad(dt.day, 2) && |ZeroPad(dt.day, 2)| == 2
    ensures ParseDigits(ZeroPad(dt.day, 2)) == dt.day
  {
    assert Pow10(4) == 10000 && Pow10(2) == 100;
    ZeroPadSpec(dt.year, 4);
    ZeroPadSpec(dt.month, 2);
    ZeroPadSpec(dt.day, 2);
  }

  /**
   * `data[y_dim].values[0] > data[y_dim].values[-1]`: whether the latitudes run
   * downwards; a missing coordinate raises `KeyError` and an empty one `IndexError`.
   */
  function LatitudeReversed(ds: Dataset, yDim: string): Result<bool, string> {
    if yDim !in ds.coords then Failure(Formatting.Message(Formatting.MissingKey(yDim)))
    else
      var values := ds.coords[yDim];
      if values == [] then Failure("IndexError: index 0 is out of bounds for axis 0 with size 0")
      else Success(values[0] > values[|values| - 1])
  }

  /**
   * The box selection: the latitude slice runs from the maximum to the minimum when the
   * latitudes run downwards, and from the minimum to the maximum otherwise.
   */
  function BoxSelection(ex: Extractor, reversed: bool): Selection {
    Selection(ex.yDim, if reversed then ex.latMax else ex.latMin, if reversed then ex.latMin else ex.latMax,
              ex.xDim, ex.lonMin, ex.lonMax)
  }

  /**
   * For a box given with `lat_min <= lat_max`, the latitude slice runs in the direction
   * of the data's latitude axis, so that it selects the box whichever way the axis runs.
   */
  lemma BoxFollowsAxis(ex: Extractor, ds: Dataset)
    requires ex.latMin <= ex.latMax
    requires LatitudeReversed(ds, ex.yDim).Success?
    ensures var values := ds.coords[ex.yDim];
      var s := BoxSelection(ex, LatitudeReversed(ds, ex.yDim).value);
      && (values[0] > values[|values| - 1] ==> s.yFrom >= s.yTo)
      && (values[0] <= values[|values| - 1] ==> s.yFrom <= s.yTo)
      && s.xFrom == ex.lonMin && s.xTo == ex.lonMax
  {
  }

  /** What one day of the walk does. */
  datatype Visit = Skip | Yield(item: Item) | Fail(message: string)

  /** What `self.location.replace(...)` raises when the extractor was given no location. */
  const NoLocation := "AttributeError: 'NoneType' object has no attribute 'replace'"

  /**
   * One day: without a location the pattern cannot be filled in; otherwise no match
   * skips the day, exactly one match yields that file's last path component with its
   * kept and selected data, and more than one match is an error.
   */
  function VisitDay(ex: Extractor, dt: DateTime, glob: string -> seq<string>, open: string -> Dataset): Visit {
    match ex.location
    case None => Fail(NoLocation)
    case Some(location) =>
      var pattern := InputPattern(location, dt);
      var matched := glob(pattern);
      if |matched| == 1 then
        var data := KeepRequested(open(matched[0]), ex.variableNames);
        match LatitudeReversed(data, ex.yDim)
        case Failure(e) => Fail(e)
        case Success(reversed) => Yield(Item(dt, data, BoxSelection(ex, reversed), BaseName(matched[0])))
      else if |matched| > 1 then Fail("Incorrect configuration - more than 1 files match: " + pattern)
      else Skip
  }

  /**
   * The match rule: without a location every day raises the `AttributeError` of
   * `None.replace`; a day with no match is skipped; a day with exactly one match yields
   * the day, the match's last path component and its data with only the requested
   * variables and the dimensions kept, unless its latitudes cannot be read; a day with
   * more than one match raises the configuration error naming the pattern.
   */
  lemma VisitDaySpec(ex: Extractor, dt: DateTime, glob: string -> seq<string>, open: string -> Dataset)
    ensures ex.location.None? ==> VisitDay(ex, dt, glob, open) == Fail(NoLocation)
    ensures ex.location.Some? ==>
      var matched := glob(InputPattern(ex.location.value, dt));
      var visit := VisitDay(ex, dt, glob, open);
      && (visit.Skip? <==> |matched| == 0)
      && (|matched| > 1 ==> visit == Fail("Incorrect configuration - more than 1 files match: " + InputPattern(ex.location.value, dt)))
      && (|matched| == 1 ==>
            var data := KeepRequested(open(matched[0]), ex.variableNames);
            && (visit.Yield? <==> LatitudeReversed(data, ex.yDim).Success?)
            && (visit.Yield? ==> visit.item == Item(dt, data, BoxSelection(ex, LatitudeReversed(data, ex.yDim).value),
                                                  BaseName(matched[0]))))
  {
  }

  /** `dt += timedelta(days=1)` overflows from the last day `datetime` can represent. */
  predicate IsLastDay(dt: DateTime) {
    dt.year == MaxYear && dt.month == 12 && dt.day == 31
  }

  const OverflowMessage := "OverflowError: date value out of range"

  /**
   * What a day-by-day walk yields and raises, given what each day does: it stops at a
   * day that fails, and after the last representable day.
   */
  function Walk(days: seq<DateTime>, visit: DateTime -> Visit): Stream<Item> {
    if days == [] then Stream([], None)
    else
      var v := visit(days[0]);
      if v.Fail? then Stream([], Some(v.message))
      else
        var yielded := if v.Yield? then [v.item] else [];
        if IsLastDay(days[0]) then Stream(yielded, Some(OverflowMessage))
        else Prefixed(yielded, Walk(days[1..], visit))
  }

  /** What a day that does not fail yields. */
  function Yielded(v: Visit): seq<Item> {
    if v.Yield? then [v.item] else []
  }

  /** One step of the walk past a day that does not raise. */
  lemma WalkStep(d: DateTime, rest: seq<DateTime>, visit: DateTime -> Visit)
    requires DayPasses(d, visit)
    ensures Walk([d] + rest, visit) == Prefixed(Yielded(visit(d)), Walk(rest, visit))
  {
    assert ([d] + rest)[1..] == rest;
  }

  /** The visit function of an extractor over the given files. */
  function Visitor(ex: Extractor, glob: string -> seq<string>, open: string -> Dataset): DateTime -> Visit {
    dt => VisitDay(ex, dt, glob, open)
  }

  /** What `generate_year_data` yields and raises when it walks the given days in order. */
  function ScanDays(ex: Extractor, days: seq<DateTime>, glob: string -> seq<string>, open: string -> Dataset): Stream<Item> {
    Walk(days, Visitor(ex, glob, open))
  }

  /** A day the walk passes without raising. */
  predicate DayPasses(dt: DateTime, visit: DateTime -> Visit) {
    !visit(dt).Fail? && !IsLastDay(dt)
  }

  /** The days that yield an item, in walking order. */
  function YieldingDays(days: seq<DateTime>, visit: DateTime -> Visit): seq<DateTime> {
    if days == [] then []
    else (if visit(days[0]).Yield? then [days[0]] else []) + YieldingDays(days[1..], visit)
  }

  function ItemDates(items: seq<Item>): seq<DateTime> {
    if items == [] then [] else [items[0].dt] + ItemDates(items[1..])
  }

  /** Every yielded item is the item of some day of the walk. */
  lemma {:induction false} WalkItems(days: seq<DateTime>, visit: DateTime -> Visit, i: nat)
    requires i < |Walk(days, visit).items|
    ensures exists k :: 0 <= k < |days| && visit(days[k]).Yield? && visit(days[k]).item == Walk(days, visit).items[i]
    decreases |days|
  {
    var v := visit(days[0]);
    if v.Yield? && i == 0 {
      assert visit(days[0]).item == Walk(days, visit).items[0];
    } else {
      var j := if v.Yield? then i - 1 else i;
      assert Walk(days, visit).items[i] == Walk(days[1..], visit).items[j];
      WalkItems(days[1..], visit, j);
      var k :| 0 <= k < |days[1..]| && visit(days[1..][k]).Yield? && visit(days[1..][k]).item == Walk(days[1..], visit).items[j];
      assert days[1..][k] == days[k + 1];
    }
  }

  /**
   * The walk ends normally exactly when every day passes: no day fails, and the walk
   * does not step past the last representable day.
   */
  lemma {:induction false} WalkSucceeds(days: seq<DateTime>, visit: DateTime -> Visit)
    ensures Walk(days, visit).failure.None? <==> forall k :: 0 <= k < |days| ==> DayPasses(days[k], visit)
    decreases |days|
  {
    if days != [] {
      WalkSucceeds(days[1..], visit);
      assert forall k :: 1 <= k < |days| ==> days[k] == days[1..][k - 1];
    }
  }

  /** Every item a day yields carries that day. */
  ghost predicate ItemsDated(visit: DateTime -> Visit) {
    forall dt :: visit(dt).Yield? ==> visit(dt).item.dt == dt
  }

  /** A walk that ends normally yields one item per yielding day, in walking order. */
  lemma {:induction false} WalkYieldsInOrder(days: seq<DateTime>, visit: DateTime -> Visit)
    requires ItemsDated(visit)
    requires Walk(days, visit).failure.None?
    ensures ItemDates(Walk(days, visit).items) == YieldingDays(days, visit)
    decreases |days|
  {
    if days != [] {
      var v := visit(days[0]);
      var rest := Walk(days[1..], visit);
      WalkYieldsInOrder(days[1..], visit);
      var items := Walk(days, visit).items;
      if v.Yield? {
        assert items == [v.item] + rest.items;
        assert items[1..] == rest.items;
        assert ItemDates(items) == [days[0]] + ItemDates(rest.items);
      } else {
        assert items == rest.items;
      }
    }
  }

  /**
   * The walk stops at the first day that fails: it raises that day's error after
   * yielding what the days before it yielded.
   */
  lemma {:induction false} WalkStops(days: seq<DateTime>, visit: DateTime -> Visit, k: nat)
    requires k < |days| && visit(days[k]).Fail?
    requires forall j :: 0 <= j < k ==> DayPasses(days[j], visit)
    ensures Walk(days, visit).failure == Some(visit(days[k]).message)
    ensures Walk(days, visit).items == Walk(days[..k], visit).items
    ensures Walk(days[..k], visit).failure.None?
    decreases k
  {
    if k > 0 {
      assert days[1..][..k - 1] == days[..k][1..];
      assert forall j :: 0 <= j < k - 1 ==> days[1..][j] == days[j + 1];
      WalkStops(days[1..], visit, k - 1);
    }
  }

  /** Walking `a` and then `b` is the walk of `a + b`. */
  lemma {:induction false} WalkAppend(a: seq<DateTime>, b: seq<DateTime>, visit: DateTime -> Visit)
    ensures Walk(a + b, visit) == Chain(Walk(a, visit), Walk(b, visit))
    decreases |a|
  {
    if a == [] {
      assert a + b == b;
    } else {
      assert (a + b)[0] == a[0];
      assert (a + b)[1..] == a[1..] + b;
      WalkAppend(a[1..], b, visit);
      var v := visit(a[0]);
      if !v.Fail? && !IsLastDay(a[0]) {
        var yielded := if v.Yield? then [v.item] else [];
        var rest := Walk(a[1..], visit);
        if rest.failure.None? {
          PrefixedTwice(yielded, rest.items, Walk(b, visit));
        }
      }
    }
  }

  /**
   * What `generate_year_data` yields: for each day with a single match, in order, that
   * day with its file's last path component and its kept data.
   */
  lemma ScanDaysItems(ex: Extractor, days: seq<DateTime>, glob: string -> seq<string>, open: string -> Dataset, i: nat)
    requires i < |ScanDays(ex, days, glob, open).items|
    ensures var item := ScanDays(ex, days, glob, open).items[i];
      var matched := glob(InputPattern(ex.location.value, item.dt));
      && ex.location.Some?
      && item.dt in days
      && |matched| == 1
      && item.filename == BaseName(matched[0])
      && item.data == KeepRequested(open(matched[0]), ex.variableNames)
  {
    var visit := Visitor(ex, glob, open);
    WalkItems(days, visit, i);
    var k :| 0 <= k < |days| && visit(days[k]).Yield? && visit(days[k]).item == Walk(days, visit).items[i];
    VisitDaySpec(ex, days[k], glob, open);
  }

  /** `visit` is, at every day, what the extractor's visit of that day does. */
  ghost predicate VisitsDays(visit: DateTime -> Visit, ex: Extractor,
                             glob: string -> seq<string>, open: string -> Dataset) {
    forall dt {:trigger Visitor(ex, glob, open)(dt)} :: visit(dt) == Visitor(ex, glob, open)(dt)
  }

  /**
   * The body of `generate_year_data`'s loop for one day: glob the filled pattern and,
   * for a single match, open it, keep the requested variables and select the box.
   */
  method VisitOneDay(ex: Extractor, dt: DateTime, glob: string -> seq<string>, open: string -> Dataset,
                     ghost visit: DateTime -> Visit)
    returns (v: Visit)
    requires VisitsDays(visit, ex, glob, open)
    ensures v == visit(dt)
  {
    assert Visitor(ex, glob, open)(dt) == VisitDay(ex, dt, glob, open);
    if ex.location.None? {
      return Fail(NoLocation);
    }
    var inputPattern := InputPattern(ex.location.value, dt);
    var matched := glob(inputPattern);
    if |matched| == 1 {
      var inputPath := matched[0];
      var inputFilename := BaseName(inputPath);
      var data := KeepRequested(open(inputPath), ex.variableNames);
      var reversed := LatitudeReversed(data, ex.yDim);
      if reversed.Failure? {
        return Fail(reversed.error);
      }
      return Yield(Item(dt, data, BoxSelection(ex, reversed.value), inputFilename));
    } else if |matched| > 1 {
      return Fail("Incorrect configuration - more than 1 files match: " + inputPattern);
    }
    return Skip;
  }

  /**
   * The loop of `generate_year_data(start, end)`: walks `dt` from `start` while
   * `dt <= end`, one day at a time, yielding each single match and stopping at the
   * first error.
   */
  method WalkDays(ex: Extractor, start: DateTime, end: DateTime,
                  glob: string -> seq<string>, open: string -> Dataset,
                  ghost visit: DateTime -> Visit) returns (s: Stream<Item>)
    requires Valid(start)
    requires VisitsDays(visit, ex, glob, open)
    ensures s == Walk(DaysFrom(start, end), visit)
  {
    var dt := start;
    var items: seq<Item> := [];
    while NotAfter(dt, end)
      invariant Valid(dt)
      invariant Walk(DaysFrom(start, end), visit) == Prefixed(items, Walk(DaysFrom(dt, end), visit))
      decreases end.year + 1 - dt.year, 12 - dt.month, 31 - dt.day
    {
      ghost var rest := DaysFrom(NextDay(dt), end);
      assert DaysFrom(dt, end) == [dt] + rest;
      var v := VisitOneDay(ex, dt, glob, open, visit);
      if v.Fail? {
        return Stream(items, Some(v.message));
      }
      ghost var before := items;
      if v.Yield? {
        items := items + [v.item];
      }
      assert items == before + Yielded(v);
      if IsLastDay(dt) {
        return Stream(items, Some(OverflowMessage));
      }
      WalkStep(dt, rest, visit);
      PrefixedTwice(before, Yielded(v), Walk(rest, visit));
      dt := NextDay(dt);
    }
    s := Stream(items, None);
  }

  /** `generate_year_data(start, end)`: what its walk over the days from `start` to `end` yields and raises. */
  method GenerateYearData(ex: Extractor, start: DateTime, end: DateTime,
                          glob: string -> seq<string>, open: string -> Dataset) returns (s: Stream<Item>)
    requires Valid(start)
    ensures s == ScanDays(ex, DaysFrom(start, end), glob, open)
  {
    s := WalkDays(ex, start, end, glob, open, Visitor(ex, glob, open));
  }

  /** The year walks from `year` to `last` chained: a walk that raises ends the chain. */
  function YearWalks(yearWalk: int -> Stream<Item>, year: int, last: int): Stream<Item>
    decreases last + 1 - year
  {
    if year > last then Stream([], None) else Chain(yearWalk(year), YearWalks(yearWalk, year + 1, last))
  }

  /** What `generate_year_data` yields and raises over the slice of each year, visiting days with `visit`. */
  function SliceWalk(visit: DateTime -> Visit, start: DateTime, end: DateTime): int -> Stream<Item> {
    y => var slice := SliceOf(start, end, y);
         if Valid(slice.start) then Walk(DaysFrom(slice.start, slice.end), visit) else Stream([], None)
  }

  /** What the subsetter's `generate_data(start, end)` yields and raises. */
  function GeneratedData(ex: Extractor, start: DateTime, end: DateTime,
                         glob: string -> seq<string>, open: string -> Dataset): Stream<Item>
  {
    YearWalks(SliceWalk(Visitor(ex, glob, open), start, end), start.year, end.year)
  }

  /** The walk of the slice of a year of the range walks that slice's days. */
  lemma SliceWalkAt(visit: DateTime -> Visit, start: DateTime, end: DateTime, year: int)
    requires Valid(start) && start.year <= year <= end.year
    ensures Valid(SliceOf(start, end, year).start)
    ensures var slice := SliceOf(start, end, year);
      SliceWalk(visit, start, end)(year) == Walk(DaysFrom(slice.start, slice.end), visit)
  {
    YearSlicesValid(start, end);
    YearSliceAt(start, end, year - start.year);
  }

  /** The walk of the year `k` years after the start's is the walk of the `k`-th slice's days. */
  lemma SliceWalkOf(visit: DateTime -> Visit, start: DateTime, end: DateTime, k: nat)
    requires Valid(start) && k < |YearSlices(start, end)|
    ensures Valid(YearSlices(start, end)[k].start)
    ensures var slice := YearSlices(start, end)[k];
      SliceWalk(visit, start, end)(start.year + k) == Walk(DaysFrom(slice.start, slice.end), visit)
  {
    YearSliceAt(start, end, k);
    SliceWalkAt(visit, start, end, start.year + k);
  }

  /** The walk of each year of the range is the walk of its slice's days. */
  lemma SliceWalksOf(visit: DateTime -> Visit, start: DateTime, end: DateTime)
    requires Valid(start)
    ensures StartsValid(YearSlices(start, end))
    ensures forall k :: 0 <= k < |YearSlices(start, end)| ==>
      SliceWalk(visit, start, end)(start.year + k)
      == Walk(DaysFrom(YearSlices(start, end)[k].start, YearSlices(start, end)[k].end), visit)
  {
    YearSlicesValid(start, end);
    forall k | 0 <= k < |YearSlices(start, end)|
      ensures SliceWalk(visit, start, end)(start.year + k)
              == Walk(DaysFrom(YearSlices(start, end)[k].start, YearSlices(start, end)[k].end), visit)
    {
      SliceWalkOf(visit, start, end, k);
    }
  }

  /**
   * One year of the chain after `done` was yielded: a year walk that raises ends the
   * whole chain with its error; one that ends normally leaves the later years to follow.
   */
  lemma YearWalksStep(yearWalk: int -> Stream<Item>, year: int, last: int, done: seq<Item>)
    requires year <= last
    ensures yearWalk(year).failure.Some? ==>
      Prefixed(done, YearWalks(yearWalk, year, last)) == Stream(done + yearWalk(year).items, yearWalk(year).failure)
    ensures yearWalk(year).failure.None? ==>
      Prefixed(done, YearWalks(yearWalk, year, last)) == Prefixed(done + yearWalk(year).items, YearWalks(yearWalk, year + 1, last))
  {
    if yearWalk(year).failure.None? {
      PrefixedTwice(done, yearWalk(year).items, YearWalks(yearWalk, year + 1, last));
    }
  }

  /**
   * Chaining the year walks from `year0` on is walking all the days of the slices, when
   * the walk of year `year0 + k` is the walk of slice `k`.
   */
  lemma {:induction false} YearWalksDays(slices: seq<YearSlice>, visit: DateTime -> Visit,
                                         yearWalk: int -> Stream<Item>, year0: int, last: int)
    requires StartsValid(slices)
    requires if slices == [] then year0 > last else year0 + |slices| == last + 1
    requires forall k :: 0 <= k < |slices| ==> yearWalk(year0 + k) == Walk(DaysFrom(slices[k].start, slices[k].end), visit)
    ensures YearWalks(yearWalk, year0, last) == Walk(SliceDays(slices), visit)
    decreases |slices|
  {
    if slices != [] {
      var rest := slices[1..];
      StartsValidSuffix(slices, 1);
      forall k | 0 <= k < |rest|
        ensures yearWalk(year0 + 1 + k) == Walk(DaysFrom(rest[k].start, rest[k].end), visit)
      {
        assert rest[k] == slices[k + 1];
        assert year0 + 1 + k == year0 + (k + 1);
      }
      YearWalksDays(rest, visit, yearWalk, year0 + 1, last);
      assert yearWalk(year0 + 0) == Walk(DaysFrom(slices[0].start, slices[0].end), visit);
      WalkAppend(DaysFrom(slices[0].start, slices[0].end), SliceDays(rest), visit);
    }
  }

  /** The year walks of a range chained are the walk of all its slices' days. */
  lemma SliceWalksChain(visit: DateTime -> Visit, start: DateTime, end: DateTime)
    requires Valid(start)
    ensures StartsValid(YearSlices(start, end))
    ensures YearWalks(SliceWalk(visit, start, end), start.year, end.year) == Walk(SliceDays(YearSlices(start, end)), visit)
  {
    SliceWalksOf(visit, start, end);
    YearWalksDays(YearSlices(start, end), visit, SliceWalk(visit, start, end), start.year, end.year);
  }

  /**
   * For a range from midday to midday, the year walks chained are one walk over
   * every day of the range: the year split neither loses nor repeats a day.
   */
  lemma YearWalksRange(visit: DateTime -> Visit, start: DateTime, end: DateTime)
    requires Valid(start) && Valid(end) && AtNoon(start) && AtNoon(end)
    ensures YearWalks(SliceWalk(visit, start, end), start.year, end.year) == Walk(DaysFrom(start, end), visit)
  {
    SliceWalksChain(visit, start, end);
    YearSlicesCoverRange(start, end);
  }

  /**
   * For a range from midday to midday, `generate_data` behaves as one walk over every
   * day of the range: the year split neither loses nor repeats a day.
   */
  lemma GenerateDataWalksRange(ex: Extractor, start: DateTime, end: DateTime,
                               glob: string -> seq<string>, open: string -> Dataset)
    requires Valid(start) && Valid(end) && AtNoon(start) && AtNoon(end)
    ensures GeneratedData(ex, start, end, glob, open) == ScanDays(ex, DaysFrom(start, end), glob, open)
  {
    YearWalksRange(Visitor(ex, glob, open), start, end);
  }

  /**
   * `walk` is, at every year, what `generate_year_data` yields and raises over that
   * year's slice.
   */
  ghost predicate WalksSlices(walk: int -> Stream<Item>, ex: Extractor, start: DateTime, end: DateTime,
                              glob: string -> seq<string>, open: string -> Dataset) {
    forall y {:trigger SliceWalk(Visitor(ex, glob, open), start, end)(y)} ::
      walk(y) == SliceWalk(Visitor(ex, glob, open), start, end)(y)
  }

  /** `generate_year_data` over the slice of `year`, as `generate_data` calls it. */
  method GenerateSliceData(ex: Extractor, start: DateTime, end: DateTime,
                           glob: string -> seq<string>, open: string -> Dataset, year: int,
                           ghost walk: int -> Stream<Item>) returns (s: Stream<Item>)
    requires Valid(start) && start.year <= year <= end.year
    requires WalksSlices(walk, ex, start, end, glob, open)
    ensures s == walk(year)
  {
    var slice := SliceOf(start, end, year);
    SliceWalkAt(Visitor(ex, glob, open), start, end, year);
    s := GenerateYearData(ex, slice.start, slice.end, glob, open);
  }

  /**
   * The loop of `generate_data`: for each year from the start's year to the end's year,
   * yields from that year's slice, stopping at the first error.
   */
  method ChainSlices(ex: Extractor, start: DateTime, end: DateTime,
                     glob: string -> seq<string>, open: string -> Dataset,
                     ghost walk: int -> Stream<Item>) returns (s: Stream<Item>)
    requires Valid(start)
    requires WalksSlices(walk, ex, start, end, glob, open)
    ensures s == YearWalks(walk, start.year, end.year)
  {
    var year := start.year;
    var items: seq<Item> := [];
    while year <= end.year
      invariant start.year <= year
      invariant YearWalks(walk, start.year, end.year) == Prefixed(items, YearWalks(walk, year, end.year))
      decreases end.year - year
    {
      var yearData := GenerateSliceData(ex, start, end, glob, open, year, walk);
      YearWalksStep(walk, year, end.year, items);
      if yearData.failure.Some? {
        return Stream(items + yearData.items, yearData.failure);
      }
      items := items + yearData.items;
      year := year + 1;
    }
    assert items + [] == items;
    s := Stream(items, None);
  }

  /** `generate_data(start, end)`: what its loop over the year slices yields and raises. */
  method GenerateData(ex: Extractor, start: DateTime, end: DateTime,
                      glob: string -> seq<string>, open: string -> Dataset) returns (s: Stream<Item>)
    requires Valid(start)
    ensures s == GeneratedData(ex, start, end, glob, open)
  {
    s := ChainSlices(ex, start, end, glob, open, SliceWalk(Visitor(ex, glob, open), start, end));
  }
}
