/**
 * The regridder's `Extractor`: for each year of the range it opens the year's input
 * (the location with `{YEAR}` filled in), keeps the requested variables, and yields the
 * kept dataset once for every time period of that year's slice.
 *
 * `xarray.open_mfdataset` and `createTimePeriods` are given as functions: the first of
 * the path, the second of the temporal resolution and the slice bounds.
 */
module RegridExtraction {
  import opened Text
  import opened Decimal
  import opened Calendar
  import opened Datasets
  import opened YearSlicing

  /** The extractor's configuration, as its constructor stores it. */
  datatype Extractor = Extractor(location: string, variableNames: seq<string>, tDim: string)

  /** One `(period_start_dt, period_mid_dt, period_end_dt)` of `createTimePeriods`. */
  datatype Period = Period(start: DateTime, mid: DateTime, end: DateTime)

  /** One yielded `((start, mid, end), dataset)`. */
  datatype Item = Item(period: Period, data: Dataset)

  /** The location with every `{YEAR}` replaced by `str(year)`, without padding. */
  function YearPath(location: string, year: int): string {
    Replace(location, "{YEAR}", IntToString(year))
  }

  /** Every `{YEAR}` is filled in: none is left in the path opened. */
  lemma YearPathFilled(location: string, year: int)
    ensures !Occurs("{YEAR}", YearPath(location, year))
  {
    var digits := IntToString(year);
    assert forall k :: 0 <= k < |digits| ==> ('0' <= digits[k] <= '9') || digits[k] == '-' by {
      if year < 0 {
        assert digits == "-" + Digits(-year);
      }
    }
    DigitsForeign("{YEAR}", digits);
    ReplaceRemovesAll(location, "{YEAR}", digits);
  }

  /** A location without `{YEAR}` is opened as it is, for every year. */
  lemma YearPathFixed(location: string, year: int)
    requires !Occurs("{YEAR}", location)
    ensures YearPath(location, year) == location
  {
    ReplaceAbsent(location, "{YEAR}", IntToString(year));
  }

  /** The dataset of a year: the opened input with only the requested variables and the dimensions. */
  function YearDataset(ex: Extractor, year: int, open: string -> Dataset): Dataset {
    KeepRequested(open(YearPath(ex.location, year)), ex.variableNames)
  }

  /** Each period paired with the same dataset, in the order of the periods. */
  function Tagged(periods: seq<Period>, data: Dataset): (items: seq<Item>)
    ensures |items| == |periods|
    ensures forall k :: 0 <= k < |periods| ==> items[k] == Item(periods[k], data)
  {
    if periods == [] then [] else [Item(periods[0], data)] + Tagged(periods[1..], data)
  }

  /** What `generateYearData(start, end, resolution, ...)` yields. */
  function YearItems(ex: Extractor, start: DateTime, end: DateTime, resolution: string,
                     open: string -> Dataset, periods: (string, DateTime, DateTime) -> seq<Period>): seq<Item> {
    Tagged(periods(resolution, start, end), YearDataset(ex, start.year, open))
  }

  /**
   * `generateYearData`: opens the start's year, keeps the requested variables, and
   * yields one item per period of `createTimePeriods(resolution, start, end)`, in order,
   * all with that one dataset. The box arguments are taken and not used.
   */
  method GenerateYearData(ex: Extractor, start: DateTime, end: DateTime, resolution: string,
                          minLon: real, minLat: real, maxLon: real, maxLat: real,
                          open: string -> Dataset, periods: (string, DateTime, DateTime) -> seq<Period>)
    returns (items: seq<Item>)
    ensures var ps := periods(resolution, start, end);
      && |items| == |ps|
      && forall k :: 0 <= k < |items| ==> items[k] == Item(ps[k], YearDataset(ex, start.year, open))
    ensures items == YearItems(ex, start, end, resolution, open, periods)
  {
    var inputPath := Replace(ex.location, "{YEAR}", IntToString(start.year));
    var z := open(inputPath);
    var dropVariables := DropNames(z, ex.variableNames);
    z := DropVars(z, dropVariables);
    var timePeriods := periods(resolution, start, end);
    items := [];
    for k := 0 to |timePeriods|
      invariant |items| == k
      invariant forall j :: 0 <= j < k ==> items[j] == Item(timePeriods[j], z)
    {
      items := items + [Item(timePeriods[k], z)];
    }
  }

  /** The items of the years from `year` to `last`, each year's in turn. */
  function Years(yearItems: int -> seq<Item>, year: int, last: int): seq<Item>
    decreases last + 1 - year
  {
    if year > last then [] else yearItems(year) + Years(yearItems, year + 1, last)
  }

  /** Each item of the years from `year` to `last` is an item of one of those years. */
  lemma {:induction false} YearsAt(yearItems: int -> seq<Item>, year: int, last: int, i: nat)
    requires i < |Years(yearItems, year, last)|
    ensures exists y, k :: year <= y <= last && 0 <= k < |yearItems(y)| && Years(yearItems, year, last)[i] == yearItems(y)[k]
    decreases last + 1 - year
  {
    var first := yearItems(year);
    var all := Years(yearItems, year, last);
    assert year <= last && all == first + Years(yearItems, year + 1, last);
    if i < |first| {
      assert all[i] == yearItems(year)[i];
    } else {
      YearsAt(yearItems, year + 1, last, i - |first|);
      var y, k :| year + 1 <= y <= last && 0 <= k < |yearItems(y)|
                  && Years(yearItems, year + 1, last)[i - |first|] == yearItems(y)[k];
      assert all[i] == yearItems(y)[k];
    }
  }

  /** What `generateYearData` yields for the slice of each year. */
  function SliceItems(ex: Extractor, start: DateTime, end: DateTime, resolution: string,
                      open: string -> Dataset, periods: (string, DateTime, DateTime) -> seq<Period>): int -> seq<Item> {
    y => YearItems(ex, SliceOf(start, end, y).start, SliceOf(start, end, y).end, resolution, open, periods)
  }

  /** What `generateData` yields from the slice of `year` on. */
  function ItemsFrom(ex: Extractor, start: DateTime, end: DateTime, resolution: string,
                     open: string -> Dataset, periods: (string, DateTime, DateTime) -> seq<Period>,
                     year: int): seq<Item>
  {
    Years(SliceItems(ex, start, end, resolution, open, periods), year, end.year)
  }

  /** What `generateData(start, end, resolution, ...)` yields. */
  function GeneratedData(ex: Extractor, start: DateTime, end: DateTime, resolution: string,
                         open: string -> Dataset, periods: (string, DateTime, DateTime) -> seq<Period>): seq<Item> {
    ItemsFrom(ex, start, end, resolution, open, periods, start.year)
  }

  /** `item` is one the slice of year `y` yields: one of its periods, with that year's kept dataset. */
  predicate FromYear(ex: Extractor, start: DateTime, end: DateTime, resolution: string,
                     open: string -> Dataset, periods: (string, DateTime, DateTime) -> seq<Period>,
                     y: int, item: Item) {
    var slice := SliceOf(start, end, y);
    item.period in periods(resolution, slice.start, slice.end) && item.data == YearDataset(ex, slice.start.year, open)
  }

  /**
   * Every item `generateData` yields comes from one of the year slices from `year` on:
   * its period is one of that slice's periods and its data is that year's kept dataset.
   */
  lemma ItemsFromSlices(ex: Extractor, start: DateTime, end: DateTime, resolution: string,
                        open: string -> Dataset, periods: (string, DateTime, DateTime) -> seq<Period>,
                        year: int, i: nat)
    requires i < |ItemsFrom(ex, start, end, resolution, open, periods, year)|
    ensures exists y :: year <= y <= end.year &&
              FromYear(ex, start, end, resolution, open, periods, y, ItemsFrom(ex, start, end, resolution, open, periods, year)[i])
  {
    var yearItems := SliceItems(ex, start, end, resolution, open, periods);
    YearsAt(yearItems, year, end.year, i);
    var y, k :| year <= y <= end.year && 0 <= k < |yearItems(y)|
                && Years(yearItems, year, end.year)[i] == yearItems(y)[k];
    var slice := SliceOf(start, end, y);
    var ps := periods(resolution, slice.start, slice.end);
    assert yearItems(y)[k] == Item(ps[k], YearDataset(ex, slice.start.year, open));
    assert FromYear(ex, start, end, resolution, open, periods, y, yearItems(y)[k]);
  }

  /**
   * When every slice has at least one period, `generateData` yields at least one item
   * per year from the start's year to the end's year.
   */
  lemma {:induction false} ItemsFromCount(ex: Extractor, start: DateTime, end: DateTime, resolution: string,
                                          open: string -> Dataset, periods: (string, DateTime, DateTime) -> seq<Period>,
                                          year: int)
    requires forall y :: year <= y <= end.year ==>
               |periods(resolution, SliceOf(start, end, y).start, SliceOf(start, end, y).end)| >= 1
    ensures |ItemsFrom(ex, start, end, resolution, open, periods, year)| >= (if year <= end.year then end.year + 1 - year else 0)
    decreases end.year + 1 - year
  {
    if year <= end.year {
      ItemsFromCount(ex, start, end, resolution, open, periods, year + 1);
    }
  }

  /** One year of `generateData`: the slice's items, then the later years. */
  lemma ItemsFromStep(ex: Extractor, start: DateTime, end: DateTime, resolution: string,
                      open: string -> Dataset, periods: (string, DateTime, DateTime) -> seq<Period>,
                      year: int, done: seq<Item>)
    requires year <= end.year
    ensures var slice := SliceOf(start, end, year);
      done + ItemsFrom(ex, start, end, resolution, open, periods, year)
      == (done + YearItems(ex, slice.start, slice.end, resolution, open, periods))
         + ItemsFrom(ex, start, end, resolution, open, periods, year + 1)
  {
  }

  /**
   * `generateData`: for each year from the start's year to the end's year, yields from
   * `generateYearData` over that year's slice.
   */
  method GenerateData(ex: Extractor, start: DateTime, end: DateTime, resolution: string,
                      minLon: real, minLat: real, maxLon: real, maxLat: real,
                      open: string -> Dataset, periods: (string, DateTime, DateTime) -> seq<Period>)
    returns (items: seq<Item>)
    ensures items == GeneratedData(ex, start, end, resolution, open, periods)
  {
    var year := start.year;
    items := [];
    while year <= end.year
      invariant year <= end.year + 1 || year == start.year
      invariant GeneratedData(ex, start, end, resolution, open, periods)
                == items + ItemsFrom(ex, start, end, resolution, open, periods, year)
      decreases end.year - year
    {
      var slice := SliceOf(start, end, year);
      var yearItems := GenerateYearData(ex, slice.start, slice.end, resolution, minLon, minLat, maxLon, maxLat,
                                        open, periods);
      ItemsFromStep(ex, start, end, resolution, open, periods, year, items);
      items := items + yearItems;
      year := year + 1;
    }
  }
}
