/**
 * The year-by-year split that both extractors' `generate_data` loops make of a date
 * range: one slice per calendar year from the start's year to the end's year, the
 * first starting at the range start and the last ending at the range end, the others
 * covering 1 January to 31 December at midday.
 */
module YearSlicing {
  import opened Calendar

  datatype YearSlice = YearSlice(start: DateTime, end: DateTime)

  /**
   * The slice for `year`: it starts at 1 January midday unless it is the start's year,
   * and ends at 31 December midday unless it is the end's year.
   */
  function SliceOf(start: DateTime, end: DateTime, year: int): YearSlice {
    YearSlice(if year > start.year then Noon(year, 1, 1) else start,
              if year < end.year then Noon(year, 12, 31) else end)
  }

  /** The slices the `while year <= end_dt.year` loop visits, in order. */
  function YearSlices(start: DateTime, end: DateTime): (slices: seq<YearSlice>)
    ensures |slices| == if start.year <= end.year then end.year - start.year + 1 else 0
    decreases end.year - start.year
  {
    if start.year > end.year then []
    else [SliceOf(start, end, start.year)] + YearSlices(Noon(start.year + 1, 1, 1), end)
  }

  /**
   * One slice per year from the start's year to the end's year (none when the start's
   * year is later); slice `i` lies in year `start.year + i`; the first slice starts at
   * the range start, the last ends at the range end, and every other bound is 1 January
   * or 31 December at midday.
   */
  lemma {:induction false} YearSlicesShape(start: DateTime, end: DateTime)
    ensures var slices := YearSlices(start, end);
      && |slices| == (if start.year <= end.year then end.year - start.year + 1 else 0)
      && (forall i :: 0 <= i < |slices| ==>
            && slices[i].start == (if i == 0 then start else Noon(start.year + i, 1, 1))
            && slices[i].end == (if i == |slices| - 1 then end else Noon(start.year + i, 12, 31)))
    decreases end.year - start.year
  {
    if start.year <= end.year {
      var next := Noon(start.year + 1, 1, 1);
      YearSlicesShape(next, end);
      var slices := YearSlices(start, end);
      assert slices == [SliceOf(start, end, start.year)] + YearSlices(next, end);
      forall i | 0 < i < |slices|
        ensures slices[i].start == Noon(start.year + i, 1, 1)
        ensures slices[i].end == (if i == |slices| - 1 then end else Noon(start.year + i, 12, 31))
      {
        assert slices[i] == YearSlices(next, end)[i - 1];
      }
    }
  }

  /** The slice at index `i` is the slice of year `start.year + i`. */
  lemma {:induction false} YearSliceAt(start: DateTime, end: DateTime, i: nat)
    requires start.year + i <= end.year
    ensures i < |YearSlices(start, end)|
    ensures YearSlices(start, end)[i] == SliceOf(start, end, start.year + i)
    decreases i
  {
    var next := Noon(start.year + 1, 1, 1);
    if i > 0 {
      YearSliceAt(next, end, i - 1);
      assert SliceOf(next, end, next.year + i - 1) == SliceOf(start, end, start.year + i);
    }
  }

  /** Every slice starts at a valid datetime, so that its days can be walked. */
  predicate StartsValid(slices: seq<YearSlice>) {
    forall i :: 0 <= i < |slices| ==> Valid(slices[i].start)
  }

  /** The slices after the first `i` still start validly. */
  lemma StartsValidSuffix(slices: seq<YearSlice>, i: nat)
    requires StartsValid(slices) && i <= |slices|
    ensures StartsValid(slices[i..])
  {
    assert forall k :: 0 <= k < |slices[i..]| ==> slices[i..][k] == slices[i + k];
  }

  /** The days of a sequence of slices, slice after slice. */
  function SliceDays(slices: seq<YearSlice>): seq<DateTime>
    requires StartsValid(slices)
  {
    if slices == [] then []
    else
      StartsValidSuffix(slices, 1);
      DaysFrom(slices[0].start, slices[0].end) + SliceDays(slices[1..])
  }

  /** Every slice starts at a valid datetime. */
  lemma {:induction false} YearSlicesValid(start: DateTime, end: DateTime)
    requires Valid(start)
    ensures StartsValid(YearSlices(start, end))
    decreases end.year - start.year
  {
    if start.year <= end.year {
      YearSlicesValid(Noon(start.year + 1, 1, 1), end);
    }
  }

  /**
   * Walking the days of each slice in turn visits exactly the days of the whole range,
   * in order, when the range starts and ends at midday: no day is lost or repeated at a
   * year boundary.
   */
  lemma {:induction false} YearSlicesCoverRange(start: DateTime, end: DateTime)
    requires Valid(start) && Valid(end) && AtNoon(start) && AtNoon(end)
    ensures StartsValid(YearSlices(start, end))
    ensures SliceDays(YearSlices(start, end)) == DaysFrom(start, end)
    decreases end.year - start.year
  {
    YearSlicesValid(start, end);
    var slices := YearSlices(start, end);
    if start.year > end.year {
      assert Before(end, start);
      assert DaysFrom(start, end) == [];
    } else if start.year == end.year {
      assert YearSlices(Noon(start.year + 1, 1, 1), end) == [];
      assert slices == [YearSlice(start, end)];
      assert SliceDays(slices) == DaysFrom(start, end) + SliceDays([]);
    } else {
      var next := Noon(start.year + 1, 1, 1);
      YearSlicesCoverRange(next, end);
      assert slices[0] == YearSlice(start, Noon(start.year, 12, 31));
      assert slices[1..] == YearSlices(next, end);
      DaysFromAcrossYearEnd(start, end);
    }
  }
}
