/**
  Properties that connect the stages: records are aggregated into days, and the
  summary line and the chart are computed from the same days.
 */
module ActivityPipeline {
  import opened StravaTypes
  import opened DateOrder
  import opened Strava
  import Summary
  import Bars

  /** The total of one category over all records: swim in meters, run and ride in km. */
  function CategoryTotal(acts: seq<StravaActivity>, sport: SportCategory): real {
    if acts == [] then 0.0
    else
      var a := acts[|acts| - 1];
      CategoryTotal(acts[..|acts| - 1], sport) + if MapSportType(a.sportType) == sport then Contribution(a) else 0.0
  }

  /** The per-date sums of one category, added over the dates of `days`. */
  function SumOverDays(acts: seq<StravaActivity>, days: seq<DayActivity>, sport: SportCategory): real {
    if days == [] then 0.0
    else SumOverDays(acts, days[..|days| - 1], sport) + CategorySum(acts, days[|days| - 1].date, sport)
  }

  /** The terms of one record, added over the dates of `days`. */
  function TermOverDays(a: StravaActivity, days: seq<DayActivity>, sport: SportCategory): real {
    if days == [] then 0.0
    else TermOverDays(a, days[..|days| - 1], sport) + Term(a, days[|days| - 1].date, sport)
  }

  lemma DateSetLast(days: seq<DayActivity>)
    requires days != []
    ensures DateSet(days) == DateSet(days[..|days| - 1]) + {days[|days| - 1].date}
  {
    var init := days[..|days| - 1];
    forall x | x in DateSet(days) ensures x in DateSet(init) + {days[|days| - 1].date} {
      var j :| 0 <= j < |days| && days[j].date == x;
      if j < |init| {
        assert init[j] == days[j];
      }
    }
    forall x | x in DateSet(init) ensures x in DateSet(days) {
      var j :| 0 <= j < |init| && init[j].date == x;
      assert days[j] == init[j];
    }
  }

  /** A record whose date is not among the days adds nothing over them. */
  lemma {:induction false} TermOverOtherDays(a: StravaActivity, days: seq<DayActivity>, sport: SportCategory)
    requires DayKey(a.startDate) !in DateSet(days)
    ensures TermOverDays(a, days, sport) == 0.0
    decreases |days|
  {
    if days != [] {
      DateSetLast(days);
      TermOverOtherDays(a, days[..|days| - 1], sport);
    }
  }

  /** A record whose date occurs once among the days adds its contribution once, to its category. */
  lemma {:induction false} TermOverDistinctDays(a: StravaActivity, days: seq<DayActivity>, sport: SportCategory)
    requires DistinctDates(days)
    requires DayKey(a.startDate) in DateSet(days)
    ensures TermOverDays(a, days, sport) == if MapSportType(a.sportType) == sport then Contribution(a) else 0.0
    decreases |days|
  {
    var init := days[..|days| - 1];
    DateSetLast(days);
    if days[|days| - 1].date == DayKey(a.startDate) {
      forall x | x in DateSet(init) ensures x != days[|days| - 1].date {
        var j :| 0 <= j < |init| && init[j].date == x;
        assert days[j] == init[j];
      }
      TermOverOtherDays(a, init, sport);
    } else {
      TermOverDistinctDays(a, init, sport);
    }
  }

  /** Adding a record to the input adds its terms over the days. */
  lemma {:induction false} SumOverDaysAppend(acts: seq<StravaActivity>, a: StravaActivity, days: seq<DayActivity>, sport: SportCategory)
    ensures SumOverDays(acts + [a], days, sport) == SumOverDays(acts, days, sport) + TermOverDays(a, days, sport)
    decreases |days|
  {
    if days != [] {
      SumOverDaysAppend(acts, a, days[..|days| - 1], sport);
      assert (acts + [a])[..|acts + [a]| - 1] == acts;
    }
  }

  /**
    Over distinct dates that include every record's date, the per-date sums add
    up to the category total: no record is lost or counted twice.
   */
  lemma {:induction false} SumOverDaysIsTotal(acts: seq<StravaActivity>, days: seq<DayActivity>, sport: SportCategory)
    requires DistinctDates(days)
    requires InputDates(acts) <= DateSet(days)
    ensures SumOverDays(acts, days, sport) == CategoryTotal(acts, sport)
    decreases |acts|
  {
    if acts == [] {
      SumOverNoRecords(days, sport);
    } else {
      var init, a := acts[..|acts| - 1], acts[|acts| - 1];
      assert acts == init + [a];
      InputDatesAppend(init, a);
      SumOverDaysIsTotal(init, days, sport);
      SumOverDaysAppend(init, a, days, sport);
      TermOverDistinctDays(a, days, sport);
    }
  }

  lemma {:induction false} SumOverNoRecords(days: seq<DayActivity>, sport: SportCategory)
    ensures SumOverDays([], days, sport) == 0.0
    decreases |days|
  {
    if days != [] {
      SumOverNoRecords(days[..|days| - 1], sport);
    }
  }

  /** The summary total over days that each hold their expected sums is the sum of those sums. */
  lemma {:induction false} TotalIsSumOverDays(acts: seq<StravaActivity>, days: seq<DayActivity>, sport: SportCategory)
    requires forall j :: 0 <= j < |days| ==> days[j] == ExpectedDay(acts, days[j].date)
    ensures Summary.GetTotalDistance(days, sport) == SumOverDays(acts, days, sport)
    decreases |days|
  {
    if days != [] {
      var init, last := days[..|days| - 1], days[|days| - 1];
      assert forall j :: 0 <= j < |init| ==> init[j] == days[j];
      TotalIsSumOverDays(acts, init, sport);
      ExpectedFieldOrZero(acts, last.date, sport);
      assert Field(last, sport) == ExpectedField(acts, last.date, sport);
    }
  }

  /**
    The summary line over an aggregated timeline shows, per category, the total
    of all the records of that category (swim in meters, run and ride in km).
   */
  lemma SummaryTotalsOfAggregation(acts: seq<StravaActivity>, days: seq<DayActivity>, sport: SportCategory)
    requires IsAggregation(acts, days)
    ensures Summary.GetTotalDistance(days, sport) == CategoryTotal(acts, sport)
  {
    AscendingHasDistinctDates(days);
    TotalIsSumOverDays(acts, days, sport);
    SumOverDaysIsTotal(acts, days, sport);
  }

  /** The number of sized bars in a chart. */
  function SizedBars(bars: seq<Bars.DayBar>): nat {
    if bars == [] then 0
    else SizedBars(bars[..|bars| - 1]) + if bars[|bars| - 1].shape.SizedBar? then 1 else 0
  }

  lemma {:induction false} SizedBarsCountActive(bars: seq<Bars.DayBar>, days: seq<DayActivity>)
    requires |bars| == |days|
    requires forall i :: 0 <= i < |days| ==> (bars[i].shape.SizedBar? <==> HasActivity(days[i]))
    ensures SizedBars(bars) == Summary.ActiveDays(days)
    decreases |days|
  {
    if days != [] {
      var n := |days| - 1;
      assert forall i :: 0 <= i < n ==> bars[..n][i] == bars[i] && days[..n][i] == days[i];
      SizedBarsCountActive(bars[..n], days[..n]);
    }
  }

  /** The chart draws a sized bar for exactly as many days as the summary counts as active. */
  lemma ChartAgreesWithSummary(days: seq<DayActivity>)
    ensures SizedBars(Bars.BarGraph(days)) == Summary.ActiveDays(days)
  {
    SizedBarsCountActive(Bars.BarGraph(days), days);
  }

  /** A swim and a run on `first`, a ride on the later `third`, at the given times of day. */
  function GapRecords(first: string, third: string, times: seq<string>): seq<StravaActivity>
    requires |times| == 3
  {
    [ StravaActivity(1, Swim, 1500.0, first + "T" + times[0]),
      StravaActivity(2, Run, 5000.0, first + "T" + times[1]),
      StravaActivity(3, Ride, 20000.0, third + "T" + times[2]) ]
  }

  lemma GapRecordKeys(first: string, third: string, times: seq<string>)
    requires |times| == 3 && 'T' !in first && 'T' !in third
    ensures var r := GapRecords(first, third, times);
      && DayKey(r[0].startDate) == first
      && DayKey(r[1].startDate) == first
      && DayKey(r[2].startDate) == third
  {
    DayKeyOfTimestamp(first, times[0]);
    DayKeyOfTimestamp(first, times[1]);
    DayKeyOfTimestamp(third, times[2]);
  }

  lemma GapRecordDates(first: string, third: string, times: seq<string>)
    requires |times| == 3 && 'T' !in first && 'T' !in third
    ensures InputDates(GapRecords(first, third, times)) == {first, third}
  {
    var r := GapRecords(first, third, times);
    GapRecordKeys(first, third, times);
    assert DayKey(r[0].startDate) in InputDates(r);
    assert DayKey(r[2].startDate) in InputDates(r);
  }

  lemma GapRecordSum(first: string, third: string, times: seq<string>, date: string, sport: SportCategory)
    requires |times| == 3
    ensures var r := GapRecords(first, third, times);
      CategorySum(r, date, sport) == Term(r[0], date, sport) + Term(r[1], date, sport) + Term(r[2], date, sport)
  {
    var r := GapRecords(first, third, times);
    assert r[..2][..1] == r[..1] && r[..1][..0] == [];
    assert CategorySum(r[..1], date, sport) == Term(r[0], date, sport);
    assert CategorySum(r[..2], date, sport) == CategorySum(r[..1], date, sport) + Term(r[1], date, sport);
  }

  lemma GapRecordFirstDay(first: string, third: string, times: seq<string>)
    requires |times| == 3 && 'T' !in first && 'T' !in third && first != third
    ensures ExpectedDay(GapRecords(first, third, times), first) == DayActivity(first, Some(1500.0), Some(5.0), None)
  {
    var r := GapRecords(first, third, times);
    GapRecordKeys(first, third, times);
    assert CountsFor(r[0], first, SwimCategory) && CountsFor(r[1], first, RunCategory);
    GapRecordSum(first, third, times, first, SwimCategory);
    GapRecordSum(first, third, times, first, RunCategory);
  }

  lemma GapRecordThirdDay(first: string, third: string, times: seq<string>)
    requires |times| == 3 && 'T' !in first && 'T' !in third && first != third
    ensures ExpectedDay(GapRecords(first, third, times), third) == DayActivity(third, None, None, Some(20.0))
  {
    var r := GapRecords(first, third, times);
    GapRecordKeys(first, third, times);
    assert CountsFor(r[2], third, RideCategory);
    GapRecordSum(first, third, times, third, RideCategory);
  }

  /**
    A 1500 m swim and a 5 km run on one date and a 20 km ride on a later date give
    exactly two days, whatever the times of day: the aggregation sums per
    category and does not create any day between the two dates.
   */
  lemma NoGapFill(first: string, third: string, times: seq<string>, days: seq<DayActivity>)
    requires |times| == 3 && 'T' !in first && 'T' !in third && Below(first, third)
    requires IsAggregation(GapRecords(first, third, times), days)
    ensures days == [
      DayActivity(first, Some(1500.0), Some(5.0), None),
      DayActivity(third, None, None, Some(20.0))]
  {
    var r := GapRecords(first, third, times);
    var expected := [
      DayActivity(first, Some(1500.0), Some(5.0), None),
      DayActivity(third, None, None, Some(20.0))];
    BelowIrreflexive(first);
    GapRecordDates(first, third, times);
    GapRecordFirstDay(first, third, times);
    GapRecordThirdDay(first, third, times);
    assert DateSet(expected) == {first, third} by {
      assert expected[0].date in DateSet(expected) && expected[1].date in DateSet(expected);
    }
    AggregationOrderIndependent(r, r, days, expected);
  }

  /** A 0 m swim and a 5 km run on the same date. */
  function ZeroSwimRecords(date: string, times: seq<string>): seq<StravaActivity>
    requires |times| == 2
  {
    [ StravaActivity(1, Swim, 0.0, date + "T" + times[0]),
      StravaActivity(2, Run, 5000.0, date + "T" + times[1]) ]
  }

  lemma ZeroSwimDay(date: string, times: seq<string>)
    requires |times| == 2 && 'T' !in date
    ensures ExpectedDay(ZeroSwimRecords(date, times), date) == DayActivity(date, Some(0.0), Some(5.0), None)
    ensures InputDates(ZeroSwimRecords(date, times)) == {date}
  {
    var r := ZeroSwimRecords(date, times);
    DayKeyOfTimestamp(date, times[0]);
    DayKeyOfTimestamp(date, times[1]);
    assert CountsFor(r[0], date, SwimCategory) && CountsFor(r[1], date, RunCategory);
    assert r[..1][..0] == [];
    assert CategorySum(r[..1], date, SwimCategory) == 0.0;
    assert CategorySum(r[..1], date, RunCategory) == 0.0;
    assert r[..|r| - 1] == r[..1];
    assert CategorySum(r, date, RunCategory) == CategorySum(r[..1], date, RunCategory) + Term(r[1], date, RunCategory);
    assert DayKey(r[0].startDate) in InputDates(r);
  }

  /**
    A 0 m swim recorded beside a run yields a day whose swim field is present and
    0; the day is active, and its tooltip as written shows a stray "0" before the
    run, where only the run line is intended.
   */
  lemma StrayZeroFromRecords(date: string, times: seq<string>, days: seq<DayActivity>)
    requires |times| == 2 && 'T' !in date
    requires IsAggregation(ZeroSwimRecords(date, times), days)
    ensures days == [DayActivity(date, Some(0.0), Some(5.0), None)]
    ensures HasActivity(days[0])
    ensures Bars.TooltipChildrenAsWritten(days[0])
         == [Bars.ZeroText, Bars.LineChild(Bars.TooltipLine(RunCategory, 5.0))]
    ensures Bars.TooltipLines(days[0]) == [Bars.TooltipLine(RunCategory, 5.0)]
  {
    var r := ZeroSwimRecords(date, times);
    var expected := [DayActivity(date, Some(0.0), Some(5.0), None)];
    ZeroSwimDay(date, times);
    assert DateSet(expected) == {date} by {
      assert expected[0].date in DateSet(expected);
    }
    AggregationOrderIndependent(r, r, days, expected);
    Bars.StrayZeroInTooltip(date);
  }
}
