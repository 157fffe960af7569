/**
  Sport classification and day aggregation (src/lib/strava.ts): raw provider
  records are grouped by the date part of their start timestamp, distances are
  summed per category (swim in meters, run and ride in kilometers), and the day
  records come back sorted by date.
 */
module Strava {
  import opened StravaTypes
  import opened DateOrder

  /** `mapSportType`: the fixed table from provider tags to the three categories. */
  function MapSportType(t: SportType): (c: SportCategory)
    ensures c == SwimCategory <==> t == Swim
    ensures c == RunCategory <==> t in {Run, TrailRun, Treadmill, VirtualRun}
    ensures c == RideCategory <==> t in {Ride, MountainBikeRide, VirtualRide, GravelRide}
  {
    match t
    case Swim => SwimCategory
    case Run => RunCategory
    case TrailRun => RunCategory
    case Treadmill => RunCategory
    case VirtualRun => RunCategory
    case Ride => RideCategory
    case MountainBikeRide => RideCategory
    case VirtualRide => RideCategory
    case GravelRide => RideCategory
  }

  /** Every category is the image of some tag. */
  lemma MapSportTypeOnto(c: SportCategory)
    ensures exists t :: MapSportType(t) == c
  {
    match c
    case SwimCategory => assert MapSportType(Swim) == c;
    case RunCategory => assert MapSportType(Run) == c;
    case RideCategory => assert MapSportType(Ride) == c;
  }

  /** `startDate.split("T")[0]`: the day part of an ISO-8601 timestamp. */
  function DayKey(startDate: string): (key: string)
    ensures |key| <= |startDate|
  {
    if startDate == [] || startDate[0] == 'T' then []
    else [startDate[0]] + DayKey(startDate[1..])
  }

  /**
    The key is the part of the timestamp before its first 'T', or the whole
    string when it has none: a prefix without 'T', followed by 'T' if shorter.
   */
  lemma {:induction false} DayKeyBeforeFirstT(startDate: string)
    ensures DayKey(startDate) <= startDate
    ensures 'T' !in DayKey(startDate)
    ensures |DayKey(startDate)| < |startDate| ==> startDate[|DayKey(startDate)|] == 'T'
    decreases |startDate|
  {
    if startDate != [] && startDate[0] != 'T' {
      DayKeyBeforeFirstT(startDate[1..]);
    }
  }

  /** A date followed by "T" and a time of day has that date as its key. */
  lemma {:induction false} DayKeyOfTimestamp(date: string, time: string)
    requires 'T' !in date
    ensures DayKey(date + "T" + time) == date
    decreases |date|
  {
    var s := date + "T" + time;
    if date != [] {
      assert s[0] == date[0] && s[1..] == date[1..] + "T" + time;
      assert date == [date[0]] + date[1..];
      DayKeyOfTimestamp(date[1..], time);
    }
  }

  /** A string without 'T' (a bare date) is its own key. */
  lemma {:induction false} DayKeyOfDate(date: string)
    requires 'T' !in date
    ensures DayKey(date) == date
    decreases |date|
  {
    if date != [] {
      assert date == [date[0]] + date[1..];
      DayKeyOfDate(date[1..]);
    }
  }

  // ---------------------------------------------------------------------------
  // What the aggregation computes, stated per date and category.

  /** The distance a record adds: swim stays in meters, run and ride become km. */
  function Contribution(a: StravaActivity): (c: real)
    ensures c * (if MapSportType(a.sportType) == SwimCategory then 1.0 else 1000.0) == a.distance
  {
    if MapSportType(a.sportType) == SwimCategory then a.distance else a.distance / 1000.0
  }

  /** The record falls on `date` and belongs to `sport`. */
  predicate CountsFor(a: StravaActivity, date: string, sport: SportCategory) {
    DayKey(a.startDate) == date && MapSportType(a.sportType) == sport
  }

  function Term(a: StravaActivity, date: string, sport: SportCategory): real {
    if CountsFor(a, date, sport) then Contribution(a) else 0.0
  }

  /** The sum of the contributions of the records of `sport` on `date`. */
  function CategorySum(acts: seq<StravaActivity>, date: string, sport: SportCategory): real
    decreases |acts|
  {
    if acts == [] then 0.0
    else CategorySum(acts[..|acts| - 1], date, sport) + Term(acts[|acts| - 1], date, sport)
  }

  /** Some record of `sport` falls on `date`. */
  predicate HasRecord(acts: seq<StravaActivity>, date: string, sport: SportCategory) {
    exists i :: 0 <= i < |acts| && CountsFor(acts[i], date, sport)
  }

  /** The field is present exactly when a record of its category exists, and then holds their sum. */
  function ExpectedField(acts: seq<StravaActivity>, date: string, sport: SportCategory): Option<real> {
    if HasRecord(acts, date, sport) then Some(CategorySum(acts, date, sport)) else None
  }

  /** The day record the aggregation must produce for `date`. */
  function ExpectedDay(acts: seq<StravaActivity>, date: string): DayActivity {
    DayActivity(date,
      ExpectedField(acts, date, SwimCategory),
      ExpectedField(acts, date, RunCategory),
      ExpectedField(acts, date, RideCategory))
  }

  /** The distinct dates of the records. */
  function InputDates(acts: seq<StravaActivity>): set<string> {
    set i | 0 <= i < |acts| :: DayKey(acts[i].startDate)
  }

  /**
    `days` is a correct result of the aggregation of `acts`: one day per distinct
    input date, sorted by date, each day holding the per-category sums.
   */
  predicate IsAggregation(acts: seq<StravaActivity>, days: seq<DayActivity>) {
    && StrictlyAscending(days)
    && DateSet(days) == InputDates(acts)
    && forall j :: 0 <= j < |days| ==> days[j] == ExpectedDay(acts, days[j].date)
  }

  // ---------------------------------------------------------------------------
  // Facts about the specification.

  /** Without records there are no days. */
  lemma EmptyInputEmptyOutput(days: seq<DayActivity>)
    requires IsAggregation([], days)
    ensures days == []
  {
    AscendingDatesUnique(days, []);
  }

  lemma {:induction false} CategorySumWithoutRecords(acts: seq<StravaActivity>, date: string, sport: SportCategory)
    requires !HasRecord(acts, date, sport)
    ensures CategorySum(acts, date, sport) == 0.0
    decreases |acts|
  {
    if acts != [] {
      var init := acts[..|acts| - 1];
      assert forall i :: 0 <= i < |init| ==> init[i] == acts[i];
      CategorySumWithoutRecords(init, date, sport);
      assert !CountsFor(acts[|acts| - 1], date, sport);
    }
  }

  /** Absent and zero-valued fields both count as 0 in a total. */
  lemma ExpectedFieldOrZero(acts: seq<StravaActivity>, date: string, sport: SportCategory)
    ensures OrZero(ExpectedField(acts, date, sport)) == CategorySum(acts, date, sport)
  {
    if !HasRecord(acts, date, sport) {
      CategorySumWithoutRecords(acts, date, sport);
    }
  }

  /** `dayActivity.<field> = (dayActivity.<field> || 0) + distance` for the record's category. */
  function AddRecord(day: DayActivity, a: StravaActivity): (r: DayActivity)
    ensures r.date == day.date
    ensures Field(r, MapSportType(a.sportType)) == Some(OrZero(Field(day, MapSportType(a.sportType))) + Contribution(a))
    ensures forall c :: c != MapSportType(a.sportType) ==> Field(r, c) == Field(day, c)
  {
    match MapSportType(a.sportType)
    case SwimCategory => day.(swim := Some(OrZero(day.swim) + a.distance))
    case RunCategory => day.(run := Some(OrZero(day.run) + a.distance / 1000.0))
    case RideCategory => day.(ride := Some(OrZero(day.ride) + a.distance / 1000.0))
  }

  /** A date no record falls on has the date-only record `{ date }`. */
  lemma ExpectedDayOfNewDate(acts: seq<StravaActivity>, date: string)
    requires date !in InputDates(acts)
    ensures ExpectedDay(acts, date) == DateOnly(date)
  {
    forall i | 0 <= i < |acts| ensures DayKey(acts[i].startDate) != date {
      assert DayKey(acts[i].startDate) in InputDates(acts);
    }
  }

  /** Appending a record adds its term to the sum and may create the field. */
  lemma ExpectedFieldAppend(acts: seq<StravaActivity>, a: StravaActivity, date: string, sport: SportCategory)
    ensures ExpectedField(acts + [a], date, sport)
         == if CountsFor(a, date, sport) then Some(OrZero(ExpectedField(acts, date, sport)) + Contribution(a))
            else ExpectedField(acts, date, sport)
  {
    var acts' := acts + [a];
    assert acts'[..|acts'| - 1] == acts;
    assert forall i :: 0 <= i < |acts| ==> acts'[i] == acts[i];
    assert acts'[|acts|] == a;
    assert HasRecord(acts', date, sport) <==> HasRecord(acts, date, sport) || CountsFor(a, date, sport);
    ExpectedFieldOrZero(acts, date, sport);
  }

  /**
    Appending a record changes only its own day, and changes it exactly as the
    in-place accumulation of one loop iteration does.
   */
  lemma ExpectedDayAppend(acts: seq<StravaActivity>, a: StravaActivity, date: string)
    ensures ExpectedDay(acts + [a], date)
         == if DayKey(a.startDate) == date then AddRecord(ExpectedDay(acts, date), a) else ExpectedDay(acts, date)
  {
    ExpectedFieldAppend(acts, a, date, SwimCategory);
    ExpectedFieldAppend(acts, a, date, RunCategory);
    ExpectedFieldAppend(acts, a, date, RideCategory);
  }

  lemma InputDatesAppend(acts: seq<StravaActivity>, a: StravaActivity)
    ensures InputDates(acts + [a]) == InputDates(acts) + {DayKey(a.startDate)}
  {
    var acts' := acts + [a];
    forall x | x in InputDates(acts') ensures x in InputDates(acts) + {DayKey(a.startDate)} {
      var i :| 0 <= i < |acts'| && DayKey(acts'[i].startDate) == x;
      if i < |acts| {
        assert acts[i] == acts'[i];
      }
    }
    forall x | x in InputDates(acts) ensures x in InputDates(acts') {
      var i :| 0 <= i < |acts| && DayKey(acts[i].startDate) == x;
      assert acts'[i] == acts[i];
    }
    assert acts'[|acts|] == a;
  }

  // ---------------------------------------------------------------------------
  // The order of the input records does not matter.

  lemma {:induction false} CategorySumConcat(p: seq<StravaActivity>, q: seq<StravaActivity>, date: string, sport: SportCategory)
    ensures CategorySum(p + q, date, sport) == CategorySum(p, date, sport) + CategorySum(q, date, sport)
    decreases |q|
  {
    if q == [] {
      assert p + q == p;
    } else {
      var q' := q[..|q| - 1];
      CategorySumConcat(p, q', date, sport);
      assert (p + q)[..|p + q| - 1] == p + q';
      assert (p + q)[|p + q| - 1] == q[|q| - 1];
    }
  }

  /** Taking one record out of the list takes its term out of the sum. */
  lemma CategorySumRemove(b: seq<StravaActivity>, j: nat, date: string, sport: SportCategory)
    requires j < |b|
    ensures CategorySum(b, date, sport) == CategorySum(b[..j] + b[j + 1..], date, sport) + Term(b[j], date, sport)
  {
    assert b == (b[..j] + [b[j]]) + b[j + 1..];
    CategorySumConcat(b[..j] + [b[j]], b[j + 1..], date, sport);
    CategorySumConcat(b[..j], [b[j]], date, sport);
    CategorySumConcat(b[..j], b[j + 1..], date, sport);
    assert [b[j]][..0] == [];
  }

  lemma MultisetRemove(b: seq<StravaActivity>, j: nat)
    requires j < |b|
    ensures multiset(b[..j] + b[j + 1..]) == multiset(b) - multiset{b[j]}
  {
    assert b == b[..j] + [b[j]] + b[j + 1..];
  }

  /** The sum over a non-empty list is the sum over all but the last record plus its term. */
  lemma CategorySumLast(a: seq<StravaActivity>, date: string, sport: SportCategory)
    requires a != []
    ensures CategorySum(a, date, sport) == CategorySum(a[..|a| - 1], date, sport) + Term(a[|a| - 1], date, sport)
  {
  }

  /** Summing the records of a permutation gives the same per-day, per-category total. */
  lemma {:induction false} CategorySumPermutation(a: seq<StravaActivity>, b: seq<StravaActivity>, date: string, sport: SportCategory)
    requires multiset(a) == multiset(b)
    ensures CategorySum(a, date, sport) == CategorySum(b, date, sport)
    decreases |a|
  {
    if a == [] {
      assert |b| == |multiset(b)| == 0;
    } else {
      var n := |a| - 1;
      var x := a[n];
      assert x in multiset(b);
      var j :| 0 <= j < |b| && b[j] == x;
      var a', b' := a[..n], b[..j] + b[j + 1..];
      MultisetRemove(a, n);
      MultisetRemove(b, j);
      assert a[..n] + a[n + 1..] == a';
      assert multiset(a') == multiset(b');
      CategorySumPermutation(a', b', date, sport);
      CategorySumLast(a, date, sport);
      CategorySumRemove(b, j, date, sport);
    }
  }

  /** A permutation of the records has the same dates and the same expected days. */
  lemma ExpectedDayPermutation(a: seq<StravaActivity>, b: seq<StravaActivity>)
    requires multiset(a) == multiset(b)
    ensures InputDates(a) == InputDates(b)
    ensures forall date :: ExpectedDay(a, date) == ExpectedDay(b, date)
  {
    assert forall x :: x in a <==> x in b by {
      forall x ensures x in a <==> x in b {
        assert x in a <==> x in multiset(a);
        assert x in b <==> x in multiset(b);
      }
    }
    forall d | d in InputDates(a) ensures d in InputDates(b) {
      var i :| 0 <= i < |a| && DayKey(a[i].startDate) == d;
      assert a[i] in b;
      var j :| 0 <= j < |b| && b[j] == a[i];
    }
    forall d | d in InputDates(b) ensures d in InputDates(a) {
      var i :| 0 <= i < |b| && DayKey(b[i].startDate) == d;
      assert b[i] in a;
      var j :| 0 <= j < |a| && a[j] == b[i];
    }
    forall date, sport ensures ExpectedField(a, date, sport) == ExpectedField(b, date, sport) {
      CategorySumPermutation(a, b, date, sport);
      if HasRecord(a, date, sport) {
        var i :| 0 <= i < |a| && CountsFor(a[i], date, sport);
        assert a[i] in b;
        var j :| 0 <= j < |b| && b[j] == a[i];
      }
      if HasRecord(b, date, sport) {
        var i :| 0 <= i < |b| && CountsFor(b[i], date, sport);
        assert b[i] in a;
        var j :| 0 <= j < |a| && a[j] == b[i];
      }
    }
  }

  /**
    The aggregation is independent of the order of the input records: any two
    correct results for two permutations of the same records are equal. With
    a == b this says the result is determined by the records.
   */
  lemma AggregationOrderIndependent(a: seq<StravaActivity>, b: seq<StravaActivity>, da: seq<DayActivity>, db: seq<DayActivity>)
    requires multiset(a) == multiset(b)
    requires IsAggregation(a, da) && IsAggregation(b, db)
    ensures da == db
  {
    ExpectedDayPermutation(a, b);
    AscendingDatesUnique(da, db);
    forall j | 0 <= j < |da| ensures da[j] == db[j] {
      assert da[j] == ExpectedDay(a, da[j].date) == ExpectedDay(b, db[j].date);
    }
  }

  // ---------------------------------------------------------------------------
  // Sorting the day records (`Array.prototype.sort` with a localeCompare comparator).

  /** Inserts one day in front of the first day it sorts before. */
  function InsertByDate(d: DayActivity, s: seq<DayActivity>): (r: seq<DayActivity>)
    ensures multiset(r) == multiset(s) + multiset{d}
  {
    if s == [] || Below(d.date, s[0].date) then [d] + s
    else
      assert s == [s[0]] + s[1..];
      [s[0]] + InsertByDate(d, s[1..])
  }

  /** Inserting a day with a new date into a sorted list keeps it sorted. */
  lemma {:induction false} InsertByDateAscending(d: DayActivity, s: seq<DayActivity>)
    requires StrictlyAscending(s)
    requires forall k :: 0 <= k < |s| ==> s[k].date != d.date
    ensures StrictlyAscending(InsertByDate(d, s))
  {
    var r := InsertByDate(d, s);
    if s == [] || Below(d.date, s[0].date) {
      forall j | 1 <= j < |r| ensures Below(r[0].date, r[j].date) {
        if j > 1 {
          BelowTransitive(d.date, s[0].date, s[j - 1].date);
        }
      }
    } else {
      var rest := InsertByDate(d, s[1..]);
      InsertByDateAscending(d, s[1..]);
      BelowTotal(d.date, s[0].date);
      forall j | 1 <= j < |r| ensures Below(r[0].date, r[j].date) {
        var x := rest[j - 1];
        assert x in multiset(rest);
        if x != d {
          assert x in multiset(s[1..]);
          var m :| 0 <= m < |s[1..]| && s[1..][m] == x;
          assert s[m + 1] == x;
        }
      }
    }
  }

  /** Insertion sort by date (the library sort with a localeCompare comparator). */
  function SortByDate(s: seq<DayActivity>): (r: seq<DayActivity>)
    ensures multiset(r) == multiset(s)
  {
    if s == [] then []
    else
      assert s == [s[0]] + s[1..];
      InsertByDate(s[0], SortByDate(s[1..]))
  }

  /** Sorting days whose dates are distinct yields a strictly ascending list. */
  lemma {:induction false} SortByDateAscending(s: seq<DayActivity>)
    requires DistinctDates(s)
    ensures StrictlyAscending(SortByDate(s))
  {
    if s != [] {
      var rest := SortByDate(s[1..]);
      SortByDateAscending(s[1..]);
      forall k | 0 <= k < |rest| ensures rest[k].date != s[0].date {
        assert rest[k] in multiset(s[1..]);
        var m :| 0 <= m < |s[1..]| && s[1..][m] == rest[k];
        assert s[m + 1] == rest[k];
      }
      InsertByDateAscending(s[0], rest);
    }
  }

  // ---------------------------------------------------------------------------
  // transformStravaActivities

  /** The loop invariant: `dayMap` holds exactly the expected day of every date seen so far. */
  predicate MapAggregates(acts: seq<StravaActivity>, dayMap: map<string, DayActivity>) {
    && dayMap.Keys == InputDates(acts)
    && forall k :: k in dayMap ==> dayMap[k] == ExpectedDay(acts, k)
  }

  /** One loop iteration: create the day if new, then accumulate the record into it. */
  lemma MapAggregatesStep(acts: seq<StravaActivity>, a: StravaActivity, dayMap: map<string, DayActivity>)
    requires MapAggregates(acts, dayMap)
    ensures var date := DayKey(a.startDate);
            var day := if date in dayMap then dayMap[date] else DateOnly(date);
            MapAggregates(acts + [a], dayMap[date := AddRecord(day, a)])
  {
    var date := DayKey(a.startDate);
    if date !in dayMap {
      ExpectedDayOfNewDate(acts, date);
    }
    var day := if date in dayMap then dayMap[date] else DateOnly(date);
    var dayMap' := dayMap[date := AddRecord(day, a)];
    InputDatesAppend(acts, a);
    forall k | k in dayMap' ensures dayMap'[k] == ExpectedDay(acts + [a], k) {
      ExpectedDayAppend(acts, a, k);
    }
  }

  /** The map the grouping loop has built after the records `acts`. */
  function GroupByDay(acts: seq<StravaActivity>): (dayMap: map<string, DayActivity>)
    ensures forall d :: d in dayMap ==> dayMap[d].date == d
    decreases |acts|
  {
    if acts == [] then map[]
    else
      var dayMap := GroupByDay(acts[..|acts| - 1]);
      var a := acts[|acts| - 1];
      var date := DayKey(a.startDate);
      dayMap[date := AddRecord(if date in dayMap then dayMap[date] else DateOnly(date), a)]
  }

  /** The grouping loop's map holds exactly the expected day of every input date. */
  lemma {:induction false} GroupByDayAggregates(acts: seq<StravaActivity>)
    ensures MapAggregates(acts, GroupByDay(acts))
    decreases |acts|
  {
    if acts != [] {
      var init := acts[..|acts| - 1];
      GroupByDayAggregates(init);
      MapAggregatesStep(init, acts[|acts| - 1], GroupByDay(init));
      assert init + [acts[|acts| - 1]] == acts;
    }
  }

  /** `order` lists every key of the map once: the map's insertion order. */
  ghost predicate KeyOrder(order: seq<string>, dayMap: map<string, DayActivity>) {
    && (forall k :: k in order <==> k in dayMap)
    && (forall p, q :: 0 <= p < q < |order| ==> order[p] != order[q])
  }

  /** A list of distinct keys covering a map's keys has one entry per key. */
  lemma {:induction false} DistinctKeysCount(order: seq<string>, keys: set<string>)
    requires forall k :: k in order <==> k in keys
    requires forall p, q :: 0 <= p < q < |order| ==> order[p] != order[q]
    ensures |order| == |keys|
    decreases |order|
  {
    if order != [] {
      var last := order[|order| - 1];
      var init := order[..|order| - 1];
      assert forall k :: k in init <==> k in keys - {last} by {
        forall k ensures k in init <==> k in keys - {last} {
          if k in init {
            var p :| 0 <= p < |init| && init[p] == k;
            assert order[p] != order[|order| - 1];
          }
          if k in keys - {last} {
            assert k in order;
            var p :| 0 <= p < |order| && order[p] == k;
            assert p != |order| - 1;
            assert init[p] == k;
          }
        }
      }
      DistinctKeysCount(init, keys - {last});
    }
  }

  /**
    `Array.from(dayMap.values())`: the map's values listed along `order`, a list
    holding each key once. The ensures only expose the body; what the list
    promises is in `ValuesInOrderOnePerKey`.
   */
  function ValuesInOrder(dayMap: map<string, DayActivity>, order: seq<string>): (values: seq<DayActivity>)
    requires KeyOrder(order, dayMap)
    ensures |values| == |order|
    ensures forall j :: 0 <= j < |order| ==> values[j] == dayMap[order[j]]
  {
    seq(|order|, j requires 0 <= j < |order| => dayMap[order[j]])
  }

  /** The listed values are one per key of the map, and every key's value is among them. */
  lemma ValuesInOrderOnePerKey(dayMap: map<string, DayActivity>, order: seq<string>)
    requires KeyOrder(order, dayMap)
    ensures |ValuesInOrder(dayMap, order)| == |dayMap|
    ensures forall k :: k in dayMap ==> dayMap[k] in ValuesInOrder(dayMap, order)
  {
    DistinctKeysCount(order, dayMap.Keys);
    var values := ValuesInOrder(dayMap, order);
    forall k | k in dayMap ensures dayMap[k] in values {
      var j :| 0 <= j < |order| && order[j] == k;
      assert values[j] == dayMap[k];
    }
  }

  /** Sorting the finished map's values gives a correct aggregation. */
  lemma SortedValuesAggregate(acts: seq<StravaActivity>, dayMap: map<string, DayActivity>, order: seq<string>)
    requires MapAggregates(acts, dayMap)
    requires KeyOrder(order, dayMap)
    ensures IsAggregation(acts, SortByDate(ValuesInOrder(dayMap, order)))
  {
    var values := ValuesInOrder(dayMap, order);
    assert forall j :: 0 <= j < |values| ==> values[j].date == order[j] && values[j] == ExpectedDay(acts, order[j]);
    SortByDateAscending(values);
    var days := SortByDate(values);
    assert forall x :: x in days <==> x in values by {
      forall x ensures x in days <==> x in values {
        assert x in days <==> x in multiset(days);
        assert x in values <==> x in multiset(values);
      }
    }
    forall j | 0 <= j < |days|
      ensures days[j] == ExpectedDay(acts, days[j].date)
      ensures days[j].date in dayMap
    {
      assert days[j] in values;
    }
    forall x | x in dayMap ensures x in DateSet(days) {
      var m :| 0 <= m < |order| && order[m] == x;
      assert values[m] in days;
    }
  }

  /**
    `transformStravaActivities`: groups the records by day in a map (creating a
    day entry before looking at the category), accumulates each record's
    distance into its day's field, then returns the map's values sorted by date.
   */
  method TransformStravaActivities(activities: seq<StravaActivity>) returns (days: seq<DayActivity>)
    ensures IsAggregation(activities, days)
  {
    var dayMap: map<string, DayActivity> := map[];
    var order: seq<string> := [];  // the map's insertion order, which `dayMap.values()` follows
    for i := 0 to |activities|
      invariant dayMap == GroupByDay(activities[..i])
      invariant KeyOrder(order, dayMap)
    {
      var activity := activities[i];
      var date := DayKey(activity.startDate);
      assert activities[..i + 1][..i] == activities[..i];
      if !(date in dayMap) {
        dayMap := dayMap[date := DateOnly(date)];
        order := order + [date];
      }
      var dayActivity := dayMap[date];
      dayMap := dayMap[date := AddRecord(dayActivity, activity)];
    }
    assert activities[..|activities|] == activities;
    GroupByDayAggregates(activities);
    SortedValuesAggregate(activities, dayMap, order);
    days := SortByDate(ValuesInOrder(dayMap, order));
  }
}
