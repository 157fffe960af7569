/**
  The deterministic mock timeline of `getMockActivities`: a seeded linear
  congruential generator drives a per-day generation loop, and a second loop
  emits one entry per day from the start day to today.

  Calendar days are integer indices; `dateOf(k)` is the `YYYY-MM-DD` string of
  day k. The start day and today come from the clock and are parameters.
 */
module StravaMock {
  import opened StravaTypes
  import opened DateOrder
  import JsMath

  const SEED_START: nat := 12345
  const MULTIPLIER: nat := 9301
  const INCREMENT: nat := 49297
  const MODULUS: nat := 233280

  /** Probabilities of the draws: an active day, then swim, run and ride on it. */
  const ACTIVE_CHANCE: real := 0.6
  const SWIM_CHANCE: real := 0.3
  const RUN_CHANCE: real := 0.5
  const RIDE_CHANCE: real := 0.4

  /** One generator step: `seed = (seed * 9301 + 49297) % 233280`. */
  function NextSeed(seed: nat): (next: nat)
    ensures next < MODULUS
  {
    (seed * MULTIPLIER + INCREMENT) % MODULUS
  }

  /** The value `random()` returns for a new seed: `seed / 233280`. */
  function Fraction(seed: nat): (r: real)
    ensures 0.0 <= r
    ensures seed < MODULUS ==> r < 1.0
  {
    seed as real / MODULUS as real
  }

  /** Every generated seed yields a draw in [0, 1). */
  lemma FractionInUnit(seed: nat)
    requires seed < MODULUS
    ensures 0.0 <= Fraction(seed) < 1.0
  {
  }

  /**
    Comparing a draw with a probability is comparing the seed with an integer
    threshold: 0.6, 0.3, 0.5 and 0.4 of 233280.
   */
  lemma DrawThresholds(seed: nat)
    ensures Fraction(seed) < ACTIVE_CHANCE <==> seed < 139968
    ensures Fraction(seed) < SWIM_CHANCE <==> seed < 69984
    ensures Fraction(seed) < RUN_CHANCE <==> seed < 116640
    ensures Fraction(seed) < RIDE_CHANCE <==> seed < 93312
  {
  }

  /** The `random` closure over its captured `seed`. */
  class SeededRandom {
    var seed: nat

    constructor ()
      ensures seed == SEED_START
    {
      seed := SEED_START;
    }

    /** `random()`: advance the seed and return it as a fraction of the modulus. */
    method Next() returns (r: real)
      modifies this
      ensures seed == NextSeed(old(seed))
      ensures r == Fraction(seed)
    {
      seed := NextSeed(seed);
      r := Fraction(seed);
    }
  }

  /** `Math.floor(1000 + r * 2500)`: swim meters. */
  function SwimAmount(r: real): (meters: int)
    ensures 0.0 <= r < 1.0 ==> 1000 <= meters <= 3499
  {
    JsMath.Floor(1000.0 + r * 2500.0)
  }

  /** `Math.round((5 + r * 16) * 10) / 10`: run kilometers to one decimal. */
  function RunAmount(r: real): (km: real)
    ensures (km * 10.0).Floor as real == km * 10.0
    ensures 5.0 + r * 16.0 - 0.05 < km <= 5.0 + r * 16.0 + 0.05
  {
    JsMath.Round((5.0 + r * 16.0) * 10.0) as real / 10.0
  }

  /** `Math.round((20 + r * 80) * 10) / 10`: ride kilometers to one decimal. */
  function RideAmount(r: real): (km: real)
    ensures (km * 10.0).Floor as real == km * 10.0
    ensures 20.0 + r * 80.0 - 0.05 < km <= 20.0 + r * 80.0 + 0.05
  {
    JsMath.Round((20.0 + r * 80.0) * 10.0) as real / 10.0
  }

  /** The value drawn for one category. */
  function Amount(sport: SportCategory, r: real): real {
    match sport
    case SwimCategory => SwimAmount(r) as real
    case RunCategory => RunAmount(r)
    case RideCategory => RideAmount(r)
  }

  function Chance(sport: SportCategory): real {
    match sport
    case SwimCategory => SWIM_CHANCE
    case RunCategory => RUN_CHANCE
    case RideCategory => RIDE_CHANCE
  }

  /** The range the mock promises for a generated value of one category. */
  predicate InMockRange(sport: SportCategory, v: real) {
    match sport
    case SwimCategory => 1000.0 <= v <= 3499.0 && v == v.Floor as real
    case RunCategory => 5.0 <= v <= 21.0
    case RideCategory => 20.0 <= v <= 100.0
  }

  /** Swim is a whole number of meters in [1000, 3499]; run in [5, 21] km; ride in [20, 100] km. */
  lemma AmountInRange(sport: SportCategory, r: real)
    requires 0.0 <= r < 1.0
    ensures InMockRange(sport, Amount(sport, r))
    ensures Amount(sport, r) > 0.0
  {
    match sport
    case SwimCategory =>
    case RunCategory =>
      JsMath.RoundWithin((5.0 + r * 16.0) * 10.0, 50, 210);
    case RideCategory =>
      JsMath.RoundWithin((20.0 + r * 80.0) * 10.0, 200, 1000);
  }

  /** The seed after a draw, and the field value it set, if any. */
  datatype Draw = Draw(seed: nat, amount: Option<real>)

  /**
    `if (random() < chance) { activity[sport] = amount(random()) }`: one draw
    decides, and only a successful draw spends a second one on the value.
   */
  function DrawField(seed: nat, sport: SportCategory): (d: Draw)
    ensures d.seed < MODULUS
    ensures d.amount.Some? ==> InMockRange(sport, d.amount.value) && d.amount.value > 0.0
  {
    var decide := NextSeed(seed);
    if Fraction(decide) < Chance(sport) then
      var value := NextSeed(decide);
      FractionInUnit(value);
      AmountInRange(sport, Fraction(value));
      Draw(value, Some(Amount(sport, Fraction(value))))
    else
      Draw(decide, None)
  }

  /** The seed after one day's draws, and the day stored for it, if any. */
  datatype DayDraw = DayDraw(seed: nat, stored: Option<DayActivity>)

  /** A stored mock day: its own date, some activity, every present value in range. */
  predicate ValidMockDay(date: string, day: DayActivity) {
    && day.date == date
    && HasActivity(day)
    && (day.swim.Some? ==> InMockRange(SwimCategory, day.swim.value))
    && (day.run.Some? ==> InMockRange(RunCategory, day.run.value))
    && (day.ride.Some? ==> InMockRange(RideCategory, day.ride.value))
  }

  /**
    One iteration of the generation loop: an activity draw, then swim, run and
    ride draws in that order; the day is kept only if some field was set.
   */
  function GenerateDay(seed: nat, date: string): (d: DayDraw)
    ensures d.seed < MODULUS
    ensures d.stored.Some? ==> ValidMockDay(date, d.stored.value)
  {
    var active := NextSeed(seed);
    if !(Fraction(active) < ACTIVE_CHANCE) then
      DayDraw(active, None)
    else
      var swim := DrawField(active, SwimCategory);
      var run := DrawField(swim.seed, RunCategory);
      var ride := DrawField(run.seed, RideCategory);
      var activity := DayActivity(date, swim.amount, run.amount, ride.amount);
      DayDraw(ride.seed, if HasActivity(activity) then Some(activity) else None)
  }

  /** A day is stored exactly when its activity draw and at least one field draw succeed. */
  lemma GenerateDayStoredIff(seed: nat, date: string)
    ensures GenerateDay(seed, date).stored.Some? <==>
      var active := NextSeed(seed);
      var swim := DrawField(active, SwimCategory);
      var run := DrawField(swim.seed, RunCategory);
      var ride := DrawField(run.seed, RideCategory);
      Fraction(active) < ACTIVE_CHANCE && (swim.amount.Some? || run.amount.Some? || ride.amount.Some?)
  {
  }

  /** The generator seed and the `activities` map after some days of the generation loop. */
  datatype MockState = MockState(seed: nat, stored: map<string, DayActivity>)

  /** The labels of the days in [start, stop) are strictly ascending. */
  ghost predicate LabelsAscending(dateOf: int -> string, start: int, stop: int) {
    forall i, j :: start <= i < j < stop ==> Below(dateOf(i), dateOf(j))
  }

  /** No two days of [start, stop) share a label. */
  ghost predicate LabelsDistinct(dateOf: int -> string, start: int, stop: int) {
    forall i, j :: start <= i < j < stop ==> dateOf(i) != dateOf(j)
  }

  lemma AscendingLabelsDistinct(dateOf: int -> string, start: int, stop: int)
    requires LabelsAscending(dateOf, start, stop)
    ensures LabelsDistinct(dateOf, start, stop)
  {
    forall i, j | start <= i < j < stop ensures dateOf(i) != dateOf(j) {
      BelowIrreflexive(dateOf(i));
    }
  }

  /** The generation loop over days start .. stop - 1, from the initial seed. */
  function Generate(dateOf: int -> string, start: int, stop: int): (st: MockState)
    ensures st.seed < MODULUS
    decreases stop - start
  {
    if stop <= start then MockState(SEED_START, map[])
    else
      var prev := Generate(dateOf, start, stop - 1);
      var date := dateOf(stop - 1);
      var d := GenerateDay(prev.seed, date);
      MockState(d.seed, if d.stored.Some? then prev.stored[date := d.stored.value] else prev.stored)
  }

  /** Every stored day is a valid mock day under its own date. */
  lemma {:induction false} GenerateStoredValid(dateOf: int -> string, start: int, stop: int, date: string)
    requires date in Generate(dateOf, start, stop).stored
    ensures ValidMockDay(date, Generate(dateOf, start, stop).stored[date])
    decreases stop - start
  {
    if stop > start {
      var prev := Generate(dateOf, start, stop - 1);
      var d := GenerateDay(prev.seed, dateOf(stop - 1));
      if date != dateOf(stop - 1) || d.stored.None? {
        GenerateStoredValid(dateOf, start, stop - 1, date);
      }
    }
  }

  /** Only days of the range are stored. */
  lemma {:induction false} GenerateKeysInRange(dateOf: int -> string, start: int, stop: int, date: string)
    requires date in Generate(dateOf, start, stop).stored
    ensures exists k :: start <= k < stop && dateOf(k) == date
    decreases stop - start
  {
    if stop > start {
      var prev := Generate(dateOf, start, stop - 1);
      if date in prev.stored {
        GenerateKeysInRange(dateOf, start, stop - 1, date);
      }
    }
  }

  /** `activities.get(date) || { date }`. */
  function Lookup(stored: map<string, DayActivity>, date: string): (day: DayActivity)
    ensures date in stored ==> day == stored[date]
    ensures date !in stored ==> day == DateOnly(date)
  {
    if date in stored then stored[date] else DateOnly(date)
  }

  /** The gap-filling loop over days start .. stop - 1. */
  function FillTimeline(dateOf: int -> string, stored: map<string, DayActivity>, start: int, stop: int): (days: seq<DayActivity>)
    ensures |days| == if start <= stop then stop - start else 0
    ensures forall k :: 0 <= k < |days| ==> days[k] == Lookup(stored, dateOf(start + k))
    decreases stop - start
  {
    if stop <= start then []
    else FillTimeline(dateOf, stored, start, stop - 1) + [Lookup(stored, dateOf(stop - 1))]
  }

  /** The whole mock result for the days from `start` to `today` inclusive. */
  function MockTimeline(dateOf: int -> string, start: int, today: int): (days: seq<DayActivity>)
    ensures |days| == if start <= today then today - start + 1 else 0
  {
    FillTimeline(dateOf, Generate(dateOf, start, today + 1).stored, start, today + 1)
  }

  /**
    What a day of the result is: the day as generated from the seed left by the
    earlier days when that day was stored, its date alone otherwise.
   */
  function DayOutcome(dateOf: int -> string, start: int, k: int): DayActivity {
    var d := GenerateDay(Generate(dateOf, start, k).seed, dateOf(k));
    if d.stored.Some? then d.stored.value else DateOnly(dateOf(k))
  }

  /** A date no day of the range carries is not stored. */
  lemma {:induction false} GenerateFreshKey(dateOf: int -> string, start: int, stop: int, date: string)
    requires forall i :: start <= i < stop ==> dateOf(i) != date
    ensures date !in Generate(dateOf, start, stop).stored
    decreases stop - start
  {
    if stop > start {
      GenerateFreshKey(dateOf, start, stop - 1, date);
    }
  }

  /** A day's own iteration stores its outcome when no earlier day used the same date. */
  lemma GenerateStoresOutcome(dateOf: int -> string, start: int, stop: int)
    requires start < stop
    requires dateOf(stop - 1) !in Generate(dateOf, start, stop - 1).stored
    ensures Lookup(Generate(dateOf, start, stop).stored, dateOf(stop - 1)) == DayOutcome(dateOf, start, stop - 1)
  {
  }

  /** An iteration leaves the entries of other dates alone. */
  lemma GenerateKeepsOthers(dateOf: int -> string, start: int, stop: int, date: string)
    requires start < stop && date != dateOf(stop - 1)
    ensures Lookup(Generate(dateOf, start, stop).stored, date) == Lookup(Generate(dateOf, start, stop - 1).stored, date)
  {
  }

  /** A later day never overwrites an earlier one when the labels are distinct. */
  lemma {:induction false} GenerateStoredAt(dateOf: int -> string, start: int, stop: int, k: int)
    requires LabelsDistinct(dateOf, start, stop)
    requires start <= k < stop
    ensures Lookup(Generate(dateOf, start, stop).stored, dateOf(k)) == DayOutcome(dateOf, start, k)
    decreases stop - start
  {
    if k < stop - 1 {
      GenerateStoredAt(dateOf, start, stop - 1, k);
      GenerateKeepsOthers(dateOf, start, stop, dateOf(k));
    } else {
      GenerateFreshKey(dateOf, start, stop - 1, dateOf(k));
      GenerateStoresOutcome(dateOf, start, stop);
    }
  }

  /** The mock result has one entry per day from `start` to `today`, each dated by its day. */
  lemma MockTimelineShape(dateOf: int -> string, start: int, today: int)
    ensures |MockTimeline(dateOf, start, today)| == if start <= today then today - start + 1 else 0
    ensures forall k :: 0 <= k < |MockTimeline(dateOf, start, today)| ==>
      MockTimeline(dateOf, start, today)[k].date == dateOf(start + k)
  {
    var stored := Generate(dateOf, start, today + 1).stored;
    var days := FillTimeline(dateOf, stored, start, today + 1);
    forall k | 0 <= k < |days| ensures days[k].date == dateOf(start + k) {
      if dateOf(start + k) in stored {
        GenerateStoredValid(dateOf, start, today + 1, dateOf(start + k));
      }
    }
  }

  /**
    Each entry of the mock result is the day as generated from the seed left by
    the earlier days when that day was stored, its date alone otherwise.
   */
  lemma MockTimelineOutcomes(dateOf: int -> string, start: int, today: int)
    requires LabelsDistinct(dateOf, start, today + 1)
    ensures forall k :: 0 <= k < |MockTimeline(dateOf, start, today)| ==>
      MockTimeline(dateOf, start, today)[k] == DayOutcome(dateOf, start, start + k)
  {
    var days := MockTimeline(dateOf, start, today);
    forall k | 0 <= k < |days| ensures days[k] == DayOutcome(dateOf, start, start + k) {
      GenerateStoredAt(dateOf, start, today + 1, start + k);
    }
  }

  /** The mock result is strictly ascending by date, so no date repeats. */
  lemma MockTimelineAscending(dateOf: int -> string, start: int, today: int)
    requires LabelsAscending(dateOf, start, today + 1)
    ensures StrictlyAscending(MockTimeline(dateOf, start, today))
  {
    MockTimelineShape(dateOf, start, today);
  }

  /** Every entry is a date-only day or a valid generated day. */
  lemma MockTimelineValues(dateOf: int -> string, start: int, today: int)
    ensures forall k :: 0 <= k < |MockTimeline(dateOf, start, today)| ==>
      var day := MockTimeline(dateOf, start, today)[k];
      day == DateOnly(dateOf(start + k)) || ValidMockDay(dateOf(start + k), day)
  {
    var st := Generate(dateOf, start, today + 1);
    forall k | 0 <= k < |MockTimeline(dateOf, start, today)|
      ensures var day := MockTimeline(dateOf, start, today)[k];
        day == DateOnly(dateOf(start + k)) || ValidMockDay(dateOf(start + k), day)
    {
      if dateOf(start + k) in st.stored {
        GenerateStoredValid(dateOf, start, today + 1, dateOf(start + k));
      }
    }
  }

  /**
    The first day of any mock timeline: from seed 12345 every draw succeeds and
    the day holds a 1880 m swim, a 9.2 km run and a 77.6 km ride.
   */
  lemma FirstMockDay(date: string)
    ensures GenerateDay(SEED_START, date) ==
      DayDraw(168064, Some(DayActivity(date, Some(1880.0), Some(9.2), Some(77.6))))
  {
    assert NextSeed(SEED_START) == 96382;
    assert NextSeed(96382) == 3239;
    assert NextSeed(3239) == 82116;
    assert NextSeed(82116) == 51493;
    assert NextSeed(51493) == 61850;
    assert NextSeed(61850) == 47667;
    assert NextSeed(47667) == 168064;
    assert SwimAmount(Fraction(82116)) == 1880 by {
      assert 1880.0 <= 1000.0 + Fraction(82116) * 2500.0 < 1881.0;
    }
    assert RunAmount(Fraction(61850)) == 9.2 by {
      assert 92.0 <= (5.0 + Fraction(61850) * 16.0) * 10.0 + 0.5 < 93.0;
    }
    assert RideAmount(Fraction(168064)) == 77.6 by {
      assert 776.0 <= (20.0 + Fraction(168064) * 80.0) * 10.0 + 0.5 < 777.0;
    }
  }

  /**
    The body of the generation loop for one day: the draws of lines 48-64 on the
    shared generator, and the day to store under lines 67-69, if any.
   */
  method DrawDay(random: SeededRandom, dateStr: string) returns (stored: Option<DayActivity>)
    modifies random
    ensures random.seed == GenerateDay(old(random.seed), dateStr).seed
    ensures stored == GenerateDay(old(random.seed), dateStr).stored
  {
    stored := None;
    var r := random.Next();
    if r < ACTIVE_CHANCE {
      var activity := DateOnly(dateStr);
      ghost var swimDraw := DrawField(random.seed, SwimCategory);
      r := random.Next();
      if r < SWIM_CHANCE {
        r := random.Next();
        activity := activity.(swim := Some(SwimAmount(r) as real));
      }
      assert random.seed == swimDraw.seed && activity.swim == swimDraw.amount;
      ghost var runDraw := DrawField(random.seed, RunCategory);
      r := random.Next();
      if r < RUN_CHANCE {
        r := random.Next();
        activity := activity.(run := Some(RunAmount(r)));
      }
      assert random.seed == runDraw.seed && activity.run == runDraw.amount;
      ghost var rideDraw := DrawField(random.seed, RideCategory);
      r := random.Next();
      if r < RIDE_CHANCE {
        r := random.Next();
        activity := activity.(ride := Some(RideAmount(r)));
      }
      assert random.seed == rideDraw.seed && activity.ride == rideDraw.amount;
      if HasActivity(activity) {
        stored := Some(activity);
      }
    }
  }

  /**
    The generation loop of `getMockActivities`: one `DrawDay` per day from `start`
    to `today`, storing the kept days in `activities` under their dates.
   */
  method GenerateActivities(dateOf: int -> string, start: int, today: int) returns (activities: map<string, DayActivity>)
    ensures activities == Generate(dateOf, start, today + 1).stored
  {
    activities := map[];
    var random := new SeededRandom();

    var current := start;
    while current <= today
      invariant current == start || start <= current <= today + 1
      invariant random.seed == Generate(dateOf, start, current).seed
      invariant activities == Generate(dateOf, start, current).stored
    {
      var dateStr := dateOf(current);
      ghost var next := Generate(dateOf, start, current + 1);
      assert next.seed == GenerateDay(random.seed, dateStr).seed;
      var stored := DrawDay(random, dateStr);
      if stored.Some? {
        activities := activities[dateStr := stored.value];
      }
      assert activities == next.stored;
      current := current + 1;
    }
  }

  /**
    The gap-filling loop of `getMockActivities`: one entry per day from `start`
    to `today`, the stored day or else the date alone.
   */
  method FillDays(dateOf: int -> string, activities: map<string, DayActivity>, start: int, today: int) returns (allDays: seq<DayActivity>)
    ensures allDays == FillTimeline(dateOf, activities, start, today + 1)
  {
    allDays := [];
    var fillDate := start;
    while fillDate <= today
      invariant fillDate == start || start <= fillDate <= today + 1
      invariant allDays == FillTimeline(dateOf, activities, start, fillDate)
    {
      var dateStr := dateOf(fillDate);
      allDays := allDays + [if dateStr in activities then activities[dateStr] else DateOnly(dateStr)];
      fillDate := fillDate + 1;
    }
  }

  /** `getMockActivities`: generate the active days, then fill the gaps. */
  method GetMockActivities(dateOf: int -> string, start: int, today: int) returns (allDays: seq<DayActivity>)
    ensures allDays == MockTimeline(dateOf, start, today)
  {
    var activities := GenerateActivities(dateOf, start, today);
    allDays := FillDays(dateOf, activities, start, today);
  }
}
