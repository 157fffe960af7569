# Activity pipeline of ubmit.dev, in Dafny

This project models the data behind the activity bar chart of the ubmit.dev personal site. It covers:

- `mapSportType`, which puts each of the provider's nine sport tags into one of three categories (swim, run, ride).
- `transformStravaActivities`, which groups raw provider records into one record per day. Swim is summed in meters; run and ride are summed in kilometers. The days come back sorted by date.
- `getMockActivities`, which builds a made-up timeline from a seeded linear congruential generator. It then fills the gaps so there is one entry per calendar day.
- The chart scale `getMaxActivityDistance`.
- The summary line: the total per category and the number of active days.
- The per-day part of the bar chart: the total, the bar height, the activity flag and which sports the tooltip lists.

## Modules

| file | module | what it holds |
|---|---|---|
| `types.dfy` | `StravaTypes` | The records and categories, `Option`, and JavaScript truthiness of optional numbers |
| `js_math.dfy` | `JsMath` | `Math.floor` and `Math.round` on exact reals |
| `date_order.dfy` | `DateOrder` | The order dates are sorted by, and the fact that a sorted, duplicate-free list of days is fixed by its set of dates |
| `strava.dfy` | `Strava` | Classification, the day key, what the aggregation must produce (`IsAggregation`), and the imperative `TransformStravaActivities` proved against it |
| `strava_mock.dfy` | `StravaMock` | The generator as a class, the generation and gap-filling loops as methods, their functional specification, and its properties |
| `max_activity_distance.dfy` | `ActivityMax` | The chart scale |
| `summary_stats.dfy` | `Summary` | Per-category totals and the active-day count |
| `bar_graph.dfy` | `Bars` | The per-day bar computation and the tooltip contents |
| `pipeline.dfy` | `ActivityPipeline` | Properties that span the stages |

`transformStravaActivities` and `getMockActivities` change state step by step, so they are methods.

- `TransformStravaActivities` keeps `dayMap` as a `map`, and the map's insertion order as a `seq` of dates. Its loop invariant ties the map to `GroupByDay`. Its postcondition is `IsAggregation(activities, days)`, which says three things:
  - the days are strictly ascending by date;
  - there is exactly one day per distinct record date;
  - each field is present exactly when a record of its category exists, and then holds the sum of those records.
- The mock's `random` closure is the class `SeededRandom`, whose `Next` method advances the seed.
- The generation loop (`GenerateActivities`) and the gap-filling loop (`FillDays`) are proved against `Generate` and `FillTimeline`. `GetMockActivities` runs the two loops in sequence.

The view computations are pure and are functions.

Calendar days in the mock are integer indices. `dateOf: int -> string` gives each index its `YYYY-MM-DD` label, and the start day and today are parameters. `LabelsAscending` and `LabelsDistinct` are assumptions about the labels, which the lemmas that need them take as preconditions.

## Model

| member | source | states |
|---|---|---|
| StravaTypes.HasActivity | src/components/ActivityGraph/BarGraph.tsx:35 | The `hasActivity` flag, defined as: some field is present and non-zero, so a present 0 is inactive. The same test is the `activeDays` filter and the mock's storage test |
| StravaTypes.HasActivityIffNonZero | src/components/ActivityGraph/BarGraph.tsx:35 | A day is active exactly when some distance, absent counted as 0, is non-zero |
| JsMath.Floor | src/lib/strava.ts:53 | The result is the greatest integer not above x |
| JsMath.Round | src/components/ActivityGraph/BarGraph.tsx:31-33 | The result is within half of x, and halves round up |
| DateOrder.Below | src/lib/strava.ts:127 | `a.date.localeCompare(b.date) < 0`, defined as strict lexicographic order on characters; its properties are the `Below*` lemmas below |
| DateOrder.PrefixBelow | src/lib/strava.ts:127 | A proper prefix sorts before the longer string |
| DateOrder.BelowIrreflexive | src/lib/strava.ts:126-128 | No date sorts before itself |
| DateOrder.BelowAsymmetric | src/lib/strava.ts:126-128 | Two dates are never each before the other |
| DateOrder.BelowTransitive | src/lib/strava.ts:126-128 | The sort order is transitive |
| DateOrder.BelowTotal | src/lib/strava.ts:126-128 | Any two different dates are ordered one way or the other |
| DateOrder.AscendingHasDistinctDates | src/lib/strava.ts:126-128 | A strictly ascending list repeats no date |
| DateOrder.AscendingDatesUnique | src/lib/strava.ts:126-128 | Two strictly ascending lists with the same set of dates have the same length and the same date at every position |
| Strava.MapSportType | src/lib/strava.ts:11-24 | The result is swim exactly for Swim; run exactly for Run, TrailRun, Treadmill and VirtualRun; ride exactly for Ride, MountainBikeRide, VirtualRide and GravelRide |
| Strava.MapSportTypeOnto | src/lib/strava.ts:11-24 | Every category is reached by some tag |
| Strava.DayKey | src/lib/strava.ts:107 | The day key is never longer than the timestamp |
| Strava.DayKeyBeforeFirstT | src/lib/strava.ts:107 | The day key is a prefix of the timestamp with no 'T' in it, and it stops at the first 'T' when it is shorter than the timestamp |
| Strava.DayKeyOfTimestamp | src/lib/strava.ts:107 | The key of `date + "T" + time` is `date` when the date has no 'T' |
| Strava.DayKeyOfDate | src/lib/strava.ts:107 | A string without 'T' is its own key |
| Strava.EmptyInputEmptyOutput | src/lib/strava.ts:104-128 | Without records, the only correct result is the empty list |
| Strava.Contribution | src/lib/strava.ts:117-122 | A record adds its distance in meters for swim and in km for run and ride: scaling back by 1 or 1000 recovers the record's meters |
| Strava.CategorySumWithoutRecords | src/lib/strava.ts:116-123 | With no record of a category on a date, that category's sum for the date is 0 |
| Strava.ExpectedFieldOrZero | src/lib/strava.ts:116-123 | An absent field counts as its sum, 0 |
| Strava.AddRecord | src/lib/strava.ts:116-123 | One accumulation adds the record's distance (meters for swim, km otherwise) to its own category's field, starting from 0 when absent; the date and the other fields stay as they were |
| Strava.ExpectedDayOfNewDate | src/lib/strava.ts:110-112 | A date no record falls on has the date-only record |
| Strava.ExpectedFieldAppend | src/lib/strava.ts:116-123 | A new record of the field's category on the date creates the field or adds to it (meters for swim, km otherwise); any other record leaves the field alone |
| Strava.ExpectedDayAppend | src/lib/strava.ts:114-123 | A new record changes only its own day, exactly as one in-place accumulation does |
| Strava.InputDatesAppend | src/lib/strava.ts:107-112 | A new record adds its own date to the set of dates |
| Strava.CategorySumConcat | src/lib/strava.ts:116-123 | The sum over two lists of records is the sum of the two sums |
| Strava.CategorySumRemove | src/lib/strava.ts:116-123 | Removing one record removes exactly its term from the sum |
| Strava.CategorySumPermutation | src/lib/strava.ts:106-123 | Reordering the records leaves every per-date, per-category sum unchanged |
| Strava.ExpectedDayPermutation | src/lib/strava.ts:106-123 | Reordering the records leaves the set of dates and every expected day unchanged |
| Strava.AggregationOrderIndependent | src/lib/strava.ts:101-129 | Correct results for two orderings of the same records are equal, so the result is determined by the records |
| Strava.InsertByDate | src/lib/strava.ts:126-128 | Inserting a day yields a permutation of the list plus that day |
| Strava.InsertByDateAscending | src/lib/strava.ts:126-128 | Inserting a day with a new date into a strictly ascending list keeps it strictly ascending |
| Strava.SortByDate | src/lib/strava.ts:126-128 | The sorted list is a permutation of its input |
| Strava.SortByDateAscending | src/lib/strava.ts:126-128 | Sorting days with distinct dates gives a strictly ascending list |
| Strava.MapAggregatesStep | src/lib/strava.ts:106-123 | One loop iteration (create the day if new, then accumulate) keeps the map equal to the expected day of every date seen |
| Strava.GroupByDay | src/lib/strava.ts:104-124 | Every entry of the grouping map carries its own key as its date |
| Strava.GroupByDayAggregates | src/lib/strava.ts:104-124 | After all records, the map's keys are exactly the record dates, and each value is that date's expected day |
| Strava.ValuesInOrder | src/lib/strava.ts:126 | Given a list holding each key once, the map's values listed along it: one value per position, that position's key's value |
| Strava.ValuesInOrderOnePerKey | src/lib/strava.ts:126 | The listed values number as many as the keys, and every key's value is among them |
| Strava.SortedValuesAggregate | src/lib/strava.ts:126-128 | Sorting the finished map's values gives a correct aggregation |
| Strava.TransformStravaActivities | src/lib/strava.ts:101-129 | The result is strictly ascending, has one day per distinct record date (including dates whose records add nothing), and each field is present exactly when the day has a record of that category, holding their sum |
| StravaMock.NextSeed | src/lib/strava.ts:38 | Every seed after a step lies in [0, 233280) |
| StravaMock.Fraction | src/lib/strava.ts:39 | A draw is non-negative, and below 1 for every seed below the modulus |
| StravaMock.FractionInUnit | src/lib/strava.ts:39 | Every generated draw lies in [0, 1) |
| StravaMock.DrawThresholds | src/lib/strava.ts:48-62 | `random() < 0.6`, `< 0.3`, `< 0.5` and `< 0.4` are the seed below 139968, 69984, 116640 and 93312 |
| StravaMock.SeededRandom.constructor | src/lib/strava.ts:36 | The generator starts at seed 12345 |
| StravaMock.SeededRandom.Next | src/lib/strava.ts:37-40 | `random()` advances the seed by one step and returns it divided by 233280 |
| StravaMock.SwimAmount | src/lib/strava.ts:53 | For a draw in [0, 1), the swim is a whole number of meters in [1000, 3499] |
| StravaMock.RunAmount | src/lib/strava.ts:58 | The run is a whole number of tenths of a km, within 0.05 km of 5 + 16r |
| StravaMock.RideAmount | src/lib/strava.ts:63 | The ride is a whole number of tenths of a km, within 0.05 km of 20 + 80r |
| StravaMock.AmountInRange | src/lib/strava.ts:53-63 | For a draw in [0, 1): swim is a positive whole number in [1000, 3499]; run is in [5, 21]; ride is in [20, 100] |
| StravaMock.DrawField | src/lib/strava.ts:51-64 | A field draw leaves the seed in range; a value it sets is positive and in that category's range |
| StravaMock.GenerateDay | src/lib/strava.ts:47-70 | A stored day carries its own date, shows activity, and has every present value in range |
| StravaMock.GenerateDayStoredIff | src/lib/strava.ts:66-69 | A day is stored exactly when its activity draw and at least one of its field draws succeed |
| StravaMock.DrawDay | src/lib/strava.ts:47-69 | One loop body on the shared generator leaves the seed and the stored day that `GenerateDay` gives |
| StravaMock.Generate | src/lib/strava.ts:43-73 | After any number of days the seed is in range |
| StravaMock.GenerateStoredValid | src/lib/strava.ts:66-69 | Every stored day is valid under its own date: it shows activity and its values are in range |
| StravaMock.GenerateKeysInRange | src/lib/strava.ts:43-73 | Only dates of days in the range are stored |
| StravaMock.GenerateFreshKey | src/lib/strava.ts:43-73 | A date that no day of the range carries is not stored |
| StravaMock.GenerateStoresOutcome | src/lib/strava.ts:66-69 | A day's own iteration stores that day's outcome under its date |
| StravaMock.GenerateKeepsOthers | src/lib/strava.ts:66-69 | An iteration leaves the entries of other dates unchanged |
| StravaMock.GenerateStoredAt | src/lib/strava.ts:43-73 | With distinct labels, the entry for day k after the loop is day k's own outcome; later days never overwrite it |
| StravaMock.AscendingLabelsDistinct | src/lib/strava.ts:45 | Ascending day labels are distinct |
| StravaMock.GenerateActivities | src/lib/strava.ts:43-73 | The generation loop leaves exactly the map `Generate` describes |
| StravaMock.Lookup | src/lib/strava.ts:80 | A stored day is returned as stored; a missing date gives the date-only day `{ date }` |
| StravaMock.FillTimeline | src/lib/strava.ts:76-82 | The filled timeline has one entry per day of the range, each being the stored day or, failing that, the date alone |
| StravaMock.FillDays | src/lib/strava.ts:76-82 | The gap-filling loop emits exactly `FillTimeline` |
| StravaMock.GetMockActivities | src/lib/strava.ts:29-85 | The result is the mock timeline of the day range |
| StravaMock.MockTimeline | src/lib/strava.ts:29-85 | The timeline has one entry per day from the start day to today, and none when the start is after today |
| StravaMock.MockTimelineShape | src/lib/strava.ts:76-82 | The mock has `today - start + 1` entries (none when start is after today), and entry k is dated by day start + k |
| StravaMock.MockTimelineOutcomes | src/lib/strava.ts:43-82 | Entry k is the day generated from the seed the earlier days left, when that day was stored, and its date alone otherwise |
| StravaMock.MockTimelineAscending | src/lib/strava.ts:76-82 | With ascending labels the mock is strictly ascending, with no duplicate dates |
| StravaMock.MockTimelineValues | src/lib/strava.ts:66-82 | Every mock entry is either a date-only day or an active day with all its values in range |
| StravaMock.FirstMockDay | src/lib/strava.ts:36-64 | From seed 12345 the first day draws a 1880 m swim, a 9.2 km run and a 77.6 km ride, and leaves the seed at 168064 |
| ActivityMax.DayTotal | src/components/ActivityGraph/getMaxActivityDistance.ts:6 | With non-negative distances, a day's total is at least its swim in km, its run and its ride |
| ActivityMax.GetMaxActivityDistance | src/components/ActivityGraph/getMaxActivityDistance.ts:3-10 | The scale is at least 1, is exactly 1 for no days, is at least every day's total, and is 1 or some day's total |
| ActivityMax.DayTotalNonNegative | src/components/ActivityGraph/getMaxActivityDistance.ts:6 | With non-negative distances, a day's total is non-negative |
| ActivityMax.ActiveIffPositiveTotal | src/components/ActivityGraph/getMaxActivityDistance.ts:6 | With non-negative distances, a day shows activity exactly when its total is positive |
| Summary.GetTotalDistance | src/components/ActivityGraph/SummaryStats.tsx:11-13 | The total of a category over days none of which has that category is 0 |
| Summary.TotalDistanceConcat | src/components/ActivityGraph/SummaryStats.tsx:11-13 | The total over a concatenation is the sum of the totals of the parts |
| Summary.TotalDistanceCons | src/components/ActivityGraph/SummaryStats.tsx:11-13 | The total adds the first day's field (absent counted as 0) to the total of the rest |
| Summary.TotalDistanceNonNegative | src/components/ActivityGraph/SummaryStats.tsx:11-13 | With non-negative distances every total is non-negative |
| Summary.ActiveDays | src/components/ActivityGraph/SummaryStats.tsx:20-22 | The count is at most the number of days; it is 0 exactly when no day is active and equals the number of days exactly when all are; a present 0 does not count as active |
| Summary.ActiveDaysConcat | src/components/ActivityGraph/SummaryStats.tsx:20-22 | The count over a concatenation is the sum of the counts of the parts |
| Bars.BarHeight | src/components/ActivityGraph/BarGraph.tsx:31-33 | The height is within half a pixel of the day's exact share of 200 pixels |
| Bars.BarHeightBounds | src/components/ActivityGraph/BarGraph.tsx:31-33 | A total between 0 and the scale gets a height between 0 and 200 |
| Bars.BarHeightAtScale | src/components/ActivityGraph/BarGraph.tsx:31-33 | A total equal to the scale gets exactly 200 |
| Bars.TooltipLines | src/components/ActivityGraph/BarGraph.tsx:64-81 | The tooltip lists exactly the truthy sports with their values, in the order swim, ride, run, and lists something exactly when the day shows activity |
| Bars.DayView | src/components/ActivityGraph/BarGraph.tsx:27-85 | A day's entry is keyed by its date and carries the total `swim/1000 + run + ride`. An active day gets a bar of height `BarHeight(total, scale)`, that is `Math.round(total / scale * 200)`, the "Activity for" label and the sport list. An inactive day gets the spacer, "Rest day" and the rest-day note. The sport list is the intended `<li>` lines; the stray "0" the page also renders is in `TooltipChildrenAsWritten` only |
| Bars.BarGraph | src/components/ActivityGraph/BarGraph.tsx:20-26 | One entry per input day, in input order, all scaled by the maximum over the same list |
| Bars.BarHeightsWithinBounds | src/components/ActivityGraph/BarGraph.tsx:17-33 | With non-negative distances, every drawn bar is between 0 and 200 pixels, because the scale bounds every total |
| Bars.TallestBarIsFull | src/components/ActivityGraph/BarGraph.tsx:17-33 | An active day whose total is the scale gets the full 200-pixel bar |
| Bars.TooltipChildrenAsWritten | src/components/ActivityGraph/BarGraph.tsx:64-81 | The list as written renders a stray "0" exactly when some field is present and 0 |
| Bars.AsWrittenAgreesWithoutZeros | src/components/ActivityGraph/BarGraph.tsx:64-81 | Without a present 0, the list as written shows exactly the intended lines |
| Bars.StrayZeroInTooltip | src/components/ActivityGraph/BarGraph.tsx:64-81 | For a 0 m swim and a 5 km run, the day is active and the list as written shows a "0" before the run line; the intended list is the run line alone |
| ActivityPipeline.TermOverOtherDays | src/lib/strava.ts:116-123 | A record whose date is not among the days adds nothing over them |
| ActivityPipeline.TermOverDistinctDays | src/lib/strava.ts:116-123 | A record whose date occurs once among the days adds its contribution exactly once, and only to its own category |
| ActivityPipeline.SumOverDaysAppend | src/lib/strava.ts:116-123 | A further record adds its terms over the days |
| ActivityPipeline.SumOverNoRecords | src/lib/strava.ts:116-123 | Without records every per-date sum is 0 |
| ActivityPipeline.SumOverDaysIsTotal | src/lib/strava.ts:106-123 | Over distinct dates that cover every record, the per-date sums add up to the category total: no record is lost or counted twice |
| ActivityPipeline.TotalIsSumOverDays | src/components/ActivityGraph/SummaryStats.tsx:11-13 | The summary total over correctly aggregated days is the sum of their per-date sums |
| ActivityPipeline.SummaryTotalsOfAggregation | src/components/ActivityGraph/SummaryStats.tsx:11-13 | Over an aggregated timeline, the summary total of a category is the total of all records of that category |
| ActivityPipeline.SizedBarsCountActive | src/components/ActivityGraph/BarGraph.tsx:35-54 | Bars that are sized exactly for the active days number as many as the active-day count |
| ActivityPipeline.ChartAgreesWithSummary | src/components/ActivityGraph/BarGraph.tsx:35-54 | The chart draws as many sized bars as the summary counts active days |
| ActivityPipeline.GapRecordKeys | src/lib/strava.ts:107 | The example records fall on their two dates |
| ActivityPipeline.GapRecordDates | src/lib/strava.ts:107-112 | The example records cover exactly two dates |
| ActivityPipeline.GapRecordSum | src/lib/strava.ts:116-123 | The sum over the three example records is the sum of their three terms |
| ActivityPipeline.GapRecordFirstDay | src/lib/strava.ts:116-123 | The first date holds a 1500 m swim and a 5 km run, and no ride |
| ActivityPipeline.GapRecordThirdDay | src/lib/strava.ts:116-123 | The later date holds a 20 km ride only |
| ActivityPipeline.NoGapFill | src/lib/strava.ts:101-129 | A swim and a run on one date and a ride on a later date give exactly two days, with no day created between them |
| ActivityPipeline.ZeroSwimDay | src/lib/strava.ts:116-123 | A 0 m swim and a 5 km run on a date give a day with swim present at 0 |
| ActivityPipeline.StrayZeroFromRecords | src/components/ActivityGraph/BarGraph.tsx:64-81 | Such records aggregate to one active day whose tooltip as written shows a stray "0" |

## Left out

- `fetchStravaActivities` (src/lib/strava.ts:90-96) always throws, so there is nothing to model.
- `getActivities` (src/lib/strava.ts:134-155) reads environment variables, awaits the fetch and falls back to the mock in a `catch`. The network and the environment are outside the model.
- There is no token-refresh or paging code.
- The `Date` calendar: `sixMonthsAgo.setMonth(today.getMonth() - 6)` (src/lib/strava.ts:33), advancing a date by one day with `currentDate.setDate(currentDate.getDate() + 1)` and `fillDate.setDate(fillDate.getDate() + 1)` (src/lib/strava.ts:72, 81), `toISOString` with its UTC shift, and the `<=` comparison of timestamps. These become integer day indices, the `dateOf` label function, and the `start` and `today` parameters. The model assumes that distinct days have distinct labels, and ascending labels where the order matters. A daylight-saving or UTC shift that repeats or skips a label is not modelled.
- IEEE-754 arithmetic. Distances are exact reals, so summation order, the binary rounding inside `Math.round` and the `/ 10` of src/lib/strava.ts:58 and :63 are exact here. `NaN` and infinities do not occur.
- `Math.max(...list)` throws on very long lists, because the spread exceeds the argument limit. The model has no such limit.
- `localeCompare` is modelled as character-by-character lexicographic order. For `YYYY-MM-DD` dates the two orders agree. Locale collation of other strings is not modelled.
- The sort algorithm: `Array.prototype.sort` is modelled by an insertion sort. Because the dates are distinct, `DateOrder.AscendingDatesUnique` shows that any correct sort gives the same list.
- Sport tags outside the nine of src/types/strava.ts:2-11 cannot occur in this model. At run time the lookup table would return `undefined` for them, which the `if` chain would skip after the day entry is already created.
- `formatDate` and `formatDistance` (Intl formatting), the JSX, the icons and the tooltip library.
- Strava.ValuesInOrder: the insertion order of `dayMap` is not modelled; `order` is any list holding each key once. The sort that follows makes the order irrelevant (`DateOrder.AscendingDatesUnique`).
- StravaMock.GetMockActivities: the result is tied to `MockTimeline`. Its length, ordering, dating and value ranges are stated by the `MockTimeline*` lemmas, not by the method's own `ensures`.

Further facts about the code that the model keeps:

- `transformStravaActivities` does not fill gaps; only the mock does (`ActivityPipeline.NoGapFill`).
- There is no unsupported category: the tag type is closed.
- A day entry is created for a record's date before its category is looked at (src/lib/strava.ts:110-112).

## Findings

| source | as written | input that shows it | evidently intended | confidence | as-written member | corrected member |
|---|---|---|---|---|---|---|
| src/components/ActivityGraph/BarGraph.tsx:64-81 | `{day.swim && <li/>}` (and likewise for ride and run) evaluates to the number 0 when the field is present and 0. React renders that number as the text "0" inside the list. | A 0 m swim record and a 5000 m run record on the same date. They aggregate to `{swim: 0, run: 5}`. That day is active, so the list is shown, and it reads "0" followed by the run line. | The list shows only the truthy sports: here the run line alone. | not executed; rests on React rendering numeric children | Bars.TooltipChildrenAsWritten, Bars.StrayZeroInTooltip, ActivityPipeline.StrayZeroFromRecords | Bars.TooltipLines |
