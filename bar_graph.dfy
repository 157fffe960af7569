/**
  What the bar chart computes for each day: its total, the bar height scaled to
  the largest day, whether it shows activity, and which sports its tooltip lists.
 */
module Bars {
  import opened StravaTypes
  import JsMath
  import ActivityMax

  /** The height in pixels of the bar of the largest day. */
  const MAX_BAR_HEIGHT: int := 200

  /** `Math.round((totalDistance / maxActivityDistance) * MAX_BAR_HEIGHT)`. */
  function BarHeight(total: real, maxDistance: real): (h: int)
    requires maxDistance > 0.0
    ensures (total / maxDistance) * MAX_BAR_HEIGHT as real - 0.5 < h as real <= (total / maxDistance) * MAX_BAR_HEIGHT as real + 0.5
  {
    JsMath.Round((total / maxDistance) * MAX_BAR_HEIGHT as real)
  }

  /** A total between 0 and the scale gets a height between 0 and 200 pixels. */
  lemma BarHeightBounds(total: real, maxDistance: real)
    requires maxDistance > 0.0
    requires 0.0 <= total <= maxDistance
    ensures 0 <= BarHeight(total, maxDistance) <= MAX_BAR_HEIGHT
  {
    var ratio := total / maxDistance;
    assert 0.0 <= ratio <= 1.0;
    JsMath.RoundWithin(ratio * MAX_BAR_HEIGHT as real, 0, MAX_BAR_HEIGHT);
  }

  /** A total equal to the scale gets exactly 200 pixels. */
  lemma BarHeightAtScale(maxDistance: real)
    requires maxDistance > 0.0
    ensures BarHeight(maxDistance, maxDistance) == MAX_BAR_HEIGHT
  {
    assert maxDistance / maxDistance == 1.0;
  }

  /** The trigger's `aria-label`: "Activity for <date>" or "Rest day". */
  datatype AriaLabel = ActivityFor(date: string) | RestDayLabel

  /** The trigger's child: a bar of the computed height, or a transparent full-height spacer. */
  datatype BarShape = SizedBar(height: int) | Spacer

  /** One `<li>` of the tooltip: a sport and its distance (meters for swim, km otherwise). */
  datatype TooltipLine = TooltipLine(sport: SportCategory, distance: real)

  /** The tooltip body below the date: a list of sports, or the "Rest day" note. */
  datatype TooltipBody = SportList(lines: seq<TooltipLine>) | RestDayNote

  /** Everything one day of `activities.map(...)` contributes, keyed by its date. */
  datatype DayBar = DayBar(key: string, total: real, aria: AriaLabel, shape: BarShape, tooltip: TooltipBody)

  /** The position of a sport in the tooltip: swim, then ride, then run. */
  function TooltipRank(sport: SportCategory): nat {
    match sport
    case SwimCategory => 0
    case RideCategory => 1
    case RunCategory => 2
  }

  /** The `<li>` for a field when the field is truthy, nothing otherwise. */
  function LineIf(day: DayActivity, sport: SportCategory): seq<TooltipLine> {
    if Truthy(Field(day, sport)) then [TooltipLine(sport, Field(day, sport).value)] else []
  }

  /** The sports the tooltip lists: exactly the truthy fields, ordered swim, ride, run. */
  function TooltipLines(day: DayActivity): (lines: seq<TooltipLine>)
    ensures forall l :: l in lines ==> Truthy(Field(day, l.sport)) && l.distance == Field(day, l.sport).value
    ensures forall sport :: Truthy(Field(day, sport)) ==> exists l :: l in lines && l.sport == sport
    ensures forall i, j :: 0 <= i < j < |lines| ==> TooltipRank(lines[i].sport) < TooltipRank(lines[j].sport)
    ensures lines != [] <==> HasActivity(day)
  {
    LineIf(day, SwimCategory) + LineIf(day, RideCategory) + LineIf(day, RunCategory)
  }

  /**
    A child of the tooltip list as the page renders `{day[sport] && <li>…</li>}`:
    an absent field renders nothing, a present 0 renders the number itself as
    the text "0", any other value renders its line.
   */
  datatype TooltipChild = LineChild(line: TooltipLine) | ZeroText

  function ChildIf(day: DayActivity, sport: SportCategory): seq<TooltipChild> {
    match Field(day, sport)
    case None => []
    case Some(v) => if v == 0.0 then [ZeroText] else [LineChild(TooltipLine(sport, v))]
  }

  /** The children of the tooltip list exactly as the JSX is written. */
  function TooltipChildrenAsWritten(day: DayActivity): (children: seq<TooltipChild>)
    ensures ZeroText in children <==> (day.swim == Some(0.0) || day.ride == Some(0.0) || day.run == Some(0.0))
  {
    ChildIf(day, SwimCategory) + ChildIf(day, RideCategory) + ChildIf(day, RunCategory)
  }

  /**
    The intended lines as list children. The ensures only expose the body; the
    comparison with the list as written is `AsWrittenAgreesWithoutZeros`.
   */
  function AsChildren(lines: seq<TooltipLine>): (children: seq<TooltipChild>)
    ensures |children| == |lines|
    ensures forall i :: 0 <= i < |lines| ==> children[i] == LineChild(lines[i])
  {
    seq(|lines|, i requires 0 <= i < |lines| => LineChild(lines[i]))
  }

  lemma AsChildrenConcat(a: seq<TooltipLine>, b: seq<TooltipLine>)
    ensures AsChildren(a + b) == AsChildren(a) + AsChildren(b)
  {
  }

  /** Without a present 0, the list as written shows exactly the intended lines. */
  lemma AsWrittenAgreesWithoutZeros(day: DayActivity)
    requires day.swim != Some(0.0) && day.ride != Some(0.0) && day.run != Some(0.0)
    ensures TooltipChildrenAsWritten(day) == AsChildren(TooltipLines(day))
  {
    var swim, ride, run := LineIf(day, SwimCategory), LineIf(day, RideCategory), LineIf(day, RunCategory);
    assert ChildIf(day, SwimCategory) == AsChildren(swim);
    assert ChildIf(day, RideCategory) == AsChildren(ride);
    assert ChildIf(day, RunCategory) == AsChildren(run);
    AsChildrenConcat(swim + ride, run);
    AsChildrenConcat(swim, ride);
  }

  /**
    A day with a present 0 m swim and a 5 km run is active, so its list is shown,
    and the list as written renders a stray "0" before the run line.
   */
  lemma StrayZeroInTooltip(date: string)
    ensures var day := DayActivity(date, Some(0.0), Some(5.0), None);
      && HasActivity(day)
      && TooltipChildrenAsWritten(day) == [ZeroText, LineChild(TooltipLine(RunCategory, 5.0))]
      && TooltipLines(day) == [TooltipLine(RunCategory, 5.0)]
  {
    var day := DayActivity(date, Some(0.0), Some(5.0), None);
    assert ChildIf(day, SwimCategory) == [ZeroText];
    assert ChildIf(day, RideCategory) == [];
  }

  /**
    The per-day computation inside `activities.map`, given the chart scale. Its
    sport list is the intended `<li>` lines of `TooltipLines`; the stray "0" the
    list as written also renders for a present 0 is modelled by
    `TooltipChildrenAsWritten` only.
   */
  function DayView(day: DayActivity, maxDistance: real): (bar: DayBar)
    requires maxDistance > 0.0
    ensures bar.key == day.date
    ensures bar.total == ActivityMax.DayTotal(day)
    ensures bar.shape.SizedBar? <==> HasActivity(day)
    ensures HasActivity(day) ==> bar.shape == SizedBar(BarHeight(bar.total, maxDistance))
    ensures bar.aria == (if HasActivity(day) then ActivityFor(day.date) else RestDayLabel)
    ensures bar.tooltip.SportList? <==> HasActivity(day)
    ensures HasActivity(day) ==> bar.tooltip.lines == TooltipLines(day)
  {
    var swimDistance := OrZero(day.swim) / 1000.0;
    var runDistance := OrZero(day.run);
    var rideDistance := OrZero(day.ride);
    var totalDistance := swimDistance + runDistance + rideDistance;
    var barHeight := BarHeight(totalDistance, maxDistance);
    var hasActivity := HasActivity(day);
    DayBar(
      day.date,
      totalDistance,
      if hasActivity then ActivityFor(day.date) else RestDayLabel,
      if hasActivity then SizedBar(barHeight) else Spacer,
      if hasActivity then SportList(TooltipLines(day)) else RestDayNote)
  }

  /** `BarGraph`: one entry per day, in input order, all scaled by the same maximum. */
  function BarGraph(days: seq<DayActivity>): (bars: seq<DayBar>)
    ensures |bars| == |days|
    ensures forall i :: 0 <= i < |days| ==> bars[i] == DayView(days[i], ActivityMax.GetMaxActivityDistance(days))
  {
    var maxActivityDistance := ActivityMax.GetMaxActivityDistance(days);
    seq(|days|, i requires 0 <= i < |days| => DayView(days[i], maxActivityDistance))
  }

  /** With non-negative distances, every drawn bar is between 0 and 200 pixels tall. */
  lemma BarHeightsWithinBounds(days: seq<DayActivity>)
    requires forall i :: 0 <= i < |days| ==> NonNegative(days[i])
    ensures forall i :: 0 <= i < |days| && BarGraph(days)[i].shape.SizedBar? ==>
      0 <= BarGraph(days)[i].shape.height <= MAX_BAR_HEIGHT
  {
    var bars := BarGraph(days);
    var m := ActivityMax.GetMaxActivityDistance(days);
    forall i | 0 <= i < |days| && bars[i].shape.SizedBar?
      ensures 0 <= bars[i].shape.height <= MAX_BAR_HEIGHT
    {
      ActivityMax.DayTotalNonNegative(days[i]);
      BarHeightBounds(ActivityMax.DayTotal(days[i]), m);
    }
  }

  /** A day whose total is the scale, when it is active, gets the full 200-pixel bar. */
  lemma TallestBarIsFull(days: seq<DayActivity>, i: int)
    requires 0 <= i < |days| && HasActivity(days[i])
    requires ActivityMax.DayTotal(days[i]) == ActivityMax.GetMaxActivityDistance(days)
    ensures BarGraph(days)[i].shape == SizedBar(MAX_BAR_HEIGHT)
  {
    var m := ActivityMax.GetMaxActivityDistance(days);
    BarHeightAtScale(m);
    assert DayView(days[i], m).shape == SizedBar(BarHeight(m, m));
  }
}
