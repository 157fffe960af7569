/**
  The chart scale: the largest day total in kilometers, and never below 1.
 */
module ActivityMax {
  import opened StravaTypes

  /** `(day.swim ?? 0) / 1000 + (day.run ?? 0) + (day.ride ?? 0)`: the day's total in km. */
  function DayTotal(day: DayActivity): (t: real)
    ensures NonNegative(day) ==> t >= OrZero(day.swim) / 1000.0 && t >= OrZero(day.run) && t >= OrZero(day.ride)
  {
    OrZero(day.swim) / 1000.0 + OrZero(day.run) + OrZero(day.ride)
  }

  /** `Math.max(...days.map(DayTotal), 1)`. */
  function GetMaxActivityDistance(days: seq<DayActivity>): (m: real)
    ensures m >= 1.0
    ensures days == [] ==> m == 1.0
    ensures forall i :: 0 <= i < |days| ==> DayTotal(days[i]) <= m
    ensures m == 1.0 || exists i :: 0 <= i < |days| && m == DayTotal(days[i])
  {
    if days == [] then 1.0
    else
      var init := days[..|days| - 1];
      var last := DayTotal(days[|days| - 1]);
      var rest := GetMaxActivityDistance(init);
      assert forall i :: 0 <= i < |init| ==> init[i] == days[i];
      if last > rest then last else rest
  }

  /** With non-negative distances every day total is non-negative. */
  lemma DayTotalNonNegative(day: DayActivity)
    requires NonNegative(day)
    ensures DayTotal(day) >= 0.0
  {
  }

  /**
    With non-negative distances, a day shows activity exactly when its total is
    positive.
   */
  lemma ActiveIffPositiveTotal(day: DayActivity)
    requires NonNegative(day)
    ensures HasActivity(day) <==> DayTotal(day) > 0.0
  {
  }
}
