/**
  The summary line above the chart: the total distance of each category and the
  number of active days.
 */
module Summary {
  import opened StravaTypes

  /** `days.reduce((sum, day) => sum + (day[sport] ?? 0), 0)`. */
  function GetTotalDistance(days: seq<DayActivity>, sport: SportCategory): (total: real)
    ensures (forall i :: 0 <= i < |days| ==> Field(days[i], sport).None?) ==> total == 0.0
  {
    if days == [] then 0.0
    else GetTotalDistance(days[..|days| - 1], sport) + OrZero(Field(days[|days| - 1], sport))
  }

  /** The total of a concatenation is the sum of the totals of its parts. */
  lemma {:induction false} TotalDistanceConcat(p: seq<DayActivity>, q: seq<DayActivity>, sport: SportCategory)
    ensures GetTotalDistance(p + q, sport) == GetTotalDistance(p, sport) + GetTotalDistance(q, sport)
    decreases |q|
  {
    if q == [] {
      assert p + q == p;
    } else {
      TotalDistanceConcat(p, q[..|q| - 1], sport);
      assert (p + q)[..|p + q| - 1] == p + q[..|q| - 1];
    }
  }

  /** The reduction adds each day's field, absent counted as 0, one day after another. */
  lemma TotalDistanceCons(day: DayActivity, rest: seq<DayActivity>, sport: SportCategory)
    ensures GetTotalDistance([day] + rest, sport) == OrZero(Field(day, sport)) + GetTotalDistance(rest, sport)
  {
    TotalDistanceConcat([day], rest, sport);
    assert [day][..0] == [];
  }

  /** With non-negative distances, every total is non-negative. */
  lemma {:induction false} TotalDistanceNonNegative(days: seq<DayActivity>, sport: SportCategory)
    requires forall i :: 0 <= i < |days| ==> NonNegative(days[i])
    ensures GetTotalDistance(days, sport) >= 0.0
  {
    if days != [] {
      TotalDistanceNonNegative(days[..|days| - 1], sport);
      assert NonNegative(days[|days| - 1]);
    }
  }

  /**
    `days.filter((day) => Boolean(day.swim) || Boolean(day.run) || Boolean(day.ride)).length`:
    a present 0 does not make a day active.
   */
  function ActiveDays(days: seq<DayActivity>): (n: nat)
    ensures n <= |days|
    ensures n == 0 <==> forall i :: 0 <= i < |days| ==> !HasActivity(days[i])
    ensures n == |days| <==> forall i :: 0 <= i < |days| ==> HasActivity(days[i])
  {
    if days == [] then 0
    else
      var init := days[..|days| - 1];
      assert forall i :: 0 <= i < |init| ==> init[i] == days[i];
      ActiveDays(init) + if HasActivity(days[|days| - 1]) then 1 else 0
  }

  /** The active-day count of a concatenation is the sum of the counts of its parts. */
  lemma {:induction false} ActiveDaysConcat(p: seq<DayActivity>, q: seq<DayActivity>)
    ensures ActiveDays(p + q) == ActiveDays(p) + ActiveDays(q)
    decreases |q|
  {
    if q == [] {
      assert p + q == p;
    } else {
      var q' := q[..|q| - 1];
      ActiveDaysConcat(p, q');
      assert (p + q)[..|p + q| - 1] == p + q';
      assert (p + q)[|p + q| - 1] == q[|q| - 1];
    }
  }
}
