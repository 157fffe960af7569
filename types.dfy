/**
  The data model of the activity widget: the provider's raw activity records,
  the sport categories the site shows, and the per-day aggregate the chart draws.
  Distances are exact reals; JavaScript's optional number fields become Option<real>.
 */
module StravaTypes {

  datatype Option<+T> = None | Some(value: T)

  /** The nine provider sport tags the site knows about. */
  datatype SportType =
    | Swim | Run | TrailRun | Treadmill | VirtualRun
    | Ride | MountainBikeRide | VirtualRide | GravelRide

  /** The three categories the widget shows ("swim" | "run" | "ride"). */
  datatype SportCategory = SwimCategory | RunCategory | RideCategory

  /** A raw provider record: `distance` in meters, `startDate` an ISO-8601 timestamp. */
  datatype StravaActivity = StravaActivity(id: int, sportType: SportType, distance: real, startDate: string)

  /**
    One day of the timeline. `swim` is in meters, `run` and `ride` in kilometers;
    None is an absent field (no activity of that kind), which is not the same as 0.
   */
  datatype DayActivity = DayActivity(date: string, swim: Option<real>, run: Option<real>, ride: Option<real>)

  /** The object literal `{ date }`: a day with every field absent. */
  function DateOnly(date: string): DayActivity {
    DayActivity(date, None, None, None)
  }

  /** `day[sport]`: the field of a day that holds one category. */
  function Field(day: DayActivity, sport: SportCategory): Option<real> {
    match sport
    case SwimCategory => day.swim
    case RunCategory => day.run
    case RideCategory => day.ride
  }

  /** `x ?? 0` for an optional distance. */
  function OrZero(x: Option<real>): real {
    match x
    case None => 0.0
    case Some(v) => v
  }

  /** `Boolean(x)` for an optional number: absent and 0 are both falsy. */
  predicate Truthy(x: Option<real>) {
    x.Some? && x.value != 0.0
  }

  /**
    `Boolean(day.swim) || Boolean(day.run) || Boolean(day.ride)`, which is also the
    truth value of `day.swim || day.run || day.ride`: the day shows some activity.
   */
  predicate HasActivity(day: DayActivity)
  {
    Truthy(day.swim) || Truthy(day.run) || Truthy(day.ride)
  }

  /** A day is active exactly when some distance, absent counted as 0, is non-zero. */
  lemma HasActivityIffNonZero(day: DayActivity)
    ensures HasActivity(day) <==> OrZero(day.swim) != 0.0 || OrZero(day.run) != 0.0 || OrZero(day.ride) != 0.0
  {
  }

  /** Every present distance of the day is non-negative. */
  predicate NonNegative(day: DayActivity) {
    OrZero(day.swim) >= 0.0 && OrZero(day.run) >= 0.0 && OrZero(day.ride) >= 0.0
  }
}
