/**
 * The progress view (components/progress-prediction.tsx): a week-by-week
 * projection of both users' solved totals at constant daily rates, and the
 * day on which the user behind would draw level with the user ahead.
 * Rates are reals: the chart's rates are free slider values.
 */
module ProgressPrediction {
  import CompareRoute

  /** `easy + medium + hard` of a user's solved counts. */
  function CurrentTotal(solved: CompareRoute.ProblemCounts): (t: int)
    ensures solved.easy >= 0 && solved.medium >= 0 && solved.hard >= 0 ==>
      && t >= solved.easy && t >= solved.medium && t >= solved.hard
      && (t == 0 <==> solved.easy == 0 && solved.medium == 0 && solved.hard == 0)
  {
    solved.easy + solved.medium + solved.hard
  }

  /**
   * Wherever the route's total solved count is a number, the total the
   * prediction starts from is exactly that count.
   */
  lemma CurrentTotalIsTotalSolved(items: seq<CompareRoute.SubmissionCount>)
    ensures CurrentTotal(CompareRoute.SolvedCounts(items)) >= 0
    ensures CompareRoute.TotalSolved(items).Some? ==>
      CurrentTotal(CompareRoute.SolvedCounts(items)) == CompareRoute.TotalSolved(items).value
  {
    CompareRoute.TotalSolvedMatchesCounts(items);
  }

  // ---------------------------------------------------------------------------
  // Projection
  // ---------------------------------------------------------------------------

  /** The total after `day` days of solving `rate` problems a day. */
  function Projected(total: int, rate: real, day: int): (p: real)
    ensures day == 0 || rate == 0.0 ==> p == total as real
    ensures rate >= 0.0 && day >= 0 ==> p >= total as real
  {
    if rate >= 0.0 && day >= 0 then
      NoLoss(rate, day as real);
      total as real + rate * day as real
    else
      total as real + rate * day as real
  }

  /** A non-negative rate over a non-negative number of days adds no negative amount. */
  lemma NoLoss(rate: real, d: real)
    requires rate >= 0.0 && d >= 0.0
    ensures rate * d >= 0.0
  {
  }

  /** At a non-negative rate the projection never falls as the days go by. */
  lemma ProjectedMonotone(total: int, rate: real, day1: int, day2: int)
    requires rate >= 0.0 && day1 <= day2
    ensures Projected(total, rate, day1) <= Projected(total, rate, day2)
  {
    var delta := (day2 - day1) as real;
    assert rate * delta >= 0.0;
    assert rate * day2 as real == rate * day1 as real + rate * delta;
  }

  /** One point of the chart: the day and both users' projected totals. */
  datatype PredictionPoint = PredictionPoint(day: int, user1: real, user2: real)

  /** The number of weekly points from day 0 up to `predictionDays`. */
  function PointCount(predictionDays: int): (n: nat)
    ensures predictionDays < 7 * n
    ensures n == 0 || 7 * (n - 1) <= predictionDays
  {
    if predictionDays < 0 then 0 else predictionDays / 7 + 1
  }

  /**
   * `generatePredictionData`: from day 0 in steps of seven days up to and
   * including `predictionDays`, each user's total grown by seven days' worth
   * of their rate at every step.
   */
  method GeneratePredictionData(total1: int, total2: int, rate1: real, rate2: real, predictionDays: int)
    returns (points: seq<PredictionPoint>)
    ensures |points| == PointCount(predictionDays)
    ensures forall k :: 0 <= k < |points| ==>
      points[k] == PredictionPoint(7 * k, Projected(total1, rate1, 7 * k), Projected(total2, rate2, 7 * k))
    ensures forall k :: 0 <= k < |points| ==> 0 <= points[k].day <= predictionDays
    ensures predictionDays < 7 * |points|
  {
    points := [];
    var current1 := total1 as real;
    var current2 := total2 as real;
    var day := 0;
    while day <= predictionDays
      invariant day == 7 * |points|
      invariant |points| > 0 ==> 7 * (|points| - 1) <= predictionDays
      invariant current1 == Projected(total1, rate1, day)
      invariant current2 == Projected(total2, rate2, day)
      invariant forall k :: 0 <= k < |points| ==>
        points[k] == PredictionPoint(7 * k, Projected(total1, rate1, 7 * k), Projected(total2, rate2, 7 * k))
      decreases predictionDays - day
    {
      points := points + [PredictionPoint(day, current1, current2)];
      WeekLater(total1, rate1, day);
      WeekLater(total2, rate2, day);
      current1 := current1 + rate1 * 7.0;
      current2 := current2 + rate2 * 7.0;
      day := day + 7;
    }
  }

  /** Adding seven days' worth of the rate moves the projection one week on. */
  lemma WeekLater(total: int, rate: real, day: int)
    ensures Projected(total, rate, day) + rate * 7.0 == Projected(total, rate, day + 7)
  {
  }

  /** At non-negative rates both lines of the chart never fall from one point to the next. */
  lemma PredictionNonDecreasing(points: seq<PredictionPoint>, total1: int, total2: int, rate1: real, rate2: real)
    requires rate1 >= 0.0 && rate2 >= 0.0
    requires forall k :: 0 <= k < |points| ==>
      points[k] == PredictionPoint(7 * k, Projected(total1, rate1, 7 * k), Projected(total2, rate2, 7 * k))
    ensures forall i, j :: 0 <= i <= j < |points| ==>
      points[i].user1 <= points[j].user1 && points[i].user2 <= points[j].user2
  {
    forall i, j | 0 <= i <= j < |points|
      ensures points[i].user1 <= points[j].user1 && points[i].user2 <= points[j].user2
    {
      ProjectedMonotone(total1, rate1, 7 * i, 7 * j);
      ProjectedMonotone(total2, rate2, 7 * i, 7 * j);
    }
  }

  // ---------------------------------------------------------------------------
  // Catch-up day
  // ---------------------------------------------------------------------------

  datatype User = User1 | User2

  /** The catch-up message, without its wording and without the calendar date. */
  datatype CatchUp =
    | Tied
    | NeverCatchesUp(follower: User, leader: User)
    | CatchesUpIn(follower: User, leader: User, days: int)

  function TotalOf(u: User, total1: int, total2: int): int {
    if u == User1 then total1 else total2
  }

  function RateOf(u: User, rate1: real, rate2: real): real {
    if u == User1 then rate1 else rate2
  }

  /** `Math.ceil`: the least integer not below `x`. */
  function Ceil(x: real): (n: int)
    ensures x <= n as real < x + 1.0
  {
    -((-x).Floor)
  }

  /** `Math.ceil(difference / dailyDifference)` for a positive gap in rates. */
  function DaysToMatch(difference: int, dailyDifference: real): (days: int)
    requires difference > 0 && dailyDifference > 0.0
    ensures days >= 1
    ensures days as real * dailyDifference >= difference as real
    ensures (days - 1) as real * dailyDifference < difference as real
  {
    var days := Ceil(difference as real / dailyDifference);
    CeilOfQuotient(difference as real, dailyDifference, days);
    days
  }

  /** The ceiling of a positive quotient x / y is the least whole n with n·y ≥ x, and at least 1. */
  lemma CeilOfQuotient(x: real, y: real, n: int)
    requires x > 0.0 && y > 0.0
    requires x / y <= n as real < x / y + 1.0
    ensures n >= 1
    ensures n as real * y >= x
    ensures (n - 1) as real * y < x
  {
    PositiveQuotient(x, y);
    AtLeastQuotient(n as real, x, y);
    BelowQuotient((n - 1) as real, x, y);
  }

  /** A multiplier at least x / y scales y to at least x. */
  lemma AtLeastQuotient(a: real, x: real, y: real)
    requires y > 0.0 && x / y <= a
    ensures a * y >= x
  {
    QuotientTimesDivisor(x, y);
    ScaleLe(x / y, a, y);
  }

  /** A multiplier below x / y scales y to below x. */
  lemma BelowQuotient(a: real, x: real, y: real)
    requires y > 0.0 && a < x / y
    ensures a * y < x
  {
    QuotientTimesDivisor(x, y);
    ScaleLt(a, x / y, y);
  }

  lemma QuotientTimesDivisor(x: real, y: real)
    requires y > 0.0
    ensures (x / y) * y == x
  {
  }

  lemma PositiveQuotient(x: real, y: real)
    requires x > 0.0 && y > 0.0
    ensures x / y > 0.0
  {
  }

  lemma ScaleLe(a: real, b: real, c: real)
    requires a <= b && c > 0.0
    ensures a * c <= b * c
  {
    assert b * c - a * c == (b - a) * c;
  }

  lemma ScaleLt(a: real, b: real, c: real)
    requires a < b && c > 0.0
    ensures a * c < b * c
  {
    assert b * c - a * c == (b - a) * c;
  }

  /** A non-negative number of days at a non-positive gap gains no ground. */
  lemma NoGain(d: real, gap: real)
    requires d >= 0.0 && gap <= 0.0
    ensures d * gap <= 0.0
  {
    assert d * gap == -(d * (-gap));
  }

  /**
   * `calculateCatchupDay`: tied when the totals are equal; otherwise the
   * user with the larger total leads, and the follower either never catches
   * up (their rate does not exceed the leader's) or does so after the least
   * whole number of days at which the gained ground covers the difference.
   */
  function CalculateCatchupDay(total1: int, total2: int, rate1: real, rate2: real): (c: CatchUp)
    ensures c.Tied? <==> total1 == total2
    ensures !c.Tied? ==> c.follower != c.leader && (c.leader == User1 <==> total1 > total2)
    ensures !c.Tied? ==> TotalOf(c.follower, total1, total2) < TotalOf(c.leader, total1, total2)
    ensures c.NeverCatchesUp? <==>
      total1 != total2 && (if total1 > total2 then rate2 - rate1 else rate1 - rate2) <= 0.0
    ensures c.CatchesUpIn? ==>
      var difference := TotalOf(c.leader, total1, total2) - TotalOf(c.follower, total1, total2);
      var dailyDifference := RateOf(c.follower, rate1, rate2) - RateOf(c.leader, rate1, rate2);
      && c.days >= 1
      && c.days as real * dailyDifference >= difference as real
      && (c.days - 1) as real * dailyDifference < difference as real
  {
    if total1 == total2 then Tied
    else
      var leader := if total1 > total2 then User1 else User2;
      var follower := if total1 > total2 then User2 else User1;
      var difference := if total1 > total2 then total1 - total2 else total2 - total1;
      var dailyDifference := if total1 > total2 then rate2 - rate1 else rate1 - rate2;
      if dailyDifference <= 0.0 then NeverCatchesUp(follower, leader)
      else CatchesUpIn(follower, leader, DaysToMatch(difference, dailyDifference))
  }

  /** The follower's projection minus the leader's, after `day` days. */
  function Lead(c: CatchUp, total1: int, total2: int, rate1: real, rate2: real, day: int): real
    requires !c.Tied?
  {
    Projected(TotalOf(c.follower, total1, total2), RateOf(c.follower, rate1, rate2), day)
    - Projected(TotalOf(c.leader, total1, total2), RateOf(c.leader, rate1, rate2), day)
  }

  /** The follower's lead after `day` days is the ground gained minus the starting difference. */
  lemma LeadAfter(c: CatchUp, total1: int, total2: int, rate1: real, rate2: real, day: int)
    requires !c.Tied?
    ensures Lead(c, total1, total2, rate1, rate2, day)
         == day as real * (RateOf(c.follower, rate1, rate2) - RateOf(c.leader, rate1, rate2))
          - (TotalOf(c.leader, total1, total2) - TotalOf(c.follower, total1, total2)) as real
  {
    var rf, rl := RateOf(c.follower, rate1, rate2), RateOf(c.leader, rate1, rate2);
    assert day as real * (rf - rl) == rf * day as real - rl * day as real;
  }

  /**
   * The predicted day is the first whole day on which the follower's
   * projected total reaches the leader's: on it the follower is level or
   * ahead, on every day before it still behind.
   */
  lemma CatchupDayIsFirstDayLevel(total1: int, total2: int, rate1: real, rate2: real)
    ensures var c := CalculateCatchupDay(total1, total2, rate1, rate2);
      c.CatchesUpIn? ==>
        && Lead(c, total1, total2, rate1, rate2, c.days) >= 0.0
        && forall day :: 0 <= day < c.days ==> Lead(c, total1, total2, rate1, rate2, day) < 0.0
  {
    var c := CalculateCatchupDay(total1, total2, rate1, rate2);
    if c.CatchesUpIn? {
      var gap := RateOf(c.follower, rate1, rate2) - RateOf(c.leader, rate1, rate2);
      var difference := (TotalOf(c.leader, total1, total2) - TotalOf(c.follower, total1, total2)) as real;
      assert gap > 0.0;
      assert (c.days - 1) as real * gap < difference;
      LeadAfter(c, total1, total2, rate1, rate2, c.days);
      forall day | 0 <= day < c.days ensures Lead(c, total1, total2, rate1, rate2, day) < 0.0 {
        LeadAfter(c, total1, total2, rate1, rate2, day);
        assert Lead(c, total1, total2, rate1, rate2, day) == day as real * gap - difference;
        BehindBefore(gap, difference, c.days, day);
      }
    }
  }

  /** Before the least day whose gained ground covers the difference, the ground gained falls short. */
  lemma BehindBefore(gap: real, difference: real, days: int, day: int)
    requires gap > 0.0 && (days - 1) as real * gap < difference
    requires 0 <= day < days
    ensures day as real * gap - difference < 0.0
  {
    ScaleLe(day as real, (days - 1) as real, gap);
    assert day as real * gap <= (days - 1) as real * gap;
  }

  /** When the follower's rate does not exceed the leader's, the follower stays behind on every day. */
  lemma NeverMeansAlwaysBehind(total1: int, total2: int, rate1: real, rate2: real)
    ensures var c := CalculateCatchupDay(total1, total2, rate1, rate2);
      c.NeverCatchesUp? ==> forall day :: day >= 0 ==> Lead(c, total1, total2, rate1, rate2, day) < 0.0
  {
    var c := CalculateCatchupDay(total1, total2, rate1, rate2);
    if c.NeverCatchesUp? {
      var gap := RateOf(c.follower, rate1, rate2) - RateOf(c.leader, rate1, rate2);
      var difference := (TotalOf(c.leader, total1, total2) - TotalOf(c.follower, total1, total2)) as real;
      assert gap <= 0.0 && difference > 0.0;
      forall day | day >= 0 ensures Lead(c, total1, total2, rate1, rate2, day) < 0.0 {
        LeadAfter(c, total1, total2, rate1, rate2, day);
        NoGain(day as real, gap);
        assert Lead(c, total1, total2, rate1, rate2, day) == day as real * gap - difference;
      }
    }
  }

  /** Swapping the two users swaps their roles and keeps the predicted day. */
  lemma CatchupSymmetric(total1: int, total2: int, rate1: real, rate2: real)
    ensures var c := CalculateCatchupDay(total1, total2, rate1, rate2);
      var d := CalculateCatchupDay(total2, total1, rate2, rate1);
      && (c.Tied? <==> d.Tied?)
      && (c.NeverCatchesUp? <==> d.NeverCatchesUp?)
      && (c.CatchesUpIn? <==> d.CatchesUpIn?)
      && (!c.Tied? ==> c.follower != d.follower && c.leader != d.leader)
      && (c.CatchesUpIn? ==> c.days == d.days)
  {
  }
}
