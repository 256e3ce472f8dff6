/**
 * The contest view (components/contest-comparison.tsx): the chart rows that
 * pair the two users' rating series, the per-user statistics of a rating
 * series and the rating category badge.
 */
module ContestComparison {
  import opened Wrappers
  import CompareRoute

  // ---------------------------------------------------------------------------
  // Decimal labels
  // ---------------------------------------------------------------------------

  predicate IsDigits(s: string) {
    forall i :: 0 <= i < |s| ==> '0' <= s[i] <= '9'
  }

  function DigitChar(d: nat): char
    requires d < 10
  {
    ('0' as int + d) as char
  }

  /** The number a string of decimal digits denotes. */
  function DecimalValue(s: string): nat
    requires IsDigits(s)
    decreases |s|
  {
    if |s| == 0 then 0
    else 10 * DecimalValue(s[..|s| - 1]) + (s[|s| - 1] as int - '0' as int)
  }

  /** JavaScript's decimal rendering of a non-negative integer. */
  function DecimalString(n: nat): (s: string)
    ensures |s| >= 1 && IsDigits(s)
    ensures n > 0 ==> s[0] != '0'
    ensures DecimalValue(s) == n
    decreases n
  {
    if n < 10 then [DigitChar(n)]
    else
      var prefix := DecimalString(n / 10);
      var s := prefix + [DigitChar(n % 10)];
      assert s[..|s| - 1] == prefix;
      s
  }

  // ---------------------------------------------------------------------------
  // Chart rows
  // ---------------------------------------------------------------------------

  /** One point of the rating chart: user 2's value is absent past the end of their series. */
  datatype ChartRow = ChartRow(contest: string, user1: real, user2: Option<real>)

  function ContestLabel(index: nat): string {
    "Contest " + DecimalString(index + 1)
  }

  /**
   * `contestData`: one row per entry of user 1's series, labelled
   * "Contest 1", "Contest 2", ..., pairing user 2's entry at the same index.
   */
  function ContestData(history1: seq<real>, history2: seq<real>): (rows: seq<ChartRow>)
    ensures |rows| == |history1|
    ensures forall i :: 0 <= i < |rows| ==>
      && rows[i].contest == ContestLabel(i)
      && rows[i].user1 == history1[i]
      && (rows[i].user2.Some? <==> i < |history2|)
      && (i < |history2| ==> rows[i].user2.value == history2[i])
    ensures forall i, j :: 0 <= i < j < |rows| ==> rows[i].contest != rows[j].contest
  {
    var rows := seq(|history1|, i requires 0 <= i < |history1| =>
      ChartRow(ContestLabel(i), history1[i], if i < |history2| then Some(history2[i]) else None));
    forall i, j | 0 <= i < j < |rows| ensures rows[i].contest != rows[j].contest {
      LabelsDiffer(i, j);
    }
    rows
  }

  lemma LabelsDiffer(i: nat, j: nat)
    requires i != j
    ensures ContestLabel(i) != ContestLabel(j)
  {
    var prefix := "Contest ";
    assert ContestLabel(i)[|prefix|..] == DecimalString(i + 1);
    assert ContestLabel(j)[|prefix|..] == DecimalString(j + 1);
  }

  // ---------------------------------------------------------------------------
  // Rating statistics
  // ---------------------------------------------------------------------------

  /** `Math.max(...s)`. */
  function MaxRating(s: seq<real>): (m: real)
    requires |s| > 0
    ensures m in s
    ensures forall x :: x in s ==> x <= m
    decreases |s|
  {
    if |s| == 1 then s[0]
    else
      var rest := MaxRating(s[1..]);
      assert forall x :: x in s ==> x == s[0] || x in s[1..];
      if s[0] >= rest then s[0] else rest
  }

  /** `Math.min(...s)`. */
  function MinRating(s: seq<real>): (m: real)
    requires |s| > 0
    ensures m in s
    ensures forall x :: x in s ==> m <= x
    decreases |s|
  {
    if |s| == 1 then s[0]
    else
      var rest := MinRating(s[1..]);
      assert forall x :: x in s ==> x == s[0] || x in s[1..];
      if s[0] <= rest then s[0] else rest
  }

  datatype Trend = Up | Down | Stable

  datatype ContestStats = ContestStats(
    maxRating: real,
    minRating: real,
    currentRating: real,
    previousRating: real,
    trend: Trend,
    change: real)

  /**
   * `history[length - 2] || currentRating`: the second-to-last rating, or
   * the current one when there is none or it is 0.
   */
  function PreviousRating(history: seq<real>): (p: real)
    requires |history| > 0
    ensures p in history
    ensures |history| >= 2 && history[|history| - 2] != 0.0 ==> p == history[|history| - 2]
    ensures |history| < 2 || history[|history| - 2] == 0.0 ==> p == history[|history| - 1]
    ensures p != 0.0 || history[|history| - 1] == 0.0
  {
    if |history| >= 2 && history[|history| - 2] != 0.0 then history[|history| - 2]
    else history[|history| - 1]
  }

  /**
   * `getContestStats` over a non-empty series (the aggregation never
   * produces an empty one): extremes, the last and previous ratings, the
   * direction of the last change and its size.
   */
  function GetContestStats(history: seq<real>): (st: ContestStats)
    requires |history| > 0
    ensures st.currentRating == history[|history| - 1]
    ensures st.previousRating == PreviousRating(history)
    ensures st.maxRating in history && st.minRating in history
    ensures forall x :: x in history ==> st.minRating <= x <= st.maxRating
    ensures st.minRating <= st.currentRating <= st.maxRating
    ensures st.trend == Up <==> st.currentRating > st.previousRating
    ensures st.trend == Down <==> st.currentRating < st.previousRating
    ensures st.trend == Stable <==> st.currentRating == st.previousRating
    ensures st.change >= 0.0
    ensures st.change == 0.0 <==> st.trend == Stable
    ensures st.currentRating == st.previousRating + st.change
         || st.currentRating == st.previousRating - st.change
    ensures |history| == 1 ==> st.trend == Stable && st.change == 0.0
  {
    var current := history[|history| - 1];
    assert current in history;
    var previous := PreviousRating(history);
    var trend := if current > previous then Up else if current < previous then Down else Stable;
    var change := if current >= previous then current - previous else previous - current;
    ContestStats(MaxRating(history), MinRating(history), current, previous, trend, change)
  }

  /**
   * On a series produced by the aggregation no entry is 0, so the previous
   * rating is exactly the second-to-last entry whenever there is one.
   */
  lemma PreviousOfAggregatedSeries(sortedHistory: seq<CompareRoute.ContestResult>)
    ensures var series := CompareRoute.ContestSeries(sortedHistory);
      |series| >= 2 ==> GetContestStats(series).previousRating == series[|series| - 2]
  {
  }

  // ---------------------------------------------------------------------------
  // Rating category
  // ---------------------------------------------------------------------------

  datatype RatingCategory = Beginner | Specialist | Expert | Master

  /** The rank of a category, from Beginner (0) to Master (3). */
  function Level(c: RatingCategory): nat {
    match c
    case Beginner => 0
    case Specialist => 1
    case Expert => 2
    case Master => 3
  }

  /** How many of the thresholds 1500, 1800 and 2100 the rating reaches. */
  function ThresholdsReached(rating: real): nat {
    (if rating >= 1500.0 then 1 else 0)
    + (if rating >= 1800.0 then 1 else 0)
    + (if rating >= 2100.0 then 1 else 0)
  }

  /** The badge label: Master from 2100, Expert from 1800, Specialist from 1500, else Beginner. */
  function CategoryOf(rating: real): (c: RatingCategory)
    ensures Level(c) == ThresholdsReached(rating)
  {
    if rating >= 2100.0 then Master
    else if rating >= 1800.0 then Expert
    else if rating >= 1500.0 then Specialist
    else Beginner
  }

  /** The label never drops as the rating rises. */
  lemma CategoryMonotone(r1: real, r2: real)
    requires r1 <= r2
    ensures Level(CategoryOf(r1)) <= Level(CategoryOf(r2))
  {
  }

  datatype BadgeColour = Green | Blue | Yellow | Purple

  /** The badge colour, chosen by a second chain of the same thresholds. */
  function BadgeColourOf(rating: real): (colour: BadgeColour)
    ensures colour == Purple <==> CategoryOf(rating) == Master
    ensures colour == Yellow <==> CategoryOf(rating) == Expert
    ensures colour == Blue <==> CategoryOf(rating) == Specialist
    ensures colour == Green <==> CategoryOf(rating) == Beginner
  {
    if rating >= 2100.0 then Purple
    else if rating >= 1800.0 then Yellow
    else if rating >= 1500.0 then Blue
    else Green
  }
}
