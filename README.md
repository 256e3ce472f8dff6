# LeetCode profile comparator — verified model

This project models the computational core of a LeetCode profile comparator.
The comparator fetches two users' public profiles and builds a per-user
metrics record:

- solved counts per difficulty;
- an acceptance approximation;
- ranking and contest rating;
- average problems per day;
- six topic-strength scores;
- a chronological contest-rating series.

The user interface then derives several views from two such records:

- contest statistics, chart rows and a rating badge;
- each user's top-3 strongest and weakest topics and a radar chart;
- a week-by-week projection of solved totals and the day the user behind
  would catch up.

Modules:

- `Wrappers`: `Option` and `Result`. `None` stands for JavaScript's `null`,
  `undefined` or `NaN` as each field documents.
- `Arith`: `Min` and `Max`.
- `StableSort`: the stable sort by an integer key that `Array.prototype.sort`
  performs with a numeric comparator.
  - `SortBy` is the reference definition.
  - `SortInPlace` is an in-place insertion sort on an array, proved equal to it.
- `CompareRoute`: `processUserData` and its helpers (app/api/compare/route.ts).
- `ContestComparison`: components/contest-comparison.tsx.
- `TopicComparison`: components/topic-comparison.tsx.
- `ProgressPrediction`: components/progress-prediction.tsx.

In three places the code does something other than what its own comments
or neighbouring lines suggest. The model follows the code:

- **Missing difficulty.** app/api/compare/route.ts:248 sums the three
  difficulty entries with no default. Lines 316-318 default each output count
  to 0. When one difficulty is missing, the total is `NaN`, and so are the
  acceptance approximation and the average per day that derive from it.
- **Zero values.** The comment at app/api/compare/route.ts:309 says "Default to
  1500 if rating is null". But the defaults 1500 (rating, lines 309 and 328)
  and 999999 (ranking, line 326) are applied with `||`, so a value of 0 is
  replaced as well as a missing one. `CompareRoute.ZeroTakesDefault` states
  this.
- **Membership date.** The comment at app/api/compare/route.ts:250 says the
  date is "based on first contest". Line 253 reads the last entry of the
  history in upstream order, before the history is sorted at line 308.
  `memberSince` is an output field (line 313) and also yields the elapsed day
  count. This model leaves the label out and takes the day count as an input.

## Model

| member | source | states |
|---|---|---|
| CompareRoute.FallbackTotals | app/api/compare/route.ts:213-219 | The totals used when the totals query fails: 2500 problems, the three parts summing to the total in a 30/50/20 split. |
| CompareRoute.BuildSubmitStats | app/api/compare/route.ts:242-245 | The keys are exactly the lower-cased difficulties. Every key is lower case. Each key holds the count of the last entry with that difficulty, so later entries overwrite earlier ones. A key not in the map has no entry. |
| CompareRoute.ToLower | app/api/compare/route.ts:243 | The result has the input's length and no upper-case ASCII letter. Each upper-case ASCII letter becomes its lower-case letter, and every other character is kept. |
| CompareRoute.LastCountIsLast | app/api/compare/route.ts:242-245 | The count read for a key is defined exactly when some entry's lower-cased difficulty is that key. It is then the count of the last such entry. |
| CompareRoute.StatsReads | app/api/compare/route.ts:242-248 | Reading easy, medium and hard from the dictionary gives the specified counts, 0 for a missing key, and the specified total, NaN unless all three are present. |
| CompareRoute.TotalSolved | app/api/compare/route.ts:248 | The total is a number exactly when easy, medium and hard are each listed by some entry. It then equals the sum of the three output counts. |
| CompareRoute.SolvedCounts | app/api/compare/route.ts:316-318 | The counts are never negative. A difficulty no entry lists gets 0. A listed one gets the count read for it. |
| CompareRoute.TotalSolvedMatchesCounts | app/api/compare/route.ts:247-248 | The total solved is a number exactly when easy, medium and hard are all present. It then equals the sum of the output counts. Those counts are never negative (they default to 0). |
| CompareRoute.SubmissionSummary | app/api/compare/route.ts:242-248 | The solved counts and the total read from the submit-stats dictionary are the specified counts (missing ones 0) and the specified total (NaN when a difficulty is missing). |
| CompareRoute.AverageProblemsPerDay | app/api/compare/route.ts:223-229 | The average lies between 0 and the total. It is the whole total when at most one day has elapsed. Otherwise average × days equals the total. |
| CompareRoute.AcceptanceRate | app/api/compare/route.ts:325 | The approximation lies in [0, 100]. It is the nearest integer to 100·t/(t+100), with halves rounded up. |
| CompareRoute.AcceptanceRateOf85 | app/api/compare/route.ts:325 | 85 solved problems give 46. |
| CompareRoute.GlobalRanking | app/api/compare/route.ts:326 | The ranking is never 0. A present, non-zero upstream ranking is kept. A missing or zero one becomes 999999. |
| CompareRoute.ContestRating | app/api/compare/route.ts:328 | The rating is never 0. A present, non-zero snapshot rating is kept. A missing snapshot, missing rating or zero rating becomes 1500. |
| CompareRoute.RatingOrDefault | app/api/compare/route.ts:309 | The rating of one history entry is never 0. A present, non-zero rating is kept. A missing or zero rating becomes 1500. |
| CompareRoute.ZeroTakesDefault | app/api/compare/route.ts:309-328 | A reported ranking of 0 becomes 999999, and a reported rating of 0, in the snapshot or in a history entry, becomes 1500. |
| CompareRoute.AllTags | app/api/compare/route.ts:263-267 | The tags are those of the three tiers, a missing tier counting as empty. The length is the sum of the tiers' lengths, the multiset is the union of theirs, and a tag is present exactly when some tier has it. |
| CompareRoute.FoldedScoreIsCappedSum | app/api/compare/route.ts:293-304 | Saturating at 100 after every tag gives the same score as capping the plain sum once. |
| CompareRoute.CategorySumPermutation | app/api/compare/route.ts:295-304 | The sum of the counts feeding a category depends only on the multiset of tags. |
| CompareRoute.TopicScoreOrderIndependent | app/api/compare/route.ts:262-267 | Reordering the tags, for example the three tiers, changes no topic score. |
| CompareRoute.UnmappedTagChangesNothing | app/api/compare/route.ts:270-281 | A tag whose slug the mapping table does not list changes no score, wherever it appears. |
| CompareRoute.ComputeTopicStrengths | app/api/compare/route.ts:283-304 | Exactly the six categories are keys. Each score is the saturating fold over the tags. It equals min(100, the sum of the counts of the tags mapped to it). It lies in [0, 100]. |
| CompareRoute.ContestSeries | app/api/compare/route.ts:309 | The series is never empty and is `[1500]` for an empty history. Otherwise it has one rating per entry, at the same index, where a missing or zero rating becomes 1500. No entry is 0. |
| CompareRoute.ContestSeriesOrdered | app/api/compare/route.ts:307-308 | The sorted history is in ascending start-time order and is a permutation of the input. Entries with equal start times keep their input order. |
| CompareRoute.SortedContestSeries | app/api/compare/route.ts:306-309 | Sorting a copy of the history in place and mapping it to ratings gives exactly the series of the stably sorted history. |
| CompareRoute.ProcessUserData | app/api/compare/route.ts:232-332 | Fails with "User not found" exactly when the profile has no matched user. Otherwise every field of the record is the specified value: counts, totals, acceptance and average (NaN with the total), ranking and rating with their defaults, premium false, streak 0, the six capped topic scores, and the series of the history sorted by start time. |
| StableSort.SortBy | app/api/compare/route.ts:308 | The sorted sequence has the input's length and multiset and is in non-decreasing key order. |
| StableSort.SortByStable | app/api/compare/route.ts:308 | For every key value, the elements with that key keep their input order. |
| StableSort.SortByOfSorted | app/api/compare/route.ts:308 | Sorting a sequence that is already in key order returns it unchanged. |
| StableSort.InsertLast | app/api/compare/route.ts:308 | Shifting the last element of a sorted prefix left past larger keys leaves the prefix equal to the specified insertion, with the rest of the array untouched. |
| StableSort.SortInPlace | app/api/compare/route.ts:307-308 | After the in-place sort the array holds exactly the stable sort of its old contents. |
| ContestComparison.DecimalString | components/contest-comparison.tsx:14 | The rendering of n is a non-empty string of digits without a leading zero, and it denotes n. |
| ContestComparison.ContestData | components/contest-comparison.tsx:13-17 | There is one row per entry of user 1's series. Row i carries user 1's i-th rating. It carries user 2's i-th rating exactly when user 2 has one. The labels "Contest 1", "Contest 2", … are pairwise distinct. |
| ContestComparison.MaxRating | components/contest-comparison.tsx:22 | The maximum is an entry of the series and bounds every entry. |
| ContestComparison.MinRating | components/contest-comparison.tsx:23 | The minimum is an entry of the series and is bounded by every entry. |
| ContestComparison.PreviousRating | components/contest-comparison.tsx:25 | The previous rating is an entry of the series. It is the second-to-last entry when there is one and it is non-zero. Otherwise it falls back to the current rating. It is 0 only when the current rating is 0. |
| ContestComparison.GetContestStats | components/contest-comparison.tsx:20-37 | Max and min are entries bounding the series, and the current rating is the last entry, between them. The previous rating falls back to the current one. The trend is up, down or stable exactly as current compares with previous. The change is non-negative, is 0 exactly when the trend is stable, and is the distance between current and previous. A one-entry series is stable. |
| ContestComparison.PreviousOfAggregatedSeries | components/contest-comparison.tsx:25 | On a series produced by the aggregation, the previous rating is always the second-to-last entry when there is one. |
| ContestComparison.CategoryOf | components/contest-comparison.tsx:152-158 | The label's rank counts how many of the thresholds 1500, 1800 and 2100 the rating reaches. |
| ContestComparison.CategoryMonotone | components/contest-comparison.tsx:152-158 | A higher rating never gets a lower label. |
| ContestComparison.BadgeColourOf | components/contest-comparison.tsx:141-150 | Purple, yellow, blue and green go with Master, Expert, Specialist and Beginner, in both directions. |
| TopicComparison.Entries | components/topic-comparison.tsx:53 | The pairs are exactly the record's keys with their scores, in the record's insertion order, one per topic. |
| TopicComparison.EntriesCount | components/topic-comparison.tsx:53 | There is one pair per key of the record. |
| TopicComparison.FirstThreeSelects | components/topic-comparison.tsx:53-55 | Sort-then-slice gives min(3, n) entries in key order, drawn from the input. No left-out entry sorts before a chosen one. Among equal keys the input order is kept. |
| TopicComparison.FirstThreeOfEntries | components/topic-comparison.tsx:53-55 | The same properties stated against the record: chosen pairs are keys with their scores, distinct topics, and no left-out topic ordered first. |
| TopicComparison.GetTopStrengths | components/topic-comparison.tsx:52-59 | It returns three topics for a full record (min(3, n) in general), highest score first, each with its own score and no topic twice. No left-out topic scores higher than a returned one. |
| TopicComparison.GetTopWeaknesses | components/topic-comparison.tsx:61-68 | It returns three topics for a full record, lowest score first, each with its own score and no topic twice. No left-out topic scores lower than a returned one. |
| TopicComparison.TiesKeepInsertionOrder | components/topic-comparison.tsx:53-64 | Among topics with equal scores, those returned are the earliest in the record's order. |
| TopicComparison.RadarData | components/topic-comparison.tsx:12-49 | There are six rows, with subjects in the fixed order and full mark 100. Each row carries both users' scores of its category unchanged. |
| TopicComparison.RadarWithinFullMark | components/topic-comparison.tsx:12-49 | For records as the aggregation builds them, every spoke has both scores, each between 0 and the full mark. |
| ProgressPrediction.CurrentTotal | components/progress-prediction.tsx:19-20 | For non-negative counts, the starting total is at least each of the three counts. It is 0 exactly when all three are 0. |
| ProgressPrediction.CurrentTotalIsTotalSolved | components/progress-prediction.tsx:19-20 | The starting total is never negative. It equals the route's total solved wherever that total is a number. |
| ProgressPrediction.Projected | components/progress-prediction.tsx:25-36 | On day 0, or at a rate of 0, the projection is the starting total. At a non-negative rate and day it is never below the starting total. |
| ProgressPrediction.WeekLater | components/progress-prediction.tsx:35-36 | Adding seven days' worth of the rate to the projection of day d gives the projection of day d + 7. |
| ProgressPrediction.PointCount | components/progress-prediction.tsx:28 | The count n is the least whole number with 7n above the period. It is 0 for a negative period. Otherwise the last point, day 7(n − 1), lies within the period. |
| ProgressPrediction.ProjectedMonotone | components/progress-prediction.tsx:35-36 | At a non-negative rate the projected total never falls as days pass. |
| ProgressPrediction.GeneratePredictionData | components/progress-prediction.tsx:23-40 | There is one point per 7 days from day 0 up to and including the period, and none for a negative period. The k-th point is day 7k with each user's total plus 7k days of their rate. |
| ProgressPrediction.PredictionNonDecreasing | components/progress-prediction.tsx:28-37 | At non-negative rates neither line of the chart ever falls. |
| ProgressPrediction.Ceil | components/progress-prediction.tsx:58 | The result is the least integer not below x. |
| ProgressPrediction.DaysToMatch | components/progress-prediction.tsx:58 | For a positive difference and gap, the day count is at least 1. It is the least whole d with d·gap ≥ difference. |
| ProgressPrediction.CalculateCatchupDay | components/progress-prediction.tsx:45-63 | The result is tied exactly when the totals are equal. Otherwise the user with the larger total leads. The follower never catches up exactly when their rate does not exceed the leader's. Else the follower catches up after the least whole number of days whose gained ground covers the difference. |
| ProgressPrediction.LeadAfter | components/progress-prediction.tsx:50-52 | The follower's projected lead on day d is d·(rate gap) minus the starting difference. |
| ProgressPrediction.CatchupDayIsFirstDayLevel | components/progress-prediction.tsx:50-58 | On the predicted day the follower's projection reaches the leader's. On every earlier day it is still behind. |
| ProgressPrediction.NeverMeansAlwaysBehind | components/progress-prediction.tsx:51-56 | When the catch-up result is never, the follower's projection stays below the leader's on every day. |
| ProgressPrediction.CatchupSymmetric | components/progress-prediction.tsx:46-52 | Swapping the two users swaps the roles and keeps the verdict and the day count. |

## Left out

- The network:
  - The GraphQL fetches, the `GET` handler, `Promise.all`, timeouts and error
    responses are I/O and are not modelled.
  - The three payloads are inputs.
  - A failing totals query is represented only by `FallbackTotals`.
- The 30/50/20 split of a fetched total (`Math.round(total * 0.3)` and so on)
  is floating-point rounding of an upstream value and is not modelled. Only
  the fixed fallback values are.
- The membership label `memberSince` is an output field of the record
  (app/api/compare/route.ts:313) that the model leaves out, along with the
  date arithmetic and `toLocaleDateString` that produce it.
  `CompareRoute.AverageProblemsPerDay` takes the floored whole day count
  since that date as an input.
- The catch-up calendar date and the wording of the messages are not
  modelled. `CatchUp` records the verdict, the two roles and the day count.
- React state, sliders, JSX and charts are not modelled. The slider values
  (rates and period) are parameters.
- components/problem-comparison.tsx and components/profile-comparison.tsx
  are not part of this model.
- CompareRoute.ComputeTopicStrengths: each tag adds `problemsSolved / 100 * 100`
  as an IEEE double. The model adds the exact count, because the division and
  multiplication can be off by one unit in the last place. Scores are
  therefore integers here.
- ProgressPrediction.GeneratePredictionData: totals and rates are exact
  reals. The source accumulates a double step by step and can drift by
  rounding. Rates are reals and cannot be `NaN`. In the source, a NaN average
  (a missing difficulty) reaches the component as `null`, because the record
  is serialised to JSON (app/api/compare/route.ts:372). Rendering the rate with
  `toFixed` then throws (components/progress-prediction.tsx:121), so the
  view does not appear. That failure is not modelled.
- ProgressPrediction.CalculateCatchupDay: `Math.ceil` of a double quotient is
  computed on exact reals.
- CompareRoute.ToLower: only ASCII letters are lower-cased. Difficulty names
  are ASCII.
- CompareRoute.SortedContestSeries: the source sorts the payload's own array
  in place, which the caller can observe. The model sorts a fresh copy of the
  history.
- ContestComparison.GetContestStats requires a non-empty series, because the
  aggregation never produces an empty one (`ContestSeries` ensures this). The
  source would return `-Infinity`, `Infinity` and `undefined` for one.
- Chart rows are keyed by username in the source, so two users with the same
  name would collide in one row object. The model keeps the two users in
  separate fields.
- A profile whose `matchedUser` lacks `submitStats` or `profile` throws a
  `TypeError` in the source. The model's payload types always carry both.
