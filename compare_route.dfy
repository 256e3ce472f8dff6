/**
 * The per-user aggregation of the comparison endpoint: the upstream profile,
 * topic and totals payloads of one user become one `UserMetrics` record
 * (app/api/compare/route.ts). Network fetching is not modelled; the payloads
 * are values and the whole days since joining are an input.
 */
module CompareRoute {
  import opened Wrappers
  import opened Arith
  import opened StableSort

  // ---------------------------------------------------------------------------
  // Raw upstream payloads
  // ---------------------------------------------------------------------------

  /** One entry of `submitStats.acSubmissionNum`: accepted problems of one difficulty. */
  datatype SubmissionCount = SubmissionCount(difficulty: string, count: nat)

  /** The `matchedUser` object of the profile query. */
  datatype MatchedUser = MatchedUser(
    username: string,
    ranking: Option<int>,
    acSubmissionNum: seq<SubmissionCount>)

  /** The `userContestRanking` snapshot. */
  datatype ContestRanking = ContestRanking(rating: Option<real>)

  /** One entry of `userContestRankingHistory`: the contest start time (seconds) and the rating after it. */
  datatype ContestResult = ContestResult(startTime: int, rating: Option<real>)

  /** The profile query's `data`; `matchedUser` is None for an unknown username. */
  datatype ProfilePayload = ProfilePayload(
    matchedUser: Option<MatchedUser>,
    userContestRanking: Option<ContestRanking>,
    userContestRankingHistory: Option<seq<ContestResult>>)

  /** One (tagSlug, problemsSolved) entry of `tagProblemCounts`. */
  datatype TagCount = TagCount(tagSlug: string, problemsSolved: nat)

  /**
   * The three proficiency tiers of `tagProblemCounts`; a tier is None when
   * it, `tagProblemCounts` or the tag query's `matchedUser` is missing.
   */
  datatype TagPayload = TagPayload(
    advanced: Option<seq<TagCount>>,
    intermediate: Option<seq<TagCount>>,
    fundamental: Option<seq<TagCount>>)

  /** Platform-wide problem counts. */
  datatype ProblemTotals = ProblemTotals(total: int, easy: int, medium: int, hard: int)

  // ---------------------------------------------------------------------------
  // Output record
  // ---------------------------------------------------------------------------

  /** Per-difficulty counts, as `problemsSolved` and `totalProblems` of the output. */
  datatype ProblemCounts = ProblemCounts(easy: int, medium: int, hard: int)

  /** The six canonical topic categories, in the order the strengths record lists them. */
  datatype Category = Arrays | Strings | Dp | Trees | Graphs | Sorting

  /**
   * The metrics of one user. `acceptanceRate` and `averageProblemsPerDay`
   * are None where the source computes JavaScript's NaN (see `TotalSolved`).
   * The `memberSince` label is not part of this model.
   */
  datatype UserMetrics = UserMetrics(
    username: string,
    premium: bool,
    problemsSolved: ProblemCounts,
    totalProblems: ProblemCounts,
    acceptanceRate: Option<int>,
    globalRanking: int,
    streak: int,
    contestRating: real,
    averageProblemsPerDay: Option<real>,
    topicStrengths: map<Category, int>,
    contestHistory: seq<real>)

  // ---------------------------------------------------------------------------
  // Fixed configuration
  // ---------------------------------------------------------------------------

  /** The totals used when the totals query fails: 2500 problems split 30/50/20. */
  function FallbackTotals(): (t: ProblemTotals)
    ensures t.total == 2500
    ensures t.easy + t.medium + t.hard == t.total
    ensures 10 * t.easy == 3 * t.total && 10 * t.medium == 5 * t.total && 10 * t.hard == 2 * t.total
  {
    ProblemTotals(2500, 750, 1250, 500)
  }

  /** The ten upstream tag slugs that feed a category; every other slug is ignored. */
  const TopicMapping: map<string, Category> := map[
    "array" := Arrays,
    "string" := Strings,
    "dynamic-programming" := Dp,
    "tree" := Trees,
    "binary-tree" := Trees,
    "graph" := Graphs,
    "depth-first-search" := Graphs,
    "breadth-first-search" := Graphs,
    "sorting" := Sorting,
    "binary-search" := Sorting]

  /** The categories in the insertion order of the strengths record. */
  const CategoryOrder: seq<Category> := [Arrays, Strings, Dp, Trees, Graphs, Sorting]

  const AllCategories: set<Category> := {Arrays, Strings, Dp, Trees, Graphs, Sorting}

  const UnratedRating: real := 1500.0
  const UnrankedRanking: int := 999999
  /** Problems per topic that count as full strength. */
  const MaxProblemsPerTopic: int := 100

  // ---------------------------------------------------------------------------
  // Submission counts by difficulty
  // ---------------------------------------------------------------------------

  /** ASCII `toLowerCase` of one character. */
  function LowerChar(ch: char): char {
    if 'A' <= ch <= 'Z' then (ch as int - 'A' as int + 'a' as int) as char else ch
  }

  /** ASCII `toLowerCase` of a string. */
  function ToLower(s: string): (r: string)
    ensures |r| == |s|
    ensures forall i :: 0 <= i < |s| ==> !('A' <= r[i] <= 'Z')
    ensures forall i :: 0 <= i < |s| && 'A' <= s[i] <= 'Z' ==> r[i] as int == s[i] as int + 32
    ensures forall i :: 0 <= i < |s| && !('A' <= s[i] <= 'Z') ==> r[i] == s[i]
  {
    seq(|s|, i requires 0 <= i < |s| => LowerChar(s[i]))
  }

  lemma ToLowerIdempotent(s: string)
    ensures ToLower(ToLower(s)) == ToLower(s)
  {
  }

  /**
   * The count of the LAST entry whose lower-cased difficulty is `key`, or
   * None when there is none: the value a key ends up with when entries are
   * written into a dictionary one after the other.
   */
  function LastCount(items: seq<SubmissionCount>, key: string): Option<nat>
    decreases |items|
  {
    if |items| == 0 then None
    else if ToLower(items[|items| - 1].difficulty) == key then Some(items[|items| - 1].count)
    else LastCount(items[..|items| - 1], key)
  }

  /** Some entry's lower-cased difficulty is `key`. */
  predicate Lists(items: seq<SubmissionCount>, key: string) {
    exists i :: 0 <= i < |items| && ToLower(items[i].difficulty) == key
  }

  /** The entry at `i` is the last one whose lower-cased difficulty is `key`. */
  predicate LastListing(items: seq<SubmissionCount>, key: string, i: int) {
    && 0 <= i < |items|
    && ToLower(items[i].difficulty) == key
    && forall j :: i < j < |items| ==> ToLower(items[j].difficulty) != key
  }

  /**
   * The count is defined exactly when some entry lists the key, and it is
   * then the count of the last entry listing it.
   */
  lemma {:induction false} LastCountIsLast(items: seq<SubmissionCount>, key: string)
    ensures LastCount(items, key).Some? <==> Lists(items, key)
    ensures LastCount(items, key).Some? ==>
      exists i :: LastListing(items, key, i) && LastCount(items, key).value == items[i].count
    decreases |items|
  {
    if |items| > 0 && ToLower(items[|items| - 1].difficulty) != key {
      var front := items[..|items| - 1];
      LastCountIsLast(front, key);
      assert forall i :: 0 <= i < |front| ==> front[i] == items[i];
      if LastCount(front, key).Some? {
        var i :| LastListing(front, key, i) && LastCount(front, key).value == front[i].count;
        assert LastListing(items, key, i);
      }
    } else if |items| > 0 {
      assert LastListing(items, key, |items| - 1);
    }
  }

  /**
   * The `reduce` that fills `submitStats`: every entry writes its count
   * under its lower-cased difficulty, a later entry overwriting an earlier.
   */
  method BuildSubmitStats(items: seq<SubmissionCount>) returns (stats: map<string, nat>)
    ensures stats.Keys == set i | 0 <= i < |items| :: ToLower(items[i].difficulty)
    ensures forall k :: k in stats ==> ToLower(k) == k
    ensures forall k :: k in stats ==> LastCount(items, k) == Some(stats[k])
    ensures forall k :: k !in stats ==> LastCount(items, k) == None
  {
    stats := map[];
    var i := 0;
    while i < |items|
      invariant 0 <= i <= |items|
      invariant stats.Keys == set j | 0 <= j < i :: ToLower(items[j].difficulty)
      invariant forall k :: k in stats ==> LastCount(items[..i], k) == Some(stats[k])
      invariant forall k :: k !in stats ==> LastCount(items[..i], k) == None
    {
      assert items[..i + 1][..i] == items[..i];
      stats := stats[ToLower(items[i].difficulty) := items[i].count];
      i := i + 1;
    }
    assert items[..|items|] == items;
    forall k | k in stats ensures ToLower(k) == k {
      var j :| 0 <= j < |items| && k == ToLower(items[j].difficulty);
      ToLowerIdempotent(items[j].difficulty);
    }
  }

  /**
   * `submitStats.easy + submitStats.medium + submitStats.hard` (route.ts:248):
   * None, JavaScript's NaN, as soon as one of the three keys is missing,
   * because that line applies no default.
   */
  function TotalSolved(items: seq<SubmissionCount>): (t: Option<nat>)
    ensures t.Some? <==> Lists(items, "easy") && Lists(items, "medium") && Lists(items, "hard")
    ensures t.Some? ==>
      var c := SolvedCounts(items);
      t.value == c.easy + c.medium + c.hard
  {
    LastCountIsLast(items, "easy");
    LastCountIsLast(items, "medium");
    LastCountIsLast(items, "hard");
    match (LastCount(items, "easy"), LastCount(items, "medium"), LastCount(items, "hard"))
    case (Some(e), Some(m), Some(h)) => Some(e + m + h)
    case _ => None
  }

  /** The output counts, each defaulting to 0 when its difficulty is missing. */
  function SolvedCounts(items: seq<SubmissionCount>): (c: ProblemCounts)
    ensures c.easy >= 0 && c.medium >= 0 && c.hard >= 0
    ensures !Lists(items, "easy") ==> c.easy == 0
    ensures !Lists(items, "medium") ==> c.medium == 0
    ensures !Lists(items, "hard") ==> c.hard == 0
    ensures Lists(items, "easy") ==> Some(c.easy) == LastCount(items, "easy")
    ensures Lists(items, "medium") ==> Some(c.medium) == LastCount(items, "medium")
    ensures Lists(items, "hard") ==> Some(c.hard) == LastCount(items, "hard")
  {
    LastCountIsLast(items, "easy");
    LastCountIsLast(items, "medium");
    LastCountIsLast(items, "hard");
    ProblemCounts(
      LastCount(items, "easy").GetOr(0),
      LastCount(items, "medium").GetOr(0),
      LastCount(items, "hard").GetOr(0))
  }

  /**
   * The total is defined exactly when all three difficulties are present,
   * and then it is the sum of the output counts; otherwise those counts
   * still default to 0.
   */
  lemma TotalSolvedMatchesCounts(items: seq<SubmissionCount>)
    ensures TotalSolved(items).Some?
        <==> (LastCount(items, "easy").Some? && LastCount(items, "medium").Some?
              && LastCount(items, "hard").Some?)
    ensures TotalSolved(items).Some? ==>
      var c := SolvedCounts(items);
      TotalSolved(items).value == c.easy + c.medium + c.hard
    ensures var c := SolvedCounts(items); c.easy >= 0 && c.medium >= 0 && c.hard >= 0
  {
  }

  // ---------------------------------------------------------------------------
  // Derived numbers
  // ---------------------------------------------------------------------------

  /**
   * `totalSolved / max(1, days)`: the divisor is at least one whole day,
   * so the average never exceeds the total.
   */
  function AverageProblemsPerDay(totalSolved: nat, elapsedDays: int): (avg: real)
    ensures 0.0 <= avg <= totalSolved as real
    ensures elapsedDays <= 1 ==> avg == totalSolved as real
    ensures elapsedDays >= 1 ==> avg * (elapsedDays as real) == totalSolved as real
  {
    var days := Max(1, elapsedDays) as real;
    var avg := (totalSolved as real) / days;
    assert avg * days == totalSolved as real;
    assert avg <= avg * days;
    avg
  }

  /**
   * `Math.round(totalSolved / (totalSolved + 100) * 100)` in integer
   * arithmetic: the nearest integer to the real quotient, halves rounded up.
   */
  function AcceptanceRate(totalSolved: nat): (rate: int)
    ensures 0 <= rate <= 100
    ensures (rate as real) - 0.5 <= 100.0 * (totalSolved as real) / ((totalSolved + 100) as real)
    ensures 100.0 * (totalSolved as real) / ((totalSolved + 100) as real) < (rate as real) + 0.5
  {
    var n := 201 * totalSolved + 100;
    var d := 2 * totalSolved + 200;
    var rate := n / d;
    AcceptanceRateRounds(totalSolved, rate);
    rate
  }

  /** 85 solved problems give an acceptance approximation of 46. */
  lemma AcceptanceRateOf85()
    ensures AcceptanceRate(85) == 46
  {
  }

  /** The integer bounds of `n / d` in `AcceptanceRate` read as the real rounding bounds. */
  lemma AcceptanceRateRounds(t: nat, rate: int)
    requires rate == (201 * t + 100) / (2 * t + 200)
    ensures 0 <= rate <= 100
    ensures (rate as real) - 0.5 <= 100.0 * (t as real) / ((t + 100) as real)
    ensures 100.0 * (t as real) / ((t + 100) as real) < (rate as real) + 0.5
  {
    var n, d := 201 * t + 100, 2 * t + 200;
    QuotientBounds(n, d, rate);
    ProductAsReal(d, rate);
    RealRounding(t as real, rate as real);
  }

  lemma QuotientBounds(n: nat, d: int, q: int)
    requires d > 0 && q == n / d
    ensures 0 <= q && d * q <= n < d * q + d
  {
  }

  lemma ProductAsReal(a: int, b: int)
    ensures (a * b) as real == (a as real) * (b as real)
  {
  }

  /** Dividing `(2t + 200) r <= 201 t + 100 < (2t + 200)(r + 1)` by `2 (t + 100)`. */
  lemma RealRounding(t: real, r: real)
    requires t >= 0.0
    requires (2.0 * t + 200.0) * r <= 201.0 * t + 100.0 < (2.0 * t + 200.0) * r + (2.0 * t + 200.0)
    ensures r - 0.5 <= 100.0 * t / (t + 100.0) < r + 0.5
    ensures 100.0 * t / (t + 100.0) < 100.0
  {
    var v := 100.0 * t / (t + 100.0);
    var k := 2.0 * t + 200.0;
    var kr := k * r;
    assert v * (t + 100.0) == 100.0 * t;
    assert k * v == 200.0 * t;
    calc {
      k * (r - 0.5);
      kr - 0.5 * k;
    <= 201.0 * t + 100.0 - 0.5 * k;
      200.0 * t;
      k * v;
    }
    DivideBoundsLe(k, r - 0.5, v);
    calc {
      k * v;
      200.0 * t;
    < kr + k - 0.5 * k;
      k * (r + 0.5);
    }
    DivideBoundsLt(k, v, r + 0.5);
    assert (t + 100.0) * v < (t + 100.0) * 100.0;
    DivideBoundsLt(t + 100.0, v, 100.0);
  }

  lemma DivideBoundsLe(k: real, a: real, b: real)
    requires k > 0.0 && k * a <= k * b
    ensures a <= b
  {
  }

  lemma DivideBoundsLt(k: real, a: real, b: real)
    requires k > 0.0 && k * a < k * b
    ensures a < b
  {
  }

  /** `ranking || 999999`: a missing or zero ranking becomes the sentinel. */
  function GlobalRanking(ranking: Option<int>): (r: int)
    ensures r != 0
    ensures ranking.Some? && ranking.value != 0 ==> r == ranking.value
    ensures ranking.None? || ranking.value == 0 ==> r == UnrankedRanking
  {
    if ranking.Some? && ranking.value != 0 then ranking.value else UnrankedRanking
  }

  /** `userContestRanking?.rating || 1500`. */
  function ContestRating(snapshot: Option<ContestRanking>): (r: real)
    ensures r != 0.0
    ensures snapshot.Some? && snapshot.value.rating.Some? && snapshot.value.rating.value != 0.0 ==>
      r == snapshot.value.rating.value
    ensures snapshot.None? || snapshot.value.rating.None? || snapshot.value.rating.value == 0.0 ==>
      r == UnratedRating
  {
    if snapshot.Some? && snapshot.value.rating.Some? && snapshot.value.rating.value != 0.0
    then snapshot.value.rating.value
    else UnratedRating
  }

  /**
   * The defaults are applied with `||`, so a reported 0 is falsy and is
   * replaced exactly as a missing value is.
   */
  lemma ZeroTakesDefault(startTime: int)
    ensures GlobalRanking(Some(0)) == UnrankedRanking
    ensures ContestRating(Some(ContestRanking(Some(0.0)))) == UnratedRating
    ensures RatingOrDefault(ContestResult(startTime, Some(0.0))) == UnratedRating
  {
  }

  // ---------------------------------------------------------------------------
  // Topic strengths
  // ---------------------------------------------------------------------------

  /** The three tiers flattened in the order advanced, intermediate, fundamental. */
  function AllTags(tags: TagPayload): (all: seq<TagCount>)
    ensures |all| == |tags.advanced.GetOr([])| + |tags.intermediate.GetOr([])| + |tags.fundamental.GetOr([])|
    ensures multiset(all)
         == multiset(tags.advanced.GetOr([])) + multiset(tags.intermediate.GetOr([]))
          + multiset(tags.fundamental.GetOr([]))
    ensures forall t :: t in all <==>
      t in tags.advanced.GetOr([]) || t in tags.intermediate.GetOr([]) || t in tags.fundamental.GetOr([])
  {
    tags.advanced.GetOr([]) + tags.intermediate.GetOr([]) + tags.fundamental.GetOr([])
  }

  /** The tag's slug is one the table maps to category `c`. */
  predicate FeedsCategory(tag: TagCount, c: Category) {
    tag.tagSlug in TopicMapping && TopicMapping[tag.tagSlug] == c
  }

  /**
   * The score of `c` after the `forEach` over `tags` in order: every tag
   * feeding `c` adds its count and the running score saturates at 100.
   */
  function FoldedScore(tags: seq<TagCount>, c: Category): int
    decreases |tags|
  {
    if |tags| == 0 then 0
    else
      var previous := FoldedScore(tags[..|tags| - 1], c);
      var tag := tags[|tags| - 1];
      if FeedsCategory(tag, c) then Min(MaxProblemsPerTopic, previous + tag.problemsSolved)
      else previous
  }

  /** The plain sum of the counts of the tags feeding `c`. */
  function CategorySum(tags: seq<TagCount>, c: Category): nat
    decreases |tags|
  {
    if |tags| == 0 then 0
    else
      CategorySum(tags[..|tags| - 1], c)
      + (if FeedsCategory(tags[|tags| - 1], c) then tags[|tags| - 1].problemsSolved else 0)
  }

  /** Saturating at every step is the same as capping the total once. */
  lemma {:induction false} FoldedScoreIsCappedSum(tags: seq<TagCount>, c: Category)
    ensures FoldedScore(tags, c) == Min(MaxProblemsPerTopic, CategorySum(tags, c))
    decreases |tags|
  {
    if |tags| > 0 {
      FoldedScoreIsCappedSum(tags[..|tags| - 1], c);
    }
  }

  lemma {:induction false} CategorySumAppend(a: seq<TagCount>, b: seq<TagCount>, c: Category)
    ensures CategorySum(a + b, c) == CategorySum(a, c) + CategorySum(b, c)
    decreases |b|
  {
    if |b| == 0 {
      assert a + b == a;
    } else {
      assert (a + b)[..|a + b| - 1] == a + b[..|b| - 1];
      CategorySumAppend(a, b[..|b| - 1], c);
    }
  }

  /** Taking the tag at index `k` out of `b` takes exactly its own contribution out of the sum. */
  lemma CategorySumRemoveAt(b: seq<TagCount>, k: nat, c: Category)
    requires k < |b|
    ensures CategorySum(b, c)
         == CategorySum(b[..k] + b[k + 1..], c) + (if FeedsCategory(b[k], c) then b[k].problemsSolved else 0)
  {
    assert b == (b[..k] + [b[k]]) + b[k + 1..];
    CategorySumAppend(b[..k] + [b[k]], b[k + 1..], c);
    CategorySumAppend(b[..k], [b[k]], c);
    CategorySumAppend(b[..k], b[k + 1..], c);
    assert [b[k]][..0] == [];
  }

  lemma RemoveAtMultiset<T>(b: seq<T>, k: nat)
    requires k < |b|
    ensures multiset(b[..k] + b[k + 1..]) == multiset(b) - multiset{b[k]}
  {
    assert b == b[..k] + [b[k]] + b[k + 1..];
  }

  /** A position of `x` in `b`, which holds the same elements as `a`, where `x` is last. */
  lemma IndexOf<T>(b: seq<T>, x: T, a: seq<T>) returns (k: nat)
    requires |a| > 0 && x == a[|a| - 1] && multiset(a) == multiset(b)
    ensures k < |b| && b[k] == x
  {
    assert x in multiset(a);
    k :| 0 <= k < |b| && b[k] == x;
  }

  /** Taking the last element off `a` and its match off `b` leaves equal multisets. */
  lemma RemoveMatching<T>(a: seq<T>, b: seq<T>, k: nat)
    requires |a| > 0 && k < |b| && b[k] == a[|a| - 1] && multiset(a) == multiset(b)
    ensures multiset(a[..|a| - 1]) == multiset(b[..k] + b[k + 1..])
  {
    assert a == a[..|a| - 1] + [a[|a| - 1]];
    RemoveAtMultiset(b, k);
  }

  /** The sum feeding a category does not depend on the order of the tags. */
  lemma {:induction false} CategorySumPermutation(a: seq<TagCount>, b: seq<TagCount>, c: Category)
    requires multiset(a) == multiset(b)
    ensures CategorySum(a, c) == CategorySum(b, c)
    decreases |a|
  {
    if |a| == 0 {
      assert |b| == |multiset(b)| == 0;
    } else {
      var init, x := a[..|a| - 1], a[|a| - 1];
      var k := IndexOf(b, x, a);
      var rest := b[..k] + b[k + 1..];
      RemoveMatching(a, b, k);
      CategorySumPermutation(init, rest, c);
      CategorySumRemoveAt(b, k, c);
      assert CategorySum(a, c) == CategorySum(init, c) + (if FeedsCategory(x, c) then x.problemsSolved else 0);
    }
  }

  /** Reordering the tags, for example the three tiers, changes no score. */
  lemma TopicScoreOrderIndependent(a: seq<TagCount>, b: seq<TagCount>, c: Category)
    requires multiset(a) == multiset(b)
    ensures FoldedScore(a, c) == FoldedScore(b, c)
  {
    FoldedScoreIsCappedSum(a, c);
    FoldedScoreIsCappedSum(b, c);
    CategorySumPermutation(a, b, c);
  }

  /** A tag whose slug is not in the table changes no score, wherever it stands. */
  lemma UnmappedTagChangesNothing(before: seq<TagCount>, tag: TagCount, after: seq<TagCount>, c: Category)
    requires tag.tagSlug !in TopicMapping
    ensures FoldedScore(before + [tag] + after, c) == FoldedScore(before + after, c)
  {
    FoldedScoreIsCappedSum(before + [tag] + after, c);
    FoldedScoreIsCappedSum(before + after, c);
    CategorySumAppend(before + [tag], after, c);
    CategorySumAppend(before, [tag], c);
    CategorySumAppend(before, after, c);
    assert [tag][..0] == [];
  }

  /**
   * The `forEach` that fills `topicStrengths`: starting from six zeros,
   * every tag whose slug the table maps to a category raises that
   * category's score, capped at 100.
   */
  method ComputeTopicStrengths(tags: seq<TagCount>) returns (strengths: map<Category, int>)
    ensures strengths.Keys == AllCategories
    ensures forall c :: c in strengths ==> strengths[c] == FoldedScore(tags, c)
    ensures forall c :: c in strengths ==> strengths[c] == Min(MaxProblemsPerTopic, CategorySum(tags, c))
    ensures forall c :: c in strengths ==> 0 <= strengths[c] <= 100
  {
    strengths := map[Arrays := 0, Strings := 0, Dp := 0, Trees := 0, Graphs := 0, Sorting := 0];
    var i := 0;
    while i < |tags|
      invariant 0 <= i <= |tags|
      invariant strengths.Keys == AllCategories
      invariant forall c :: c in strengths ==> strengths[c] == FoldedScore(tags[..i], c)
    {
      assert tags[..i + 1][..i] == tags[..i];
      var tag := tags[i];
      if tag.tagSlug in TopicMapping {
        var topic := TopicMapping[tag.tagSlug];
        if topic in strengths {
          strengths := strengths[topic := Min(MaxProblemsPerTopic, strengths[topic] + tag.problemsSolved)];
        }
      }
      i := i + 1;
    }
    assert tags[..|tags|] == tags;
    forall c | c in strengths
      ensures strengths[c] == Min(MaxProblemsPerTopic, CategorySum(tags, c))
    {
      FoldedScoreIsCappedSum(tags, c);
    }
  }

  // ---------------------------------------------------------------------------
  // Contest rating series
  // ---------------------------------------------------------------------------

  /** The sort key of the history: the contest's start time. */
  function StartTime(entry: ContestResult): int {
    entry.startTime
  }

  /** `contest.rating || 1500`: a missing or zero rating becomes 1500. */
  function RatingOrDefault(entry: ContestResult): (r: real)
    ensures r != 0.0
    ensures entry.rating.Some? && entry.rating.value != 0.0 ==> r == entry.rating.value
    ensures entry.rating.None? || entry.rating.value == 0.0 ==> r == UnratedRating
  {
    if entry.rating.Some? && entry.rating.value != 0.0 then entry.rating.value else UnratedRating
  }

  /**
   * The ratings of the sorted history, or `[1500]` when there are none;
   * never empty and never 0.
   */
  function ContestSeries(sortedHistory: seq<ContestResult>): (series: seq<real>)
    ensures |series| >= 1
    ensures |sortedHistory| == 0 ==> series == [UnratedRating]
    ensures |sortedHistory| > 0 ==>
      (|series| == |sortedHistory| && forall i :: 0 <= i < |series| ==> series[i] == RatingOrDefault(sortedHistory[i]))
    ensures forall i :: 0 <= i < |series| ==> series[i] != 0.0
  {
    var ratings := seq(|sortedHistory|, i requires 0 <= i < |sortedHistory| => RatingOrDefault(sortedHistory[i]));
    if |ratings| > 0 then ratings else [UnratedRating]
  }

  /**
   * The series of a non-empty history has one entry per contest, taken from
   * the history in ascending start-time order (equal start times in their
   * original order).
   */
  lemma ContestSeriesOrdered(history: seq<ContestResult>)
    ensures var sorted := SortBy(history, StartTime);
      && SortedBy(sorted, StartTime)
      && multiset(sorted) == multiset(history)
    ensures forall t :: Matching(SortBy(history, StartTime), StartTime, t) == Matching(history, StartTime, t)
  {
    forall t ensures Matching(SortBy(history, StartTime), StartTime, t) == Matching(history, StartTime, t) {
      SortByStable(history, StartTime, t);
    }
  }

  /**
   * The contest-rating series of the source: the history sorted in place by
   * start time, mapped to ratings, `[1500]` when empty.
   */
  method SortedContestSeries(history: seq<ContestResult>) returns (series: seq<real>)
    ensures series == ContestSeries(SortBy(history, StartTime))
  {
    var entries := new ContestResult[|history|](i requires 0 <= i < |history| => history[i]);
    assert entries[..] == history;
    SortInPlace(entries, StartTime);
    series := ContestSeries(entries[..]);
  }

  /**
   * The difficulty part of the record: the per-difficulty counts with their
   * defaults, and the total, NaN (None) unless all three are present.
   */
  method SubmissionSummary(items: seq<SubmissionCount>) returns (solved: ProblemCounts, totalSolved: Option<nat>)
    ensures solved == SolvedCounts(items)
    ensures totalSolved == TotalSolved(items)
  {
    var stats := BuildSubmitStats(items);
    StatsReads(items, stats);
    totalSolved :=
      if "easy" in stats && "medium" in stats && "hard" in stats
      then Some(stats["easy"] + stats["medium"] + stats["hard"])
      else None;
    solved := ProblemCounts(
      if "easy" in stats then stats["easy"] else 0,
      if "medium" in stats then stats["medium"] else 0,
      if "hard" in stats then stats["hard"] else 0);
  }

  /** Reading the three difficulties of the dictionary gives the specified counts and total. */
  lemma StatsReads(items: seq<SubmissionCount>, stats: map<string, nat>)
    requires forall k :: k in stats ==> LastCount(items, k) == Some(stats[k])
    requires forall k :: k !in stats ==> LastCount(items, k) == None
    ensures SolvedCounts(items) == ProblemCounts(
      if "easy" in stats then stats["easy"] else 0,
      if "medium" in stats then stats["medium"] else 0,
      if "hard" in stats then stats["hard"] else 0)
    ensures TotalSolved(items)
         == if "easy" in stats && "medium" in stats && "hard" in stats
            then Some(stats["easy"] + stats["medium"] + stats["hard"])
            else None
  {
    assert LastCount(items, "easy") == (if "easy" in stats then Some(stats["easy"]) else None);
    assert LastCount(items, "medium") == (if "medium" in stats then Some(stats["medium"]) else None);
    assert LastCount(items, "hard") == (if "hard" in stats then Some(stats["hard"]) else None);
  }

  // ---------------------------------------------------------------------------
  // The aggregation
  // ---------------------------------------------------------------------------

  /**
   * `processUserData`: fails with "User not found" when the profile has no
   * matched user, and otherwise assembles the metrics record.
   * `elapsedDays` is the whole number of days between the membership date
   * and now.
   */
  method ProcessUserData(profile: ProfilePayload, tagData: TagPayload, totals: ProblemTotals, elapsedDays: int)
    returns (r: Result<UserMetrics, string>)
    ensures r.Failure? <==> profile.matchedUser.None?
    ensures r.Failure? ==> r.error == "User not found"
    ensures r.Success? ==>
      var user := profile.matchedUser.value;
      var m := r.value;
      var items := user.acSubmissionNum;
      && m.username == user.username
      && !m.premium
      && m.streak == 0
      && m.problemsSolved == SolvedCounts(items)
      && m.totalProblems == ProblemCounts(totals.easy, totals.medium, totals.hard)
      && m.acceptanceRate == (if TotalSolved(items).Some? then Some(AcceptanceRate(TotalSolved(items).value)) else None)
      && m.averageProblemsPerDay
         == (if TotalSolved(items).Some? then Some(AverageProblemsPerDay(TotalSolved(items).value, elapsedDays)) else None)
      && m.globalRanking == GlobalRanking(user.ranking)
      && m.contestRating == ContestRating(profile.userContestRanking)
    ensures r.Success? ==>
      var m := r.value;
      && m.topicStrengths.Keys == AllCategories
      && forall c :: c in m.topicStrengths ==>
           m.topicStrengths[c] == Min(MaxProblemsPerTopic, CategorySum(AllTags(tagData), c))
    ensures r.Success? ==>
      r.value.contestHistory == ContestSeries(SortBy(profile.userContestRankingHistory.GetOr([]), StartTime))
  {
    if profile.matchedUser.None? {
      return Failure("User not found");
    }
    var user := profile.matchedUser.value;
    var solved, totalSolved := SubmissionSummary(user.acSubmissionNum);
    var average := if totalSolved.Some? then Some(AverageProblemsPerDay(totalSolved.value, elapsedDays)) else None;
    var strengths := ComputeTopicStrengths(AllTags(tagData));
    var series := SortedContestSeries(profile.userContestRankingHistory.GetOr([]));
    var acceptance := if totalSolved.Some? then Some(AcceptanceRate(totalSolved.value)) else None;

    r := Success(UserMetrics(
      user.username,
      false,
      solved,
      ProblemCounts(totals.easy, totals.medium, totals.hard),
      acceptance,
      GlobalRanking(user.ranking),
      0,
      ContestRating(profile.userContestRanking),
      average,
      strengths,
      series));
  }
}
