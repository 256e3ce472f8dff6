/**
 * The topic view (components/topic-comparison.tsx): the radar chart rows and
 * each user's three strongest and three weakest topics.
 */
module TopicComparison {
  import opened Wrappers
  import opened Arith
  import opened StableSort
  import opened CompareRoute

  /** One `[topic, score]` pair of `Object.entries(topicStrengths)`. */
  datatype TopicScore = TopicScore(topic: Category, score: int)

  predicate NoRepeats<T(==)>(s: seq<T>) {
    forall i, j :: 0 <= i < j < |s| ==> s[i] != s[j]
  }

  predicate DistinctTopics(s: seq<TopicScore>) {
    forall i, j :: 0 <= i < j < |s| ==> s[i].topic != s[j].topic
  }

  /** The pairs of `strengths` for the categories of `order`, in that order. */
  function EntriesIn(order: seq<Category>, strengths: map<Category, int>): seq<TopicScore>
    decreases |order|
  {
    if |order| == 0 then []
    else
      (if order[0] in strengths then [TopicScore(order[0], strengths[order[0]])] else [])
      + EntriesIn(order[1..], strengths)
  }

  /** The pairs are exactly the listed keys with their values. */
  lemma {:induction false} EntriesInMembers(order: seq<Category>, strengths: map<Category, int>)
    ensures forall e :: e in EntriesIn(order, strengths) <==>
      e.topic in order && e.topic in strengths && e.score == strengths[e.topic]
    decreases |order|
  {
    if |order| > 0 {
      EntriesInMembers(order[1..], strengths);
      assert forall c :: c in order <==> c == order[0] || c in order[1..];
    }
  }

  /** An order without repeats gives one pair per topic. */
  lemma {:induction false} EntriesInDistinct(order: seq<Category>, strengths: map<Category, int>)
    requires NoRepeats(order)
    ensures DistinctTopics(EntriesIn(order, strengths))
    decreases |order|
  {
    if |order| > 0 {
      var rest := EntriesIn(order[1..], strengths);
      assert NoRepeats(order[1..]);
      EntriesInDistinct(order[1..], strengths);
      EntriesInMembers(order[1..], strengths);
      assert order[0] !in order[1..];
      assert forall e :: e in rest ==> e.topic != order[0];
    }
  }

  /** An order without repeats gives as many pairs as it lists keys. */
  lemma {:induction false} EntriesInCount(order: seq<Category>, strengths: map<Category, int>)
    requires NoRepeats(order)
    ensures |EntriesIn(order, strengths)| == |set c | c in order && c in strengths|
    decreases |order|
  {
    if |order| > 0 {
      assert NoRepeats(order[1..]);
      EntriesInCount(order[1..], strengths);
      var restKeys := set c | c in order[1..] && c in strengths;
      assert order[0] !in restKeys;
      assert (set c | c in order && c in strengths)
          == (if order[0] in strengths then {order[0]} else {}) + restKeys;
    }
  }

  /** When every listed category is a key, the pairs follow the order one for one. */
  lemma {:induction false} EntriesInAll(order: seq<Category>, strengths: map<Category, int>)
    ensures (forall c :: c in order ==> c in strengths) ==>
      |EntriesIn(order, strengths)| == |order|
      && forall i :: 0 <= i < |order| ==> EntriesIn(order, strengths)[i] == TopicScore(order[i], strengths[order[i]])
    decreases |order|
  {
    if |order| > 0 {
      EntriesInAll(order[1..], strengths);
    }
  }

  /**
   * `Object.entries(topicStrengths)`: the pairs of the record in its
   * insertion order arrays, strings, dp, trees, graphs, sorting.
   */
  function Entries(strengths: map<Category, int>): (es: seq<TopicScore>)
    ensures forall e :: e in es <==> e.topic in strengths && e.score == strengths[e.topic]
    ensures DistinctTopics(es)
    ensures strengths.Keys == AllCategories ==>
      |es| == 6 && forall i :: 0 <= i < 6 ==> es[i] == TopicScore(CategoryOrder[i], strengths[CategoryOrder[i]])
  {
    CategoryOrderLists();
    EntriesInMembers(CategoryOrder, strengths);
    EntriesInDistinct(CategoryOrder, strengths);
    EntriesInAll(CategoryOrder, strengths);
    EntriesIn(CategoryOrder, strengths)
  }

  /** The order of the record lists every category once. */
  lemma CategoryOrderLists()
    ensures NoRepeats(CategoryOrder)
    ensures forall c: Category :: c in CategoryOrder
  {
    forall c: Category ensures c in CategoryOrder {
      match c
      case Arrays => assert CategoryOrder[0] == c;
      case Strings => assert CategoryOrder[1] == c;
      case Dp => assert CategoryOrder[2] == c;
      case Trees => assert CategoryOrder[3] == c;
      case Graphs => assert CategoryOrder[4] == c;
      case Sorting => assert CategoryOrder[5] == c;
    }
  }

  /** The comparator key of `(a, b) => b[1] - a[1]`: highest score first. */
  function Descending(e: TopicScore): int {
    -e.score
  }

  /** The comparator key of `(a, b) => a[1] - b[1]`: lowest score first. */
  function Ascending(e: TopicScore): int {
    e.score
  }

  /** `.sort(...).slice(0, 3)`: the first three of the stable sort by `key`. */
  function FirstThree(es: seq<TopicScore>, key: TopicScore -> int): seq<TopicScore> {
    SortBy(es, key)[..Min(3, |es|)]
  }

  /**
   * What sort-and-take-three guarantees: min(3, n) entries, in key order,
   * each taken unchanged from the input, no left-out entry ordered before a
   * chosen one, and among equal keys the input's order.
   */
  lemma FirstThreeSelects(es: seq<TopicScore>, key: TopicScore -> int)
    ensures var top := FirstThree(es, key);
      && |top| == Min(3, |es|)
      && SortedBy(top, key)
      && multiset(top) <= multiset(es)
      && (forall e, t :: e in es && e !in top && t in top ==> key(t) <= key(e))
      && (forall v :: Matching(top, key, v) <= Matching(es, key, v))
  {
    var sorted := SortBy(es, key);
    var k := Min(3, |es|);
    assert sorted == sorted[..k] + sorted[k..];
    assert multiset(sorted) == multiset(sorted[..k]) + multiset(sorted[k..]);
    FirstThreeLeavesOut(es, key);
    FirstThreeTies(es, key);
  }

  /** Every entry the first three leave out comes no earlier in key order than each chosen one. */
  lemma FirstThreeLeavesOut(es: seq<TopicScore>, key: TopicScore -> int)
    ensures var top := FirstThree(es, key);
      forall e, t :: e in es && e !in top && t in top ==> key(t) <= key(e)
  {
    var sorted := SortBy(es, key);
    var k := Min(3, |es|);
    var top := sorted[..k];
    forall e, t | e in es && e !in top && t in top ensures key(t) <= key(e) {
      assert e in multiset(sorted);
      var m :| 0 <= m < |sorted| && sorted[m] == e;
      var p :| 0 <= p < k && top[p] == t;
      assert m >= k;
      assert key(sorted[p]) <= key(sorted[m]);
    }
  }

  /** Among entries with equal keys the first three are the earliest ones of the input. */
  lemma FirstThreeTies(es: seq<TopicScore>, key: TopicScore -> int)
    ensures forall v :: Matching(FirstThree(es, key), key, v) <= Matching(es, key, v)
  {
    forall v ensures Matching(FirstThree(es, key), key, v) <= Matching(es, key, v) {
      SortByStable(es, key, v);
      MatchingPrefix(SortBy(es, key), Min(3, |es|), key, v);
    }
  }

  /** Two equal elements at different positions are counted at least twice. */
  lemma RepeatCountsTwice<T>(s: seq<T>, i: nat, j: nat)
    requires i < j < |s|
    ensures s[i] != s[j] || multiset(s)[s[i]] >= 2
  {
    assert s == s[..i] + [s[i]] + s[i + 1..j] + [s[j]] + s[j + 1..];
  }

  /** In a sequence without repeats every element is counted at most once. */
  lemma {:induction false} NoRepeatsCountsOnce<T>(s: seq<T>)
    requires NoRepeats(s)
    ensures forall x :: multiset(s)[x] <= 1
    decreases |s|
  {
    if |s| > 0 {
      var rest := s[1..];
      assert s == [s[0]] + rest;
      assert NoRepeats(rest);
      NoRepeatsCountsOnce(rest);
      assert s[0] !in rest;
    }
  }

  /** Taking elements of a sequence without repeats, each at most as often, gives no repeats. */
  lemma SubMultisetNoRepeats<T>(top: seq<T>, es: seq<T>)
    requires NoRepeats(es)
    requires multiset(top) <= multiset(es)
    ensures NoRepeats(top)
  {
    NoRepeatsCountsOnce(es);
    forall i, j | 0 <= i < j < |top| ensures top[i] != top[j] {
      RepeatCountsTwice(top, i, j);
    }
  }

  /** Entries drawn from the record's entries are pairs of the record, no two for one topic. */
  lemma DrawnFromRecord(strengths: map<Category, int>, es: seq<TopicScore>, top: seq<TopicScore>)
    requires forall e :: e in es <==> e.topic in strengths && e.score == strengths[e.topic]
    requires DistinctTopics(es)
    requires multiset(top) <= multiset(es)
    ensures forall t :: t in top ==> t.topic in strengths && strengths[t.topic] == t.score
    ensures DistinctTopics(top)
  {
    forall t | t in top ensures t in es {
      assert t in multiset(top);
    }
    assert NoRepeats(es);
    SubMultisetNoRepeats(top, es);
  }

  /** A topic of the record left out of `top` comes no earlier in key order than any entry of `top`. */
  lemma LeftOutTopics(strengths: map<Category, int>, es: seq<TopicScore>, top: seq<TopicScore>,
                      key: TopicScore -> int)
    requires forall e :: e in es <==> e.topic in strengths && e.score == strengths[e.topic]
    requires forall e, t :: e in es && e !in top && t in top ==> key(t) <= key(e)
    ensures forall c, t :: (c in strengths && t in top && TopicScore(c, strengths[c]) !in top
      ==> key(t) <= key(TopicScore(c, strengths[c])))
  {
    forall c, t | c in strengths && t in top && TopicScore(c, strengths[c]) !in top
      ensures key(t) <= key(TopicScore(c, strengths[c]))
    {
      assert TopicScore(c, strengths[c]) in es;
    }
  }

  /**
   * The three entries `key` orders first, stated against the record: how
   * many, in key order, each a key of the record with its own score, no two
   * for one topic, and no topic left out ordered before a returned one.
   */
  lemma FirstThreeOfEntries(strengths: map<Category, int>, key: TopicScore -> int)
    ensures var top := FirstThree(Entries(strengths), key);
      && |top| == Min(3, |strengths|)
      && SortedBy(top, key)
      && (forall t :: t in top ==> t.topic in strengths && strengths[t.topic] == t.score)
      && DistinctTopics(top)
      && (forall c, t :: c in strengths && t in top && TopicScore(c, strengths[c]) !in top
            ==> key(t) <= key(TopicScore(c, strengths[c])))
  {
    var es := Entries(strengths);
    var top := FirstThree(es, key);
    FirstThreeSelects(es, key);
    EntriesCount(strengths);
    DrawnFromRecord(strengths, es, top);
    LeftOutTopics(strengths, es, top, key);
  }

  /** Scores never rise along `top`. */
  predicate ScoresDescending(top: seq<TopicScore>) {
    forall i, j :: 0 <= i < j < |top| ==> top[i].score >= top[j].score
  }

  /** Scores never fall along `top`. */
  predicate ScoresAscending(top: seq<TopicScore>) {
    forall i, j :: 0 <= i < j < |top| ==> top[i].score <= top[j].score
  }

  /** Every pair of `top` is a key of the record with its own score. */
  predicate FromRecord(strengths: map<Category, int>, top: seq<TopicScore>) {
    forall t :: t in top ==> t.topic in strengths && strengths[t.topic] == t.score
  }

  /** No topic of the record left out of `top` scores higher than a pair of `top`. */
  predicate NoneLeftOutHigher(strengths: map<Category, int>, top: seq<TopicScore>) {
    forall c, t :: c in strengths && t in top && TopicScore(c, strengths[c]) !in top ==> strengths[c] <= t.score
  }

  /** No topic of the record left out of `top` scores lower than a pair of `top`. */
  predicate NoneLeftOutLower(strengths: map<Category, int>, top: seq<TopicScore>) {
    forall c, t :: c in strengths && t in top && TopicScore(c, strengths[c]) !in top ==> t.score <= strengths[c]
  }

  /**
   * `getTopStrengths`: the three highest-scoring topics, highest first, each
   * with its own score; no topic left out scores higher than one returned.
   */
  function GetTopStrengths(strengths: map<Category, int>): (top: seq<TopicScore>)
    ensures |top| == Min(3, |strengths|)
    ensures strengths.Keys == AllCategories ==> |top| == 3
    ensures ScoresDescending(top)
    ensures FromRecord(strengths, top)
    ensures DistinctTopics(top)
    ensures NoneLeftOutHigher(strengths, top)
  {
    var top := FirstThree(Entries(strengths), Descending);
    StrongestOfEntries(strengths, top);
    top
  }

  /**
   * `getTopWeaknesses`: the three lowest-scoring topics, lowest first, each
   * with its own score; no topic left out scores lower than one returned.
   */
  function GetTopWeaknesses(strengths: map<Category, int>): (top: seq<TopicScore>)
    ensures |top| == Min(3, |strengths|)
    ensures strengths.Keys == AllCategories ==> |top| == 3
    ensures ScoresAscending(top)
    ensures FromRecord(strengths, top)
    ensures DistinctTopics(top)
    ensures NoneLeftOutLower(strengths, top)
  {
    var top := FirstThree(Entries(strengths), Ascending);
    WeakestOfEntries(strengths, top);
    top
  }

  /** The first three entries by descending score, as `GetTopStrengths` promises them. */
  lemma StrongestOfEntries(strengths: map<Category, int>, top: seq<TopicScore>)
    requires top == FirstThree(Entries(strengths), Descending)
    ensures |top| == Min(3, |strengths|)
    ensures strengths.Keys == AllCategories ==> |top| == 3
    ensures ScoresDescending(top)
    ensures FromRecord(strengths, top)
    ensures DistinctTopics(top)
    ensures NoneLeftOutHigher(strengths, top)
  {
    FirstThreeOfEntries(strengths, Descending);
    AllCategoriesCount();
    LeftOutScoreNoHigher(strengths, top);
  }

  /** The first three entries by ascending score, as `GetTopWeaknesses` promises them. */
  lemma WeakestOfEntries(strengths: map<Category, int>, top: seq<TopicScore>)
    requires top == FirstThree(Entries(strengths), Ascending)
    ensures |top| == Min(3, |strengths|)
    ensures strengths.Keys == AllCategories ==> |top| == 3
    ensures ScoresAscending(top)
    ensures FromRecord(strengths, top)
    ensures DistinctTopics(top)
    ensures NoneLeftOutLower(strengths, top)
  {
    FirstThreeOfEntries(strengths, Ascending);
    AllCategoriesCount();
    LeftOutScoreNoLower(strengths, top);
  }

  lemma LeftOutScoreNoHigher(strengths: map<Category, int>, top: seq<TopicScore>)
    requires forall c, t :: (c in strengths && t in top && TopicScore(c, strengths[c]) !in top
      ==> Descending(t) <= Descending(TopicScore(c, strengths[c])))
    ensures NoneLeftOutHigher(strengths, top)
  {
  }

  lemma LeftOutScoreNoLower(strengths: map<Category, int>, top: seq<TopicScore>)
    requires forall c, t :: (c in strengths && t in top && TopicScore(c, strengths[c]) !in top
      ==> Ascending(t) <= Ascending(TopicScore(c, strengths[c])))
    ensures NoneLeftOutLower(strengths, top)
  {
  }

  lemma AllCategoriesCount()
    ensures |AllCategories| == 6
  {
    assert AllCategories == {Arrays, Strings, Dp, Trees, Graphs, Sorting};
  }

  /** There is one entry per key of the record. */
  lemma EntriesCount(strengths: map<Category, int>)
    ensures |Entries(strengths)| == |strengths|
  {
    CategoryOrderLists();
    EntriesInCount(CategoryOrder, strengths);
    assert (set c | c in CategoryOrder && c in strengths) == strengths.Keys;
  }

  /**
   * Ties are broken by the record's insertion order: among topics with the
   * same score, the strengths and weaknesses returned are the first ones of
   * arrays, strings, dp, trees, graphs, sorting.
   */
  lemma TiesKeepInsertionOrder(strengths: map<Category, int>, score: int)
    ensures Matching(GetTopStrengths(strengths), Descending, -score)
         <= Matching(Entries(strengths), Descending, -score)
    ensures Matching(GetTopWeaknesses(strengths), Ascending, score)
         <= Matching(Entries(strengths), Ascending, score)
  {
    FirstThreeSelects(Entries(strengths), Descending);
    FirstThreeSelects(Entries(strengths), Ascending);
  }

  // ---------------------------------------------------------------------------
  // Radar chart
  // ---------------------------------------------------------------------------

  /** One spoke of the radar chart: a subject, both users' scores and the scale maximum. */
  datatype RadarRow = RadarRow(subject: string, user1: Option<int>, user2: Option<int>, fullMark: int)

  /** The subjects of the six spokes, aligned with `CategoryOrder`. */
  const Subjects: seq<string> := ["Arrays", "Strings", "DP", "Trees", "Graphs", "Sorting"]

  /** A property read of the strengths record; None is JavaScript's `undefined`. */
  function Score(strengths: map<Category, int>, c: Category): Option<int> {
    if c in strengths then Some(strengths[c]) else None
  }

  /** `radarData`: six rows in the fixed subject order, each user's score copied unchanged. */
  function RadarData(strengths1: map<Category, int>, strengths2: map<Category, int>): (rows: seq<RadarRow>)
    ensures |rows| == |Subjects| == |CategoryOrder|
    ensures forall i :: 0 <= i < |rows| ==>
      && rows[i].subject == Subjects[i]
      && rows[i].fullMark == 100
      && rows[i].user1 == Score(strengths1, CategoryOrder[i])
      && rows[i].user2 == Score(strengths2, CategoryOrder[i])
  {
    [ RadarRow("Arrays", Score(strengths1, Arrays), Score(strengths2, Arrays), 100),
      RadarRow("Strings", Score(strengths1, Strings), Score(strengths2, Strings), 100),
      RadarRow("DP", Score(strengths1, Dp), Score(strengths2, Dp), 100),
      RadarRow("Trees", Score(strengths1, Trees), Score(strengths2, Trees), 100),
      RadarRow("Graphs", Score(strengths1, Graphs), Score(strengths2, Graphs), 100),
      RadarRow("Sorting", Score(strengths1, Sorting), Score(strengths2, Sorting), 100) ]
  }

  /**
   * For strengths as the aggregation produces them (six keys, scores in
   * [0, 100]) every spoke has both scores and neither exceeds the scale.
   */
  lemma RadarWithinFullMark(strengths1: map<Category, int>, strengths2: map<Category, int>)
    requires strengths1.Keys == AllCategories && strengths2.Keys == AllCategories
    requires forall c :: c in strengths1 ==> 0 <= strengths1[c] <= 100
    requires forall c :: c in strengths2 ==> 0 <= strengths2[c] <= 100
    ensures forall row :: row in RadarData(strengths1, strengths2) ==>
      && row.user1.Some? && 0 <= row.user1.value <= row.fullMark
      && row.user2.Some? && 0 <= row.user2.value <= row.fullMark
  {
  }
}
