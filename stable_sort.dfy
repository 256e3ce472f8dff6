/**
 * A stable sort by an integer key, the behaviour of JavaScript's
 * `Array.prototype.sort` with a numeric comparator `(a, b) => key(a) - key(b)`:
 * the result is ordered by key and elements with equal keys keep their
 * relative order. `SortBy` is the specification (an insertion sort that puts
 * each element after every element whose key is not larger); `SortInPlace`
 * does the same to an array.
 */
module StableSort {

  /** `s` is in non-decreasing key order. */
  predicate SortedBy<T>(s: seq<T>, key: T -> int) {
    forall i, j :: 0 <= i < j < |s| ==> key(s[i]) <= key(s[j])
  }

  /** Inserts `x` into `s` just after the last element whose key is at most `key(x)`. */
  function InsertBy<T>(s: seq<T>, x: T, key: T -> int): (r: seq<T>)
    ensures |r| == |s| + 1
    ensures multiset(r) == multiset(s) + multiset{x}
    decreases |s|
  {
    if |s| == 0 || key(s[|s| - 1]) <= key(x) then s + [x]
    else
      assert s == s[..|s| - 1] + [s[|s| - 1]];
      InsertBy(s[..|s| - 1], x, key) + [s[|s| - 1]]
  }

  /** The stable sort of `s` by `key`. */
  function SortBy<T>(s: seq<T>, key: T -> int): (r: seq<T>)
    ensures |r| == |s|
    ensures multiset(r) == multiset(s)
    ensures SortedBy(r, key)
    decreases |s|
  {
    if |s| == 0 then []
    else
      assert s == s[..|s| - 1] + [s[|s| - 1]];
      var sortedInit := SortBy(s[..|s| - 1], key);
      InsertBySorted(sortedInit, s[|s| - 1], key);
      InsertBy(sortedInit, s[|s| - 1], key)
  }

  /** Appending an element whose key bounds every key of a sorted sequence keeps it sorted. */
  lemma AppendSorted<T>(s: seq<T>, x: T, key: T -> int)
    requires SortedBy(s, key)
    requires forall e :: e in s ==> key(e) <= key(x)
    ensures SortedBy(s + [x], key)
  {
    var r := s + [x];
    forall i, j | 0 <= i < j < |r| ensures key(r[i]) <= key(r[j]) {
      if j == |s| {
        assert r[i] in s;
      } else {
        assert r[i] == s[i] && r[j] == s[j];
      }
    }
  }

  /** In a sorted sequence the last key bounds every key. */
  lemma LastIsLargest<T>(s: seq<T>, key: T -> int)
    requires SortedBy(s, key) && |s| > 0
    ensures forall e :: e in s ==> key(e) <= key(s[|s| - 1])
  {
    forall e | e in s ensures key(e) <= key(s[|s| - 1]) {
      var k :| 0 <= k < |s| && s[k] == e;
      if k < |s| - 1 {
        assert key(s[k]) <= key(s[|s| - 1]);
      }
    }
  }

  /** Inserting into a sorted sequence keeps it sorted. */
  lemma {:induction false} InsertBySorted<T>(s: seq<T>, x: T, key: T -> int)
    requires SortedBy(s, key)
    ensures SortedBy(InsertBy(s, x, key), key)
    decreases |s|
  {
    if |s| == 0 {
      AppendSorted(s, x, key);
    } else if key(s[|s| - 1]) <= key(x) {
      LastIsLargest(s, key);
      AppendSorted(s, x, key);
    } else {
      var init, last := s[..|s| - 1], s[|s| - 1];
      assert SortedBy(init, key);
      InsertBySorted(init, x, key);
      var r := InsertBy(init, x, key);
      LastIsLargest(s, key);
      forall e | e in r ensures key(e) <= key(last) {
        assert e in multiset(r);
        if e != x {
          assert e in multiset(init);
          assert e in s;
        }
      }
      AppendSorted(r, last, key);
    }
  }

  /** The elements of `s` whose key is `v`, in their order in `s`. */
  function Matching<T>(s: seq<T>, key: T -> int, v: int): seq<T>
    decreases |s|
  {
    if |s| == 0 then []
    else Matching(s[..|s| - 1], key, v) + (if key(s[|s| - 1]) == v then [s[|s| - 1]] else [])
  }

  lemma {:induction false} MatchingAppend<T>(a: seq<T>, b: seq<T>, key: T -> int, v: int)
    ensures Matching(a + b, key, v) == Matching(a, key, v) + Matching(b, key, v)
    decreases |b|
  {
    if |b| == 0 {
      assert a + b == a;
    } else {
      var bInit := b[..|b| - 1];
      assert (a + b)[..|a + b| - 1] == a + bInit;
      MatchingAppend(a, bInit, key, v);
    }
  }

  /** Inserting `x` appends it to the elements of its own key and moves nothing else among equals. */
  lemma {:induction false} InsertByMatching<T>(s: seq<T>, x: T, key: T -> int, v: int)
    ensures Matching(InsertBy(s, x, key), key, v)
         == Matching(s, key, v) + (if key(x) == v then [x] else [])
    decreases |s|
  {
    if |s| == 0 || key(s[|s| - 1]) <= key(x) {
      assert (s + [x])[..|s|] == s;
    } else {
      var init, last := s[..|s| - 1], s[|s| - 1];
      InsertByMatching(init, x, key, v);
      var r := InsertBy(init, x, key);
      assert (r + [last])[..|r|] == r;
    }
  }

  /**
   * Stability: for every key value, the elements with that key appear in
   * the sorted sequence in exactly the order they had in the input.
   */
  lemma {:induction false} SortByStable<T>(s: seq<T>, key: T -> int, v: int)
    ensures Matching(SortBy(s, key), key, v) == Matching(s, key, v)
    decreases |s|
  {
    if |s| > 0 {
      var init := s[..|s| - 1];
      SortByStable(init, key, v);
      InsertByMatching(SortBy(init, key), s[|s| - 1], key, v);
    }
  }

  /** Sorting a sequence that is already in key order changes nothing. */
  lemma {:induction false} SortByOfSorted<T>(s: seq<T>, key: T -> int)
    requires SortedBy(s, key)
    ensures SortBy(s, key) == s
    decreases |s|
  {
    if |s| > 0 {
      var init, last := s[..|s| - 1], s[|s| - 1];
      SortedInit(s, key);
      SortByOfSorted(init, key);
      InsertAfterLargest(init, last, key);
      assert s == init + [last];
    }
  }

  /** Dropping the last element keeps a sequence sorted, and that element's key is the largest. */
  lemma SortedInit<T>(s: seq<T>, key: T -> int)
    requires SortedBy(s, key) && |s| > 0
    ensures SortedBy(s[..|s| - 1], key)
    ensures |s| == 1 || key(s[|s| - 2]) <= key(s[|s| - 1])
  {
  }

  /** Inserting an element whose key is not below the last one appends it. */
  lemma InsertAfterLargest<T>(s: seq<T>, x: T, key: T -> int)
    requires |s| == 0 || key(s[|s| - 1]) <= key(x)
    ensures InsertBy(s, x, key) == s + [x]
  {
  }

  /** The elements matching `v` in a prefix of `s` are a prefix of those in `s`. */
  lemma MatchingPrefix<T>(s: seq<T>, k: nat, key: T -> int, v: int)
    requires k <= |s|
    ensures Matching(s[..k], key, v) <= Matching(s, key, v)
  {
    assert s == s[..k] + s[k..];
    MatchingAppend(s[..k], s[k..], key, v);
  }

  /** Moves `a[i]` left past every larger key of the prefix `a[..i]`, as `InsertBy` does. */
  method InsertLast<T>(a: array<T>, i: nat, key: T -> int)
    requires i < a.Length
    modifies a
    ensures a[..i + 1] == InsertBy(old(a[..i]), old(a[i]), key)
    ensures a[i + 1..] == old(a[i + 1..])
  {
    ghost var sorted := a[..i];
    ghost var initial := a[..];
    var x := a[i];
    var j := i;
    while j > 0 && key(a[j - 1]) > key(x)
      invariant 0 <= j <= i
      invariant forall k :: 0 <= k < j ==> a[k] == sorted[k]
      invariant forall k :: j < k <= i ==> a[k] == sorted[k - 1]
      invariant forall k :: i < k < a.Length ==> a[k] == initial[k]
      invariant forall k :: j <= k < i ==> key(sorted[k]) > key(x)
    {
      a[j] := a[j - 1];
      j := j - 1;
    }
    assert j == 0 || key(sorted[j - 1]) <= key(x);
    a[j] := x;
    InsertByAt(sorted, x, key, j);
    SplicedAt(a[..i + 1], sorted, x, j);
    SameSuffix(a[..], initial, i + 1);
  }

  /** Two sequences of one length that agree from `from` on have the same suffix there. */
  lemma SameSuffix<T>(b: seq<T>, c: seq<T>, from: nat)
    requires from <= |b| == |c|
    requires forall k :: from <= k < |b| ==> b[k] == c[k]
    ensures b[from..] == c[from..]
  {
  }

  /**
   * `InsertBy` puts `x` at `j` when the key before `j` is at most `key(x)`
   * and every key from `j` on is larger.
   */
  lemma {:induction false} InsertByAt<T>(sorted: seq<T>, x: T, key: T -> int, j: nat)
    requires j <= |sorted|
    requires j == 0 || key(sorted[j - 1]) <= key(x)
    requires forall k :: j <= k < |sorted| ==> key(sorted[k]) > key(x)
    ensures InsertBy(sorted, x, key) == sorted[..j] + [x] + sorted[j..]
    decreases |sorted|
  {
    if j < |sorted| {
      var init := sorted[..|sorted| - 1];
      assert key(sorted[|sorted| - 1]) > key(x);
      InsertByAt(init, x, key, j);
      SpliceAppend(sorted, x, j);
    } else {
      assert sorted[..j] == sorted && sorted[j..] == [];
    }
  }

  /** Splicing `x` in at `j` commutes with appending the last element after it. */
  lemma SpliceAppend<T>(s: seq<T>, x: T, j: nat)
    requires j < |s|
    ensures var init := s[..|s| - 1];
      init[..j] + [x] + init[j..] + [s[|s| - 1]] == s[..j] + [x] + s[j..]
  {
  }

  /** A sequence that agrees with `sorted` left of `j`, holds `x` at `j` and `sorted` shifted right after it. */
  lemma SplicedAt<T>(b: seq<T>, sorted: seq<T>, x: T, j: nat)
    requires j <= |sorted| && |b| == |sorted| + 1
    requires forall k :: 0 <= k < j ==> b[k] == sorted[k]
    requires b[j] == x
    requires forall k :: j < k < |b| ==> b[k] == sorted[k - 1]
    ensures b == sorted[..j] + [x] + sorted[j..]
  {
  }

  /** Stable insertion sort of an array by `key`, in place. */
  method SortInPlace<T>(a: array<T>, key: T -> int)
    modifies a
    ensures a[..] == SortBy(old(a[..]), key)
  {
    ghost var input := a[..];
    var i := 0;
    while i < a.Length
      invariant 0 <= i <= a.Length
      invariant a[..i] == SortBy(input[..i], key)
      invariant a[i..] == input[i..]
    {
      ghost var before := a[..];
      assert before[i] == input[i];
      InsertLast(a, i, key);
      SortByStep(input, i, key);
      SuffixKept(before, a[..], input, i);
      i := i + 1;
    }
    assert input[..a.Length] == input;
  }

  /** Sorting one more element of `s` inserts it into the sorted shorter prefix. */
  lemma SortByStep<T>(s: seq<T>, i: nat, key: T -> int)
    requires i < |s|
    ensures SortBy(s[..i + 1], key) == InsertBy(SortBy(s[..i], key), s[i], key)
  {
    var prefix := s[..i + 1];
    assert prefix[..i] == s[..i] && prefix[i] == s[i];
  }

  /** A suffix that one step left alone still matches the input. */
  lemma SuffixKept<T>(before: seq<T>, after: seq<T>, input: seq<T>, i: nat)
    requires i < |before| == |after| == |input|
    requires before[i..] == input[i..]
    requires after[i + 1..] == before[i + 1..]
    ensures after[i + 1..] == input[i + 1..]
  {
    assert before[i + 1..] == before[i..][1..];
    assert input[i + 1..] == input[i..][1..];
  }
}
