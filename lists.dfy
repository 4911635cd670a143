/** Sequence searches and edits shared by the models (`findIndex`, `splice(i, 1)`). */
module Lists {
  import opened Wrappers

  /** Index of the first element satisfying `p` (`Array.prototype.findIndex`, None for -1). */
  function FirstIndex<T>(s: seq<T>, p: T -> bool): (r: Option<nat>)
    ensures r.Some? ==> r.value < |s| && p(s[r.value]) && forall j :: 0 <= j < r.value ==> !p(s[j])
    ensures r.None? ==> forall j :: 0 <= j < |s| ==> !p(s[j])
    decreases |s|
  {
    if |s| == 0 then None
    else if p(s[0]) then Some(0)
    else
      match FirstIndex(s[1..], p)
      case None => None
      case Some(i) => Some(i + 1)
  }

  /** `splice(i, 1)`: the sequence without its element at `i`. */
  function RemoveAt<T>(s: seq<T>, i: nat): (r: seq<T>)
    requires i < |s|
    ensures |r| == |s| - 1
    ensures forall j :: 0 <= j < i ==> r[j] == s[j]
    ensures forall j :: i <= j < |r| ==> r[j] == s[j + 1]
  {
    s[..i] + s[i + 1..]
  }

  /** `filter`: the elements satisfying `p`, in order. */
  function Filter<T(!new)>(s: seq<T>, p: T -> bool): (r: seq<T>)
    ensures |r| <= |s|
    ensures forall x :: x in r <==> x in s && p(x)
    decreases |s|
  {
    if |s| == 0 then []
    else if p(s[0]) then [s[0]] + Filter(s[1..], p)
    else Filter(s[1..], p)
  }

  /** Filtering keeps the relative order: the result is a subsequence of the input. */
  lemma {:induction false} FilterAppend<T(!new)>(s: seq<T>, x: T, p: T -> bool)
    ensures Filter(s + [x], p) == Filter(s, p) + (if p(x) then [x] else [])
    decreases |s|
  {
    if |s| == 0 {
      assert s + [x] == [x];
    } else {
      assert (s + [x])[1..] == s[1..] + [x];
      FilterAppend(s[1..], x, p);
    }
  }

  /** Filtering twice by the same test is filtering once. */
  lemma {:induction false} FilterIdempotent<T(!new)>(s: seq<T>, p: T -> bool)
    ensures Filter(Filter(s, p), p) == Filter(s, p)
    decreases |s|
  {
    if |s| > 0 {
      FilterIdempotent(s[1..], p);
    }
  }

  /** Filtering keeps the length exactly when every element passes the test. */
  lemma {:induction false} FilterKeepsLength<T(!new)>(s: seq<T>, p: T -> bool)
    ensures |Filter(s, p)| == |s| <==> forall j :: 0 <= j < |s| ==> p(s[j])
    decreases |s|
  {
    if |s| > 0 {
      FilterKeepsLength(s[1..], p);
      if forall j :: 0 <= j < |s[1..]| ==> p(s[1..][j]) {
        assert forall j :: 0 < j < |s| ==> p(s[j]) by {
          forall j | 0 < j < |s| ensures p(s[j]) { assert s[j] == s[1..][j - 1]; }
        }
      }
    }
  }

  /** Filtering out nothing leaves the sequence as it is. */
  lemma {:induction false} FilterAll<T(!new)>(s: seq<T>, p: T -> bool)
    requires forall j :: 0 <= j < |s| ==> p(s[j])
    ensures Filter(s, p) == s
    decreases |s|
  {
    if |s| > 0 {
      FilterAll(s[1..], p);
    }
  }

  /**
   * When at most one element satisfies `p`, removing the first one that does
   * is the same as keeping exactly those that do not (`keep` is `!p`).
   */
  lemma {:induction false} RemoveOnlyMatch<T(!new)>(s: seq<T>, p: T -> bool, keep: T -> bool)
    requires forall x :: keep(x) == !p(x)
    requires FirstIndex(s, p).Some?
    requires forall j :: 0 <= j < |s| && p(s[j]) ==> j == FirstIndex(s, p).value
    ensures RemoveAt(s, FirstIndex(s, p).value) == Filter(s, keep)
    decreases |s|
  {
    var t := s[1..];
    if p(s[0]) {
      forall j | 0 <= j < |t| ensures keep(t[j]) {
        assert t[j] == s[j + 1];
      }
      FilterAll(t, keep);
    } else {
      var k := FirstIndex(t, p).value;
      forall j | 0 <= j < |t| && p(t[j]) ensures j == k {
        assert t[j] == s[j + 1];
      }
      RemoveOnlyMatch(t, p, keep);
      RemoveAfterHead(s, p, keep, k);
    }
  }

  lemma RemoveAfterHead<T(!new)>(s: seq<T>, p: T -> bool, keep: T -> bool, k: nat)
    requires forall x :: keep(x) == !p(x)
    requires |s| > 0 && !p(s[0])
    requires FirstIndex(s[1..], p) == Some(k)
    requires RemoveAt(s[1..], k) == Filter(s[1..], keep)
    ensures FirstIndex(s, p) == Some(k + 1)
    ensures RemoveAt(s, k + 1) == Filter(s, keep)
  {
    assert Filter(s, keep) == [s[0]] + Filter(s[1..], keep);
    assert RemoveAt(s, k + 1) == [s[0]] + RemoveAt(s[1..], k);
  }

  /** Non-increasing by `key`: the order of `sort((a, b) => key(b) - key(a))`. */
  predicate SortedDescBy<T>(s: seq<T>, key: T -> int) {
    forall i, j :: 0 <= i < j < |s| ==> key(s[i]) >= key(s[j])
  }

  /** Places `x` after every element whose key is at least its own, so equal keys keep their order. */
  function InsertDescBy<T>(x: T, s: seq<T>, key: T -> int): (r: seq<T>)
    requires SortedDescBy(s, key)
    ensures SortedDescBy(r, key)
    ensures multiset(r) == multiset(s) + multiset{x}
    decreases |s|
  {
    if |s| == 0 then [x]
    else if key(s[0]) < key(x) then [x] + s
    else
      var rest := InsertDescBy(x, s[1..], key);
      assert s == [s[0]] + s[1..];
      BoundedByHead(s[0], s[1..], x, rest, key);
      [s[0]] + rest
  }

  lemma BoundedByHead<T>(h: T, t: seq<T>, x: T, rest: seq<T>, key: T -> int)
    requires forall j :: 0 <= j < |t| ==> key(h) >= key(t[j])
    requires key(h) >= key(x)
    requires multiset(rest) == multiset(t) + multiset{x}
    ensures forall j :: 0 <= j < |rest| ==> key(h) >= key(rest[j])
  {
    forall j | 0 <= j < |rest| ensures key(h) >= key(rest[j]) {
      assert rest[j] in multiset(rest);
      if rest[j] != x {
        assert rest[j] in multiset(t);
      }
    }
  }

  /** A stable sort by descending key (insertion from the back keeps ties in order). */
  function SortDescBy<T>(s: seq<T>, key: T -> int): (r: seq<T>)
    ensures SortedDescBy(r, key)
    ensures multiset(r) == multiset(s)
    decreases |s|
  {
    if |s| == 0 then []
    else
      assert s == s[..|s| - 1] + [s[|s| - 1]];
      InsertDescBy(s[|s| - 1], SortDescBy(s[..|s| - 1], key), key)
  }

  /** In a sorted sequence, an element with a key above all others comes first. */
  lemma MaxFirst<T>(s: seq<T>, x: T, key: T -> int)
    requires SortedDescBy(s, key) && x in s
    requires forall y :: y in s ==> y == x || key(y) < key(x)
    ensures s[0] == x
  {
    var k :| 0 <= k < |s| && s[k] == x;
    assert s[0] in s;
  }

  /** An element occurring once, at the front, occurs nowhere else. */
  lemma OnlyAtFront<T>(s: seq<T>)
    requires |s| > 0 && multiset(s)[s[0]] == 1
    ensures forall k :: 0 < k < |s| ==> s[k] != s[0]
  {
    assert s == [s[0]] + s[1..];
    assert multiset(s[1..])[s[0]] == 0;
  }
}
