/** The array operations the stores use on records keyed by an id:
    `findIndex(x => key(x) === k)` and `filter(x => key(x) !== k)`. */
module Lists {
  import opened Wrappers

  /** `findIndex`: the position of the first element whose key is `k`, None for -1. */
  function FirstIndex<T, K(==)>(s: seq<T>, key: T -> K, k: K): (r: Option<nat>)
    ensures r.Some? ==> r.value < |s| && key(s[r.value]) == k
    ensures r.Some? ==> forall i | 0 <= i < r.value :: key(s[i]) != k
    ensures r.None? <==> forall i | 0 <= i < |s| :: key(s[i]) != k
    decreases |s|
  {
    if s == [] then None
    else if key(s[0]) == k then Some(0)
    else match FirstIndex(s[1..], key, k)
      case None => None
      case Some(j) => Some(j + 1)
  }

  /** `filter(x => key(x) !== k)`. */
  function RemoveAll<T, K(==)>(s: seq<T>, key: T -> K, k: K): (r: seq<T>)
    ensures |r| <= |s|
    ensures forall i | 0 <= i < |r| :: r[i] in s && key(r[i]) != k
    ensures forall i | 0 <= i < |s| :: key(s[i]) != k ==> s[i] in r
    decreases |s|
  {
    if s == [] then []
    else if key(s[0]) == k then RemoveAll(s[1..], key, k)
    else [s[0]] + RemoveAll(s[1..], key, k)
  }

  /** `findIndex` followed by an in-place change of the element found (`Object.assign`
      on it, or `+= 1` on one of its fields): only the first element whose key is `k`
      becomes `f` of itself, and nothing changes when no element has that key. */
  function UpdateFirst<T, K(==)>(s: seq<T>, key: T -> K, k: K, f: T -> T): (r: seq<T>)
    ensures |r| == |s|
    ensures match FirstIndex(s, key, k)
      case None => r == s
      case Some(i) => r[i] == f(s[i]) && forall j | 0 <= j < |s| && j != i :: r[j] == s[j]
    decreases |s|
  {
    if s == [] then []
    else if key(s[0]) == k then [f(s[0])] + s[1..]
    else [s[0]] + UpdateFirst(s[1..], key, k, f)
  }

  /** `r` is `s` with some elements deleted and the rest in their original order. */
  ghost predicate IsSubsequence<T>(r: seq<T>, s: seq<T>)
    decreases |s|
  {
    if r == [] then true
    else if s == [] then false
    else if r[0] == s[0] then IsSubsequence(r[1..], s[1..])
    else IsSubsequence(r, s[1..])
  }

  /** The filter keeps the other elements in their original order. */
  lemma {:induction false} RemoveAllKeepsOrder<T, K>(s: seq<T>, key: T -> K, k: K)
    ensures IsSubsequence(RemoveAll(s, key, k), s)
    decreases |s|
  {
    if s != [] {
      var rest := RemoveAll(s[1..], key, k);
      RemoveAllKeepsOrder(s[1..], key, k);
      if key(s[0]) == k {
        SubsequenceOfTail(rest, s);
      } else {
        assert ([s[0]] + rest)[1..] == rest;
      }
    }
  }

  /** The filter keeps every other element with its multiplicity. */
  lemma {:induction false} RemoveAllKeepsCount<T, K>(s: seq<T>, key: T -> K, k: K, x: T)
    requires key(x) != k
    ensures multiset(RemoveAll(s, key, k))[x] == multiset(s)[x]
    decreases |s|
  {
    if s != [] {
      RemoveAllKeepsCount(s[1..], key, k, x);
      assert s == [s[0]] + s[1..];
      assert multiset(s) == multiset([s[0]]) + multiset(s[1..]);
      if key(s[0]) != k {
        var rest := RemoveAll(s[1..], key, k);
        assert multiset([s[0]] + rest) == multiset([s[0]]) + multiset(rest);
      }
    }
  }

  /** With no element carrying the key, the filter returns the sequence unchanged. */
  lemma {:induction false} RemoveAllAbsent<T, K>(s: seq<T>, key: T -> K, k: K)
    requires forall i | 0 <= i < |s| :: key(s[i]) != k
    ensures RemoveAll(s, key, k) == s
    decreases |s|
  {
    if s != [] {
      RemoveAllAbsent(s[1..], key, k);
      assert [s[0]] + s[1..] == s;
    }
  }

  /** Filtering distributes over concatenation. */
  lemma {:induction false} RemoveAllConcat<T, K>(a: seq<T>, b: seq<T>, key: T -> K, k: K)
    ensures RemoveAll(a + b, key, k) == RemoveAll(a, key, k) + RemoveAll(b, key, k)
    decreases |a|
  {
    if a == [] {
      assert a + b == b;
    } else {
      assert (a + b)[1..] == a[1..] + b;
      RemoveAllConcat(a[1..], b, key, k);
    }
  }

  lemma {:induction false} SubsequenceOfTail<T>(r: seq<T>, s: seq<T>)
    requires s != [] && IsSubsequence(r, s[1..])
    ensures IsSubsequence(r, s)
    decreases |s|, 0
  {
    if r != [] && r[0] == s[0] {
      SubsequenceDropHead(r, s[1..]);
    }
  }

  lemma {:induction false} SubsequenceDropHead<T>(r: seq<T>, s: seq<T>)
    requires r != [] && IsSubsequence(r, s)
    ensures IsSubsequence(r[1..], s)
    decreases |s|, 1
  {
    if r[0] == s[0] {
      if s[1..] != [] {
        SubsequenceOfTail(r[1..], s);
      } else {
        assert r[1..] == [] by { assert IsSubsequence(r[1..], s[1..]); }
      }
    } else {
      SubsequenceDropHead(r, s[1..]);
      SubsequenceOfTail(r[1..], s);
    }
  }
}
