/** The two array operations the resolvers are written with, `Array.prototype.find`
    and `Array.prototype.filter`, specialised to the one callback shape the
    resolvers pass them: "the element's key is strictly equal to k". The key is
    given as a function, so one definition serves both collections and every field
    that is searched on.
 */
module ArrayOps {

  /** An absent result: `find` returns `undefined` when nothing matches. */
  datatype Option<T> = None | Some(value: T)

  /** The index of the first element whose key is k, or None when there is none. */
  function FindIndex<T>(s: seq<T>, key: T -> int, k: int): (r: Option<nat>)
    ensures r.Some? ==> r.value < |s| && key(s[r.value]) == k
    ensures r.Some? ==> forall j :: 0 <= j < r.value ==> key(s[j]) != k
    ensures r.None? <==> forall j :: 0 <= j < |s| ==> key(s[j]) != k
  {
    if |s| == 0 then None
    else if key(s[0]) == k then Some(0)
    else match FindIndex(s[1..], key, k)
      case None => None
      case Some(i) => Some(i + 1)
  }

  /** `s.find(x => key(x) === k)`: the first element whose key is k, scanning in
      collection order, or None. */
  function Find<T>(s: seq<T>, key: T -> int, k: int): (r: Option<T>)
    ensures r.Some? ==> key(r.value) == k && r.value in s
    ensures r.Some? ==> exists i :: 0 <= i < |s| && s[i] == r.value && forall j :: 0 <= j < i ==> key(s[j]) != k
    ensures r.None? <==> forall x :: x in s ==> key(x) != k
  {
    match FindIndex(s, key, k)
    case None => None
    case Some(i) => Some(s[i])
  }

  /** `s.filter(x => key(x) === k)`: the elements whose key is k, in collection order. */
  function Filter<T(!new)>(s: seq<T>, key: T -> int, k: int): seq<T>
  {
    if |s| == 0 then []
    else
      var rest := Filter(s[1..], key, k);
      if key(s[0]) == k then [s[0]] + rest else rest
  }

  /** `filter` keeps exactly the matching elements. */
  lemma {:induction false} FilterMembers<T(!new)>(s: seq<T>, key: T -> int, k: int)
    ensures |Filter(s, key, k)| <= |s|
    ensures forall x :: x in Filter(s, key, k) <==> x in s && key(x) == k
  {
    if |s| > 0 {
      FilterMembers(s[1..], key, k);
    }
  }

  /** `filter` drops no match and duplicates none: each matching value occurs in the
      result as often as in s, and no other value occurs. */
  lemma {:induction false} FilterCounts<T(!new)>(s: seq<T>, key: T -> int, k: int)
    ensures forall x :: multiset(Filter(s, key, k))[x] == if key(x) == k then multiset(s)[x] else 0
  {
    if |s| > 0 {
      FilterCounts(s[1..], key, k);
      assert s == [s[0]] + s[1..];
    }
  }

  /** r occurs in s with its elements in the same relative order (greedy matching). */
  predicate IsSubsequence<T(==)>(r: seq<T>, s: seq<T>)
    decreases |s|
  {
    if |r| == 0 then true
    else if |s| == 0 then false
    else if r[0] == s[0] then IsSubsequence(r[1..], s[1..])
    else IsSubsequence(r, s[1..])
  }

  /** `filter` keeps the relative order of the elements it keeps. */
  lemma {:induction false} FilterIsSubsequence<T(!new)>(s: seq<T>, key: T -> int, k: int)
    ensures IsSubsequence(Filter(s, key, k), s)
  {
    if |s| > 0 {
      FilterIsSubsequence(s[1..], key, k);
      FilterMembers(s[1..], key, k);
      var rest := Filter(s[1..], key, k);
      if key(s[0]) != k && |rest| > 0 {
        assert rest[0] in rest;
        assert rest[0] != s[0];
      }
    }
  }

  /** `filter` works element by element: filtering a concatenation filters each part. */
  lemma {:induction false} FilterAppend<T(!new)>(a: seq<T>, b: seq<T>, key: T -> int, k: int)
    ensures Filter(a + b, key, k) == Filter(a, key, k) + Filter(b, key, k)
  {
    if |a| == 0 {
      assert a + b == b;
    } else {
      assert (a + b)[1..] == a[1..] + b;
      FilterAppend(a[1..], b, key, k);
    }
  }

  /** The first-match index is the one index whose element matches and follows only non-matches. */
  lemma FindIndexIsFirst<T>(s: seq<T>, key: T -> int, k: int, i: nat)
    requires i < |s| && key(s[i]) == k
    requires forall j :: 0 <= j < i ==> key(s[j]) != k
    ensures FindIndex(s, key, k) == Some(i)
  {
  }

  /** `find` on a concatenation finds in the first part, and only then in the second. */
  lemma FindAppend<T>(a: seq<T>, b: seq<T>, key: T -> int, k: int)
    ensures Find(a + b, key, k) == if Find(a, key, k).Some? then Find(a, key, k) else Find(b, key, k)
  {
    match FindIndex(a, key, k)
    case Some(i) =>
      FindIndexIsFirst(a + b, key, k, i);
    case None =>
      match FindIndex(b, key, k)
      case Some(j) =>
        FindIndexIsFirst(a + b, key, k, |a| + j);
      case None =>
        assert forall j :: 0 <= j < |a + b| ==> key((a + b)[j]) != k by {
          forall j | 0 <= j < |a + b| ensures key((a + b)[j]) != k {
            if j >= |a| { assert (a + b)[j] == b[j - |a|]; }
          }
        }
  }
}
