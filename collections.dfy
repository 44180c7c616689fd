/** Sequence operations with the MongoDB semantics the routes use:
  * `findOne` finds the first document matching a filter, `find` keeps all
  * matches in order, and `updateOne` rewrites the first match only. */
module Collections {
  import opened Wrappers

  function FirstIndex<T>(s: seq<T>, p: T -> bool): (r: Option<nat>)
    ensures r.Some? ==> r.value < |s| && p(s[r.value]) && forall j :: 0 <= j < r.value ==> !p(s[j])
    ensures r.None? <==> forall j :: 0 <= j < |s| ==> !p(s[j])
  {
    if |s| == 0 then None
    else if p(s[0]) then Some(0)
    else
      var r := FirstIndex(s[1..], p);
      assert forall j :: 1 <= j < |s| ==> s[j] == s[1..][j - 1];
      match r
      case None => None
      case Some(i) => Some(i + 1)
  }

  /** `findOne(filter)`. */
  function FindFirst<T>(s: seq<T>, p: T -> bool): (r: Option<T>)
    ensures r.Some? <==> exists j :: 0 <= j < |s| && p(s[j])
    ensures r.Some? ==> r.value in s && p(r.value)
  {
    match FirstIndex(s, p)
    case None => None
    case Some(i) => Some(s[i])
  }

  /** `find(filter)`: the matching documents, in stored order
    * (`FilterCounts` and `FilterAppend` say how often and in what order). */
  function Filter<T(==,!new)>(s: seq<T>, p: T -> bool): (r: seq<T>)
    ensures |r| <= |s|
    ensures forall i :: 0 <= i < |r| ==> r[i] in s && p(r[i])
    ensures forall i :: 0 <= i < |s| && p(s[i]) ==> s[i] in r
  {
    if |s| == 0 then []
    else
      var rest := Filter(s[1..], p);
      assert forall i :: 1 <= i < |s| ==> s[i] == s[1..][i - 1];
      if p(s[0]) then [s[0]] + rest else rest
  }

  /** Every match is kept as often as it is stored, and nothing else. */
  lemma {:induction false} FilterCounts<T(!new)>(s: seq<T>, p: T -> bool)
    ensures forall x :: multiset(Filter(s, p))[x] == if p(x) then multiset(s)[x] else 0
  {
    if |s| > 0 {
      FilterCounts(s[1..], p);
      assert s == [s[0]] + s[1..];
    }
  }

  /** The matches keep their stored order: those of a front part come
    * first, in the front part's order. */
  lemma {:induction false} FilterAppend<T(!new)>(a: seq<T>, b: seq<T>, p: T -> bool)
    ensures Filter(a + b, p) == Filter(a, p) + Filter(b, p)
  {
    if |a| > 0 {
      assert (a + b)[1..] == a[1..] + b;
      FilterAppend(a[1..], b, p);
    } else {
      assert a + b == b;
    }
  }

  /** A filter every element passes keeps the whole sequence. */
  lemma {:induction false} FilterAll<T(!new)>(s: seq<T>, p: T -> bool)
    requires forall i :: 0 <= i < |s| ==> p(s[i])
    ensures Filter(s, p) == s
  {
    if |s| > 0 {
      assert forall i :: 1 <= i < |s| ==> s[i] == s[1..][i - 1];
      FilterAll(s[1..], p);
      assert s == [s[0]] + s[1..];
    }
  }

  /** An index argument of `Array.prototype.slice`: a negative one counts
    * from the end, and both are clamped to the bounds. */
  function SliceBound(x: int, n: nat): (b: nat)
    ensures b <= n
    ensures 0 <= x <= n ==> b == x
  {
    if x < 0 then (if n + x < 0 then 0 else n + x) else if x > n then n else x
  }

  /** `s.slice(start, end)`. */
  function Slice<T>(s: seq<T>, start: int, end: int): (r: seq<T>)
    ensures 0 <= start <= end <= |s| ==> r == s[start..end]
    ensures |r| <= |s|
  {
    var a := SliceBound(start, |s|);
    var b := SliceBound(end, |s|);
    if a <= b then s[a..b] else []
  }

  /** `updateOne(filter, update)`: only the first match is rewritten. */
  function UpdateFirst<T>(s: seq<T>, p: T -> bool, f: T -> T): (r: seq<T>)
    ensures |r| == |s|
    ensures FirstIndex(s, p).None? ==> r == s
    ensures FirstIndex(s, p).Some? ==>
      var i := FirstIndex(s, p).value;
      r[i] == f(s[i]) && forall j :: 0 <= j < |s| && j != i ==> r[j] == s[j]
  {
    match FirstIndex(s, p)
    case None => s
    case Some(i) => s[i := f(s[i])]
  }

  /** Occurrences of `x` in `s`. */
  function Count<T(==)>(s: seq<T>, x: T): nat
  {
    if |s| == 0 then 0 else (if s[0] == x then 1 else 0) + Count(s[1..], x)
  }

  lemma {:induction false} CountAppend<T>(a: seq<T>, b: seq<T>, x: T)
    ensures Count(a + b, x) == Count(a, x) + Count(b, x)
  {
    if |a| > 0 {
      assert (a + b)[1..] == a[1..] + b;
      CountAppend(a[1..], b, x);
    } else {
      assert a + b == b;
    }
  }

  lemma {:induction false} CountZero<T>(s: seq<T>, x: T)
    ensures Count(s, x) == 0 <==> x !in s
  {
    if |s| > 0 {
      CountZero(s[1..], x);
      assert x in s <==> s[0] == x || x in s[1..];
    }
  }

  /** MongoDB's `$pull` of a value from an array: every occurrence goes. */
  function PullAll<T(==,!new)>(s: seq<T>, x: T): (r: seq<T>)
    ensures x !in r
    ensures forall i :: 0 <= i < |r| ==> r[i] in s
    ensures forall i :: 0 <= i < |s| && s[i] != x ==> s[i] in r
    ensures |r| <= |s|
    ensures forall y :: multiset(r)[y] == if y == x then 0 else multiset(s)[y]
  {
    if |s| == 0 then []
    else
      var rest := PullAll(s[1..], x);
      assert forall i :: 1 <= i < |s| ==> s[i] == s[1..][i - 1];
      assert s == [s[0]] + s[1..];
      if s[0] == x then rest else [s[0]] + rest
  }

  /** The values that stay keep their order. */
  lemma {:induction false} PullAllAppend<T(!new)>(a: seq<T>, b: seq<T>, x: T)
    ensures PullAll(a + b, x) == PullAll(a, x) + PullAll(b, x)
  {
    if |a| > 0 {
      assert (a + b)[1..] == a[1..] + b;
      PullAllAppend(a[1..], b, x);
    } else {
      assert a + b == b;
    }
  }

  /** Pulling a value the array does not hold leaves it as it was. */
  lemma {:induction false} PullAbsentKeepsAll<T(!new)>(s: seq<T>, x: T)
    requires x !in s
    ensures PullAll(s, x) == s
  {
    if |s| > 0 {
      PullAbsentKeepsAll(s[1..], x);
      assert s == [s[0]] + s[1..];
    }
  }
}
