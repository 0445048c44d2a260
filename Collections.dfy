/**
 * The one list query the generator relies on for every lookup:
 * `singleOrNull { predicate }`, the element that alone satisfies the
 * predicate, or null when none or several do.
 */
module Collections {
  import opened Wrappers

  /** The elements of `s` that satisfy `p`, in order. */
  function Filter<T>(s: seq<T>, p: T -> bool): (r: seq<T>)
    ensures |r| <= |s|
    ensures forall k :: 0 <= k < |r| ==> r[k] in s && p(r[k])
    ensures forall k :: 0 <= k < |s| && p(s[k]) ==> s[k] in r
  {
    if s == [] then []
    else (if p(s[0]) then [s[0]] else []) + Filter(s[1..], p)
  }

  /** `singleOrNull`: the element when exactly one entry satisfies `p`. */
  function SingleOrNull<T>(s: seq<T>, p: T -> bool): (r: Option<T>)
    ensures r.Some? <==> |Filter(s, p)| == 1
    ensures r.Some? ==> r.value in s && p(r.value)
    ensures r.Some? ==> forall k :: 0 <= k < |s| && p(s[k]) ==> s[k] == r.value
    ensures r.None? ==> (forall k :: 0 <= k < |s| ==> !p(s[k])) || TwoSatisfy(s, p)
  {
    var f := Filter(s, p);
    FilterCountsTwo(s, p);
    if |f| == 1 then
      assert f[0] in f;
      assert forall k :: 0 <= k < |s| && p(s[k]) ==> s[k] in f;
      Some(f[0])
    else None
  }

  /** At least two positions of `s` satisfy `p`. */
  predicate TwoSatisfy<T>(s: seq<T>, p: T -> bool)
  {
    exists i, j :: 0 <= i < j < |s| && p(s[i]) && p(s[j])
  }

  lemma {:induction false} FilterCountsTwo<T>(s: seq<T>, p: T -> bool)
    ensures |Filter(s, p)| >= 2 ==> TwoSatisfy(s, p)
  {
    if s != [] && |Filter(s, p)| >= 2 {
      var rest := Filter(s[1..], p);
      FilterCountsTwo(s[1..], p);
      if p(s[0]) {
        assert rest[0] in s[1..];
        var j :| 0 <= j < |s[1..]| && s[1..][j] == rest[0];
        assert p(s[0]) && p(s[j + 1]);
      } else {
        var i, j :| 0 <= i < j < |s[1..]| && p(s[1..][i]) && p(s[1..][j]);
        assert p(s[i + 1]) && p(s[j + 1]);
      }
    }
  }

  /** Filtering keeps exactly the multiplicities of the satisfying values. */
  lemma {:induction false} FilterMultiset<T>(s: seq<T>, p: T -> bool)
    ensures forall x :: multiset(Filter(s, p))[x] == if p(x) then multiset(s)[x] else 0
  {
    if s != [] {
      FilterMultiset(s[1..], p);
      assert s == [s[0]] + s[1..];
      assert multiset(s) == multiset{s[0]} + multiset(s[1..]);
    }
  }

  /** `singleOrNull` does not depend on the order of the list it searches. */
  lemma SingleOrNullPermutation<T>(s1: seq<T>, s2: seq<T>, p: T -> bool)
    requires multiset(s1) == multiset(s2)
    ensures SingleOrNull(s1, p) == SingleOrNull(s2, p)
  {
    FilterPermutation(s1, s2, p);
    SameSingleton(Filter(s1, p), Filter(s2, p));
  }

  lemma FilterPermutation<T>(s1: seq<T>, s2: seq<T>, p: T -> bool)
    requires multiset(s1) == multiset(s2)
    ensures multiset(Filter(s1, p)) == multiset(Filter(s2, p))
  {
    FilterMultiset(s1, p);
    FilterMultiset(s2, p);
    var f1, f2 := Filter(s1, p), Filter(s2, p);
    forall x ensures multiset(f1)[x] == multiset(f2)[x] { }
  }

  lemma SameSingleton<T>(f1: seq<T>, f2: seq<T>)
    requires multiset(f1) == multiset(f2)
    ensures |f1| == 1 <==> |f2| == 1
    ensures |f1| == 1 ==> f1[0] == f2[0]
  {
    assert |f1| == |multiset(f1)| && |f2| == |multiset(f2)|;
    if |f1| == 1 {
      assert f1 == [f1[0]] && f2 == [f2[0]];
      assert multiset(f1) == multiset{f1[0]};
      assert f2[0] in multiset(f2);
    }
  }

  /** The position of the first element satisfying `p`, or `|s|` when none does. */
  function FirstIndex<T>(s: seq<T>, p: T -> bool): (k: nat)
    ensures k <= |s|
    ensures forall j :: 0 <= j < k ==> !p(s[j])
    ensures k < |s| ==> p(s[k])
  {
    if s == [] then 0
    else if p(s[0]) then 0
    else 1 + FirstIndex(s[1..], p)
  }

  /** Filtering distributes over concatenation, so it keeps the order of the input. */
  lemma {:induction false} FilterAppend<T>(a: seq<T>, b: seq<T>, p: T -> bool)
    ensures Filter(a + b, p) == Filter(a, p) + Filter(b, p)
  {
    if a == [] {
      assert a + b == b;
    } else {
      assert (a + b)[1..] == a[1..] + b;
      FilterAppend(a[1..], b, p);
    }
  }

  /** The position of the first failed outcome, or `|rs|` when every outcome succeeded. */
  function FirstFailure<T, E>(rs: seq<Result<T, E>>): (k: nat)
    ensures k <= |rs|
    ensures forall j :: 0 <= j < k ==> rs[j].Success?
    ensures k < |rs| ==> rs[k].Failure?
  {
    if rs == [] then 0
    else if rs[0].Failure? then 0
    else 1 + FirstFailure(rs[1..])
  }

  /** Where the first failure lies, once outcome `i` is known, given that none comes before it. */
  lemma FirstFailureStep<T, E>(rs: seq<Result<T, E>>, i: nat)
    requires i < |rs| && FirstFailure(rs) >= i
    ensures rs[i].Failure? ==> FirstFailure(rs) == i
    ensures rs[i].Success? ==> FirstFailure(rs) >= i + 1
  {
  }

  /** The values of the outcomes before the first failure, in order. */
  function SuccessPrefix<T, E>(rs: seq<Result<T, E>>): (r: seq<T>)
    ensures |r| == FirstFailure(rs)
    ensures forall i :: 0 <= i < |r| ==> rs[i] == Success(r[i])
  {
    if rs == [] || rs[0].Failure? then [] else [rs[0].value] + SuccessPrefix(rs[1..])
  }

  /** The error of the first failure, if any. */
  function FirstError<T, E>(rs: seq<Result<T, E>>): (r: Option<E>)
    ensures r.None? <==> forall i :: 0 <= i < |rs| ==> rs[i].Success?
    ensures r.Some? ==> FirstFailure(rs) < |rs| && rs[FirstFailure(rs)] == Failure(r.value)
  {
    var k := FirstFailure(rs);
    if k < |rs| then Some(rs[k].error) else None
  }

  /** A success reached before any failure is the next value of the prefix. */
  lemma SuccessPrefixNext<T, E>(rs: seq<Result<T, E>>, j: nat)
    requires j < |rs| && j <= FirstFailure(rs) && rs[j].Success?
    ensures j < FirstFailure(rs)
    ensures SuccessPrefix(rs)[..j + 1] == SuccessPrefix(rs)[..j] + [rs[j].value]
  {
    FirstFailureStep(rs, j);
    var c := SuccessPrefix(rs);
    assert c[..j + 1] == c[..j] + [c[j]];
  }

  /** A failure reached before any other ends the prefix. */
  lemma SuccessPrefixStop<T, E>(rs: seq<Result<T, E>>, j: nat)
    requires j < |rs| && j <= FirstFailure(rs) && rs[j].Failure?
    ensures FirstFailure(rs) == j
    ensures SuccessPrefix(rs)[..j] == SuccessPrefix(rs)
  {
    FirstFailureStep(rs, j);
  }
}
