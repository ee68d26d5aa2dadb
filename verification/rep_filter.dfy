/**
 Region affinity when a sales representative is assigned to a sale:
 the representatives whose region equals the customer's region are kept,
 in their original order, and the choice is made among them; only when
 none matches is the whole representative list used instead.
 */
module RepFilter {
  import opened Schema

  /** `a` can be obtained from `b` by deleting elements (order kept). */
  predicate IsSubsequence<T(==)>(a: seq<T>, b: seq<T>)
    decreases |b|
  {
    if |a| == 0 then true
    else if |b| == 0 then false
    else (a[0] == b[0] && IsSubsequence(a[1..], b[1..])) || IsSubsequence(a, b[1..])
  }

  /** Some representative works in `region`. */
  predicate HasMatch(reps: seq<RegionRow>, region: Region)
  {
    exists r :: r in reps && r.region == region
  }

  /**
   The representatives whose region equals the customer's: exactly those of
   `region`, each as often as it occurs, in list order.
   */
  function MatchingReps(reps: seq<RegionRow>, region: Region): (m: seq<RegionRow>)
    ensures forall r :: r in m <==> r in reps && r.region == region
    ensures forall r :: multiset(m)[r] == if r.region == region then multiset(reps)[r] else 0
    ensures IsSubsequence(m, reps)
    ensures |m| <= |reps|
  {
    if |reps| == 0 then []
    else
      var rest := MatchingReps(reps[1..], region);
      assert reps == [reps[0]] + reps[1..];
      if reps[0].region == region then [reps[0]] + rest else rest
  }

  /** The list the representative is drawn from: the matches, or else everyone. */
  function SelectionPool(reps: seq<RegionRow>, region: Region): (pool: seq<RegionRow>)
    ensures forall r :: r in pool <==> r in reps && (HasMatch(reps, region) ==> r.region == region)
    ensures |pool| > 0 <==> |reps| > 0
    ensures !HasMatch(reps, region) ==> pool == reps
  {
    var matching := MatchingReps(reps, region);
    HasMatchIffMatching(reps, region);
    if |matching| > 0 then matching else reps
  }

  /** The list has a match exactly when the filter keeps something. */
  lemma HasMatchIffMatching(reps: seq<RegionRow>, region: Region)
    ensures HasMatch(reps, region) <==> |MatchingReps(reps, region)| > 0
  {
  }

  /** A subsequence made only of `region`'s representatives is no longer than the filter. */
  lemma {:induction false} MatchingSubsequenceBound(reps: seq<RegionRow>, region: Region, m: seq<RegionRow>)
    requires IsSubsequence(m, reps)
    requires forall r :: r in m ==> r.region == region
    ensures |m| <= |MatchingReps(reps, region)|
    decreases |reps|
  {
    if |m| == 0 {
    } else {
      assert |reps| > 0;
      if m[0] == reps[0] && IsSubsequence(m[1..], reps[1..]) {
        assert m[0] in m;
        MatchingSubsequenceBound(reps[1..], region, m[1..]);
      } else {
        MatchingSubsequenceBound(reps[1..], region, m);
      }
    }
  }

  /**
   The filter is the only order-preserving selection of `region`'s
   representatives that keeps as many of them as there are.
   */
  lemma {:induction false} MatchingRepsUnique(reps: seq<RegionRow>, region: Region, m: seq<RegionRow>)
    requires IsSubsequence(m, reps)
    requires forall r :: r in m ==> r.region == region
    requires |m| == |MatchingReps(reps, region)|
    ensures m == MatchingReps(reps, region)
    decreases |reps|
  {
    if |reps| == 0 {
    } else if |m| == 0 {
      if reps[0].region == region {
        assert false;
      } else {
        MatchingRepsUnique(reps[1..], region, m);
      }
    } else if m[0] == reps[0] && IsSubsequence(m[1..], reps[1..]) {
      assert m[0] in m;
      assert reps[0].region == region;
      MatchingRepsUnique(reps[1..], region, m[1..]);
      assert m == [m[0]] + m[1..];
    } else {
      assert IsSubsequence(m, reps[1..]);
      MatchingSubsequenceBound(reps[1..], region, m);
      if reps[0].region == region {
        assert false;
      } else {
        MatchingRepsUnique(reps[1..], region, m);
      }
    }
  }
}
