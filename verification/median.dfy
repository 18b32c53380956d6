// The baseline estimator: pkg/health/health.go, median.
module Median {

  ghost predicate IsSorted(s: seq<int>) {
    forall i, j :: 0 <= i < j < |s| ==> s[i] <= s[j]
  }

  // Go's integer division truncates toward zero.
  function TruncHalf(x: int): int {
    if x >= 0 then x / 2 else -((-x) / 2)
  }

  function InsertSorted(s: seq<int>, x: int): (r: seq<int>)
    ensures multiset(r) == multiset(s) + multiset{x}
  {
    if s == [] || x <= s[0] then
      [x] + s
    else
      assert s == [s[0]] + s[1..];
      [s[0]] + InsertSorted(s[1..], x)
  }

  lemma {:induction false} InsertKeepsSorted(s: seq<int>, x: int)
    requires IsSorted(s)
    ensures IsSorted(InsertSorted(s, x))
  {
    if s != [] && s[0] < x {
      var r := InsertSorted(s[1..], x);
      InsertKeepsSorted(s[1..], x);
      forall k | 0 <= k < |r| ensures s[0] <= r[k] {
        assert r[k] in multiset(r);
        assert r[k] in s[1..] || r[k] == x;
      }
      assert InsertSorted(s, x) == [s[0]] + r;
    }
  }

  // The sorted arrangement of a sequence.
  function SortSeq(s: seq<int>): (r: seq<int>)
    ensures IsSorted(r) && multiset(r) == multiset(s) && |r| == |s|
  {
    if s == [] then []
    else
      assert s == s[..|s| - 1] + [s[|s| - 1]];
      InsertKeepsSorted(SortSeq(s[..|s| - 1]), s[|s| - 1]);
      var r := InsertSorted(SortSeq(s[..|s| - 1]), s[|s| - 1]);
      assert |multiset(r)| == |r| && |multiset(s)| == |s|;
      r
  }

  function MedianOf(s: seq<int>): (m: int)
    ensures (forall i :: 0 <= i < |s| ==> 0 <= s[i]) ==> 0 <= m
  {
    if s == [] then 0
    else
      var t := SortSeq(s);
      assert forall i :: 0 <= i < |t| ==> t[i] in multiset(s);
      var mid := |t| / 2;
      if |t| % 2 == 0 then TruncHalf(t[mid - 1] + t[mid]) else t[mid]
  }

  lemma SameBag(a: seq<int>, b: seq<int>)
    requires multiset(a) == multiset(b)
    ensures |a| == |b| && forall x :: x in a <==> x in b
  {
    assert |a| == |multiset(a)| == |multiset(b)| == |b|;
    assert forall x :: x in a <==> x in multiset(a);
  }

  lemma SameTails(a: seq<int>, b: seq<int>)
    requires multiset(a) == multiset(b) && a != [] && b != [] && a[0] == b[0]
    ensures multiset(a[1..]) == multiset(b[1..])
  {
    assert a == [a[0]] + a[1..] && b == [b[0]] + b[1..];
    assert multiset(a[1..]) == multiset(a) - multiset{a[0]};
    assert multiset(b[1..]) == multiset(b) - multiset{b[0]};
  }

  // There is only one sorted arrangement of a bag of numbers.
  lemma {:induction false} SortedUnique(a: seq<int>, b: seq<int>)
    requires IsSorted(a) && IsSorted(b) && multiset(a) == multiset(b)
    ensures a == b
  {
    SameBag(a, b);
    if a != [] {
      assert a[0] in b && b[0] in a;
      SameTails(a, b);
      SortedUnique(a[1..], b[1..]);
    }
  }

  // sort.Slice on the copy.
  method SortInPlace(a: array<int>)
    modifies a
    ensures IsSorted(a[..]) && multiset(a[..]) == multiset(old(a[..]))
  {
    var i := 0;
    while i < a.Length
      invariant 0 <= i <= a.Length
      invariant forall p, q :: 0 <= p < q < i ==> a[p] <= a[q]
      invariant multiset(a[..]) == multiset(old(a[..]))
    {
      var j := i;
      while j > 0 && a[j - 1] > a[j]
        invariant 0 <= j <= i < a.Length
        invariant forall p, q :: 0 <= p < q <= i && q != j ==> a[p] <= a[q]
        invariant multiset(a[..]) == multiset(old(a[..]))
      {
        a[j - 1], a[j] := a[j], a[j - 1];
        j := j - 1;
      }
      i := i + 1;
    }
  }

  method NewSlice(s: seq<int>) returns (a: array<int>)
    ensures fresh(a) && a[..] == s
  {
    a := new int[|s|](i requires 0 <= i < |s| => s[i]);
    assert a[..] == s;
  }

  // The samples are copied before sorting, so the caller's slice is untouched:
  // this method has nothing to modify.
  method Compute(samples: array<int>) returns (m: int)
    ensures m == MedianOf(samples[..])
  {
    if samples.Length == 0 {
      return 0;
    }
    var sorted := NewSlice(samples[..]);
    SortInPlace(sorted);
    SortedUnique(sorted[..], SortSeq(samples[..]));
    var mid := sorted.Length / 2;
    if sorted.Length % 2 == 0 {
      return TruncHalf(sorted[mid - 1] + sorted[mid]);
    }
    return sorted[mid];
  }

  lemma PermutationInvariant(a: seq<int>, b: seq<int>)
    requires multiset(a) == multiset(b)
    ensures MedianOf(a) == MedianOf(b)
  {
    assert |a| == |multiset(a)| == |multiset(b)| == |b|;
    SortedUnique(SortSeq(a), SortSeq(b));
  }

  // Whatever sorted arrangement one looks at: the middle sample, or the midpoint
  // of the two middle ones, rounded toward zero.
  lemma MidpointOfMiddle(s: seq<int>, t: seq<int>)
    requires IsSorted(t) && multiset(t) == multiset(s) && s != []
    ensures |t| == |s|
    ensures |s| % 2 == 1 ==> MedianOf(s) == t[|s| / 2]
    ensures |s| % 2 == 0 ==>
      var sum := t[|s| / 2 - 1] + t[|s| / 2];
      if sum >= 0 then 2 * MedianOf(s) <= sum <= 2 * MedianOf(s) + 1
      else 2 * MedianOf(s) - 1 <= sum <= 2 * MedianOf(s)
  {
    SortedUnique(t, SortSeq(s));
  }

  // The numbers of samples that occur.
  lemma FewSamples(a: int, b: int)
    ensures MedianOf([]) == 0 && MedianOf([a]) == a
    ensures a + b >= 0 ==> 2 * MedianOf([a, b]) <= a + b <= 2 * MedianOf([a, b]) + 1
  {
    MidpointOfMiddle([a], [a]);
    var t := if a <= b then [a, b] else [b, a];
    assert multiset(t) == multiset([a, b]);
    MidpointOfMiddle([a, b], t);
  }

  // Of two slots of a bag that holds `others` and one more value, at least one
  // slot holds a member of `others`.
  lemma OneOfTwo(t: seq<int>, others: multiset<int>, v: int, i: nat, j: nat)
    requires multiset(t) == others + multiset{v}
    requires i < j < |t|
    ensures t[i] in others || t[j] in others
  {
    assert t[i] in multiset(t) && t[j] in multiset(t);
    if t[i] == v && t[j] == v {
      assert t == t[..j] + [t[j]] + t[j + 1..];
      assert t[i] in t[..j];
      assert multiset(t) == multiset(t[..j]) + multiset{v} + multiset(t[j + 1..]);
      assert v in multiset(t[..j]);
    }
  }

  // The two middle slots of a sorted bag of three or more stay inside the
  // range of all but one of its members.
  lemma MiddleWithinOthers(t: seq<int>, others: multiset<int>, v: int, lo: int, hi: int, k: nat)
    requires IsSorted(t) && multiset(t) == others + multiset{v}
    requires forall x :: x in others ==> lo <= x <= hi
    requires 1 <= k < |t| - 1
    ensures lo <= t[k] <= hi
  {
    OneOfTwo(t, others, v, k - 1, k);
    OneOfTwo(t, others, v, k, k + 1);
  }

  lemma {:induction false} MembersWithin(s: seq<int>, lo: int, hi: int)
    requires forall j :: 0 <= j < |s| ==> lo <= s[j] <= hi
    ensures forall x :: x in multiset(s) ==> lo <= x <= hi
  {
  }

  lemma UpdatedBag(s: seq<int>, i: nat, v: int)
    requires i < |s|
    ensures multiset(s[i := v]) == multiset(s[..i]) + multiset(s[i + 1..]) + multiset{v}
  {
    assert s[i := v] == s[..i] + [v] + s[i + 1..];
  }

  // Any single sample of three or more, however extreme, leaves the median
  // within the range of the remaining samples.
  lemma OutlierRobust(s: seq<int>, i: nat, v: int, lo: int, hi: int)
    requires |s| >= 3 && i < |s|
    requires forall j :: 0 <= j < |s| && j != i ==> lo <= s[j] <= hi
    ensures lo <= MedianOf(s[i := v]) <= hi
  {
    hide SortSeq;
    var before, after := s[..i], s[i + 1..];
    var others := multiset(before) + multiset(after);
    MembersWithin(before, lo, hi);
    MembersWithin(after, lo, hi);
    var t := SortSeq(s[i := v]);
    UpdatedBag(s, i, v);
    assert |t| == |s|;
    MedianWithinOthers(t, others, v, lo, hi);
  }

  lemma MedianWithinOthers(t: seq<int>, others: multiset<int>, v: int, lo: int, hi: int)
    requires IsSorted(t) && multiset(t) == others + multiset{v} && |t| >= 3
    requires forall x :: x in others ==> lo <= x <= hi
    ensures lo <= t[|t| / 2] <= hi
    ensures |t| % 2 == 0 ==> lo <= t[|t| / 2 - 1] <= hi
  {
    MiddleWithinOthers(t, others, v, lo, hi, |t| / 2);
    if |t| % 2 == 0 {
      MiddleWithinOthers(t, others, v, lo, hi, |t| / 2 - 1);
    }
  }

  // The median lies between any bounds on its samples, and is a sample or the
  // midpoint of two.
  lemma WithinSamples(s: seq<int>, lo: int, hi: int)
    requires s != []
    requires forall i :: 0 <= i < |s| ==> lo <= s[i] <= hi
    ensures lo <= MedianOf(s) <= hi
  {
    var t := SortSeq(s);
    forall i | 0 <= i < |t| ensures lo <= t[i] <= hi {
      assert t[i] in multiset(t);
      assert t[i] in multiset(s);
    }
  }
}
