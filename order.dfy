/**
 * Order statistics used by the rolling median of the Hampel filter: a sorted
 * copy of a window and its median (the middle sample, or the average of the
 * two middle samples when the count is even, as pandas computes it).
 */
module Order {
  import opened Basics

  ghost predicate Sorted(s: seq<real>)
  {
    forall i, j :: 0 <= i < j < |s| ==> s[i] <= s[j]
  }

  function Insert(x: real, s: seq<real>): (r: seq<real>)
    requires Sorted(s)
    ensures Sorted(r)
    ensures |r| == |s| + 1
    ensures multiset(r) == multiset(s) + multiset{x}
    ensures r[0] == if s != [] && s[0] < x then s[0] else x
  {
    if s == [] then [x]
    else if x <= s[0] then [x] + s
    else
      var t := Insert(x, s[1..]);
      assert s == [s[0]] + s[1..];
      assert multiset([s[0]] + t) == multiset{s[0]} + multiset(t);
      ConsSorted(s[0], t);
      [s[0]] + t
  }

  /** A sorted sequence stays sorted under a head no larger than its first element. */
  lemma {:induction false} ConsSorted(a: real, t: seq<real>)
    requires Sorted(t)
    requires t != [] ==> a <= t[0]
    ensures Sorted([a] + t)
  {
    var r := [a] + t;
    forall i, j | 0 <= i < j < |r| ensures r[i] <= r[j] {
      if i == 0 {
        assert t[0] <= t[j - 1];
      }
    }
  }

  /** Insertion sort: an ordered permutation of its input. */
  function Sort(s: seq<real>): (r: seq<real>)
    ensures Sorted(r)
    ensures |r| == |s|
    ensures multiset(r) == multiset(s)
  {
    if s == [] then []
    else
      assert s == s[..|s| - 1] + [s[|s| - 1]];
      Insert(s[|s| - 1], Sort(s[..|s| - 1]))
  }

  /**
   * The median as pandas computes it: the middle sample of the sorted window,
   * or the average of the two middle samples when the count is even. Either
   * way it lies between the lower and the upper middle of the sorted order.
   */
  function Median(s: seq<real>): (r: real)
    requires |s| > 0
    ensures Sort(s)[(|s| - 1) / 2] <= r <= Sort(s)[|s| / 2]
    ensures |s| % 2 == 1 ==> r == Sort(s)[|s| / 2]
  {
    var t := Sort(s);
    var m := |t| / 2;
    MiddleIndices(|t|);
    if |t| % 2 == 1 then t[m] else
      MiddlePairAverage(t, m);
      (t[m - 1] + t[m]) / 2.0
  }

  /** The average of two neighbours of a sorted sequence lies between them. */
  lemma MiddlePairAverage(t: seq<real>, m: nat)
    requires Sorted(t) && 1 <= m < |t|
    ensures t[m - 1] <= (t[m - 1] + t[m]) / 2.0 <= t[m]
  {
    AverageBetween(t[m - 1], t[m]);
  }

  /** The lower and upper middle positions coincide for an odd count and are adjacent for an even one. */
  lemma MiddleIndices(n: nat)
    requires n > 0
    ensures n % 2 == 1 ==> (n - 1) / 2 == n / 2
    ensures n % 2 == 0 ==> (n - 1) / 2 == n / 2 - 1 && n / 2 >= 1
  {
  }

  lemma AverageBetween(a: real, b: real)
    requires a <= b
    ensures a <= (a + b) / 2.0 <= b
  {
  }

  lemma {:induction false} CountAtMostLength(u: seq<real>, c: real)
    ensures multiset(u)[c] <= |u|
  {
    if u != [] {
      assert u == u[..|u| - 1] + [u[|u| - 1]];
      CountAtMostLength(u[..|u| - 1], c);
    }
  }

  /** Counting the occurrences of `c` on either side of position `p` of a sorted sequence. */
  lemma CountAroundPosition(t: seq<real>, c: real, p: nat)
    requires Sorted(t)
    requires p < |t|
    ensures t[p] < c ==> multiset(t)[c] <= |t| - 1 - p
    ensures t[p] > c ==> multiset(t)[c] <= p
  {
    assert t == t[..p] + t[p..];
    assert t == t[..p + 1] + t[p + 1..];
    if t[p] < c {
      assert c !in t[..p + 1];
      CountAtMostLength(t[p + 1..], c);
      assert multiset(t)[c] == multiset(t[..p + 1])[c] + multiset(t[p + 1..])[c];
    } else if t[p] > c {
      assert c !in t[p..];
      CountAtMostLength(t[..p], c);
      assert multiset(t)[c] == multiset(t[..p])[c] + multiset(t[p..])[c];
    }
  }

  /**
   * In a sorted sequence, a value occurring in more than `p` places and in
   * more than `|t| - 1 - p` places must sit at position `p`.
   */
  lemma PinnedAt(t: seq<real>, c: real, p: nat)
    requires Sorted(t)
    requires p < |t|
    requires multiset(t)[c] > p
    requires multiset(t)[c] > |t| - 1 - p
    ensures t[p] == c
  {
    CountAroundPosition(t, c, p);
  }

  /** A value held by a strict majority of the samples is their median. */
  lemma {:induction false} MedianOfMajority(s: seq<real>, c: real)
    requires |s| > 0
    requires 2 * multiset(s)[c] > |s|
    ensures Median(s) == c
  {
    var t := Sort(s);
    assert multiset(t)[c] == multiset(s)[c];
    MajorityPinsMiddle(t, c);
  }

  /** A strict majority value of a sorted sequence fills its middle position(s). */
  lemma {:induction false} MajorityPinsMiddle(t: seq<real>, c: real)
    requires Sorted(t) && |t| > 0
    requires 2 * multiset(t)[c] > |t|
    ensures t[|t| / 2] == c
    ensures |t| % 2 == 0 ==> t[|t| / 2 - 1] == c
  {
    var m := |t| / 2;
    var k := multiset(t)[c];
    if |t| % 2 == 1 {
      assert |t| == 2 * m + 1;
      PinnedAt(t, c, m);
    } else {
      assert |t| == 2 * m;
      assert k >= m + 1;
      PinnedAt(t, c, m - 1);
      PinnedAt(t, c, m);
    }
  }

  lemma {:induction false} CountOfConstant(n: nat, c: real)
    ensures multiset(Constant(n, c))[c] == n
  {
    if n > 0 {
      assert Constant(n, c) == Constant(n - 1, c) + [c];
      CountOfConstant(n - 1, c);
    }
  }

  lemma MedianOfConstant(s: seq<real>, c: real)
    requires |s| > 0
    requires forall i :: 0 <= i < |s| ==> s[i] == c
    ensures Median(s) == c
  {
    assert s == Constant(|s|, c);
    CountOfConstant(|s|, c);
    MedianOfMajority(s, c);
  }

  /** A window of `k >= 2` equal samples followed by one other sample. */
  lemma MedianIgnoresOneSpike(k: nat, c: real, d: real)
    requires k >= 2
    ensures Median(Constant(k, c) + [d]) == c
  {
    var s := Constant(k, c) + [d];
    CountOfConstant(k, c);
    assert multiset(s) == multiset(Constant(k, c)) + multiset{d};
    MedianOfMajority(s, c);
  }
}
