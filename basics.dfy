/**
 * Shared vocabulary of the stream library: optional values, results carrying
 * the errors the library raises, and the elementary reductions (sum, mean,
 * maximum, fourth power) that every metric is built from. Samples are
 * mathematical reals taken at 1 Hz.
 */
module Basics {

  datatype Option<T> = None | Some(value: T)

  /** The exceptions the modelled code raises explicitly. */
  datatype Error =
    | ZoneConfigMissing          // compute_zones: none of zones/ftp/lthr given (ValueError)
    | LabelCountMismatch         // compute_zones: len(labels) + 1 != len(edges) (AssertionError)
    | BadBinEdges                // pd.cut: edges that decrease, or repeat (more than two edges)
    | MissingStream(name: string) // a named stream is absent (LookupError / KeyError)

  datatype Result<T> = Ok(value: T) | Err(error: Error) {
    predicate IsFailure() { Err? }
    function PropagateFailure<U>(): Result<U> requires Err? { Err(error) }
    function Extract(): T requires Ok? { value }
  }

  /** Sum of the samples, accumulated from the front as a cumulative sum does. */
  function Sum(s: seq<real>): real
  {
    if s == [] then 0.0 else Sum(s[..|s| - 1]) + s[|s| - 1]
  }

  lemma {:induction false} SumAppend(a: seq<real>, b: seq<real>)
    ensures Sum(a + b) == Sum(a) + Sum(b)
    decreases |b|
  {
    if b == [] {
      assert a + b == a;
    } else {
      assert (a + b)[..|a + b| - 1] == a + b[..|b| - 1];
      SumAppend(a, b[..|b| - 1]);
    }
  }

  lemma {:induction false} SumConstant(s: seq<real>, c: real)
    requires forall i :: 0 <= i < |s| ==> s[i] == c
    ensures Sum(s) == |s| as real * c
  {
    if s != [] {
      SumConstant(s[..|s| - 1], c);
    }
  }

  function Mean(s: seq<real>): real
    requires |s| > 0
  {
    Sum(s) / |s| as real
  }

  lemma MeanConstant(s: seq<real>, c: real)
    requires |s| > 0
    requires forall i :: 0 <= i < |s| ==> s[i] == c
    ensures Mean(s) == c
  {
    SumConstant(s, c);
  }

  lemma MeanSingleton(x: real)
    ensures Mean([x]) == x
  {
    assert [x][..0] == [];
    assert Sum([x]) == x;
  }

  /** Largest sample; `np.max` / `Series.max` over a non-empty stream. */
  function Max(s: seq<real>): real
    requires |s| > 0
  {
    if |s| == 1 then s[0]
    else
      var p := Max(s[..|s| - 1]);
      if s[|s| - 1] > p then s[|s| - 1] else p
  }

  /** The maximum is one of the samples and no sample exceeds it. */
  lemma {:induction false} MaxIsLargestSample(s: seq<real>)
    requires |s| > 0
    ensures Max(s) in s
    ensures forall i :: 0 <= i < |s| ==> s[i] <= Max(s)
  {
    if |s| > 1 {
      var front := s[..|s| - 1];
      MaxIsLargestSample(front);
      assert forall i :: 0 <= i < |s| - 1 ==> s[i] == front[i];
    }
  }

  /** A value that occurs in `s` and bounds it from above is its maximum. */
  lemma MaxUnique(s: seq<real>, v: real)
    requires v in s
    requires forall i :: 0 <= i < |s| ==> s[i] <= v
    ensures Max(s) == v
  {
    MaxIsLargestSample(s);
  }

  /** Every sample divided by `t`, as a series divided by a scalar. */
  function Divided(s: seq<real>, t: real): (r: seq<real>)
    requires t != 0.0
    ensures |r| == |s|
  {
    seq(|s|, i requires 0 <= i < |s| => s[i] / t)
  }

  function Constant(n: nat, c: real): (r: seq<real>)
    ensures |r| == n
    ensures forall i :: 0 <= i < n ==> r[i] == c
  {
    seq(n, _ => c)
  }

  function Pow4(x: real): real
  {
    x * x * x * x
  }

  /** Elementwise fourth power, `np.power(s, 4)`. */
  function Fourth(s: seq<real>): (r: seq<real>)
    ensures |r| == |s|
  {
    seq(|s|, i requires 0 <= i < |s| => Pow4(s[i]))
  }

  /** Mean of the fourth powers; its fourth root is the quartic mean. */
  function QuarticMean(s: seq<real>): real
    requires |s| > 0
  {
    Mean(Fourth(s))
  }

  function CountTrue(b: seq<bool>): nat
  {
    if b == [] then 0 else CountTrue(b[..|b| - 1]) + (if b[|b| - 1] then 1 else 0)
  }
}
