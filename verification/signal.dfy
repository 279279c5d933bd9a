/** Sample buffers as sequences of exact reals, and the numpy array operations the synthesiser applies to them. */
module Signal {
  import opened Numeric

  /** The spacing numpy.linspace puts between neighbouring values. */
  function Step(a: real, b: real, n: nat): real
    requires n >= 2
  {
    (b - a) / ((n - 1) as real)
  }

  /**
   * numpy.linspace(a, b, n): n evenly spaced values from a to b with both
   * endpoints included, and just [a] when n == 1.
   */
  function Linspace(a: real, b: real, n: nat): (r: seq<real>)
    ensures |r| == n
    ensures n >= 1 ==> r[0] == a
    ensures n >= 2 ==> r[n - 1] == b
    ensures n >= 2 ==> forall k :: 0 < k < n ==> r[k] - r[k - 1] == Step(a, b, n)
  {
    if n == 1 then [a]
    else
      assert n >= 2 ==> ((n - 1) as real) * Step(a, b, n) == b - a;
      seq(n, k requires 0 <= k < n => a + (k as real) * Step(a, b, n))
  }

  /** Every value of a linspace lies between its two endpoints. */
  lemma LinspaceBetween(a: real, b: real, n: nat)
    ensures a <= b ==> forall k :: 0 <= k < n ==> a <= Linspace(a, b, n)[k] <= b
    ensures b <= a ==> forall k :: 0 <= k < n ==> b <= Linspace(a, b, n)[k] <= a
  {
    var r := Linspace(a, b, n);
    if n >= 2 {
      var s := Step(a, b, n);
      assert ((n - 1) as real) * s == b - a;
      forall k | 0 <= k < n
        ensures a <= b ==> a <= r[k] <= b
        ensures b <= a ==> b <= r[k] <= a
      {
        assert r[k] == a + (k as real) * s;
        assert (b - a) - (k as real) * s == ((n - 1 - k) as real) * s;
        if a <= b {
          assert s >= 0.0;
          assert (k as real) * s >= 0.0;
          assert ((n - 1 - k) as real) * s >= 0.0;
        } else {
          assert s <= 0.0;
          assert (k as real) * s <= 0.0;
          assert ((n - 1 - k) as real) * s <= 0.0;
        }
      }
    }
  }

  /** A linspace from a lower to a higher endpoint is strictly increasing. */
  lemma LinspaceIncreasing(a: real, b: real, n: nat)
    requires a < b
    ensures forall i, j :: 0 <= i < j < n ==> Linspace(a, b, n)[i] < Linspace(a, b, n)[j]
  {
    var r := Linspace(a, b, n);
    if n >= 2 {
      var s := Step(a, b, n);
      assert s > 0.0;
      forall i, j | 0 <= i < j < n
        ensures r[i] < r[j]
      {
        assert r[j] - r[i] == ((j - i) as real) * s;
      }
    }
  }

  /** n - 1 steps of a linspace span its two endpoints, and swapping the endpoints negates the step. */
  lemma StepSpan(a: real, b: real, n: nat)
    requires n >= 2
    ensures ((n - 1) as real) * Step(a, b, n) == b - a
    ensures Step(b, a, n) == -Step(a, b, n)
  {
  }

  /** A linspace run backwards is the linspace between the swapped endpoints. */
  lemma LinspaceReversed(a: real, b: real, n: nat)
    requires n >= 2
    ensures forall k :: 0 <= k < n ==> Linspace(b, a, n)[n - 1 - k] == Linspace(a, b, n)[k]
  {
    var r, q := Linspace(a, b, n), Linspace(b, a, n);
    var s := Step(a, b, n);
    var last := (n - 1) as real;
    StepSpan(a, b, n);
    forall k | 0 <= k < n
      ensures q[n - 1 - k] == r[k]
    {
      var x := k as real;
      assert q[n - 1 - k] == b + (last - x) * (-s);
      assert (last - x) * (-s) == x * s - last * s;
      assert r[k] == a + x * s;
    }
  }

  /** Value k of linspace(0, 1, n) is k / (n - 1). */
  lemma LinspaceUnit(n: nat)
    requires n >= 2
    ensures forall k :: 0 <= k < n ==> Linspace(0.0, 1.0, n)[k] == (k as real) / ((n - 1) as real)
  {
    var c := 1.0 / ((n - 1) as real);
    assert ((n - 1) as real) * c == 1.0;
    forall k | 0 <= k < n
      ensures Linspace(0.0, 1.0, n)[k] == (k as real) / ((n - 1) as real)
    {
      assert (k as real) / ((n - 1) as real) == (k as real) * c;
    }
  }

  /** numpy.zeros(n). */
  function Zeros(n: nat): (r: seq<real>)
    ensures |r| == n
    ensures forall k :: 0 <= k < n ==> r[k] == 0.0
  {
    seq(n, _ => 0.0)
  }

  /** Elementwise product `a * b` of two arrays of one shape. */
  function Mul(a: seq<real>, b: seq<real>): (r: seq<real>)
    requires |a| == |b|
    ensures |r| == |a|
  {
    seq(|a|, k requires 0 <= k < |a| => a[k] * b[k])
  }

  /** The product of two non-negative reals is non-negative. */
  lemma ProductNonNegative(x: real, y: real)
    requires x >= 0.0 && y >= 0.0
    ensures x * y >= 0.0
  {
  }

  /** Element k of an elementwise product. */
  lemma MulAt(a: seq<real>, b: seq<real>, k: nat)
    requires |a| == |b|
    requires k < |a|
    ensures Mul(a, b)[k] == a[k] * b[k]
  {
  }

  /** Where the gain is 1, the elementwise product leaves the signal as it is. */
  lemma MulUnitWhere(a: seq<real>, g: seq<real>, lo: int, hi: int)
    requires |a| == |g|
    requires 0 <= lo && hi <= |a|
    requires forall k :: lo <= k < hi ==> g[k] == 1.0
    ensures forall k :: lo <= k < hi ==> Mul(a, g)[k] == a[k]
  {
  }

  /** The product of a value bounded by `bound` and a gain in [0, 1] stays bounded. */
  lemma MulBounded(a: seq<real>, g: seq<real>, bound: real)
    requires |a| == |g|
    requires forall k :: 0 <= k < |a| ==> -bound <= a[k] <= bound
    requires forall k :: 0 <= k < |g| ==> 0.0 <= g[k] <= 1.0
    ensures forall k :: 0 <= k < |a| ==> -bound <= Mul(a, g)[k] <= bound
  {
    forall k | 0 <= k < |a|
      ensures -bound <= Mul(a, g)[k] <= bound
    {
      var x, y := a[k], g[k];
      MulAt(a, g, k);
      if x >= 0.0 {
        ProductNonNegative(x, y);
        ProductNonNegative(x, 1.0 - y);
        assert x - x * y == x * (1.0 - y);
      } else {
        ProductNonNegative(-x, y);
        ProductNonNegative(-x, 1.0 - y);
        assert x * y - x == (-x) * (1.0 - y);
      }
    }
  }

  /** Scaling by positive gains leaves the silent samples, and only those, silent. */
  lemma MulPositiveKeepsZeros(a: seq<real>, g: seq<real>)
    requires |a| == |g|
    requires forall k :: 0 <= k < |g| ==> g[k] > 0.0
    ensures forall k :: 0 <= k < |a| ==> (Mul(a, g)[k] == 0.0 <==> a[k] == 0.0)
  {
    forall k | 0 <= k < |a|
      ensures Mul(a, g)[k] == 0.0 <==> a[k] == 0.0
    {
      assert Mul(a, g)[k] == a[k] * g[k];
    }
  }

  /** Each sample of s is -v * g[k], 0 or v * g[k]: a three-level signal scaled by the gains g. */
  ghost predicate ScaledThreeLevel(s: seq<real>, g: seq<real>, v: real)
  {
    |s| == |g| && forall k :: 0 <= k < |s| ==> s[k] == -v * g[k] || s[k] == 0.0 || s[k] == v * g[k]
  }

  /** Scaling a three-level signal (-v, 0 or v) by gains g gives -v * g, 0 or v * g at each sample. */
  lemma MulThreeLevel(a: seq<real>, g: seq<real>, v: real)
    requires |a| == |g|
    requires forall k :: 0 <= k < |a| ==> a[k] == -v || a[k] == 0.0 || a[k] == v
    ensures ScaledThreeLevel(Mul(a, g), g, v)
  {
    forall k | 0 <= k < |a|
      ensures Mul(a, g)[k] == -v * g[k] || Mul(a, g)[k] == 0.0 || Mul(a, g)[k] == v * g[k]
    {
      assert Mul(a, g)[k] == a[k] * g[k];
    }
  }

  /** A three-level signal scaled by gains in [0, 1] stays within the level v. */
  lemma ScaledThreeLevelBounded(s: seq<real>, g: seq<real>, v: real)
    requires ScaledThreeLevel(s, g, v)
    requires forall k :: 0 <= k < |g| ==> 0.0 <= g[k] <= 1.0
    ensures forall k :: 0 <= k < |s| ==> Abs(s[k]) <= Abs(v)
  {
    forall k | 0 <= k < |s|
      ensures Abs(s[k]) <= Abs(v)
    {
      var a := Abs(v);
      assert a * g[k] <= a by {
        assert a * (1.0 - g[k]) >= 0.0;
      }
      assert Abs(s[k]) == 0.0 || Abs(s[k]) == a * g[k];
    }
  }

  /** `part` is the slice of `s` that starts at sample `start`. */
  predicate Occupies(s: seq<real>, part: seq<real>, start: int)
  {
    0 <= start && start + |part| <= |s| && s[start .. start + |part|] == part
  }

  /**
   * The arrays of a list joined in list order, as numpy.concatenate joins a
   * non-empty list. The `[]` for no parts is only the recursion's base case:
   * numpy raises on an empty list, which `Synth.Arpeggio` models as
   * `NothingToConcatenate` before it calls this.
   */
  function Concat(parts: seq<seq<real>>): (r: seq<real>)
    ensures |parts| == 0 ==> r == []
    ensures |parts| > 0 ==> |parts[0]| <= |r| && r[..|parts[0]|] == parts[0]
  {
    if |parts| == 0 then [] else parts[0] + Concat(parts[1..])
  }

  /** Concatenating parts of one common length m gives |parts| * m samples. */
  lemma {:induction false} ConcatUniformLength(parts: seq<seq<real>>, m: nat)
    requires forall i :: 0 <= i < |parts| ==> |parts[i]| == m
    ensures |Concat(parts)| == |parts| * m
    decreases |parts|
  {
    if |parts| > 0 {
      ConcatUniformLength(parts[1..], m);
      assert |parts| * m == m + (|parts| - 1) * m;
    }
  }

  /** In a concatenation of parts of one common length m, part i occupies the samples [i*m, (i+1)*m). */
  lemma {:induction false} ConcatUniformSegment(parts: seq<seq<real>>, m: nat, i: nat)
    requires forall j :: 0 <= j < |parts| ==> |parts[j]| == m
    requires i < |parts|
    ensures Occupies(Concat(parts), parts[i], i * m)
    decreases i
  {
    var c := Concat(parts);
    var rest := Concat(parts[1..]);
    assert c == parts[0] + rest;
    if i == 0 {
      assert c[..m] == parts[0];
    } else {
      ConcatUniformSegment(parts[1..], m, i - 1);
      var lo: nat := (i - 1) * m;
      assert i * m == m + lo;
      SliceAfterPrefix(parts[0], rest, lo, lo + m);
    }
  }

  /** A slice of `b` is the same slice of `a + b`, shifted past `a`. */
  lemma SliceAfterPrefix(a: seq<real>, b: seq<real>, lo: nat, hi: nat)
    requires lo <= hi <= |b|
    ensures (a + b)[|a| + lo .. |a| + hi] == b[lo..hi]
  {
  }

  /** The sum of a sequence, accumulated from its first element to its last. */
  function Sum(s: seq<real>): real
  {
    if |s| == 0 then 0.0 else Sum(s[..|s| - 1]) + s[|s| - 1]
  }

  /** numpy.cumsum continued from a running total `acc`: the running total after each element. */
  function CumSumFrom(s: seq<real>, acc: real): (r: seq<real>)
    ensures |r| == |s|
    ensures |s| > 0 ==> r[0] == acc + s[0]
    ensures forall k {:trigger s[k]} :: 0 < k < |s| ==> r[k] == r[k - 1] + s[k]
    decreases |s|
  {
    if |s| == 0 then [] else [acc + s[0]] + CumSumFrom(s[1..], acc + s[0])
  }

  /** numpy.cumsum. */
  function CumSum(s: seq<real>): (r: seq<real>)
    ensures |r| == |s|
    ensures |s| > 0 ==> r[0] == s[0]
  {
    CumSumFrom(s, 0.0)
  }

  /** Element k of a cumulative sum is the sum of the first k + 1 elements. */
  lemma {:induction false} CumSumIsPrefixSum(s: seq<real>, k: nat)
    requires k < |s|
    ensures CumSum(s)[k] == Sum(s[..k + 1])
    decreases k
  {
    if k == 0 {
      assert s[..1][..0] == [];
    } else {
      CumSumIsPrefixSum(s, k - 1);
      assert s[..k + 1][..k] == s[..k];
    }
  }
}
