/** From latency samples to the traffic a service should offload
    (pkg/workoffload/prometheus/usage/kservice.go, pkg/workoffload/prometheus/strategy.go).
    float32 is modelled by real; a sample that does not parse to a finite number is None. */
module Latency {
  import opened Text

  // ---------------------------------------------------------------- forward fill

  /** UpdateWithPercentileRatio: leading gaps are dropped, later ones repeat the last value. */
  function Fill(data: seq<Option<real>>): seq<real> {
    if data == [] then []
    else
      var filled := Fill(data[..|data| - 1]);
      match data[|data| - 1]
      case Some(v) => filled + [v]
      case None => if filled == [] then [] else filled + [filled[|filled| - 1]]
  }

  /** The number of leading gaps. */
  function Leading(data: seq<Option<real>>): nat {
    if data == [] || data[0].Some? then 0 else 1 + Leading(data[1..])
  }

  /** The most recent sample at or before i. */
  function LastSample(data: seq<Option<real>>, i: nat): Option<real>
    requires i < |data|
  {
    if data[i].Some? || i == 0 then data[i] else LastSample(data, i - 1)
  }

  lemma {:induction false} LeadingOfPrefix(data: seq<Option<real>>)
    requires data != []
    ensures var shorter := data[..|data| - 1];
            Leading(data) ==
            if Leading(shorter) == |shorter| && data[|data| - 1].None? then |data| else Leading(shorter)
    ensures Leading(data) <= |data|
  {
    if |data| == 1 {
      assert data[1..] == [];
    } else if data[0].None? {
      LeadingOfPrefix(data[1..]);
      assert data[..|data| - 1][1..] == data[1..][..|data| - 2];
    }
  }

  lemma {:induction false} LastSampleOfPrefix(data: seq<Option<real>>, n: nat, i: nat)
    requires i < n <= |data|
    ensures LastSample(data[..n], i) == LastSample(data, i)
  {
    if i > 0 && data[i].None? {
      LastSampleOfPrefix(data, n, i - 1);
    }
  }

  /** The filled series starts at the first sample and has, at each later point, the most recent
      sample there was. */
  lemma {:induction false} FillMeaning(data: seq<Option<real>>)
    ensures |Fill(data)| == |data| - Leading(data)
    ensures forall k :: 0 <= k < |Fill(data)| ==> LastSample(data, Leading(data) + k) == Some(Fill(data)[k])
  {
    if data != [] {
      var n := |data| - 1;
      var shorter := data[..n];
      FillMeaning(shorter);
      LeadingOfPrefix(data);
      var filled := Fill(data);
      forall k | 0 <= k < |filled| ensures LastSample(data, Leading(data) + k) == Some(filled[k]) {
        if k < |Fill(shorter)| {
          LastSampleOfPrefix(data, n, Leading(data) + k);
        } else if data[n].None? {
          assert LastSample(data, n) == LastSample(data, n - 1);
          LastSampleOfPrefix(data, n, n - 1);
        }
      }
    }
  }

  // ---------------------------------------------------------------- weighted average

  function Power(d: real, k: nat): real {
    if k == 0 then 1.0 else d * Power(d, k - 1)
  }

  /** The sum over the k latest samples, the newest with weight 1, the next with d, and so on. */
  function WeightedSum(xs: seq<real>, d: real, k: nat): real
    requires k <= |xs|
  {
    if k == 0 then 0.0 else WeightedSum(xs, d, k - 1) + Power(d, k - 1) * xs[|xs| - k]
  }

  function TotalWeight(d: real, k: nat): real {
    if k == 0 then 0.0 else TotalWeight(d, k - 1) + Power(d, k - 1)
  }

  /** The value FinalizeKServiceMetrics leaves in RequestLatency. */
  function Average(xs: seq<real>, d: real): real {
    var total := TotalWeight(d, |xs|);
    if total > 0.0 then WeightedSum(xs, d, |xs|) / total else WeightedSum(xs, d, |xs|)
  }

  /** The same discounting read from the oldest sample on: each new sample scales the past down. */
  function Discounted(xs: seq<real>, d: real): real {
    if xs == [] then 0.0 else xs[|xs| - 1] + d * Discounted(xs[..|xs| - 1], d)
  }

  lemma Distribute(d: real, a: real, p: real, x: real)
    ensures d * (a + p * x) == d * a + (d * p) * x
  {
    assert d * (a + p * x) == d * a + d * (p * x);
    assert d * (p * x) == (d * p) * x;
  }

  lemma OneMoreTerm(xs: seq<real>, d: real, k: nat)
    requires 0 < k < |xs|
    ensures WeightedSum(xs, d, k + 1) == WeightedSum(xs, d, k) + (d * Power(d, k - 1)) * xs[|xs| - 1 - k]
  {
    assert Power(d, k) == d * Power(d, k - 1);
  }

  lemma {:induction false} SumOfPrefix(xs: seq<real>, d: real, k: nat)
    requires k < |xs|
    ensures WeightedSum(xs, d, k + 1) == xs[|xs| - 1] + d * WeightedSum(xs[..|xs| - 1], d, k)
  {
    var rest := xs[..|xs| - 1];
    if k == 0 {
      assert WeightedSum(xs, d, 1) == WeightedSum(xs, d, 0) + Power(d, 0) * xs[|xs| - 1];
    } else {
      SumOfPrefix(xs, d, k - 1);
      OneMoreTerm(xs, d, k);
      var a, p, x := WeightedSum(rest, d, k - 1), Power(d, k - 1), xs[|xs| - 1 - k];
      assert rest[|rest| - k] == x;
      Distribute(d, a, p, x);
    }
  }

  /** The backward loop computes the discounted sum. */
  lemma {:induction false} SumIsDiscounted(xs: seq<real>, d: real)
    ensures WeightedSum(xs, d, |xs|) == Discounted(xs, d)
  {
    if xs != [] {
      SumOfPrefix(xs, d, |xs| - 1);
      SumIsDiscounted(xs[..|xs| - 1], d);
    }
  }

  lemma {:induction false} PowerIsNonnegative(d: real, k: nat)
    requires d >= 0.0
    ensures Power(d, k) >= 0.0
  {
    if k > 0 {
      PowerIsNonnegative(d, k - 1);
    }
  }

  lemma {:induction false} TotalIsPositive(d: real, k: nat)
    requires d >= 0.0 && k > 0
    ensures TotalWeight(d, k) >= 1.0
  {
    if k > 1 {
      TotalIsPositive(d, k - 1);
      PowerIsNonnegative(d, k - 1);
    } else {
      assert TotalWeight(d, 1) == TotalWeight(d, 0) + Power(d, 0);
    }
  }

  /** The weights are not negative, so the weighted sum is monotone in every sample. */
  lemma {:induction false} SumIsMonotone(xs: seq<real>, ys: seq<real>, d: real, k: nat)
    requires d >= 0.0 && k <= |xs| == |ys|
    requires forall i :: 0 <= i < |xs| ==> xs[i] <= ys[i]
    ensures WeightedSum(xs, d, k) <= WeightedSum(ys, d, k)
  {
    if k > 0 {
      SumIsMonotone(xs, ys, d, k - 1);
      PowerIsNonnegative(d, k - 1);
      var x, y, w := xs[|xs| - k], ys[|xs| - k], Power(d, k - 1);
      assert w * y - w * x == w * (y - x) >= 0.0;
    }
  }

  function Constant(c: real, n: nat): seq<real> {
    seq(n, _ => c)
  }

  lemma {:induction false} SumOfConstant(c: real, n: nat, d: real, k: nat)
    requires k <= n
    ensures WeightedSum(Constant(c, n), d, k) == c * TotalWeight(d, k)
  {
    if k > 0 {
      SumOfConstant(c, n, d, k - 1);
    }
  }

  lemma Quotient(s: real, c: real, w: real)
    requires w > 0.0
    ensures c * w <= s <==> c <= s / w
    ensures s <= c * w <==> s / w <= c
  {
    assert (s / w) * w == s;
    assert s - c * w == (s / w - c) * w;
  }

  /** The weights 1, d, d^2, ... as a geometric sum. */
  lemma {:induction false} TotalIsGeometric(d: real, k: nat)
    ensures TotalWeight(d, k) * (1.0 - d) == 1.0 - Power(d, k)
    ensures TotalWeight(1.0, k) == k as real && Power(1.0, k) == 1.0
  {
    if k > 0 {
      TotalIsGeometric(d, k - 1);
      var total, p := TotalWeight(d, k - 1), Power(d, k - 1);
      assert (total + p) * (1.0 - d) == total * (1.0 - d) + p * (1.0 - d);
      assert p * (1.0 - d) == p - d * p;
    }
  }

  /** The latency is the discounted sum over the sum of the weights, 1 to the latest sample and each
      older one a factor d less, whenever that sum is positive; it is if d is not negative. */
  lemma AverageMeans(xs: seq<real>, d: real)
    ensures var total := TotalWeight(d, |xs|);
            && Average(xs, d) == (if total > 0.0 then Discounted(xs, d) / total else Discounted(xs, d))
            && (d >= 0.0 && xs != [] ==> total > 0.0)
  {
    SumIsDiscounted(xs, d);
    if d >= 0.0 && xs != [] {
      TotalIsPositive(d, |xs|);
    }
  }

  lemma DivideAndMultiply(s: real, w: real)
    requires w > 0.0
    ensures (s / w) * w == s
  {
  }

  lemma AverageIsMonotone(xs: seq<real>, ys: seq<real>, d: real)
    requires d >= 0.0 && |xs| == |ys|
    requires forall i :: 0 <= i < |xs| ==> xs[i] <= ys[i]
    ensures Average(xs, d) <= Average(ys, d)
  {
    SumIsMonotone(xs, ys, d, |xs|);
    if xs != [] {
      var w := TotalWeight(d, |xs|);
      TotalIsPositive(d, |xs|);
      Quotient(WeightedSum(ys, d, |ys|), Average(xs, d), w);
      assert Average(xs, d) * w == WeightedSum(xs, d, |xs|);
    }
  }

  lemma AverageOfConstant(c: real, n: nat, d: real)
    requires d >= 0.0 && n > 0
    ensures Average(Constant(c, n), d) == c
  {
    TotalIsPositive(d, n);
    SumOfConstant(c, n, d, n);
    Quotient(WeightedSum(Constant(c, n), d, n), c, TotalWeight(d, n));
  }

  /** With a decay that is not negative the latency lies between any bounds the samples have. */
  lemma AverageIsConvex(xs: seq<real>, d: real, lo: real, hi: real)
    requires d >= 0.0 && xs != []
    requires forall i :: 0 <= i < |xs| ==> lo <= xs[i] <= hi
    ensures lo <= Average(xs, d) <= hi
  {
    AverageOfConstant(lo, |xs|, d);
    AverageOfConstant(hi, |xs|, d);
    AverageIsMonotone(Constant(lo, |xs|), xs, d);
    AverageIsMonotone(xs, Constant(hi, |xs|), d);
  }

  // ---------------------------------------------------------------- desired traffic

  /** The piecewise map of GetResults; the branches are tried in this order. */
  function Desired(latency: real, soft: real, hard: real): int {
    if latency < soft then 0
    else if latency >= hard then 100
    else (100.0 * ((latency - soft) / (hard - soft))).Floor
  }

  /** What is asked for: nothing below the soft limit; all from the hard limit on; in between, the
      percentage, rounded down, of the way from the one to the other. */
  ghost predicate IsDesired(latency: real, soft: real, hard: real, n: int) {
    if latency < soft then n == 0
    else if hard <= latency then n == 100
    else n as real * (hard - soft) <= 100.0 * (latency - soft) < (n + 1) as real * (hard - soft)
  }

  lemma DesiredMeans(latency: real, soft: real, hard: real, n: int)
    ensures IsDesired(latency, soft, hard, n) <==> Desired(latency, soft, hard) == n
  {
    if soft <= latency < hard {
      WholePercent(latency - soft, hard - soft, n);
    }
  }

  lemma WholePercent(part: real, whole: real, n: int)
    requires whole > 0.0
    ensures (100.0 * (part / whole)).Floor == n <==> n as real * whole <= 100.0 * part < (n + 1) as real * whole
  {
    var x, y := 100.0 * (part / whole), 100.0 * part;
    DivideAndMultiply(part, whole);
    assert x * whole == 100.0 * ((part / whole) * whole) == y;
    Scaled(n as real, x, y, whole);
    Scaled((n + 1) as real, x, y, whole);
  }

  lemma Scaled(a: real, x: real, y: real, w: real)
    requires w > 0.0 && x * w == y
    ensures a * w <= y <==> a <= x
    ensures y < a * w <==> x < a
  {
    assert y - a * w == (x - a) * w;
  }

  /** Whatever the limits are, even crossed, the result is a percentage and grows with latency. */
  lemma DesiredIsMonotone(x: real, y: real, soft: real, hard: real)
    requires x <= y
    ensures 0 <= Desired(x, soft, hard) <= Desired(y, soft, hard) <= 100
  {
    DesiredIsPercentage(x, soft, hard);
    DesiredIsPercentage(y, soft, hard);
    if soft <= x && y < hard {
      var w := hard - soft;
      var a, b := (x - soft) / w, (y - soft) / w;
      Quotient(y - soft, a, w);
      assert a * w == x - soft;
      assert a <= b && 100.0 * a <= 100.0 * b;
    }
  }

  lemma DesiredIsPercentage(x: real, soft: real, hard: real)
    ensures 0 <= Desired(x, soft, hard) <= 100
  {
    if soft <= x < hard {
      var w := hard - soft;
      Quotient(x - soft, 0.0, w);
      Quotient(x - soft, 1.0, w);
      var a := (x - soft) / w;
      assert 0.0 <= 100.0 * a <= 100.0;
    }
  }

  // ---------------------------------------------------------------- end to end

  /** The same gaps, and no sample lower. */
  ghost predicate Raised(data: seq<Option<real>>, raised: seq<Option<real>>) {
    |data| == |raised| && forall i :: 0 <= i < |data| ==> RaisedAt(data[i], raised[i])
  }

  predicate RaisedAt(a: Option<real>, b: Option<real>) {
    (a.None? <==> b.None?) && (a.Some? ==> a.value <= b.value)
  }

  lemma {:induction false} FillIsMonotone(data: seq<Option<real>>, raised: seq<Option<real>>)
    requires Raised(data, raised)
    ensures |Fill(data)| == |Fill(raised)|
    ensures forall k :: 0 <= k < |Fill(data)| ==> Fill(data)[k] <= Fill(raised)[k]
  {
    if data != [] {
      var n := |data| - 1;
      FillIsMonotone(data[..n], raised[..n]);
      assert RaisedAt(data[n], raised[n]);
    }
  }

  /** Raising any samples of a service never lowers the traffic it should offload. */
  lemma RaisingLatencyNeverLowersTraffic(
    data: seq<Option<real>>, raised: seq<Option<real>>, decay: real, soft: real, hard: real)
    requires decay >= 0.0 && Raised(data, raised)
    ensures Desired(Average(Fill(data), decay), soft, hard) <= Desired(Average(Fill(raised), decay), soft, hard)
  {
    FillIsMonotone(data, raised);
    AverageIsMonotone(Fill(data), Fill(raised), decay);
    DesiredIsMonotone(Average(Fill(data), decay), Average(Fill(raised), decay), soft, hard);
  }

  /** No raised sample ever lowers the desired traffic, under this decay. */
  ghost predicate NeverLowers(decay: real) {
    forall data, raised, soft, hard | Raised(data, raised) ::
      Desired(Average(Fill(data), decay), soft, hard) <= Desired(Average(Fill(raised), decay), soft, hard)
  }

  lemma FillOfTwo(x: real, y: real)
    ensures Fill([Some(x), Some(y)]) == [x, y]
  {
    var data: seq<Option<real>> := [Some(x), Some(y)];
    assert data[..1] == [Some(x)] && data[..1][..0] == [];
    assert Fill(data[..1]) == [x];
  }

  lemma AverageOfTwo(x: real, y: real, decay: real)
    ensures Average([x, y], decay) ==
            if 1.0 + decay > 0.0 then (y + decay * x) / (1.0 + decay) else y + decay * x
  {
    assert Power(decay, 0) == 1.0 && Power(decay, 1) == decay;
    assert TotalWeight(decay, 1) == 1.0 && TotalWeight(decay, 2) == 1.0 + decay;
    assert WeightedSum([x, y], decay, 1) == WeightedSum([x, y], decay, 0) + Power(decay, 0) * y == y;
    assert WeightedSum([x, y], decay, 2) == WeightedSum([x, y], decay, 1) + Power(decay, 1) * x;
  }

  /** With any negative decay it happens: the older of two samples then counts against the latency. */
  lemma NegativeDecayReverses(decay: real)
    requires decay < 0.0
    ensures Raised([Some(0.0), Some(0.0)], [Some(1.0), Some(0.0)])
    ensures Desired(Average(Fill([Some(0.0), Some(0.0)]), decay), 0.0, 0.0) == 100
    ensures Desired(Average(Fill([Some(1.0), Some(0.0)]), decay), 0.0, 0.0) == 0
  {
    FillOfTwo(0.0, 0.0);
    FillOfTwo(1.0, 0.0);
    AverageOfTwo(0.0, 0.0, decay);
    AverageOfTwo(1.0, 0.0, decay);
    if 1.0 + decay > 0.0 {
      Quotient(decay, 0.0, 1.0 + decay);
      assert Average([1.0, 0.0], decay) * (1.0 + decay) == decay;
    }
  }

  /** Raising samples never lowers the desired traffic exactly if the decay is not negative. */
  lemma MonotoneIfDecayIsNotNegative(decay: real)
    ensures NeverLowers(decay) <==> decay >= 0.0
  {
    if decay >= 0.0 {
      forall data, raised, soft, hard | Raised(data, raised)
        ensures Desired(Average(Fill(data), decay), soft, hard) <= Desired(Average(Fill(raised), decay), soft, hard)
      {
        RaisingLatencyNeverLowersTraffic(data, raised, decay, soft, hard);
      }
    } else {
      NegativeDecayReverses(decay);
    }
  }
}
