/** Service-level evaluation: the mean of ratios against a target, or a percentile of measurements, in
    exact arithmetic. */
module ServiceLevels {
  import opened Orders
  import opened Collections

  datatype IndicatorKind = Availability | SuccessRatio | LatencyMs | Durability | RecoverySeconds

  predicate IsRatio(kind: IndicatorKind) {
    kind == Availability || kind == SuccessRatio || kind == Durability
  }

  datatype Slo = Slo(kind: IndicatorKind, target: real, minimumSamples: int, percentile: Option<real>)

  datatype Evaluation = Evaluation(met: bool, observed: real, target: real, total: real, remaining: real)

  datatype SloError =
    InvalidTarget | InvalidMinimum | TooFewSamples | NegativeSample | RatioAboveOne | InvalidPercentile

  function Total(xs: seq<real>): real {
    if xs == [] then 0.0 else xs[0] + Total(xs[1..])
  }

  function RealOrder(): (real, real) -> bool {
    (a: real, b: real) => a <= b
  }

  /** The position in the sorted samples the percentile is read at. */
  function RankIndex(n: nat, p: real): int {
    var i := (n as real * p + 0.999999).Floor - 1;
    var capped := if i < n - 1 then i else n - 1;
    if capped > 0 then capped else 0
  }

  function PercentileOf(slo: Slo): real {
    if slo.percentile.Some? then slo.percentile.value else 0.95
  }

  function Evaluate(slo: Slo, values: seq<real>): Result<Evaluation, SloError> {
    if slo.target < 0.0 || (IsRatio(slo.kind) && slo.target > 1.0) then Failure(InvalidTarget)
    else if slo.minimumSamples < 1 then Failure(InvalidMinimum)
    else if |values| < slo.minimumSamples then Failure(TooFewSamples)
    else if exists x :: x in values && x < 0.0 then Failure(NegativeSample)
    else if IsRatio(slo.kind) then
      if exists x :: x in values && x > 1.0 then Failure(RatioAboveOne)
      else
        var observed := Total(values) / |values| as real;
        var total := 1.0 - slo.target;
        Success(Evaluation(observed >= slo.target, observed, slo.target, total, total - (1.0 - observed)))
    else
      var p := PercentileOf(slo);
      if !(0.0 < p <= 1.0) then Failure(InvalidPercentile)
      else
        var ordered := SortBy(values, RealOrder());
        RealOrderIsTotal();
        SortFacts(values, RealOrder());
        RankInRange(|values|, p);
        var observed := ordered[RankIndex(|values|, p)];
        Success(Evaluation(observed <= slo.target, observed, slo.target, slo.target, slo.target - observed))
  }

  lemma RealOrderIsTotal()
    ensures TotalPreorder(RealOrder())
    ensures forall a: real, b: real :: RealOrder()(a, b) && RealOrder()(b, a) ==> a == b
  {
  }

  lemma RankInRange(n: nat, p: real)
    requires n >= 1
    ensures 0 <= RankIndex(n, p) < n
  {
  }

  // ---------------------------------------------------------------- the percentile

  function AtMost(bound: real): real -> bool {
    (x: real) => x <= bound
  }

  function Below(bound: real): real -> bool {
    (x: real) => x < bound
  }

  function Count(xs: seq<real>, p: real -> bool): nat {
    |Filter(xs, p)|
  }

  lemma AtLeastSoMany(xs: seq<real>, k: nat)
    requires Sorted(xs, RealOrder()) && k < |xs|
    ensures Count(xs, AtMost(xs[k])) >= k + 1
  {
    hide Filter;
    assert xs == xs[..k + 1] + xs[k + 1..];
    FilterAppend(xs[..k + 1], xs[k + 1..], AtMost(xs[k]));
    forall x | x in xs[..k + 1] ensures AtMost(xs[k])(x) {
      var i :| 0 <= i <= k && xs[i] == x;
      if i < k {
        assert RealOrder()(xs[i], xs[k]);
      }
    }
    FilterAll(xs[..k + 1], AtMost(xs[k]));
  }

  lemma AtMostSoMany(xs: seq<real>, k: nat)
    requires Sorted(xs, RealOrder()) && k < |xs|
    ensures Count(xs, Below(xs[k])) <= k
  {
    hide Filter;
    assert xs == xs[..k] + xs[k..];
    FilterAppend(xs[..k], xs[k..], Below(xs[k]));
    forall x | x in xs[k..] ensures !Below(xs[k])(x) {
      var i :| k <= i < |xs| && xs[i] == x;
      if k < i {
        assert RealOrder()(xs[k], xs[i]);
      }
    }
    FilterNone(xs[k..], Below(xs[k]));
  }

  /** The rank the percentile is read at lies within a millionth of n times p. */
  lemma RankIsNear(n: nat, p: real)
    requires n >= 1 && 0.0 < p <= 1.0
    ensures var k := RankIndex(n, p);
      0 <= k < n && (k + 1) as real > n as real * p - 0.000001 && k as real < n as real * p
  {
    var x := n as real * p;
    ProductBound(n, p);
    var f := (x + 0.999999).Floor;
    assert f as real <= x + 0.999999 < f as real + 1.0;
  }

  lemma ProductBound(n: nat, p: real)
    requires n >= 1 && 0.0 < p <= 1.0
    ensures 0.0 < n as real * p <= n as real
  {
  }

  /** The percentile asked for, or the ninety-fifth. */
  ghost predicate AsksFor(slo: Slo, p: real) {
    slo.percentile == Some(p) || (slo.percentile == None && p == 0.95)
  }

  /** Latencies and recovery times are reported as one of the samples: at least n times p, less a millionth, of them are
      at most it, fewer than n times p are below it, and the target is met exactly when budget remains. */
  lemma PercentileIsSound(slo: Slo, values: seq<real>, p: real)
    requires slo.kind == LatencyMs || slo.kind == RecoverySeconds
    requires Evaluate(slo, values).Success? && AsksFor(slo, p)
    ensures var e := Evaluate(slo, values).value;
      var np := |values| as real * p;
      && e.observed in values
      && Count(values, AtMost(e.observed)) as real >= np - 0.000001
      && Count(values, Below(e.observed)) as real < np
      && e.total == e.target == slo.target && e.remaining == e.total - e.observed
      && (e.met <==> e.remaining >= 0.0)
  {
    hide Evaluate, SortBy, RankIndex, Count;
    PercentileReads(slo, values);
    assert p == PercentileOf(slo);
    RankIsNear(|values|, p);
    CountsAtRank(values, RankIndex(|values|, p), |values| as real * p);
  }

  /** What the percentile branch reports. */
  lemma PercentileReads(slo: Slo, values: seq<real>)
    requires !IsRatio(slo.kind) && Evaluate(slo, values).Success?
    ensures |values| >= 1 && 0.0 < PercentileOf(slo) <= 1.0
    ensures var e, k := Evaluate(slo, values).value, RankIndex(|values|, PercentileOf(slo));
      var ordered := SortBy(values, RealOrder());
      && |ordered| == |values| && 0 <= k < |values| && e.observed == ordered[k]
      && e.total == e.target == slo.target && e.remaining == e.total - e.observed && (e.met <==> e.remaining >= 0.0)
  {
    hide SortBy, RankIndex, TotalPreorder, Sorted;
    RealOrderIsTotal();
    SortFacts(values, RealOrder());
    RankInRange(|values|, PercentileOf(slo));
  }

  /** The samples up to and below the one at a rank, given where the rank lies. */
  lemma CountsAtRank(values: seq<real>, k: nat, np: real)
    requires k < |values| == |SortBy(values, RealOrder())|
    requires (k + 1) as real > np - 0.000001 && k as real < np
    ensures var x := SortBy(values, RealOrder())[k];
      && x in values
      && Count(values, AtMost(x)) as real >= np - 0.000001
      && Count(values, Below(x)) as real < np
  {
    hide SortBy, Count, TotalPreorder, Sorted;
    var ordered := SortBy(values, RealOrder());
    RealOrderIsTotal();
    SortFacts(values, RealOrder());
    AtLeastSoMany(ordered, k);
    AtMostSoMany(ordered, k);
    SameCount(ordered, values, AtMost(ordered[k]));
    SameCount(ordered, values, Below(ordered[k]));
    assert ordered[k] in ordered;
  }

  lemma SameCount(xs: seq<real>, ys: seq<real>, p: real -> bool)
    requires Permutation(xs, ys)
    ensures Count(xs, p) == Count(ys, p)
  {
    PermutationFilter(xs, ys, p);
    SamePermutation(Filter(xs, p), Filter(ys, p));
  }

  /** The least whole number at or above `x`. */
  function Ceiling(x: real): int {
    -((-x).Floor)
  }

  /** What n times p has beyond a whole number. */
  function Fraction(x: real): real {
    x - x.Floor as real
  }

  /** The percentile is the nearest-rank one, which is read at the ceiling of n times p, exactly when n
      times p is below one, whole, or at least a millionth above a whole number; else it is one rank low. */
  lemma NearestRankIff(n: nat, p: real)
    requires n >= 1 && 0.0 < p <= 1.0
    ensures var x := n as real * p;
      if x < 1.0 || Fraction(x) == 0.0 || Fraction(x) >= 0.000001
      then RankIndex(n, p) == Ceiling(x) - 1
      else RankIndex(n, p) == Ceiling(x) - 2
  {
    var x := n as real * p;
    ProductBound(n, p);
    var w, f := x.Floor, Fraction(x);
    assert x == w as real + f && 0.0 <= f < 1.0;
    assert 0.0 < x <= n as real;
    assert w as real <= x;
    FloorShift(w, f + 0.999999);
    assert x + 0.999999 == w as real + (f + 0.999999);
    if f == 0.0 {
      assert (-x).Floor == -w;
    } else {
      assert -x == (-w - 1) as real + (1.0 - f);
      FloorShift(-w - 1, 1.0 - f);
      assert w as real < n as real;
    }
  }

  lemma FloorShift(w: int, f: real)
    requires 0.0 <= f < 2.0
    ensures (w as real + f).Floor == if f < 1.0 then w else w + 1
  {
    var g := (w as real + f).Floor;
    assert g as real <= w as real + f < g as real + 1.0;
  }

  /** Of two samples, the percentile 0.50000025 reads the lower; the nearest rank is the higher. */
  lemma OneRankLow()
    ensures RankIndex(2, 0.50000025) == 0 && Ceiling(2 as real * 0.50000025) - 1 == 1
  {
    NearestRankIff(2, 0.50000025);
    FloorShift(1, 0.0000005);
    FloorShift(-2, 0.9999995);
    assert 2 as real * 0.50000025 == 1.0000005;
  }

  // ---------------------------------------------------------------- ratios

  lemma {:induction false} TotalBounds(xs: seq<real>)
    requires forall x :: x in xs ==> 0.0 <= x <= 1.0
    ensures 0.0 <= Total(xs) <= |xs| as real
  {
    if xs == [] {
    } else {
      assert forall x :: x in xs[1..] ==> x in xs;
      assert xs[0] in xs;
      TotalBounds(xs[1..]);
    }
  }

  lemma MeanBounds(total: real, n: nat)
    requires n >= 1 && 0.0 <= total <= n as real
    ensures 0.0 <= total / n as real <= 1.0
  {
  }

  /** The samples added up, the last one last. */
  ghost function Sum(xs: seq<real>): real {
    if xs == [] then 0.0 else Sum(xs[..|xs| - 1]) + xs[|xs| - 1]
  }

  lemma {:induction false} TotalAppend(xs: seq<real>, ys: seq<real>)
    ensures Total(xs + ys) == Total(xs) + Total(ys)
  {
    if xs == [] {
      assert xs + ys == ys;
    } else {
      assert (xs + ys)[1..] == xs[1..] + ys;
      TotalAppend(xs[1..], ys);
    }
  }

  lemma {:induction false} TotalIsSum(xs: seq<real>)
    ensures Total(xs) == Sum(xs)
  {
    if xs == [] {
    } else {
      var front, last := xs[..|xs| - 1], xs[|xs| - 1];
      TotalIsSum(front);
      TotalAppend(front, [last]);
      assert xs == front + [last] && [last][1..] == [];
    }
  }

  /** Availability, success and durability are reported as a ratio; the budget is what the target leaves, no more than
      all of it remains, and the target is met exactly when it is not overspent. */
  lemma RatioIsSound(slo: Slo, values: seq<real>)
    requires slo.kind == Availability || slo.kind == SuccessRatio || slo.kind == Durability
    requires Evaluate(slo, values).Success?
    ensures var e := Evaluate(slo, values).value;
      && 0.0 <= e.observed <= 1.0 && e.observed * |values| as real == Sum(values)
      && e.target == slo.target && e.total == 1.0 - e.target && 0.0 <= e.total
      && e.remaining <= e.total && e.remaining == e.observed - e.target
      && (e.met <==> e.remaining >= 0.0)
  {
    hide Sum, Total;
    RatioReads(slo, values);
    TotalIsSum(values);
  }

  lemma RatioReads(slo: Slo, values: seq<real>)
    requires IsRatio(slo.kind) && Evaluate(slo, values).Success?
    ensures var e := Evaluate(slo, values).value;
      && 0.0 <= e.observed <= 1.0 && e.observed * |values| as real == Total(values)
      && e.target == slo.target && e.total == 1.0 - e.target && 0.0 <= e.total
      && e.remaining <= e.total && e.remaining == e.observed - e.target
      && (e.met <==> e.remaining >= 0.0)
  {
    TotalBounds(values);
    MeanBounds(Total(values), |values|);
  }

  // ---------------------------------------------------------------- which evaluations are refused

  ghost predicate Ratio(slo: Slo) {
    slo.kind != LatencyMs && slo.kind != RecoverySeconds
  }

  /** Every sample lies between these. */
  ghost predicate Within(values: seq<real>, low: real, high: Option<real>) {
    forall i :: 0 <= i < |values| ==> low <= values[i] && match high case Some(h) => values[i] <= h case None => true
  }

  /** The target is looked at first, then the minimum, the number of samples and the samples; last come what only ratios
      and only percentiles need. */
  lemma RefusedEvaluationIff(slo: Slo, values: seq<real>)
    ensures var target := 0.0 <= slo.target && (Ratio(slo) ==> slo.target <= 1.0);
      var enough, positive := slo.minimumSamples <= |values|, Within(values, 0.0, None);
      var ratios := Within(values, 0.0, Some(1.0));
      var percentile := exists p :: AsksFor(slo, p) && 0.0 < p <= 1.0;
      match Evaluate(slo, values)
      case Failure(InvalidTarget) => !target
      case Failure(InvalidMinimum) => target && slo.minimumSamples <= 0
      case Failure(TooFewSamples) => target && slo.minimumSamples > 0 && !enough
      case Failure(NegativeSample) => target && slo.minimumSamples > 0 && enough && !positive
      case Failure(RatioAboveOne) =>
        target && slo.minimumSamples > 0 && enough && positive && Ratio(slo) && !ratios
      case Failure(InvalidPercentile) =>
        target && slo.minimumSamples > 0 && enough && positive && !Ratio(slo) && !percentile
      case Success(_) =>
        target && slo.minimumSamples > 0 && enough && if Ratio(slo) then ratios else positive && percentile
  {
    hide SortBy, RankIndex, Total, TotalPreorder, Sorted;
    forall i | 0 <= i < |values| ensures values[i] in values {
    }
    assert AsksFor(slo, PercentileOf(slo));
  }

  // ---------------------------------------------------------------- the order of the samples

  lemma {:induction false} TotalIgnoresOrder(xs: seq<real>, ys: seq<real>)
    requires Permutation(xs, ys)
    ensures Total(xs) == Total(ys)
    decreases |xs|
  {
    SamePermutation(xs, ys);
    if xs == [] {
    } else {
      var i := PermutationStep(xs, ys);
      TotalIgnoresOrder(xs[1..], Without(ys, i));
      TotalAppend(ys[..i], ys[i + 1..]);
      TotalAppend(ys[..i], ys[i..]);
      assert ys == ys[..i] + ys[i..] && ys[i..][1..] == ys[i + 1..];
    }
  }

  /** The evaluation does not depend on the order of the samples. */
  lemma EvaluationIgnoresOrder(slo: Slo, values: seq<real>, values': seq<real>)
    requires Permutation(values, values')
    ensures Evaluate(slo, values) == Evaluate(slo, values')
  {
    hide SortBy;
    SamePermutation(values, values');
    TotalIgnoresOrder(values, values');
    RealOrderIsTotal();
    SortIgnoresOrder(values, values', RealOrder());
  }
}
