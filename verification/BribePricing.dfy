/** The five-stage bribe computation of the bundler's bribe optimizer. */
module BribePricing {
  import opened Numbers

  datatype Congestion = Low | Medium | High | Extreme
  datatype Level = HighPriority | MediumPriority | LowPriority

  datatype DataPoint = DataPoint(timestamp: int, included: bool, congestion: Congestion)

  datatype Params = Params(baseGasPrice: int, congestion: Congestion, urgency: real, priority: Level,
                           targetProbability: real, maxBribe: int, minBribe: int)

  const HISTORY_LIMIT := 1000
  const DAY_MS := 24 * 60 * 60 * 1000

  function CongestionPercent(c: Congestion): int {
    match c
    case Low => 100
    case Medium => 150
    case High => 250
    case Extreme => 400
  }

  function PriorityPercent(p: Level): int {
    match p
    case HighPriority => 200
    case MediumPriority => 150
    case LowPriority => 100
  }

  function UrgencyPercent(urgency: real): int {
    ((1.0 + urgency) * 100.0).Floor
  }

  function Penalty(c: Congestion): real {
    match c
    case Low => 0.0
    case Medium => 0.1
    case High => 0.2
    case Extreme => 0.3
  }

  /** Under the default inclusion model, whose base probability is 0.7. */
  function ProbabilityPercent(target: real, c: Congestion): int {
    var current := 0.7 - Penalty(c);
    if target > current then ((1.0 + (target - current) * 2.0) * 100.0).Floor else 100
  }

  function Similar(data: seq<DataPoint>, now: int, c: Congestion): seq<DataPoint> {
    if data == [] then []
    else
      var last := data[|data| - 1];
      Similar(data[..|data| - 1], now, c) + (if now - last.timestamp < DAY_MS && last.congestion == c then [last] else [])
  }

  function Included(data: seq<DataPoint>): nat {
    if data == [] then 0 else Included(data[..|data| - 1]) + (if data[|data| - 1].included then 1 else 0)
  }

  function HistoricalPercent(data: seq<DataPoint>, now: int, c: Congestion): int {
    if |data| < 10 then 100
    else
      var similar := Similar(data, now, c);
      if similar == [] then 100
      else
        var hits, n := Included(similar), |similar|;
        if 2 * hits < n then 130
        else if 10 * hits < 7 * n then 110
        else if 10 * hits > 9 * n then 90
        else 100
  }

  /** The percentages of the five stages, in order. */
  function Stages(p: Params, data: seq<DataPoint>, now: int): (ms: seq<int>)
    ensures |ms| == 5
  {
    [CongestionPercent(p.congestion), PriorityPercent(p.priority), UrgencyPercent(p.urgency),
     HistoricalPercent(data, now, p.congestion), ProbabilityPercent(p.targetProbability, p.congestion)]
  }

  /** Floor after every stage. */
  function Staged(base: int, percents: seq<int>): int {
    if percents == [] then base
    else TruncDiv(Staged(base, percents[..|percents| - 1]) * percents[|percents| - 1], 100)
  }

  function Clamp(bribe: int, lo: int, hi: int): int {
    var raised := if bribe < lo then lo else bribe;
    if raised > hi then hi else raised
  }

  class BribeOptimizer {
    var historicalData: seq<DataPoint>
    var lastOptimization: int

    constructor ()
      ensures historicalData == [] && lastOptimization == 0
    {
      historicalData, lastOptimization := [], 0;
    }

    method CalculateOptimalBribe(p: Params, now: int) returns (optimalBribe: int)
      modifies this`lastOptimization
      ensures optimalBribe == Clamp(Staged(p.baseGasPrice, Stages(p, historicalData, now)), p.minBribe, p.maxBribe)
      ensures lastOptimization == now
    {
      optimalBribe := p.baseGasPrice;
      ghost var ms := Stages(p, historicalData, now);
      assert ms[..0] == [];
      optimalBribe := TruncDiv(optimalBribe * CongestionPercent(p.congestion), 100);
      assert optimalBribe == Staged(p.baseGasPrice, ms[..1]) by { assert ms[..1][..0] == []; }
      optimalBribe := TruncDiv(optimalBribe * PriorityPercent(p.priority), 100);
      assert optimalBribe == Staged(p.baseGasPrice, ms[..2]) by { assert ms[..2][..1] == ms[..1]; }
      optimalBribe := TruncDiv(optimalBribe * UrgencyPercent(p.urgency), 100);
      assert optimalBribe == Staged(p.baseGasPrice, ms[..3]) by { assert ms[..3][..2] == ms[..2]; }
      optimalBribe := TruncDiv(optimalBribe * HistoricalPercent(historicalData, now, p.congestion), 100);
      assert optimalBribe == Staged(p.baseGasPrice, ms[..4]) by { assert ms[..4][..3] == ms[..3]; }
      optimalBribe := TruncDiv(optimalBribe * ProbabilityPercent(p.targetProbability, p.congestion), 100);
      assert optimalBribe == Staged(p.baseGasPrice, ms);
      if optimalBribe < p.minBribe {
        optimalBribe := p.minBribe;
      }
      if optimalBribe > p.maxBribe {
        optimalBribe := p.maxBribe;
      }
      lastOptimization := now;
    }

    method AddHistoricalData(point: DataPoint)
      modifies this`historicalData
      ensures historicalData == Trimmed(old(historicalData) + [point])
    {
      historicalData := historicalData + [point];
      if |historicalData| > HISTORY_LIMIT {
        historicalData := historicalData[|historicalData| - HISTORY_LIMIT..];
      }
    }
  }

  function Trimmed(data: seq<DataPoint>): seq<DataPoint> {
    if |data| > HISTORY_LIMIT then data[|data| - HISTORY_LIMIT..] else data
  }

  function Recorded(points: seq<DataPoint>): seq<DataPoint> {
    if points == [] then [] else Trimmed(Recorded(points[..|points| - 1]) + [points[|points| - 1]])
  }

  /** Trimming at every insertion keeps exactly the last thousand points of the whole run. */
  lemma {:induction false} HistoryIsRecentSuffix(points: seq<DataPoint>)
    ensures Recorded(points) == if |points| > 1000 then points[|points| - 1000..] else points
  {
    if points != [] {
      var front := points[..|points| - 1];
      HistoryIsRecentSuffix(front);
      assert points == front + [points[|points| - 1]];
    }
  }

  // ---------- How far the floored stages can fall ----------

  function Pow100(n: nat): (r: nat)
    ensures r >= 1
  {
    if n == 0 then 1 else 100 * Pow100(n - 1)
  }

  /** The product of the base and all percentages, without dividing. */
  function Exact(base: int, percents: seq<int>): int {
    if percents == [] then base
    else Exact(base, percents[..|percents| - 1]) * percents[|percents| - 1]
  }

  /** The most that flooring can lose, in units of 100^-n. */
  function Slack(percents: seq<int>): int {
    if percents == [] then 0
    else Slack(percents[..|percents| - 1]) * percents[|percents| - 1] + Pow100(|percents| - 1) * 99
  }

  ghost predicate NonNegative(percents: seq<int>) {
    forall i :: 0 <= i < |percents| ==> percents[i] >= 0
  }

  /** For any number of stages: never above the exact product, and below it by at most the slack. */
  lemma {:induction false} StagedError(base: nat, percents: seq<int>)
    requires NonNegative(percents)
    ensures Staged(base, percents) >= 0
    ensures 0 <= Exact(base, percents) - Pow100(|percents|) * Staged(base, percents) <= Slack(percents)
  {
    if percents != [] {
      var n := |percents| - 1;
      var front, m := percents[..n], percents[n];
      StagedError(base, front);
      StageTerms(Exact(base, front), Pow100(n), Staged(base, front), m, Slack(front));
    }
  }

  lemma StageTerms(exact: int, unit: nat, value: nat, m: nat, slack: int)
    requires unit >= 1 && 0 <= exact - unit * value <= slack
    ensures var next := TruncDiv(value * m, 100);
            next >= 0 && 0 <= exact * m - 100 * unit * next <= slack * m + unit * 99
  {
    MulPos(value, m);
    var next := value * m / 100;
    var lost := value * m - 100 * next;
    MulPos(unit, lost);
    MulLe(lost, 99, unit);
    MulPos(exact - unit * value, m);
    MulLe(exact - unit * value, slack, m);
    StageSplit(exact, unit, value, m, next, lost);
  }

  lemma StageSplit(exact: int, unit: int, value: int, m: int, next: int, lost: int)
    requires lost == value * m - 100 * next
    ensures exact * m - 100 * unit * next == (exact - unit * value) * m + unit * lost
  {
    calc {
      (exact - unit * value) * m + unit * lost;
      exact * m - unit * (value * m) + unit * (value * m - 100 * next);
      exact * m - 100 * unit * next;
    }
  }

  lemma StageRanges(p: Params, data: seq<DataPoint>, now: int)
    requires 0.0 <= p.urgency <= 1.0 && p.targetProbability <= 1.0
    ensures var ms := Stages(p, data, now);
            && 100 <= ms[0] <= 400 && 100 <= ms[1] <= 200 && 100 <= ms[2] <= 200
            && 90 <= ms[3] <= 130 && 100 <= ms[4] <= 220
  {
  }

  lemma SlackOfFive(ms: seq<int>)
    requires |ms| == 5
    requires 0 <= ms[0] && 0 <= ms[1] <= 200 && 0 <= ms[2] <= 200 && 0 <= ms[3] <= 130 && 0 <= ms[4] <= 220
    ensures Slack(ms) < 24 * Pow100(5)
  {
    assert ms[..4][..3] == ms[..3] && ms[..3][..2] == ms[..2] && ms[..2][..1] == ms[..1] && ms[..1][..0] == [];
    var s1, s2, s3, s4 := Slack(ms[..1]), Slack(ms[..2]), Slack(ms[..3]), Slack(ms[..4]);
    assert Slack(ms[..1][..0]) == 0;
    assert s1 == 99;
    MulLe(ms[1], 200, s1);
    assert 0 <= s2 <= 99 * 200 + 9900;
    MulLe(s2, 29_700, ms[2]); MulLe(ms[2], 200, 29_700); MulPos(s2, ms[2]);
    assert Pow100(2) == 10_000 && Pow100(3) == 1_000_000 && Pow100(4) == 100_000_000;
    assert 0 <= s3 <= 29_700 * 200 + 990_000;
    MulLe(s3, 6_930_000, ms[3]); MulLe(ms[3], 130, 6_930_000); MulPos(s3, ms[3]);
    assert 0 <= s4 <= 6_930_000 * 130 + 99_000_000;
    MulLe(s4, 999_900_000, ms[4]); MulLe(ms[4], 220, 999_900_000); MulPos(s4, ms[4]);
  }

  /**
   * The unclamped bribe is at most the exact product of the five percentages and less than 24 wei below it.
   */
  lemma FiveStagesWithin24(p: Params, data: seq<DataPoint>, now: int)
    requires p.baseGasPrice >= 0 && 0.0 <= p.urgency <= 1.0 && p.targetProbability <= 1.0
    ensures var ms := Stages(p, data, now);
            var r := Staged(p.baseGasPrice, ms);
            Pow100(5) * r <= Exact(p.baseGasPrice, ms) < Pow100(5) * (r + 24)
  {
    StageRanges(p, data, now);
    var ms := Stages(p, data, now);
    StagedError(p.baseGasPrice, ms);
    SlackOfFive(ms);
  }

  lemma {:induction false} StagedMonotone(base: nat, base': nat, percents: seq<int>)
    requires base <= base' && NonNegative(percents)
    ensures 0 <= Staged(base, percents) <= Staged(base', percents)
  {
    if percents != [] {
      var front, m := percents[..|percents| - 1], percents[|percents| - 1];
      StagedMonotone(base, base', front);
      MulLe(Staged(base, front), Staged(base', front), m);
      MulPos(Staged(base, front), m);
      DivMono(Staged(base, front) * m, Staged(base', front) * m, 100);
    }
  }

  /** A higher base gas price never lowers the bribe; the bounds hold exactly when they are consistent, and only they move it. */
  lemma BribeMonotoneAndBounded(p: Params, base': int, data: seq<DataPoint>, now: int)
    requires 0 <= p.baseGasPrice <= base' && 0.0 <= p.urgency <= 1.0 && p.targetProbability <= 1.0
    ensures var ms := Stages(p, data, now);
            var r, r' := Clamp(Staged(p.baseGasPrice, ms), p.minBribe, p.maxBribe),
                         Clamp(Staged(base', ms), p.minBribe, p.maxBribe);
            && r <= r' && r <= p.maxBribe
            && (p.minBribe <= r <==> p.minBribe <= p.maxBribe)
            && (r != Staged(p.baseGasPrice, ms) ==>
                  || (r == p.maxBribe && (r < Staged(p.baseGasPrice, ms) || r < p.minBribe))
                  || (r == p.minBribe > Staged(p.baseGasPrice, ms)))
  {
    StageRanges(p, data, now);
    StagedMonotone(p.baseGasPrice, base', Stages(p, data, now));
  }

  // ---------- What the five stages mean ----------

  /** The points less than a day old that were seen under the same congestion. */
  ghost function Comparable(data: seq<DataPoint>, now: int, c: Congestion): set<nat> {
    set i: nat | i < |data| && now - data[i].timestamp < 86_400_000 && data[i].congestion == c
  }

  ghost function Hits(data: seq<DataPoint>, now: int, c: Congestion): set<nat> {
    set i: nat | i in Comparable(data, now, c) && data[i].included
  }

  ghost predicate Alike(x: DataPoint, now: int, c: Congestion) {
    now - x.timestamp < 86_400_000 && x.congestion == c
  }

  lemma ComparableSnoc(front: seq<DataPoint>, x: DataPoint, now: int, c: Congestion)
    ensures Comparable(front + [x], now, c) == Comparable(front, now, c) + (if Alike(x, now, c) then {|front|} else {})
    ensures |front| !in Comparable(front, now, c)
  {
  }

  lemma HitsSnoc(front: seq<DataPoint>, x: DataPoint, now: int, c: Congestion)
    ensures Hits(front + [x], now, c) == Hits(front, now, c) + (if Alike(x, now, c) && x.included then {|front|} else {})
  {
    ComparableSnoc(front, x, now, c);
  }

  lemma SimilarSnoc(front: seq<DataPoint>, x: DataPoint, now: int, c: Congestion)
    ensures Similar(front + [x], now, c) == if Alike(x, now, c) then Similar(front, now, c) + [x] else Similar(front, now, c)
  {
    assert (front + [x])[..|front|] == front;
  }

  lemma IncludedSnoc(front: seq<DataPoint>, x: DataPoint)
    ensures Included(front + [x]) == Included(front) + (if x.included then 1 else 0)
  {
    assert (front + [x])[..|front|] == front;
  }

  lemma {:induction false} SimilarCounts(data: seq<DataPoint>, now: int, c: Congestion)
    ensures |Similar(data, now, c)| == |Comparable(data, now, c)|
    ensures Included(Similar(data, now, c)) == |Hits(data, now, c)|
  {
    if data != [] {
      var front, last := data[..|data| - 1], data[|data| - 1];
      SimilarCounts(front, now, c);
      assert data == front + [last];
      ComparableSnoc(front, last, now, c);
      HitsSnoc(front, last, now, c);
      SimilarSnoc(front, last, now, c);
      IncludedSnoc(Similar(front, now, c), last);
    } else {
      assert Comparable(data, now, c) == {} && Hits(data, now, c) == {};
    }
  }

  /**
   * The learning stage by the inclusion rate of the comparable points: neutral without ten points or a comparable
   * one, otherwise 1.3 below one half, 1.1 below seven tenths, 0.9 above nine tenths.
   */
  lemma HistoryFollowsRate(data: seq<DataPoint>, now: int, c: Congestion)
    ensures var n, hits := |Comparable(data, now, c)|, |Hits(data, now, c)|;
            var percent := HistoricalPercent(data, now, c);
            && (percent == 130 <==> |data| >= 10 && n > 0 && 2 * hits < n)
            && (percent == 110 <==> |data| >= 10 && n > 0 && 2 * hits >= n && 10 * hits < 7 * n)
            && (percent == 90 <==> |data| >= 10 && n > 0 && 10 * hits > 9 * n)
            && percent in {130, 110, 100, 90}
  {
    SimilarCounts(data, now, c);
  }

  function CongestionMultiplier(c: Congestion): real {
    match c
    case Low => 1.0
    case Medium => 1.5
    case High => 2.5
    case Extreme => 4.0
  }

  function PriorityMultiplier(p: Level): real {
    match p
    case HighPriority => 2.0
    case MediumPriority => 1.5
    case LowPriority => 1.0
  }

  /** 0.7, less a tenth for every step of congestion above low. */
  function ExpectedProbability(c: Congestion): real {
    0.7 - (if c.Low? then 0.0 else if c.Medium? then 0.1 else if c.High? then 0.2 else 0.3)
  }

  /** The factor in percent, rounded down. */
  ghost predicate PercentOf(percent: int, factor: real) { percent as real <= 100.0 * factor < percent as real + 1.0 }

  lemma StagesArePercents(p: Params, data: seq<DataPoint>, now: int)
    ensures var ms := Stages(p, data, now);
            var gap := p.targetProbability - ExpectedProbability(p.congestion);
            && ms[0] as real == 100.0 * CongestionMultiplier(p.congestion)
            && ms[1] as real == 100.0 * PriorityMultiplier(p.priority)
            && PercentOf(ms[2], 1.0 + p.urgency)
            && ms[3] == HistoricalPercent(data, now, p.congestion)
            && PercentOf(ms[4], 1.0 + (if gap > 0.0 then 2.0 * gap else 0.0))
  {
  }

  ghost function Product(base: real, factors: seq<real>): real {
    if factors == [] then base else Product(base, factors[..|factors| - 1]) * factors[|factors| - 1]
  }

  /** The five factors, unrounded. */
  ghost function Factors(p: Params, data: seq<DataPoint>, now: int): seq<real> {
    var gap := p.targetProbability - ExpectedProbability(p.congestion);
    [CongestionMultiplier(p.congestion), PriorityMultiplier(p.priority), 1.0 + p.urgency,
     HistoricalPercent(data, now, p.congestion) as real / 100.0, 1.0 + (if gap > 0.0 then 2.0 * gap else 0.0)]
  }

  /** Percentages rounded down and stages floored: never above the product of the factors themselves. */
  lemma {:induction false} StagedBelowProduct(base: nat, percents: seq<int>, factors: seq<real>)
    requires |percents| == |factors| && NonNegative(percents)
    requires forall i :: 0 <= i < |percents| ==> percents[i] as real <= 100.0 * factors[i]
    ensures 0.0 <= Staged(base, percents) as real <= Product(base as real, factors)
  {
    if percents != [] {
      var n := |percents| - 1;
      StagedBelowProduct(base, percents[..n], factors[..n]);
      StageBelow(Staged(base, percents[..n]), percents[n], Product(base as real, factors[..n]), factors[n]);
    }
  }

  lemma StageBelow(value: int, percent: int, product: real, factor: real)
    requires 0.0 <= value as real <= product && 0 <= percent && percent as real <= 100.0 * factor
    ensures 0.0 <= TruncDiv(value * percent, 100) as real <= product * factor
  {
    MulPos(value, percent);
    DivBounds(value * percent, 100);
    CastProduct(value, percent);
    ProductBelow(value as real, percent as real, product, factor);
  }

  lemma CastProduct(a: int, b: int)
    ensures (a * b) as real == a as real * b as real
  {
  }

  lemma ProductBelow(value: real, percent: real, product: real, factor: real)
    requires 0.0 <= value <= product && 0.0 <= percent <= 100.0 * factor
    ensures value * percent <= 100.0 * (product * factor)
  {
    MulLeReal(value, product, percent);
    MulLeReal(percent, 100.0 * factor, product);
    assert product * (100.0 * factor) == 100.0 * (product * factor);
  }

  lemma MulLeReal(a: real, b: real, c: real)
    requires a <= b && c >= 0.0
    ensures a * c <= b * c && c * a <= c * b
  {
  }

  /** The unclamped bribe never exceeds the base price times the five factors. */
  lemma BribeBelowFactors(p: Params, data: seq<DataPoint>, now: int)
    requires p.baseGasPrice >= 0 && 0.0 <= p.urgency <= 1.0 && p.targetProbability <= 1.0
    ensures Staged(p.baseGasPrice, Stages(p, data, now)) as real <= Product(p.baseGasPrice as real, Factors(p, data, now))
  {
    StageRanges(p, data, now);
    StagesArePercents(p, data, now);
    StagedBelowProduct(p.baseGasPrice, Stages(p, data, now), Factors(p, data, now));
  }
}
