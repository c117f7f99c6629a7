/** The constant-product quote for volatile pools, and what follows for runs of swaps. */
module VolatileSwap {
  import opened Numbers

  const BPS := 10_000

  /** Reserves and fee come from `uint256` contract reads. */
  datatype Pool = Pool(reserve0: nat, reserve1: nat, fee: nat)

  /** A BigInt division by zero throws; every other call returns an amount. */
  datatype Quote = Amount(out: int) | DivisionByZero

  function FeeAmount(amountIn: int, fee: nat): int {
    TruncDiv(amountIn * fee, BPS)
  }

  function AfterFee(amountIn: int, fee: nat): int {
    amountIn - FeeAmount(amountIn, fee)
  }

  function QuoteVolatile(amountIn: int, pool: Pool, zeroForOne: bool): Quote {
    var net := AfterFee(amountIn, pool.fee);
    var reserveIn := if zeroForOne then pool.reserve0 else pool.reserve1;
    var reserveOut := if zeroForOne then pool.reserve1 else pool.reserve0;
    var numerator := net * reserveOut;
    var denominator := reserveIn + net;
    if denominator == 0 then DivisionByZero else Amount(TruncDiv(numerator, denominator))
  }

  /** The output for a non-negative after-fee input `a` against reserves `x` and `y`. */
  function Out(x: nat, y: nat, a: nat): nat
    requires x + a > 0
  {
    MulPos(a, y);
    a * y / (x + a)
  }

  lemma OutBounds(x: nat, y: nat, a: nat)
    requires x + a > 0
    ensures Out(x, y, a) * (x + a) <= a * y < (Out(x, y, a) + 1) * (x + a)
    ensures Out(x, y, a) <= y
    ensures x > 0 && y > 0 ==> Out(x, y, a) < y
  {
    var o := Out(x, y, a);
    MulPos(a, y);
    DivBounds(a * y, x + a);
    assert a * y <= y * (x + a) by { MulPos(x, y); }
    if o > y {
      MulLe(y + 1, o, x + a);
    }
    if x > 0 && y > 0 && o >= y {
      MulLe(y, o, x + a);
      MulPos(x, y);
    }
  }

  lemma AfterFeeRange(amountIn: nat, fee: nat)
    requires fee <= BPS
    ensures 0 <= AfterFee(amountIn, fee) <= amountIn
  {
    MulPos(amountIn, fee);
    MulLe(fee, BPS, amountIn);
    TruncDivWithin(amountIn * fee, BPS, 0, amountIn);
  }

  /** For a fee of at most 100% the quote fails exactly on an empty input side, and otherwise is `Out`. */
  lemma QuoteVolatileMeaning(amountIn: nat, pool: Pool, zeroForOne: bool)
    requires pool.fee <= BPS
    ensures var net := AfterFee(amountIn, pool.fee);
            var x := if zeroForOne then pool.reserve0 else pool.reserve1;
            var y := if zeroForOne then pool.reserve1 else pool.reserve0;
            && 0 <= net <= amountIn
            && (QuoteVolatile(amountIn, pool, zeroForOne) == DivisionByZero <==> x == 0 && net == 0)
            && (x + net > 0 ==> QuoteVolatile(amountIn, pool, zeroForOne) == Amount(Out(x, y, net)))
  {
    AfterFeeRange(amountIn, pool.fee);
    var net := AfterFee(amountIn, pool.fee);
    MulPos(net, if zeroForOne then pool.reserve1 else pool.reserve0);
  }

  /** Reference meaning: the quote is the largest output that keeps the reserve product from falling. */
  lemma OutIsLargest(x: nat, y: nat, a: nat, t: int)
    requires x + a > 0
    ensures (x + a) * (y - t) >= x * y <==> t <= Out(x, y, a)
  {
    var o := Out(x, y, a);
    OutBounds(x, y, a);
    assert (x + a) * (y - t) - x * y == a * y - t * (x + a);
    if t <= o {
      MulLe(t, o, x + a);
    } else {
      MulLe(o + 1, t, x + a);
    }
  }

  /** The fee of `amountIn`, rounded down: what is left of it goes into the pool. */
  ghost predicate NetOfFee(amountIn: nat, fee: nat, net: int) {
    10_000 * (amountIn - net) <= amountIn * fee < 10_000 * (amountIn - net + 1)
  }

  lemma NetOfFeeIs(amountIn: nat, fee: nat, net: int)
    requires fee <= BPS
    ensures NetOfFee(amountIn, fee, net) <==> net == AfterFee(amountIn, fee)
  {
    MulPos(amountIn, fee);
    DivBounds(amountIn * fee, BPS);
    LeDiv(amountIn - net, amountIn * fee, BPS);
    LeDiv(amountIn - net + 1, amountIn * fee, BPS);
  }

  /** The whole quote without a division: the largest output for which the pool, given the net input, keeps its product. */
  lemma QuoteIsLargest(amountIn: nat, pool: Pool, zeroForOne: bool, net: int, t: int)
    requires pool.fee <= BPS && NetOfFee(amountIn, pool.fee, net)
    ensures var x := if zeroForOne then pool.reserve0 else pool.reserve1;
            var y := if zeroForOne then pool.reserve1 else pool.reserve0;
            var q := QuoteVolatile(amountIn, pool, zeroForOne);
            && net >= 0 && (q.Amount? <==> x + net > 0)
            && (q.Amount? ==> (t <= q.out <==> (x + net) * (y - t) >= x * y))
  {
    NetOfFeeIs(amountIn, pool.fee, net);
    QuoteVolatileMeaning(amountIn, pool, zeroForOne);
    var x := if zeroForOne then pool.reserve0 else pool.reserve1;
    var y := if zeroForOne then pool.reserve1 else pool.reserve0;
    if x + net > 0 {
      OutIsLargest(x, y, net, t);
    }
  }

  // ---------- Splitting one swap into many ----------

  /** Total output of same-direction swaps executed one after another on updated reserves. */
  function SplitOut(x: nat, y: nat, nets: seq<nat>): nat
    requires x > 0
    decreases |nets|
  {
    if nets == [] then 0
    else
      var o := Out(x, y, nets[0]);
      OutBounds(x, y, nets[0]);
      o + SplitOut(x + nets[0], y - o, nets[1..])
  }

  lemma TwoSwaps(x: nat, y: nat, a: nat, b: nat)
    requires x > 0
    ensures Out(x, y, a) <= y
    ensures Out(x, y, a) + Out(x + a, y - Out(x, y, a), b) <= Out(x, y, a + b)
  {
    OutBounds(x, y, a);
    var o := Out(x, y, a);
    OutBounds(x + a, y - o, b);
    var p := Out(x + a, y - o, b);
    TwoSwapTerms(x, y, a, b, o, p);
    LeDiv(o + p, (a + b) * y, x + (a + b));
  }

  lemma TwoSwapTerms(x: nat, y: nat, a: nat, b: nat, o: nat, p: nat)
    requires o * (x + a) <= a * y
    requires p * (x + a + b) <= b * (y - o)
    ensures (o + p) * (x + (a + b)) <= (a + b) * y
  {
    calc {
      (o + p) * (x + (a + b));
      o * (x + a) + o * b + p * (x + a + b);
    <=
      a * y + o * b + b * (y - o);
      { assert b * (y - o) == b * y - b * o; }
      (a + b) * y;
    }
  }

  /** Splitting an after-fee amount never beats one swap of the whole, although every step floors. */
  lemma {:induction false} NoSplitGain(x: nat, y: nat, nets: seq<nat>)
    requires x > 0
    ensures SplitOut(x, y, nets) <= Out(x, y, Sum(nets))
    decreases |nets|
  {
    if nets != [] {
      var o := Out(x, y, nets[0]);
      OutBounds(x, y, nets[0]);
      NoSplitGain(x + nets[0], y - o, nets[1..]);
      TwoSwaps(x, y, nets[0], Sum(nets[1..]));
    }
  }

  lemma OneStepLoss(x: nat, y: nat, a: nat, o: nat)
    requires a * y < (o + 1) * (x + a)
    ensures (x + a) * (y - o) <= x * y + (x + a)
  {
    calc {
      (x + a) * (y - o);
      x * y + a * y - o * (x + a);
      x * y + a * y - (o + 1) * (x + a) + (x + a);
    }
  }

  lemma Succ(n: int, c: int)
    ensures (n + 1) * c == n * c + c
  {
  }

  /** Splitting loses less than one unit per swap against the exact curve. */
  lemma {:induction false} SplitLoss(x: nat, y: nat, nets: seq<nat>)
    requires x > 0
    ensures SplitOut(x, y, nets) <= y
    ensures (y - SplitOut(x, y, nets)) * (x + Sum(nets)) <= x * y + |nets| * (x + Sum(nets))
    decreases |nets|
  {
    if nets != [] {
      var a, rest := nets[0], nets[1..];
      var o := Out(x, y, a);
      OutBounds(x, y, a);
      SplitLoss(x + a, y - o, rest);
      OneStepLoss(x, y, a, o);
      var total := x + Sum(nets);
      Succ(|rest|, total);
    }
  }

  function AfterFees(parts: seq<nat>, fee: nat): (nets: seq<nat>)
    requires fee <= BPS
    ensures |nets| == |parts|
  {
    if parts == [] then []
    else AfterFeeRange(parts[0], fee); [AfterFee(parts[0], fee)] + AfterFees(parts[1..], fee)
  }

  function FeesPaid(parts: seq<nat>, fee: nat): int {
    if parts == [] then 0 else FeeAmount(parts[0], fee) + FeesPaid(parts[1..], fee)
  }

  lemma FeeFloor(amount: nat, fee: nat)
    ensures FeeAmount(amount, fee) * BPS <= amount * fee
  {
    MulPos(amount, fee);
    DivBounds(amount * fee, BPS);
  }

  lemma Distribute(a: int, b: int, c: int)
    ensures (a + b) * c == a * c + b * c
  {
  }

  lemma {:induction false} FeesOfParts(parts: seq<nat>, fee: nat)
    requires fee <= BPS
    ensures Sum(AfterFees(parts, fee)) == Sum(parts) - FeesPaid(parts, fee)
    ensures FeesPaid(parts, fee) * BPS <= Sum(parts) * fee
  {
    if parts != [] {
      FeesOfParts(parts[1..], fee);
      assert AfterFees(parts, fee)[1..] == AfterFees(parts[1..], fee);
      FeeFloor(parts[0], fee);
      Distribute(parts[0], Sum(parts[1..]), fee);
    }
  }

  /** Flooring the fee on every part never charges more than flooring it once. */
  lemma PartsPayNoMoreFee(parts: seq<nat>, fee: nat)
    requires fee <= BPS
    ensures FeesPaid(parts, fee) <= FeeAmount(Sum(parts), fee)
    ensures AfterFee(Sum(parts), fee) <= Sum(AfterFees(parts, fee))
  {
    FeesOfParts(parts, fee);
    MulPos(Sum(parts), fee);
    LeDiv(FeesPaid(parts, fee), Sum(parts) * fee, BPS);
  }

  /** Splitting a gross amount is never better than one swap, on the pool with reserves `x` and `y`. */
  ghost predicate SplitNoBetter(parts: seq<nat>, fee: nat, x: nat, y: nat)
    requires fee <= BPS && x > 0
  {
    AfterFeeRange(Sum(parts), fee);
    SplitOut(x, y, AfterFees(parts, fee)) <= Out(x, y, AfterFee(Sum(parts), fee))
  }

  /** Keeping at least what one swap keeps contradicts the loss bound once `y` is large. */
  lemma LossIsSmall(n: nat, once: nat, split: nat, y: nat, keptOnce: int, keptSplit: int)
    requires split >= once + 1
    requires y == LargeReserve(n, once, split)
    requires keptOnce * (1 + once) >= y
    requires keptSplit * (1 + split) <= y + n * (1 + split)
    ensures keptSplit < keptOnce
  {
    if keptOnce <= keptSplit {
      MulLe(keptOnce, keptSplit, 1 + once);
      LossTerms(n, 1 + once, 1 + split, y, keptSplit);
      Succ(n, (1 + once) * (1 + split));
      MulPos(1 + once, 1 + split);
    }
  }

  lemma LossTerms(n: nat, u: nat, v: nat, y: nat, kept: int)
    requires 1 <= u && u + 1 <= v
    requires kept * u >= y && kept * v <= y + n * v
    ensures y <= n * (u * v)
  {
    calc {
      y * u + y;
    <= { MulLe(u + 1, v, y); Distribute(u, 1, y); }
      y * v;
    <= { MulLe(y, kept * u, v); }
      kept * u * v;
    == { Reassociate(kept, u, v); }
      kept * v * u;
    <= { MulLe(kept * v, y + n * v, u); }
      (y + n * v) * u;
    == { Distribute(y, n * v, u); Reassociate(n, v, u); }
      y * u + n * (u * v);
    }
  }

  function LargeReserve(n: nat, once: nat, split: nat): nat {
    MulPos(1 + once, 1 + split);
    MulPos(n + 1, (1 + once) * (1 + split));
    (n + 1) * ((1 + once) * (1 + split)) + 1
  }

  lemma Reassociate(a: int, b: int, c: int)
    ensures a * b * c == a * c * b
    ensures a * b * c == a * (c * b)
  {
  }

  /** A pool on which under-charged fees show up in the output. */
  lemma SplitGainWitness(parts: seq<nat>, fee: nat) returns (y: nat)
    requires fee <= BPS
    requires FeesPaid(parts, fee) != FeeAmount(Sum(parts), fee)
    ensures !SplitNoBetter(parts, fee, 1, y)
  {
    AfterFeeRange(Sum(parts), fee);
    PartsPayNoMoreFee(parts, fee);
    FeesOfParts(parts, fee);
    var nets := AfterFees(parts, fee);
    var n, once, split := |parts|, AfterFee(Sum(parts), fee), Sum(nets);
    y := LargeReserve(n, once, split);
    SplitLoss(1, y, nets);
    OutBounds(1, y, once);
    OutIsLargest(1, y, once, Out(1, y, once));
    var keptOnce, keptSplit := y - Out(1, y, once), y - SplitOut(1, y, nets);
    assert keptOnce * (1 + once) >= y by {
      assert (1 + once) * keptOnce >= 1 * y;
    }
    assert keptSplit * (1 + split) <= y + n * (1 + split);
    LossIsSmall(n, once, split, y, keptOnce, keptSplit);
  }

  /**
   * On gross amounts splitting can win, because the fee is floored per swap. It never wins on any pool
   * exactly when the parts pay the fee of the whole.
   */
  lemma SplitNoBetterIff(parts: seq<nat>, fee: nat)
    requires fee <= BPS
    ensures (forall x: nat, y: nat | x > 0 :: SplitNoBetter(parts, fee, x, y))
       <==> FeesPaid(parts, fee) == FeeAmount(Sum(parts), fee)
  {
    if FeesPaid(parts, fee) == FeeAmount(Sum(parts), fee) {
      forall x: nat, y: nat | x > 0
        ensures SplitNoBetter(parts, fee, x, y)
      {
        AfterFeeRange(Sum(parts), fee);
        FeesOfParts(parts, fee);
        NoSplitGain(x, y, AfterFees(parts, fee));
      }
    } else {
      var y := SplitGainWitness(parts, fee);
    }
  }

  /** Two one-unit swaps at a 50% fee pay no fee at all: 66 out instead of 50. */
  lemma SplitGainExample()
    ensures SplitOut(1, 100, AfterFees([1, 1], 5000)) == 66
    ensures QuoteVolatile(Sum([1, 1]), Pool(1, 100, 5000), true) == Amount(50)
  {
    var one: seq<nat> := [1];
    var two: seq<nat> := [1, 1];
    assert two[1..] == one && one[1..] == [];
    assert AfterFees(one, 5000) == one;
    assert AfterFees(two, 5000) == two;
    assert Out(1, 100, 1) == 50;
    assert Out(2, 50, 1) == 16;
    assert SplitOut(2, 50, one) == 16;
    assert Sum(one) == 1;
  }

  // ---------- Runs of swaps in either direction ----------

  datatype Trade = Trade(amountIn: nat, zeroForOne: bool)

  ghost predicate Live(pool: Pool) {
    pool.reserve0 > 0 && pool.reserve1 > 0 && pool.fee <= BPS
  }

  /** What the trader gives (gross) and receives, and the pool afterwards (fee kept outside the reserves). */
  function Apply(pool: Pool, t: Trade): (Pool, nat)
    requires Live(pool)
  {
    QuoteVolatileMeaning(t.amountIn, pool, t.zeroForOne);
    var net := AfterFee(t.amountIn, pool.fee);
    var o := QuoteVolatile(t.amountIn, pool, t.zeroForOne).out;
    if t.zeroForOne then
      OutBounds(pool.reserve0, pool.reserve1, net);
      (pool.(reserve0 := pool.reserve0 + net, reserve1 := pool.reserve1 - o), o)
    else
      OutBounds(pool.reserve1, pool.reserve0, net);
      (pool.(reserve0 := pool.reserve0 - o, reserve1 := pool.reserve1 + net), o)
  }

  /** The trader's balance change in each token over a run. */
  datatype Outcome = Outcome(pool: Pool, gain0: int, gain1: int)

  lemma ApplyKeepsProduct(pool: Pool, t: Trade)
    requires Live(pool)
    ensures var p := Apply(pool, t).0;
            Live(p) && p.reserve0 * p.reserve1 >= pool.reserve0 * pool.reserve1
  {
    QuoteVolatileMeaning(t.amountIn, pool, t.zeroForOne);
    var net := AfterFee(t.amountIn, pool.fee);
    if t.zeroForOne {
      OutBounds(pool.reserve0, pool.reserve1, net);
      OutIsLargest(pool.reserve0, pool.reserve1, net, Out(pool.reserve0, pool.reserve1, net));
    } else {
      OutBounds(pool.reserve1, pool.reserve0, net);
      OutIsLargest(pool.reserve1, pool.reserve0, net, Out(pool.reserve1, pool.reserve0, net));
    }
  }

  function Run(pool: Pool, trades: seq<Trade>): Outcome
    requires Live(pool)
    decreases |trades|
  {
    if trades == [] then Outcome(pool, 0, 0)
    else
      var t := trades[0];
      var (p, o) := Apply(pool, t);
      ApplyKeepsProduct(pool, t);
      var rest := Run(p, trades[1..]);
      if t.zeroForOne then rest.(gain0 := rest.gain0 - t.amountIn, gain1 := rest.gain1 + o)
      else rest.(gain0 := rest.gain0 + o, gain1 := rest.gain1 - t.amountIn)
  }

  /** Over any run the product never falls, and the trader gains at most what the reserves lose. */
  lemma {:induction false} RunKeepsProduct(pool: Pool, trades: seq<Trade>)
    requires Live(pool)
    ensures var r := Run(pool, trades);
            && Live(r.pool)
            && r.pool.reserve0 * r.pool.reserve1 >= pool.reserve0 * pool.reserve1
            && r.gain0 <= pool.reserve0 - r.pool.reserve0
            && r.gain1 <= pool.reserve1 - r.pool.reserve1
    decreases |trades|
  {
    if trades != [] {
      var t := trades[0];
      var (p, o) := Apply(pool, t);
      ApplyKeepsProduct(pool, t);
      RunKeepsProduct(p, trades[1..]);
      QuoteVolatileMeaning(t.amountIn, pool, t.zeroForOne);
    }
  }

  /** A run in one direction is a split: its gains are the gross input and the split's output. */
  lemma {:induction false} OneWayRun(pool: Pool, parts: seq<nat>, trades: seq<Trade>)
    requires Live(pool) && |trades| == |parts|
    requires forall i :: 0 <= i < |parts| ==> trades[i] == Trade(parts[i], true)
    ensures var r := Run(pool, trades);
            && r.gain0 == 0 - Sum(parts) && r.gain1 == SplitOut(pool.reserve0, pool.reserve1, AfterFees(parts, pool.fee))
            && r.pool.reserve0 == pool.reserve0 + Sum(AfterFees(parts, pool.fee))
            && r.pool.reserve1 == pool.reserve1 - r.gain1
    decreases |trades|
  {
    if trades != [] {
      ApplyKeepsProduct(pool, trades[0]);
      var p := Apply(pool, trades[0]).0;
      QuoteVolatileMeaning(parts[0], pool, true);
      OneWayRun(p, parts[1..], trades[1..]);
      assert AfterFees(parts, pool.fee)[1..] == AfterFees(parts[1..], pool.fee);
    }
  }

  function Mirror(pool: Pool): Pool { Pool(pool.reserve1, pool.reserve0, pool.fee) }

  /** The two directions are each other's mirror image. */
  lemma {:induction false} MirroredRun(pool: Pool, trades: seq<Trade>, mirrored: seq<Trade>)
    requires Live(pool) && |mirrored| == |trades|
    requires forall i :: 0 <= i < |trades| ==> mirrored[i] == Trade(trades[i].amountIn, !trades[i].zeroForOne)
    ensures Live(Mirror(pool))
    ensures var r := Run(pool, trades); Run(Mirror(pool), mirrored) == Outcome(Mirror(r.pool), r.gain1, r.gain0)
    decreases |trades|
  {
    if trades != [] {
      var p := Apply(pool, trades[0]).0;
      ApplyKeepsProduct(pool, trades[0]);
      assert Apply(Mirror(pool), mirrored[0]) == (Mirror(p), Apply(pool, trades[0]).1);
      MirroredRun(p, trades[1..], mirrored[1..]);
    }
  }

  lemma ProductForcesRise(a: nat, b: nat, c: nat, d: nat)
    requires a > 0 && b > 0 && c * d >= a * b && c < a
    ensures d > b
  {
    if d <= b {
      MulLe(c, a - 1, d);
      MulLe(d, b, a - 1);
    }
  }

  lemma BothWays(a: nat, b: nat, c: nat, d: nat)
    requires a > 0 && b > 0 && c * d >= a * b
    ensures (c < a ==> d > b) && (d < b ==> c > a)
  {
    if c < a { ProductForcesRise(a, b, c, d); }
    if d < b && c <= a {
      MulLe(c, a, d);
      MulLe(d, b - 1, a);
    }
  }

  /** No run lowers one reserve without raising the other. */
  lemma RunTradesOff(pool: Pool, trades: seq<Trade>)
    requires Live(pool)
    ensures var p := Run(pool, trades).pool;
            && (p.reserve0 < pool.reserve0 ==> p.reserve1 > pool.reserve1)
            && (p.reserve1 < pool.reserve1 ==> p.reserve0 > pool.reserve0)
  {
    RunKeepsProduct(pool, trades);
    var p := Run(pool, trades).pool;
    BothWays(pool.reserve0, pool.reserve1, p.reserve0, p.reserve1);
  }

  /** No run of swaps, in any directions and at any fee, leaves the trader ahead in one token and not behind in the other. */
  lemma NoFreeRun(pool: Pool, trades: seq<Trade>)
    requires Live(pool)
    ensures var r := Run(pool, trades);
            && (r.gain0 > 0 ==> r.gain1 < 0)
            && (r.gain1 > 0 ==> r.gain0 < 0)
  {
    RunKeepsProduct(pool, trades);
    RunTradesOff(pool, trades);
  }

  /** Swapping forward and all the proceeds back returns at most what was put in. */
  lemma RoundTrip(pool: Pool, amountIn: nat, zeroForOne: bool)
    requires Live(pool)
    ensures var (p, o) := Apply(pool, Trade(amountIn, zeroForOne));
            Live(p) && Apply(p, Trade(o, !zeroForOne)).1 <= amountIn
  {
    var first := Trade(amountIn, zeroForOne);
    var (p, o) := Apply(pool, first);
    ApplyKeepsProduct(pool, first);
    var back := Trade(o, !zeroForOne);
    var trades := [first, back];
    assert trades[1..] == [back] && [back][1..] == [];
    ApplyKeepsProduct(p, back);
    assert Run(p, [back]).pool == Apply(p, back).0;
    NoFreeRun(pool, trades);
  }
}
