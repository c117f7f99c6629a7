/** The running average profit kept per competitor address. */
module CompetitorStats {
  import opened Numbers
  import opened Text
  import opened Options

  datatype Transaction = Transaction(from: Address, timestamp: int, profit: Option<int>)

  datatype Competitor = Competitor(firstSeen: int, lastSeen: int, transactionCount: nat, averageProfit: int)

  function ProfitOf(tx: Transaction): int {
    if tx.profit.Some? then tx.profit.value else 0
  }

  /** `average` over `n` profits, then one more: the stored quotient is the only state. */
  function NextAverage(average: int, n: nat, profit: int): int {
    TruncDiv(average * n + profit, n + 1)
  }

  function Updated(competitors: map<Address, Competitor>, tx: Transaction): map<Address, Competitor> {
    if tx.from in competitors then
      var c := competitors[tx.from];
      competitors[tx.from := Competitor(c.firstSeen, tx.timestamp, c.transactionCount + 1,
                                        NextAverage(c.averageProfit, c.transactionCount, ProfitOf(tx)))]
    else
      competitors[tx.from := Competitor(tx.timestamp, tx.timestamp, 1, ProfitOf(tx))]
  }

  class CompetitiveIntelligence {
    var competitors: map<Address, Competitor>

    constructor ()
      ensures competitors == map[]
    {
      competitors := map[];
    }

    method UpdateCompetitorFromTransaction(tx: Transaction)
      modifies this
      ensures competitors == Updated(old(competitors), tx)
    {
      if tx.from in competitors {
        var existing := competitors[tx.from];
        var totalProfit := existing.averageProfit * existing.transactionCount + ProfitOf(tx);
        var newTransactionCount := existing.transactionCount + 1;
        var updatedCompetitor := existing.(
          lastSeen := tx.timestamp,
          transactionCount := newTransactionCount,
          averageProfit := TruncDiv(totalProfit, newTransactionCount));
        competitors := competitors[tx.from := updatedCompetitor];
      } else {
        competitors := competitors[tx.from := Competitor(tx.timestamp, tx.timestamp, 1, ProfitOf(tx))];
      }
    }
  }

  /** The table after a run of transactions. */
  function Track(txs: seq<Transaction>): map<Address, Competitor> {
    if txs == [] then map[] else Updated(Track(txs[..|txs| - 1]), txs[|txs| - 1])
  }

  /** The transactions of one address. */
  ghost function Of(txs: seq<Transaction>, who: Address): seq<Transaction> {
    if txs == [] then []
    else Of(txs[..|txs| - 1], who) + (if txs[|txs| - 1].from == who then [txs[|txs| - 1]] else [])
  }

  ghost function Profits(txs: seq<Transaction>): (ps: seq<int>)
    ensures |ps| == |txs|
  {
    seq(|txs|, i requires 0 <= i < |txs| => ProfitOf(txs[i]))
  }

  /** The stored average after the profits `ps`. */
  ghost function Stored(ps: seq<int>): int
    requires ps != []
  {
    if |ps| == 1 then ps[0]
    else NextAverage(Stored(ps[..|ps| - 1]), |ps| - 1, ps[|ps| - 1])
  }

  ghost function Total(ps: seq<int>): int {
    if ps == [] then 0 else Total(ps[..|ps| - 1]) + ps[|ps| - 1]
  }

  /** Every entry depends on that address's own transactions only, through their count, profits and time stamps. */
  lemma {:induction false} TrackedPerAddress(txs: seq<Transaction>, who: Address)
    ensures who in Track(txs) <==> Of(txs, who) != []
    ensures who in Track(txs) ==>
              var mine := Of(txs, who);
              Track(txs)[who] == Competitor(mine[0].timestamp, mine[|mine| - 1].timestamp, |mine|, Stored(Profits(mine)))
  {
    if txs != [] {
      var front, tx := txs[..|txs| - 1], txs[|txs| - 1];
      TrackedPerAddress(front, who);
      var mine := Of(front, who);
      if tx.from == who {
        StoredExtends(mine, tx);
        assert (mine + [tx])[|mine|] == tx;
      } else {
        assert Of(txs, who) == mine;
      }
    }
  }

  lemma StoredExtends(mine: seq<Transaction>, tx: Transaction)
    ensures Stored(Profits(mine + [tx]))
         == if mine == [] then ProfitOf(tx) else NextAverage(Stored(Profits(mine)), |mine|, ProfitOf(tx))
  {
    var ps := Profits(mine + [tx]);
    assert ps[|mine|] == ProfitOf(tx);
    assert ps[..|mine|] == Profits(mine);
  }

  /**
   * The truncated average drifts from the true one, but slowly: over n profits of any sign the total is missed
   * by at most n(n-1)/2, and for non-negative profits only ever from below.
   */
  lemma {:induction false} AverageDrift(ps: seq<int>)
    requires ps != []
    ensures var drift := Total(ps) - |ps| * Stored(ps);
            && -(|ps| * (|ps| - 1)) <= 2 * drift <= |ps| * (|ps| - 1)
            && ((forall i :: 0 <= i < |ps| ==> ps[i] >= 0) ==> drift >= 0 && Stored(ps) >= 0)
  {
    var n, p := |ps| - 1, ps[|ps| - 1];
    var front := ps[..n];
    if n == 0 {
      assert Total(front) == 0;
    } else {
      AverageDrift(front);
      OneMore(Total(front), Stored(front), n, p);
      Widen(n, Total(front) - n * Stored(front), Total(ps) - (n + 1) * Stored(ps));
    }
  }

  lemma Widen(n: nat, drift: int, drift': int)
    requires -(n * (n - 1)) <= 2 * drift <= n * (n - 1) && drift - n <= drift' <= drift + n
    ensures -((n + 1) * n) <= 2 * drift' <= (n + 1) * n
  {
  }

  lemma OneMore(total: int, average: int, n: nat, p: int)
    ensures var next, drift := NextAverage(average, n, p), total - n * average;
            var drift' := total + p - (n + 1) * next;
            && drift - n <= drift' <= drift + n
            && (average >= 0 && p >= 0 ==> drift' >= drift && next >= 0)
  {
    var t := average * n + p;
    if average >= 0 && p >= 0 {
      MulPos(average, n);
    }
    Remainder(t, n + 1);
    assert (n + 1) * TruncDiv(t, n + 1) == TruncDiv(t, n + 1) * (n + 1);
  }

  lemma Remainder(t: int, b: int)
    requires b > 0
    ensures var q := TruncDiv(t, b);
            && -b < t - q * b < b
            && (t >= 0 ==> q >= 0 && t - q * b >= 0)
            && (t < 0 ==> t - q * b <= 0)
  {
    if t >= 0 {
      DivBounds(t, b);
      LeDiv(0, t, b);
    } else {
      DivBounds(-t, b);
      assert (-((-t) / b)) * b == -(((-t) / b) * b);
    }
  }

  /** One more profit: the new average is the quotient of the new total by the new count, truncated toward zero. */
  lemma AverageIsTruncated(ps: seq<int>, p: int)
    requires ps != []
    ensures var n, total := |ps|, |ps| * Stored(ps) + p;
            var rest := total - (n + 1) * Stored(ps + [p]);
            if total >= 0 then 0 <= rest <= n else 0 - n <= rest <= 0
  {
    var n := |ps|;
    assert (ps + [p])[..n] == ps;
    Truncates(Stored(ps), n, p);
  }

  lemma Truncates(average: int, n: nat, p: int)
    ensures var total, next := n * average + p, NextAverage(average, n, p);
            if total >= 0 then 0 <= total - (n + 1) * next <= n else 0 - n <= total - (n + 1) * next <= 0
  {
    var t := average * n + p;
    Remainder(t, n + 1);
    assert (n + 1) * TruncDiv(t, n + 1) == TruncDiv(t, n + 1) * (n + 1);
  }

  /** The stored average never leaves the range of the profits seen. */
  lemma {:induction false} AverageWithinRange(ps: seq<int>, lo: int, hi: int)
    requires ps != []
    requires forall i :: 0 <= i < |ps| ==> lo <= ps[i] <= hi
    ensures lo <= Stored(ps) <= hi
  {
    var n, p := |ps| - 1, ps[|ps| - 1];
    if n > 0 {
      AverageWithinRange(ps[..n], lo, hi);
      var average := Stored(ps[..n]);
      MeanBetween(average, n, p, lo, hi);
      TruncDivWithin(average * n + p, n + 1, lo, hi);
    }
  }

  lemma MeanBetween(average: int, n: nat, p: int, lo: int, hi: int)
    requires lo <= average <= hi && lo <= p <= hi
    ensures lo * (n + 1) <= average * n + p <= hi * (n + 1)
  {
    MulLe(lo, average, n);
    MulLe(average, hi, n);
  }

  function Ascending(n: nat): seq<int> {
    seq(n, i => i)
  }

  /** The drift bound is reached: after profits 0, 1, 2, ..., n-1 the stored average is still zero. */
  lemma {:induction false} DriftBoundReached(n: nat)
    requires n >= 1
    ensures Stored(Ascending(n)) == 0
    ensures 2 * Total(Ascending(n)) == n * (n - 1)
  {
    var ps := Ascending(n);
    assert ps[..n - 1] == Ascending(n - 1);
    if n == 1 {
      assert Total(ps[..0]) == 0;
    } else {
      DriftBoundReached(n - 1);
      assert NextAverage(0, n - 1, n - 1) == 0 by {
        DivIs(n - 1, n, 0);
      }
      assert n * (n - 1) == (n - 1) * (n - 2) + 2 * (n - 1);
    }
  }
}
