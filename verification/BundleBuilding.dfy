/** Building a bundle from transaction requests: ordering, nonces and gas limits. */
module BundleBuilding {
  import opened Numbers
  import opened Options
  import opened StableSorting

  datatype Call = Call(to: string, data: string, value: int, maxFeePerGas: int, maxPriorityFeePerGas: int)

  datatype Request = Request(call: Call, gasLimit: nat)

  datatype BundleTransaction = BundleTransaction(call: Call, gasLimit: nat, nonce: int, priority: int)

  datatype Config = Config(maxBundleSize: int, maxGasPerBundle: int, enableOptimization: bool)

  datatype Bundle = Bundle(transactions: seq<BundleTransaction>, totalGasLimit: int, maxFeePerGas: int)

  datatype Result = Built(bundle: Bundle) | TooManyTransactions | GasLimitExceeded(total: int)

  /** Requests become transactions in order; a missing request is skipped but keeps its nonce and priority. */
  function Convert(requests: seq<Option<Request>>, nonce: int): seq<BundleTransaction> {
    if requests == [] then []
    else
      var i := |requests| - 1;
      Convert(requests[..i], nonce)
      + (match requests[i]
         case None => []
         case Some(r) => [BundleTransaction(r.call, r.gasLimit, nonce + i, i)])
  }

  method ConvertToBundleTransactions(requests: seq<Option<Request>>, nonce: int) returns (txs: seq<BundleTransaction>)
    ensures txs == Convert(requests, nonce)
  {
    txs := [];
    for i := 0 to |requests|
      invariant txs == Convert(requests[..i], nonce)
    {
      assert requests[..i + 1][..i] == requests[..i];
      if requests[i].Some? {
        var r := requests[i].value;
        txs := txs + [BundleTransaction(r.call, r.gasLimit, nonce + i, i)];
      }
    }
    assert requests[..|requests|] == requests;
  }

  function Priority(tx: BundleTransaction): int { tx.priority }

  function MinNonce(txs: seq<BundleTransaction>): int
    requires txs != []
  {
    if |txs| == 1 then txs[0].nonce else Min(MinNonce(txs[..|txs| - 1]), txs[|txs| - 1].nonce)
  }

  function Renumbered(txs: seq<BundleTransaction>, start: int): (r: seq<BundleTransaction>)
    ensures |r| == |txs|
  {
    seq(|txs|, i requires 0 <= i < |txs| => txs[i].(nonce := start + i))
  }

  function GasSum(txs: seq<BundleTransaction>): nat {
    if txs == [] then 0 else GasSum(txs[..|txs| - 1]) + txs[|txs| - 1].gasLimit
  }

  /** A tenth more, but not above one and a half times the average, and never below the original. */
  function OptimizeTransactionGasLimit(originalLimit: nat, avgLimit: nat): nat {
    var buffer := originalLimit / 10;
    var optimizedLimit := originalLimit + buffer;
    var maxLimit := avgLimit * 150 / 100;
    if maxLimit < originalLimit then originalLimit
    else if optimizedLimit > maxLimit then maxLimit else optimizedLimit
  }

  function WithGas(txs: seq<BundleTransaction>, avg: nat): (r: seq<BundleTransaction>)
    ensures |r| == |txs|
  {
    seq(|txs|, i requires 0 <= i < |txs| => txs[i].(gasLimit := OptimizeTransactionGasLimit(txs[i].gasLimit, avg)))
  }

  function OptimizeGasUsage(txs: seq<BundleTransaction>): seq<BundleTransaction> {
    if txs == [] then txs else WithGas(txs, GasSum(txs) / |txs|)
  }

  function OptimizeBundleTransactions(txs: seq<BundleTransaction>): seq<BundleTransaction> {
    if txs == [] then txs
    else
      var optimized := Sort(txs, Priority);
      SortIsPermutation(txs, Priority);
      OptimizeGasUsage(Renumbered(optimized, MinNonce(optimized)))
  }

  function MaxFee(txs: seq<BundleTransaction>): int {
    if txs == [] then 0 else Max(MaxFee(txs[..|txs| - 1]), txs[|txs| - 1].call.maxFeePerGas)
  }

  function Arranged(cfg: Config, txs: seq<BundleTransaction>): seq<BundleTransaction> {
    if cfg.enableOptimization then OptimizeBundleTransactions(txs) else txs
  }

  function SubmitBundle(cfg: Config, requests: seq<Option<Request>>, nonce: int): Result {
    if |requests| > cfg.maxBundleSize then TooManyTransactions
    else
      var txs := Convert(requests, nonce);
      var ordered := Arranged(cfg, txs);
      var total := GasSum(ordered);
      if total > cfg.maxGasPerBundle then GasLimitExceeded(total)
      else Built(Bundle(ordered, total, MaxFee(ordered)))
  }

  // ---------- Gas ----------

  lemma GasLimitBounds(originalLimit: nat, avgLimit: nat)
    ensures originalLimit <= OptimizeTransactionGasLimit(originalLimit, avgLimit) <= originalLimit + originalLimit / 10
  {
  }

  /** The largest limit from `g` to a tenth more that, unless it is `g` itself, is at most one and a half times `avg`. */
  ghost predicate Raised(g: nat, r: int, avg: nat) {
    && g <= r && 10 * r <= 11 * g && (r > g ==> 2 * r <= 3 * avg)
    && forall h: int :: r < h && 10 * h <= 11 * g ==> 2 * h > 3 * avg
  }

  lemma GasLimitIsRaised(originalLimit: nat, avgLimit: nat)
    ensures Raised(originalLimit, OptimizeTransactionGasLimit(originalLimit, avgLimit), avgLimit)
  {
  }

  lemma {:induction false} GasSumBounds(txs: seq<BundleTransaction>, avg: nat)
    ensures GasSum(txs) <= GasSum(WithGas(txs, avg)) <= GasSum(txs) + GasSum(txs) / 10
  {
    if txs != [] {
      var n := |txs| - 1;
      GasSumBounds(txs[..n], avg);
      GasLimitBounds(txs[n].gasLimit, avg);
      assert WithGas(txs, avg)[..n] == WithGas(txs[..n], avg);
    }
  }

  lemma {:induction false} SameGas(a: seq<BundleTransaction>, b: seq<BundleTransaction>)
    requires |a| == |b| && forall i :: 0 <= i < |a| ==> a[i].gasLimit == b[i].gasLimit
    ensures GasSum(a) == GasSum(b)
  {
    if a != [] {
      SameGas(a[..|a| - 1], b[..|b| - 1]);
    }
  }

  lemma {:induction false} GasSumConcat(a: seq<BundleTransaction>, b: seq<BundleTransaction>)
    ensures GasSum(a + b) == GasSum(a) + GasSum(b)
  {
    if b == [] {
      assert a + b == a;
    } else {
      assert (a + b)[..|a + b| - 1] == a + b[..|b| - 1];
      GasSumConcat(a, b[..|b| - 1]);
    }
  }

  lemma {:induction false} GasOfSort(txs: seq<BundleTransaction>)
    ensures GasSum(Sort(txs, Priority)) == GasSum(txs)
  {
    if txs != [] {
      var front, x := txs[..|txs| - 1], txs[|txs| - 1];
      GasOfSort(front);
      var s := Sort(front, Priority);
      var i := InsertSplit(s, x, Priority);
      GasSumConcat(s[..i] + [x], s[i..]);
      GasSumConcat(s[..i], [x]);
      GasSumConcat(s[..i], s[i..]);
      assert s == s[..i] + s[i..];
      assert [x][..0] == [];
    }
  }

  // ---------- Order and nonces ----------

  /** Same calls and priorities, position by position. */
  ghost predicate SameCalls(a: seq<BundleTransaction>, b: seq<BundleTransaction>) {
    |a| == |b| && forall i :: 0 <= i < |a| ==> a[i].call == b[i].call && a[i].priority == b[i].priority
  }

  ghost predicate IsLeastNonce(m: int, txs: seq<BundleTransaction>) {
    (forall t :: t in txs ==> m <= t.nonce) && exists t :: t in txs && t.nonce == m
  }

  lemma {:induction false} MinNonceIsLeast(txs: seq<BundleTransaction>)
    requires txs != []
    ensures IsLeastNonce(MinNonce(txs), txs)
  {
    var front, last := txs[..|txs| - 1], txs[|txs| - 1];
    assert last in txs;
    if |txs| > 1 {
      MinNonceIsLeast(front);
      assert txs == front + [last];
      var t :| t in front && t.nonce == MinNonce(front);
      assert t in txs;
    }
  }

  lemma SortMembers(txs: seq<BundleTransaction>)
    ensures |Sort(txs, Priority)| == |txs|
    ensures forall t :: t in Sort(txs, Priority) <==> t in txs
  {
    SortIsPermutation(txs, Priority);
    forall t ensures t in txs <==> t in Sort(txs, Priority) {
      assert t in txs <==> t in multiset(txs);
      assert t in Sort(txs, Priority) <==> t in multiset(Sort(txs, Priority));
    }
  }

  lemma MinNonceOfSort(txs: seq<BundleTransaction>)
    requires txs != []
    ensures Sort(txs, Priority) != [] && MinNonce(Sort(txs, Priority)) == MinNonce(txs)
  {
    SortMembers(txs);
    MinNonceIsLeast(txs);
    MinNonceIsLeast(Sort(txs, Priority));
  }

  /** Consecutive nonces from `start`. */
  ghost predicate Consecutive(txs: seq<BundleTransaction>, start: int) {
    forall i :: 0 <= i < |txs| ==> txs[i].nonce == start + i
  }

  /**
   * For any transactions: the optimised bundle is their stable sort by non-increasing priority, with consecutive
   * nonces from the smallest one, and its gas sum is between the original sum and a tenth more.
   */
  lemma OptimizedBundle(txs: seq<BundleTransaction>)
    requires txs != []
    ensures var out := OptimizeBundleTransactions(txs);
            && IsStableSort(txs, Sort(txs, Priority), Priority)
            && SameCalls(out, Sort(txs, Priority))
            && IsLeastNonce(MinNonce(txs), txs) && Consecutive(out, MinNonce(txs))
            && GasSum(txs) <= GasSum(out) <= GasSum(txs) + GasSum(txs) / 10
  {
    SortIsStableSort(txs, Priority);
    MinNonceOfSort(txs);
    MinNonceIsLeast(txs);
    var start, avg := OptimizedForm(txs);
    OptimizedGas(txs, start, avg);
  }

  /** Each transaction's limit is raised with the average, rounded down, of the limits asked for. */
  lemma OptimizedLimits(txs: seq<BundleTransaction>, avg: nat)
    requires txs != [] && avg * |txs| <= GasSum(txs) < (avg + 1) * |txs|
    ensures var out, sorted := OptimizeBundleTransactions(txs), Sort(txs, Priority);
            && |out| == |sorted| == |txs|
            && forall i :: 0 <= i < |txs| ==> Raised(sorted[i].gasLimit, out[i].gasLimit, avg)
  {
    SortMembers(txs);
    var sorted := Sort(txs, Priority);
    var renumbered := Renumbered(sorted, MinNonce(sorted));
    GasOfSort(txs);
    SameGas(sorted, renumbered);
    DivIs(GasSum(txs), |txs|, avg);
    forall i | 0 <= i < |txs| ensures Raised(sorted[i].gasLimit, OptimizeBundleTransactions(txs)[i].gasLimit, avg) {
      GasLimitIsRaised(sorted[i].gasLimit, avg);
    }
  }

  lemma OptimizedForm(txs: seq<BundleTransaction>) returns (start: int, avg: nat)
    requires txs != []
    ensures start == MinNonce(txs)
    ensures OptimizeBundleTransactions(txs) == WithGas(Renumbered(Sort(txs, Priority), start), avg)
  {
    MinNonceOfSort(txs);
    start := MinNonce(txs);
    var renumbered := Renumbered(Sort(txs, Priority), start);
    avg := GasSum(renumbered) / |renumbered|;
  }

  lemma OptimizedGas(txs: seq<BundleTransaction>, start: int, avg: nat)
    ensures GasSum(txs) <= GasSum(WithGas(Renumbered(Sort(txs, Priority), start), avg)) <= GasSum(txs) + GasSum(txs) / 10
  {
    var renumbered := Renumbered(Sort(txs, Priority), start);
    GasOfSort(txs);
    SameGas(Sort(txs, Priority), renumbered);
    GasSumBounds(renumbered, avg);
  }

  function Reversed(txs: seq<BundleTransaction>): seq<BundleTransaction> {
    if txs == [] then [] else [txs[|txs| - 1]] + Reversed(txs[..|txs| - 1])
  }

  lemma {:induction false} ReversedAt(txs: seq<BundleTransaction>)
    ensures |Reversed(txs)| == |txs|
    ensures forall i :: 0 <= i < |txs| ==> Reversed(txs)[i] == txs[|txs| - 1 - i]
  {
    if txs != [] {
      ReversedAt(txs[..|txs| - 1]);
    }
  }

  lemma {:induction false} SortOfAscending(txs: seq<BundleTransaction>)
    requires forall i, j :: 0 <= i < j < |txs| ==> txs[i].priority < txs[j].priority
    ensures Sort(txs, Priority) == Reversed(txs)
  {
    if txs != [] {
      var front := txs[..|txs| - 1];
      SortOfAscending(front);
      ReversedAt(front);
    }
  }

  /** The requests that are present, in order. */
  function Present(requests: seq<Option<Request>>): seq<Request> {
    if requests == [] then []
    else
      var last := requests[|requests| - 1];
      Present(requests[..|requests| - 1]) + (if last.Some? then [last.value] else [])
  }

  function FirstPresent(requests: seq<Option<Request>>): (i: nat)
    ensures i <= |requests|
    ensures i < |requests| ==> requests[i].Some?
    ensures forall j :: 0 <= j < i ==> requests[j].None?
  {
    if requests == [] || requests[0].Some? then 0 else 1 + FirstPresent(requests[1..])
  }

  /** One transaction per present request, in order, its nonce and priority given by the request's position. */
  ghost predicate ConvertedFrom(txs: seq<BundleTransaction>, requests: seq<Option<Request>>, nonce: int) {
    var rs := Present(requests);
    && |txs| == |rs| <= |requests|
    && (forall i :: 0 <= i < |txs| ==>
          && txs[i].call == rs[i].call && txs[i].gasLimit == rs[i].gasLimit
          && txs[i].nonce == nonce + txs[i].priority && 0 <= txs[i].priority < |requests|)
    && (forall i, j :: 0 <= i < j < |txs| ==> txs[i].priority < txs[j].priority)
  }

  lemma {:induction false} Converted(requests: seq<Option<Request>>, nonce: int)
    ensures ConvertedFrom(Convert(requests, nonce), requests, nonce)
  {
    if requests != [] {
      var n := |requests| - 1;
      var front := requests[..n];
      Converted(front, nonce);
      var txs, rs := Convert(front, nonce), Present(front);
      if requests[n].Some? {
        var r := requests[n].value;
        var tx := BundleTransaction(r.call, r.gasLimit, nonce + n, n);
        assert Convert(requests, nonce) == txs + [tx] && Present(requests) == rs + [r];
      } else {
        assert Convert(requests, nonce) == txs && Present(requests) == rs;
      }
    }
  }

  lemma {:induction false} FirstConverted(requests: seq<Option<Request>>, nonce: int)
    ensures var txs := Convert(requests, nonce);
            && (txs == [] <==> FirstPresent(requests) == |requests|)
            && (txs != [] ==> txs[0].nonce == nonce + FirstPresent(requests))
  {
    if requests != [] {
      FirstConverted(requests[..|requests| - 1], nonce);
      FirstOfFront(requests);
    }
  }

  lemma {:induction false} FirstOfFront(requests: seq<Option<Request>>)
    requires requests != []
    ensures var k, n := FirstPresent(requests[..|requests| - 1]), |requests| - 1;
            FirstPresent(requests) == if k < n || requests[n].Some? then k else n + 1
  {
    var front := requests[..|requests| - 1];
    if |requests| > 1 && requests[0].None? {
      FirstOfFront(requests[1..]);
      assert front[1..] == requests[1..][..|requests| - 2];
    }
  }

  /**
   * From requests to bundle: default priorities grow with the position, so optimisation REVERSES the requests.
   * The nonces are consecutive, and start at the signer's nonce exactly when the first request is present.
   */
  lemma OptimizationReversesRequests(requests: seq<Option<Request>>, nonce: int)
    ensures var out, rs := OptimizeBundleTransactions(Convert(requests, nonce)), Present(requests);
            && |out| == |rs|
            && (forall i :: 0 <= i < |out| ==> out[i].call == rs[|rs| - 1 - i].call)
            && Consecutive(out, nonce + FirstPresent(requests))
            && (out != [] ==> (Consecutive(out, nonce) <==> requests[0].Some?))
  {
    Converted(requests, nonce);
    FirstConverted(requests, nonce);
    var txs := Convert(requests, nonce);
    if txs != [] {
      OptimizedBundle(txs);
      SortOfAscending(txs);
      ReversedAt(txs);
      assert MinNonce(txs) == txs[0].nonce;
      assert OptimizeBundleTransactions(txs)[0].nonce == nonce + FirstPresent(requests);
    }
  }

  /**
   * What a submitter can rely on: an accepted bundle respects both limits, and with optimisation on, acceptance
   * is certain when a tenth more than the requested gas still fits and impossible when the requested gas does not.
   */
  lemma SubmittedBundle(cfg: Config, requests: seq<Option<Request>>, nonce: int)
    ensures var r, gas := SubmitBundle(cfg, requests, nonce), GasSum(Convert(requests, nonce));
            && (r.TooManyTransactions? <==> |requests| > cfg.maxBundleSize)
            && (r.Built? ==>
                  && r.bundle.totalGasLimit == GasSum(r.bundle.transactions) <= cfg.maxGasPerBundle
                  && gas <= r.bundle.totalGasLimit <= gas + gas / 10
                  && |r.bundle.transactions| <= cfg.maxBundleSize
                  && forall t :: t in r.bundle.transactions ==> t.call.maxFeePerGas <= r.bundle.maxFeePerGas)
            && (!r.TooManyTransactions? && gas + gas / 10 <= cfg.maxGasPerBundle ==> r.Built?)
            && (gas > cfg.maxGasPerBundle ==> !r.Built?)
  {
    Converted(requests, nonce);
    var txs := Convert(requests, nonce);
    ArrangedGas(cfg, txs);
    MaxFeeIsMax(Arranged(cfg, txs));
  }

  /**
   * What an accepted bundle holds: the requests in order, as asked for, without optimisation; in reverse order with
   * consecutive nonces with it. Its fee cap is one that was asked for, and a refusal names the gas that is too much.
   */
  lemma SubmittedOrder(cfg: Config, requests: seq<Option<Request>>, nonce: int)
    ensures var r, rs := SubmitBundle(cfg, requests, nonce), Present(requests);
            && (r.Built? && !cfg.enableOptimization ==> ConvertedFrom(r.bundle.transactions, requests, nonce))
            && (r.Built? && cfg.enableOptimization ==>
                  && |r.bundle.transactions| == |rs| && Consecutive(r.bundle.transactions, nonce + FirstPresent(requests))
                  && forall i :: 0 <= i < |rs| ==> r.bundle.transactions[i].call == rs[|rs| - 1 - i].call)
            && (r.Built? && r.bundle.maxFeePerGas != 0 ==>
                  exists t :: t in r.bundle.transactions && t.call.maxFeePerGas == r.bundle.maxFeePerGas)
            && (r.GasLimitExceeded? ==> cfg.maxGasPerBundle < r.total == GasSum(Arranged(cfg, Convert(requests, nonce))))
  {
    Converted(requests, nonce);
    OptimizationReversesRequests(requests, nonce);
    MaxFeeIsMax(Arranged(cfg, Convert(requests, nonce)));
  }

  lemma ArrangedGas(cfg: Config, txs: seq<BundleTransaction>)
    ensures |Arranged(cfg, txs)| == |txs|
    ensures GasSum(txs) <= GasSum(Arranged(cfg, txs)) <= GasSum(txs) + GasSum(txs) / 10
  {
    if txs != [] {
      var start, avg := OptimizedForm(txs);
      OptimizedGas(txs, start, avg);
      SortMembers(txs);
    }
  }

  lemma {:induction false} MaxFeeIsMax(txs: seq<BundleTransaction>)
    ensures forall t :: t in txs ==> t.call.maxFeePerGas <= MaxFee(txs)
    ensures MaxFee(txs) != 0 ==> exists t :: t in txs && t.call.maxFeePerGas == MaxFee(txs)
  {
    if txs != [] {
      MaxFeeIsMax(txs[..|txs| - 1]);
      assert txs == txs[..|txs| - 1] + [txs[|txs| - 1]];
    }
  }
}
