/**
 * The flash-loan optimizer: a list of shared source objects, an index and a cache derived from it, and the
 * choice of the cheapest sufficient source.
 */
module LoanIndex {
  import opened Numbers
  import opened StableSorting
  import opened Text

  const CACHE_TIMEOUT := 300_000
  const USDC := "0x833589fcd6edb6e08f4c7c32d4f71b54bda02913"
  const WETH := "0x4200000000000000000000000000000000000006"
  const DEFAULT_POOL := "0x74cb6260be6f31965c239df6d6ef2ac2b5d4f020"

  /** Shared by reference between the list, the index, the cache and the callers; only the rating changes. */
  class FlashLoanSource {
    const protocol: string
    const poolAddress: Address
    const token: Address
    const feeBps: nat
    const maxAmount: nat
    const gasOverhead: nat
    var reliability: real

    constructor (protocol: string, poolAddress: Address, token: Address, feeBps: nat, maxAmount: nat,
                 gasOverhead: nat, reliability: real)
      ensures this.protocol == protocol && this.poolAddress == poolAddress && this.token == token
      ensures this.feeBps == feeBps && this.maxAmount == maxAmount && this.gasOverhead == gasOverhead
      ensures this.reliability == reliability
    {
      this.protocol, this.poolAddress, this.token := protocol, poolAddress, token;
      this.feeBps, this.maxAmount, this.gasOverhead := feeBps, maxAmount, gasOverhead;
      this.reliability := reliability;
    }
  }

  datatype CacheEntry = CacheEntry(sources: seq<FlashLoanSource>, timestamp: int)

  datatype Quote = Quote(source: FlashLoanSource, amount: int, fee: int, totalCost: int, gasEstimate: int)

  datatype Optimization =
    | Optimized(bestQuote: Quote, alternativeQuotes: seq<Quote>, savings: int)
    | NoSources
    | NoneSufficient

  /** Reference: the order-preserving filter of the list by lower-case token. */
  function OfToken(sources: seq<FlashLoanSource>, key: string): seq<FlashLoanSource> {
    if sources == [] then []
    else
      OfToken(sources[..|sources| - 1], key)
      + (if Lower(sources[|sources| - 1].token) == key then [sources[|sources| - 1]] else [])
  }

  function GenerateQuote(source: FlashLoanSource, amount: int, gasPrice: int): Quote {
    var fee := TruncDiv(amount * source.feeBps, 10_000);
    Quote(source, amount, fee, fee + source.gasOverhead * gasPrice, source.gasOverhead)
  }

  /** Reference: one quote for every source that can lend the amount. */
  function Quotes(sources: seq<FlashLoanSource>, amount: int, gasPrice: int): seq<Quote> {
    if sources == [] then []
    else
      Quotes(sources[..|sources| - 1], amount, gasPrice)
      + (var s := sources[|sources| - 1]; if s.maxAmount >= amount then [GenerateQuote(s, amount, gasPrice)] else [])
  }

  function Cheapness(q: Quote): int { -q.totalCost }

  /** What a loan costs: the fee at the source's rate, truncated to whole units, and the gas. */
  ghost predicate Costs(s: FlashLoanSource, amount: int, gasPrice: int, cost: int) {
    var fee := cost - s.gasOverhead * gasPrice;
    if amount >= 0 then 10_000 * fee <= amount * s.feeBps < 10_000 * (fee + 1)
    else 10_000 * (fee - 1) < amount * s.feeBps <= 10_000 * fee
  }

  ghost predicate IsQuote(q: Quote, amount: int, gasPrice: int) {
    && Costs(q.source, amount, gasPrice, q.totalCost)
    && q.amount == amount && q.gasEstimate == q.source.gasOverhead
    && q.fee == q.totalCost - q.source.gasOverhead * gasPrice
  }

  /** Every quote is one of a sufficient source, priced as its loan. */
  ghost predicate AllQuotes(quotes: seq<Quote>, sources: seq<FlashLoanSource>, amount: int, gasPrice: int) {
    forall q :: q in quotes ==> q.source in sources && q.source.maxAmount >= amount && IsQuote(q, amount, gasPrice)
  }

  /** Every sufficient source is quoted as often as it is listed, at a cost from `low` to `high`. */
  ghost predicate AllCovered(quotes: seq<Quote>, low: int, high: int, sources: seq<FlashLoanSource>, amount: int, gasPrice: int) {
    forall s, cost :: s in sources && s.maxAmount >= amount && Costs(s, amount, gasPrice, cost) ==>
      low <= cost <= high && Listed(quotes, s, amount, gasPrice, cost, multiset(sources)[s])
  }

  /** A choice among quotes: cheapest first, and with the full spread of their costs. */
  ghost predicate IsChoice(quotes: seq<Quote>, savings: int, sources: seq<FlashLoanSource>, amount: int, gasPrice: int) {
    && quotes != [] && Descending(quotes, Cheapness) && AllQuotes(quotes, sources, amount, gasPrice)
    && AllCovered(quotes, quotes[0].totalCost, quotes[0].totalCost + savings, sources, amount, gasPrice)
    && savings >= 0 && exists q :: q in quotes && q.totalCost == quotes[0].totalCost + savings
  }

  ghost predicate Listed(quotes: seq<Quote>, s: FlashLoanSource, amount: int, gasPrice: int, cost: int, times: nat) {
    multiset(quotes)[Quote(s, amount, cost - s.gasOverhead * gasPrice, cost, s.gasOverhead)] == times
  }

  /** The outcome the documentation promises for a list of candidate sources. */
  ghost predicate IsOptimal(r: Optimization, sources: seq<FlashLoanSource>, amount: int, gasPrice: int) {
    match r
    case NoSources => sources == []
    case NoneSufficient => sources != [] && forall s :: s in sources ==> s.maxAmount < amount
    case Optimized(best, alternatives, savings) => IsChoice([best] + alternatives, savings, sources, amount, gasPrice)
  }

  function Adjusted(reliability: real, success: bool): real {
    if success then
      var up := reliability * 1.01; if up < 0.99 then up else 0.99
    else
      var down := reliability * 0.95; if down > 0.5 then down else 0.5
  }

  /** The first source of a protocol and pool, or the length of the list. */
  function FirstMatch(sources: seq<FlashLoanSource>, protocol: string, pool: Address): (i: nat)
    ensures i <= |sources|
    ensures i < |sources| ==> sources[i].protocol == protocol && sources[i].poolAddress == pool
    ensures forall j :: 0 <= j < i ==> !(sources[j].protocol == protocol && sources[j].poolAddress == pool)
  {
    if sources == [] || (sources[0].protocol == protocol && sources[0].poolAddress == pool) then 0
    else 1 + FirstMatch(sources[1..], protocol, pool)
  }

  class FlashLoanOptimizer {
    var baseSources: seq<FlashLoanSource>
    var knownSources: map<string, seq<FlashLoanSource>>
    var sourceCache: map<string, CacheEntry>

    /** The index and the cache agree with the list, for every token key. */
    ghost predicate Valid()
      reads this
    {
      && IndexOf(knownSources, baseSources)
      && CacheOf(sourceCache, baseSources)
    }

    constructor ()
      ensures Valid() && |baseSources| == 2 && fresh(baseSources[0]) && fresh(baseSources[1])
      ensures sourceCache == map[]
      ensures forall s :: s in baseSources ==>
                && s.protocol == "uniswap-v3" && s.poolAddress == DEFAULT_POOL
                && s.feeBps == 5 && s.gasOverhead == 50_000 && s.reliability == 0.95
      ensures baseSources[0].maxAmount == 1_000_000_000_000 && baseSources[1].maxAmount == 500_000_000_000_000_000_000
      ensures OfToken(baseSources, USDC) == [baseSources[0]] && OfToken(baseSources, WETH) == [baseSources[1]]
      ensures FirstMatch(baseSources, "uniswap-v3", DEFAULT_POOL) == 0
    {
      var usdc := new FlashLoanSource("uniswap-v3", DEFAULT_POOL, USDC, 5, 1_000_000 * 1_000_000, 50_000, 0.95);
      var weth := new FlashLoanSource("uniswap-v3", DEFAULT_POOL, WETH, 5, 500 * 1_000_000_000_000_000_000, 50_000, 0.95);
      baseSources := [usdc, weth];
      knownSources, sourceCache := map[], map[];
      new;
      InitializeKnownSources();
      DefaultTokens(baseSources);
    }

    method InitializeKnownSources()
      requires knownSources == map[] && sourceCache == map[]
      modifies this`knownSources
      ensures Valid()
    {
      for i := 0 to |baseSources|
        invariant IndexOf(knownSources, baseSources[..i])
      {
        var tokenKey := Lower(baseSources[i].token);
        IndexPush(knownSources, baseSources[..i], baseSources[i]);
        assert baseSources[..i + 1] == baseSources[..i] + [baseSources[i]];
        if tokenKey !in knownSources {
          knownSources := knownSources[tokenKey := []];
        }
        knownSources := knownSources[tokenKey := knownSources[tokenKey] + [baseSources[i]]];
      }
      assert baseSources[..|baseSources|] == baseSources;
    }

    method AddCustomSource(source: FlashLoanSource)
      requires Valid()
      modifies this
      ensures Valid() && baseSources == old(baseSources) + [source]
      ensures sourceCache == old(sourceCache) - {Lower(source.token)}
    {
      IndexPush(knownSources, baseSources, source);
      CachePush(sourceCache, baseSources, source);
      baseSources := baseSources + [source];
      var tokenKey := Lower(source.token);
      if tokenKey !in knownSources {
        knownSources := knownSources[tokenKey := []];
      }
      knownSources := knownSources[tokenKey := knownSources[tokenKey] + [source]];
      sourceCache := sourceCache - {tokenKey};
    }

    /** Whatever the clock and the cache say, the answer is the filter of the current list. */
    method GetAvailableSources(token: Address, now: int) returns (sources: seq<FlashLoanSource>)
      requires Valid()
      modifies this`sourceCache
      ensures Valid()
      ensures sources == OfToken(baseSources, Lower(token))
      ensures Lower(token) in knownSources ==> sources == knownSources[Lower(token)]
    {
      var cacheKey := Lower(token);
      if cacheKey in sourceCache && now - sourceCache[cacheKey].timestamp < CACHE_TIMEOUT {
        return sourceCache[cacheKey].sources;
      }
      sources := OfToken(baseSources, Lower(token));
      sourceCache := sourceCache[cacheKey := CacheEntry(sources, now)];
    }

    /** Only the first source of the pool is rated, through the object every list shares. */
    method UpdateSourceReliability(protocol: string, poolAddress: Address, success: bool)
      requires Valid()
      modifies (set s | s in baseSources)`reliability
      ensures Valid()
      ensures var i := FirstMatch(baseSources, protocol, poolAddress);
              && (i < |baseSources| ==>
                    baseSources[i].reliability == Adjusted(old(baseSources[i].reliability), success))
              && forall s :: s in baseSources && !(i < |baseSources| && s == baseSources[i]) ==>
                   s.reliability == old(s.reliability)
    {
      ghost var first := FirstMatch(baseSources, protocol, poolAddress);
      var i := 0;
      while i < |baseSources|
        invariant 0 <= i <= |baseSources| && i <= first
        invariant forall s :: s in baseSources ==> s.reliability == old(s.reliability)
      {
        var source := baseSources[i];
        if source.protocol == protocol && source.poolAddress == poolAddress {
          if success {
            var up := source.reliability * 1.01;
            source.reliability := if up < 0.99 then up else 0.99;
          } else {
            var down := source.reliability * 0.95;
            source.reliability := if down > 0.5 then down else 0.5;
          }
          return;
        }
        i := i + 1;
      }
    }

    method ClearCache()
      requires Valid()
      modifies this`sourceCache
      ensures Valid() && sourceCache == map[]
    {
      sourceCache := map[];
    }

    method FindOptimalFlashLoan(token: Address, amount: int, gasPrice: int, now: int) returns (r: Optimization)
      requires Valid()
      modifies this`sourceCache
      ensures Valid()
      ensures IsOptimal(r, OfToken(baseSources, Lower(token)), amount, gasPrice)
    {
      var sources := GetAvailableSources(token, now);
      r := ChooseQuote(sources, amount, gasPrice);
    }

    /** The choice among the available sources. */
    method ChooseQuote(sources: seq<FlashLoanSource>, amount: int, gasPrice: int) returns (r: Optimization)
      ensures IsOptimal(r, sources, amount, gasPrice)
    {
      if |sources| == 0 {
        return NoSources;
      }
      var quotes: seq<Quote> := [];
      for i := 0 to |sources|
        invariant quotes == Quotes(sources[..i], amount, gasPrice)
      {
        assert sources[..i + 1][..i] == sources[..i];
        if sources[i].maxAmount >= amount {
          quotes := quotes + [GenerateQuote(sources[i], amount, gasPrice)];
        }
      }
      assert sources[..|sources|] == sources;
      if |quotes| == 0 {
        NoQuotes(sources, amount, gasPrice);
        return NoneSufficient;
      }
      // the comparator never answers "equal", so quotes of equal cost may come in any order
      var sorted := Sort(quotes, Cheapness);
      SortedIsOptimal(sources, amount, gasPrice, quotes);
      var bestQuote := sorted[0];
      var mostExpensive := sorted[|sorted| - 1];
      r := Optimized(bestQuote, sorted[1..], mostExpensive.totalCost - bestQuote.totalCost);
    }
  }

  // ---------- The index ----------

  ghost predicate IndexOf(known: map<string, seq<FlashLoanSource>>, sources: seq<FlashLoanSource>) {
    && (forall k :: k in known ==> known[k] == OfToken(sources, k) && known[k] != [])
    && (forall k :: k !in known ==> OfToken(sources, k) == [])
  }

  lemma OfTokenPush(sources: seq<FlashLoanSource>, s: FlashLoanSource)
    ensures forall k :: OfToken(sources + [s], k) == OfToken(sources, k) + (if Lower(s.token) == k then [s] else [])
  {
    assert (sources + [s])[..|sources|] == sources;
  }

  /** The filter goes source by source, in order. */
  lemma {:induction false} OfTokenConcat(a: seq<FlashLoanSource>, b: seq<FlashLoanSource>, key: string)
    ensures OfToken(a + b, key) == OfToken(a, key) + OfToken(b, key)
  {
    if b == [] {
      assert a + b == a;
    } else {
      OfTokenConcat(a, b[..|b| - 1], key);
      assert (a + b)[..|a + b| - 1] == a + b[..|b| - 1];
    }
  }

  /** A success raises a rating and a failure lowers it, one by 1% and the other by 5%, up to the bounds 0.99 and 0.5. */
  lemma RatingMoves(reliability: real)
    requires 0.5 <= reliability <= 0.99
    ensures var up := Adjusted(reliability, true);
            reliability <= up <= 0.99 && (up == 0.99 || 100.0 * up == 101.0 * reliability) && 100.0 * up <= 101.0 * reliability
    ensures var down := Adjusted(reliability, false);
            0.5 <= down <= reliability && (down == 0.5 || 100.0 * down == 95.0 * reliability) && 100.0 * down >= 95.0 * reliability
  {
  }

  lemma IndexPush(known: map<string, seq<FlashLoanSource>>, sources: seq<FlashLoanSource>, s: FlashLoanSource)
    requires IndexOf(known, sources)
    ensures var k := Lower(s.token);
            IndexOf(known[k := (if k in known then known[k] else []) + [s]], sources + [s])
  {
    OfTokenPush(sources, s);
  }

  ghost predicate CacheOf(cache: map<string, CacheEntry>, sources: seq<FlashLoanSource>) {
    forall k :: k in cache ==> cache[k].sources == OfToken(sources, k)
  }

  lemma CachePush(cache: map<string, CacheEntry>, sources: seq<FlashLoanSource>, s: FlashLoanSource)
    requires CacheOf(cache, sources)
    ensures CacheOf(cache - {Lower(s.token)}, sources + [s])
  {
    OfTokenPush(sources, s);
  }

  lemma DefaultTokens(sources: seq<FlashLoanSource>)
    requires |sources| == 2 && sources[0].token == USDC && sources[1].token == WETH
    ensures OfToken(sources, USDC) == [sources[0]] && OfToken(sources, WETH) == [sources[1]]
  {
    DefaultAddresses();
    assert sources == [sources[0]] + [sources[1]];
    OfTwoTokens(sources[0], sources[1], USDC);
    OfTwoTokens(sources[0], sources[1], WETH);
  }

  lemma OfTwoTokens(a: FlashLoanSource, b: FlashLoanSource, key: Address)
    ensures OfToken([a] + [b], key) == (if Lower(a.token) == key then [a] else []) + (if Lower(b.token) == key then [b] else [])
  {
    OfTokenConcat([a], [b], key);
    OfSingleToken(a, key);
    OfSingleToken(b, key);
  }

  lemma DefaultAddresses()
    ensures Lower(USDC) == USDC && Lower(WETH) == WETH && USDC != WETH
  {
    UsdcIsLower();
    WethIsLower();
    assert USDC[2] != WETH[2];
  }

  lemma UsdcIsLower()
    ensures Lower(USDC) == USDC
  {
    LowerFixes(USDC);
  }

  lemma WethIsLower()
    ensures Lower(WETH) == WETH
  {
    LowerFixes(WETH);
  }

  lemma OfSingleToken(source: FlashLoanSource, key: Address)
    ensures OfToken([source], key) == if Lower(source.token) == key then [source] else []
  {
    assert [source][..0] == [];
  }

  // ---------- The choice ----------

  lemma {:induction false} QuotesCover(sources: seq<FlashLoanSource>, amount: int, gasPrice: int)
    ensures forall s :: s in sources && s.maxAmount >= amount ==> GenerateQuote(s, amount, gasPrice) in Quotes(sources, amount, gasPrice)
    ensures forall q :: q in Quotes(sources, amount, gasPrice) ==>
              q.source in sources && q.source.maxAmount >= amount && q == GenerateQuote(q.source, amount, gasPrice)
  {
    if sources != [] {
      QuotesCover(sources[..|sources| - 1], amount, gasPrice);
      assert sources == sources[..|sources| - 1] + [sources[|sources| - 1]];
    }
  }

  lemma SameMembers(quotes: seq<Quote>, sorted: seq<Quote>)
    requires multiset(sorted) == multiset(quotes)
    ensures forall q :: q in quotes <==> q in sorted
    ensures quotes != [] ==> sorted != []
  {
    forall q ensures q in quotes <==> q in sorted {
      assert q in quotes <==> q in multiset(quotes);
      assert q in sorted <==> q in multiset(sorted);
    }
    if quotes != [] { assert quotes[0] in sorted; }
  }

  /** A quote prices its loan, and no other total would. */
  lemma QuotePrices(s: FlashLoanSource, amount: int, gasPrice: int)
    ensures GenerateQuote(s, amount, gasPrice).source == s && IsQuote(GenerateQuote(s, amount, gasPrice), amount, gasPrice)
    ensures forall cost :: Costs(s, amount, gasPrice, cost) ==> cost == GenerateQuote(s, amount, gasPrice).totalCost
  {
    if amount >= 0 {
      MulPos(amount, s.feeBps);
      DivBounds(amount * s.feeBps, 10_000);
    } else {
      MulPos(-amount, s.feeBps);
      DivBounds(-(amount * s.feeBps), 10_000);
      assert -amount * s.feeBps == -(amount * s.feeBps);
    }
  }

  /** Every sufficient source is quoted as often as it is listed. */
  lemma {:induction false} QuotedOnce(sources: seq<FlashLoanSource>, amount: int, gasPrice: int, s: FlashLoanSource)
    requires s.maxAmount >= amount
    ensures multiset(Quotes(sources, amount, gasPrice))[GenerateQuote(s, amount, gasPrice)] == multiset(sources)[s]
  {
    if sources != [] {
      var front, last := sources[..|sources| - 1], sources[|sources| - 1];
      QuotedOnce(front, amount, gasPrice, s);
      assert sources == front + [last];
    }
  }

  /** Any cost-sorted arrangement of the quotes yields the cheapest sufficient source and the full spread. */
  lemma BestIsOptimal(sources: seq<FlashLoanSource>, amount: int, gasPrice: int, quotes: seq<Quote>, sorted: seq<Quote>)
    requires quotes == Quotes(sources, amount, gasPrice) != []
    requires multiset(sorted) == multiset(quotes) && Descending(sorted, Cheapness)
    ensures sorted != []
    ensures IsOptimal(Optimized(sorted[0], sorted[1..], sorted[|sorted| - 1].totalCost - sorted[0].totalCost),
                      sources, amount, gasPrice)
  {
    SameMembers(quotes, sorted);
    assert [sorted[0]] + sorted[1..] == sorted;
    SortedIsChoice(sources, amount, gasPrice, quotes, sorted);
  }

  lemma SortedIsChoice(sources: seq<FlashLoanSource>, amount: int, gasPrice: int, quotes: seq<Quote>, sorted: seq<Quote>)
    requires quotes == Quotes(sources, amount, gasPrice) && sorted != []
    requires multiset(sorted) == multiset(quotes) && Descending(sorted, Cheapness)
    ensures IsChoice(sorted, sorted[|sorted| - 1].totalCost - sorted[0].totalCost, sources, amount, gasPrice)
  {
    SameMembers(sorted, quotes);
    Extremes(quotes, sorted);
    SortedQuoted(sources, amount, gasPrice, quotes, sorted);
    SortedCovers(sources, amount, gasPrice, quotes, sorted);
    assert sorted[|sorted| - 1] in sorted;
  }

  lemma SortedIsOptimal(sources: seq<FlashLoanSource>, amount: int, gasPrice: int, quotes: seq<Quote>)
    requires quotes == Quotes(sources, amount, gasPrice) != []
    ensures var sorted := Sort(quotes, Cheapness);
            && sorted != []
            && IsOptimal(Optimized(sorted[0], sorted[1..], sorted[|sorted| - 1].totalCost - sorted[0].totalCost),
                         sources, amount, gasPrice)
  {
    SortIsPermutation(quotes, Cheapness);
    SortIsStableSort(quotes, Cheapness);
    BestIsOptimal(sources, amount, gasPrice, quotes, Sort(quotes, Cheapness));
  }

  lemma NoQuotes(sources: seq<FlashLoanSource>, amount: int, gasPrice: int)
    requires sources != [] && Quotes(sources, amount, gasPrice) == []
    ensures IsOptimal(NoneSufficient, sources, amount, gasPrice)
  {
    QuotesCover(sources, amount, gasPrice);
  }

  lemma SortedCovers(sources: seq<FlashLoanSource>, amount: int, gasPrice: int, quotes: seq<Quote>, sorted: seq<Quote>)
    requires quotes == Quotes(sources, amount, gasPrice) && sorted != []
    requires multiset(sorted) == multiset(quotes) && Descending(sorted, Cheapness)
    ensures AllCovered(sorted, sorted[0].totalCost, sorted[|sorted| - 1].totalCost, sources, amount, gasPrice)
  {
    SameMembers(sorted, quotes);
    Extremes(quotes, sorted);
    forall s, cost | s in sources && s.maxAmount >= amount && Costs(s, amount, gasPrice, cost)
      ensures sorted[0].totalCost <= cost <= sorted[|sorted| - 1].totalCost
      ensures Listed(sorted, s, amount, gasPrice, cost, multiset(sources)[s])
    {
      QuoteListed(sources, amount, gasPrice, s, cost);
    }
  }

  lemma SortedQuoted(sources: seq<FlashLoanSource>, amount: int, gasPrice: int, quotes: seq<Quote>, sorted: seq<Quote>)
    requires quotes == Quotes(sources, amount, gasPrice) && multiset(sorted) == multiset(quotes)
    ensures forall q :: q in sorted ==> q.source in sources && q.source.maxAmount >= amount && IsQuote(q, amount, gasPrice)
  {
    QuotesCover(sources, amount, gasPrice);
    SameMembers(quotes, sorted);
    forall q | q in sorted ensures IsQuote(q, amount, gasPrice) {
      QuotePrices(q.source, amount, gasPrice);
    }
  }

  lemma QuoteListed(sources: seq<FlashLoanSource>, amount: int, gasPrice: int, s: FlashLoanSource, cost: int)
    requires s in sources && s.maxAmount >= amount && Costs(s, amount, gasPrice, cost)
    ensures Listed(Quotes(sources, amount, gasPrice), s, amount, gasPrice, cost, multiset(sources)[s])
    ensures exists q :: q in Quotes(sources, amount, gasPrice) && q.totalCost == cost
  {
    QuotePrices(s, amount, gasPrice);
    QuotedOnce(sources, amount, gasPrice, s);
    assert GenerateQuote(s, amount, gasPrice) in multiset(Quotes(sources, amount, gasPrice));
  }

  lemma Extremes(quotes: seq<Quote>, sorted: seq<Quote>)
    requires quotes != [] && multiset(sorted) == multiset(quotes) && Descending(sorted, Cheapness)
    ensures sorted != [] && sorted[0] in quotes && sorted[|sorted| - 1] in quotes
    ensures forall q :: q in quotes ==> sorted[0].totalCost <= q.totalCost <= sorted[|sorted| - 1].totalCost
  {
    SameMembers(quotes, sorted);
    forall q | q in quotes
      ensures sorted[0].totalCost <= q.totalCost <= sorted[|sorted| - 1].totalCost
    {
      var i :| 0 <= i < |sorted| && sorted[i] == q;
      assert Cheapness(sorted[0]) >= Cheapness(sorted[i]) >= Cheapness(sorted[|sorted| - 1]);
    }
  }
}
