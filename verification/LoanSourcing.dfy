/** Flash-loan sourcing: two stacked time-to-live caches over provider balances, and the greedy splitter. */
module LoanSourcing {
  import opened Numbers
  import opened Options
  import opened StableSorting
  import K = Knapsack

  datatype Provider = UniswapV3 | Balancer | Aave
  type Token = string

  const SOURCE_TTL := 30_000
  const SOURCE_KEEP := 60_000
  const ONE_ETHER := 1_000_000_000_000_000_000
  const GAS_OVERHEAD := 200_000

  /** `feeRate` is the configured rate times 10^18, floored. */
  datatype ProviderConfig = ProviderConfig(provider: Provider, enabled: bool, feeRate: nat)

  datatype Config = Config(providers: seq<ProviderConfig>, refreshMs: int, maxSplits: int)

  datatype Source = Source(provider: Provider, token: Token, fee: int, gasOverhead: int, maxAmount: int, lastUpdated: int)

  /** What a balance query returns at a given time; `None` when there is nothing to probe or the query fails. */
  type World = (Provider, Token, int) -> Option<nat>

  /** A failed or zero balance falls back to seven tenths of a fixed capacity. */
  function Observed(world: World, p: Provider, token: Token, time: int): int {
    var balance := world(p, token, time);
    if balance.Some? && balance.value > 0 then balance.value else 100_000 * ONE_ETHER * 7 / 10
  }

  datatype Cached<T> = Cached(value: T, timestamp: int)

  type CapacityCache = map<(Provider, Token), Cached<int>>
  type SourceCache = map<(Token, int), Cached<seq<Source>>>

  datatype State = State(capacities: CapacityCache, sources: SourceCache)

  const EMPTY := State(map[], map[])

  function CapacityAt(cfg: Config, caps: CapacityCache, world: World, p: Provider, token: Token, now: int): (int, CapacityCache) {
    if (p, token) in caps && now - caps[(p, token)].timestamp < cfg.refreshMs then
      (caps[(p, token)].value, caps)
    else
      var capacity := Observed(world, p, token, now);
      (capacity, caps[(p, token) := Cached(capacity, now)])
  }

  function SourceFor(pc: ProviderConfig, token: Token, amount: int, capacity: int, now: int): Source {
    Source(pc.provider, token, TruncDiv(amount * pc.feeRate, ONE_ETHER), GAS_OVERHEAD, capacity, now)
  }

  /** One pass over the configured providers. */
  function Collect(cfg: Config, providers: seq<ProviderConfig>, caps: CapacityCache, world: World,
                   token: Token, amount: int, now: int): (seq<Source>, CapacityCache)
  {
    if providers == [] then ([], caps)
    else
      var pc := providers[|providers| - 1];
      var (found, caps1) := Collect(cfg, providers[..|providers| - 1], caps, world, token, amount, now);
      if !pc.enabled then (found, caps1)
      else
        var (capacity, caps2) := CapacityAt(cfg, caps1, world, pc.provider, token, now);
        (if capacity >= amount then found + [SourceFor(pc, token, amount, capacity, now)] else found, caps2)
  }

  /** Cheapest first: the sort key is the negated fee. */
  function Cheapness(s: Source): int { -s.fee }

  function Query(cfg: Config, st: State, world: World, token: Token, amount: int, now: int): (seq<Source>, State) {
    if (token, amount) in st.sources && now - st.sources[(token, amount)].timestamp < SOURCE_TTL then
      (st.sources[(token, amount)].value, st)
    else
      var (found, caps) := Collect(cfg, cfg.providers, st.capacities, world, token, amount, now);
      var sorted := Sort(found, Cheapness);
      (sorted, State(caps, st.sources[(token, amount) := Cached(sorted, now)]))
  }

  function Refreshed(cfg: Config, st: State, now: int): State {
    State(map k | k in st.capacities && now - st.capacities[k].timestamp <= cfg.refreshMs * 2 :: st.capacities[k],
          map k | k in st.sources && now - st.sources[k].timestamp <= SOURCE_KEEP :: st.sources[k])
  }

  // ---------- The manager ----------

  class FlashLoanManager {
    const config: Config
    var capacityCache: CapacityCache
    var sourceCache: SourceCache

    constructor (config: Config)
      ensures this.config == config && View() == EMPTY
    {
      this.config := config;
      capacityCache, sourceCache := map[], map[];
    }

    ghost function View(): State
      reads this
    {
      State(capacityCache, sourceCache)
    }

    method GetProviderCapacity(world: World, provider: Provider, token: Token, now: int) returns (capacity: int)
      modifies this`capacityCache
      ensures (capacity, capacityCache) == CapacityAt(config, old(capacityCache), world, provider, token, now)
    {
      var cacheKey := (provider, token);
      if cacheKey in capacityCache && now - capacityCache[cacheKey].timestamp < config.refreshMs {
        return capacityCache[cacheKey].value;
      }
      capacity := Observed(world, provider, token, now);
      capacityCache := capacityCache[cacheKey := Cached(capacity, now)];
    }

    method GetAvailableSources(world: World, token: Token, amount: int, now: int) returns (sources: seq<Source>)
      modifies this
      ensures (sources, View()) == Query(config, old(View()), world, token, amount, now)
    {
      var cacheKey := (token, amount);
      if cacheKey in sourceCache && now - sourceCache[cacheKey].timestamp < SOURCE_TTL {
        return sourceCache[cacheKey].value;
      }
      sources := [];
      var ps := config.providers;
      for i := 0 to |ps|
        invariant (sources, capacityCache) == Collect(config, ps[..i], old(capacityCache), world, token, amount, now)
        invariant sourceCache == old(sourceCache)
      {
        assert ps[..i + 1][..i] == ps[..i];
        if ps[i].enabled {
          var capacity := GetProviderCapacity(world, ps[i].provider, token, now);
          if capacity >= amount {
            sources := sources + [SourceFor(ps[i], token, amount, capacity, now)];
          }
        }
      }
      assert ps[..|ps|] == ps;
      sources := Sort(sources, Cheapness);
      sourceCache := sourceCache[cacheKey := Cached(sources, now)];
    }

    method RefreshCapacityCache(now: int)
      modifies this
      ensures View() == Refreshed(config, old(View()), now)
      ensures forall k :: k in capacityCache <==>
                k in old(capacityCache) && now - old(capacityCache)[k].timestamp <= 2 * config.refreshMs
      ensures forall k :: k in capacityCache ==> capacityCache[k] == old(capacityCache)[k]
      ensures forall k :: k in sourceCache <==> k in old(sourceCache) && now - old(sourceCache)[k].timestamp <= 60_000
      ensures forall k :: k in sourceCache ==> sourceCache[k] == old(sourceCache)[k]
    {
      var keys := capacityCache.Keys;
      ghost var caps := capacityCache;
      while keys != {}
        invariant keys <= caps.Keys
        invariant capacityCache == map k | k in caps && (k in keys || now - caps[k].timestamp <= config.refreshMs * 2) :: caps[k]
        invariant sourceCache == old(sourceCache)
        decreases keys
      {
        var key :| key in keys;
        if now - capacityCache[key].timestamp > config.refreshMs * 2 {
          capacityCache := capacityCache - {key};
        }
        keys := keys - {key};
      }
      var pairs := sourceCache.Keys;
      ghost var srcs := sourceCache;
      while pairs != {}
        invariant pairs <= srcs.Keys
        invariant sourceCache == map k | k in srcs && (k in pairs || now - srcs[k].timestamp <= SOURCE_KEEP) :: srcs[k]
        invariant capacityCache == Refreshed(config, old(View()), now).capacities
        decreases pairs
      {
        var key :| key in pairs;
        if now - sourceCache[key].timestamp > SOURCE_KEEP {
          sourceCache := sourceCache - {key};
        }
        pairs := pairs - {key};
      }
    }

    method CalculateOptimalSplits(totalAmount: int, sources: seq<Source>) returns (splits: seq<Split>)
      ensures splits == Splits(config, totalAmount, sources)
    {
      splits := [];
      var remainingAmount := totalAmount;
      var sortedSources := Sort(sources, Cheapness);
      var i := 0;
      while i < |sortedSources| && remainingAmount > 0 && |splits| < config.maxSplits
        invariant 0 <= i <= |sortedSources|
        invariant splits + Greedy(remainingAmount, sortedSources[i..], config.maxSplits - |splits|)
               == Greedy(totalAmount, sortedSources, config.maxSplits)
      {
        var source := sortedSources[i];
        var splitAmount := if remainingAmount > source.maxAmount then source.maxAmount else remainingAmount;
        var splitFee := ProRata(splitAmount, source);
        var split := Split(source, splitAmount, splitFee, source.gasOverhead);
        GreedyUnfolds(splits, split, remainingAmount, sortedSources, i, config.maxSplits);
        splits := splits + [split];
        remainingAmount := remainingAmount - splitAmount;
        i := i + 1;
      }
    }

    method GetSplitSources(world: World, token: Token, amount: int, now: int) returns (splits: seq<Split>)
      modifies this
      ensures View() == Query(config, old(View()), world, token, amount, now).1
      ensures splits == Splits(config, amount, Query(config, old(View()), world, token, amount, now).0)
    {
      var sources := GetAvailableSources(world, token, amount, now);
      splits := CalculateOptimalSplits(amount, sources);
    }
  }

  // ---------- Runs of queries and refreshes ----------

  datatype Event = Ask(token: Token, amount: int, now: int) | Refresh(now: int)

  datatype Answer = Answer(token: Token, amount: int, now: int, sources: seq<Source>)

  function Run(cfg: Config, world: World, events: seq<Event>): (State, seq<Answer>) {
    if events == [] then (EMPTY, [])
    else
      var (st, answers) := Run(cfg, world, events[..|events| - 1]);
      match events[|events| - 1]
      case Ask(token, amount, now) =>
        var (sources, st') := Query(cfg, st, world, token, amount, now);
        (st', answers + [Answer(token, amount, now, sources)])
      case Refresh(now) => (Refreshed(cfg, st, now), answers)
  }

  /** The clock never runs backwards. */
  ghost predicate Timed(events: seq<Event>) {
    forall i, j :: 0 <= i < j < |events| ==> events[i].now <= events[j].now
  }

  /** The oldest observation a capacity answer can rest on. */
  function CapacityAge(cfg: Config): int { Max(cfg.refreshMs - 1, 0) }

  ghost predicate RestsOn(world: World, s: Source, token: Token, from: int, to: int) {
    exists t :: from <= t <= to && s.maxAmount == Observed(world, s.provider, token, t)
  }

  /** A correct list: affordable, cheapest first, and observed between `from` and `to`. */
  ghost predicate GoodList(world: World, list: seq<Source>, token: Token, amount: int, from: int, to: int) {
    && Descending(list, Cheapness)
    && forall s :: s in list ==> s.maxAmount >= amount && s.token == token && RestsOn(world, s, token, from, to)
  }

  ghost predicate Sound(cfg: Config, world: World, st: State, now: int) {
    && (forall k :: k in st.capacities ==>
          st.capacities[k].timestamp <= now
          && st.capacities[k].value == Observed(world, k.0, k.1, st.capacities[k].timestamp))
    && (forall k :: k in st.sources ==>
          var at := st.sources[k].timestamp;
          at <= now && GoodList(world, st.sources[k].value, k.0, k.1, at - CapacityAge(cfg), at))
  }

  lemma {:induction false} CollectSound(cfg: Config, providers: seq<ProviderConfig>, st: State, world: World,
                                        token: Token, amount: int, now: int)
    requires Sound(cfg, world, st, now)
    ensures var (found, caps) := Collect(cfg, providers, st.capacities, world, token, amount, now);
            && Sound(cfg, world, st.(capacities := caps), now)
            && forall s :: s in found ==>
                 s.maxAmount >= amount && s.token == token && RestsOn(world, s, token, now - CapacityAge(cfg), now)
  {
    if providers != [] {
      var front, pc := providers[..|providers| - 1], providers[|providers| - 1];
      CollectSound(cfg, front, st, world, token, amount, now);
      var (found, caps) := Collect(cfg, front, st.capacities, world, token, amount, now);
      if pc.enabled {
        CapacitySound(cfg, st.(capacities := caps), world, pc.provider, token, now);
        var (capacity, _) := CapacityAt(cfg, caps, world, pc.provider, token, now);
        var s := SourceFor(pc, token, amount, capacity, now);
        assert RestsOn(world, s, token, now - CapacityAge(cfg), now);
      }
    }
  }

  lemma CapacitySound(cfg: Config, st: State, world: World, p: Provider, token: Token, now: int)
    requires Sound(cfg, world, st, now)
    ensures var (capacity, caps) := CapacityAt(cfg, st.capacities, world, p, token, now);
            && Sound(cfg, world, st.(capacities := caps), now)
            && exists t :: now - CapacityAge(cfg) <= t <= now && capacity == Observed(world, p, token, t)
  {
    var (capacity, caps) := CapacityAt(cfg, st.capacities, world, p, token, now);
    var t := caps[(p, token)].timestamp;
    assert now - CapacityAge(cfg) <= t <= now && capacity == Observed(world, p, token, t);
  }

  lemma SortKeepsMembers(list: seq<Source>)
    ensures Descending(Sort(list, Cheapness), Cheapness)
    ensures forall s :: s in Sort(list, Cheapness) <==> s in list
  {
    SortIsStableSort(list, Cheapness);
    SortIsPermutation(list, Cheapness);
    forall s ensures s in Sort(list, Cheapness) <==> s in list {
      assert s in Sort(list, Cheapness) <==> s in multiset(Sort(list, Cheapness));
      assert s in list <==> s in multiset(list);
    }
  }

  lemma QuerySound(cfg: Config, st: State, world: World, token: Token, amount: int, now: int)
    requires Sound(cfg, world, st, now)
    ensures var (sources, st') := Query(cfg, st, world, token, amount, now);
            && Sound(cfg, world, st', now)
            && GoodList(world, sources, token, amount, now - CapacityAge(cfg) - (SOURCE_TTL - 1), now)
  {
    if (token, amount) in st.sources && now - st.sources[(token, amount)].timestamp < SOURCE_TTL {
      var at := st.sources[(token, amount)].timestamp;
      OlderList(world, st.sources[(token, amount)].value, token, amount, at - CapacityAge(cfg), at,
                now - CapacityAge(cfg) - (SOURCE_TTL - 1), now);
    } else {
      var (found, caps) := Collect(cfg, cfg.providers, st.capacities, world, token, amount, now);
      CollectSound(cfg, cfg.providers, st, world, token, amount, now);
      var sorted := Sort(found, Cheapness);
      SortedGood(world, found, token, amount, now - CapacityAge(cfg), now);
      OlderList(world, sorted, token, amount, now - CapacityAge(cfg), now,
                now - CapacityAge(cfg) - (SOURCE_TTL - 1), now);
      StoreSound(cfg, world, st.(capacities := caps), token, amount, sorted, now);
    }
  }

  lemma SortedGood(world: World, found: seq<Source>, token: Token, amount: int, from: int, to: int)
    requires forall s :: s in found ==> s.maxAmount >= amount && s.token == token && RestsOn(world, s, token, from, to)
    ensures GoodList(world, Sort(found, Cheapness), token, amount, from, to)
  {
    SortKeepsMembers(found);
  }

  lemma StoreSound(cfg: Config, world: World, st: State, token: Token, amount: int, list: seq<Source>, now: int)
    requires Sound(cfg, world, st, now) && GoodList(world, list, token, amount, now - CapacityAge(cfg), now)
    ensures Sound(cfg, world, st.(sources := st.sources[(token, amount) := Cached(list, now)]), now)
  {
  }

  lemma OlderList(world: World, list: seq<Source>, token: Token, amount: int, from: int, to: int, from': int, to': int)
    requires GoodList(world, list, token, amount, from, to) && from' <= from && to <= to'
    ensures GoodList(world, list, token, amount, from', to')
  {
    forall s | s in list
      ensures RestsOn(world, s, token, from', to')
    {
      assert RestsOn(world, s, token, from, to);
    }
  }

  lemma SoundLater(cfg: Config, world: World, st: State, now: int, later: int)
    requires Sound(cfg, world, st, now) && now <= later
    ensures Sound(cfg, world, st, later) && Sound(cfg, world, Refreshed(cfg, st, later), later)
  {
  }

  /** The state before an event of a run, seen at the time of that event. */
  lemma {:induction false} RunSound(cfg: Config, world: World, events: seq<Event>, now: int)
    requires Timed(events) && (events != [] ==> events[|events| - 1].now <= now)
    ensures Sound(cfg, world, Run(cfg, world, events).0, now)
  {
    if events != [] {
      var front, e := events[..|events| - 1], events[|events| - 1];
      var st := Run(cfg, world, front).0;
      RunSound(cfg, world, front, e.now);
      match e
      case Ask(token, amount, at) =>
        QuerySound(cfg, st, world, token, amount, at);
        SoundLater(cfg, world, Query(cfg, st, world, token, amount, at).1, at, now);
      case Refresh(at) =>
        SoundLater(cfg, world, st, at, at);
        SoundLater(cfg, world, Refreshed(cfg, st, at), at, now);
    }
  }

  ghost predicate FreshAnswer(cfg: Config, world: World, a: Answer) {
    GoodList(world, a.sources, a.token, a.amount, a.now - CapacityAge(cfg) - 29_999, a.now)
  }

  /**
   * Over any run, every answer is sorted by fee, offers only sufficient sources, and rests on observations at
   * most refreshMs - 1 + 29999 milliseconds old.
   */
  lemma {:induction false} AnswersAreFresh(cfg: Config, world: World, events: seq<Event>)
    requires Timed(events)
    ensures forall a :: a in Run(cfg, world, events).1 ==> FreshAnswer(cfg, world, a)
  {
    if events != [] {
      var front, e := events[..|events| - 1], events[|events| - 1];
      AnswersAreFresh(cfg, world, front);
      RunSound(cfg, world, front, e.now);
      var (st, answers) := Run(cfg, world, front);
      if e.Ask? {
        QuerySound(cfg, st, world, e.token, e.amount, e.now);
        var a := Answer(e.token, e.amount, e.now, Query(cfg, st, world, e.token, e.amount, e.now).0);
        assert FreshAnswer(cfg, world, a);
        assert Run(cfg, world, events).1 == answers + [a];
      }
    }
  }

  /** One enabled provider whose balance of ten becomes twenty after time zero. */
  const ONE_FREE := ProviderConfig(Balancer, true, 0)
  const STEP_WORLD: World := (p, t, time) => if time <= 0 then Some(10) else Some(20)

  lemma TwoQueries(refreshMs: int, token: Token)
    requires refreshMs >= 1
    ensures var cfg := Config([ONE_FREE], refreshMs, 3);
            var list := [SourceFor(ONE_FREE, token, 2, 10, refreshMs - 1)];
            var (st, answers) := Run(cfg, STEP_WORLD, [Ask(token, 1, 0), Ask(token, 2, refreshMs - 1)]);
            && |answers| == 2
            && (token, 2) in st.sources && st.sources[(token, 2)] == Cached(list, refreshMs - 1)
  {
    var cfg := Config([ONE_FREE], refreshMs, 3);
    var e1, e2 := Ask(token, 1, 0), Ask(token, 2, refreshMs - 1);
    var caps: CapacityCache := map[(Balancer, token) := Cached(10, 0)];
    OneProvider(cfg, ONE_FREE, map[], STEP_WORLD, token, 1, 0);
    OneProvider(cfg, ONE_FREE, caps, STEP_WORLD, token, 2, refreshMs - 1);
    SingleSorted(SourceFor(ONE_FREE, token, 2, 10, refreshMs - 1));
    var (s1, st1) := Query(cfg, EMPTY, STEP_WORLD, token, 1, 0);
    assert st1.capacities == caps;
    var (s2, st2) := Query(cfg, st1, STEP_WORLD, token, 2, refreshMs - 1);
    assert [e1, e2][..1] == [e1];
    assert Run(cfg, STEP_WORLD, [e1][..0]) == (EMPTY, []);
    assert Run(cfg, STEP_WORLD, [e1]).0 == st1 && |Run(cfg, STEP_WORLD, [e1]).1| == 1;
    assert Run(cfg, STEP_WORLD, [e1, e2]).0 == st2;
  }

  /** The staleness bound is reached: ten is still answered refreshMs + 29998 ms later, though every observation since says twenty. */
  lemma StalenessBoundReached(refreshMs: int, token: Token)
    requires refreshMs >= 1
    ensures var cfg := Config([ONE_FREE], refreshMs, 3);
            var last := refreshMs - 1 + 29_999;
            var events := [Ask(token, 1, 0), Ask(token, 2, refreshMs - 1), Ask(token, 2, last)];
            && Timed(events)
            && (forall t :: t > 0 ==> Observed(STEP_WORLD, Balancer, token, t) == 20)
            && |Run(cfg, STEP_WORLD, events).1| == 3
            && Run(cfg, STEP_WORLD, events).1[2]
               == Answer(token, 2, last, [SourceFor(ONE_FREE, token, 2, 10, refreshMs - 1)])
  {
    TwoQueries(refreshMs, token);
    var e1, e2, e3 := Ask(token, 1, 0), Ask(token, 2, refreshMs - 1), Ask(token, 2, refreshMs - 1 + 29_999);
    assert [e1, e2, e3][..2] == [e1, e2];
  }

  lemma OneProvider(cfg: Config, pc: ProviderConfig, caps: CapacityCache, world: World, token: Token, amount: int, now: int)
    requires pc.enabled && CapacityAt(cfg, caps, world, pc.provider, token, now).0 >= amount
    ensures var (capacity, caps') := CapacityAt(cfg, caps, world, pc.provider, token, now);
            var s := SourceFor(pc, token, amount, capacity, now);
            Collect(cfg, [pc], caps, world, token, amount, now) == ([s], caps')
  {
    var ps := [pc];
    assert ps[..0] == [];
    assert Collect(cfg, ps[..0], caps, world, token, amount, now) == ([], caps);
    var s := SourceFor(pc, token, amount, CapacityAt(cfg, caps, world, pc.provider, token, now).0, now);
    assert [] + [s] == [s];
  }

  lemma SingleSorted(s: Source)
    ensures Sort([s], Cheapness) == [s]
  {
    SortedIsFixed([s], Cheapness);
  }

  // ---------- Pruning is invisible ----------

  ghost function FreshCapacity(cfg: Config, caps: CapacityCache, k: (Provider, Token), now: int): Option<Cached<int>> {
    if k in caps && now - caps[k].timestamp < cfg.refreshMs then Some(caps[k]) else None
  }

  ghost function FreshSources(srcs: SourceCache, k: (Token, int), now: int): Option<Cached<seq<Source>>> {
    if k in srcs && now - srcs[k].timestamp < SOURCE_TTL then Some(srcs[k]) else None
  }

  /** Two states that answer alike from `now` on. */
  ghost predicate Alike(cfg: Config, a: State, b: State, now: int) {
    && (forall k :: FreshCapacity(cfg, a.capacities, k, now) == FreshCapacity(cfg, b.capacities, k, now))
    && (forall k :: FreshSources(a.sources, k, now) == FreshSources(b.sources, k, now))
  }

  lemma AlikeLater(cfg: Config, a: State, b: State, now: int, later: int)
    requires Alike(cfg, a, b, now) && now <= later
    ensures Alike(cfg, a, b, later)
  {
    forall k ensures FreshCapacity(cfg, a.capacities, k, later) == FreshCapacity(cfg, b.capacities, k, later) {
      assert FreshCapacity(cfg, a.capacities, k, now) == FreshCapacity(cfg, b.capacities, k, now);
    }
    forall k ensures FreshSources(a.sources, k, later) == FreshSources(b.sources, k, later) {
      assert FreshSources(a.sources, k, now) == FreshSources(b.sources, k, now);
    }
  }

  lemma PruneAlike(cfg: Config, world: World, a: State, b: State, now: int)
    requires Alike(cfg, a, b, now) && Sound(cfg, world, a, now)
    ensures Alike(cfg, Refreshed(cfg, a, now), b, now)
  {
    var p := Refreshed(cfg, a, now);
    forall k ensures FreshCapacity(cfg, p.capacities, k, now) == FreshCapacity(cfg, b.capacities, k, now) {
      assert FreshCapacity(cfg, a.capacities, k, now) == FreshCapacity(cfg, b.capacities, k, now);
    }
    forall k ensures FreshSources(p.sources, k, now) == FreshSources(b.sources, k, now) {
      assert FreshSources(a.sources, k, now) == FreshSources(b.sources, k, now);
    }
  }

  ghost predicate CapsAlike(cfg: Config, a: CapacityCache, b: CapacityCache, now: int) {
    forall k :: FreshCapacity(cfg, a, k, now) == FreshCapacity(cfg, b, k, now)
  }

  lemma {:induction false} CollectAlike(cfg: Config, providers: seq<ProviderConfig>, a: CapacityCache, b: CapacityCache,
                                        world: World, token: Token, amount: int, now: int)
    requires CapsAlike(cfg, a, b, now)
    ensures var (fa, a') := Collect(cfg, providers, a, world, token, amount, now);
            var (fb, b') := Collect(cfg, providers, b, world, token, amount, now);
            fa == fb && CapsAlike(cfg, a', b', now)
  {
    if providers != [] {
      var front, pc := providers[..|providers| - 1], providers[|providers| - 1];
      CollectAlike(cfg, front, a, b, world, token, amount, now);
      var a1 := Collect(cfg, front, a, world, token, amount, now).1;
      var b1 := Collect(cfg, front, b, world, token, amount, now).1;
      assert FreshCapacity(cfg, a1, (pc.provider, token), now) == FreshCapacity(cfg, b1, (pc.provider, token), now);
      var (ca, a2) := CapacityAt(cfg, a1, world, pc.provider, token, now);
      var (cb, b2) := CapacityAt(cfg, b1, world, pc.provider, token, now);
      assert ca == cb;
      forall k ensures FreshCapacity(cfg, a2, k, now) == FreshCapacity(cfg, b2, k, now) {
        assert FreshCapacity(cfg, a1, k, now) == FreshCapacity(cfg, b1, k, now);
      }
    }
  }

  lemma QueryAlike(cfg: Config, a: State, b: State, world: World, token: Token, amount: int, now: int)
    requires Alike(cfg, a, b, now)
    ensures var (sa, a') := Query(cfg, a, world, token, amount, now);
            var (sb, b') := Query(cfg, b, world, token, amount, now);
            sa == sb && Alike(cfg, a', b', now)
  {
    assert FreshSources(a.sources, (token, amount), now) == FreshSources(b.sources, (token, amount), now);
    CollectAlike(cfg, cfg.providers, a.capacities, b.capacities, world, token, amount, now);
    var (sa, a') := Query(cfg, a, world, token, amount, now);
    var (sb, b') := Query(cfg, b, world, token, amount, now);
    forall k ensures FreshSources(a'.sources, k, now) == FreshSources(b'.sources, k, now) {
      assert FreshSources(a.sources, k, now) == FreshSources(b.sources, k, now);
    }
  }

  ghost function Asks(events: seq<Event>): seq<Event> {
    if events == [] then []
    else Asks(events[..|events| - 1]) + (if events[|events| - 1].Ask? then [events[|events| - 1]] else [])
  }

  /** The periodic cache refresh changes no answer: a run gives the same answers with every refresh removed. */
  lemma {:induction false} RefreshIsInvisible(cfg: Config, world: World, events: seq<Event>)
    requires Timed(events)
    ensures Run(cfg, world, events).1 == Run(cfg, world, Asks(events)).1
    ensures events != [] ==>
              Alike(cfg, Run(cfg, world, events).0, Run(cfg, world, Asks(events)).0, events[|events| - 1].now)
  {
    if events != [] {
      var front, e := events[..|events| - 1], events[|events| - 1];
      RefreshIsInvisible(cfg, world, front);
      RunSound(cfg, world, front, e.now);
      var a, b := Run(cfg, world, front).0, Run(cfg, world, Asks(front)).0;
      if front != [] {
        AlikeLater(cfg, a, b, front[|front| - 1].now, e.now);
      }
      match e
      case Ask(token, amount, now) =>
        QueryAlike(cfg, a, b, world, token, amount, now);
        assert (Asks(front) + [e])[..|Asks(front)|] == Asks(front);
      case Refresh(now) =>
        PruneAlike(cfg, world, a, b, now);
        assert Asks(events) == Asks(front);
    }
  }

  // ---------- Splitting a loan ----------

  datatype Split = Split(source: Source, amount: int, fee: int, gasOverhead: int)

  /** The source's fee, scaled down with the part of the source that is used. */
  function ProRata(amount: int, s: Source): int {
    if s.maxAmount > 0 then TruncDiv(amount * s.fee, s.maxAmount) else 0
  }

  /** What one source contributes; all of it, or what is still missing. */
  function OneSplit(s: Source, remaining: int): Split {
    var amount := if remaining > s.maxAmount then s.maxAmount else remaining;
    Split(s, amount, ProRata(amount, s), s.gasOverhead)
  }

  function Greedy(remaining: int, sources: seq<Source>, slots: int): seq<Split>
    decreases |sources|
  {
    if sources == [] || remaining <= 0 || slots <= 0 then []
    else
      var first := OneSplit(sources[0], remaining);
      [first] + Greedy(remaining - first.amount, sources[1..], slots - 1)
  }

  /** Moving the next split from the rest to the part already done. */
  lemma GreedyUnfolds(done: seq<Split>, next: Split, remaining: int, sources: seq<Source>, i: nat, maxSplits: int)
    requires i < |sources| && remaining > 0 && |done| < maxSplits && next == OneSplit(sources[i], remaining)
    ensures done + Greedy(remaining, sources[i..], maxSplits - |done|)
         == done + [next] + Greedy(remaining - next.amount, sources[i + 1..], maxSplits - |done + [next]|)
  {
    assert sources[i..][1..] == sources[i + 1..];
    assert |done + [next]| == |done| + 1;
  }

  function Splits(cfg: Config, total: int, sources: seq<Source>): seq<Split> {
    Greedy(total, Sort(sources, Cheapness), cfg.maxSplits)
  }

  function Borrowed(splits: seq<Split>): int {
    if splits == [] then 0 else splits[0].amount + Borrowed(splits[1..])
  }

  /** The capacity of the first `slots` sources. */
  function Capacity(sources: seq<Source>, slots: int): int {
    if sources == [] || slots <= 0 then 0 else sources[0].maxAmount + Capacity(sources[1..], slots - 1)
  }

  ghost predicate Lendable(sources: seq<Source>) {
    forall i :: 0 <= i < |sources| ==> sources[i].maxAmount >= 0 && sources[i].fee >= 0
  }

  lemma {:induction false} CapacityNonNegative(sources: seq<Source>, slots: int)
    requires Lendable(sources)
    ensures Capacity(sources, slots) >= 0
  {
    if sources != [] && slots > 0 {
      CapacityNonNegative(sources[1..], slots - 1);
    }
  }

  lemma ProRataBound(amount: int, s: Source)
    requires 0 <= amount <= s.maxAmount && s.fee >= 0
    ensures 0 <= ProRata(amount, s) <= s.fee
  {
    if s.maxAmount > 0 {
      MulPos(amount, s.fee);
      MulLe(amount, s.maxAmount, s.fee);
      TruncDivWithin(amount * s.fee, s.maxAmount, 0, s.fee);
    }
  }

  /**
   * The i-th split draws on the i-th source, no split exceeds its source in amount or fee, all but the last take
   * their whole source, and together they make up the total or the capacity of the slots, whichever is less.
   */
  lemma {:induction false} GreedyConserves(remaining: nat, sources: seq<Source>, slots: int)
    requires Lendable(sources)
    ensures var splits := Greedy(remaining, sources, slots);
            && Borrowed(splits) == Min(remaining, Capacity(sources, slots))
            && |splits| <= |sources| && |splits| <= Max(slots, 0)
            && (forall i :: 0 <= i < |splits| ==>
                  && splits[i].source == sources[i]
                  && 0 <= splits[i].amount <= sources[i].maxAmount
                  && 0 <= splits[i].fee <= sources[i].fee)
            && (forall i :: 0 <= i < |splits| - 1 ==> splits[i].amount == sources[i].maxAmount)
    decreases |sources|
  {
    CapacityNonNegative(sources, slots);
    if sources != [] && remaining > 0 && slots > 0 {
      var split := OneSplit(sources[0], remaining);
      CapacityNonNegative(sources[1..], slots - 1);
      ProRataBound(split.amount, sources[0]);
      GreedyConserves(remaining - split.amount, sources[1..], slots - 1);
    }
  }

  /** The part of the source's fee that belongs to the part of the source used, rounded down. */
  ghost predicate ShareOf(fee: int, amount: int, s: Source) {
    if s.maxAmount > 0 then fee * s.maxAmount <= amount * s.fee < (fee + 1) * s.maxAmount else fee == 0
  }

  lemma ProRataIsShare(amount: nat, s: Source)
    requires s.fee >= 0 && s.maxAmount >= 0
    ensures ShareOf(ProRata(amount, s), amount, s)
  {
    if s.maxAmount > 0 {
      MulPos(amount, s.fee);
      DivBounds(amount * s.fee, s.maxAmount);
    }
  }

  lemma {:induction false} GreedyShares(remaining: nat, sources: seq<Source>, slots: int)
    requires Lendable(sources)
    ensures forall split :: split in Greedy(remaining, sources, slots) ==>
              ShareOf(split.fee, split.amount, split.source) && split.gasOverhead == split.source.gasOverhead
    decreases |sources|
  {
    if sources != [] && remaining > 0 && slots > 0 {
      var first := OneSplit(sources[0], remaining);
      ProRataIsShare(first.amount, sources[0]);
      GreedyShares(remaining - first.amount, sources[1..], slots - 1);
    }
  }

  /** Every split reports its share of its source's fee, and its source's gas. */
  lemma SplitsChargeShares(cfg: Config, total: nat, sources: seq<Source>)
    requires Lendable(sources)
    ensures forall split :: split in Splits(cfg, total, sources) ==>
              ShareOf(split.fee, split.amount, split.source) && split.gasOverhead == split.source.gasOverhead
  {
    SortedLendable(sources);
    GreedyShares(total, Sort(sources, Cheapness), cfg.maxSplits);
  }

  lemma SortedLendable(sources: seq<Source>)
    requires Lendable(sources)
    ensures Lendable(Sort(sources, Cheapness))
  {
    var sorted := Sort(sources, Cheapness);
    SortKeepsMembers(sources);
    forall i | 0 <= i < |sorted| ensures sorted[i].maxAmount >= 0 && sorted[i].fee >= 0 {
      assert sorted[i] in sources;
    }
  }

  /** The whole splitter on any source list: the same, on its stable sort by fee. */
  lemma SplitsConserve(cfg: Config, total: nat, sources: seq<Source>)
    requires Lendable(sources)
    ensures var sorted, splits := Sort(sources, Cheapness), Splits(cfg, total, sources);
            && IsStableSort(sources, sorted, Cheapness)
            && Borrowed(splits) == Min(total, Capacity(sorted, cfg.maxSplits))
            && |splits| <= |sorted| && |splits| <= Max(cfg.maxSplits, 0)
            && (forall i :: 0 <= i < |splits| ==>
                  && splits[i].source == sorted[i]
                  && 0 <= splits[i].amount <= sorted[i].maxAmount
                  && 0 <= splits[i].fee <= sorted[i].fee)
            && (forall i :: 0 <= i < |splits| - 1 ==> splits[i].amount == sorted[i].maxAmount)
  {
    SortIsStableSort(sources, Cheapness);
    SortedLendable(sources);
    GreedyConserves(total, Sort(sources, Cheapness), cfg.maxSplits);
  }

  /**
   * Composed with the capacity filter nothing is ever split: a positive amount yields one split of the whole
   * amount exactly when some source exists and a slot is allowed, and the guard that would take the split path
   * (amount above the chosen source's maximum) is false for every source.
   */
  lemma FilteredSourcesNeverSplit(cfg: Config, world: World, st: State, token: Token, amount: int, now: int)
    requires amount > 0 && Sound(cfg, world, st, now)
    ensures var sources := Query(cfg, st, world, token, amount, now).0;
            var splits := Splits(cfg, amount, sources);
            && (sources != [] && cfg.maxSplits >= 1 <==> |splits| == 1)
            && (sources == [] || cfg.maxSplits < 1 <==> splits == [])
            && (splits != [] ==> splits[0].amount == amount && splits[0].source in sources)
            && (forall s :: s in sources ==> !(amount > s.maxAmount))
  {
    QuerySound(cfg, st, world, token, amount, now);
    var sources := Query(cfg, st, world, token, amount, now).0;
    SortKeepsMembers(sources);
    SortIsPermutation(sources, Cheapness);
    var sorted := Sort(sources, Cheapness);
    if sorted != [] {
      assert sorted[0] in sources;
      FirstSuffices(amount, sorted, cfg.maxSplits);
    }
  }

  lemma FirstSuffices(amount: int, sorted: seq<Source>, slots: int)
    requires amount > 0 && sorted != [] && sorted[0].maxAmount >= amount
    ensures Greedy(amount, sorted, slots) == if slots >= 1 then [OneSplit(sorted[0], amount)] else []
    ensures OneSplit(sorted[0], amount).amount == amount
  {
    assert Greedy(0, sorted[1..], slots - 1) == [];
  }

  // ---------- Is the greedy order the cheapest? ----------

  /**
   * A source as a capacity at a price. The fee is quoted for the requested total, so among the sources of one
   * list it is a price per unit, up to that total as a common factor.
   */
  function ItemOf(s: Source): K.Item {
    K.Item(if s.maxAmount > 0 then s.maxAmount else 0, s.fee)
  }

  function Items(sources: seq<Source>): (items: seq<K.Item>)
    ensures |items| == |sources| && forall i :: 0 <= i < |items| ==> items[i] == ItemOf(sources[i])
  {
    seq(|sources|, i requires 0 <= i < |sources| => ItemOf(sources[i]))
  }

  /** What the splits pay at the quoted prices. */
  ghost function Paid(splits: seq<Split>): int {
    if splits == [] then 0 else splits[0].amount * splits[0].source.fee + Paid(splits[1..])
  }

  /** The splits, slot limit included, are the greedy filling of what they borrow. */
  lemma {:induction false} GreedyFills(remaining: nat, sources: seq<Source>, slots: int)
    requires Lendable(sources)
    ensures var splits := Greedy(remaining, sources, slots);
            0 <= Borrowed(splits) <= remaining && Paid(splits) == K.GreedyCost(Borrowed(splits), Items(sources))
    decreases |sources|
  {
    GreedyConserves(remaining, sources, slots);
    CapacityNonNegative(sources, slots);
    if sources == [] || remaining <= 0 || slots <= 0 {
      K.ZerosCostNothing(Items(sources));
    } else {
      var first := OneSplit(sources[0], remaining);
      var splits, rest := Greedy(remaining, sources, slots), Greedy(remaining - first.amount, sources[1..], slots - 1);
      GreedyFills(remaining - first.amount, sources[1..], slots - 1);
      assert splits[1..] == rest;
      assert Items(sources)[1..] == Items(sources[1..]);
      assert K.Take(Borrowed(splits), ItemOf(sources[0])) == first.amount;
    }
  }

  lemma {:induction false} FitsWithinCapacity(alloc: seq<nat>, sources: seq<Source>)
    requires Lendable(sources) && K.Fits(alloc, Items(sources))
    ensures Sum(alloc) <= Capacity(sources, |sources|)
  {
    if sources != [] {
      assert Items(sources)[1..] == Items(sources[1..]);
      FitsWithinCapacity(alloc[1..], sources[1..]);
    }
  }

  /** At the quoted prices no allocation of the amount the splits borrow, over any number of sources, is cheaper. */
  ghost predicate GreedyCheapest(sources: seq<Source>) {
    forall total: nat, slots: int, alloc: seq<nat> |
      K.Fits(alloc, Items(sources)) && Sum(alloc) == Borrowed(Greedy(total, sources, slots)) ::
      Paid(Greedy(total, sources, slots)) <= K.Cost(alloc, Items(sources))
  }

  /** Splitting in list order is cheapest, for every total and slot limit, exactly when the fees ascend. */
  lemma GreedyCheapestIff(sources: seq<Source>)
    requires Lendable(sources) && forall i :: 0 <= i < |sources| ==> sources[i].maxAmount >= 1
    ensures GreedyCheapest(sources) <==> Descending(sources, Cheapness)
  {
    var items := Items(sources);
    if Descending(sources, Cheapness) {
      SortedIsCheapest(sources);
    } else {
      var i, j :| 0 <= i < j < |sources| && Cheapness(sources[i]) < Cheapness(sources[j]);
      var alloc := K.InversionCosts(items, i, j);
      FitsWithinCapacity(alloc, sources);
      GreedyConserves(Sum(alloc), sources, |sources|);
      GreedyFills(Sum(alloc), sources, |sources|);
      assert Sum(alloc) == Borrowed(Greedy(Sum(alloc), sources, |sources|));
    }
  }

  lemma SortedIsCheapest(sources: seq<Source>)
    requires Lendable(sources) && Descending(sources, Cheapness)
    ensures GreedyCheapest(sources)
  {
    var items := Items(sources);
    assert K.Ordered(items) by {
      forall i, j | 0 <= i < j < |items| ensures items[i].price <= items[j].price {
        assert Cheapness(sources[i]) >= Cheapness(sources[j]);
      }
    }
    forall total: nat, slots: int, alloc: seq<nat> |
      K.Fits(alloc, items) && Sum(alloc) == Borrowed(Greedy(total, sources, slots))
      ensures Paid(Greedy(total, sources, slots)) <= K.Cost(alloc, items)
    {
      GreedyFills(total, sources, slots);
      K.GreedyIsOptimal(Sum(alloc), items, alloc);
    }
  }

  // ---------- Against the configured rates ----------

  /** The rate of each provider, which is configured once. */
  type Rates = Provider -> nat

  ghost predicate Configured(rates: Rates, cfg: Config) {
    forall i :: 0 <= i < |cfg.providers| ==> rates(cfg.providers[i].provider) == cfg.providers[i].feeRate
  }

  /** Every fee of the list is the one of this amount at the source's rate. */
  ghost predicate QuotedFor(rates: Rates, sources: seq<Source>, amount: int) {
    forall s :: s in sources ==> s.fee == TruncDiv(amount * rates(s.provider), ONE_ETHER)
  }

  ghost predicate Priced(rates: Rates, st: State) {
    forall k :: k in st.sources ==> QuotedFor(rates, st.sources[k].value, k.1)
  }

  /** Quotes for one amount never invert the order of the rates. */
  lemma FeesFollowRates(a: ProviderConfig, b: ProviderConfig, token: Token, amount: nat, capA: int, capB: int, now: int)
    requires SourceFor(a, token, amount, capA, now).fee < SourceFor(b, token, amount, capB, now).fee
    ensures a.feeRate < b.feeRate
  {
    if b.feeRate <= a.feeRate {
      MulPos(amount, b.feeRate);
      MulLe(b.feeRate, a.feeRate, amount);
      DivMono(amount * b.feeRate, amount * a.feeRate, ONE_ETHER);
    }
  }

  lemma {:induction false} CollectQuoted(cfg: Config, rates: Rates, n: nat, caps: CapacityCache, world: World,
                                         token: Token, amount: int, now: int)
    requires Configured(rates, cfg) && n <= |cfg.providers|
    ensures QuotedFor(rates, Collect(cfg, cfg.providers[..n], caps, world, token, amount, now).0, amount)
  {
    if n > 0 {
      CollectQuoted(cfg, rates, n - 1, caps, world, token, amount, now);
      assert cfg.providers[..n][..n - 1] == cfg.providers[..n - 1];
    }
  }

  lemma QueryPriced(cfg: Config, rates: Rates, st: State, world: World, token: Token, amount: int, now: int)
    requires Configured(rates, cfg) && Priced(rates, st)
    ensures var (sources, st') := Query(cfg, st, world, token, amount, now);
            QuotedFor(rates, sources, amount) && Priced(rates, st')
  {
    var n := |cfg.providers|;
    assert cfg.providers[..n] == cfg.providers;
    CollectQuoted(cfg, rates, n, st.capacities, world, token, amount, now);
    SortKeepsMembers(Collect(cfg, cfg.providers, st.capacities, world, token, amount, now).0);
  }

  /** Over any run every answer, cached or not, carries the fees of the amount it was asked for. */
  lemma {:induction false} AnswersAreQuoted(cfg: Config, rates: Rates, world: World, events: seq<Event>)
    requires Configured(rates, cfg)
    ensures Priced(rates, Run(cfg, world, events).0)
    ensures forall a :: a in Run(cfg, world, events).1 ==> QuotedFor(rates, a.sources, a.amount)
  {
    if events != [] {
      var front, e := events[..|events| - 1], events[|events| - 1];
      AnswersAreQuoted(cfg, rates, world, front);
      if e.Ask? {
        QueryPriced(cfg, rates, Run(cfg, world, front).0, world, e.token, e.amount, e.now);
      }
    }
  }

  /** What the splits cost at the configured rates, in units of 10^-18. */
  ghost function RateCost(splits: seq<Split>, rates: Rates): int {
    if splits == [] then 0
    else splits[0].amount * rates(splits[0].source.provider) + RateCost(splits[1..], rates)
  }

  ghost function AllocCost(alloc: seq<nat>, sources: seq<Source>, rates: Rates): int
    requires |alloc| == |sources|
  {
    if alloc == [] then 0
    else alloc[0] * rates(sources[0].provider) + AllocCost(alloc[1..], sources[1..], rates)
  }

  /** A floored quote misses its rate by less than one unit, for each unit borrowed. */
  lemma QuoteTerms(total: nat, rate: nat, fee: int, amount: nat)
    requires fee == TruncDiv(total * rate, ONE_ETHER)
    ensures ONE_ETHER * (amount * fee) <= total * (amount * rate) <= ONE_ETHER * (amount * fee) + ONE_ETHER * amount - amount
  {
    MulPos(total, rate);
    DivBounds(total * rate, ONE_ETHER);
    MulLe(fee * ONE_ETHER, total * rate, amount);
    MulLe(total * rate, fee * ONE_ETHER + ONE_ETHER - 1, amount);
    MoveAmount(total, rate, fee, amount);
  }

  lemma MoveAmount(total: int, rate: int, fee: int, amount: int)
    ensures fee * ONE_ETHER * amount == ONE_ETHER * (amount * fee)
    ensures total * rate * amount == total * (amount * rate)
    ensures (fee * ONE_ETHER + ONE_ETHER - 1) * amount == ONE_ETHER * (amount * fee) + ONE_ETHER * amount - amount
  {
  }

  lemma {:induction false} PaidAtRates(total: nat, splits: seq<Split>, rates: Rates)
    requires forall i :: 0 <= i < |splits| ==> splits[i].amount >= 0
    requires forall i :: 0 <= i < |splits| ==> splits[i].source.fee == TruncDiv(total * rates(splits[i].source.provider), ONE_ETHER)
    ensures total * RateCost(splits, rates) <= ONE_ETHER * Paid(splits) + (ONE_ETHER - 1) * Borrowed(splits)
  {
    if splits != [] {
      PaidAtRates(total, splits[1..], rates);
      QuoteTerms(total, rates(splits[0].source.provider), splits[0].source.fee, splits[0].amount);
      Distribute(total, splits[0].amount * rates(splits[0].source.provider), RateCost(splits[1..], rates));
    }
  }

  lemma {:induction false} AllocAtRates(total: nat, alloc: seq<nat>, sources: seq<Source>, rates: Rates)
    requires |alloc| == |sources| && QuotedFor(rates, sources, total)
    ensures ONE_ETHER * K.Cost(alloc, Items(sources)) <= total * AllocCost(alloc, sources, rates)
  {
    if sources != [] {
      assert Items(sources)[1..] == Items(sources[1..]);
      assert sources[0] in sources;
      AllocAtRates(total, alloc[1..], sources[1..], rates);
      QuoteTerms(total, rates(sources[0].provider), sources[0].fee, alloc[0]);
      Distribute(total, alloc[0] * rates(sources[0].provider), AllocCost(alloc[1..], sources[1..], rates));
    }
  }

  lemma Distribute(c: int, a: int, b: int)
    ensures c * (a + b) == c * a + c * b
  {
  }

  /**
   * The splitter on a list quoted for its total, with its own sort and slot limit: at the configured rates its
   * splits cost less than one unit more than any allocation of the same amount over any number of the sources.
   */
  lemma SplitsAreCheapest(cfg: Config, rates: Rates, total: nat, sources: seq<Source>, alloc: seq<nat>)
    requires total >= 1 && Lendable(sources) && QuotedFor(rates, sources, total)
    requires K.Fits(alloc, Items(Sort(sources, Cheapness))) && Sum(alloc) == Borrowed(Splits(cfg, total, sources))
    ensures RateCost(Splits(cfg, total, sources), rates) < AllocCost(alloc, Sort(sources, Cheapness), rates) + ONE_ETHER
  {
    var sorted, splits := Sort(sources, Cheapness), Splits(cfg, total, sources);
    SortKeepsMembers(sources);
    SortedLendable(sources);
    SortedIsCheapest(sorted);
    GreedyConserves(total, sorted, cfg.maxSplits);
    forall i | 0 <= i < |splits|
      ensures splits[i].source.fee == TruncDiv(total * rates(splits[i].source.provider), ONE_ETHER)
    {
      assert sorted[i] in sources;
    }
    PaidAtRates(total, splits, rates);
    AllocAtRates(total, alloc, sorted, rates);
    CancelTotal(total, RateCost(splits, rates), AllocCost(alloc, sorted, rates), Borrowed(splits));
  }

  lemma CancelTotal(total: nat, a: int, b: int, borrowed: int)
    requires total >= 1 && borrowed <= total && total * a <= total * b + (ONE_ETHER - 1) * borrowed
    ensures a < b + ONE_ETHER
  {
    if a >= b + ONE_ETHER {
      MulLe(b + ONE_ETHER, a, total);
      MoveTotal(total, a, b);
    }
  }

  lemma MoveTotal(total: int, a: int, b: int)
    ensures (b + ONE_ETHER) * total == total * b + ONE_ETHER * total
    ensures a * total == total * a
  {
  }

  // ---------- The fee a split reports ----------

  /** One split reports its source's quote exactly when there is none or the source is used up. */
  lemma OneSplitFeeIff(s: Source, amount: int)
    requires 0 < amount <= s.maxAmount && s.fee >= 0
    ensures OneSplit(s, amount).fee == s.fee <==> s.fee == 0 || amount == s.maxAmount
  {
    var m := s.maxAmount;
    MulPos(amount, s.fee);
    DivBounds(amount * s.fee, m);
    if amount == m {
      DivIs(amount * s.fee, m, s.fee);
    } else if s.fee > 0 {
      MulLe(amount + 1, m, s.fee);
      LeDiv(s.fee, amount * s.fee, m);
      assert (amount + 1) * s.fee == amount * s.fee + s.fee;
    }
  }

  /**
   * What the manager hands out for a positive amount: one split of the cheapest source, whose quote no
   * allocation at the configured rates undercuts; the fee it reports is that quote exactly when the quote is
   * zero or the loan takes the source's whole capacity, and is below it otherwise.
   */
  lemma SplitSourcesCheapestIff(cfg: Config, rates: Rates, world: World, st: State, token: Token, amount: int, now: int)
    requires amount > 0 && cfg.maxSplits >= 1
    requires Sound(cfg, world, st, now) && Configured(rates, cfg) && Priced(rates, st)
    ensures var sources := Query(cfg, st, world, token, amount, now).0;
            var splits := Splits(cfg, amount, sources);
            sources != [] ==>
              && |splits| == 1 && splits[0].amount == amount && splits[0].source in sources
              && (forall s :: s in sources ==> splits[0].source.fee <= s.fee)
              && (forall alloc: seq<nat> | |alloc| == |sources| && Sum(alloc) == amount ::
                    ONE_ETHER * splits[0].source.fee <= AllocCost(alloc, sources, rates))
              && splits[0].fee <= splits[0].source.fee
              && (splits[0].fee == splits[0].source.fee
                  <==> splits[0].source.fee == 0 || amount == splits[0].source.maxAmount)
  {
    var sources := Query(cfg, st, world, token, amount, now).0;
    if sources != [] {
      QuerySound(cfg, st, world, token, amount, now);
      QueryPriced(cfg, rates, st, world, token, amount, now);
      CheapestFirst(cfg, rates, amount, sources);
      var s := Sort(sources, Cheapness)[0];
      forall alloc: seq<nat> | |alloc| == |sources| && Sum(alloc) == amount
        ensures ONE_ETHER * s.fee <= AllocCost(alloc, sources, rates)
      {
        NothingUndercuts(amount, s.fee, alloc, sources, rates);
      }
    }
  }

  lemma CheapestFirst(cfg: Config, rates: Rates, amount: int, sources: seq<Source>)
    requires amount > 0 && cfg.maxSplits >= 1 && sources != [] && QuotedFor(rates, sources, amount)
    requires forall s :: s in sources ==> s.maxAmount >= amount
    ensures |Sort(sources, Cheapness)| == |sources|
    ensures var s := Sort(sources, Cheapness)[0];
            && s in sources && s.fee >= 0 && Splits(cfg, amount, sources) == [OneSplit(s, amount)]
            && OneSplit(s, amount).source == s && OneSplit(s, amount).amount == amount
            && (forall other :: other in sources ==> s.fee <= other.fee)
            && OneSplit(s, amount).fee <= s.fee
            && (OneSplit(s, amount).fee == s.fee <==> s.fee == 0 || amount == s.maxAmount)
  {
    var sorted := Sort(sources, Cheapness);
    SortKeepsMembers(sources);
    SortIsPermutation(sources, Cheapness);
    assert |multiset(sorted)| == |multiset(sources)|;
    var s := sorted[0];
    assert s in sorted;
    MulPos(amount, rates(s.provider));
    TruncDivWithin(amount * rates(s.provider), ONE_ETHER, 0, amount * rates(s.provider));
    forall other | other in sources ensures s.fee <= other.fee {
      var i :| 0 <= i < |sorted| && sorted[i] == other;
      assert i > 0 ==> Cheapness(sorted[0]) >= Cheapness(sorted[i]);
    }
    FirstSuffices(amount, sorted, cfg.maxSplits);
    OneSplitFeeIff(s, amount);
    ProRataBound(amount, s);
  }

  /** A fee that no source undercuts for the whole amount is not undercut by any allocation of it. */
  lemma NothingUndercuts(amount: int, fee: int, alloc: seq<nat>, sources: seq<Source>, rates: Rates)
    requires amount > 0 && |alloc| == |sources| && Sum(alloc) == amount && QuotedFor(rates, sources, amount)
    requires forall s :: s in sources ==> fee <= s.fee
    ensures ONE_ETHER * fee <= AllocCost(alloc, sources, rates)
  {
    EachAtLeast(amount, fee, alloc, sources, rates);
    CancelAmount(amount, fee, AllocCost(alloc, sources, rates));
  }

  lemma CancelAmount(amount: int, fee: int, cost: int)
    requires amount > 0 && ONE_ETHER * (fee * amount) <= amount * cost
    ensures ONE_ETHER * fee <= cost
  {
    assert ONE_ETHER * fee * amount == ONE_ETHER * (fee * amount);
    if ONE_ETHER * fee > cost {
      MulLe(cost + 1, ONE_ETHER * fee, amount);
    }
  }

  lemma {:induction false} EachAtLeast(amount: nat, fee: int, alloc: seq<nat>, sources: seq<Source>, rates: Rates)
    requires |alloc| == |sources| && QuotedFor(rates, sources, amount)
    requires forall s :: s in sources ==> fee <= s.fee
    ensures ONE_ETHER * (fee * Sum(alloc)) <= amount * AllocCost(alloc, sources, rates)
  {
    if sources != [] {
      var rate := rates(sources[0].provider);
      assert sources[0] in sources;
      EachAtLeast(amount, fee, alloc[1..], sources[1..], rates);
      QuoteTerms(amount, rate, sources[0].fee, alloc[0]);
      MulLe(fee, sources[0].fee, alloc[0]);
      Distribute(amount, alloc[0] * rate, AllocCost(alloc[1..], sources[1..], rates));
      Distribute(fee, alloc[0], Sum(alloc[1..]));
    }
  }

  /** At 0.09% a loan of 10^6 is quoted 900, and its one split reports a fee of zero. */
  lemma SplitHidesFeeExample(token: Token)
    ensures var s := SourceFor(ProviderConfig(Aave, true, 900_000_000_000_000), token, 1_000_000, 1_000_000_000_000, 0);
            s.fee == 900 && OneSplit(s, 1_000_000).fee == 0
  {
    assert 1_000_000 * 900_000_000_000_000 / ONE_ETHER == 900;
  }
}
