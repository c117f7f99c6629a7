/** Which sources an answer must hold: completeness of the provider loop and its two caches over every run. */
module LoanCompleteness {
  import opened Numbers
  import opened Options
  import opened StableSorting
  import opened LS = LoanSourcing

  /** Each provider is configured once. */
  ghost predicate OncePerProvider(cfg: Config) {
    forall i, j :: 0 <= i < j < |cfg.providers| ==> cfg.providers[i].provider != cfg.providers[j].provider
  }

  /** A source of an enabled provider, at that provider's own rate. */
  ghost predicate OfferedBy(pc: ProviderConfig, s: Source, amount: int) {
    && pc.enabled && s.provider == pc.provider && s.gasOverhead == 200_000
    && s.fee == TruncDiv(amount * pc.feeRate, 1_000_000_000_000_000_000)
  }

  /** Every balance that could be observed between `from` and `to` reaches the amount. */
  ghost predicate AlwaysReaches(world: World, p: Provider, token: Token, amount: int, from: int, to: int) {
    forall t | from <= t <= to :: Observed(world, p, token, t) >= amount
  }

  ghost predicate Lists(list: seq<Source>, p: Provider) { exists s :: s in list && s.provider == p }

  /** No provider occurs twice. */
  ghost predicate Single(list: seq<Source>) {
    forall i, j :: 0 <= i < j < |list| ==> list[i].provider != list[j].provider
  }

  /** A list that the first `n` providers explain: nothing but their offers, and every offer that must be there. */
  ghost predicate Explained(cfg: Config, n: nat, world: World, list: seq<Source>, token: Token, amount: int, from: int, to: int)
    requires n <= |cfg.providers|
  {
    && (forall s :: s in list ==> from <= s.lastUpdated <= to && exists i :: 0 <= i < n && OfferedBy(cfg.providers[i], s, amount))
    && (forall i | 0 <= i < n && cfg.providers[i].enabled ::
          AlwaysReaches(world, cfg.providers[i].provider, token, amount, from, to) ==> Lists(list, cfg.providers[i].provider))
    && Single(list)
  }

  ghost predicate Complete(cfg: Config, world: World, list: seq<Source>, token: Token, amount: int, from: int, to: int) {
    Explained(cfg, |cfg.providers|, world, list, token, amount, from, to)
  }

  ghost predicate SeenBetween(world: World, p: Provider, token: Token, capacity: int, from: int, to: int) {
    exists t :: from <= t <= to && capacity == Observed(world, p, token, t)
  }

  /** What the first `n` providers contribute to a query. */
  ghost function Found(cfg: Config, n: nat, st: State, world: World, token: Token, amount: int, now: int): seq<Source>
    requires n <= |cfg.providers|
  {
    Collect(cfg, cfg.providers[..n], st.capacities, world, token, amount, now).0
  }

  lemma {:induction false} CollectExplained(cfg: Config, n: nat, st: State, world: World, token: Token, amount: int, now: int)
    requires OncePerProvider(cfg) && n <= |cfg.providers| && Sound(cfg, world, st, now)
    ensures Explained(cfg, n, world, Found(cfg, n, st, world, token, amount, now), token, amount, now - CapacityAge(cfg), now)
  {
    if n == 0 {
      assert Found(cfg, 0, st, world, token, amount, now) == [];
    } else {
      CollectExplained(cfg, n - 1, st, world, token, amount, now);
      ExplainedStep(cfg, n, st, world, token, amount, now);
    }
  }

  lemma ExplainedStep(cfg: Config, n: nat, st: State, world: World, token: Token, amount: int, now: int)
    requires OncePerProvider(cfg) && 0 < n <= |cfg.providers| && Sound(cfg, world, st, now)
    requires Explained(cfg, n - 1, world, Found(cfg, n - 1, st, world, token, amount, now), token, amount,
                       now - CapacityAge(cfg), now)
    ensures Explained(cfg, n, world, Found(cfg, n, st, world, token, amount, now), token, amount, now - CapacityAge(cfg), now)
  {
    var front, list := Found(cfg, n - 1, st, world, token, amount, now), Found(cfg, n, st, world, token, amount, now);
    if cfg.providers[n - 1].enabled {
      var capacity := CollectStep(cfg, n, st, world, token, amount, now);
      AddOffer(cfg, n, cfg.providers[n - 1], world, front, list, token, amount, now - CapacityAge(cfg), now, capacity);
    } else {
      assert cfg.providers[..n][..n - 1] == cfg.providers[..n - 1];
      SkipDisabled(cfg, n, world, list, token, amount, now - CapacityAge(cfg), now);
    }
  }

  lemma CollectStep(cfg: Config, n: nat, st: State, world: World, token: Token, amount: int, now: int) returns (capacity: int)
    requires 0 < n <= |cfg.providers| && cfg.providers[n - 1].enabled && Sound(cfg, world, st, now)
    ensures SeenBetween(world, cfg.providers[n - 1].provider, token, capacity, now - CapacityAge(cfg), now)
    ensures Found(cfg, n, st, world, token, amount, now)
         == WithOffer(Found(cfg, n - 1, st, world, token, amount, now), cfg.providers[n - 1], token, amount, capacity, now)
  {
    var pc := cfg.providers[n - 1];
    var caps := Collect(cfg, cfg.providers[..n - 1], st.capacities, world, token, amount, now).1;
    assert cfg.providers[..n][..n - 1] == cfg.providers[..n - 1];
    CapacitySeen(cfg, cfg.providers[..n - 1], st, world, pc.provider, token, amount, now);
    capacity := CapacityAt(cfg, caps, world, pc.provider, token, now).0;
  }

  ghost function WithOffer(found: seq<Source>, pc: ProviderConfig, token: Token, amount: int, capacity: int, now: int): seq<Source> {
    if capacity >= amount then found + [SourceFor(pc, token, amount, capacity, now)] else found
  }

  lemma SkipDisabled(cfg: Config, n: nat, world: World, found: seq<Source>, token: Token, amount: int, from: int, now: int)
    requires 0 < n <= |cfg.providers| && !cfg.providers[n - 1].enabled
    requires Explained(cfg, n - 1, world, found, token, amount, from, now)
    ensures Explained(cfg, n, world, found, token, amount, from, now)
  {
  }

  lemma CapacitySeen(cfg: Config, providers: seq<ProviderConfig>, st: State, world: World, p: Provider,
                     token: Token, amount: int, now: int)
    requires Sound(cfg, world, st, now)
    ensures var caps := Collect(cfg, providers, st.capacities, world, token, amount, now).1;
            SeenBetween(world, p, token, CapacityAt(cfg, caps, world, p, token, now).0, now - CapacityAge(cfg), now)
  {
    CollectSound(cfg, providers, st, world, token, amount, now);
    var caps := Collect(cfg, providers, st.capacities, world, token, amount, now).1;
    CapacitySound(cfg, st.(capacities := caps), world, p, token, now);
  }

  /** One more enabled provider: its offer is added when its capacity suffices. */
  lemma AddOffer(cfg: Config, n: nat, pc: ProviderConfig, world: World, found: seq<Source>, list: seq<Source>, token: Token,
                 amount: int, from: int, now: int, capacity: int)
    requires OncePerProvider(cfg) && 0 < n <= |cfg.providers| && pc == cfg.providers[n - 1] && pc.enabled
    requires Explained(cfg, n - 1, world, found, token, amount, from, now)
    requires SeenBetween(world, pc.provider, token, capacity, from, now)
    requires list == WithOffer(found, pc, token, amount, capacity, now)
    ensures Explained(cfg, n, world, list, token, amount, from, now)
  {
    var s := SourceFor(pc, token, amount, capacity, now);
    assert OfferedBy(pc, s, amount);
    forall x | x in found ensures x.provider != pc.provider {
      var i :| 0 <= i < n - 1 && OfferedBy(cfg.providers[i], x, amount);
    }
    if capacity >= amount {
      assert s in list;
    }
    forall i | 0 <= i < n && cfg.providers[i].enabled && AlwaysReaches(world, cfg.providers[i].provider, token, amount, from, now)
      ensures Lists(list, cfg.providers[i].provider)
    {
      if i < n - 1 {
        var x :| x in found && x.provider == cfg.providers[i].provider;
        assert x in list;
      }
    }
  }

  lemma SortComplete(cfg: Config, world: World, list: seq<Source>, token: Token, amount: int, from: int, to: int)
    requires Complete(cfg, world, list, token, amount, from, to)
    ensures Complete(cfg, world, Sort(list, LS.Cheapness), token, amount, from, to)
  {
    var sorted := Sort(list, LS.Cheapness);
    SortKeepsMembers(list);
    SortSingle(list);
    forall i | 0 <= i < |cfg.providers| && cfg.providers[i].enabled
               && AlwaysReaches(world, cfg.providers[i].provider, token, amount, from, to)
      ensures Lists(sorted, cfg.providers[i].provider)
    {
      var s :| s in list && s.provider == cfg.providers[i].provider;
      assert s in sorted;
    }
  }

  lemma {:induction false} SortSingle(list: seq<Source>)
    requires Single(list)
    ensures Single(Sort(list, LS.Cheapness))
  {
    if list != [] {
      var front, x := list[..|list| - 1], list[|list| - 1];
      SortSingle(front);
      SortKeepsMembers(front);
      var s := Sort(front, LS.Cheapness);
      var k := InsertSplit(s, x, LS.Cheapness);
      forall i | 0 <= i < |s| ensures s[i].provider != x.provider {
        assert s[i] in front;
      }
      var q := s[..k] + [x] + s[k..];
      forall i, j | 0 <= i < j < |q| ensures q[i].provider != q[j].provider {
        assert q[i] == if i < k then s[i] else if i == k then x else s[i - 1];
        assert q[j] == if j < k then s[j] else if j == k then x else s[j - 1];
      }
    }
  }

  /** A wider window asks for less. */
  lemma Wider(cfg: Config, world: World, list: seq<Source>, token: Token, amount: int, from: int, to: int, from': int, to': int)
    requires Complete(cfg, world, list, token, amount, from, to) && from' <= from && to <= to'
    ensures Complete(cfg, world, list, token, amount, from', to')
  {
    forall i | 0 <= i < |cfg.providers| && cfg.providers[i].enabled
               && AlwaysReaches(world, cfg.providers[i].provider, token, amount, from', to')
      ensures Lists(list, cfg.providers[i].provider)
    {
      assert AlwaysReaches(world, cfg.providers[i].provider, token, amount, from, to);
    }
  }

  ghost predicate CompleteEntry(cfg: Config, world: World, c: Cached<seq<Source>>, token: Token, amount: int) {
    Complete(cfg, world, c.value, token, amount, c.timestamp - CapacityAge(cfg), c.timestamp)
  }

  ghost predicate CompleteCache(cfg: Config, world: World, st: State) {
    forall k :: k in st.sources ==> CompleteEntry(cfg, world, st.sources[k], k.0, k.1)
  }

  lemma FreshComplete(cfg: Config, st: State, world: World, token: Token, amount: int, now: int)
    requires OncePerProvider(cfg) && Sound(cfg, world, st, now)
    ensures var found := Collect(cfg, cfg.providers, st.capacities, world, token, amount, now).0;
            Complete(cfg, world, Sort(found, LS.Cheapness), token, amount, now - CapacityAge(cfg), now)
  {
    var n := |cfg.providers|;
    assert cfg.providers[..n] == cfg.providers;
    CollectExplained(cfg, n, st, world, token, amount, now);
    var found := Collect(cfg, cfg.providers, st.capacities, world, token, amount, now).0;
    SortComplete(cfg, world, found, token, amount, now - CapacityAge(cfg), now);
  }

  lemma StoreComplete(cfg: Config, world: World, st: State, caps: CapacityCache, token: Token, amount: int, c: Cached<seq<Source>>)
    requires CompleteCache(cfg, world, st) && CompleteEntry(cfg, world, c, token, amount)
    ensures CompleteCache(cfg, world, State(caps, st.sources[(token, amount) := c]))
  {
  }

  /** The window of an answer: the age of a list and of the capacities behind it. */
  ghost predicate CompleteFor(cfg: Config, world: World, sources: seq<Source>, token: Token, amount: int, now: int) {
    Complete(cfg, world, sources, token, amount, now - CapacityAge(cfg) - 29_999, now)
  }

  lemma EntryAnswers(cfg: Config, world: World, c: Cached<seq<Source>>, token: Token, amount: int, now: int)
    requires CompleteEntry(cfg, world, c, token, amount) && c.timestamp <= now < c.timestamp + 30_000
    ensures CompleteFor(cfg, world, c.value, token, amount, now)
  {
    Wider(cfg, world, c.value, token, amount, c.timestamp - CapacityAge(cfg), c.timestamp, now - CapacityAge(cfg) - 29_999, now);
  }

  /** A query answers from a complete entry: the one it found or the one it stores. */
  lemma QueryEntry(cfg: Config, st: State, world: World, token: Token, amount: int, now: int) returns (c: Cached<seq<Source>>)
    requires OncePerProvider(cfg) && Sound(cfg, world, st, now) && CompleteCache(cfg, world, st)
    ensures CompleteEntry(cfg, world, c, token, amount) && c.timestamp <= now < c.timestamp + 30_000
    ensures var (sources, st') := Query(cfg, st, world, token, amount, now);
            sources == c.value && (st' == st || st' == State(st'.capacities, st.sources[(token, amount) := c]))
  {
    if (token, amount) in st.sources && now - st.sources[(token, amount)].timestamp < SOURCE_TTL {
      c := st.sources[(token, amount)];
    } else {
      FreshComplete(cfg, st, world, token, amount, now);
      c := Cached(Sort(Collect(cfg, cfg.providers, st.capacities, world, token, amount, now).0, LS.Cheapness), now);
    }
  }

  lemma QueryComplete(cfg: Config, st: State, world: World, token: Token, amount: int, now: int)
    requires OncePerProvider(cfg) && Sound(cfg, world, st, now) && CompleteCache(cfg, world, st)
    ensures var (sources, st') := Query(cfg, st, world, token, amount, now);
            CompleteFor(cfg, world, sources, token, amount, now) && CompleteCache(cfg, world, st')
  {
    var c := QueryEntry(cfg, st, world, token, amount, now);
    EntryAnswers(cfg, world, c, token, amount, now);
    var st' := Query(cfg, st, world, token, amount, now).1;
    if st' != st {
      StoreComplete(cfg, world, st, st'.capacities, token, amount, c);
    }
  }

  lemma {:induction false} RunComplete(cfg: Config, world: World, events: seq<Event>)
    requires OncePerProvider(cfg) && Timed(events)
    ensures CompleteCache(cfg, world, LS.Run(cfg, world, events).0)
  {
    if events != [] {
      var front, e := events[..|events| - 1], events[|events| - 1];
      RunComplete(cfg, world, front);
      RunSound(cfg, world, front, e.now);
      if e.Ask? {
        QueryComplete(cfg, LS.Run(cfg, world, front).0, world, e.token, e.amount, e.now);
      }
    }
  }

  /**
   * Over any run, every answer offers only enabled providers, each once and at its own rate, and offers every
   * enabled provider all of whose observations in the answer's window reach the amount.
   */
  lemma {:induction false} AnswersAreComplete(cfg: Config, world: World, events: seq<Event>)
    requires OncePerProvider(cfg) && Timed(events)
    ensures forall a :: a in LS.Run(cfg, world, events).1 ==> CompleteFor(cfg, world, a.sources, a.token, a.amount, a.now)
  {
    if events != [] {
      AnswersAreComplete(cfg, world, events[..|events| - 1]);
      if events[|events| - 1].Ask? {
        AskComplete(cfg, world, events);
      }
    }
  }

  lemma AskComplete(cfg: Config, world: World, events: seq<Event>)
    requires OncePerProvider(cfg) && Timed(events) && events != [] && events[|events| - 1].Ask?
    ensures var front, e := events[..|events| - 1], events[|events| - 1];
            exists sources ::
              && CompleteFor(cfg, world, sources, e.token, e.amount, e.now)
              && LS.Run(cfg, world, events).1 == LS.Run(cfg, world, front).1 + [Answer(e.token, e.amount, e.now, sources)]
  {
    var front, e := events[..|events| - 1], events[|events| - 1];
    RunComplete(cfg, world, front);
    RunSound(cfg, world, front, e.now);
    var st := LS.Run(cfg, world, front).0;
    QueryComplete(cfg, st, world, e.token, e.amount, e.now);
    var sources := Query(cfg, st, world, e.token, e.amount, e.now).0;
    assert CompleteFor(cfg, world, sources, e.token, e.amount, e.now);
  }

  /** No balance can be read, or it is zero, from `from` to `to`. */
  ghost predicate NeverSeen(world: World, p: Provider, token: Token, from: int, to: int) {
    forall t | from <= t <= to :: world(p, token, t) == None || world(p, token, t) == Some(0)
  }

  /** An enabled provider whose balance was never seen is offered all the same, up to 70,000 units of 10^18. */
  lemma UnseenProviderIsOffered(cfg: Config, world: World, events: seq<Event>, a: Answer, i: nat)
    requires OncePerProvider(cfg) && Timed(events) && a in LS.Run(cfg, world, events).1
    requires i < |cfg.providers| && cfg.providers[i].enabled && a.amount <= 70_000 * 1_000_000_000_000_000_000
    requires NeverSeen(world, cfg.providers[i].provider, a.token, a.now - CapacityAge(cfg) - 29_999, a.now)
    ensures exists s :: s in a.sources && OfferedBy(cfg.providers[i], s, a.amount)
  {
    AnswersAreComplete(cfg, world, events);
    var pc := cfg.providers[i];
    var from := a.now - CapacityAge(cfg) - 29_999;
    forall t | from <= t <= a.now ensures Observed(world, pc.provider, a.token, t) >= a.amount {
      assert world(pc.provider, a.token, t) == None || world(pc.provider, a.token, t) == Some(0);
    }
    assert AlwaysReaches(world, pc.provider, a.token, a.amount, from, a.now);
    var s :| s in a.sources && s.provider == pc.provider;
    OnlyOwnOffer(cfg, i, s, a.amount);
  }

  lemma OnlyOwnOffer(cfg: Config, i: nat, s: Source, amount: int)
    requires OncePerProvider(cfg) && i < |cfg.providers| && s.provider == cfg.providers[i].provider
    requires exists j :: 0 <= j < |cfg.providers| && OfferedBy(cfg.providers[j], s, amount)
    ensures OfferedBy(cfg.providers[i], s, amount)
  {
    var j :| 0 <= j < |cfg.providers| && OfferedBy(cfg.providers[j], s, amount);
    assert i == j;
  }

  /**
   * The loan handed out after any run: one split of an enabled provider at its own rate, and no enabled provider that
   * surely reaches the amount quotes less. There is none only when no enabled provider surely reaches the amount.
   */
  lemma LoanQuotesLeast(cfg: Config, world: World, events: seq<Event>, token: Token, amount: int, now: int)
    requires OncePerProvider(cfg) && Timed(events) && (events != [] ==> events[|events| - 1].now <= now)
    requires amount > 0 && cfg.maxSplits >= 1
    ensures var splits := Splits(cfg, amount, Query(cfg, LS.Run(cfg, world, events).0, world, token, amount, now).0);
            var from := now - CapacityAge(cfg) - 29_999;
            && (splits != [] ==>
                  && |splits| == 1 && splits[0].amount == amount
                  && exists i :: 0 <= i < |cfg.providers| && OfferedBy(cfg.providers[i], splits[0].source, amount))
            && (forall i | 0 <= i < |cfg.providers| && cfg.providers[i].enabled ::
                  AlwaysReaches(world, cfg.providers[i].provider, token, amount, from, now) ==>
                    splits != [] && 1_000_000_000_000_000_000 * splits[0].source.fee <= amount * cfg.providers[i].feeRate)
  {
    var st := LS.Run(cfg, world, events).0;
    RunSound(cfg, world, events, now);
    RunComplete(cfg, world, events);
    QueryComplete(cfg, st, world, token, amount, now);
    QuerySound(cfg, st, world, token, amount, now);
    LeastOfComplete(cfg, world, Query(cfg, st, world, token, amount, now).0, token, amount,
                    now - CapacityAge(cfg) - 29_999, now);
  }

  lemma LeastOfComplete(cfg: Config, world: World, sources: seq<Source>, token: Token, amount: int, from: int, now: int)
    requires OncePerProvider(cfg) && amount > 0 && cfg.maxSplits >= 1
    requires Complete(cfg, world, sources, token, amount, from, now)
    requires forall s :: s in sources ==> s.maxAmount >= amount
    ensures var splits := Splits(cfg, amount, sources);
            && (splits != [] ==>
                  && |splits| == 1 && splits[0].amount == amount
                  && exists i :: 0 <= i < |cfg.providers| && OfferedBy(cfg.providers[i], splits[0].source, amount))
            && (forall i | 0 <= i < |cfg.providers| && cfg.providers[i].enabled ::
                  AlwaysReaches(world, cfg.providers[i].provider, token, amount, from, now) ==>
                    splits != [] && 1_000_000_000_000_000_000 * splits[0].source.fee <= amount * cfg.providers[i].feeRate)
  {
    if sources == [] {
      assert Sort(sources, LS.Cheapness) == [];
    } else {
      FirstIsLeast(cfg, amount, sources);
      forall i | 0 <= i < |cfg.providers| && cfg.providers[i].enabled
                 && AlwaysReaches(world, cfg.providers[i].provider, token, amount, from, now)
        ensures 1_000_000_000_000_000_000 * Splits(cfg, amount, sources)[0].source.fee <= amount * cfg.providers[i].feeRate
      {
        var s :| s in sources && s.provider == cfg.providers[i].provider;
        OfferBelowRate(cfg, i, s, amount);
      }
    }
  }

  lemma OfferBelowRate(cfg: Config, i: nat, s: Source, amount: int)
    requires OncePerProvider(cfg) && amount > 0 && i < |cfg.providers| && s.provider == cfg.providers[i].provider
    requires exists j :: 0 <= j < |cfg.providers| && OfferedBy(cfg.providers[j], s, amount)
    ensures 1_000_000_000_000_000_000 * s.fee <= amount * cfg.providers[i].feeRate
  {
    var j :| 0 <= j < |cfg.providers| && OfferedBy(cfg.providers[j], s, amount);
    assert i == j;
    MulPos(amount, cfg.providers[i].feeRate);
    DivBounds(amount * cfg.providers[i].feeRate, ONE_ETHER);
  }

  lemma FirstIsLeast(cfg: Config, amount: int, sources: seq<Source>)
    requires amount > 0 && cfg.maxSplits >= 1 && sources != []
    requires forall s :: s in sources ==> s.maxAmount >= amount
    ensures var splits := Splits(cfg, amount, sources);
            && |splits| == 1 && splits[0].amount == amount && splits[0].source in sources
            && forall s :: s in sources ==> splits[0].source.fee <= s.fee
  {
    var sorted := Sort(sources, LS.Cheapness);
    SortKeepsMembers(sources);
    SortIsPermutation(sources, LS.Cheapness);
    assert sorted[0] in sorted;
    FirstSuffices(amount, sorted, cfg.maxSplits);
    forall s | s in sources ensures sorted[0].fee <= s.fee {
      var i :| 0 <= i < |sorted| && sorted[i] == s;
      assert i > 0 ==> LS.Cheapness(sorted[0]) >= LS.Cheapness(sorted[i]);
    }
  }
}
