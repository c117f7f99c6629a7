/** Escalating the bribe of an opportunity on a timer, up to a profit margin and a number of steps. */
module BribeEscalation {
  import opened Numbers

  type Id = string

  const SCALE := 1_000_000

  /** `multiplier` is the escalation factor in millionths, rounded as the code rounds it. */
  datatype Config = Config(enableAutoCancellation: bool, profitabilityThreshold: int, multiplier: int,
                           maxEscalationSteps: int, targetProbability: real)

  ghost predicate Sensible(cfg: Config) {
    0 <= cfg.profitabilityThreshold <= 100 && cfg.multiplier >= 0 && cfg.maxEscalationSteps >= 0
  }

  datatype Calculation = Calculation(profit: int, bribe: int, probability: real, maxProfitable: int,
                                     level: int, shouldCancel: bool)

  function ProfitMargin(cfg: Config, profit: int): int {
    TruncDiv(profit * cfg.profitabilityThreshold, 100)
  }

  function MaxProfitableBribe(cfg: Config, profit: int): int {
    Max(profit - ProfitMargin(cfg, profit), 0)
  }

  function ShouldCancel(cfg: Config, bribe: int, profit: int, probability: real): bool {
    cfg.enableAutoCancellation
    && (bribe >= MaxProfitableBribe(cfg, profit) || (probability < 0.3 && bribe > TruncDiv(profit, 4)))
  }

  function Initial(cfg: Config, profit: int, bribe: int, probability: real): Calculation {
    Calculation(profit, bribe, probability, MaxProfitableBribe(cfg, profit), 0,
                ShouldCancel(cfg, bribe, profit, probability))
  }

  function EscalatedBribe(cfg: Config, c: Calculation): int {
    Min(TruncDiv(c.bribe * cfg.multiplier, SCALE), c.maxProfitable)
  }

  function Escalated(cfg: Config, c: Calculation): Calculation {
    if c.level + 1 > cfg.maxEscalationSteps then c.(shouldCancel := true, level := c.level + 1)
    else
      var bribe := EscalatedBribe(cfg, c);
      c.(bribe := bribe, level := c.level + 1, shouldCancel := ShouldCancel(cfg, bribe, c.profit, c.probability))
  }

  /** Whether an escalation sets the next timer. */
  function Rearms(cfg: Config, c: Calculation): bool {
    !c.shouldCancel && c.level < cfg.maxEscalationSteps
  }

  /** `fires` counts, per opportunity, how often a timer has fired for its current calculation. */
  datatype State = State(active: map<Id, Calculation>, timers: set<Id>, fires: map<Id, nat>)

  datatype Event =
    | Calculate(id: Id, profit: int, bribe: nat, probability: real)
    | Escalate(id: Id)
    | TimerFires(id: Id)
    | Record(id: Id)

  const EMPTY := State(map[], {}, map[])

  function Escalation(cfg: Config, s: State, id: Id): State {
    if id !in s.active then s
    else
      var c := Escalated(cfg, s.active[id]);
      s.(active := s.active[id := c], timers := if Rearms(cfg, c) then s.timers + {id} else s.timers)
  }

  function Next(cfg: Config, s: State, e: Event): State {
    match e
    case Calculate(id, profit, bribe, probability) =>
      var c := Initial(cfg, profit, bribe, probability);
      State(s.active[id := c],
            if !c.shouldCancel && probability < cfg.targetProbability then s.timers + {id} else s.timers,
            s.fires[id := 0])
    case Escalate(id) => Escalation(cfg, s, id)
    case TimerFires(id) =>
      Escalation(cfg, s.(timers := s.timers - {id}, fires := s.fires[id := (if id in s.fires then s.fires[id] else 0) + 1]), id)
    case Record(id) => s.(active := s.active - {id}, timers := s.timers - {id})
  }

  class DynamicBribeOptimizer {
    const config: Config
    var activeOpportunities: map<Id, Calculation>
    var escalationTimers: set<Id>
    ghost var fires: map<Id, nat>

    ghost function View(): State
      reads this
    {
      State(activeOpportunities, escalationTimers, fires)
    }

    constructor (config: Config)
      ensures this.config == config && View() == EMPTY
    {
      this.config := config;
      activeOpportunities, escalationTimers, fires := map[], {}, map[];
    }

    /** The tracking part of the calculation, for a bribe and inclusion probability computed elsewhere. */
    method CalculateOptimalBribe(id: Id, profit: int, bribe: nat, probability: real) returns (calculation: Calculation)
      modifies this
      ensures View() == Next(config, old(View()), Calculate(id, profit, bribe, probability))
      ensures calculation == Initial(config, profit, bribe, probability)
      ensures activeOpportunities == old(activeOpportunities)[id := calculation]
      ensures calculation.profit == profit && calculation.bribe == bribe && calculation.probability == probability
      ensures calculation.level == 0
      ensures escalationTimers == old(escalationTimers)
                                  + (if calculation.shouldCancel || probability >= config.targetProbability then {} else {id})
    {
      var shouldCancel := ShouldCancel(config, bribe, profit, probability);
      calculation := Calculation(profit, bribe, probability, MaxProfitableBribe(config, profit), 0, shouldCancel);
      activeOpportunities := activeOpportunities[id := calculation];
      fires := fires[id := 0];
      if !shouldCancel && probability < config.targetProbability {
        escalationTimers := escalationTimers + {id};
      }
    }

    method EscalateBribe(id: Id)
      modifies this
      ensures View() == Escalation(config, old(View()), id)
      ensures id !in old(activeOpportunities) ==>
                activeOpportunities == old(activeOpportunities) && escalationTimers == old(escalationTimers)
      ensures id in old(activeOpportunities) ==>
                var was, c := old(activeOpportunities)[id], activeOpportunities[id];
                && activeOpportunities == old(activeOpportunities)[id := c] && c.level == was.level + 1
                && c.profit == was.profit && c.probability == was.probability && c.maxProfitable == was.maxProfitable
                && (was.level >= config.maxEscalationSteps ==> c.shouldCancel && c.bribe == was.bribe)
                && escalationTimers == old(escalationTimers)
                                       + (if c.shouldCancel || c.level >= config.maxEscalationSteps then {} else {id})
    {
      if id !in activeOpportunities {
        return;
      }
      var current := activeOpportunities[id];
      var newEscalationLevel := current.level + 1;
      if newEscalationLevel > config.maxEscalationSteps {
        activeOpportunities := activeOpportunities[id := current.(shouldCancel := true, level := newEscalationLevel)];
        return;
      }
      var escalatedBribe := TruncDiv(current.bribe * config.multiplier, SCALE);
      var finalBribe := if escalatedBribe > current.maxProfitable then current.maxProfitable else escalatedBribe;
      var shouldCancel := ShouldCancel(config, finalBribe, current.profit, current.probability);
      activeOpportunities := activeOpportunities[id :=
        current.(bribe := finalBribe, level := newEscalationLevel, shouldCancel := shouldCancel)];
      if !shouldCancel && newEscalationLevel < config.maxEscalationSteps {
        escalationTimers := escalationTimers + {id};
      }
    }

    method TimerFired(id: Id)
      requires id in escalationTimers
      modifies this
      ensures View() == Next(config, old(View()), TimerFires(id))
      ensures escalationTimers - {id} == old(escalationTimers) - {id}
    {
      escalationTimers := escalationTimers - {id};
      fires := fires[id := (if id in fires then fires[id] else 0) + 1];
      EscalateBribe(id);
    }

    method RecordBribeEffectiveness(id: Id)
      modifies this
      ensures View() == Next(config, old(View()), Record(id))
      ensures activeOpportunities == old(activeOpportunities) - {id} && escalationTimers == old(escalationTimers) - {id}
    {
      activeOpportunities := activeOpportunities - {id};
      escalationTimers := escalationTimers - {id};
    }
  }

  // ---------- Runs ----------

  function Run(cfg: Config, events: seq<Event>): State {
    if events == [] then EMPTY else Next(cfg, Run(cfg, events[..|events| - 1]), events[|events| - 1])
  }

  /** A timer fires only when one is set. */
  ghost predicate Legal(cfg: Config, events: seq<Event>) {
    events != [] ==>
      var front, e := events[..|events| - 1], events[|events| - 1];
      Legal(cfg, front) && (e.TimerFires? ==> e.id in Run(cfg, front).timers)
  }

  /** A stored calculation: cancelled exactly when it is past the steps or the cancellation test says so. */
  ghost predicate Consistent(cfg: Config, c: Calculation) {
    && c.maxProfitable == MaxProfitableBribe(cfg, c.profit)
    && c.bribe >= 0 && c.level >= 0
    && (c.shouldCancel <==> c.level > cfg.maxEscalationSteps || ShouldCancel(cfg, c.bribe, c.profit, c.probability))
  }

  function ChainLimit(cfg: Config): nat { Max(1, cfg.maxEscalationSteps) }

  ghost predicate Good(cfg: Config, s: State) {
    && s.timers <= s.active.Keys && s.active.Keys <= s.fires.Keys
    && forall id :: id in s.active ==>
         && Consistent(cfg, s.active[id])
         && s.fires[id] <= s.active[id].level && s.fires[id] <= ChainLimit(cfg)
         && (id in s.timers ==> s.fires[id] < ChainLimit(cfg))
  }

  lemma EscalatedConsistent(cfg: Config, c: Calculation)
    requires Sensible(cfg) && Consistent(cfg, c)
    ensures Consistent(cfg, Escalated(cfg, c)) && Escalated(cfg, c).level == c.level + 1
  {
    MulPos(c.bribe, cfg.multiplier);
    LeDiv(0, c.bribe * cfg.multiplier, SCALE);
  }

  lemma EscalationGood(cfg: Config, s: State, id: Id)
    requires Sensible(cfg) && id in s.active
    requires s.timers <= s.active.Keys && s.active.Keys <= s.fires.Keys
    requires forall k :: k in s.active ==>
               && Consistent(cfg, s.active[k])
               && s.fires[k] <= ChainLimit(cfg)
               && s.fires[k] <= s.active[k].level + (if k == id then 1 else 0)
               && (k in s.timers ==> s.fires[k] < ChainLimit(cfg))
    ensures Good(cfg, Escalation(cfg, s, id))
  {
    EscalatedConsistent(cfg, s.active[id]);
  }

  lemma NextGood(cfg: Config, s: State, e: Event)
    requires Sensible(cfg) && Good(cfg, s) && (e.TimerFires? ==> e.id in s.timers)
    ensures Good(cfg, Next(cfg, s, e))
  {
    match e
    case Calculate(id, profit, bribe, probability) =>
    case Escalate(id) => if id in s.active { EscalationGood(cfg, s, id); }
    case TimerFires(id) =>
      EscalationGood(cfg, s.(timers := s.timers - {id}, fires := s.fires[id := s.fires[id] + 1]), id);
    case Record(id) =>
  }

  lemma {:induction false} RunGood(cfg: Config, events: seq<Event>)
    requires Sensible(cfg) && Legal(cfg, events)
    ensures Good(cfg, Run(cfg, events))
  {
    if events != [] {
      RunGood(cfg, events[..|events| - 1]);
      NextGood(cfg, Run(cfg, events[..|events| - 1]), events[|events| - 1]);
    }
  }

  /** Over any run, the timers of one calculation fire at most max(1, maxEscalationSteps) times. */
  lemma TimerChainBounded(cfg: Config, events: seq<Event>, id: Id)
    requires Sensible(cfg) && Legal(cfg, events)
    ensures var s := Run(cfg, events);
            && (id in s.active ==> id in s.fires && s.fires[id] <= ChainLimit(cfg))
            && (id in s.timers ==> id in s.fires && s.fires[id] < ChainLimit(cfg))
  {
    RunGood(cfg, events);
  }

  lemma MarginTerms(cfg: Config, profit: int, bribe: int)
    requires 0 <= cfg.profitabilityThreshold <= 100
    requires bribe <= MaxProfitableBribe(cfg, profit)
    ensures profit >= 0 ==> profit - bribe >= ProfitMargin(cfg, profit)
    ensures profit < 0 ==> MaxProfitableBribe(cfg, profit) == 0
    ensures profit < 0 && bribe == 0 ==>
              (profit - bribe >= ProfitMargin(cfg, profit) <==> cfg.profitabilityThreshold == 100)
  {
    var t := cfg.profitabilityThreshold;
    if profit >= 0 {
      MulLe(t, 100, profit);
      MulPos(profit, t);
      TruncDivWithin(profit * t, 100, 0, profit);
    } else {
      MulLe(t, 100, -profit);
      MulPos(-profit, t);
      TruncDivWithin(profit * t, 100, profit, 0);
      if t < 100 {
        MulLe(t, 99, -profit);
        DivBounds(-(profit * t), 100);
      }
    }
  }

  /**
   * In any reachable state, an escalation within the step limit leaves the floored profit margin exactly when the
   * estimated profit is not negative or the whole profit is demanded as margin.
   */
  lemma EscalationLeavesMarginIff(cfg: Config, events: seq<Event>, id: Id)
    requires Sensible(cfg) && Legal(cfg, events)
    requires id in Run(cfg, events).active && Run(cfg, events).active[id].level < cfg.maxEscalationSteps
    ensures var c := Escalation(cfg, Run(cfg, events), id).active[id];
            c.profit - c.bribe >= ProfitMargin(cfg, c.profit) <==> c.profit >= 0 || cfg.profitabilityThreshold == 100
  {
    RunGood(cfg, events);
    var c := Run(cfg, events).active[id];
    EscalatedConsistent(cfg, c);
    MarginTerms(cfg, c.profit, EscalatedBribe(cfg, c));
  }

  /** With auto-cancellation, an opportunity that is still live offers strictly less than its maximum profitable bribe. */
  lemma {:induction false} LiveBribeBelowMaximum(cfg: Config, events: seq<Event>, id: Id)
    requires Sensible(cfg) && Legal(cfg, events) && cfg.enableAutoCancellation
    requires id in Run(cfg, events).active && !Run(cfg, events).active[id].shouldCancel
    ensures var c := Run(cfg, events).active[id]; c.bribe < MaxProfitableBribe(cfg, c.profit)
  {
    RunGood(cfg, events);
  }

  /** No escalation revives a cancelled opportunity. */
  ghost predicate CancellationSticks(cfg: Config) {
    forall c: Calculation | Consistent(cfg, c) && c.shouldCancel :: Escalated(cfg, c).shouldCancel
  }

  lemma StickyEscalation(cfg: Config, c: Calculation)
    requires Sensible(cfg) && Consistent(cfg, c) && c.shouldCancel
    requires cfg.multiplier >= SCALE || cfg.profitabilityThreshold == 100
    ensures Escalated(cfg, c).shouldCancel
  {
    var product := c.bribe * cfg.multiplier;
    MulPos(c.bribe, cfg.multiplier);
    LeDiv(0, product, SCALE);
    if cfg.multiplier >= SCALE {
      MulLe(SCALE, cfg.multiplier, c.bribe);
      LeDiv(c.bribe, product, SCALE);
    } else {
      assert MaxProfitableBribe(cfg, c.profit) == 0 by { assert ProfitMargin(cfg, c.profit) == c.profit; }
    }
  }

  /** Over any run, a cancelled opportunity stays cancelled until it is calculated anew or recorded. */
  lemma {:induction false} CancelledStays(cfg: Config, events: seq<Event>, k: nat, id: Id)
    requires Sensible(cfg) && Legal(cfg, events) && k <= |events| && CancellationSticks(cfg)
    requires id in Run(cfg, events[..k]).active && Run(cfg, events[..k]).active[id].shouldCancel
    requires forall i :: k <= i < |events| ==> events[i].id == id ==> events[i].Escalate? || events[i].TimerFires?
    ensures id in Run(cfg, events).active && Run(cfg, events).active[id].shouldCancel
    decreases |events|
  {
    if k == |events| {
      assert events[..k] == events;
    } else {
      var front := events[..|events| - 1];
      assert front[..k] == events[..k];
      CancelledStays(cfg, front, k, id);
      RunGood(cfg, front);
      var c := Run(cfg, front).active[id];
      assert Consistent(cfg, c) && c.shouldCancel;
      assert Escalated(cfg, c).shouldCancel;
    }
  }

  /** A calculation at its maximum that a factor below one lowers: a million per missing percent. */
  lemma LoweredByShrinking(cfg: Config) returns (c: Calculation)
    requires Sensible(cfg) && cfg.multiplier < SCALE && cfg.profitabilityThreshold < 100 && cfg.maxEscalationSteps >= 1
    ensures c == Initial(cfg, c.profit, c.bribe, 1.0) && Consistent(cfg, c) && c.bribe == c.maxProfitable
    ensures Escalated(cfg, c).bribe < c.bribe
  {
    var part := 100 - cfg.profitabilityThreshold;
    c := Initial(cfg, 100 * SCALE, part * SCALE, 1.0);
    assert ProfitMargin(cfg, 100 * SCALE) == cfg.profitabilityThreshold * SCALE by {
      DivIs(100 * SCALE * cfg.profitabilityThreshold, 100, cfg.profitabilityThreshold * SCALE);
    }
    MulPos(part, cfg.multiplier);
    DivIs(part * SCALE * cfg.multiplier, SCALE, part * cfg.multiplier);
    MulLe(cfg.multiplier, SCALE - 1, part);
    assert EscalatedBribe(cfg, c) == part * cfg.multiplier;
  }

  /** Cancellation is final exactly when no configuration path lets the bribe shrink below the threshold again. */
  lemma CancellationSticksIff(cfg: Config)
    requires Sensible(cfg)
    ensures CancellationSticks(cfg)
       <==> cfg.multiplier >= SCALE || !cfg.enableAutoCancellation || cfg.maxEscalationSteps == 0
            || cfg.profitabilityThreshold == 100
  {
    if cfg.multiplier >= SCALE || cfg.profitabilityThreshold == 100 {
      forall c: Calculation | Consistent(cfg, c) && c.shouldCancel
        ensures Escalated(cfg, c).shouldCancel
      {
        StickyEscalation(cfg, c);
      }
    } else if cfg.enableAutoCancellation && cfg.maxEscalationSteps > 0 {
      var c := LoweredByShrinking(cfg);
      assert !Escalated(cfg, c).shouldCancel;
    }
  }

  // ---------- What an escalation bids ----------

  /** From `b` to `next`: the factor rounded down, and never more than the maximum. */
  ghost predicate Raises(b: int, next: int, multiplier: int, maximum: int) {
    && next <= maximum && next * 1_000_000 <= b * multiplier
    && (next < maximum ==> b * multiplier < (next + 1) * 1_000_000)
  }

  lemma EscalationRaises(cfg: Config, c: Calculation)
    requires Sensible(cfg) && Consistent(cfg, c) && c.level < cfg.maxEscalationSteps
    ensures Raises(c.bribe, Escalated(cfg, c).bribe, cfg.multiplier, c.maxProfitable)
    ensures cfg.multiplier >= 1_000_000 && c.bribe <= c.maxProfitable ==> Escalated(cfg, c).bribe >= c.bribe
  {
    var product := c.bribe * cfg.multiplier;
    MulPos(c.bribe, cfg.multiplier);
    DivBounds(product, SCALE);
    if cfg.multiplier >= SCALE {
      MulLe(SCALE, cfg.multiplier, c.bribe);
      LeDiv(c.bribe, product, SCALE);
    }
  }

  /**
   * Every escalation of a run within the step limit multiplies the bribe by the factor, rounded down, and stops at the
   * maximum; past the limit the bribe stays.
   */
  lemma RunEscalates(cfg: Config, events: seq<Event>, id: Id)
    requires Sensible(cfg) && Legal(cfg, events) && events != []
    requires events[|events| - 1] in [Escalate(id), TimerFires(id)] && id in Run(cfg, events[..|events| - 1]).active
    ensures var was := Run(cfg, events[..|events| - 1]).active[id];
            id in Run(cfg, events).active
            && var c := Run(cfg, events).active[id];
               && c.level == was.level + 1
               && (was.level < cfg.maxEscalationSteps ==> Raises(was.bribe, c.bribe, cfg.multiplier, was.maxProfitable))
               && (was.level >= cfg.maxEscalationSteps ==> c.bribe == was.bribe && c.shouldCancel)
  {
    var front := events[..|events| - 1];
    RunGood(cfg, front);
    var was := Run(cfg, front).active[id];
    if was.level < cfg.maxEscalationSteps {
      EscalationRaises(cfg, was);
    }
  }

  /** No escalation within the limit takes a bribe that is not above its maximum any lower. */
  ghost predicate NeverLowers(cfg: Config) {
    forall c: Calculation | Consistent(cfg, c) && c.level < cfg.maxEscalationSteps && c.bribe <= c.maxProfitable ::
      Escalated(cfg, c).bribe >= c.bribe
  }

  /** Escalation never lowers a bribe exactly when the factor is at least one, no step is allowed, or nothing can be bid. */
  lemma NeverLowersIff(cfg: Config)
    requires Sensible(cfg)
    ensures NeverLowers(cfg)
       <==> cfg.multiplier >= 1_000_000 || cfg.maxEscalationSteps == 0 || cfg.profitabilityThreshold == 100
  {
    if cfg.multiplier >= SCALE {
      forall c: Calculation | Consistent(cfg, c) && c.level < cfg.maxEscalationSteps && c.bribe <= c.maxProfitable
        ensures Escalated(cfg, c).bribe >= c.bribe
      {
        EscalationRaises(cfg, c);
      }
    } else if cfg.profitabilityThreshold == 100 {
      forall c: Calculation | Consistent(cfg, c) && c.level < cfg.maxEscalationSteps && c.bribe <= c.maxProfitable
        ensures Escalated(cfg, c).bribe >= c.bribe
      {
        EscalatedConsistent(cfg, c);
        assert MaxProfitableBribe(cfg, c.profit) == 0 by { assert ProfitMargin(cfg, c.profit) == c.profit; }
      }
    } else if cfg.maxEscalationSteps >= 1 {
      var c := LoweredByShrinking(cfg);
    }
  }

  /** Over any run with such a configuration, an opportunity's bribe never falls until it is calculated anew or recorded. */
  lemma {:induction false} BribeNeverFalls(cfg: Config, events: seq<Event>, k: nat, id: Id)
    requires Sensible(cfg) && Legal(cfg, events) && k <= |events| && NeverLowers(cfg)
    requires id in Run(cfg, events[..k]).active
    requires var c := Run(cfg, events[..k]).active[id]; c.bribe <= c.maxProfitable
    requires forall i :: k <= i < |events| ==> events[i].id == id ==> events[i].Escalate? || events[i].TimerFires?
    ensures id in Run(cfg, events).active
    ensures var was, c := Run(cfg, events[..k]).active[id], Run(cfg, events).active[id];
            was.bribe <= c.bribe <= c.maxProfitable == was.maxProfitable
    decreases |events|
  {
    if k == |events| {
      assert events[..k] == events;
    } else {
      var front := events[..|events| - 1];
      assert front[..k] == events[..k];
      BribeNeverFalls(cfg, front, k, id);
      RunGood(cfg, front);
      KeepsBribe(cfg, Run(cfg, front), events[|events| - 1], id);
    }
  }

  lemma KeepsBribe(cfg: Config, s: State, e: Event, id: Id)
    requires Sensible(cfg) && Good(cfg, s) && NeverLowers(cfg)
    requires id in s.active && s.active[id].bribe <= s.active[id].maxProfitable
    requires e.id == id ==> e.Escalate? || e.TimerFires?
    ensures id in Next(cfg, s, e).active
    ensures var was, c := s.active[id], Next(cfg, s, e).active[id];
            was.bribe <= c.bribe <= c.maxProfitable == was.maxProfitable
  {
    var was := s.active[id];
    assert Consistent(cfg, was);
    if was.level < cfg.maxEscalationSteps {
      assert Escalated(cfg, was).bribe >= was.bribe;
    }
  }

  /** In any reachable state, from the stored amounts alone: when an opportunity is cancelled. */
  lemma CancelledIff(cfg: Config, events: seq<Event>, id: Id)
    requires Sensible(cfg) && Legal(cfg, events) && id in Run(cfg, events).active
    ensures var c := Run(cfg, events).active[id];
            var atMaximum := c.profit * cfg.profitabilityThreshold >= 100 * (c.profit - c.bribe);
            var tooUnlikely := c.probability < 0.3 && 4 * c.bribe > c.profit;
            c.shouldCancel <==> c.level > cfg.maxEscalationSteps || (cfg.enableAutoCancellation && (atMaximum || tooUnlikely))
  {
    RunGood(cfg, events);
    var c := Run(cfg, events).active[id];
    AtMaximumIff(cfg, c.bribe, c.profit);
  }

  lemma AtMaximumIff(cfg: Config, bribe: int, profit: int)
    requires 0 <= cfg.profitabilityThreshold <= 100 && bribe >= 0
    ensures bribe >= MaxProfitableBribe(cfg, profit) <==> profit * cfg.profitabilityThreshold >= 100 * (profit - bribe)
    ensures profit >= 0 ==> (bribe > TruncDiv(profit, 4) <==> 4 * bribe > profit)
    ensures profit < 0 ==> MaxProfitableBribe(cfg, profit) == 0
  {
    var t := cfg.profitabilityThreshold;
    if profit >= 0 {
      MulPos(profit, t);
      MulLe(t, 100, profit);
      DivBounds(profit * t, 100);
      LeDiv(profit - bribe, profit * t, 100);
      LeDiv(bribe, profit, 4);
      DivMono(profit * t, profit * 100, 100);
    } else {
      MulLe(t, 100, -profit);
      MarginTerms(cfg, profit, 0);
    }
  }

  /** A live opportunity below its last step is waiting for a timer, unless it was calculated likely enough to need none. */
  ghost predicate Waits(cfg: Config, s: State) {
    forall id :: id in s.active ==>
      var c := s.active[id];
      !c.shouldCancel && c.level < cfg.maxEscalationSteps && (c.level > 0 || c.probability < cfg.targetProbability) ==> id in s.timers
  }

  lemma {:induction false} LiveWaits(cfg: Config, events: seq<Event>)
    requires Sensible(cfg) && Legal(cfg, events)
    ensures Waits(cfg, Run(cfg, events))
  {
    if events != [] {
      LiveWaits(cfg, events[..|events| - 1]);
    }
  }
}
