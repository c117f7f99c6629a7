/**
 * The orchestrator's consecutive-failure breaker with its recovery timers, across start and stop. A stop that
 * waits for running executions is two steps: the request, and the cleanup once the wait is over.
 */
module CircuitBreaker {
  import opened Options

  datatype Config = Config(enabled: bool, threshold: int, recoveryMs: int)

  /** `timers` maps each pending recovery timer to its due time; `current` is the one handle the code keeps. */
  datatype Breaker = Breaker(running: bool, active: bool, failures: nat, timers: map<nat, int>,
                             current: Option<nat>, issued: nat, stopping: nat, now: int)

  datatype Event =
    | Start(at: int)
    | StopRequested(at: int)
    | StopFinished(at: int)
    | Succeeded(at: int)
    | Failure(at: int)
    | TimerFired(at: int, id: nat)

  const INITIAL := Breaker(false, false, 0, map[], None, 0, 0, 0)

  /** Time does not run backwards, timers fire when due, and only a pending stop finishes. */
  ghost predicate Enabled(b: Breaker, e: Event) {
    && e.at >= b.now
    && (e.TimerFired? ==> e.id in b.timers && b.timers[e.id] <= e.at)
    && (e.StopFinished? ==> b.stopping > 0)
  }

  function Fail(cfg: Config, b: Breaker, at: int): Breaker {
    var failures := b.failures + 1;
    if cfg.enabled && failures >= cfg.threshold then
      b.(failures := failures, active := true, timers := b.timers[b.issued := at + cfg.recoveryMs],
         current := Some(b.issued), issued := b.issued + 1)
    else b.(failures := failures)
  }

  function Recover(b: Breaker, id: nat): Breaker {
    var fired := b.(timers := b.timers - {id});
    if b.active then fired.(active := false, failures := 0, current := None) else fired
  }

  function FinishStop(b: Breaker): Breaker {
    var stopped := b.(stopping := if b.stopping > 0 then b.stopping - 1 else 0);
    if b.current.Some? then stopped.(timers := b.timers - {b.current.value}, current := None) else stopped
  }

  function Next(cfg: Config, b: Breaker, e: Event): Breaker {
    var b := b.(now := e.at);
    match e
    case Start(_) => if b.running then b else b.(running := true, active := false, failures := 0)
    case StopRequested(_) => if b.running then b.(running := false, stopping := b.stopping + 1) else b
    case StopFinished(_) => FinishStop(b)
    case Succeeded(_) => b.(failures := 0, active := false)
    case Failure(at) => Fail(cfg, b, at)
    case TimerFired(_, id) => Recover(b, id)
  }

  function Run(cfg: Config, b: Breaker, events: seq<Event>): Breaker {
    if events == [] then b else Next(cfg, Run(cfg, b, events[..|events| - 1]), events[|events| - 1])
  }

  ghost predicate Legal(cfg: Config, b: Breaker, events: seq<Event>) {
    events != [] ==>
      var front := events[..|events| - 1];
      Legal(cfg, b, front) && Enabled(Run(cfg, b, front), events[|events| - 1])
  }

  lemma OneMore(cfg: Config, b: Breaker, events: seq<Event>, k: nat)
    requires k < |events|
    ensures Run(cfg, b, events[..k + 1]) == Next(cfg, Run(cfg, b, events[..k]), events[k])
    ensures Legal(cfg, b, events[..k + 1]) <==> Legal(cfg, b, events[..k]) && Enabled(Run(cfg, b, events[..k]), events[k])
  {
    assert events[..k + 1][..k] == events[..k];
  }

  lemma Extend(cfg: Config, events: seq<Event>, e: Event)
    requires Legal(cfg, INITIAL, events) && Enabled(Run(cfg, INITIAL, events), e)
    ensures Legal(cfg, INITIAL, events + [e]) && Run(cfg, INITIAL, events + [e]) == Next(cfg, Run(cfg, INITIAL, events), e)
  {
    assert (events + [e])[..|events|] == events;
  }

  // ---------- The breaker is active exactly at the threshold ----------

  /** The law the breaker stands for. */
  ghost predicate ActiveAtThreshold(cfg: Config, b: Breaker) {
    b.active <==> b.failures >= cfg.threshold
  }

  lemma {:induction false} BreakerExact(cfg: Config, events: seq<Event>)
    requires (cfg.enabled ==> cfg.threshold >= 1) && Legal(cfg, INITIAL, events)
    ensures var b := Run(cfg, INITIAL, events);
            if cfg.enabled then ActiveAtThreshold(cfg, b) else !b.active
  {
    if events != [] {
      BreakerExact(cfg, events[..|events| - 1]);
    }
  }

  /** For an enabled breaker the law holds over all runs exactly when the threshold is at least one. */
  lemma BreakerExactIff(cfg: Config)
    requires cfg.enabled
    ensures (forall events | Legal(cfg, INITIAL, events) :: ActiveAtThreshold(cfg, Run(cfg, INITIAL, events)))
       <==> cfg.threshold >= 1
  {
    if cfg.threshold >= 1 {
      forall events | Legal(cfg, INITIAL, events)
        ensures ActiveAtThreshold(cfg, Run(cfg, INITIAL, events))
      {
        BreakerExact(cfg, events);
      }
    } else {
      assert Legal(cfg, INITIAL, []) && Run(cfg, INITIAL, []) == INITIAL;
      assert !ActiveAtThreshold(cfg, Run(cfg, INITIAL, []));
    }
  }

  // ---------- Runs as values ----------

  /** A legal run with the state it ends in. */
  datatype Log = Log(cfg: Config, events: seq<Event>, breaker: Breaker)

  /**
   * Names the length of a run. A log unrolls its run only where the length is named, which keeps the methods that
   * merely carry a log cheap to verify.
   */
  ghost predicate Length(n: nat) { true }

  ghost predicate IsHistory(h: Log) {
    forall n | Length(n) && n == |h.events| :: Legal(h.cfg, INITIAL, h.events) && h.breaker == Run(h.cfg, INITIAL, h.events)
  }

  lemma HistoryIsRun(h: History)
    ensures Legal(h.cfg, INITIAL, h.events) && h.breaker == Run(h.cfg, INITIAL, h.events)
  {
    assert Length(|h.events|);
  }

  type History = h: Log | IsHistory(h)
    ghost witness Log(Config(false, 0, 0), [], INITIAL)

  /** An enabled breaker is active exactly at its threshold, a disabled one never. */
  ghost predicate Lawful(cfg: Config, b: Breaker) {
    if cfg.enabled then cfg.threshold >= 1 ==> ActiveAtThreshold(cfg, b) else !b.active
  }

  lemma HistoryIsLawful(h: History)
    ensures Lawful(h.cfg, h.breaker)
  {
    HistoryIsRun(h);
    if h.cfg.enabled ==> h.cfg.threshold >= 1 {
      BreakerExact(h.cfg, h.events);
    }
  }

  ghost function NoEvents(cfg: Config): (h: History)
    ensures h.breaker == INITIAL && Lawful(cfg, INITIAL)
  {
    Log(cfg, [], INITIAL)
  }

  ghost function Push(h: History, e: Event): (h': History)
    requires Enabled(h.breaker, e)
    ensures h'.cfg == h.cfg && h'.events == h.events + [e] && h'.breaker == Next(h.cfg, h.breaker, e)
    ensures Lawful(h'.cfg, h'.breaker)
  {
    HistoryIsRun(h);
    Extend(h.cfg, h.events, e);
    var h' := Log(h.cfg, h.events + [e], Next(h.cfg, h.breaker, e));
    HistoryIsLawful(h');
    h'
  }

  // ---------- What the counter counts ----------

  /** A success, a start from standstill, or a timer that closes an active breaker. */
  ghost predicate Resets(b: Breaker, e: Event) {
    e.Succeeded? || (e.Start? && !b.running) || (e.TimerFired? && b.active)
  }

  ghost function FailuresIn(events: seq<Event>): nat {
    if events == [] then 0
    else FailuresIn(events[..|events| - 1]) + (if events[|events| - 1].Failure? then 1 else 0)
  }

  /** `k` is where the current failure run begins: right after the last reset, or at the beginning. */
  ghost predicate RunBegins(cfg: Config, events: seq<Event>, k: nat) {
    && k <= |events|
    && (k > 0 ==> Resets(Run(cfg, INITIAL, events[..k - 1]), events[k - 1]))
    && forall i :: k <= i < |events| ==> !Resets(Run(cfg, INITIAL, events[..i]), events[i])
  }

  /** In every reachable state the counter is the number of failures since the last success, recovery or start. */
  lemma {:induction false} FailuresSinceReset(cfg: Config, events: seq<Event>) returns (k: nat)
    ensures RunBegins(cfg, events, k)
    ensures Run(cfg, INITIAL, events).failures == FailuresIn(events[k..])
  {
    if events == [] {
      k := 0;
    } else {
      var n := |events| - 1;
      var front, e := events[..n], events[n];
      if Resets(Run(cfg, INITIAL, front), e) {
        k := n + 1;
        assert events[k..] == [];
      } else {
        k := FailuresSinceReset(cfg, front);
        RunGoesOn(cfg, events, k);
        FailuresGoOn(events, k);
      }
      CounterStep(cfg, Run(cfg, INITIAL, front), e);
    }
  }

  lemma CounterStep(cfg: Config, b: Breaker, e: Event)
    ensures Next(cfg, b, e).failures == if Resets(b, e) then 0 else b.failures + (if e.Failure? then 1 else 0)
  {
  }

  lemma FailuresGoOn(events: seq<Event>, k: nat)
    requires k < |events|
    ensures FailuresIn(events[k..])
         == FailuresIn(events[..|events| - 1][k..]) + (if events[|events| - 1].Failure? then 1 else 0)
  {
    var tail := events[k..];
    assert tail[..|tail| - 1] == events[..|events| - 1][k..];
  }

  lemma RunGoesOn(cfg: Config, events: seq<Event>, k: nat)
    requires events != [] && RunBegins(cfg, events[..|events| - 1], k)
    requires !Resets(Run(cfg, INITIAL, events[..|events| - 1]), events[|events| - 1])
    ensures RunBegins(cfg, events, k)
  {
    var n := |events| - 1;
    var front := events[..n];
    assert k > 0 ==> front[..k - 1] == events[..k - 1];
    forall i | k <= i < |events|
      ensures !Resets(Run(cfg, INITIAL, events[..i]), events[i])
    {
      if i < n {
        assert front[..i] == events[..i] && front[i] == events[i];
      }
    }
  }

  // ---------- Recovery is always on its way, unless a stop outlives a restart ----------

  ghost predicate RecoveryPending(b: Breaker) {
    b.running && b.active ==> b.timers != map[]
  }

  /** The cleanup of a stop that finds the orchestrator started again, and takes the only recovery timer. */
  ghost predicate Strands(b: Breaker, e: Event) {
    e.StopFinished? && b.running && b.active && b.current.Some? && b.timers.Keys == {b.current.value}
  }

  lemma StepStrandsIff(cfg: Config, b: Breaker, e: Event)
    requires RecoveryPending(b) && Enabled(b, e)
    ensures RecoveryPending(Next(cfg, b, e)) <==> !Strands(b, e)
  {
    var b' := Next(cfg, b, e);
    match e
    case StopFinished(_) =>
      if b.current.Some? {
        var c := b.current.value;
        assert b'.timers.Keys == b.timers.Keys - {c};
        if b.timers.Keys == {c} {
          assert b'.timers.Keys == {};
        } else if b.timers != map[] {
          var t :| t in b.timers.Keys && t != c;
          assert t in b'.timers;
        }
      }
    case Failure(_) =>
      if b'.active && !b.active { assert b.issued in b'.timers; }
      if b'.timers != b.timers { assert b.issued in b'.timers; }
    case _ =>
  }

  ghost predicate AlwaysPending(cfg: Config, events: seq<Event>) {
    RecoveryPending(Run(cfg, INITIAL, events)) && (events != [] ==> AlwaysPending(cfg, events[..|events| - 1]))
  }

  ghost predicate NeverStranded(cfg: Config, events: seq<Event>) {
    events != [] ==>
      var front := events[..|events| - 1];
      NeverStranded(cfg, front) && !Strands(Run(cfg, INITIAL, front), events[|events| - 1])
  }

  /** While running, an active breaker always has a recovery timer pending, exactly in the runs without such a cleanup. */
  lemma {:induction false} RecoveryPendingIff(cfg: Config, events: seq<Event>)
    requires Legal(cfg, INITIAL, events)
    ensures AlwaysPending(cfg, events) <==> NeverStranded(cfg, events)
  {
    if events != [] {
      var front := events[..|events| - 1];
      RecoveryPendingIff(cfg, front);
      if AlwaysPending(cfg, front) {
        assert RecoveryPending(Run(cfg, INITIAL, front));
        StepStrandsIff(cfg, Run(cfg, INITIAL, front), events[|events| - 1]);
      }
    }
  }

  /** Awaiting each stop before the next start is enough. */
  ghost predicate StopsAwaited(cfg: Config, events: seq<Event>) {
    events != [] ==>
      var front := events[..|events| - 1];
      StopsAwaited(cfg, front) && (events[|events| - 1].Start? ==> Run(cfg, INITIAL, front).stopping == 0)
  }

  lemma {:induction false} AwaitedStopsNeverStrand(cfg: Config, events: seq<Event>)
    requires Legal(cfg, INITIAL, events) && StopsAwaited(cfg, events)
    ensures var b := Run(cfg, INITIAL, events); b.running ==> b.stopping == 0
    ensures NeverStranded(cfg, events) && AlwaysPending(cfg, events)
  {
    if events != [] {
      AwaitedStopsNeverStrand(cfg, events[..|events| - 1]);
      RecoveryPendingIff(cfg, events);
    }
  }

  /** Start, stop, start again during the wait, trip the breaker, and let the old stop finish: nothing is left to recover it. */
  lemma OverlappingStopStrands(cfg: Config)
    requires cfg.enabled && cfg.threshold == 1
    ensures var events := [Start(0), StopRequested(1), Start(2), Failure(3), StopFinished(4)];
            var b := Run(cfg, INITIAL, events);
            Legal(cfg, INITIAL, events) && b.running && b.active && b.timers == map[]
  {
    var e := [Start(0), StopRequested(1), Start(2), Failure(3), StopFinished(4)];
    OneMore(cfg, INITIAL, e, 0);
    OneMore(cfg, INITIAL, e, 1);
    OneMore(cfg, INITIAL, e, 2);
    OneMore(cfg, INITIAL, e, 3);
    OneMore(cfg, INITIAL, e, 4);
    assert e[..0] == [] && e[..5] == e;
    assert Run(cfg, INITIAL, e[..2]) == INITIAL.(stopping := 1, now := 1);
    assert Run(cfg, INITIAL, e[..3]) == INITIAL.(running := true, stopping := 1, now := 2);
    assert Run(cfg, INITIAL, e[..4]).timers == map[0 := 3 + cfg.recoveryMs];
  }

  // ---------- How long the breaker stays open ----------

  lemma {:induction false} TimersIssued(cfg: Config, events: seq<Event>)
    requires Legal(cfg, INITIAL, events)
    ensures TimersBelowIssued(Run(cfg, INITIAL, events))
  {
    if events != [] {
      TimersIssued(cfg, events[..|events| - 1]);
      NextIssued(cfg, Run(cfg, INITIAL, events[..|events| - 1]), events[|events| - 1]);
    }
  }

  ghost predicate TimersBelowIssued(b: Breaker) {
    forall id :: id in b.timers ==> id < b.issued
  }

  lemma NextIssued(cfg: Config, b: Breaker, e: Event)
    requires TimersBelowIssued(b)
    ensures TimersBelowIssued(Next(cfg, b, e))
  {
  }

  /** Nothing but failures, timers and stops, all before `deadline`. */
  ghost predicate OnlyTimers(events: seq<Event>, deadline: int) {
    forall i :: 0 <= i < |events| ==> events[i].at < deadline && !events[i].Start? && !events[i].Succeeded?
  }

  lemma {:induction false} StaysOpen(cfg: Config, b: Breaker, events: seq<Event>, deadline: int)
    requires b.active && cfg.recoveryMs >= 0 && b.now + cfg.recoveryMs >= deadline
    requires forall id :: id in b.timers ==> b.timers[id] >= deadline
    requires Legal(cfg, b, events) && OnlyTimers(events, deadline)
    ensures var b' := Run(cfg, b, events);
            && b'.active && b'.now >= b.now
            && forall id :: id in b'.timers ==> b'.timers[id] >= deadline
  {
    if events != [] {
      StaysOpen(cfg, b, events[..|events| - 1], deadline);
      assert events[|events| - 1].at < deadline;
    }
  }

  /** A timer closes the breaker before a full recovery time has passed. */
  ghost predicate ClosesEarly(cfg: Config, tripped: Breaker, events: seq<Event>) {
    && Legal(cfg, tripped, events) && OnlyTimers(events, tripped.now + cfg.recoveryMs)
    && !Run(cfg, tripped, events).active
  }

  /**
   * A breaker that opens stays open for the configured recovery time (unless an execution succeeds or the
   * orchestrator restarts) exactly when no timer left over from an earlier opening is due before that.
   */
  lemma OpenForRecoveryTimeIff(cfg: Config, b: Breaker, at: int)
    requires cfg.enabled && cfg.recoveryMs > 0 && !b.active && b.failures + 1 >= cfg.threshold
    requires TimersBelowIssued(b)
    ensures var tripped := Next(cfg, b, Failure(at));
            && tripped.active
            && ((exists events :: ClosesEarly(cfg, tripped, events))
                <==> exists id :: id in b.timers && b.timers[id] < at + cfg.recoveryMs)
  {
    var tripped := Next(cfg, b, Failure(at));
    if id :| id in b.timers && b.timers[id] < at + cfg.recoveryMs {
      var when := if b.timers[id] > at then b.timers[id] else at;
      var e := TimerFired(when, id);
      var events := [e];
      assert events[..0] == [] && events[..1] == events;
      OneMore(cfg, tripped, events, 0);
      assert Enabled(tripped, e);
      assert ClosesEarly(cfg, tripped, events);
    } else {
      forall events | Legal(cfg, tripped, events) && OnlyTimers(events, at + cfg.recoveryMs)
        ensures Run(cfg, tripped, events).active
      {
        StaysOpen(cfg, tripped, events, at + cfg.recoveryMs);
      }
    }
  }

  /** Two failures at the threshold leave two timers; after the first one closes the breaker, the second cuts the next opening short. */
  lemma StaleTimerExample()
    ensures var cfg := Config(true, 1, 100);
            var events := [Start(0), Failure(1), Failure(50), TimerFired(101, 0), Failure(110), TimerFired(150, 1)];
            && Legal(cfg, INITIAL, events)
            && Run(cfg, INITIAL, events[..5]).active && !Run(cfg, INITIAL, events).active
  {
    var cfg := Config(true, 1, 100);
    var e := [Start(0), Failure(1), Failure(50), TimerFired(101, 0), Failure(110), TimerFired(150, 1)];
    StaleTimerLeft(cfg, e);
    OneMore(cfg, INITIAL, e, 4);
    OneMore(cfg, INITIAL, e, 5);
    assert e[..6] == e;
    assert Run(cfg, INITIAL, e[..5]).timers[1] == 150;
  }

  lemma StaleTimerLeft(cfg: Config, e: seq<Event>)
    requires cfg == Config(true, 1, 100) && |e| >= 4
    requires e[0] == Start(0) && e[1] == Failure(1) && e[2] == Failure(50) && e[3] == TimerFired(101, 0)
    ensures Legal(cfg, INITIAL, e[..4])
    ensures Run(cfg, INITIAL, e[..4]) == Breaker(true, false, 0, map[1 := 150], None, 2, 0, 101)
  {
    TwoTimersArmed(cfg, e);
    OneMore(cfg, INITIAL, e, 3);
    assert map[0 := 101, 1 := 150] - {0} == map[1 := 150];
  }

  lemma TwoTimersArmed(cfg: Config, e: seq<Event>)
    requires cfg == Config(true, 1, 100) && |e| >= 3
    requires e[0] == Start(0) && e[1] == Failure(1) && e[2] == Failure(50)
    ensures Legal(cfg, INITIAL, e[..3])
    ensures Run(cfg, INITIAL, e[..3]) == Breaker(true, true, 2, map[0 := 101, 1 := 150], Some(1), 2, 0, 50)
  {
    OneMore(cfg, INITIAL, e, 0);
    OneMore(cfg, INITIAL, e, 1);
    OneMore(cfg, INITIAL, e, 2);
    assert e[..0] == [];
    assert Run(cfg, INITIAL, e[..1]) == Breaker(true, false, 0, map[], None, 0, 0, 0);
    assert Run(cfg, INITIAL, e[..2]) == Breaker(true, true, 1, map[0 := 101], Some(0), 1, 0, 1);
  }
}
