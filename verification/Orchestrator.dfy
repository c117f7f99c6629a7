/**
 * The execution orchestrator: its fields, and its handlers as the atomic segments between awaits. Each segment
 * is one step of the circuit breaker, of the admission model, or of both. The object logs those steps: a log is
 * a legal run with the state it ends in, `Push` takes one more step, and `Valid` ties the fields to that state.
 * So a `Push` clause states the whole effect of a method, and what is proved about all runs holds of the object.
 */
module Orchestrator {
  import opened Options
  import CB = CircuitBreaker
  import A = Admission
  import opened PriorityQueues
  import opened StableSorting

  datatype Verdict = StartNow | Wait | Refused

  /** Which handler an execution ended in, if the state machine let one through to its counters. */
  datatype Outcome = CountedSuccess | CountedFailure | Uncounted

  ghost function Reported(log: CB.History, outcome: Outcome, now: int): CB.History
    requires now >= log.breaker.now
  {
    match outcome
    case CountedSuccess => CB.Push(log, CB.Succeeded(now))
    case CountedFailure => CB.Push(log, CB.Failure(now))
    case Uncounted => log
  }

  /** One more entry, after every entry of at least its weight and before every lighter one. */
  ghost predicate EntersAt(before: seq<Entry<A.Ticket>>, i: nat, after: seq<Entry<A.Ticket>>, t: A.Ticket, weight: int)
    requires i <= |before|
  {
    && after == before[..i] + [Entry(t, weight)] + before[i..]
    && (forall j :: 0 <= j < i ==> before[j].priority >= weight)
    && (i < |before| ==> before[i].priority < weight)
  }

  class ExecutionOrchestrator {
    const breakerConfig: CB.Config
    const limits: A.Limits
    const executionQueue: PriorityQueue<A.Ticket>

    var isRunning: bool
    var isPaused: bool
    var circuitBreakerActive: bool
    var consecutiveFailures: nat
    var circuitBreakerRecoveryTimer: Option<nat>
    var pendingTimers: map<nat, int>
    var timersIssued: nat
    var activeExecutions: set<A.Ticket>
    var validating: set<A.Ticket>
    var starting: set<A.Ticket>
    var enqueuing: map<A.Ticket, int>

    ghost var stopping: nat
    ghost var clock: int
    ghost var issued: set<A.Ticket>
    ghost var entered: seq<A.Ticket>
    ghost var left: seq<(A.Ticket, A.Exit)>
    ghost var breakerLog: CB.History
    ghost var loadLog: A.History

    ghost function Breaker(): CB.Breaker
      reads `isRunning, `circuitBreakerActive, `consecutiveFailures, `pendingTimers, `circuitBreakerRecoveryTimer,
            `timersIssued, `stopping, `clock
    {
      CB.Breaker(isRunning, circuitBreakerActive, consecutiveFailures, pendingTimers,
                 circuitBreakerRecoveryTimer, timersIssued, stopping, clock)
    }

    ghost function Load(): A.Load
      reads `activeExecutions, `starting, `enqueuing, `issued, `entered, `left, executionQueue
    {
      A.Load(executionQueue.items, activeExecutions, starting, enqueuing, issued, entered, left)
    }

    predicate Open()
      reads `isRunning, `isPaused, `circuitBreakerActive
    {
      isRunning && !isPaused && !circuitBreakerActive
    }

    function AvailableCapacity(): nat
      reads `activeExecutions
    {
      if limits.maxConcurrentExecutions > |activeExecutions| then limits.maxConcurrentExecutions - |activeExecutions|
      else 0
    }

    /** The breaker is where its log leads, and keeps its law. */
    ghost predicate BreakerValid()
      reads `isRunning, `circuitBreakerActive, `consecutiveFailures, `pendingTimers, `circuitBreakerRecoveryTimer,
            `timersIssued, `stopping, `clock, `breakerLog
    {
      breakerLog.cfg == breakerConfig && breakerLog.breaker == Breaker() && CB.Lawful(breakerConfig, Breaker())
    }

    /** Slots and queue are where their log leads, within the limits but for the widest overlap so far. */
    ghost predicate LoadValid()
      reads `activeExecutions, `validating, `starting, `enqueuing, `issued, `entered, `left, `loadLog, executionQueue
    {
      loadLog.lim == limits && loadLog.load == Load() && A.Within(loadLog) && validating !! issued
    }

    /**
     * After any sequence of calls: the limits hold but for the widest overlap of admissions so far, and every ticket
     * that entered the queue waits in priority order or has left once.
     */
    lemma LimitsAndTickets()
      requires LoadValid()
      ensures |activeExecutions| + |starting| <= limits.maxConcurrentExecutions + A.Peak(limits, loadLog.steps) - 1
      ensures |executionQueue.items| + |enqueuing| <= limits.queueMaxSize + A.Peak(limits, loadLog.steps) - 1
      ensures A.Conserved(Load())
    {
      A.HistoryLaws(loadLog);
      assert A.Length(|loadLog.steps|);
    }

    constructor (breakerConfig: CB.Config, limits: A.Limits)
      ensures this.breakerConfig == breakerConfig && this.limits == limits && fresh(executionQueue)
      ensures BreakerValid() && LoadValid() && breakerLog == CB.NoEvents(breakerConfig) && loadLog == A.NoSteps(limits)
      ensures !isPaused && validating == {}
    {
      this.breakerConfig, this.limits := breakerConfig, limits;
      executionQueue := new PriorityQueue<A.Ticket>();
      isRunning, isPaused, circuitBreakerActive, consecutiveFailures := false, false, false, 0;
      circuitBreakerRecoveryTimer, pendingTimers, timersIssued := None, map[], 0;
      activeExecutions, validating, starting, enqueuing := {}, {}, {}, map[];
      stopping, clock, issued, entered, left := 0, 0, {}, [], [];
      breakerLog, loadLog := CB.NoEvents(breakerConfig), A.NoSteps(limits);
    }

    method Start(now: int)
      requires BreakerValid() && now >= clock
      modifies `isRunning, `isPaused, `circuitBreakerActive, `consecutiveFailures, `clock, `breakerLog
      ensures BreakerValid() && breakerLog == CB.Push(old(breakerLog), CB.Start(now))
      ensures isPaused == (old(isRunning) && old(isPaused))
      ensures breakerConfig.enabled && breakerConfig.threshold >= 1 ==>
                (circuitBreakerActive <==> consecutiveFailures >= breakerConfig.threshold)
      ensures if old(isRunning) then
                isRunning && circuitBreakerActive == old(circuitBreakerActive) && consecutiveFailures == old(consecutiveFailures)
              else isRunning && !circuitBreakerActive && consecutiveFailures == 0
    {
      clock := now;
      if !isRunning {
        isRunning, isPaused := true, false;
        circuitBreakerActive, consecutiveFailures := false, 0;
      }
      breakerLog := CB.Push(breakerLog, CB.Start(now));
    }

    /** Up to the wait for running executions. */
    method StopRequest(now: int)
      requires BreakerValid() && now >= clock
      modifies `isRunning, `stopping, `clock, `breakerLog
      ensures BreakerValid() && breakerLog == CB.Push(old(breakerLog), CB.StopRequested(now))
      ensures !isRunning && stopping == old(stopping) + (if old(isRunning) then 1 else 0)
    {
      clock := now;
      if isRunning {
        isRunning := false;
        stopping := stopping + 1;
      }
      assert Breaker() == CB.Next(breakerConfig, old(Breaker()), CB.StopRequested(now));
      breakerLog := CB.Push(breakerLog, CB.StopRequested(now));
    }

    /** After the wait: clear the queue, and the one recovery timer that is still known. */
    method StopFinish(now: int)
      requires BreakerValid() && LoadValid() && now >= clock && stopping > 0
      modifies `pendingTimers, `circuitBreakerRecoveryTimer, `stopping, `clock, `breakerLog
      modifies `left, `loadLog, executionQueue
      ensures BreakerValid() && LoadValid() && breakerLog == CB.Push(old(breakerLog), CB.StopFinished(now))
      ensures loadLog == A.Push(old(loadLog), A.Clear)
      ensures executionQueue.items == [] && circuitBreakerRecoveryTimer == None
      ensures forall id :: id in pendingTimers <==>
                           id in old(pendingTimers) && old(circuitBreakerRecoveryTimer) != Some(id)
    {
      ClearQueue();
      ClearRecoveryTimer(now);
    }

    method ClearQueue()
      requires LoadValid()
      modifies `left, `loadLog, executionQueue
      ensures LoadValid() && loadLog == A.Push(old(loadLog), A.Clear)
      ensures executionQueue.items == []
    {
      left := left + A.Exits(executionQueue.items, A.Cleared);
      executionQueue.Clear();
      loadLog := A.Push(loadLog, A.Clear);
    }

    method ClearRecoveryTimer(now: int)
      requires BreakerValid() && now >= clock && stopping > 0
      modifies `pendingTimers, `circuitBreakerRecoveryTimer, `stopping, `clock, `breakerLog
      ensures BreakerValid() && breakerLog == CB.Push(old(breakerLog), CB.StopFinished(now))
      ensures circuitBreakerRecoveryTimer == None
      ensures forall id :: id in pendingTimers <==>
                           id in old(pendingTimers) && old(circuitBreakerRecoveryTimer) != Some(id)
    {
      clock := now;
      if circuitBreakerRecoveryTimer.Some? {
        pendingTimers := pendingTimers - {circuitBreakerRecoveryTimer.value};
        circuitBreakerRecoveryTimer := None;
      }
      stopping := stopping - 1;
      assert Breaker() == CB.Next(breakerConfig, old(Breaker()), CB.StopFinished(now));
      breakerLog := CB.Push(breakerLog, CB.StopFinished(now));
    }

    method PauseExecution()
      modifies `isPaused
      ensures isPaused
    {
      isPaused := true;
    }

    method ResumeExecution()
      modifies `isPaused
      ensures !isPaused
    {
      isPaused := false;
    }

    method HandleExecutionSuccess(now: int)
      requires BreakerValid() && now >= clock
      modifies `circuitBreakerActive, `consecutiveFailures, `clock, `breakerLog
      ensures BreakerValid() && breakerLog == CB.Push(old(breakerLog), CB.Succeeded(now))
      ensures breakerConfig.enabled && breakerConfig.threshold >= 1 ==>
                (circuitBreakerActive <==> consecutiveFailures >= breakerConfig.threshold)
      ensures !circuitBreakerActive && consecutiveFailures == 0
    {
      clock := now;
      consecutiveFailures := 0;
      if circuitBreakerActive {
        circuitBreakerActive := false;
      }
      assert Breaker() == CB.Next(breakerConfig, old(Breaker()), CB.Succeeded(now));
      breakerLog := CB.Push(breakerLog, CB.Succeeded(now));
    }

    method HandleExecutionFailure(now: int)
      requires BreakerValid() && now >= clock
      modifies `circuitBreakerActive, `consecutiveFailures, `pendingTimers, `circuitBreakerRecoveryTimer, `timersIssued,
               `clock, `breakerLog
      ensures BreakerValid() && breakerLog == CB.Push(old(breakerLog), CB.Failure(now))
      ensures breakerConfig.enabled && breakerConfig.threshold >= 1 ==>
                (circuitBreakerActive <==> consecutiveFailures >= breakerConfig.threshold)
      ensures consecutiveFailures == old(consecutiveFailures) + 1
      ensures if breakerConfig.enabled && consecutiveFailures >= breakerConfig.threshold then
                && circuitBreakerActive && circuitBreakerRecoveryTimer == Some(old(timersIssued))
                && pendingTimers == old(pendingTimers)[old(timersIssued) := now + breakerConfig.recoveryMs]
              else circuitBreakerActive == old(circuitBreakerActive) && pendingTimers == old(pendingTimers)
    {
      clock := now;
      consecutiveFailures := consecutiveFailures + 1;
      if breakerConfig.enabled && consecutiveFailures >= breakerConfig.threshold {
        ActivateCircuitBreaker(now);
      }
      assert Breaker() == CB.Next(breakerConfig, old(Breaker()), CB.Failure(now));
      breakerLog := CB.Push(breakerLog, CB.Failure(now));
    }

    method ActivateCircuitBreaker(now: int)
      modifies `circuitBreakerActive, `pendingTimers, `circuitBreakerRecoveryTimer, `timersIssued
      ensures circuitBreakerActive && circuitBreakerRecoveryTimer == Some(old(timersIssued))
      ensures pendingTimers == old(pendingTimers)[old(timersIssued) := now + breakerConfig.recoveryMs]
      ensures timersIssued == old(timersIssued) + 1
    {
      circuitBreakerActive := true;
      pendingTimers := pendingTimers[timersIssued := now + breakerConfig.recoveryMs];
      circuitBreakerRecoveryTimer := Some(timersIssued);
      timersIssued := timersIssued + 1;
    }

    method RecoveryTimerFired(id: nat, now: int)
      requires BreakerValid() && now >= clock && id in pendingTimers && pendingTimers[id] <= now
      modifies `circuitBreakerActive, `consecutiveFailures, `pendingTimers, `circuitBreakerRecoveryTimer, `clock,
               `breakerLog
      ensures BreakerValid() && breakerLog == CB.Push(old(breakerLog), CB.TimerFired(now, id))
      ensures breakerConfig.enabled && breakerConfig.threshold >= 1 ==>
                (circuitBreakerActive <==> consecutiveFailures >= breakerConfig.threshold)
      ensures !circuitBreakerActive && pendingTimers == old(pendingTimers) - {id}
      ensures consecutiveFailures == if old(circuitBreakerActive) then 0 else old(consecutiveFailures)
    {
      clock := now;
      pendingTimers := pendingTimers - {id};
      if circuitBreakerActive {
        circuitBreakerActive, consecutiveFailures := false, 0;
        circuitBreakerRecoveryTimer := None;
      }
      assert Breaker() == CB.Next(breakerConfig, old(Breaker()), CB.TimerFired(now, id));
      breakerLog := CB.Push(breakerLog, CB.TimerFired(now, id));
    }

    /** The first checks of an incoming opportunity, up to the wait for its validation. */
    method CheckDoor(t: A.Ticket) returns (admitted: bool)
      requires LoadValid() && t !in issued && t !in validating
      modifies `validating
      ensures LoadValid() && admitted == Open()
      ensures validating == if admitted then old(validating) + {t} else old(validating)
    {
      if !isRunning || isPaused || circuitBreakerActive {
        return false;
      }
      validating := validating + {t};
      return true;
    }

    /** No engine, an expired deadline, or an engine that declines. */
    method ValidationFailed(t: A.Ticket)
      requires LoadValid() && t in validating
      modifies `validating
      ensures LoadValid() && validating == old(validating) - {t}
    {
      validating := validating - {t};
    }

    /** After the validation: capacity alone decides, whatever the door would say by now. */
    method CheckCapacity(t: A.Ticket, weight: int) returns (v: Verdict)
      requires LoadValid() && t in validating
      modifies `validating, `issued, `starting, `enqueuing, `loadLog
      ensures LoadValid() && loadLog == A.Push(old(loadLog), A.Admit(t, weight))
      ensures validating == old(validating) - {t}
      ensures v == Refused <==> |activeExecutions| >= limits.maxConcurrentExecutions
                                && |executionQueue.items| >= limits.queueMaxSize
      ensures v == StartNow <==> |activeExecutions| < limits.maxConcurrentExecutions
      ensures starting == old(starting) + (if v == StartNow then {t} else {})
      ensures enqueuing == if v == Wait then old(enqueuing)[t := weight] else old(enqueuing)
    {
      validating, issued := validating - {t}, issued + {t};
      var availableCapacity := AvailableCapacity();
      if availableCapacity == 0 && |executionQueue.items| >= limits.queueMaxSize {
        v := Refused;
      } else if availableCapacity > 0 {
        v := StartNow;
        starting := starting + {t};
      } else {
        v := Wait;
        enqueuing := enqueuing[t := weight];
      }
      assert Load() == A.Next(limits, old(Load()), A.Admit(t, weight));
      loadLog := A.Push(loadLog, A.Admit(t, weight));
    }

    method QueueForExecution(t: A.Ticket)
      requires LoadValid() && t in enqueuing
      modifies `enqueuing, `entered, `loadLog, executionQueue
      ensures LoadValid() && loadLog == A.Push(old(loadLog), A.Enqueued(t))
      ensures enqueuing == old(enqueuing) - {t}
      ensures exists i: nat | i <= |old(executionQueue.items)| ::
                EntersAt(old(executionQueue.items), i, executionQueue.items, t, old(enqueuing)[t])
    {
      ghost var i := InsertSplit(executionQueue.items, Entry(t, enqueuing[t]), Priority);
      executionQueue.Enqueue(t, enqueuing[t]);
      assert EntersAt(old(executionQueue.items), i, executionQueue.items, t, old(enqueuing)[t]);
      enqueuing := enqueuing - {t};
      entered := entered + [t];
      loadLog := A.Push(loadLog, A.Enqueued(t));
    }

    method RegisterExecution(t: A.Ticket)
      requires LoadValid() && t in starting
      modifies `activeExecutions, `starting, `loadLog
      ensures LoadValid() && loadLog == A.Push(old(loadLog), A.Registered(t))
      ensures activeExecutions == old(activeExecutions) + {t} && starting == old(starting) - {t}
    {
      activeExecutions := activeExecutions + {t};
      starting := starting - {t};
      loadLog := A.Push(loadLog, A.Registered(t));
    }

    /** Resources or gas could not be had: the execution ends unregistered. */
    method StartFailed(t: A.Ticket, outcome: Outcome, now: int)
      requires BreakerValid() && LoadValid() && now >= clock && t in starting
      modifies `starting, `loadLog
      modifies `circuitBreakerActive, `consecutiveFailures, `pendingTimers, `circuitBreakerRecoveryTimer, `timersIssued,
               `clock, `breakerLog
      ensures BreakerValid() && breakerLog == Reported(old(breakerLog), outcome, now)
      ensures LoadValid() && loadLog == A.Push(old(loadLog), A.StartFailed(t))
      ensures starting == old(starting) - {t}
    {
      AbandonStart(t);
      Report(outcome, now);
    }

    /** The end of an execution: its slot is freed, then the handler that the state machine accepts runs, if any. */
    method FinishExecution(t: A.Ticket, outcome: Outcome, now: int)
      requires BreakerValid() && LoadValid() && now >= clock && t in activeExecutions
      modifies `activeExecutions, `loadLog
      modifies `circuitBreakerActive, `consecutiveFailures, `pendingTimers, `circuitBreakerRecoveryTimer, `timersIssued,
               `clock, `breakerLog
      ensures BreakerValid() && breakerLog == Reported(old(breakerLog), outcome, now)
      ensures LoadValid() && loadLog == A.Push(old(loadLog), A.Done(t))
      ensures activeExecutions == old(activeExecutions) - {t}
    {
      ReleaseSlot(t);
      Report(outcome, now);
    }

    /** At most one handler reaches its counters. */
    method Report(outcome: Outcome, now: int)
      requires BreakerValid() && now >= clock
      modifies `circuitBreakerActive, `consecutiveFailures, `pendingTimers, `circuitBreakerRecoveryTimer, `timersIssued,
               `clock, `breakerLog
      ensures BreakerValid() && breakerLog == Reported(old(breakerLog), outcome, now)
    {
      if outcome == CountedSuccess {
        HandleExecutionSuccess(now);
      } else if outcome == CountedFailure {
        HandleExecutionFailure(now);
      }
    }

    method ReleaseSlot(t: A.Ticket)
      requires LoadValid() && t in activeExecutions
      modifies `activeExecutions, `loadLog
      ensures LoadValid() && loadLog == A.Push(old(loadLog), A.Done(t))
      ensures activeExecutions == old(activeExecutions) - {t}
    {
      activeExecutions := activeExecutions - {t};
      loadLog := A.Push(loadLog, A.Done(t));
    }

    method AbandonStart(t: A.Ticket)
      requires LoadValid() && t in starting
      modifies `starting, `loadLog
      ensures LoadValid() && loadLog == A.Push(old(loadLog), A.StartFailed(t))
      ensures starting == old(starting) - {t}
    {
      starting := starting - {t};
      loadLog := A.Push(loadLog, A.StartFailed(t));
    }

    /** One tick of the queue-processing interval; `expired` is the deadline test on the dequeued opportunity. */
    method ProcessQueue(expired: bool)
      requires LoadValid()
      modifies `starting, `left, `loadLog, executionQueue
      ensures LoadValid()
      ensures loadLog == if old(Open()) then A.Push(old(loadLog), A.Tick(expired)) else old(loadLog)
      ensures var items := old(executionQueue.items);
              if old(Open()) && |activeExecutions| < limits.maxConcurrentExecutions && items != [] then
                && executionQueue.items == items[1..]
                && starting == old(starting) + (if expired then {} else {items[0].item})
                && left == old(left) + [(items[0].item, if expired then A.Expired else A.Dispatched)]
              else executionQueue.items == items && starting == old(starting) && left == old(left)
    {
      if !isRunning || isPaused || circuitBreakerActive {
        return;
      }
      if AvailableCapacity() > 0 && |executionQueue.items| > 0 {
        var queued := executionQueue.Dequeue();
        if expired {
          left := left + [(queued.value, A.Expired)];
        } else {
          left := left + [(queued.value, A.Dispatched)];
          starting := starting + {queued.value};
        }
      }
      loadLog := A.Push(loadLog, A.Tick(expired));
    }
  }

  /** An opportunity past the door is started even though the breaker opens while it is validated. */
  method StartsPastOpenBreaker(o: ExecutionOrchestrator, t: A.Ticket, weight: int, now: int)
    requires o.BreakerValid() && o.LoadValid() && now >= o.clock
    requires t in o.validating && o.AvailableCapacity() > 0
    requires o.breakerConfig.enabled && o.consecutiveFailures + 1 >= o.breakerConfig.threshold
    modifies o
    ensures o.circuitBreakerActive && t in o.starting
  {
    o.HandleExecutionFailure(now);
    assert o.circuitBreakerActive;
    var verdict := o.CheckCapacity(t, weight);
  }
}
