/**
 * One opportunity through the orchestrator and the opportunity state machine: which outcomes reach the counters
 * that drive the circuit breaker. Handlers first ask the state machine for a transition, which may throw.
 */
module OpportunityFlow {
  import opened Options
  import CB = CircuitBreaker

  datatype Phase =
    | Detected | Validating | Simulating | Queued | Executing | Pending | Confirming
    | Completed | FailedPhase | ExpiredPhase | Cancelled

  function Successors(p: Phase): set<Phase> {
    match p
    case Detected => {Validating, ExpiredPhase, Cancelled}
    case Validating => {Simulating, FailedPhase, ExpiredPhase, Cancelled}
    case Simulating => {Queued, FailedPhase, ExpiredPhase, Cancelled}
    case Queued => {Executing, ExpiredPhase, Cancelled}
    case Executing => {Pending, FailedPhase, Cancelled}
    case Pending => {Confirming, FailedPhase, Cancelled}
    case Confirming => {Completed, FailedPhase}
    case _ => {}
  }

  /** The state machine's settings and the opportunity's deadline, with the clock at each call. */
  datatype Opportunity = Opportunity(phase: Phase, expiresAt: Option<int>)

  /** A transition throws on an expired opportunity, and on an invalid move while validation is enabled. */
  predicate CanMove(validate: bool, o: Opportunity, to: Phase, now: int) {
    && (o.expiresAt.Some? ==> now <= o.expiresAt.value)
    && (validate ==> to in Successors(o.phase))
  }

  /** The circumstances of one `processOpportunity` call that is not queued. */
  datatype Script = Script(
    open: bool,        // running, not paused, breaker closed
    valid: bool,       // an engine exists, it can execute, and the deadline has not passed
    capacity: bool,    // a slot is free
    resourced: bool,   // resource allocation does not throw
    engineMoves: seq<Phase>, // transitions the engine requests on the same machine
    engineThrows: bool,
    engineSucceeds: bool,
    started: int, ended: int // the clock before and after the engine ran
  )

  /** How often the success and failure handlers reached their counters. */
  datatype Counts = Counts(successes: nat, failures: nat)

  const NONE := Counts(0, 0)

  /** The failure handler: the transition to FAILED, then the counters. When it throws, the outer handler tries again. */
  function HandleFailure(validate: bool, o: Opportunity, now: int, outerRetries: nat): Counts {
    if CanMove(validate, o, FailedPhase, now) then Counts(0, 1)
    else if outerRetries == 0 then NONE
    else HandleFailure(validate, o, now, outerRetries - 1)
  }

  /** The engine's own requests; the first invalid one throws. */
  function Engine(validate: bool, o: Opportunity, moves: seq<Phase>, now: int): (Opportunity, bool)
    decreases |moves|
  {
    if moves == [] then (o, true)
    else if !CanMove(validate, o, moves[0], now) then (o, false)
    else Engine(validate, o.(phase := moves[0]), moves[1..], now)
  }

  /** Executing with a slot: any throw lands in the failure handler, also one from the success handler. */
  function Execute(validate: bool, o: Opportunity, s: Script): Counts {
    if !s.resourced || !CanMove(validate, o, Executing, s.started) then HandleFailure(validate, o, s.started, 1)
    else
      var (o', fine) := Engine(validate, o.(phase := Executing), s.engineMoves, s.ended);
      if !fine || s.engineThrows || !s.engineSucceeds then HandleFailure(validate, o', s.ended, 2)
      else if CanMove(validate, o', Completed, s.ended) then Counts(1, 0)
      else HandleFailure(validate, o', s.ended, 1)
  }

  function Process(validate: bool, expiresAt: Option<int>, s: Script): Counts {
    var o := Opportunity(Detected, expiresAt);
    if !s.open || !CanMove(validate, o, Validating, s.started) then HandleFailure(validate, o, s.started, 0)
    else if !s.valid then HandleFailure(validate, o.(phase := Validating), s.started, 0)
    else if !s.capacity then HandleFailure(validate, o.(phase := Simulating), s.started, 0)
    else Execute(validate, o.(phase := Queued), s)
  }

  lemma {:induction false} FailureHandler(validate: bool, o: Opportunity, now: int, outerRetries: nat)
    ensures HandleFailure(validate, o, now, outerRetries)
         == if CanMove(validate, o, FailedPhase, now) then Counts(0, 1) else NONE
  {
    if outerRetries > 0 {
      FailureHandler(validate, o, now, outerRetries - 1);
    }
  }

  /** Reaching the engine: every check before it passed. */
  ghost predicate Runs(expiresAt: Option<int>, s: Script) {
    s.open && s.valid && s.capacity && s.resourced && (expiresAt.Some? ==> s.started <= expiresAt.value)
  }

  ghost predicate Alive(expiresAt: Option<int>, now: int) {
    expiresAt.Some? ==> now <= expiresAt.value
  }

  /** No call that gets its slot at once is counted twice, though the failure handler is entered up to three times. */
  lemma CountedAtMostOnce(validate: bool, expiresAt: Option<int>, s: Script)
    ensures var c := Process(validate, expiresAt, s); c.successes + c.failures <= 1
  {
    var o := Opportunity(Detected, expiresAt);
    FailureHandler(validate, o, s.started, 0);
    FailureHandler(validate, o.(phase := Validating), s.started, 0);
    FailureHandler(validate, o.(phase := Simulating), s.started, 0);
    ExecuteMeaning(validate, o.(phase := Queued), s);
  }

  lemma ExecuteMeaning(validate: bool, o: Opportunity, s: Script)
    ensures var c := Execute(validate, o, s);
            && c.successes + c.failures <= 1
            && (c.successes == 1 <==>
                  && s.resourced && CanMove(validate, o, Executing, s.started)
                  && !s.engineThrows && s.engineSucceeds
                  && var (o', fine) := Engine(validate, o.(phase := Executing), s.engineMoves, s.ended);
                     fine && CanMove(validate, o', Completed, s.ended))
  {
    FailureHandler(validate, o, s.started, 1);
    var (o', fine) := Engine(validate, o.(phase := Executing), s.engineMoves, s.ended);
    FailureHandler(validate, o', s.ended, 2);
    FailureHandler(validate, o', s.ended, 1);
  }

  /** The only way from a phase to CONFIRMING is the straight one. */
  lemma {:induction false} WayToConfirming(o: Opportunity, moves: seq<Phase>, now: int)
    requires o.phase in {Executing, Pending, Confirming} && Alive(o.expiresAt, now)
    ensures var (o', fine) := Engine(true, o, moves, now);
            && o'.expiresAt == o.expiresAt
            && (fine && o'.phase == Confirming <==>
                  moves == match o.phase case Executing => [Pending, Confirming] case Pending => [Confirming] case _ => [])
    decreases |moves|
  {
    if moves != [] {
      assert moves == [moves[0]] + moves[1..];
      var next := o.(phase := moves[0]);
      if moves[0] in {Pending, Confirming} {
        WayToConfirming(next, moves[1..], now);
      } else if CanMove(true, o, moves[0], now) {
        TerminalStays(next, moves[1..], now);
      }
    }
  }

  lemma TerminalStays(o: Opportunity, moves: seq<Phase>, now: int)
    requires Successors(o.phase) == {}
    ensures Engine(true, o, moves, now) == (o, moves == [])
  {
  }

  /**
   * With transition validation on, which is the default, an execution that the engine reports as successful is
   * counted as a success exactly when the engine itself walked the machine through PENDING and CONFIRMING.
   */
  lemma SuccessCountedIff(expiresAt: Option<int>, s: Script)
    requires Runs(expiresAt, s) && !s.engineThrows && s.engineSucceeds && Alive(expiresAt, s.ended)
    ensures Process(true, expiresAt, s).successes == 1 <==> s.engineMoves == [Pending, Confirming]
  {
    ExecuteMeaning(true, Opportunity(Queued, expiresAt), s);
    WayToConfirming(Opportunity(Executing, expiresAt), s.engineMoves, s.ended);
    var (o', fine) := Engine(true, Opportunity(Executing, expiresAt), s.engineMoves, s.ended);
    assert CanMove(true, o', Completed, s.ended) <==> o'.phase == Confirming;
  }

  /** Engines that leave the machine alone: every execution that runs to its end in time counts as a failure, successful or not. */
  lemma SuccessCountedAsFailure(expiresAt: Option<int>, s: Script)
    requires Runs(expiresAt, s) && s.engineMoves == [] && Alive(expiresAt, s.ended)
    ensures Process(true, expiresAt, s) == Counts(0, 1)
  {
    var o := Opportunity(Executing, expiresAt);
    FailureHandler(true, o, s.ended, 2);
    FailureHandler(true, o, s.ended, 1);
  }

  /** The engine leaves the machine on its way or in a final phase. */
  lemma {:induction false} EngineStays(validate: bool, o: Opportunity, moves: seq<Phase>, now: int)
    requires validate ==> o.phase in {Executing, Pending, Confirming} || Successors(o.phase) == {}
    ensures var (o', fine) := Engine(validate, o, moves, now);
            && o'.expiresAt == o.expiresAt
            && (validate ==> o'.phase in {Executing, Pending, Confirming} || Successors(o'.phase) == {})
            && (!validate && Alive(o.expiresAt, now) ==> fine)
    decreases |moves|
  {
    if moves != [] && CanMove(validate, o, moves[0], now) {
      EngineStays(validate, o.(phase := moves[0]), moves[1..], now);
    }
  }

  /** What the calls that never reach the engine count. */
  lemma RefusalCounts(validate: bool, expiresAt: Option<int>, s: Script)
    requires !Runs(expiresAt, s)
    ensures Process(validate, expiresAt, s)
         == if !Alive(expiresAt, s.started) then NONE
            else if !s.open then (if validate then NONE else Counts(0, 1))
            else if !s.valid || !s.capacity then Counts(0, 1)
            else (if validate then NONE else Counts(0, 1))
  {
    FailureHandler(validate, Opportunity(Queued, expiresAt), s.started, 1);
  }

  /** What an execution counts: without validation its outcome, and nothing in any case after the deadline. */
  lemma ExecutionCounts(validate: bool, expiresAt: Option<int>, s: Script)
    requires Runs(expiresAt, s)
    ensures !Alive(expiresAt, s.ended) ==> Process(validate, expiresAt, s) == NONE
    ensures !validate && Alive(expiresAt, s.ended) ==>
              Process(validate, expiresAt, s) == if s.engineSucceeds && !s.engineThrows then Counts(1, 0) else Counts(0, 1)
    ensures validate && Alive(expiresAt, s.ended) ==>
              (Process(validate, expiresAt, s) == NONE
               <==> Successors(Engine(true, Opportunity(Executing, expiresAt), s.engineMoves, s.ended).0.phase) == {})
  {
    var o := Opportunity(Executing, expiresAt);
    EngineStays(validate, o, s.engineMoves, s.ended);
    var (o', fine) := Engine(validate, o, s.engineMoves, s.ended);
    FailureHandler(validate, o', s.ended, 2);
    FailureHandler(validate, o', s.ended, 1);
    assert Process(validate, expiresAt, s) == Execute(validate, Opportunity(Queued, expiresAt), s);
  }

  /**
   * A call that gets its slot at once is counted nowhere exactly when it is past its deadline, or, with validation on,
   * when it is turned away at the door, gets no resources, or its engine has taken the machine to a final phase.
   */
  lemma UncountedIff(validate: bool, expiresAt: Option<int>, s: Script)
    ensures var engine := Engine(true, Opportunity(Executing, expiresAt), s.engineMoves, s.ended).0;
            var late := !Alive(expiresAt, s.started) || (Runs(expiresAt, s) && !Alive(expiresAt, s.ended));
            var blocked := !s.open || (s.valid && s.capacity && (!s.resourced || Successors(engine.phase) == {}));
            Total(Process(validate, expiresAt, s)) == 0 <==> late || (validate && blocked)
  {
    if Runs(expiresAt, s) {
      ExecutionCounts(validate, expiresAt, s);
    } else {
      RefusalCounts(validate, expiresAt, s);
    }
  }

  // ---------- Calls that wait in the queue ----------

  /** An opportunity with what its handlers have counted so far. */
  datatype Machine = Machine(o: Opportunity, counts: Counts)

  /** A request to move; reaching COMPLETED or FAILED in a handler counts. */
  datatype Attempt = Move(to: Phase, at: int) | Success(at: int) | Failure(at: int)

  function Try(validate: bool, m: Machine, a: Attempt): (Machine, bool) {
    var to := match a case Move(to, _) => to case Success(_) => Completed case Failure(_) => FailedPhase;
    if !CanMove(validate, m.o, to, a.at) then (m, false)
    else
      var counts := match a
        case Move(_, _) => m.counts
        case Success(_) => m.counts.(successes := m.counts.successes + 1)
        case Failure(_) => m.counts.(failures := m.counts.failures + 1);
      (Machine(m.o.(phase := to), counts), true)
  }

  function Attempts(validate: bool, m: Machine, attempts: seq<Attempt>): Machine {
    if attempts == [] then m
    else Try(validate, Attempts(validate, m, attempts[..|attempts| - 1]), attempts[|attempts| - 1]).0
  }

  function Total(c: Counts): nat { c.successes + c.failures }

  /** What has been counted is over. */
  ghost predicate CountedOnce(m: Machine) {
    Total(m.counts) == 0 || (Total(m.counts) == 1 && Successors(m.o.phase) == {})
  }

  lemma TryCountsOnce(m: Machine, a: Attempt)
    requires CountedOnce(m)
    ensures CountedOnce(Try(true, m, a).0)
  {
  }

  /** With validation on, no order of handlers, timeouts and engine requests counts one opportunity twice. */
  lemma {:induction false} ValidatedCountsOnce(o: Opportunity, attempts: seq<Attempt>)
    ensures CountedOnce(Attempts(true, Machine(o, NONE), attempts))
  {
    if attempts != [] {
      ValidatedCountsOnce(o, attempts[..|attempts| - 1]);
      TryCountsOnce(Attempts(true, Machine(o, NONE), attempts[..|attempts| - 1]), attempts[|attempts| - 1]);
    }
  }

  /**
   * When the promise of a queued call is rejected: never, before its ticket is dispatched, while the engine runs
   * (after some of the engine's own requests), or after the execution.
   */
  datatype Timeout = Never | WhileWaiting(at: int) | WhileRunning(at: int, moved: nat) | Afterwards(at: int)

  /** A queued call: its timeout, and what becomes of its ticket, which is dispatched or leaves the queue otherwise. */
  datatype QueuedCall = QueuedCall(timeout: Timeout, dispatched: bool, s: Script)

  function Requests(validate: bool, m: Machine, moves: seq<Phase>, at: int): (Machine, bool) {
    var (o, fine) := Engine(validate, m.o, moves, at);
    (Machine(o, m.counts), fine)
  }

  function Fail(validate: bool, m: Machine, at: int): Machine { Try(validate, m, Failure(at)).0 }

  function Finish(validate: bool, m: Machine, fine: bool, s: Script): Machine {
    if !fine || s.engineThrows || !s.engineSucceeds then Fail(validate, m, s.ended)
    else
      var (m', counted) := Try(validate, m, Success(s.ended));
      if counted then m' else Fail(validate, m', s.ended)
  }

  /** How many of the engine's requests come before the timeout. */
  function Moved(q: QueuedCall): (k: nat)
    requires q.timeout.WhileRunning?
    ensures k <= |q.s.engineMoves|
  {
    if q.timeout.moved <= |q.s.engineMoves| then q.timeout.moved else |q.s.engineMoves|
  }

  function RunEngine(validate: bool, m: Machine, q: QueuedCall): Machine {
    match q.timeout
    case WhileRunning(at, _) =>
      var k := Moved(q);
      var (m1, fine) := Requests(validate, m, q.s.engineMoves[..k], at);
      if !fine then Fail(validate, m1, at)
      else
        var (m2, fine2) := Requests(validate, Fail(validate, m1, at), q.s.engineMoves[k..], q.s.ended);
        Finish(validate, m2, fine2, q.s)
    case _ =>
      var (m1, fine) := Requests(validate, m, q.s.engineMoves, q.s.ended);
      Finish(validate, m1, fine, q.s)
  }

  function Dispatch(validate: bool, m: Machine, q: QueuedCall): Machine {
    if !q.s.resourced then Fail(validate, m, q.s.started)
    else
      var (m1, fine) := Try(validate, m, Move(Executing, q.s.started));
      if fine then RunEngine(validate, m1, q) else Fail(validate, m1, q.s.started)
  }

  function Waited(validate: bool, m: Machine, q: QueuedCall): Machine {
    if q.timeout.WhileWaiting? then Fail(validate, m, q.timeout.at) else m
  }

  /** The ticket outlives the call that queued it: the timeout fails the call, and the ticket may still be dispatched. */
  function ProcessQueued(validate: bool, expiresAt: Option<int>, q: QueuedCall): Counts {
    Call(validate, Machine(Opportunity(Queued, expiresAt), NONE), q)
  }

  function Call(validate: bool, m: Machine, q: QueuedCall): Counts {
    AfterWait(validate, Waited(validate, m, q), q)
  }

  function AfterWait(validate: bool, m: Machine, q: QueuedCall): Counts {
    Settled(validate, Ran(validate, m, q), q)
  }

  /** The wait ends with the first handler that counts; otherwise the call can still time out. */
  function Settled(validate: bool, ran: Machine, q: QueuedCall): Counts {
    if q.timeout.Afterwards? && Total(ran.counts) == 0 then Fail(validate, ran, q.timeout.at).counts else ran.counts
  }

  function Ran(validate: bool, m: Machine, q: QueuedCall): Machine {
    if q.dispatched then Dispatch(validate, m, q) else m
  }

  lemma RequestsCountOnce(m: Machine, moves: seq<Phase>, at: int)
    requires CountedOnce(m)
    ensures CountedOnce(Requests(true, m, moves, at).0)
  {
    if Total(m.counts) > 0 {
      TerminalStays(m.o, moves, at);
    }
  }

  /** Without validation only the deadline stops a request. */
  lemma {:induction false} EngineInTime(o: Opportunity, moves: seq<Phase>, at: int)
    ensures var (o', fine) := Engine(false, o, moves, at);
            o'.expiresAt == o.expiresAt && (Alive(o.expiresAt, at) ==> fine)
    decreases |moves|
  {
    if moves != [] {
      EngineInTime(o.(phase := moves[0]), moves[1..], at);
    }
  }

  lemma FinishCountsOnce(m: Machine, fine: bool, s: Script)
    requires CountedOnce(m)
    ensures CountedOnce(Finish(true, m, fine, s))
  {
    TryCountsOnce(m, Failure(s.ended));
    TryCountsOnce(m, Success(s.ended));
    TryCountsOnce(Try(true, m, Success(s.ended)).0, Failure(s.ended));
  }

  lemma EngineCountsOnce(m: Machine, q: QueuedCall)
    requires CountedOnce(m)
    ensures CountedOnce(RunEngine(true, m, q))
  {
    if q.timeout.WhileRunning? {
      var at, k := q.timeout.at, Moved(q);
      RequestsCountOnce(m, q.s.engineMoves[..k], at);
      var m1 := Requests(true, m, q.s.engineMoves[..k], at).0;
      TryCountsOnce(m1, Failure(at));
      RequestsCountOnce(Fail(true, m1, at), q.s.engineMoves[k..], q.s.ended);
      var (m2, fine) := Requests(true, Fail(true, m1, at), q.s.engineMoves[k..], q.s.ended);
      FinishCountsOnce(m2, fine, q.s);
    } else {
      RequestsCountOnce(m, q.s.engineMoves, q.s.ended);
      var (m1, fine) := Requests(true, m, q.s.engineMoves, q.s.ended);
      FinishCountsOnce(m1, fine, q.s);
    }
  }

  lemma DispatchCountsOnce(m: Machine, q: QueuedCall)
    requires CountedOnce(m)
    ensures CountedOnce(Dispatch(true, m, q))
  {
    TryCountsOnce(m, Failure(q.s.started));
    TryCountsOnce(m, Move(Executing, q.s.started));
    var m1 := Try(true, m, Move(Executing, q.s.started)).0;
    EngineCountsOnce(m1, q);
    TryCountsOnce(m1, Failure(q.s.started));
  }

  lemma CallValidated(m: Machine, q: QueuedCall)
    requires m.counts == NONE
    ensures Total(Call(true, m, q)) <= 1
  {
    var waited := Waited(true, m, q);
    if q.timeout.WhileWaiting? {
      TryCountsOnce(m, Failure(q.timeout.at));
    }
    DispatchCountsOnce(waited, q);
    var ran := Ran(true, waited, q);
    if q.timeout.Afterwards? {
      FailCounts(true, ran, q.timeout.at);
    }
  }

  lemma FailCounts(validate: bool, m: Machine, at: int)
    ensures Total(Fail(validate, m, at).counts) <= Total(m.counts) + 1
  {
  }

  // ---------- Without validation ----------

  /** One count if the time is within the deadline. */
  ghost function InTime(expiresAt: Option<int>, at: int): nat { if Alive(expiresAt, at) then 1 else 0 }

  lemma FinishUnvalidated(m: Machine, fine: bool, s: Script)
    ensures Total(Finish(false, m, fine, s).counts) == Total(m.counts) + InTime(m.o.expiresAt, s.ended)
  {
  }

  lemma EngineUnvalidated(m: Machine, q: QueuedCall)
    ensures q.timeout.WhileRunning? && Alive(m.o.expiresAt, q.timeout.at) ==>
              Total(RunEngine(false, m, q).counts) == Total(m.counts) + 1 + InTime(m.o.expiresAt, q.s.ended)
    ensures q.timeout.WhileRunning? && !Alive(m.o.expiresAt, q.timeout.at) ==>
              Total(RunEngine(false, m, q).counts) <= Total(m.counts) + 1
    ensures !q.timeout.WhileRunning? ==>
              Total(RunEngine(false, m, q).counts) == Total(m.counts) + InTime(m.o.expiresAt, q.s.ended)
  {
    if q.timeout.WhileRunning? {
      var at, k := q.timeout.at, Moved(q);
      EngineInTime(m.o, q.s.engineMoves[..k], at);
      var m1 := Fail(false, Requests(false, m, q.s.engineMoves[..k], at).0, at);
      EngineInTime(m1.o, q.s.engineMoves[k..], q.s.ended);
      var (m2, fine) := Requests(false, m1, q.s.engineMoves[k..], q.s.ended);
      FinishUnvalidated(m2, fine, q.s);
    } else {
      EngineInTime(m.o, q.s.engineMoves, q.s.ended);
      var (m1, fine) := Requests(false, m, q.s.engineMoves, q.s.ended);
      FinishUnvalidated(m1, fine, q.s);
    }
  }

  /** The execution itself is within the deadline. */
  ghost predicate Runnable(expiresAt: Option<int>, s: Script) {
    Alive(expiresAt, s.started) && (s.resourced ==> Alive(expiresAt, s.ended))
  }

  /** A timeout overtakes the execution: it comes before the end of a dispatched ticket, and both are within the deadline. */
  ghost predicate Overtaken(expiresAt: Option<int>, q: QueuedCall) {
    && q.dispatched && Runnable(expiresAt, q.s)
    && (q.timeout.WhileWaiting? || (q.timeout.WhileRunning? && q.s.resourced)) && Alive(expiresAt, q.timeout.at)
  }

  lemma DispatchUnvalidated(m: Machine, q: QueuedCall)
    ensures var more := Total(Dispatch(false, m, q).counts) - Total(m.counts);
            && (!q.timeout.WhileRunning? ==> more == if Runnable(m.o.expiresAt, q.s) then 1 else 0)
            && (q.timeout.WhileRunning? && q.dispatched ==> (more <= 1 <==> !Overtaken(m.o.expiresAt, q)))
  {
    EngineUnvalidated(Try(false, m, Move(Executing, q.s.started)).0, q);
  }

  lemma RanUnvalidated(m: Machine, q: QueuedCall)
    requires Total(m.counts) == if q.timeout.WhileWaiting? && Alive(m.o.expiresAt, q.timeout.at) then 1 else 0
    ensures Total(Ran(false, m, q).counts) <= 1 <==> !Overtaken(m.o.expiresAt, q)
  {
    DispatchUnvalidated(m, q);
  }

  /** The state after the wait: a timeout within the deadline has been counted, and nothing else. */
  ghost predicate HasWaited(expiresAt: Option<int>, m: Machine, q: QueuedCall) {
    && m.o.expiresAt == expiresAt
    && Total(m.counts) == if q.timeout.WhileWaiting? && Alive(expiresAt, q.timeout.at) then 1 else 0
  }

  lemma AfterWaitUnvalidated(expiresAt: Option<int>, m: Machine, q: QueuedCall)
    requires HasWaited(expiresAt, m, q)
    ensures Total(AfterWait(false, m, q)) <= 1 <==> !Overtaken(expiresAt, q)
  {
    RanUnvalidated(m, q);
    SettledUnvalidated(Ran(false, m, q), q);
  }

  lemma WaitedUnvalidated(m: Machine, q: QueuedCall)
    requires m.counts == NONE
    ensures HasWaited(m.o.expiresAt, Waited(false, m, q), q)
  {
  }

  lemma SettledUnvalidated(ran: Machine, q: QueuedCall)
    ensures Total(Settled(false, ran, q)) <= 1 <==> Total(ran.counts) <= 1
  {
    if q.timeout.Afterwards? {
      FailCounts(false, ran, q.timeout.at);
    }
  }

  lemma CallUnvalidated(expiresAt: Option<int>, m: Machine, q: QueuedCall)
    requires m.counts == NONE && m.o.expiresAt == expiresAt
    ensures Total(Call(false, m, q)) <= 1 <==> !Overtaken(expiresAt, q)
  {
    WaitedUnvalidated(m, q);
    AfterWaitUnvalidated(expiresAt, Waited(false, m, q), q);
  }

  /** A queued call is counted at most once exactly when validation is on or no timeout overtakes its execution. */
  lemma QueuedCountedOnceIff(validate: bool, expiresAt: Option<int>, q: QueuedCall)
    ensures Total(ProcessQueued(validate, expiresAt, q)) <= 1 <==> validate || !Overtaken(expiresAt, q)
  {
    var m := Machine(Opportunity(Queued, expiresAt), NONE);
    if validate {
      CallValidated(m, q);
    } else {
      CallUnvalidated(expiresAt, m, q);
    }
  }

  // ---------- Queued calls against direct ones ----------

  /** Without a timeout a dispatched ticket counts what it would have counted without the wait. */
  lemma QueuedAsDirect(validate: bool, expiresAt: Option<int>, s: Script)
    ensures ProcessQueued(validate, expiresAt, QueuedCall(Never, true, s))
         == Execute(validate, Opportunity(Queued, expiresAt), s)
  {
    FailureHandler(validate, Opportunity(Queued, expiresAt), s.started, 1);
    var (o', fine) := Engine(validate, Opportunity(Executing, expiresAt), s.engineMoves, s.ended);
    FailureHandler(validate, o', s.ended, 2);
    FailureHandler(validate, o', s.ended, 1);
  }

  /** With validation on, a timeout while the call waits counts nothing and changes nothing: the ticket still runs. */
  lemma WaitingTimeoutIsLost(expiresAt: Option<int>, at: int, dispatched: bool, s: Script)
    ensures ProcessQueued(true, expiresAt, QueuedCall(WhileWaiting(at), dispatched, s))
         == ProcessQueued(true, expiresAt, QueuedCall(Never, dispatched, s))
  {
    var m := Machine(Opportunity(Queued, expiresAt), NONE);
    assert Waited(true, m, QueuedCall(WhileWaiting(at), dispatched, s)) == m;
  }

  /** A ticket that is never dispatched counts its call's timeout, if validation is off and the deadline not passed. */
  lemma NeverDispatched(validate: bool, expiresAt: Option<int>, q: QueuedCall)
    requires !q.dispatched
    ensures ProcessQueued(validate, expiresAt, q)
         == if (q.timeout.WhileWaiting? || q.timeout.Afterwards?) && !validate && Alive(expiresAt, q.timeout.at) then Counts(0, 1)
            else NONE
  {
    var m := Machine(Opportunity(Queued, expiresAt), NONE);
    var w := Waited(validate, m, q);
    assert ProcessQueued(validate, expiresAt, q) == AfterWait(validate, w, q) == Settled(validate, w, q) by {
      UndispatchedSettles(validate, w, q);
    }
    match q.timeout
    case WhileWaiting(at) => FailQueued(validate, expiresAt, at);
    case Afterwards(at) => FailQueued(validate, expiresAt, at);
    case _ =>
  }

  lemma UndispatchedSettles(validate: bool, m: Machine, q: QueuedCall)
    requires !q.dispatched
    ensures AfterWait(validate, m, q) == Settled(validate, m, q)
  {
    assert Ran(validate, m, q) == m;
  }

  lemma FailQueued(validate: bool, expiresAt: Option<int>, at: int)
    ensures Fail(validate, Machine(Opportunity(Queued, expiresAt), NONE), at).counts
         == if !validate && Alive(expiresAt, at) then Counts(0, 1) else NONE
  {
  }

  // ---------- What the breaker hears ----------

  /** What a call reports to the breaker. */
  function Reports(c: Counts, at: int): seq<CB.Event> {
    seq(c.successes, _ => CB.Succeeded(at)) + seq(c.failures, _ => CB.Failure(at))
  }

  ghost function AllReports(validate: bool, expiresAt: Option<int>, scripts: seq<Script>): seq<CB.Event> {
    if scripts == [] then []
    else
      var last := scripts[|scripts| - 1];
      AllReports(validate, expiresAt, scripts[..|scripts| - 1]) + Reports(Process(validate, expiresAt, last), last.ended)
  }

  /** A call turned away at the door, by a closed orchestrator or an open breaker. */
  lemma RejectedAtDoor(validate: bool, expiresAt: Option<int>, s: Script)
    requires !s.open && Alive(expiresAt, s.started)
    ensures Reports(Process(validate, expiresAt, s), s.ended) == if validate then [] else [CB.Failure(s.ended)]
  {
    assert Process(validate, expiresAt, s) == if validate then NONE else Counts(0, 1);
  }

  /** An open breaker that has been told of `n` more failures: it stays open, and each has armed a timer. */
  ghost predicate Fed(b: CB.Breaker, b': CB.Breaker, n: nat) {
    && b'.active && b'.failures == b.failures + n && b'.issued == b.issued + n
    && forall id :: b.issued <= id < b'.issued ==> id in b'.timers
  }

  lemma FedOnce(cfg: CB.Config, b: CB.Breaker, b': CB.Breaker, n: nat, at: int)
    requires cfg.enabled && b.failures >= cfg.threshold && Fed(b, b', n)
    ensures Fed(b, CB.Next(cfg, b', CB.Failure(at)), n + 1)
  {
  }

  /**
   * Calls turned away at the door leave the breaker alone when validation is on. When it is off each of them counts
   * as a failure and arms one more recovery timer of the open breaker.
   */
  lemma {:induction false} RefusalsFeedBreaker(validate: bool, expiresAt: Option<int>, cfg: CB.Config, b: CB.Breaker,
                                               scripts: seq<Script>)
    requires cfg.enabled && b.active && b.failures >= cfg.threshold
    requires forall i :: 0 <= i < |scripts| ==> !scripts[i].open && Alive(expiresAt, scripts[i].started)
    ensures var b' := CB.Run(cfg, b, AllReports(validate, expiresAt, scripts));
            if validate then b' == b else Fed(b, b', |scripts|)
  {
    if scripts != [] {
      var n := |scripts| - 1;
      var before, events := AllReports(validate, expiresAt, scripts[..n]), AllReports(validate, expiresAt, scripts);
      RefusalsFeedBreaker(validate, expiresAt, cfg, b, scripts[..n]);
      RejectedAtDoor(validate, expiresAt, scripts[n]);
      if validate {
        assert events == before;
      } else {
        assert events == before + [CB.Failure(scripts[n].ended)] && events[..|events| - 1] == before;
        FedOnce(cfg, b, CB.Run(cfg, b, before), n, scripts[n].ended);
      }
    }
  }

  /**
   * Put together: as many executions as the threshold allows, every one of them successful, open the breaker,
   * when the engines leave the state machine alone.
   */
  lemma {:induction false} SuccessesOpenBreaker(cfg: CB.Config, b: CB.Breaker, scripts: seq<Script>)
    requires cfg.enabled && cfg.threshold >= 1
    requires forall i :: 0 <= i < |scripts| ==>
               Runs(None, scripts[i]) && scripts[i].engineMoves == [] && scripts[i].engineSucceeds && !scripts[i].engineThrows
    ensures var b' := CB.Run(cfg, b, AllReports(true, None, scripts));
            && b'.failures == b.failures + |scripts|
            && (|scripts| >= cfg.threshold ==> b'.active)
  {
    if scripts != [] {
      var n := |scripts| - 1;
      var front, s := scripts[..n], scripts[n];
      SuccessesOpenBreaker(cfg, b, front);
      SuccessCountedAsFailure(None, s);
      var events := AllReports(true, None, scripts);
      assert Reports(Counts(0, 1), s.ended) == [CB.Failure(s.ended)];
      assert events == AllReports(true, None, front) + [CB.Failure(s.ended)];
      assert events[..|events| - 1] == AllReports(true, None, front);
    }
  }
}
