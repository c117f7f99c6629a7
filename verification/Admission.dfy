/**
 * Admitting opportunities into execution slots and the waiting queue. The capacity check and the registration
 * that follows it are separate steps: between them the code awaits gas and duration estimates.
 */
module Admission {
  import opened Numbers
  import opened StableSorting
  import opened PriorityQueues

  type Ticket = nat

  datatype Limits = Limits(maxConcurrentExecutions: nat, queueMaxSize: nat)

  /** How a ticket left the queue. */
  datatype Exit = Dispatched | Expired | Cleared

  /**
   * `starting` and `enqueuing` have passed the capacity check but are not registered yet. `entered` and `left`
   * record the queue's history.
   */
  datatype Load = Load(queue: seq<Entry<Ticket>>, active: set<Ticket>, starting: set<Ticket>,
                       enqueuing: map<Ticket, int>, issued: set<Ticket>,
                       entered: seq<Ticket>, left: seq<(Ticket, Exit)>)

  const IDLE := Load([], {}, {}, map[], {}, [], [])

  datatype Step =
    | Admit(t: Ticket, weight: int)
    | Enqueued(t: Ticket)
    | Registered(t: Ticket)
    | StartFailed(t: Ticket)
    | Done(t: Ticket)
    | Tick(expired: bool)
    | Clear

  function Available(lim: Limits, s: Load): int {
    if lim.maxConcurrentExecutions > |s.active| then lim.maxConcurrentExecutions - |s.active| else 0
  }

  ghost predicate Enabled(s: Load, step: Step) {
    match step
    case Admit(t, _) => t !in s.issued
    case Enqueued(t) => t in s.enqueuing
    case Registered(t) => t in s.starting
    case StartFailed(t) => t in s.starting
    case Done(t) => t in s.active
    case Tick(_) => true
    case Clear => true
  }

  function Exits(queue: seq<Entry<Ticket>>, why: Exit): seq<(Ticket, Exit)> {
    seq(|queue|, i requires 0 <= i < |queue| => (queue[i].item, why))
  }

  function TryAdmit(lim: Limits, s: Load, t: Ticket, weight: int): Load {
    var s := s.(issued := s.issued + {t});
    if Available(lim, s) <= 0 && |s.queue| >= lim.queueMaxSize then s
    else if Available(lim, s) > 0 then s.(starting := s.starting + {t})
    else s.(enqueuing := s.enqueuing[t := weight])
  }

  function TakeNext(lim: Limits, s: Load, expired: bool): Load {
    if Available(lim, s) <= 0 || s.queue == [] then s
    else
      var t := s.queue[0].item;
      var s := s.(queue := s.queue[1..], left := s.left + [(t, if expired then Expired else Dispatched)]);
      if expired then s else s.(starting := s.starting + {t})
  }

  function Next(lim: Limits, s: Load, step: Step): Load {
    match step
    case Admit(t, weight) => TryAdmit(lim, s, t, weight)
    case Enqueued(t) =>
      if t in s.enqueuing then
        s.(queue := Insert(s.queue, Entry(t, s.enqueuing[t]), Priority), enqueuing := s.enqueuing - {t},
           entered := s.entered + [t])
      else s
    case Registered(t) => s.(active := s.active + {t}, starting := s.starting - {t})
    case StartFailed(t) => s.(starting := s.starting - {t})
    case Done(t) => s.(active := s.active - {t})
    case Tick(expired) => TakeNext(lim, s, expired)
    case Clear => s.(queue := [], left := s.left + Exits(s.queue, Cleared))
  }

  function Run(lim: Limits, steps: seq<Step>): Load {
    if steps == [] then IDLE else Next(lim, Run(lim, steps[..|steps| - 1]), steps[|steps| - 1])
  }

  ghost predicate Legal(lim: Limits, steps: seq<Step>) {
    steps != [] ==>
      var front := steps[..|steps| - 1];
      Legal(lim, front) && Enabled(Run(lim, front), steps[|steps| - 1])
  }

  lemma Extend(lim: Limits, steps: seq<Step>, step: Step)
    requires Legal(lim, steps) && Enabled(Run(lim, steps), step)
    ensures Legal(lim, steps + [step]) && Run(lim, steps + [step]) == Next(lim, Run(lim, steps), step)
  {
    assert (steps + [step])[..|steps|] == steps;
  }

  // ---------- Every ticket leaves the queue once ----------

  ghost function Tickets(queue: seq<Entry<Ticket>>): (ts: seq<Ticket>)
    ensures |ts| == |queue|
  {
    seq(|queue|, i requires 0 <= i < |queue| => queue[i].item)
  }

  ghost function LeftTickets(left: seq<(Ticket, Exit)>): (ts: seq<Ticket>)
    ensures |ts| == |left|
  {
    seq(|left|, i requires 0 <= i < |left| => left[i].0)
  }

  ghost predicate Conserved(s: Load) {
    && multiset(s.entered) == multiset(Tickets(s.queue)) + multiset(LeftTickets(s.left))
    && (forall t :: multiset(s.entered)[t] <= 1)
    && (forall t :: t in s.entered ==> t in s.issued && t !in s.enqueuing)
    && s.enqueuing.Keys <= s.issued
    && Descending(s.queue, Priority)
  }

  lemma TicketsOfInsert(queue: seq<Entry<Ticket>>, e: Entry<Ticket>)
    ensures multiset(Tickets(Insert(queue, e, Priority))) == multiset(Tickets(queue)) + multiset{e.item}
  {
    var i := InsertSplit(queue, e, Priority);
    assert Tickets(Insert(queue, e, Priority)) == Tickets(queue)[..i] + [e.item] + Tickets(queue)[i..];
    assert Tickets(queue) == Tickets(queue)[..i] + Tickets(queue)[i..];
  }

  lemma EnqueuedConserves(lim: Limits, s: Load, t: Ticket)
    requires Conserved(s) && t in s.enqueuing
    ensures Conserved(Next(lim, s, Enqueued(t)))
  {
    var e := Entry(t, s.enqueuing[t]);
    TicketsOfInsert(s.queue, e);
    InsertKeepsDescending(s.queue, e, Priority);
    assert multiset(s.entered)[t] == 0 by { assert t !in s.entered; }
  }

  lemma TakeConserves(lim: Limits, s: Load, expired: bool)
    requires Conserved(s)
    ensures Conserved(TakeNext(lim, s, expired))
  {
    if Available(lim, s) > 0 && s.queue != [] {
      var t := s.queue[0].item;
      var s' := TakeNext(lim, s, expired);
      assert Tickets(s.queue) == [t] + Tickets(s.queue[1..]);
      assert LeftTickets(s'.left) == LeftTickets(s.left) + [t];
    }
  }

  lemma ClearConserves(lim: Limits, s: Load)
    requires Conserved(s)
    ensures Conserved(Next(lim, s, Clear))
  {
    var s' := Next(lim, s, Clear);
    assert LeftTickets(s'.left) == LeftTickets(s.left) + Tickets(s.queue);
  }

  lemma AdmitConserves(lim: Limits, s: Load, t: Ticket, weight: int)
    requires Conserved(s) && t !in s.issued
    ensures Conserved(Next(lim, s, Admit(t, weight)))
  {
    assert t !in s.entered;
  }

  lemma StepConserves(lim: Limits, s: Load, step: Step)
    requires Conserved(s) && Enabled(s, step)
    ensures Conserved(Next(lim, s, step))
  {
    match step
    case Admit(t, weight) => AdmitConserves(lim, s, t, weight);
    case Enqueued(t) => EnqueuedConserves(lim, s, t);
    case Tick(expired) => TakeConserves(lim, s, expired);
    case Clear => ClearConserves(lim, s);
    case _ =>
  }

  lemma {:induction false} RunConserves(lim: Limits, steps: seq<Step>)
    requires Legal(lim, steps)
    ensures Conserved(Run(lim, steps))
  {
    if steps != [] {
      RunConserves(lim, steps[..|steps| - 1]);
      StepConserves(lim, Run(lim, steps[..|steps| - 1]), steps[|steps| - 1]);
    }
  }

  /** In every reachable state, a ticket that entered the queue is still in it or has left it exactly once. */
  lemma EnteredTicketLeavesOnce(lim: Limits, steps: seq<Step>, t: Ticket)
    requires Legal(lim, steps) && t in Run(lim, steps).entered
    ensures var s := Run(lim, steps);
            multiset(Tickets(s.queue))[t] + multiset(LeftTickets(s.left))[t] == 1
  {
    RunConserves(lim, steps);
    var s := Run(lim, steps);
    assert multiset(s.entered)[t] >= 1;
  }

  /** The queue is served by priority: what is taken has the highest weight of all that wait. */
  lemma TakesHighest(lim: Limits, steps: seq<Step>, expired: bool)
    requires Legal(lim, steps)
    ensures var s := Run(lim, steps);
            var s' := TakeNext(lim, s, expired);
            s' != s ==> s.queue != [] && s'.left == s.left + [(s.queue[0].item, if expired then Expired else Dispatched)]
                        && forall e :: e in s.queue ==> e.priority <= s.queue[0].priority
  {
    RunConserves(lim, steps);
    var s := Run(lim, steps);
    forall e | e in s.queue
      ensures e.priority <= s.queue[0].priority
    {
      var i :| 0 <= i < |s.queue| && s.queue[i] == e;
      assert i == 0 || Priority(s.queue[0]) >= Priority(s.queue[i]);
    }
  }

  // ---------- The limits ----------

  /** At most `w` admissions are ever between the check and the registration. */
  ghost predicate Overlap(lim: Limits, steps: seq<Step>, w: nat) {
    && |Run(lim, steps).starting| <= w && |Run(lim, steps).enqueuing| <= w
    && (steps != [] ==> Overlap(lim, steps[..|steps| - 1], w))
  }

  ghost predicate Separate(s: Load) {
    && s.active !! s.starting && s.active <= s.issued && s.starting <= s.issued
    && s.enqueuing.Keys <= s.issued && s.enqueuing.Keys !! s.starting && s.enqueuing.Keys !! s.active
    && (forall e :: e in s.queue ==> e.item in s.issued && e.item !in s.active && e.item !in s.starting && e.item !in s.enqueuing)
    && DistinctItems(s.queue)
  }

  ghost predicate DistinctItems(queue: seq<Entry<Ticket>>) {
    forall i, j :: 0 <= i < j < |queue| ==> queue[i].item != queue[j].item
  }

  lemma InsertMembers(queue: seq<Entry<Ticket>>, e: Entry<Ticket>)
    requires (forall x :: x in queue ==> x.item != e.item) && DistinctItems(queue)
    ensures var q := Insert(queue, e, Priority);
            |q| == |queue| + 1 && (forall x :: x in q <==> x in queue || x == e) && DistinctItems(q)
  {
    var k := InsertSplit(queue, e, Priority);
    var q := Insert(queue, e, Priority);
    assert queue == queue[..k] + queue[k..];
    StillDistinct(queue, e, k);
  }

  lemma StillDistinct(queue: seq<Entry<Ticket>>, e: Entry<Ticket>, k: nat)
    requires k <= |queue| && (forall x :: x in queue ==> x.item != e.item) && DistinctItems(queue)
    ensures DistinctItems(queue[..k] + [e] + queue[k..])
  {
    var q := queue[..k] + [e] + queue[k..];
    forall i, j | 0 <= i < j < |q|
      ensures q[i].item != q[j].item
    {
      assert q[i] == if i < k then queue[i] else if i == k then e else queue[i - 1];
      assert q[j] == if j < k then queue[j] else if j == k then e else queue[j - 1];
    }
  }

  lemma {:induction false} RunSeparate(lim: Limits, steps: seq<Step>)
    requires Legal(lim, steps)
    ensures Separate(Run(lim, steps))
  {
    if steps != [] {
      RunSeparate(lim, steps[..|steps| - 1]);
      var s, step := Run(lim, steps[..|steps| - 1]), steps[|steps| - 1];
      match step
      case Enqueued(t) => InsertMembers(s.queue, Entry(t, s.enqueuing[t]));
      case _ =>
    }
  }

  /** One step grows running and starting executions together only while a slot is free. */
  lemma ExecutionSizes(lim: Limits, s: Load, step: Step)
    requires Separate(s) && Enabled(s, step)
    ensures var s' := Next(lim, s, step);
            && |s'.active| + |s'.starting|
               <= (if |s.active| < lim.maxConcurrentExecutions then
                     |s.active| + |s'.starting| + (if step.Registered? then 1 else 0)
                   else |s.active| + |s.starting|)
            && (step.Registered? ==> |s'.active| + |s'.starting| == |s.active| + |s.starting|)
  {
    match step
    case Admit(t, weight) => assert TryAdmit(lim, s, t, weight).active == s.active;
    case Tick(expired) => assert TakeNext(lim, s, expired).active == s.active;
    case Registered(t) => assert |s.active + {t}| == |s.active| + 1 && |s.starting - {t}| == |s.starting| - 1;
    case _ =>
  }

  /** One step grows queued and enqueuing tickets together only while a queue place is free. */
  lemma QueueSizes(lim: Limits, s: Load, step: Step)
    requires Separate(s) && Enabled(s, step)
    ensures var s' := Next(lim, s, step);
            && |s'.queue| + |s'.enqueuing|
               <= (if |s.queue| < lim.queueMaxSize then |s.queue| + |s'.enqueuing| + (if step.Enqueued? then 1 else 0)
                   else |s.queue| + |s.enqueuing|)
            && (step.Enqueued? ==> |s'.queue| + |s'.enqueuing| == |s.queue| + |s.enqueuing|)
  {
    if step.Enqueued? {
      InsertMembers(s.queue, Entry(step.t, s.enqueuing[step.t]));
      assert (s.enqueuing - {step.t}).Keys == s.enqueuing.Keys - {step.t};
      assert |s.enqueuing - {step.t}| == |(s.enqueuing - {step.t}).Keys|;
    }
  }

  /**
   * Over every run in which at most `w` admissions overlap, running and starting executions together exceed the
   * limit by at most w - 1, and so do queued and enqueuing tickets.
   */
  lemma {:induction false} CommittedWithin(lim: Limits, steps: seq<Step>, w: nat)
    requires Legal(lim, steps) && w >= 1 && Overlap(lim, steps, w)
    ensures var s := Run(lim, steps);
            && |s.active| + |s.starting| <= lim.maxConcurrentExecutions + w - 1
            && |s.queue| + |s.enqueuing| <= lim.queueMaxSize + w - 1
  {
    if steps != [] {
      CommittedWithin(lim, steps[..|steps| - 1], w);
      RunSeparate(lim, steps[..|steps| - 1]);
      ExecutionSizes(lim, Run(lim, steps[..|steps| - 1]), steps[|steps| - 1]);
      QueueSizes(lim, Run(lim, steps[..|steps| - 1]), steps[|steps| - 1]);
    }
  }

  /** Two checks pass before either execution is registered. */
  const RACE := [Admit(0, 1), Admit(1, 1), Registered(0), Registered(1)]

  lemma OneMore(lim: Limits, steps: seq<Step>, k: nat, w: nat)
    requires k < |steps|
    ensures Run(lim, steps[..k + 1]) == Next(lim, Run(lim, steps[..k]), steps[k])
    ensures Legal(lim, steps[..k + 1]) <==> Legal(lim, steps[..k]) && Enabled(Run(lim, steps[..k]), steps[k])
    ensures var s := Run(lim, steps[..k + 1]);
            Overlap(lim, steps[..k + 1], w) <==> Overlap(lim, steps[..k], w) && |s.starting| <= w && |s.enqueuing| <= w
  {
    assert steps[..k + 1][..k] == steps[..k];
  }

  lemma RaceExceedsLimit()
    ensures var lim := Limits(1, 0);
            Legal(lim, RACE) && Overlap(lim, RACE, 2) && |Run(lim, RACE).active| == 2
  {
    RaceRegisters();
    OneMore(Limits(1, 0), RACE, 3, 2);
    assert RACE[..4] == RACE;
  }

  lemma RaceRegisters()
    ensures var lim := Limits(1, 0);
            && Legal(lim, RACE[..3]) && Overlap(lim, RACE[..3], 2)
            && Run(lim, RACE[..3]) == Load([], {0}, {1}, map[], {0, 1}, [], [])
  {
    RaceAdmits();
    OneMore(Limits(1, 0), RACE, 2, 2);
  }

  lemma RaceAdmits()
    ensures var lim := Limits(1, 0);
            && Legal(lim, RACE[..2]) && Overlap(lim, RACE[..2], 2)
            && Run(lim, RACE[..2]) == Load([], {}, {0, 1}, map[], {0, 1}, [], [])
  {
    var lim := Limits(1, 0);
    OneMore(lim, RACE, 0, 2);
    OneMore(lim, RACE, 1, 2);
    assert RACE[..0] == [];
    assert Run(lim, RACE[..1]) == Load([], {}, {0}, map[], {0}, [], []);
  }

  lemma {:induction false} OverlapWeaker(lim: Limits, steps: seq<Step>, w: nat, w': nat)
    requires Overlap(lim, steps, w) && w <= w'
    ensures Overlap(lim, steps, w')
  {
    if steps != [] {
      OverlapWeaker(lim, steps[..|steps| - 1], w, w');
    }
  }

  // ---------- The widest overlap of a run ----------

  /** The most admissions that were ever between check and registration, and at least one. */
  ghost function Peak(lim: Limits, steps: seq<Step>): (w: nat)
    ensures w >= 1
  {
    var here := Max(1, Max(|Run(lim, steps).starting|, |Run(lim, steps).enqueuing|));
    if steps == [] then here else Max(here, Peak(lim, steps[..|steps| - 1]))
  }

  lemma {:induction false} OverlapUpToPeak(lim: Limits, steps: seq<Step>)
    ensures Overlap(lim, steps, Peak(lim, steps))
  {
    if steps != [] {
      var front := steps[..|steps| - 1];
      OverlapUpToPeak(lim, front);
      OverlapWeaker(lim, front, Peak(lim, front), Peak(lim, steps));
    }
  }

  // ---------- Runs as values ----------

  /** A legal run with the load it ends in. */
  datatype Log = Log(lim: Limits, steps: seq<Step>, load: Load)

  /**
   * Names the length of a run. A log unrolls its run only where the length is named, which keeps the methods that
   * merely carry a log cheap to verify.
   */
  ghost predicate Length(n: nat) { true }

  ghost predicate IsHistory(h: Log) {
    forall n | Length(n) && n == |h.steps| :: Legal(h.lim, h.steps) && h.load == Run(h.lim, h.steps)
  }

  lemma HistoryIsRun(h: History)
    ensures Legal(h.lim, h.steps) && h.load == Run(h.lim, h.steps)
  {
    assert Length(|h.steps|);
  }

  type History = h: Log | IsHistory(h)
    ghost witness Log(Limits(0, 0), [], IDLE)

  /** Executions and queue keep their limits but for the widest overlap of admissions in the run. */
  ghost predicate Within(h: Log) {
    forall n | Length(n) && n == |h.steps| ::
      && |h.load.active| + |h.load.starting| <= h.lim.maxConcurrentExecutions + Peak(h.lim, h.steps) - 1
      && |h.load.queue| + |h.load.enqueuing| <= h.lim.queueMaxSize + Peak(h.lim, h.steps) - 1
  }

  lemma HistoryLaws(h: History)
    ensures Within(h) && Conserved(h.load)
  {
    HistoryIsRun(h);
    OverlapUpToPeak(h.lim, h.steps);
    CommittedWithin(h.lim, h.steps, Peak(h.lim, h.steps));
    RunConserves(h.lim, h.steps);
  }

  ghost function NoSteps(lim: Limits): (h: History)
    ensures h.load == IDLE && Within(h)
  {
    HistoryLaws(Log(lim, [], IDLE));
    Log(lim, [], IDLE)
  }

  ghost function Push(h: History, step: Step): (h': History)
    requires Enabled(h.load, step)
    ensures h'.lim == h.lim && h'.steps == h.steps + [step] && h'.load == Next(h.lim, h.load, step)
    ensures Within(h')
  {
    HistoryIsRun(h);
    Extend(h.lim, h.steps, step);
    var h' := Log(h.lim, h.steps + [step], Next(h.lim, h.load, step));
    HistoryLaws(h');
    h'
  }

  /** The configured limits hold for every configuration and run exactly when admissions do not overlap. */
  lemma LimitsHoldIff(w: nat)
    requires w >= 1
    ensures (forall lim, steps | Legal(lim, steps) && Overlap(lim, steps, w) ::
               |Run(lim, steps).active| <= lim.maxConcurrentExecutions && |Run(lim, steps).queue| <= lim.queueMaxSize)
       <==> w == 1
  {
    if w == 1 {
      forall lim, steps | Legal(lim, steps) && Overlap(lim, steps, 1)
        ensures |Run(lim, steps).active| <= lim.maxConcurrentExecutions && |Run(lim, steps).queue| <= lim.queueMaxSize
      {
        CommittedWithin(lim, steps, 1);
      }
    } else {
      RaceExceedsLimit();
      OverlapWeaker(Limits(1, 0), RACE, 2, w);
    }
  }
}
