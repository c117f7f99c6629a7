/**
 * The life of submitted bundles: inclusion, misses, resubmission and expiry. Handlers visit one bundle at a
 * time and await the relays in between, so one resubmission is two steps: it captures the bundle, and later
 * settles the outcome on whatever the maps hold by then.
 */
module BundleLifecycle {

  type Id = string

  datatype Config = Config(maxResubmissions: int, bundleTimeoutMs: int)

  datatype Bundle = Bundle(targetBlock: int, createdAt: int)

  /** Why a bundle left the active map: the two emitted events, and the silent age-out. */
  datatype Ending = Included | Failed | Expired

  datatype Core = Core(active: map<Id, Bundle>, queue: map<Id, int>, endings: seq<(Id, Ending)>)

  function Ended(c: Core, id: Id, why: Ending): Core {
    c.(active := c.active - {id}, endings := c.endings + [(id, why)])
  }

  function Miss(cfg: Config, c: Core, id: Id): Core {
    var count := if id in c.queue then c.queue[id] else 0;
    if count < cfg.maxResubmissions then c.(queue := c.queue[id := count + 1])
    else Ended(c, id, Failed).(queue := c.queue - {id})
  }

  /** One bundle in the block handler; a bundle that is gone is not visited. */
  function CheckOne(cfg: Config, c: Core, id: Id, block: int, included: bool): Core {
    if id !in c.active || c.active[id].targetBlock > block then c
    else if included then Ended(c, id, Included)
    else if block > c.active[id].targetBlock + 2 then Miss(cfg, c, id)
    else c
  }

  /** What a resubmission read before it awaited the relays; `nr` tells apart two that read the same. */
  datatype Capture = Capture(id: Id, bundle: Bundle, attempt: int, block: int, nr: nat)

  function Settle(cfg: Config, c: Core, r: Capture, accepted: bool): Core {
    if accepted then
      c.(active := c.active[r.id := r.bundle.(targetBlock := r.block + 1)], queue := c.queue - {r.id})
    else if r.attempt + 1 >= cfg.maxResubmissions then Ended(c, r.id, Failed).(queue := c.queue - {r.id})
    else c.(queue := c.queue[r.id := r.attempt + 1])
  }

  function ExpireOne(cfg: Config, c: Core, id: Id, now: int): Core {
    if id in c.active && now - c.active[id].createdAt > cfg.bundleTimeoutMs then Ended(c, id, Expired) else c
  }

  // ---------- The handlers, each run to completion ----------

  function CheckAll(cfg: Config, c: Core, order: seq<Id>, block: int, landed: set<Id>): Core {
    if order == [] then c
    else
      var id := order[|order| - 1];
      CheckOne(cfg, CheckAll(cfg, c, order[..|order| - 1], block, landed), id, block, id in landed)
  }

  function ResubmitOne(cfg: Config, c: Core, id: Id, block: int, accepted: bool): Core {
    if id in c.queue && id in c.active then
      Settle(cfg, c, Capture(id, c.active[id], c.queue[id], block, 0), accepted)
    else c
  }

  function ResubmitAll(cfg: Config, c: Core, order: seq<Id>, block: int, accepted: set<Id>): Core {
    if order == [] then c
    else
      var id := order[|order| - 1];
      ResubmitOne(cfg, ResubmitAll(cfg, c, order[..|order| - 1], block, accepted), id, block, id in accepted)
  }

  function ExpireAll(cfg: Config, c: Core, order: seq<Id>, now: int): Core {
    if order == [] then c
    else ExpireOne(cfg, ExpireAll(cfg, c, order[..|order| - 1], now), order[|order| - 1], now)
  }

  /** The visiting order of a loop over map keys. */
  ghost predicate Visits(order: seq<Id>, keys: set<Id>) {
    (forall id :: id in order <==> id in keys) && forall i, j :: 0 <= i < j < |order| ==> order[i] != order[j]
  }

  class BundleSubmitter {
    const config: Config
    var activeBundles: map<Id, Bundle>
    var resubmissionQueue: map<Id, int>
    ghost var endings: seq<(Id, Ending)>

    ghost function View(): Core
      reads this
    {
      Core(activeBundles, resubmissionQueue, endings)
    }

    constructor (config: Config)
      ensures this.config == config && View() == Core(map[], map[], [])
    {
      this.config := config;
      activeBundles, resubmissionQueue, endings := map[], map[], [];
    }

    method Track(id: Id, targetBlock: int, now: int)
      modifies this
      ensures View() == old(View()).(active := old(activeBundles)[id := Bundle(targetBlock, now)])
    {
      activeBundles := activeBundles[id := Bundle(targetBlock, now)];
    }

    method HandleBundleInclusion(id: Id)
      modifies this
      ensures View() == Ended(old(View()), id, Included)
    {
      activeBundles := activeBundles - {id};
      endings := endings + [(id, Included)];
    }

    method HandleBundleMiss(id: Id)
      modifies this
      ensures View() == Miss(config, old(View()), id)
    {
      var resubmissionCount := if id in resubmissionQueue then resubmissionQueue[id] else 0;
      if resubmissionCount < config.maxResubmissions {
        resubmissionQueue := resubmissionQueue[id := resubmissionCount + 1];
      } else {
        activeBundles := activeBundles - {id};
        resubmissionQueue := resubmissionQueue - {id};
        endings := endings + [(id, Failed)];
      }
    }

    method CheckBundleInclusion(blockNumber: int, landed: set<Id>) returns (ghost order: seq<Id>)
      modifies this
      ensures Visits(order, old(activeBundles).Keys)
      ensures View() == CheckAll(config, old(View()), order, blockNumber, landed)
    {
      var left := activeBundles.Keys;
      order := [];
      while left != {}
        invariant left <= old(activeBundles).Keys
        invariant Visits(order, old(activeBundles).Keys - left)
        invariant View() == CheckAll(config, old(View()), order, blockNumber, landed)
        decreases left
      {
        var id :| id in left;
        if id in activeBundles && activeBundles[id].targetBlock <= blockNumber {
          if id in landed {
            HandleBundleInclusion(id);
          } else if blockNumber > activeBundles[id].targetBlock + 2 {
            HandleBundleMiss(id);
          }
        }
        ghost var before := order;
        order := order + [id];
        assert order[..|order| - 1] == before;
        left := left - {id};
      }
    }

    method HandleResubmissions(currentBlock: int, accepted: set<Id>) returns (ghost order: seq<Id>)
      modifies this
      ensures Visits(order, old(resubmissionQueue).Keys)
      ensures View() == ResubmitAll(config, old(View()), order, currentBlock, accepted)
    {
      var left := resubmissionQueue.Keys;
      order := [];
      while left != {}
        invariant left <= old(resubmissionQueue).Keys
        invariant Visits(order, old(resubmissionQueue).Keys - left)
        invariant View() == ResubmitAll(config, old(View()), order, currentBlock, accepted)
        decreases left
      {
        var id :| id in left;
        if id in resubmissionQueue && id in activeBundles {
          var attempt := resubmissionQueue[id];
          if id in accepted {
            activeBundles := activeBundles[id := activeBundles[id].(targetBlock := currentBlock + 1)];
            resubmissionQueue := resubmissionQueue - {id};
          } else if attempt + 1 >= config.maxResubmissions {
            activeBundles := activeBundles - {id};
            resubmissionQueue := resubmissionQueue - {id};
            endings := endings + [(id, Failed)];
          } else {
            resubmissionQueue := resubmissionQueue[id := attempt + 1];
          }
        }
        ghost var before := order;
        order := order + [id];
        assert order[..|order| - 1] == before;
        left := left - {id};
      }
    }

    method CleanupOldBundles(now: int) returns (ghost order: seq<Id>)
      modifies this
      ensures Visits(order, old(activeBundles).Keys)
      ensures View() == ExpireAll(config, old(View()), order, now)
    {
      var left := activeBundles.Keys;
      order := [];
      while left != {}
        invariant left <= old(activeBundles).Keys
        invariant Visits(order, old(activeBundles).Keys - left)
        invariant View() == ExpireAll(config, old(View()), order, now)
        decreases left
      {
        var id :| id in left;
        if id in activeBundles && now - activeBundles[id].createdAt > config.bundleTimeoutMs {
          activeBundles := activeBundles - {id};
          endings := endings + [(id, Expired)];
        }
        ghost var before := order;
        order := order + [id];
        assert order[..|order| - 1] == before;
        left := left - {id};
      }
    }
  }

  // ---------- Interleaved runs ----------

  datatype State = State(core: Core, inFlight: set<Capture>, issued: set<Id>, height: int)

  datatype Step =
    | Submit(id: Id, target: int, now: int)
    | NewBlock(height: int)
    | Check(id: Id, block: int, included: bool)
    | Begin(id: Id, nr: nat)
    | Finish(r: Capture, accepted: bool)
    | Expire(id: Id, now: int)

  const INITIAL := State(Core(map[], map[], []), {}, {}, 0)

  /** Ids are fresh, the chain does not shrink, a handler sees blocks that exist, and only begun work finishes. */
  ghost predicate Enabled(s: State, step: Step) {
    match step
    case Submit(id, _, _) => id !in s.issued
    case NewBlock(h) => h >= s.height
    case Check(_, block, _) => block <= s.height
    case Begin(id, nr) => id in s.core.queue && id in s.core.active && forall r :: r in s.inFlight ==> r.nr != nr
    case Finish(r, _) => r in s.inFlight
    case Expire(_, _) => true
  }

  function Next(cfg: Config, s: State, step: Step): State {
    match step
    case Submit(id, target, now) =>
      s.(core := s.core.(active := s.core.active[id := Bundle(target, now)]), issued := s.issued + {id})
    case NewBlock(h) => s.(height := h)
    case Check(id, block, included) => s.(core := CheckOne(cfg, s.core, id, block, included))
    case Begin(id, nr) =>
      if id in s.core.queue && id in s.core.active then
        s.(inFlight := s.inFlight + {Capture(id, s.core.active[id], s.core.queue[id], s.height, nr)})
      else s
    case Finish(r, accepted) => s.(core := Settle(cfg, s.core, r, accepted), inFlight := s.inFlight - {r})
    case Expire(id, now) => s.(core := ExpireOne(cfg, s.core, id, now))
  }

  function Exec(cfg: Config, s: State, steps: seq<Step>): State {
    if steps == [] then s else Next(cfg, Exec(cfg, s, steps[..|steps| - 1]), steps[|steps| - 1])
  }

  ghost predicate Legal(cfg: Config, s: State, steps: seq<Step>) {
    steps != [] ==>
      var front := steps[..|steps| - 1];
      Legal(cfg, s, front) && Enabled(Exec(cfg, s, front), steps[|steps| - 1])
  }

  /** The promise: a bundle ends at most once, and one that has ended is not active. */
  ghost predicate EndsOnce(c: Core) {
    && (forall i, j :: 0 <= i < j < |c.endings| ==> c.endings[i].0 != c.endings[j].0)
    && (forall i :: 0 <= i < |c.endings| ==> c.endings[i].0 !in c.active)
  }

  /** A settlement that writes to a bundle no longer in the active map. */
  ghost predicate Late(cfg: Config, s: State, step: Step) {
    step.Finish? && step.r.id !in s.core.active && (step.accepted || step.r.attempt + 1 >= cfg.maxResubmissions)
  }

  /** Bookkeeping that holds in every reachable state, late settlements or not. */
  ghost predicate Tracked(cfg: Config, s: State) {
    && s.core.active.Keys <= s.issued && s.core.queue.Keys <= s.issued
    && (forall r :: r in s.inFlight ==> r.id in s.issued && 1 <= r.attempt <= cfg.maxResubmissions)
    && (forall id :: id in s.issued && id !in s.core.active ==> exists i :: 0 <= i < |s.core.endings| && s.core.endings[i].0 == id)
    && (forall i :: 0 <= i < |s.core.endings| ==> s.core.endings[i].0 in s.issued)
    && (forall id :: id in s.core.queue ==> 1 <= s.core.queue[id] <= cfg.maxResubmissions)
  }

  lemma EndedIsTracked(c: Core, id: Id, why: Ending, other: Id)
    requires other == id || exists i :: 0 <= i < |c.endings| && c.endings[i].0 == other
    ensures var e := Ended(c, id, why).endings; exists i :: 0 <= i < |e| && e[i].0 == other
  {
    var e := Ended(c, id, why).endings;
    if other == id {
      assert e[|e| - 1].0 == other;
    } else {
      var i :| 0 <= i < |c.endings| && c.endings[i].0 == other;
      assert e[i].0 == other;
    }
  }

  /** Ending a bundle, with or without its queue entry, keeps the books. */
  lemma EndKeepsTracked(cfg: Config, s: State, id: Id, why: Ending, s': State)
    requires Tracked(cfg, s) && id in s.issued
    requires s'.issued == s.issued && s'.inFlight <= s.inFlight && s'.core.queue.Keys <= s.core.queue.Keys
    requires s'.core.active == s.core.active - {id} && s'.core.endings == s.core.endings + [(id, why)]
    requires forall other :: other in s'.core.queue ==> s'.core.queue[other] == s.core.queue[other]
    ensures Tracked(cfg, s')
  {
    forall other | other in s'.issued && other !in s'.core.active
      ensures exists i :: 0 <= i < |s'.core.endings| && s'.core.endings[i].0 == other
    {
      EndedIsTracked(s.core, id, why, other);
    }
  }

  lemma CheckTracked(cfg: Config, s: State, id: Id, block: int, included: bool)
    requires Tracked(cfg, s)
    ensures Tracked(cfg, Next(cfg, s, Check(id, block, included)))
  {
    var s' := Next(cfg, s, Check(id, block, included));
    if s'.core.endings != s.core.endings {
      EndKeepsTracked(cfg, s, id, if included then Included else Failed, s');
    }
  }

  lemma FinishTracked(cfg: Config, s: State, r: Capture, accepted: bool)
    requires Tracked(cfg, s) && r in s.inFlight
    ensures Tracked(cfg, Next(cfg, s, Finish(r, accepted)))
  {
    var s' := Next(cfg, s, Finish(r, accepted));
    if s'.core.endings != s.core.endings {
      EndKeepsTracked(cfg, s, r.id, Failed, s');
    }
  }

  lemma NextTracked(cfg: Config, s: State, step: Step)
    requires Tracked(cfg, s) && Enabled(s, step)
    ensures Tracked(cfg, Next(cfg, s, step))
  {
    match step
    case Check(id, block, included) => CheckTracked(cfg, s, id, block, included);
    case Finish(r, accepted) => FinishTracked(cfg, s, r, accepted);
    case Expire(id, now) =>
      var s' := Next(cfg, s, step);
      if s'.core.endings != s.core.endings {
        EndKeepsTracked(cfg, s, id, Expired, s');
      }
    case _ =>
  }

  lemma {:induction false} RunTracked(cfg: Config, steps: seq<Step>)
    requires Legal(cfg, INITIAL, steps)
    ensures Tracked(cfg, Exec(cfg, INITIAL, steps))
  {
    if steps != [] {
      RunTracked(cfg, steps[..|steps| - 1]);
      NextTracked(cfg, Exec(cfg, INITIAL, steps[..|steps| - 1]), steps[|steps| - 1]);
    }
  }

  /** In every reachable state each queued attempt lies between one and the configured maximum. */
  lemma AttemptsInRange(cfg: Config, steps: seq<Step>, id: Id)
    requires Legal(cfg, INITIAL, steps)
    ensures var queue := Exec(cfg, INITIAL, steps).core.queue; id in queue ==> 1 <= queue[id] <= cfg.maxResubmissions
  {
    RunTracked(cfg, steps);
  }

  /** One step keeps the promise exactly when it is not a late settlement. */
  lemma StepKeepsPromiseIff(cfg: Config, s: State, step: Step)
    requires Tracked(cfg, s) && EndsOnce(s.core) && Enabled(s, step)
    ensures EndsOnce(Next(cfg, s, step).core) <==> !Late(cfg, s, step)
  {
    if Late(cfg, s, step) {
      var i :| 0 <= i < |s.core.endings| && s.core.endings[i].0 == step.r.id;
      var c := Next(cfg, s, step).core;
      assert c.endings[i].0 == step.r.id;
      if !step.accepted {
        assert c.endings[|s.core.endings|].0 == step.r.id;
      }
    }
  }

  /** The promise holds after every prefix of the run. */
  ghost predicate AlwaysEndsOnce(cfg: Config, steps: seq<Step>) {
    EndsOnce(Exec(cfg, INITIAL, steps).core) && (steps != [] ==> AlwaysEndsOnce(cfg, steps[..|steps| - 1]))
  }

  /** No step of the run is a late settlement. */
  ghost predicate NeverLate(cfg: Config, steps: seq<Step>) {
    steps != [] ==>
      var front := steps[..|steps| - 1];
      NeverLate(cfg, front) && !Late(cfg, Exec(cfg, INITIAL, front), steps[|steps| - 1])
  }

  /**
   * Over every interleaved run: all states keep the promise exactly when no resubmission settles on a bundle
   * that left the active map while the relays were awaited.
   */
  lemma {:induction false} RunKeepsPromiseIff(cfg: Config, steps: seq<Step>)
    requires Legal(cfg, INITIAL, steps)
    ensures AlwaysEndsOnce(cfg, steps) <==> NeverLate(cfg, steps)
  {
    if steps != [] {
      var n := |steps| - 1;
      var front := steps[..n];
      RunKeepsPromiseIff(cfg, front);
      RunTracked(cfg, front);
      if AlwaysEndsOnce(cfg, front) {
        StepKeepsPromiseIff(cfg, Exec(cfg, INITIAL, front), steps[n]);
      }
    }
  }

  // ---------- Which interleavings are harmless ----------

  /**
   * What may happen to a bundle while a resubmission of it awaits the relays: whether it may be checked or
   * aged out, and how many resubmissions of it may be in flight at once.
   */
  datatype Discipline = Discipline(checks: bool, expiries: bool, resubmissions: nat)

  const ATOMIC := Discipline(false, false, 1)

  function InFlightOf(s: State, id: Id): set<Capture> { set r | r in s.inFlight && r.id == id }

  ghost predicate Allowed(d: Discipline, s: State, step: Step) {
    match step
    case Check(id, _, _) => d.checks || InFlightOf(s, id) == {}
    case Expire(id, _) => d.expiries || InFlightOf(s, id) == {}
    case Begin(id, _) => |InFlightOf(s, id)| < d.resubmissions
    case _ => true
  }

  ghost predicate Follows(cfg: Config, d: Discipline, s: State, steps: seq<Step>) {
    steps != [] ==>
      var front := steps[..|steps| - 1];
      Follows(cfg, d, s, front) && Allowed(d, Exec(cfg, s, front), steps[|steps| - 1])
  }

  /** Each block is announced once, so it checks a bundle once. */
  ghost predicate OncePerBlock(steps: seq<Step>) {
    forall i, j :: 0 <= i < j < |steps| && steps[i].Check? && steps[j].Check? && steps[i].id == steps[j].id ==>
      steps[i].block != steps[j].block
  }

  ghost predicate ChecksUpTo(steps: seq<Step>, block: int) {
    forall i :: 0 <= i < |steps| && steps[i].Check? ==> steps[i].block <= block
  }

  lemma OnceSnoc(steps: seq<Step>, block: int, step: Step)
    requires OncePerBlock(steps) && ChecksUpTo(steps, block) && (step.Check? ==> step.block > block)
    ensures OncePerBlock(steps + [step])
    ensures ChecksUpTo(steps + [step], if step.Check? then step.block else block)
  {
  }

  lemma Snoc(cfg: Config, d: Discipline, s: State, steps: seq<Step>, step: Step)
    requires Legal(cfg, s, steps) && Follows(cfg, d, s, steps)
    requires Enabled(Exec(cfg, s, steps), step) && Allowed(d, Exec(cfg, s, steps), step)
    ensures Legal(cfg, s, steps + [step]) && Follows(cfg, d, s, steps + [step])
    ensures Exec(cfg, s, steps + [step]) == Next(cfg, Exec(cfg, s, steps), step)
  {
    assert (steps + [step])[..|steps|] == steps;
  }

  lemma SnocTwice(cfg: Config, d: Discipline, s: State, steps: seq<Step>, step: Step, step': Step)
    requires Legal(cfg, s, steps) && Follows(cfg, d, s, steps)
    requires Enabled(Exec(cfg, s, steps), step) && Allowed(d, Exec(cfg, s, steps), step)
    requires var mid := Next(cfg, Exec(cfg, s, steps), step); Enabled(mid, step') && Allowed(d, mid, step')
    ensures Legal(cfg, s, steps + [step] + [step']) && Follows(cfg, d, s, steps + [step] + [step'])
    ensures Exec(cfg, s, steps + [step] + [step']) == Next(cfg, Next(cfg, Exec(cfg, s, steps), step), step')
  {
    Snoc(cfg, d, s, steps, step);
    Snoc(cfg, d, s, steps + [step], step');
  }

  lemma {:induction false} Join(cfg: Config, d: Discipline, s: State, p: seq<Step>, q: seq<Step>)
    requires Legal(cfg, s, p) && Follows(cfg, d, s, p)
    requires Legal(cfg, Exec(cfg, s, p), q) && Follows(cfg, d, Exec(cfg, s, p), q)
    ensures Legal(cfg, s, p + q) && Follows(cfg, d, s, p + q)
    ensures Exec(cfg, s, p + q) == Exec(cfg, Exec(cfg, s, p), q)
  {
    if q == [] {
      assert p + q == p;
    } else {
      var front, last := q[..|q| - 1], q[|q| - 1];
      Join(cfg, d, s, p, front);
      Snoc(cfg, d, s, p + front, last);
      assert p + q == p + front + [last];
    }
  }

  /** While bundles in flight are left alone, each stays active and has one resubmission only. */
  ghost predicate Held(s: State) {
    && (forall r :: r in s.inFlight ==> r.id in s.core.active)
    && (forall r, r' :: r in s.inFlight && r' in s.inFlight && r.id == r'.id ==> r == r')
  }

  lemma NothingInFlight(s: State, id: Id)
    requires |InFlightOf(s, id)| < 1
    ensures forall r :: r in s.inFlight ==> r.id != id
  {
    forall r | r in s.inFlight ensures r.id != id {
      assert r.id == id ==> r in InFlightOf(s, id);
    }
  }

  lemma NextHeld(cfg: Config, s: State, step: Step)
    requires Held(s) && Enabled(s, step) && Allowed(ATOMIC, s, step)
    ensures Held(Next(cfg, s, step)) && !Late(cfg, s, step)
  {
    match step
    case Check(id, _, _) => NothingInFlight(s, id);
    case Expire(id, _) => NothingInFlight(s, id);
    case Begin(id, _) => NothingInFlight(s, id);
    case _ =>
  }

  lemma {:induction false} RunHeld(cfg: Config, steps: seq<Step>)
    requires Legal(cfg, INITIAL, steps) && Follows(cfg, ATOMIC, INITIAL, steps)
    ensures Held(Exec(cfg, INITIAL, steps)) && NeverLate(cfg, steps)
  {
    if steps != [] {
      var front := steps[..|steps| - 1];
      RunHeld(cfg, front);
      NextHeld(cfg, Exec(cfg, INITIAL, front), steps[|steps| - 1]);
    }
  }

  /** Nothing is ever resubmitted: the configuration or the discipline rules it out. */
  predicate NoResubmissions(cfg: Config, d: Discipline) { cfg.maxResubmissions <= 0 || d.resubmissions == 0 }

  lemma {:induction false} NothingEverInFlight(cfg: Config, d: Discipline, steps: seq<Step>)
    requires Legal(cfg, INITIAL, steps) && Follows(cfg, d, INITIAL, steps) && NoResubmissions(cfg, d)
    ensures NeverLate(cfg, steps) && AlwaysAdvances(cfg, steps) && Exec(cfg, INITIAL, steps).inFlight == {}
  {
    RunTracked(cfg, steps);
    if steps != [] {
      NothingEverInFlight(cfg, d, steps[..|steps| - 1]);
    }
  }

  ghost predicate PromiseUnder(cfg: Config, d: Discipline) {
    forall steps | Legal(cfg, INITIAL, steps) && Follows(cfg, d, INITIAL, steps) && OncePerBlock(steps) ::
      AlwaysEndsOnce(cfg, steps)
  }

  /**
   * Every run that follows a discipline ends each bundle once exactly when the discipline leaves a bundle alone
   * while it is being resubmitted, or nothing is ever resubmitted.
   */
  lemma PromiseUnderIff(cfg: Config, d: Discipline)
    ensures PromiseUnder(cfg, d) <==> NoResubmissions(cfg, d) || d == ATOMIC
  {
    if NoResubmissions(cfg, d) || d == ATOMIC {
      forall steps | Legal(cfg, INITIAL, steps) && Follows(cfg, d, INITIAL, steps) && OncePerBlock(steps)
        ensures AlwaysEndsOnce(cfg, steps)
      {
        RunKeepsPromiseIff(cfg, steps);
        if d == ATOMIC {
          RunHeld(cfg, steps);
        } else {
          NothingEverInFlight(cfg, d, steps);
        }
      }
    } else {
      var steps := if d.checks then CheckedRun(cfg) else if d.expiries then ExpiredRun(cfg) else RepeatedRun(cfg);
      if d.checks {
        CheckedRevives(cfg, d);
      } else if d.expiries {
        ExpiredRevives(cfg, d);
      } else {
        RepeatedRevives(cfg, d);
      }
      assert !AlwaysEndsOnce(cfg, steps);
    }
  }

  // ---------- Target blocks ----------

  /** An accepted resubmission moves the target at least four blocks on, from what it read and from what is there. */
  ghost predicate Advances(s: State, step: Step) {
    step.Finish? && step.accepted ==>
      && step.r.block + 1 >= step.r.bundle.targetBlock + 4
      && (step.r.id in s.core.active ==> step.r.block + 1 >= s.core.active[step.r.id].targetBlock + 4)
  }

  ghost predicate AlwaysAdvances(cfg: Config, steps: seq<Step>) {
    steps != [] ==>
      var front := steps[..|steps| - 1];
      AlwaysAdvances(cfg, front) && Advances(Exec(cfg, INITIAL, front), steps[|steps| - 1])
  }

  ghost predicate Waiting(s: State) {
    && (forall id :: id in s.core.queue && id in s.core.active ==> s.height >= s.core.active[id].targetBlock + 3)
    && (forall r :: r in s.inFlight ==>
          && s.height >= r.block >= r.bundle.targetBlock + 3
          && (r.id in s.core.active ==> s.core.active[r.id] == r.bundle))
    && (forall r, r' :: r in s.inFlight && r' in s.inFlight && r.id == r'.id ==> r == r')
  }

  lemma NextWaiting(cfg: Config, s: State, step: Step)
    requires Tracked(cfg, s) && Waiting(s) && Enabled(s, step)
    requires step.Begin? ==> |InFlightOf(s, step.id)| < 1
    ensures Waiting(Next(cfg, s, step)) && Advances(s, step)
  {
    if step.Begin? {
      NothingInFlight(s, step.id);
    }
  }

  lemma {:induction false} RunWaiting(cfg: Config, d: Discipline, steps: seq<Step>)
    requires Legal(cfg, INITIAL, steps) && Follows(cfg, d, INITIAL, steps) && d.resubmissions <= 1
    ensures Waiting(Exec(cfg, INITIAL, steps)) && AlwaysAdvances(cfg, steps)
  {
    if steps != [] {
      var front := steps[..|steps| - 1];
      RunWaiting(cfg, d, front);
      RunTracked(cfg, front);
      NextWaiting(cfg, Exec(cfg, INITIAL, front), steps[|steps| - 1]);
    }
  }

  ghost predicate AdvancesUnder(cfg: Config, d: Discipline) {
    forall steps | Legal(cfg, INITIAL, steps) && Follows(cfg, d, INITIAL, steps) && OncePerBlock(steps) ::
      AlwaysAdvances(cfg, steps)
  }

  /**
   * Over every run of a discipline each accepted resubmission moves the target by at least four blocks exactly
   * when no bundle has two resubmissions in flight, or nothing is ever resubmitted.
   */
  lemma AdvancesUnderIff(cfg: Config, d: Discipline)
    ensures AdvancesUnder(cfg, d) <==> NoResubmissions(cfg, d) || d.resubmissions == 1
  {
    if NoResubmissions(cfg, d) || d.resubmissions == 1 {
      forall steps | Legal(cfg, INITIAL, steps) && Follows(cfg, d, INITIAL, steps) && OncePerBlock(steps)
        ensures AlwaysAdvances(cfg, steps)
      {
        if d.resubmissions == 1 {
          RunWaiting(cfg, d, steps);
        } else {
          NothingEverInFlight(cfg, d, steps);
        }
      }
    } else {
      OverlapTurnsTargetBack(cfg, d, 1);
      assert !AlwaysAdvances(cfg, OvertakenRun(cfg, 1));
    }
  }

  // ---------- Where interleaving breaks both ----------

  const TARGET10 := Bundle(10, 0)

  /** A bundle for block 10 that is missed in `n` blocks, from block 13 on. */
  function MissedRun(n: nat): seq<Step> {
    if n == 0 then [Submit("a", 10, 0)] else MissedRun(n - 1) + [NewBlock(12 + n)] + [Check("a", 12 + n, false)]
  }

  function Queued(n: nat): State {
    State(Core(map["a" := TARGET10], if n == 0 then map[] else map["a" := n], []), {}, {"a"}, if n == 0 then 0 else 12 + n)
  }

  lemma {:induction false} MissedOnce(n: nat)
    ensures OncePerBlock(MissedRun(n)) && ChecksUpTo(MissedRun(n), 12 + n)
  {
    if n > 0 {
      MissedOnce(n - 1);
      OnceSnoc(MissedRun(n - 1), 11 + n, NewBlock(12 + n));
      OnceSnoc(MissedRun(n - 1) + [NewBlock(12 + n)], 11 + n, Check("a", 12 + n, false));
    }
  }

  lemma MissedSteps(cfg: Config, d: Discipline, n: nat)
    requires 1 <= n <= cfg.maxResubmissions
    ensures var s := Next(cfg, Queued(n - 1), NewBlock(12 + n));
            && Enabled(Queued(n - 1), NewBlock(12 + n)) && Allowed(d, s, Check("a", 12 + n, false))
            && Enabled(s, Check("a", 12 + n, false)) && Next(cfg, s, Check("a", 12 + n, false)) == Queued(n)
  {
    var c := Queued(n - 1).core;
    assert c.active["a"] == TARGET10;
    assert Miss(cfg, c, "a").queue == map["a" := n];
  }

  lemma {:induction false} Missed(cfg: Config, d: Discipline, n: nat)
    requires n <= cfg.maxResubmissions
    ensures Legal(cfg, INITIAL, MissedRun(n)) && Follows(cfg, d, INITIAL, MissedRun(n))
    ensures Exec(cfg, INITIAL, MissedRun(n)) == Queued(n)
  {
    if n == 0 {
      Snoc(cfg, d, INITIAL, [], Submit("a", 10, 0));
      assert [] + [Submit("a", 10, 0)] == MissedRun(0);
    } else {
      Missed(cfg, d, n - 1);
      MissedSteps(cfg, d, n);
      SnocTwice(cfg, d, INITIAL, MissedRun(n - 1), NewBlock(12 + n), Check("a", 12 + n, false));
    }
  }

  /** The last attempt is queued, and its resubmission awaits the relays. */
  function AwaitingRun(cfg: Config): seq<Step>
    requires cfg.maxResubmissions >= 1
  {
    MissedRun(cfg.maxResubmissions) + [Begin("a", 0)]
  }

  function Awaited(cfg: Config, nr: nat): Capture {
    Capture("a", TARGET10, cfg.maxResubmissions, 12 + cfg.maxResubmissions, nr)
  }

  lemma Awaiting(cfg: Config, d: Discipline)
    requires cfg.maxResubmissions >= 1 && d.resubmissions >= 1
    ensures var n, steps := cfg.maxResubmissions, AwaitingRun(cfg);
            && Legal(cfg, INITIAL, steps) && Follows(cfg, d, INITIAL, steps) && OncePerBlock(steps)
            && ChecksUpTo(steps, 12 + n)
            && Exec(cfg, INITIAL, steps)
               == State(Core(map["a" := TARGET10], map["a" := n], []), {Awaited(cfg, 0)}, {"a"}, 12 + n)
  {
    var n := cfg.maxResubmissions;
    Missed(cfg, d, n);
    MissedOnce(n);
    OnceSnoc(MissedRun(n), 12 + n, Begin("a", 0));
    assert InFlightOf(Exec(cfg, INITIAL, MissedRun(n)), "a") == {};
    Snoc(cfg, d, INITIAL, MissedRun(n), Begin("a", 0));
  }

  /** The bundle is found in the next block before the resubmission settles. */
  function CheckedRun(cfg: Config): seq<Step>
    requires cfg.maxResubmissions >= 1
  {
    AwaitingRun(cfg) + [NewBlock(13 + cfg.maxResubmissions)] + [Check("a", 13 + cfg.maxResubmissions, true)]
    + [Finish(Awaited(cfg, 0), true)]
  }

  /** The run is legal, checks each block once, and ends with the bundle both reported as included and active again. */
  lemma CheckedRevives(cfg: Config, d: Discipline)
    requires cfg.maxResubmissions >= 1 && d.checks && d.resubmissions >= 1
    ensures var c := Exec(cfg, INITIAL, CheckedRun(cfg)).core;
            && Legal(cfg, INITIAL, CheckedRun(cfg)) && Follows(cfg, d, INITIAL, CheckedRun(cfg)) && OncePerBlock(CheckedRun(cfg))
            && c.endings == [("a", Included)] && "a" in c.active && !EndsOnce(c)
  {
    var n := cfg.maxResubmissions;
    Awaiting(cfg, d);
    var p := AwaitingRun(cfg);
    Snoc(cfg, d, INITIAL, p, NewBlock(13 + n));
    Snoc(cfg, d, INITIAL, p + [NewBlock(13 + n)], Check("a", 13 + n, true));
    Snoc(cfg, d, INITIAL, p + [NewBlock(13 + n)] + [Check("a", 13 + n, true)], Finish(Awaited(cfg, 0), true));
    OnceSnoc(p, 12 + n, NewBlock(13 + n));
    OnceSnoc(p + [NewBlock(13 + n)], 12 + n, Check("a", 13 + n, true));
    OnceSnoc(p + [NewBlock(13 + n)] + [Check("a", 13 + n, true)], 13 + n, Finish(Awaited(cfg, 0), true));
    var c := Exec(cfg, INITIAL, CheckedRun(cfg)).core;
    assert c.endings[0].0 in c.active;
  }

  /** The bundle ages out before the resubmission settles. */
  function ExpiredRun(cfg: Config): seq<Step>
    requires cfg.maxResubmissions >= 1
  {
    AwaitingRun(cfg) + [Expire("a", cfg.bundleTimeoutMs + 1)] + [Finish(Awaited(cfg, 0), true)]
  }

  lemma ExpiredRevives(cfg: Config, d: Discipline)
    requires cfg.maxResubmissions >= 1 && d.expiries && d.resubmissions >= 1
    ensures var c := Exec(cfg, INITIAL, ExpiredRun(cfg)).core;
            && Legal(cfg, INITIAL, ExpiredRun(cfg)) && Follows(cfg, d, INITIAL, ExpiredRun(cfg)) && OncePerBlock(ExpiredRun(cfg))
            && c.endings == [("a", Expired)] && "a" in c.active && !EndsOnce(c)
  {
    Awaiting(cfg, d);
    var p := AwaitingRun(cfg);
    Snoc(cfg, d, INITIAL, p, Expire("a", cfg.bundleTimeoutMs + 1));
    Snoc(cfg, d, INITIAL, p + [Expire("a", cfg.bundleTimeoutMs + 1)], Finish(Awaited(cfg, 0), true));
    OnceSnoc(p, 12 + cfg.maxResubmissions, Expire("a", cfg.bundleTimeoutMs + 1));
    OnceSnoc(p + [Expire("a", cfg.bundleTimeoutMs + 1)], 12 + cfg.maxResubmissions, Finish(Awaited(cfg, 0), true));
    var c := Exec(cfg, INITIAL, ExpiredRun(cfg)).core;
    assert c.endings[0].0 in c.active;
  }

  /** A second resubmission of the same attempt starts `k` blocks later. */
  function OverlapRun(cfg: Config, k: nat): seq<Step>
    requires cfg.maxResubmissions >= 1
  {
    AwaitingRun(cfg) + [NewBlock(12 + cfg.maxResubmissions + k)] + [Begin("a", 1)]
  }

  function Later(cfg: Config, k: nat): Capture { Awaited(cfg, 1).(block := 12 + cfg.maxResubmissions + k) }

  lemma OverlapOnce(cfg: Config, d: Discipline, k: nat)
    requires cfg.maxResubmissions >= 1 && d.resubmissions >= 2
    ensures OncePerBlock(OverlapRun(cfg, k)) && ChecksUpTo(OverlapRun(cfg, k), 12 + cfg.maxResubmissions)
  {
    Awaiting(cfg, d);
    var p, n := AwaitingRun(cfg), cfg.maxResubmissions;
    OnceSnoc(p, 12 + n, NewBlock(12 + n + k));
    OnceSnoc(p + [NewBlock(12 + n + k)], 12 + n, Begin("a", 1));
  }

  lemma SecondBegin(cfg: Config, d: Discipline, s: State, first: Capture)
    requires d.resubmissions >= 2 && s.inFlight == {first} && first.nr == 0
    requires "a" in s.core.active && "a" in s.core.queue
    ensures Enabled(s, Begin("a", 1)) && Allowed(d, s, Begin("a", 1))
    ensures Next(cfg, s, Begin("a", 1))
            == s.(inFlight := {first, Capture("a", s.core.active["a"], s.core.queue["a"], s.height, 1)})
  {
    assert InFlightOf(s, "a") <= {first};
    assert InFlightOf(s, "a") == {first} || InFlightOf(s, "a") == {};
  }

  lemma Overlap(cfg: Config, d: Discipline, k: nat)
    requires cfg.maxResubmissions >= 1 && d.resubmissions >= 2
    ensures var n, steps := cfg.maxResubmissions, OverlapRun(cfg, k);
            && Legal(cfg, INITIAL, steps) && Follows(cfg, d, INITIAL, steps)
            && Exec(cfg, INITIAL, steps)
               == State(Core(map["a" := TARGET10], map["a" := n], []), {Awaited(cfg, 0), Later(cfg, k)}, {"a"}, 12 + n + k)
  {
    Awaiting(cfg, d);
    var p, n := AwaitingRun(cfg), cfg.maxResubmissions;
    var p1 := p + [NewBlock(12 + n + k)];
    Snoc(cfg, d, INITIAL, p, NewBlock(12 + n + k));
    SecondBegin(cfg, d, Exec(cfg, INITIAL, p1), Awaited(cfg, 0));
    Snoc(cfg, d, INITIAL, p1, Begin("a", 1));
  }

  /** Two resubmissions of the last attempt: one is refused and fails the bundle, the other is accepted. */
  function RepeatedRun(cfg: Config): seq<Step>
    requires cfg.maxResubmissions >= 1
  {
    OverlapRun(cfg, 1) + [Finish(Awaited(cfg, 0), false)] + [Finish(Later(cfg, 1), true)]
  }

  lemma RepeatedRevives(cfg: Config, d: Discipline)
    requires cfg.maxResubmissions >= 1 && d.resubmissions >= 2
    ensures var c := Exec(cfg, INITIAL, RepeatedRun(cfg)).core;
            && Legal(cfg, INITIAL, RepeatedRun(cfg)) && Follows(cfg, d, INITIAL, RepeatedRun(cfg)) && OncePerBlock(RepeatedRun(cfg))
            && c.endings == [("a", Failed)] && "a" in c.active && !EndsOnce(c)
  {
    Overlap(cfg, d, 1);
    OverlapOnce(cfg, d, 1);
    var p, n := OverlapRun(cfg, 1), cfg.maxResubmissions;
    var r0, r1 := Awaited(cfg, 0), Later(cfg, 1);
    OnceSnoc(p, 12 + n, Finish(r0, false));
    OnceSnoc(p + [Finish(r0, false)], 12 + n, Finish(r1, true));
    Snoc(cfg, d, INITIAL, p, Finish(r0, false));
    Snoc(cfg, d, INITIAL, p + [Finish(r0, false)], Finish(r1, true));
    var c := Exec(cfg, INITIAL, RepeatedRun(cfg)).core;
    assert c.endings[0].0 in c.active;
  }

  /** The later resubmission is accepted before the first. */
  function OvertakenRun(cfg: Config, k: nat): seq<Step>
    requires cfg.maxResubmissions >= 1
  {
    OverlapRun(cfg, k) + [Finish(Later(cfg, k), true)] + [Finish(Awaited(cfg, 0), true)]
  }

  /** The accepted resubmission that settles last moves the target back by `k` blocks, for any `k`. */
  lemma OverlapTurnsTargetBack(cfg: Config, d: Discipline, k: nat)
    requires cfg.maxResubmissions >= 1 && d.resubmissions >= 2
    ensures var steps := OvertakenRun(cfg, k);
            var before, after := Exec(cfg, INITIAL, steps[..|steps| - 1]).core, Exec(cfg, INITIAL, steps).core;
            && Legal(cfg, INITIAL, steps) && Follows(cfg, d, INITIAL, steps) && OncePerBlock(steps)
            && steps[|steps| - 1] == Finish(Awaited(cfg, 0), true)
            && "a" in before.active && "a" in after.active
            && after.active["a"].targetBlock == before.active["a"].targetBlock - k
  {
    Overlap(cfg, d, k);
    OverlapOnce(cfg, d, k);
    var p, n := OverlapRun(cfg, k), cfg.maxResubmissions;
    var r0, r1 := Awaited(cfg, 0), Later(cfg, k);
    OnceSnoc(p, 12 + n, Finish(r1, true));
    OnceSnoc(p + [Finish(r1, true)], 12 + n, Finish(r0, true));
    Snoc(cfg, d, INITIAL, p, Finish(r1, true));
    Snoc(cfg, d, INITIAL, p + [Finish(r1, true)], Finish(r0, true));
    assert OvertakenRun(cfg, k)[..|p| + 1] == p + [Finish(r1, true)];
  }

  // ---------- The handlers as runs ----------

  datatype Handler =
    | Submission(id: Id, target: int, now: int)
    | Block(height: int)
    | CheckBundles(order: seq<Id>, block: int, landed: set<Id>)
    | Resubmit(order: seq<Id>, accepted: set<Id>)
    | Cleanup(order: seq<Id>, now: int)

  ghost predicate HandlerEnabled(s: State, h: Handler) {
    match h
    case Submission(id, _, _) => id !in s.issued
    case Block(height) => height >= s.height
    case CheckBundles(_, block, _) => block <= s.height
    case _ => true
  }

  /** One handler, run to completion. */
  function Handle(cfg: Config, s: State, h: Handler): State {
    match h
    case Submission(id, target, now) => Next(cfg, s, Submit(id, target, now))
    case Block(height) => s.(height := height)
    case CheckBundles(order, block, landed) => s.(core := CheckAll(cfg, s.core, order, block, landed))
    case Resubmit(order, accepted) => s.(core := ResubmitAll(cfg, s.core, order, s.height, accepted))
    case Cleanup(order, now) => s.(core := ExpireAll(cfg, s.core, order, now))
  }

  function CheckSteps(order: seq<Id>, block: int, landed: set<Id>): seq<Step> {
    if order == [] then []
    else
      var id := order[|order| - 1];
      CheckSteps(order[..|order| - 1], block, landed) + [Check(id, block, id in landed)]
  }

  function ExpireSteps(order: seq<Id>, now: int): seq<Step> {
    if order == [] then [] else ExpireSteps(order[..|order| - 1], now) + [Expire(order[|order| - 1], now)]
  }

  function ResubmitOneSteps(s: State, id: Id, accepted: bool): seq<Step> {
    if id in s.core.queue && id in s.core.active then
      [Begin(id, 0)] + [Finish(Capture(id, s.core.active[id], s.core.queue[id], s.height, 0), accepted)]
    else []
  }

  function ResubmitSteps(cfg: Config, s: State, order: seq<Id>, accepted: set<Id>): seq<Step> {
    if order == [] then []
    else
      var front, id := order[..|order| - 1], order[|order| - 1];
      var mid := s.(core := ResubmitAll(cfg, s.core, front, s.height, accepted));
      ResubmitSteps(cfg, s, front, accepted) + ResubmitOneSteps(mid, id, id in accepted)
  }

  lemma {:induction false} CheckAllIsRun(cfg: Config, s: State, order: seq<Id>, block: int, landed: set<Id>)
    requires block <= s.height && s.inFlight == {}
    ensures var steps := CheckSteps(order, block, landed);
            && Legal(cfg, s, steps) && Follows(cfg, ATOMIC, s, steps)
            && Exec(cfg, s, steps) == s.(core := CheckAll(cfg, s.core, order, block, landed))
  {
    if order != [] {
      var front, id := order[..|order| - 1], order[|order| - 1];
      CheckAllIsRun(cfg, s, front, block, landed);
      Snoc(cfg, ATOMIC, s, CheckSteps(front, block, landed), Check(id, block, id in landed));
    }
  }

  lemma {:induction false} ExpireAllIsRun(cfg: Config, s: State, order: seq<Id>, now: int)
    requires s.inFlight == {}
    ensures var steps := ExpireSteps(order, now);
            && Legal(cfg, s, steps) && Follows(cfg, ATOMIC, s, steps)
            && Exec(cfg, s, steps) == s.(core := ExpireAll(cfg, s.core, order, now))
  {
    if order != [] {
      var front, id := order[..|order| - 1], order[|order| - 1];
      ExpireAllIsRun(cfg, s, front, now);
      Snoc(cfg, ATOMIC, s, ExpireSteps(front, now), Expire(id, now));
    }
  }

  /** Run to completion without interleaving, a resubmission is a begin and a finish. */
  lemma ResubmitOneIsRun(cfg: Config, s: State, id: Id, accepted: bool)
    requires s.inFlight == {}
    ensures Legal(cfg, s, ResubmitOneSteps(s, id, accepted)) && Follows(cfg, ATOMIC, s, ResubmitOneSteps(s, id, accepted))
    ensures Exec(cfg, s, ResubmitOneSteps(s, id, accepted)) == s.(core := ResubmitOne(cfg, s.core, id, s.height, accepted))
  {
    if id in s.core.queue && id in s.core.active {
      var r := Capture(id, s.core.active[id], s.core.queue[id], s.height, 0);
      assert InFlightOf(s, id) == {};
      Snoc(cfg, ATOMIC, s, [], Begin(id, 0));
      assert [] + [Begin(id, 0)] == [Begin(id, 0)];
      Snoc(cfg, ATOMIC, s, [Begin(id, 0)], Finish(r, accepted));
      assert {} + {r} - {r} == {};
    }
  }

  lemma {:induction false} ResubmitAllIsRun(cfg: Config, s: State, order: seq<Id>, accepted: set<Id>)
    requires s.inFlight == {}
    ensures var steps := ResubmitSteps(cfg, s, order, accepted);
            && Legal(cfg, s, steps) && Follows(cfg, ATOMIC, s, steps)
            && Exec(cfg, s, steps) == s.(core := ResubmitAll(cfg, s.core, order, s.height, accepted))
  {
    if order != [] {
      var front, id := order[..|order| - 1], order[|order| - 1];
      var mid := s.(core := ResubmitAll(cfg, s.core, front, s.height, accepted));
      ResubmitAllIsRun(cfg, s, front, accepted);
      ResubmitOneIsRun(cfg, mid, id, id in accepted);
      Join(cfg, ATOMIC, s, ResubmitSteps(cfg, s, front, accepted), ResubmitOneSteps(mid, id, id in accepted));
    }
  }

  function StepsOf(cfg: Config, s: State, h: Handler): seq<Step> {
    match h
    case Submission(id, target, now) => [Submit(id, target, now)]
    case Block(height) => [NewBlock(height)]
    case CheckBundles(order, block, landed) => CheckSteps(order, block, landed)
    case Resubmit(order, accepted) => ResubmitSteps(cfg, s, order, accepted)
    case Cleanup(order, now) => ExpireSteps(order, now)
  }

  lemma HandlerIsRun(cfg: Config, s: State, h: Handler)
    requires HandlerEnabled(s, h) && s.inFlight == {}
    ensures Legal(cfg, s, StepsOf(cfg, s, h)) && Follows(cfg, ATOMIC, s, StepsOf(cfg, s, h))
    ensures Exec(cfg, s, StepsOf(cfg, s, h)) == Handle(cfg, s, h)
  {
    match h
    case Submission(id, target, now) =>
      Snoc(cfg, ATOMIC, s, [], Submit(id, target, now));
      assert [] + [Submit(id, target, now)] == StepsOf(cfg, s, h);
    case Block(height) =>
      Snoc(cfg, ATOMIC, s, [], NewBlock(height));
      assert [] + [NewBlock(height)] == StepsOf(cfg, s, h);
    case CheckBundles(order, block, landed) => CheckAllIsRun(cfg, s, order, block, landed);
    case Resubmit(order, accepted) => ResubmitAllIsRun(cfg, s, order, accepted);
    case Cleanup(order, now) => ExpireAllIsRun(cfg, s, order, now);
  }

  function HandleAll(cfg: Config, handlers: seq<Handler>): State {
    if handlers == [] then INITIAL
    else Handle(cfg, HandleAll(cfg, handlers[..|handlers| - 1]), handlers[|handlers| - 1])
  }

  ghost predicate HandlersLegal(cfg: Config, handlers: seq<Handler>) {
    handlers != [] ==>
      var front := handlers[..|handlers| - 1];
      HandlersLegal(cfg, front) && HandlerEnabled(HandleAll(cfg, front), handlers[|handlers| - 1])
  }

  function RunOf(cfg: Config, handlers: seq<Handler>): seq<Step> {
    if handlers == [] then []
    else
      var front := handlers[..|handlers| - 1];
      RunOf(cfg, front) + StepsOf(cfg, HandleAll(cfg, front), handlers[|handlers| - 1])
  }

  lemma {:induction false} HandlersAreRun(cfg: Config, handlers: seq<Handler>)
    requires HandlersLegal(cfg, handlers)
    ensures var steps := RunOf(cfg, handlers);
            && Legal(cfg, INITIAL, steps) && Follows(cfg, ATOMIC, INITIAL, steps)
            && Exec(cfg, INITIAL, steps) == HandleAll(cfg, handlers) && HandleAll(cfg, handlers).inFlight == {}
  {
    if handlers != [] {
      var front, h := handlers[..|handlers| - 1], handlers[|handlers| - 1];
      HandlersAreRun(cfg, front);
      HandlerIsRun(cfg, HandleAll(cfg, front), h);
      Join(cfg, ATOMIC, INITIAL, RunOf(cfg, front), StepsOf(cfg, HandleAll(cfg, front), h));
    }
  }

  /**
   * Over every run of whole handlers: each bundle ends at most once and stays inactive after, each accepted
   * resubmission moves its target at least four blocks on, and queued attempts stay in range.
   */
  lemma AtomicHandlersKeepPromise(cfg: Config, handlers: seq<Handler>)
    requires HandlersLegal(cfg, handlers)
    ensures AlwaysEndsOnce(cfg, RunOf(cfg, handlers)) && AlwaysAdvances(cfg, RunOf(cfg, handlers))
    ensures var c := HandleAll(cfg, handlers).core;
            EndsOnce(c) && forall id :: id in c.queue ==> 1 <= c.queue[id] <= cfg.maxResubmissions
  {
    var steps := RunOf(cfg, handlers);
    HandlersAreRun(cfg, handlers);
    RunHeld(cfg, steps);
    RunKeepsPromiseIff(cfg, steps);
    RunWaiting(cfg, ATOMIC, steps);
    RunTracked(cfg, steps);
  }
}
