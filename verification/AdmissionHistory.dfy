/** Where a ticket is, from what has happened to it: the state of a run against the steps it took. */
module AdmissionHistory {
  import opened A = Admission
  import opened PQ = PriorityQueues

  /** How often each ticket has begun to start: at its admission, or when it was taken from the queue. */
  ghost function Starts(lim: Limits, steps: seq<Step>): multiset<Ticket> {
    if steps == [] then multiset{}
    else
      var front := steps[..|steps| - 1];
      Starts(lim, front) + multiset(A.Run(lim, steps).starting - A.Run(lim, front).starting)
  }

  ghost predicate Queued(s: Load, t: Ticket) { exists e :: e in s.queue && e.item == t }

  /** What left the queue as dispatched has started once, and nothing else that left it has. */
  ghost predicate ExitsTraced(s: Load, starts: nat, t: Ticket) {
    forall i :: 0 <= i < |s.left| && s.left[i].0 == t ==> starts == if s.left[i].1 == Dispatched then 1 else 0
  }

  /** The places of one ticket, given how often it has started and which of its steps have been taken. */
  ghost predicate Placed(s: Load, steps: seq<Step>, starts: nat, t: Ticket) {
    && starts <= 1
    && (Queued(s, t) || t in s.enqueuing || t !in s.issued ==> starts == 0)
    && ExitsTraced(s, starts, t)
    && (t in s.starting <==> starts == 1 && Registered(t) !in steps && StartFailed(t) !in steps)
    && (t in s.active <==> Registered(t) in steps && Done(t) !in steps)
    && (Registered(t) in steps || StartFailed(t) in steps || Done(t) in steps ==> starts == 1)
    && (Done(t) in steps ==> Registered(t) in steps)
    && !(Registered(t) in steps && StartFailed(t) in steps)
    && (t in s.entered <==> Enqueued(t) in steps)
    && (t in s.entered ==> t in s.issued)
  }

  /** A ticket counts at most once among the waiting and the left, and only if it entered. */
  lemma CountOnce(s: Load, t: Ticket)
    requires Conserved(s)
    ensures multiset(Tickets(s.queue))[t] + multiset(LeftTickets(s.left))[t] == if t in s.entered then 1 else 0
  {
    assert t in s.entered <==> multiset(s.entered)[t] >= 1;
  }

  lemma LeftCounts(s: Load, i: nat)
    requires i < |s.left|
    ensures multiset(LeftTickets(s.left))[s.left[i].0] >= 1
  {
    assert LeftTickets(s.left)[i] == s.left[i].0;
    assert s.left[i].0 in multiset(LeftTickets(s.left));
  }

  lemma QueuedCounts(s: Load, t: Ticket)
    requires Queued(s, t)
    ensures multiset(Tickets(s.queue))[t] >= 1
  {
    var e :| e in s.queue && e.item == t;
    var k :| 0 <= k < |s.queue| && s.queue[k] == e;
    assert Tickets(s.queue)[k] == t;
    assert t in multiset(Tickets(s.queue));
  }

  /** A ticket that waits, or has not entered, has not left. */
  lemma NotLeft(s: Load, t: Ticket)
    requires Conserved(s) && (Queued(s, t) || t !in s.entered)
    ensures forall i :: 0 <= i < |s.left| ==> s.left[i].0 != t
  {
    CountOnce(s, t);
    if Queued(s, t) {
      QueuedCounts(s, t);
    }
    forall i | 0 <= i < |s.left| ensures s.left[i].0 != t {
      LeftCounts(s, i);
    }
  }

  lemma TickPlaced(lim: Limits, s: Load, steps: seq<Step>, starts: nat, t: Ticket, expired: bool)
    requires Conserved(s) && Separate(s) && Placed(s, steps, starts, t)
    ensures var s' := TakeNext(lim, s, expired);
            Placed(s', steps + [Tick(expired)], starts + (if t in s'.starting && t !in s.starting then 1 else 0), t)
  {
    var s' := TakeNext(lim, s, expired);
    if s' != s {
      assert s.queue[0] in s.queue;
      if s.queue[0].item == t {
        NotLeft(s, t);
      }
      forall e | e in s'.queue ensures e in s.queue {
      }
      if Queued(s', t) {
        assert Queued(s, t);
        assert s.queue[0].item != t by {
          var e :| e in s'.queue && e.item == t;
          var k :| 0 <= k < |s'.queue| && s'.queue[k] == e;
          assert s.queue[k + 1] == e;
        }
      }
    }
  }

  lemma ClearPlaced(lim: Limits, s: Load, steps: seq<Step>, starts: nat, t: Ticket)
    requires Conserved(s) && Placed(s, steps, starts, t)
    ensures Placed(Next(lim, s, Clear), steps + [Clear], starts, t)
  {
    var s' := Next(lim, s, Clear);
    forall i | 0 <= i < |s'.left| && s'.left[i].0 == t
      ensures starts == if s'.left[i].1 == Dispatched then 1 else 0
    {
      if i >= |s.left| {
        assert s.queue[i - |s.left|] in s.queue;
        assert Queued(s, t);
      }
    }
  }

  lemma EnqueuedPlaced(lim: Limits, s: Load, steps: seq<Step>, starts: nat, t: Ticket, other: Ticket)
    requires Separate(s) && Placed(s, steps, starts, t) && other in s.enqueuing
    ensures Placed(Next(lim, s, Enqueued(other)), steps + [Enqueued(other)], starts, t)
  {
    var s' := Next(lim, s, Enqueued(other));
    InsertMembers(s.queue, Entry(other, s.enqueuing[other]));
    if Queued(s', t) && t != other {
      var e :| e in s'.queue && e.item == t;
      assert e in s.queue;
      assert Queued(s, t);
    }
  }

  lemma StepPlaced(lim: Limits, s: Load, steps: seq<Step>, starts: nat, t: Ticket, step: Step)
    requires Conserved(s) && Separate(s) && Placed(s, steps, starts, t) && Enabled(s, step)
    ensures var s' := Next(lim, s, step);
            Placed(s', steps + [step], starts + (if t in s'.starting && t !in s.starting then 1 else 0), t)
  {
    match step
    case Tick(expired) => TickPlaced(lim, s, steps, starts, t, expired);
    case Clear => ClearPlaced(lim, s, steps, starts, t);
    case Enqueued(other) => EnqueuedPlaced(lim, s, steps, starts, t, other);
    case Admit(other, _) => if other == t { NotLeft(s, t); }
    case _ =>
  }

  lemma {:induction false} RunPlaced(lim: Limits, steps: seq<Step>, t: Ticket)
    requires Legal(lim, steps)
    ensures Placed(A.Run(lim, steps), steps, Starts(lim, steps)[t], t)
  {
    if steps != [] {
      var front := steps[..|steps| - 1];
      RunPlaced(lim, front, t);
      RunConserves(lim, front);
      RunSeparate(lim, front);
      StepPlaced(lim, A.Run(lim, front), front, Starts(lim, front)[t], t, steps[|steps| - 1]);
      assert steps == front + [steps[|steps| - 1]];
    }
  }

  /** Over any run: a ticket that left as dispatched was started once; one that left otherwise never was, and is nowhere. */
  lemma ExitDecidesStart(lim: Limits, steps: seq<Step>, i: nat)
    requires Legal(lim, steps) && i < |A.Run(lim, steps).left|
    ensures var s := A.Run(lim, steps);
            var (t, why) := s.left[i];
            && Starts(lim, steps)[t] == (if why == Dispatched then 1 else 0)
            && (why != Dispatched ==> t !in s.starting && t !in s.active)
  {
    RunPlaced(lim, steps, A.Run(lim, steps).left[i].0);
  }

  /** Over any run: a ticket is starting, running or has entered the queue exactly as its own steps say. */
  lemma PlacesFollowSteps(lim: Limits, steps: seq<Step>, t: Ticket)
    requires Legal(lim, steps)
    ensures var s, starts := A.Run(lim, steps), Starts(lim, steps)[t];
            && starts <= 1
            && (t in s.starting <==> starts == 1 && Registered(t) !in steps && StartFailed(t) !in steps)
            && (t in s.active <==> Registered(t) in steps && Done(t) !in steps)
            && (t in s.entered <==> Enqueued(t) in steps)
  {
    RunPlaced(lim, steps, t);
  }

  /** Over any run: what waits, in the queue or on the way to it, has the weight it was admitted with. */
  lemma {:induction false} WeightsKept(lim: Limits, steps: seq<Step>)
    requires Legal(lim, steps)
    ensures var s := A.Run(lim, steps);
            && (forall e :: e in s.queue ==> Admit(e.item, e.priority) in steps)
            && (forall t :: t in s.enqueuing ==> Admit(t, s.enqueuing[t]) in steps)
  {
    if steps != [] {
      var front, step := steps[..|steps| - 1], steps[|steps| - 1];
      var s := A.Run(lim, front);
      WeightsKept(lim, front);
      RunSeparate(lim, front);
      assert steps == front + [step];
      if step.Enqueued? {
        InsertMembers(s.queue, Entry(step.t, s.enqueuing[step.t]));
      }
    }
  }
}
