/** Bursts of admissions that overlap: how far running executions can exceed their limit. */
module AdmissionBursts {
  import opened Admission

  /** `a` executions run, those up to `b` have passed the check, and nothing waits in the queue. */
  ghost predicate Sized(s: Load, a: nat, b: nat) {
    && s.queue == [] && s.enqueuing == map[]
    && |s.active| == a && |s.starting| == b - a && s.active !! s.starting
    && s.active <= s.issued && s.starting <= s.issued && forall t :: t in s.issued ==> t < b
  }

  /** A legal run in which at most `w` admissions overlap. */
  ghost predicate Reaches(lim: Limits, steps: seq<Step>, w: nat, a: nat, b: nat) {
    Legal(lim, steps) && Overlap(lim, steps, w) && Sized(Run(lim, steps), a, b)
  }

  lemma Snoc(lim: Limits, steps: seq<Step>, w: nat, step: Step)
    requires Legal(lim, steps) && Overlap(lim, steps, w) && Enabled(Run(lim, steps), step)
    requires var s := Next(lim, Run(lim, steps), step); |s.starting| <= w && |s.enqueuing| <= w
    ensures Legal(lim, steps + [step]) && Overlap(lim, steps + [step], w)
    ensures Run(lim, steps + [step]) == Next(lim, Run(lim, steps), step)
  {
    assert (steps + [step])[..|steps|] == steps;
  }

  lemma AdmitSized(lim: Limits, s: Load, a: nat, b: nat)
    requires Sized(s, a, b) && a < lim.maxConcurrentExecutions
    ensures Enabled(s, Admit(b, 1)) && Sized(Next(lim, s, Admit(b, 1)), a, b + 1)
  {
  }

  lemma RegisterSized(lim: Limits, s: Load, a: nat, b: nat, t: Ticket)
    requires Sized(s, a, b) && t in s.starting
    ensures Enabled(s, Registered(t)) && Sized(Next(lim, s, Registered(t)), a + 1, b)
  {
  }

  lemma AdmitNext(lim: Limits, a: nat, b: nat, steps: seq<Step>, w: nat) returns (more: seq<Step>)
    requires a <= b < a + w && a < lim.maxConcurrentExecutions && Reaches(lim, steps, w, a, b)
    ensures Reaches(lim, more, w, a, b + 1)
  {
    AdmitSized(lim, Run(lim, steps), a, b);
    Snoc(lim, steps, w, Admit(b, 1));
    more := steps + [Admit(b, 1)];
  }

  lemma RegisterNext(lim: Limits, a: nat, b: nat, steps: seq<Step>, w: nat) returns (more: seq<Step>)
    requires a < b <= a + w && Reaches(lim, steps, w, a, b)
    ensures Reaches(lim, more, w, a + 1, b)
  {
    var t :| t in Run(lim, steps).starting;
    RegisterSized(lim, Run(lim, steps), a, b, t);
    Snoc(lim, steps, w, Registered(t));
    more := steps + [Registered(t)];
  }

  /** Executions admitted and registered one after the other. */
  lemma Fill(lim: Limits, n: nat, w: nat) returns (steps: seq<Step>)
    requires n <= lim.maxConcurrentExecutions && w >= 1
    ensures Reaches(lim, steps, w, n, n)
  {
    steps := [];
    for i := 0 to n
      invariant Reaches(lim, steps, w, i, i)
    {
      steps := AdmitNext(lim, i, i, steps, w);
      steps := RegisterNext(lim, i, i + 1, steps, w);
    }
  }

  /** With one slot free, the check is passed `w` times before any of them is registered. */
  lemma Pass(lim: Limits, n: nat, w: nat) returns (steps: seq<Step>)
    requires n < lim.maxConcurrentExecutions && w >= 1
    ensures Reaches(lim, steps, w, n, n + w)
  {
    steps := Fill(lim, n, w);
    for i := 0 to w
      invariant Reaches(lim, steps, w, n, n + i)
    {
      steps := AdmitNext(lim, n, n + i, steps, w);
    }
  }

  lemma RegisterAll(lim: Limits, n: nat, w: nat, passed: seq<Step>) returns (steps: seq<Step>)
    requires Reaches(lim, passed, w, n, n + w)
    ensures Reaches(lim, steps, w, n + w, n + w)
  {
    steps := passed;
    for j := 0 to w
      invariant Reaches(lim, steps, w, n + j, n + w)
    {
      steps := RegisterNext(lim, n + j, n + w, steps, w);
    }
  }

  /** For every limit and every width `w` the excess of w - 1 running executions is reached. */
  lemma OverlapExcessReached(lim: Limits, w: nat)
    requires lim.maxConcurrentExecutions >= 1 && w >= 1
    ensures exists steps ::
              Legal(lim, steps) && Overlap(lim, steps, w) && |Run(lim, steps).active| == lim.maxConcurrentExecutions + w - 1
  {
    var n := lim.maxConcurrentExecutions - 1;
    var passed := Pass(lim, n, w);
    var steps := RegisterAll(lim, n, w, passed);
    assert Legal(lim, steps);
  }
}
