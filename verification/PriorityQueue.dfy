/** The orchestrator's priority queue: a sorted array, against an unsorted arrival list. */
module PriorityQueues {
  import opened StableSorting
  import opened Options

  datatype Entry<T> = Entry(item: T, priority: int)

  function Priority<T>(e: Entry<T>): int { e.priority }

  class PriorityQueue<T> {
    var items: seq<Entry<T>>

    constructor ()
      ensures items == []
    {
      items := [];
    }

    method Enqueue(item: T, priority: int)
      modifies this
      ensures items == Insert(old(items), Entry(item, priority), Priority)
    {
      var queueItem := Entry(item, priority);
      var added := false;
      var i := 0;
      while i < |items| && !added
        invariant 0 <= i <= |items|
        invariant !added ==> items == old(items)
        invariant !added ==> forall j :: 0 <= j < i ==> items[j].priority >= priority
        invariant added ==> items == Insert(old(items), queueItem, Priority)
        decreases !added, |items| - i
      {
        if queueItem.priority > items[i].priority {
          InsertAt(items, queueItem, Priority, i);
          items := items[..i] + [queueItem] + items[i..];
          added := true;
        } else {
          i := i + 1;
        }
      }
      if !added {
        InsertAt(items, queueItem, Priority, |items|);
        items := items + [queueItem];
      }
    }

    method Dequeue() returns (r: Option<T>)
      modifies this
      ensures old(items) == [] ==> r == None && items == []
      ensures old(items) != [] ==> r == Some(old(items)[0].item) && items == old(items)[1..]
    {
      if items == [] {
        return None;
      }
      r := Some(items[0].item);
      items := items[1..];
    }

    method Clear()
      modifies this
      ensures items == []
    {
      items := [];
    }
  }

  // ---------- Runs of enqueue and dequeue ----------

  datatype Op<T> = Enqueue(item: T, priority: int) | Dequeue

  function Step<T>(queue: seq<Entry<T>>, op: Op<T>): (seq<Entry<T>>, seq<Entry<T>>) {
    match op
    case Enqueue(item, p) => (Insert(queue, Entry(item, p), Priority), [])
    case Dequeue => if queue == [] then ([], []) else (queue[1..], [queue[0]])
  }

  /** The array after the operations, and the entries handed out. */
  function Run<T>(ops: seq<Op<T>>): (seq<Entry<T>>, seq<Entry<T>>) {
    if ops == [] then ([], [])
    else
      var (queue, handed) := Run(ops[..|ops| - 1]);
      var (queue', out) := Step(queue, ops[|ops| - 1]);
      (queue', handed + out)
  }

  /** Reference: entries wait in order of arrival; a dequeue takes the earliest of the highest priority. */
  function FirstOfHighest<T>(waiting: seq<Entry<T>>): (i: nat)
    requires waiting != []
    ensures i < |waiting|
    ensures forall j :: 0 <= j < |waiting| ==> waiting[j].priority <= waiting[i].priority
    ensures forall j :: 0 <= j < i ==> waiting[j].priority < waiting[i].priority
  {
    if |waiting| == 1 then 0
    else
      var i := FirstOfHighest(waiting[..|waiting| - 1]);
      if waiting[|waiting| - 1].priority > waiting[i].priority then |waiting| - 1 else i
  }

  function RefStep<T>(waiting: seq<Entry<T>>, op: Op<T>): (seq<Entry<T>>, seq<Entry<T>>) {
    match op
    case Enqueue(item, p) => (waiting + [Entry(item, p)], [])
    case Dequeue =>
      if waiting == [] then ([], [])
      else
        var i := FirstOfHighest(waiting);
        (waiting[..i] + waiting[i + 1..], [waiting[i]])
  }

  function RefRun<T>(ops: seq<Op<T>>): (seq<Entry<T>>, seq<Entry<T>>) {
    if ops == [] then ([], [])
    else
      var (waiting, handed) := RefRun(ops[..|ops| - 1]);
      var (waiting', out) := RefStep(waiting, ops[|ops| - 1]);
      (waiting', handed + out)
  }

  /** Taking the earliest of the highest priority from the list is taking the head of the array. */
  lemma DequeueAgrees<T>(waiting: seq<Entry<T>>, queue: seq<Entry<T>>)
    requires IsStableSort(waiting, queue, Priority) && waiting != []
    ensures var i := FirstOfHighest(waiting);
            && queue != [] && queue[0] == waiting[i]
            && IsStableSort(waiting[..i] + waiting[i + 1..], queue[1..], Priority)
  {
    var i := FirstOfHighest(waiting);
    var before, x, after := waiting[..i], waiting[i], waiting[i + 1..];
    assert waiting == before + [x] + after;
    HeadIsMax(waiting, queue, Priority, x);
    var k := x.priority;
    NoneOfKey(before, Priority, k);
    OfKeyAround(before, x, after, Priority, k);
    assert OfKey(queue, Priority, k) == OfKey(waiting, Priority, k);
    assert queue[0].priority == k;
    assert OfKey(queue, Priority, k)[0] == queue[0];
    forall r
      ensures OfKey(queue[1..], Priority, r) == OfKey(before + after, Priority, r)
    {
      OfKeyAround(before, x, after, Priority, r);
      OfKeyConcat(before, after, Priority, r);
      SameTail(OfKey(before, Priority, r), OfKey(after, Priority, r), x, queue, r, k);
    }
  }

  lemma SameTail<T>(b: seq<Entry<T>>, a: seq<Entry<T>>, x: Entry<T>, queue: seq<Entry<T>>, r: int, k: int)
    requires queue != [] && queue[0] == x && x.priority == k && (r == k ==> b == [])
    requires OfKey(queue, Priority, r) == b + (if r == k then [x] else []) + a
    ensures OfKey(queue[1..], Priority, r) == b + a
  {
    var head := if r == k then [x] else [];
    assert OfKey(queue, Priority, r) == head + OfKey(queue[1..], Priority, r);
    assert OfKey(queue[1..], Priority, r) == (head + OfKey(queue[1..], Priority, r))[|head|..];
    assert b + a == (b + head + a)[|head|..];
  }

  /**
   * For any interleaving the array hands out what the reference hands out, and holds the stable sort of
   * what is still waiting.
   */
  lemma {:induction false} QueueRefinesArrivalList<T>(ops: seq<Op<T>>)
    ensures Run(ops).1 == RefRun(ops).1
    ensures IsStableSort(RefRun(ops).0, Run(ops).0, Priority)
    ensures Run(ops).0 == Sort(RefRun(ops).0, Priority)
  {
    if ops != [] {
      var front, op := ops[..|ops| - 1], ops[|ops| - 1];
      QueueRefinesArrivalList(front);
      var waiting, queue := RefRun(front).0, Run(front).0;
      match op
      case Enqueue(item, p) => InsertKeepsStable(waiting, queue, Entry(item, p), Priority);
      case Dequeue =>
        if waiting == [] {
          SortIsPermutation(waiting, Priority);
        } else {
          DequeueAgrees(waiting, queue);
        }
    }
    SortIsStableSort(RefRun(ops).0, Priority);
    StableSortUnique(RefRun(ops).0, Run(ops).0, Sort(RefRun(ops).0, Priority), Priority);
  }

  ghost function Added<T>(op: Op<T>): seq<Entry<T>> {
    if op.Enqueue? then [Entry(op.item, op.priority)] else []
  }

  ghost function Enqueued<T>(ops: seq<Op<T>>): seq<Entry<T>> {
    if ops == [] then [] else Enqueued(ops[..|ops| - 1]) + Added(ops[|ops| - 1])
  }

  /** Nothing is lost or duplicated: what was enqueued is what was handed out and what is held. */
  lemma {:induction false} QueueConserves<T>(ops: seq<Op<T>>)
    ensures multiset(Enqueued(ops)) == multiset(Run(ops).1) + multiset(Run(ops).0)
  {
    if ops != [] {
      var front, op := ops[..|ops| - 1], ops[|ops| - 1];
      QueueConserves(front);
      var (queue, handed) := Run(front);
      var (queue', out) := Step(queue, op);
      StepConserves(queue, op);
      assert Enqueued(ops) == Enqueued(front) + Added(op);
      assert Run(ops) == (queue', handed + out);
      Bags(multiset(Enqueued(front)), multiset(handed), multiset(queue), multiset(Added(op)), multiset(queue'), multiset(out));
    }
  }

  lemma Bags<T>(entered: multiset<T>, handed: multiset<T>, queue: multiset<T>,
                added: multiset<T>, queue': multiset<T>, out: multiset<T>)
    requires entered == handed + queue && queue + added == queue' + out
    ensures entered + added == (handed + out) + queue'
  {
    calc {
      entered + added;
      handed + (queue + added);
      handed + (queue' + out);
      (handed + out) + queue';
    }
  }

  lemma StepConserves<T>(queue: seq<Entry<T>>, op: Op<T>)
    ensures multiset(queue) + multiset(Added(op)) == multiset(Step(queue, op).0) + multiset(Step(queue, op).1)
  {
    var (queue', out) := Step(queue, op);
    if op.Enqueue? {
      var e := Entry(op.item, op.priority);
      InsertIsPermutation(queue, e, Priority);
      assert Added(op) == [e] && queue' == Insert(queue, e, Priority) && out == [];
    } else if queue == [] {
      assert Added(op) == [] && queue' == [] && out == [];
    } else {
      assert Added(op) == [] && queue' == queue[1..] && out == [queue[0]];
      assert queue == out + queue';
    }
  }

  function Drain<T>(n: nat): seq<Op<T>> {
    seq(n, _ => Dequeue)
  }

  lemma {:induction false} DrainHandsOut<T>(ops: seq<Op<T>>, n: nat)
    requires n <= |Run(ops).0|
    ensures Run(ops + Drain(n)) == (Run(ops).0[n..], Run(ops).1 + Run(ops).0[..n])
  {
    if n == 0 {
      assert ops + Drain(0) == ops;
      assert Run(ops).0[0..] == Run(ops).0;
      assert Run(ops).1 + Run(ops).0[..0] == Run(ops).1;
    } else {
      DrainHandsOut(ops, n - 1);
      var all := ops + Drain<T>(n);
      assert all[..|all| - 1] == ops + Drain(n - 1);
      assert all[|all| - 1] == Op<T>.Dequeue;
      var queue := Run(ops).0;
      assert queue[..n] == queue[..n - 1] + [queue[n - 1]];
      var handed := Run(ops).1;
      assert Run(all[..|all| - 1]) == (queue[n - 1..], handed + queue[..n - 1]);
      assert queue[n - 1..][1..] == queue[n..] && queue[n - 1..] != [];
      assert Run(all).0 == queue[n..];
      assert Run(all).1 == handed + queue[..n - 1] + [queue[n - 1]];
      assert handed + queue[..n - 1] + [queue[n - 1]] == handed + queue[..n];
    }
  }

  lemma {:induction false} OnlyEnqueued<T>(ops: seq<Op<T>>)
    requires forall i :: 0 <= i < |ops| ==> ops[i].Enqueue?
    ensures RefRun(ops) == (Enqueued(ops), [])
  {
    if ops != [] {
      OnlyEnqueued(ops[..|ops| - 1]);
      assert ops[|ops| - 1].Enqueue?;
      assert RefRun(ops).1 == [] + [];
    }
  }

  /** Filling the queue and draining it yields the stable sort of what was inserted. */
  lemma DrainIsStableSort<T>(ops: seq<Op<T>>)
    requires forall i :: 0 <= i < |ops| ==> ops[i].Enqueue?
    ensures Run(ops + Drain(|ops|)).1 == Sort(Enqueued(ops), Priority)
    ensures IsStableSort(Enqueued(ops), Run(ops + Drain(|ops|)).1, Priority)
  {
    QueueRefinesArrivalList(ops);
    OnlyEnqueued(ops);
    EnqueuedLength(ops);
    SortIsPermutation(Enqueued(ops), Priority);
    DrainHandsOut(ops, |ops|);
  }

  lemma {:induction false} EnqueuedLength<T>(ops: seq<Op<T>>)
    requires forall i :: 0 <= i < |ops| ==> ops[i].Enqueue?
    ensures |Enqueued(ops)| == |ops|
  {
    if ops != [] {
      EnqueuedLength(ops[..|ops| - 1]);
    }
  }
}
