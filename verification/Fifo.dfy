/** The order of the shared queue: callbacks of one pin class leave it in the order they entered it. */
module Fifo {
  import opened Types
  import opened Protocol

  // ---- what one step does to the queue -----------------------------------------------------------------

  /** The entry a step appends, if any. */
  function Added(s: State, step: Step): seq<Entry>
    requires Enabled(s, step)
  {
    match step
    case External(e) => [e]
    case Schedule(_, e) => [e]
    case Settle(t) => if InReadyWindow(s, t) then [Entry(Fib(s.workers[t].pc.f), ANY)] else []
    case FireBegin(_, key) => [Entry(s.regs[key], ANY)]
    case Remote(key, RemoteFire) => [Entry(s.regs[key], ANY)]
    case _ => []
  }

  /** The index of the entry a step takes, or |queue|. */
  function TakenAt(s: State, step: Step): (i: nat)
    ensures i <= |s.queue|
  {
    if step.ScanQueue? then FirstEligible(s.queue, s.fibers, step.t, 0) else |s.queue|
  }

  function Taken(s: State, step: Step): seq<Entry> {
    var i := TakenAt(s, step);
    if i < |s.queue| then [s.queue[i]] else []
  }

  function Rest(s: State, step: Step): seq<Entry> {
    var i := TakenAt(s, step);
    if i < |s.queue| then RemoveAt(s.queue, i) else s.queue
  }

  lemma QueueEffect(s: State, step: Step)
    requires Enabled(s, step)
    ensures Apply(s, step).queue == Rest(s, step) + Added(s, step)
  {
    match step
    case StartTask(t, newId) => assert DoStart(s, t, newId).queue == s.queue;
    case Settle(t) => assert DoSettle(s, t).queue == s.queue + Added(s, step);
    case _ =>
  }

  // ---- histories ------------------------------------------------------------------------------------------

  /** Everything appended during a run, oldest first. */
  function Enqueued(s: State, steps: seq<Step>): seq<Entry>
    requires IsRun(s, steps)
    decreases |steps|
  {
    if steps == [] then [] else Added(s, steps[0]) + Enqueued(Apply(s, steps[0]), steps[1..])
  }

  /** Everything dequeued during a run, oldest first. */
  function Dequeued(s: State, steps: seq<Step>): seq<Entry>
    requires IsRun(s, steps)
    decreases |steps|
  {
    if steps == [] then [] else Taken(s, steps[0]) + Dequeued(Apply(s, steps[0]), steps[1..])
  }

  /** The callbacks of pin class k: k is a thread, or ANY. */
  predicate InClass(e: Entry, k: ThreadId) { e.task.Call? && e.thread == k }

  function OfClass(q: seq<Entry>, k: ThreadId): seq<Entry> {
    if q == [] then [] else (if InClass(q[0], k) then [q[0]] else []) + OfClass(q[1..], k)
  }

  lemma {:induction false} OfClassConcat(a: seq<Entry>, b: seq<Entry>, k: ThreadId)
    ensures OfClass(a + b, k) == OfClass(a, k) + OfClass(b, k)
  {
    if a == [] {
      assert a + b == b;
    } else {
      assert (a + b)[1..] == a[1..] + b;
      OfClassConcat(a[1..], b, k);
    }
  }

  lemma {:induction false} OfClassNone(q: seq<Entry>, k: ThreadId)
    requires forall i | 0 <= i < |q| :: !InClass(q[i], k)
    ensures OfClass(q, k) == []
  {
    if q != [] {
      OfClassNone(q[1..], k);
    }
  }

  /** Removing the oldest entry of a class, or an entry outside it, takes it off the front. */
  lemma RemoveOldest(q: seq<Entry>, i: nat, k: ThreadId)
    requires i < |q| && (InClass(q[i], k) ==> forall j | 0 <= j < i :: !InClass(q[j], k))
    ensures OfClass(q, k) == OfClass([q[i]], k) + OfClass(RemoveAt(q, i), k)
  {
    var before, e, after := q[..i], q[i], q[i + 1..];
    assert q == before + ([e] + after);
    OfClassConcat(before, [e] + after, k);
    OfClassConcat([e], after, k);
    OfClassConcat(before, after, k);
    if InClass(e, k) {
      OfClassNone(before, k);
    } else {
      assert OfClass([e], k) == [];
    }
  }

  /** The scan takes the oldest callback of whichever class it takes from. */
  lemma TakesOldest(s: State, t: ThreadId, k: ThreadId)
    requires FirstEligible(s.queue, s.fibers, t, 0) < |s.queue|
    ensures
      var i := FirstEligible(s.queue, s.fibers, t, 0);
      OfClass(s.queue, k) == OfClass([s.queue[i]], k) + OfClass(RemoveAt(s.queue, i), k)
  {
    RemoveOldest(s.queue, FirstEligible(s.queue, s.fibers, t, 0), k);
  }

  lemma StepFifo(s: State, step: Step, k: ThreadId)
    requires Enabled(s, step)
    ensures OfClass(s.queue, k) + OfClass(Added(s, step), k) == OfClass(Taken(s, step), k) + OfClass(Apply(s, step).queue, k)
  {
    QueueEffect(s, step);
    OfClassConcat(Rest(s, step), Added(s, step), k);
    if TakenAt(s, step) < |s.queue| {
      TakesOldest(s, step.t, k);
    } else {
      assert OfClass([], k) == [];
    }
  }

  lemma Regroup<T>(a: seq<T>, b: seq<T>, c: seq<T>, t: seq<T>, q: seq<T>, out: seq<T>, end: seq<T>)
    requires a + b == t + q && q + c == out + end
    ensures a + (b + c) == (t + out) + end
  {
    assert a + (b + c) == (a + b) + c;
    assert (t + q) + c == t + (q + c);
    assert t + (out + end) == (t + out) + end;
  }

  /** Joining one step (q to q1) with the rest of a run (q1 to q2). */
  lemma JoinFifo(q: seq<Entry>, added: seq<Entry>, taken: seq<Entry>, q1: seq<Entry>, later: seq<Entry>, out: seq<Entry>, q2: seq<Entry>, k: ThreadId)
    requires OfClass(q, k) + OfClass(added, k) == OfClass(taken, k) + OfClass(q1, k)
    requires OfClass(q1 + later, k) == OfClass(out, k) + OfClass(q2, k)
    ensures OfClass(q + (added + later), k) == OfClass(taken + out, k) + OfClass(q2, k)
  {
    OfClassConcat(q, added + later, k);
    OfClassConcat(added, later, k);
    OfClassConcat(q1, later, k);
    OfClassConcat(taken, out, k);
    Regroup(OfClass(q, k), OfClass(added, k), OfClass(later, k), OfClass(taken, k), OfClass(q1, k), OfClass(out, k), OfClass(q2, k));
  }

  /** In every run whatever, callbacks of one class are dequeued in the order in which they were enqueued, and none is lost. */
  lemma {:induction false} GlobalFifo(s: State, steps: seq<Step>, k: ThreadId)
    requires IsRun(s, steps)
    ensures OfClass(s.queue + Enqueued(s, steps), k) == OfClass(Dequeued(s, steps), k) + OfClass(After(s, steps).queue, k)
    decreases |steps|
  {
    if steps == [] {
      assert s.queue + [] == s.queue;
    } else {
      var s' := Apply(s, steps[0]);
      GlobalFifo(s', steps[1..], k);
      StepFifo(s, steps[0], k);
      JoinFifo(s.queue, Added(s, steps[0]), Taken(s, steps[0]), s'.queue,
        Enqueued(s', steps[1..]), Dequeued(s', steps[1..]), After(s', steps[1..]).queue, k);
    }
  }

  lemma StepConserves(s: State, step: Step)
    requires Enabled(s, step)
    ensures multiset(s.queue) + multiset(Added(s, step)) == multiset(Taken(s, step)) + multiset(Apply(s, step).queue)
  {
    QueueEffect(s, step);
    var i := TakenAt(s, step);
    if i < |s.queue| { RemoveConserves(s.queue, i); }
    Exchange(multiset(s.queue), multiset(Taken(s, step)), multiset(Rest(s, step)), multiset(Added(s, step)));
  }

  lemma RemoveConserves(q: seq<Entry>, i: nat)
    requires i < |q|
    ensures multiset(q) == multiset([q[i]]) + multiset(RemoveAt(q, i))
  {
    assert q == q[..i] + ([q[i]] + q[i + 1..]);
  }

  lemma Exchange(q: multiset<Entry>, taken: multiset<Entry>, rest: multiset<Entry>, added: multiset<Entry>)
    requires q == taken + rest
    ensures q + added == taken + (rest + added)
  {
  }

  lemma JoinConserved(q: seq<Entry>, added: seq<Entry>, taken: seq<Entry>, q1: seq<Entry>, later: seq<Entry>, out: seq<Entry>, q2: seq<Entry>)
    requires multiset(q) + multiset(added) == multiset(taken) + multiset(q1)
    requires multiset(q1) + multiset(later) == multiset(out) + multiset(q2)
    ensures multiset(q) + multiset(added + later) == multiset(taken + out) + multiset(q2)
  {
    forall e: Entry
      ensures (multiset(q) + multiset(added + later))[e] == (multiset(taken + out) + multiset(q2))[e]
    {
      assert (multiset(q) + multiset(added))[e] == (multiset(taken) + multiset(q1))[e];
      assert (multiset(q1) + multiset(later))[e] == (multiset(out) + multiset(q2))[e];
    }
  }

  /** Every entry enqueued is dequeued once or still queued: fibers and callbacks alike. */
  lemma {:induction false} Conservation(s: State, steps: seq<Step>)
    requires IsRun(s, steps)
    ensures multiset(s.queue) + multiset(Enqueued(s, steps)) == multiset(Dequeued(s, steps)) + multiset(After(s, steps).queue)
    decreases |steps|
  {
    if steps != [] {
      var s' := Apply(s, steps[0]);
      StepConserves(s, steps[0]);
      Conservation(s', steps[1..]);
      JoinConserved(s.queue, Added(s, steps[0]), Taken(s, steps[0]), s'.queue,
        Enqueued(s', steps[1..]), Dequeued(s', steps[1..]), After(s', steps[1..]).queue);
    }
  }

  /** A pinned entry is dequeued by its own thread only. */
  lemma PinnedStaysHome(s: State, t: ThreadId)
    requires Enabled(s, ScanQueue(t)) && Taken(s, ScanQueue(t)) != []
    ensures
      var e := Taken(s, ScanQueue(t))[0];
      && e in s.queue && (e.thread == ANY || e.thread == t)
      && Apply(s, ScanQueue(t)).workers[t].pc == InHand(e)
  {
  }
}
