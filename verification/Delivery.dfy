/** A queued callback, a delivered event among them, keeps the scheduler from stopping until it has left its thread. */
module Delivery {
  import opened Types
  import opened Protocol
  import opened Ownership
  import opened Executions
  import opened Steps
  import F = Fifo

  /** Where an entry of the queue has got to. */
  datatype Place = Queued(i: nat) | OnThread(t: ThreadId) | Left

  /** One step further: the queue closes up, a scan takes the entry, its fiber leaves the thread. */
  function Move(s: State, step: Step, p: Place): Place {
    match p
    case Queued(i) =>
      var k := F.TakenAt(s, step);
      if k == i then (if step.ScanQueue? then OnThread(step.t) else p) else if k < i then Queued(i - 1) else p
    case OnThread(t) => if step.Switch? && step.t == t then Left else p
    case Left => Left
  }

  function Track(s: State, steps: seq<Step>, p: Place): Place
    requires IsRun(s, steps)
    decreases |steps|
  {
    if steps == [] then p else Track(Apply(s, steps[0]), steps[1..], Move(s, steps[0], p))
  }

  /** The entry is where it is said to be: queued, in the worker's hand, or running there, and no other callback in its place. */
  predicate IsAt(s: State, e: Entry, p: Place) {
    match p
    case Queued(i) => i < |s.queue| && s.queue[i] == e
    case OnThread(t) => t in s.workers && (s.workers[t].pc == InHand(e) || RunsTask(s, s.workers[t].pc, e.task))
    case Left => true
  }

  /** The worker runs this callback, on a fiber that has no other. */
  predicate RunsTask(s: State, pc: Pc, task: Task) {
    pc.Running? && pc.viaCb && task.Call? && pc.f in s.fibers && s.fibers[pc.f] == FiberRec(EXEC, Some(task.cb))
  }

  lemma QueuedMoves(s: State, step: Step, e: Entry, i: nat)
    requires Enabled(s, step) && IsAt(s, e, Queued(i))
    ensures IsAt(Apply(s, step), e, Move(s, step, Queued(i)))
  {
    F.QueueEffect(s, step);
    var k := F.TakenAt(s, step);
    if step.ScanQueue? && k == i {
      assert Apply(s, step) == Take(s, step.t, i);
    }
  }

  /** A worker with a callback keeps it until its fiber leaves. */
  lemma OnThreadStays(s: State, step: Step, e: Entry, t: ThreadId)
    requires Inv(s) && Enabled(s, step) && e.task.Call? && IsAt(s, e, OnThread(t))
    ensures IsAt(Apply(s, step), e, Move(s, step, OnThread(t)))
  {
    if step.StartTask? && step.t == t {
      StartCallback(s, t, step.newId, e.task.cb);
    } else if !(step.Switch? && step.t == t) {
      StaysPut(s, step, e, t);
      if s.workers[t].pc.Running? { RunningKept(s, step, t); }
    }
  }

  lemma StaysPut(s: State, step: Step, e: Entry, t: ThreadId)
    requires Enabled(s, step) && t in s.workers && (s.workers[t].pc.InHand? || s.workers[t].pc.Running?)
    requires !((step.Switch? || step.StartTask?) && step.t == t)
    ensures Apply(s, step).workers[t].pc == s.workers[t].pc
  {
    if IsIo(step) {
      IoWorkers(s, step);
    } else if ByWorker(step) && step.t == t {
      assert step.Schedule?;
    } else {
      OthersStay(s, step, t);
    }
  }

  lemma OthersStay(s: State, step: Step, t: ThreadId)
    requires Enabled(s, step) && !IsIo(step) && t in s.workers && (ByWorker(step) ==> step.t != t)
    ensures Apply(s, step).workers[t] == s.workers[t]
  {
    match step
    case StartTask(u, newId) => assert Apply(s, step) == DoStart(s, u, newId);
    case Settle(u) => assert Apply(s, step) == DoSettle(s, u);
    case _ =>
  }

  lemma MoveIsAt(s: State, step: Step, e: Entry, p: Place)
    requires Inv(s) && Enabled(s, step) && e.task.Call? && IsAt(s, e, p)
    ensures IsAt(Apply(s, step), e, Move(s, step, p))
  {
    if p.Queued? {
      QueuedMoves(s, step, e, p.i);
    } else if p.OnThread? {
      OnThreadStays(s, step, e, p.t);
    }
  }

  lemma {:induction false} TrackIsAt(s: State, steps: seq<Step>, e: Entry, p: Place)
    requires Inv(s) && IsRun(s, steps) && IsDisciplined(s, steps) && e.task.Call? && IsAt(s, e, p)
    ensures IsAt(After(s, steps), e, Track(s, steps, p))
    decreases |steps|
  {
    if steps != [] {
      InvKeeps(s, steps[0]);
      MoveIsAt(s, steps[0], e, p);
      TrackIsAt(Apply(s, steps[0]), steps[1..], e, Move(s, steps[0], p));
    }
  }

  /** A callback in the queue: until its fiber leaves its thread it is queued, or its worker keeps the active count above zero. */
  lemma CallbackCovered(s: State, steps: seq<Step>, i: nat)
    requires Inv(s) && IsRun(s, steps) && IsDisciplined(s, steps) && i < |s.queue| && s.queue[i].task.Call?
    ensures
      var s', p := After(s, steps), Track(s, steps, Queued(i));
      && IsAt(s', s.queue[i], p)
      && (p.Queued? ==> s'.queue != []) && (p.OnThread? ==> s'.active > 0)
      && (p != Left ==> !QueueStopped(s'))
  {
    TrackIsAt(s, steps, s.queue[i], Queued(i));
    RunKeepsInv(s, steps);
    AtIsCovered(After(s, steps), s.queue[i], Track(s, steps, Queued(i)));
  }

  lemma AtIsCovered(s: State, e: Entry, p: Place)
    requires CountersOk(s) && IsAt(s, e, p)
    ensures (p.Queued? ==> s.queue != []) && (p.OnThread? ==> s.active > 0) && (p != Left ==> !QueueStopped(s))
  {
    if p.OnThread? {
      assert p.t in BusyThreads(s.workers);
    }
  }

  /** From the moment triggerEvent schedules a registered callback, in any disciplined run from the start. */
  lemma DeliveryCovered(s0: State, before: seq<Step>, t: ThreadId, key: Key, after: seq<Step>)
    requires Initial(s0) && IsRun(s0, before) && IsDisciplined(s0, before)
    requires
      var s := After(s0, before);
      && Enabled(s, FireBegin(t, key)) && s.regs[key].Call?
      && IsRun(Apply(s, FireBegin(t, key)), after) && IsDisciplined(Apply(s, FireBegin(t, key)), after)
    ensures
      var s := After(s0, before);
      var s1 := Apply(s, FireBegin(t, key));
      var e, p, s' := Entry(s.regs[key], ANY), Track(s1, after, Queued(|s.queue|)), After(s1, after);
      && s1.queue == s.queue + [e] && IsAt(s', e, p)
      && (p.Queued? ==> s'.queue != []) && (p.OnThread? ==> s'.active > 0) && (p != Left ==> !QueueStopped(s'))
  {
    InitialInv(s0);
    RunKeepsInv(s0, before);
    var s := After(s0, before);
    InvKeeps(s, FireBegin(t, key));
    CallbackCovered(Apply(s, FireBegin(t, key)), after, |s.queue|);
  }
}
