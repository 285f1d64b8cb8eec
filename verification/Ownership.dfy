/**
 Who may touch a fiber: the wake-up discipline asked of tasks, the hand-over assumption on timing,
 and the invariant that both together give to every interleaving.
 */
module Ownership {
  import opened Types
  import opened Protocol

  // ---- wake-up sources ----------------------------------------------------------------------------

  predicate InQueue(s: State, f: FiberId) { exists e | e in s.queue :: e.task == Fib(f) }

  predicate Registered(s: State, f: FiberId) { exists key | key in s.regs :: s.regs[key] == Fib(f) }

  /** Worker w carries a wake-up of f: dequeued, being registered, or READY and about to be queued again. */
  predicate Carries(fibers: map<FiberId, FiberRec>, w: Worker, f: FiberId) {
    || (w.pc.InHand? && w.pc.e.task == Fib(f))
    || (w.io.Adding? && w.io.task == Fib(f))
    || ((w.pc.Back? || w.pc.Counted?) && w.pc.f == f && StateOf(fibers, f) == READY)
  }

  /** Something will resume f without any further action of a task. */
  predicate HasWake(s: State, f: FiberId) {
    InQueue(s, f) || Registered(s, f) || exists t | t in s.workers :: Carries(s.fibers, s.workers[t], f)
  }

  /** A fiber with something left to run. */
  predicate Wakeable(r: FiberRec) { !Done(r.state) && (r.state == INIT ==> r.cb.Some?) }

  predicate MayWake(s: State, task: Task) {
    task.Fib? ==> task.fiber in s.fibers && Wakeable(s.fibers[task.fiber]) && !HasWake(s, task.fiber)
  }

  /**
   What callers must observe: one wake-up source per suspension, none for a fiber that ends, no call from outside after
   stop(), and no call of the registry whose assertion fails.
   */
  predicate WakeDiscipline(s: State, step: Step)
    requires Enabled(s, step)
  {
    match step
    case External(e) => !s.autoStop && MayWake(s, e.task)
    case Remote(_, _) => !s.autoStop
    case FailedCall(_, _) => false
    case Schedule(_, e) => MayWake(s, e.task)
    case AddBegin(_, _, task) => MayWake(s, task)
    case Switch(t, how) => how != ToHold ==> !HasWake(s, s.workers[t].pc.f)
    case _ => true
  }

  /** Worker w has switched away from f but has not acted on f's state yet (scheduler.cpp:195-205, 215-226). */
  predicate Unsettled(w: Worker, f: FiberId) { (w.pc.Back? || w.pc.Counted?) && w.pc.f == f }

  /** The timing the source relies on without a lock: a wake-up is not dequeued before the old worker has settled the fiber. */
  predicate Handover(s: State, step: Step)
    requires Enabled(s, step)
  {
    step.ScanQueue? ==> ScanHandover(s, step.t)
  }

  predicate ScanHandover(s: State, t: ThreadId) {
    var i := FirstEligible(s.queue, s.fibers, t, 0);
    i < |s.queue| && s.queue[i].task.Fib? ==>
      forall u | u in s.workers :: !Unsettled(s.workers[u], s.queue[i].task.fiber)
  }

  // ---- the invariant --------------------------------------------------------------------------------

  predicate FiberPc(s: State, w: Worker) {
    match w.pc
    case InHand(e) => e.task.Fib? ==> e.task.fiber in s.fibers && Wakeable(s.fibers[e.task.fiber]) && s.fibers[e.task.fiber].state != EXEC
    case Running(f, _) => f in s.fibers && s.fibers[f].state == EXEC
    case Back(f, _) => f in s.fibers && !(s.fibers[f].state in {INIT, EXEC})
    case Counted(f, _) => f in s.fibers && !(s.fibers[f].state in {INIT, EXEC})
    case _ => true
  }

  predicate ViaCb(pc: Pc) { (pc.Running? || pc.Back? || pc.Counted?) && pc.viaCb }

  /** The reusable callback fiber runs on its worker, or is parked: INIT, no callback. */
  predicate ReuseOk(s: State, w: Worker) {
    && (ViaCb(w.pc) ==> w.reuse == Some(w.pc.f))
    && (w.reuse.Some? && !ViaCb(w.pc) ==> w.reuse.value in s.fibers && s.fibers[w.reuse.value] == FiberRec(INIT, None))
  }

  predicate IoShape(s: State, w: Worker) {
    match w.io
    case NoOp => true
    case Adding(key, task) => w.pc.Running? && key !in s.regs && (task.Fib? ==> task.fiber == w.pc.f)
    case Deleting(key) => w.pc.Running? && key in s.regs
    case Firing(key) => w.pc.Running? || w.pc.Waiting?
  }

  predicate IdleShape(s: State, w: Worker) {
    && (w.idleTerm ==> Stopping(s) && !InIdleFiber(w.pc))
    && (w.pc.IdleMid? ==> Stopping(s))
    && (w.pc.Exited? ==> w.idleTerm)
  }

  predicate WorkerOk(s: State, w: Worker) {
    FiberPc(s, w) && ReuseOk(s, w) && IoShape(s, w) && IdleShape(s, w)
  }

  predicate WorkersOk(s: State) { forall t | t in s.workers :: WorkerOk(s, s.workers[t]) }

  /** Two workers share no fiber, no reusable fiber and no locked fd. */
  predicate Apart(w1: Worker, w2: Worker) {
    && (Held(w1.pc).Some? ==> Held(w1.pc) != Held(w2.pc))
    && (w1.reuse.Some? ==> w1.reuse != w2.reuse)
    && (!w1.io.NoOp? ==> !OpOnFd(w2.io, w1.io.key.fd))
  }

  predicate WorkersApart(s: State) {
    forall t1, t2 | t1 in s.workers && t2 in s.workers && t1 != t2 :: Apart(s.workers[t1], s.workers[t2])
  }

  /** A fiber in execution is being run by some worker. */
  predicate ExecOwned(s: State) {
    forall f | f in s.fibers && s.fibers[f].state == EXEC ::
      exists t | t in s.workers :: s.workers[t].pc.Running? && s.workers[t].pc.f == f
  }

  /** No fiber twice in the queue. */
  predicate NoDuplicates(q: seq<Entry>) {
    forall i, j | 0 <= i < j < |q| && q[i].task.Fib? :: q[i].task != q[j].task
  }

  predicate NotCarried(s: State, f: FiberId) {
    forall t | t in s.workers :: !Carries(s.fibers, s.workers[t], f)
  }

  predicate QueueOk(s: State) {
    && NoDuplicates(s.queue)
    && forall e | e in s.queue && e.task.Fib? ::
      e.task.fiber in s.fibers && Wakeable(s.fibers[e.task.fiber]) && !Registered(s, e.task.fiber) && NotCarried(s, e.task.fiber)
  }

  predicate RegsOk(s: State) {
    && (forall k1, k2 | k1 in s.regs && k2 in s.regs && k1 != k2 && s.regs[k1].Fib? :: s.regs[k1] != s.regs[k2])
    && forall key | key in s.regs && s.regs[key].Fib? ::
      var f := s.regs[key].fiber;
      f in s.fibers && Wakeable(s.fibers[f]) && NotCarried(s, f)
  }

  function BusyThreads(workers: map<ThreadId, Worker>): set<ThreadId> {
    set t | t in workers && Busy(workers[t].pc)
  }

  function IdleThreads(workers: map<ThreadId, Worker>): set<ThreadId> {
    set t | t in workers && InIdleFiber(workers[t].pc)
  }

  /** Threads that have counted a registration but not set its bit, or cleared a bit but not uncounted it. */
  function AheadThreads(workers: map<ThreadId, Worker>): set<ThreadId> {
    set t | t in workers && (workers[t].io.Adding? || workers[t].io.Firing?)
  }

  /** Threads that have uncounted a registration whose bit is still set. */
  function BehindThreads(workers: map<ThreadId, Worker>): set<ThreadId> {
    set t | t in workers && workers[t].io.Deleting?
  }

  /** m_activeThreadCount and m_idleThreadCount against what they are meant to count. */
  predicate CountersOk(s: State) {
    && s.active == |BusyThreads(s.workers)|
    && s.idle == |IdleThreads(s.workers)|
  }

  /** Registrations that m_pendingEventCount does not see, beyond the operations between count and bit. */
  function Uncounted(s: State): int {
    |s.regs| + |AheadThreads(s.workers)| - |BehindThreads(s.workers)| - s.pending
  }

  /** delEvent of an event that is not registered, while the other one of its descriptor is. */
  predicate Miscounts(s: State, step: Step) {
    step.DelOther? || (step.Remote? && step.call.RemoteDel? && step.key !in s.regs)
  }

  predicate Owned(s: State) {
    WorkersOk(s) && WorkersApart(s) && ExecOwned(s) && QueueOk(s) && RegsOk(s)
  }

  predicate Inv(s: State) {
    !s.aborted && ANY !in s.workers && Owned(s) && CountersOk(s)
  }

  // ---- counting -----------------------------------------------------------------------------------

  function One(b: bool): int { if b then 1 else 0 }

  /** Changing one worker changes each count by at most that worker. */
  lemma CountUpdate(workers: map<ThreadId, Worker>, t: ThreadId, w: Worker)
    requires t in workers
    ensures |BusyThreads(workers[t := w])| == |BusyThreads(workers)| - One(Busy(workers[t].pc)) + One(Busy(w.pc))
    ensures |IdleThreads(workers[t := w])| == |IdleThreads(workers)| - One(InIdleFiber(workers[t].pc)) + One(InIdleFiber(w.pc))
    ensures |AheadThreads(workers[t := w])| == |AheadThreads(workers)|
      - One(workers[t].io.Adding? || workers[t].io.Firing?) + One(w.io.Adding? || w.io.Firing?)
    ensures |BehindThreads(workers[t := w])| == |BehindThreads(workers)| - One(workers[t].io.Deleting?) + One(w.io.Deleting?)
  {
    var workers' := workers[t := w];
    SetUpdate(BusyThreads(workers), BusyThreads(workers'), t);
    SetUpdate(IdleThreads(workers), IdleThreads(workers'), t);
    SetUpdate(AheadThreads(workers), AheadThreads(workers'), t);
    SetUpdate(BehindThreads(workers), BehindThreads(workers'), t);
  }

  lemma SetUpdate(before: set<ThreadId>, after: set<ThreadId>, t: ThreadId)
    requires before - {t} == after - {t}
    ensures |after| == |before| - One(t in before) + One(t in after)
  {
    var rest := before - {t};
    assert before == if t in before then rest + {t} else rest;
    assert after == if t in after then rest + {t} else rest;
  }

  // ---- what one worker's step leaves alone ----------------------------------------------------------

  /** Only worker t differs. */
  predicate OnlyWorker(s: State, s': State, t: ThreadId) {
    && t in s.workers && s'.workers.Keys == s.workers.Keys
    && forall u | u in s.workers && u != t :: s'.workers[u] == s.workers[u]
  }

  /** Only fiber f differs, or is new. */
  predicate OnlyFiber(s: State, s': State, f: Option<FiberId>) {
    if f.None? then s'.fibers == s.fibers
    else
      && s.fibers.Keys <= s'.fibers.Keys
      && forall g | g in s'.fibers && g != f.value :: g in s.fibers && s'.fibers[g] == s.fibers[g]
  }

  predicate FreeOf(w: Worker, f: FiberId) { Held(w.pc) != Some(f) && w.reuse != Some(f) }

  lemma OthersOk(s: State, s': State, t: ThreadId, f: Option<FiberId>)
    requires WorkersOk(s) && OnlyWorker(s, s', t) && OnlyFiber(s, s', f)
    requires f.Some? && f.value in s.fibers ==> forall u | u in s.workers && u != t :: FreeOf(s.workers[u], f.value)
    requires Stopping(s) ==> Stopping(s')
    requires forall u | u in s.workers && u != t && !s.workers[u].io.NoOp? ::
      var key := s.workers[u].io.key; key in s'.regs <==> key in s.regs
    ensures forall u | u in s.workers && u != t :: WorkerOk(s', s'.workers[u])
  {
    forall u | u in s.workers && u != t
      ensures WorkerOk(s', s'.workers[u])
    {
      var w := s.workers[u];
      assert WorkerOk(s, w);
      if w.reuse.Some? && w.reuse.value in s.fibers && f.Some? {
        assert f.value in s.fibers ==> FreeOf(w, f.value);
        assert w.reuse.value != f.value;
        assert w.reuse.value in s'.fibers;
      }
    }
  }

  lemma ApartKeeps(s: State, s': State, t: ThreadId)
    requires WorkersApart(s) && OnlyWorker(s, s', t)
    requires forall u | u in s.workers && u != t :: Apart(s'.workers[t], s.workers[u])
    ensures WorkersApart(s')
  {
  }

  /** The queue only lost entries; worker t carries no wake-up it did not carry, except of fibers not queued. */
  lemma QueueKeeps(s: State, s': State, t: ThreadId, f: Option<FiberId>)
    requires QueueOk(s) && OnlyWorker(s, s', t) && OnlyFiber(s, s', f)
    requires NoDuplicates(s'.queue) && forall e | e in s'.queue :: e in s.queue
    requires forall key | key in s'.regs :: key in s.regs && s'.regs[key] == s.regs[key]
    requires f.Some? && InQueue(s', f.value) ==>
      f.value in s'.fibers && Wakeable(s'.fibers[f.value]) && NotCarried(s', f.value)
    requires forall e | e in s'.queue && e.task.Fib? && Some(e.task.fiber) != f :: !Carries(s'.fibers, s'.workers[t], e.task.fiber)
    ensures QueueOk(s')
  {
    forall e | e in s'.queue && e.task.Fib?
      ensures e.task.fiber in s'.fibers && Wakeable(s'.fibers[e.task.fiber])
      ensures !Registered(s', e.task.fiber) && NotCarried(s', e.task.fiber)
    {
      assert e in s.queue;
      if Some(e.task.fiber) == f {
        assert InQueue(s', f.value);
      } else {
        forall u | u in s'.workers
          ensures !Carries(s'.fibers, s'.workers[u], e.task.fiber)
        {
          assert u != t ==> !Carries(s.fibers, s.workers[u], e.task.fiber);
        }
      }
    }
  }

  lemma QueuedAt(s: State, i: nat)
    requires i < |s.queue|
    ensures s.queue[i] in s.queue
    ensures s.queue[i].task.Fib? ==> InQueue(s, s.queue[i].task.fiber)
  {
  }

  /** A wake-up of f, known to nobody else, joins the queue. */
  lemma PushKeeps(s: State, e: Entry)
    requires QueueOk(s)
    requires e.task.Fib? ==>
      var f := e.task.fiber;
      f in s.fibers && Wakeable(s.fibers[f]) && !HasWake(s, f)
    ensures QueueOk(Push(s, e))
  {
    var s' := Push(s, e);
    forall i, j | 0 <= i < j < |s'.queue| && s'.queue[i].task.Fib?
      ensures s'.queue[i].task != s'.queue[j].task
    {
      if j == |s.queue| {
        QueuedAt(s, i);
      }
    }
  }

  lemma RegsKeep(s: State, s': State, t: ThreadId, f: Option<FiberId>)
    requires RegsOk(s) && OnlyWorker(s, s', t) && OnlyFiber(s, s', f)
    requires forall key | key in s'.regs :: key in s.regs && s'.regs[key] == s.regs[key]
    requires f.Some? && Registered(s', f.value) ==>
      f.value in s'.fibers && Wakeable(s'.fibers[f.value]) && NotCarried(s', f.value)
    requires forall key | key in s'.regs && s'.regs[key].Fib? && Some(s'.regs[key].fiber) != f ::
      !Carries(s'.fibers, s'.workers[t], s'.regs[key].fiber)
    ensures RegsOk(s')
  {
    forall key | key in s'.regs && s'.regs[key].Fib?
      ensures s'.regs[key].fiber in s'.fibers && Wakeable(s'.fibers[s'.regs[key].fiber]) && NotCarried(s', s'.regs[key].fiber)
    {
      var g := s'.regs[key].fiber;
      if Some(g) == f {
        assert Registered(s', f.value);
      } else {
        forall u | u in s'.workers
          ensures !Carries(s'.fibers, s'.workers[u], g)
        {
          assert u != t ==> !Carries(s.fibers, s.workers[u], g);
        }
      }
    }
  }

  /** A fiber that was in execution still has its worker, unless that worker is t. */
  lemma ExecTransfer(s: State, s': State, t: ThreadId)
    requires ExecOwned(s) && OnlyWorker(s, s', t)
    requires forall f | f in s'.fibers && s'.fibers[f].state == EXEC ::
      || (s'.workers[t].pc.Running? && s'.workers[t].pc.f == f)
      || (f in s.fibers && s.fibers[f].state == EXEC && !(s.workers[t].pc.Running? && s.workers[t].pc.f == f))
    ensures ExecOwned(s')
  {
    forall f | f in s'.fibers && s'.fibers[f].state == EXEC
      ensures exists u | u in s'.workers :: s'.workers[u].pc.Running? && s'.workers[u].pc.f == f
    {
      if s'.workers[t].pc.Running? && s'.workers[t].pc.f == f {
      } else {
        var u :| u in s.workers && s.workers[u].pc.Running? && s.workers[u].pc.f == f;
        assert s'.workers[u] == s.workers[u];
      }
    }
  }

  lemma RemoveAtFacts(q: seq<Entry>, i: nat)
    requires i < |q| && NoDuplicates(q)
    ensures NoDuplicates(RemoveAt(q, i))
    ensures forall e | e in RemoveAt(q, i) :: e in q && (q[i].task.Fib? ==> e.task != q[i].task)
  {
    var r := RemoveAt(q, i);
    forall k | 0 <= k < |r|
      ensures r[k] == q[if k < i then k else k + 1]
    {
    }
  }

  /** A worker's step in the registry. */
  predicate IsIo(step: Step) {
    || step.AddBegin? || step.AddCommit? || step.DelBegin? || step.DelCommit? || step.FireBegin? || step.FireEnd?
    || step.DelOther?
  }

  // ---- the steps keep the invariant -------------------------------------------------------------------

  lemma InitialInv(s: State)
    requires Initial(s)
    ensures Inv(s) && Uncounted(s) == 0
  {
    assert forall t :: t !in BusyThreads(s.workers) && t !in IdleThreads(s.workers);
    assert forall t :: t !in AheadThreads(s.workers) && t !in BehindThreads(s.workers);
  }

  /** A dequeued fiber is held by no worker. */
  lemma DequeuedIsFree(s: State, t: ThreadId, i: nat)
    requires WorkersOk(s) && QueueOk(s) && ScanHandover(s, t)
    requires i == FirstEligible(s.queue, s.fibers, t, 0) < |s.queue| && s.queue[i].task.Fib?
    ensures forall u | u in s.workers :: Held(s.workers[u].pc) != Some(s.queue[i].task.fiber)
  {
    var f := s.queue[i].task.fiber;
    assert s.queue[i] in s.queue;
    forall u | u in s.workers
      ensures Held(s.workers[u].pc) != Some(f)
    {
      assert WorkerOk(s, s.workers[u]);
      assert !Carries(s.fibers, s.workers[u], f);
      assert !Unsettled(s.workers[u], f);
    }
  }

  lemma TakeKeepsWorkers(s: State, t: ThreadId, i: nat)
    requires WorkersOk(s) && QueueOk(s) && CanAct(s, t) && s.workers[t].pc.Scan? && i < |s.queue|
    requires Eligible(s.fibers, t, s.queue[i])
    ensures WorkersOk(Take(s, t, i))
  {
    assert WorkerOk(s, s.workers[t]);
    assert s.queue[i] in s.queue;
    OthersOk(s, Take(s, t, i), t, None);
  }

  lemma TakeKeepsOwners(s: State, t: ThreadId, i: nat)
    requires WorkersApart(s) && ExecOwned(s) && CanAct(s, t) && s.workers[t].pc.Scan? && i < |s.queue|
    requires s.queue[i].task.Fib? ==> forall u | u in s.workers :: Held(s.workers[u].pc) != Some(s.queue[i].task.fiber)
    ensures WorkersApart(Take(s, t, i)) && ExecOwned(Take(s, t, i))
  {
    ApartKeeps(s, Take(s, t, i), t);
    ExecTransfer(s, Take(s, t, i), t);
  }

  lemma TakeKeepsQueue(s: State, t: ThreadId, i: nat)
    requires QueueOk(s) && CanAct(s, t) && s.workers[t].pc.Scan? && i < |s.queue|
    ensures QueueOk(Take(s, t, i))
  {
    RemoveAtFacts(s.queue, i);
    QueueKeeps(s, Take(s, t, i), t, None);
  }

  lemma TakeKeepsRegs(s: State, t: ThreadId, i: nat)
    requires QueueOk(s) && RegsOk(s) && CanAct(s, t) && s.workers[t].pc.Scan? && i < |s.queue|
    ensures RegsOk(Take(s, t, i))
  {
    assert s.queue[i] in s.queue;
    RegsKeep(s, Take(s, t, i), t, None);
  }

  lemma ScanKeeps(s: State, t: ThreadId)
    requires Owned(s) && CanAct(s, t) && s.workers[t].pc.Scan? && ScanHandover(s, t)
    ensures Owned(DoScan(s, t))
  {
    var i := FirstEligible(s.queue, s.fibers, t, 0);
    if i == |s.queue| {
      assert WorkerOk(s, s.workers[t]);
      LoopKeeps(s, DoScan(s, t), t);
    } else {
      if s.queue[i].task.Fib? {
        DequeuedIsFree(s, t, i);
      }
      TakeKeepsWorkers(s, t, i);
      TakeKeepsOwners(s, t, i);
      TakeKeepsQueue(s, t, i);
      TakeKeepsRegs(s, t, i);
    }
  }

  /** The fiber a worker is about to resume is known to no other worker and has no other wake-up. */
  lemma InHandIsAlone(s: State, t: ThreadId, f: FiberId)
    requires WorkersOk(s) && WorkersApart(s) && QueueOk(s) && RegsOk(s)
    requires t in s.workers && s.workers[t].pc.InHand? && s.workers[t].pc.e.task == Fib(f)
    ensures f in s.fibers && Wakeable(s.fibers[f]) && s.fibers[f].state != EXEC
    ensures forall u | u in s.workers && u != t :: FreeOf(s.workers[u], f)
    ensures s.workers[t].reuse != Some(f)
    ensures !InQueue(s, f) && !Registered(s, f)
  {
    assert WorkerOk(s, s.workers[t]);
    assert Carries(s.fibers, s.workers[t], f);
    forall u | u in s.workers && u != t
      ensures FreeOf(s.workers[u], f)
    {
      assert WorkerOk(s, s.workers[u]);
      assert Apart(s.workers[t], s.workers[u]);
    }
  }

  /** The parked callback fiber of a worker is known to nobody else. */
  lemma ParkedIsAlone(s: State, t: ThreadId, g: FiberId)
    requires WorkersOk(s) && WorkersApart(s) && QueueOk(s) && RegsOk(s)
    requires t in s.workers && s.workers[t].reuse == Some(g) && !ViaCb(s.workers[t].pc)
    ensures g in s.fibers && s.fibers[g] == FiberRec(INIT, None)
    ensures forall u | u in s.workers && u != t :: FreeOf(s.workers[u], g)
    ensures !InQueue(s, g) && !Registered(s, g)
  {
    assert WorkerOk(s, s.workers[t]);
    forall u | u in s.workers && u != t
      ensures FreeOf(s.workers[u], g)
    {
      assert WorkerOk(s, s.workers[u]);
      assert Apart(s.workers[t], s.workers[u]);
    }
  }

  lemma SwapInKeepsWorkers(s: State, t: ThreadId, f: FiberId)
    requires WorkersOk(s) && WorkersApart(s) && QueueOk(s) && RegsOk(s)
    requires CanAct(s, t) && s.workers[t].pc.InHand? && s.workers[t].pc.e.task == Fib(f) && f in s.fibers
    ensures !DoSwapIn(s, t, f).aborted && WorkersOk(DoSwapIn(s, t, f))
  {
    var s' := DoSwapIn(s, t, f);
    assert WorkerOk(s, s.workers[t]);
    InHandIsAlone(s, t, f);
    OthersOk(s, s', t, Some(f));
  }

  lemma SwapInKeepsOwners(s: State, t: ThreadId, f: FiberId)
    requires WorkersOk(s) && WorkersApart(s) && ExecOwned(s) && QueueOk(s) && RegsOk(s)
    requires CanAct(s, t) && s.workers[t].pc.InHand? && s.workers[t].pc.e.task == Fib(f) && f in s.fibers
    ensures WorkersApart(DoSwapIn(s, t, f)) && ExecOwned(DoSwapIn(s, t, f))
    ensures QueueOk(DoSwapIn(s, t, f)) && RegsOk(DoSwapIn(s, t, f))
  {
    var s' := DoSwapIn(s, t, f);
    InHandIsAlone(s, t, f);
    ApartKeeps(s, s', t);
    ExecTransfer(s, s', t);
    QueueKeeps(s, s', t, Some(f));
    RegsKeep(s, s', t, Some(f));
  }

  /** No worker knows a fiber that does not exist yet. */
  lemma NewIsFree(s: State, g: FiberId)
    requires WorkersOk(s) && QueueOk(s) && RegsOk(s) && g !in s.fibers
    ensures forall u | u in s.workers :: FreeOf(s.workers[u], g)
    ensures !InQueue(s, g) && !Registered(s, g)
  {
    forall u | u in s.workers
      ensures FreeOf(s.workers[u], g)
    {
      assert WorkerOk(s, s.workers[u]);
    }
  }

  /** The fiber a callback will run on: the parked one, or a new one; either way nobody else knows it. */
  lemma CallbackFiberIsAlone(s: State, t: ThreadId, newId: FiberId)
    requires WorkersOk(s) && WorkersApart(s) && QueueOk(s) && RegsOk(s)
    requires CanAct(s, t) && s.workers[t].pc.InHand? && newId !in s.fibers
    ensures
      var g := s.workers[t].reuse.GetOr(newId);
      && (forall u | u in s.workers && u != t :: FreeOf(s.workers[u], g))
      && !InQueue(s, g) && !Registered(s, g) && (g in s.fibers ==> s.fibers[g].state == INIT)
  {
    if s.workers[t].reuse.Some? {
      ParkedIsAlone(s, t, s.workers[t].reuse.value);
    } else {
      NewIsFree(s, newId);
    }
  }

  /** `reset` and the first `swapIn` of the callback fiber keep the invariant and never fail their assertions. */
  lemma CallbackKeepsWorkers(s: State, t: ThreadId, cb: Callback, newId: FiberId)
    requires WorkersOk(s) && WorkersApart(s) && QueueOk(s) && RegsOk(s)
    requires CanAct(s, t) && s.workers[t].pc.InHand? && newId !in s.fibers
    ensures !DoCallback(s, t, cb, newId).aborted && WorkersOk(DoCallback(s, t, cb, newId))
  {
    var s' := DoCallback(s, t, cb, newId);
    assert WorkerOk(s, s.workers[t]);
    CallbackFiberIsAlone(s, t, newId);
    OthersOk(s, s', t, Some(s.workers[t].reuse.GetOr(newId)));
  }

  lemma CallbackKeepsOwners(s: State, t: ThreadId, cb: Callback, newId: FiberId)
    requires WorkersOk(s) && WorkersApart(s) && ExecOwned(s) && QueueOk(s) && RegsOk(s)
    requires CanAct(s, t) && s.workers[t].pc.InHand? && newId !in s.fibers
    ensures WorkersApart(DoCallback(s, t, cb, newId)) && ExecOwned(DoCallback(s, t, cb, newId))
  {
    var s' := DoCallback(s, t, cb, newId);
    CallbackFiberIsAlone(s, t, newId);
    ApartKeeps(s, s', t);
    ExecTransfer(s, s', t);
  }

  lemma CallbackKeepsWakes(s: State, t: ThreadId, cb: Callback, newId: FiberId)
    requires WorkersOk(s) && WorkersApart(s) && QueueOk(s) && RegsOk(s)
    requires CanAct(s, t) && s.workers[t].pc.InHand? && s.workers[t].pc.e.task.Call? && newId !in s.fibers
    ensures QueueOk(DoCallback(s, t, cb, newId)) && RegsOk(DoCallback(s, t, cb, newId))
  {
    var s' := DoCallback(s, t, cb, newId);
    CallbackFiberIsAlone(s, t, newId);
    QueueKeeps(s, s', t, Some(s.workers[t].reuse.GetOr(newId)));
    RegsKeep(s, s', t, Some(s.workers[t].reuse.GetOr(newId)));
  }

  /** Held by t, hence by no other worker. */
  lemma HeldIsAlone(s: State, t: ThreadId, f: FiberId)
    requires WorkersOk(s) && WorkersApart(s) && t in s.workers
    requires Held(s.workers[t].pc) == Some(f) && !s.workers[t].pc.InHand?
    ensures f in s.fibers && forall u | u in s.workers && u != t :: FreeOf(s.workers[u], f)
  {
    assert WorkerOk(s, s.workers[t]);
    forall u | u in s.workers && u != t
      ensures FreeOf(s.workers[u], f)
    {
      assert WorkerOk(s, s.workers[u]);
      assert Apart(s.workers[t], s.workers[u]);
    }
  }

  /** A worker's step that touches no fiber and adds no wake-up. */
  lemma QuietKeepsWakes(s: State, s': State, t: ThreadId)
    requires QueueOk(s) && RegsOk(s) && ExecOwned(s) && OnlyWorker(s, s', t)
    requires s'.queue == s.queue && s'.fibers == s.fibers
    requires forall key | key in s'.regs :: key in s.regs && s'.regs[key] == s.regs[key]
    requires forall f | f in s.fibers :: Carries(s.fibers, s'.workers[t], f) ==> Carries(s.fibers, s.workers[t], f)
    requires s.workers[t].pc.Running? ==> s'.workers[t].pc == s.workers[t].pc
    ensures QueueOk(s') && RegsOk(s') && ExecOwned(s')
  {
    forall e | e in s'.queue && e.task.Fib?
      ensures !Carries(s'.fibers, s'.workers[t], e.task.fiber)
    {
      assert !Carries(s.fibers, s.workers[t], e.task.fiber);
    }
    forall key | key in s'.regs && s'.regs[key].Fib?
      ensures !Carries(s'.fibers, s'.workers[t], s'.regs[key].fiber)
    {
      assert !Carries(s.fibers, s.workers[t], s.regs[key].fiber);
    }
    QueueKeeps(s, s', t, None);
    RegsKeep(s, s', t, None);
    ExecTransfer(s, s', t);
  }

  predicate LoopPc(pc: Pc) { pc.Scan? || pc.EmptyHand? || InIdleFiber(pc) || pc.Exited? }

  /** Moving between the program counters that refer to no fiber. */
  lemma LoopKeeps(s: State, s': State, t: ThreadId)
    requires Owned(s) && CanAct(s, t) && OnlyWorker(s, s', t)
    requires s'.queue == s.queue && s'.fibers == s.fibers && s'.regs == s.regs && Stopping(s') == Stopping(s)
    requires LoopPc(s.workers[t].pc) && LoopPc(s'.workers[t].pc)
    requires s'.workers[t].reuse == s.workers[t].reuse && s'.workers[t].io == s.workers[t].io
    requires IdleShape(s', s'.workers[t])
    ensures Owned(s')
  {
    assert WorkerOk(s, s.workers[t]);
    OthersOk(s, s', t, None);
    ApartKeeps(s, s', t);
    QuietKeepsWakes(s, s', t);
  }

  lemma DropKeeps(s: State, t: ThreadId)
    requires Owned(s) && CanAct(s, t) && s.workers[t].pc.InHand?
    ensures Owned(SetPc(s, t, Scan).(active := s.active - 1))
  {
    var s' := SetPc(s, t, Scan).(active := s.active - 1);
    assert WorkerOk(s, s.workers[t]);
    OthersOk(s, s', t, None);
    ApartKeeps(s, s', t);
    QuietKeepsWakes(s, s', t);
  }

  lemma SwitchKeepsWorkers(s: State, t: ThreadId, how: Exit)
    requires WorkersOk(s) && WorkersApart(s) && InFiber(s, t)
    ensures WorkersOk(DoSwitch(s, t, how)) && WorkersApart(DoSwitch(s, t, how))
  {
    var s' := DoSwitch(s, t, how);
    assert WorkerOk(s, s.workers[t]);
    HeldIsAlone(s, t, s.workers[t].pc.f);
    OthersOk(s, s', t, Some(s.workers[t].pc.f));
    ApartKeeps(s, s', t);
  }

  lemma SwitchKeepsWakes(s: State, t: ThreadId, how: Exit)
    requires WorkersOk(s) && WorkersApart(s) && ExecOwned(s) && QueueOk(s) && RegsOk(s) && InFiber(s, t)
    requires how == ToHold || !HasWake(s, s.workers[t].pc.f)
    ensures ExecOwned(DoSwitch(s, t, how)) && QueueOk(DoSwitch(s, t, how)) && RegsOk(DoSwitch(s, t, how))
  {
    var s' := DoSwitch(s, t, how);
    var f := s.workers[t].pc.f;
    assert WorkerOk(s, s.workers[t]);
    HeldIsAlone(s, t, f);
    ExecTransfer(s, s', t);
    assert NotCarried(s, f) && how == ToHold ==> NotCarried(s', f);
    assert InQueue(s, f) ==> NotCarried(s, f);
    assert Registered(s, f) ==> NotCarried(s, f);
    QueueKeeps(s, s', t, Some(f));
    RegsKeep(s, s', t, Some(f));
  }

  lemma DecrementKeeps(s: State, t: ThreadId)
    requires Owned(s) && CanAct(s, t) && s.workers[t].pc.Back?
    ensures Owned(SetPc(s, t, Counted(s.workers[t].pc.f, s.workers[t].pc.viaCb)).(active := s.active - 1))
  {
    var s' := SetPc(s, t, Counted(s.workers[t].pc.f, s.workers[t].pc.viaCb)).(active := s.active - 1);
    assert WorkerOk(s, s.workers[t]);
    OthersOk(s, s', t, None);
    ApartKeeps(s, s', t);
    QuietKeepsWakes(s, s', t);
  }

  lemma SettleKeepsWorkers(s: State, t: ThreadId)
    requires WorkersOk(s) && WorkersApart(s) && CanAct(s, t) && s.workers[t].pc.Counted?
    ensures WorkersOk(DoSettle(s, t)) && WorkersApart(DoSettle(s, t))
  {
    var s' := DoSettle(s, t);
    assert WorkerOk(s, s.workers[t]);
    HeldIsAlone(s, t, s.workers[t].pc.f);
    OthersOk(s, s', t, Some(s.workers[t].pc.f));
    ApartKeeps(s, s', t);
  }

  lemma RequeueKeepsWakes(s: State, t: ThreadId)
    requires WorkersOk(s) && WorkersApart(s) && ExecOwned(s) && QueueOk(s) && RegsOk(s)
    requires CanAct(s, t) && InReadyWindow(s, t)
    ensures ExecOwned(DoSettle(s, t)) && QueueOk(DoSettle(s, t)) && RegsOk(DoSettle(s, t))
  {
    var f := s.workers[t].pc.f;
    var s' := DoSettle(s, t);
    var s1 := s'.(queue := s.queue);
    assert WorkerOk(s, s.workers[t]);
    HeldIsAlone(s, t, f);
    assert Carries(s.fibers, s.workers[t], f);
    QuietKeepsWakes(s, s1, t);
    assert !InQueue(s1, f) && !Registered(s1, f) && NotCarried(s1, f);
    PushKeeps(s1, Entry(Fib(f), ANY));
    assert s' == Push(s1, Entry(Fib(f), ANY));
  }

  lemma RetireKeepsWakes(s: State, t: ThreadId)
    requires WorkersOk(s) && WorkersApart(s) && ExecOwned(s) && QueueOk(s) && RegsOk(s)
    requires CanAct(s, t) && s.workers[t].pc.Counted? && Done(StateOf(s.fibers, s.workers[t].pc.f))
    ensures ExecOwned(DoSettle(s, t)) && QueueOk(DoSettle(s, t)) && RegsOk(DoSettle(s, t))
  {
    var f := s.workers[t].pc.f;
    assert WorkerOk(s, s.workers[t]);
    ExecTransfer(s, DoSettle(s, t), t);
    assert !InQueue(s, f) && !Registered(s, f);
    QueueKeeps(s, DoSettle(s, t), t, Some(f));
    RegsKeep(s, DoSettle(s, t), t, Some(f));
  }

  lemma ParkKeepsWakes(s: State, t: ThreadId)
    requires WorkersOk(s) && WorkersApart(s) && ExecOwned(s) && QueueOk(s) && RegsOk(s)
    requires CanAct(s, t) && s.workers[t].pc.Counted? && StateOf(s.fibers, s.workers[t].pc.f) == HOLD
    ensures ExecOwned(DoSettle(s, t)) && QueueOk(DoSettle(s, t)) && RegsOk(DoSettle(s, t))
  {
    var f := s.workers[t].pc.f;
    assert WorkerOk(s, s.workers[t]);
    assert DoSettle(s, t).fibers == s.fibers;
    QuietKeepsWakes(s, DoSettle(s, t), t);
  }

  // ---- registry steps -------------------------------------------------------------------------------

  lemma AddBeginKeeps(s: State, t: ThreadId, key: Key, task: Task)
    requires Owned(s) && InFiber(s, t) && FdFree(s, key.fd) && key !in s.regs
    requires task.Fib? ==> task.fiber == s.workers[t].pc.f && !HasWake(s, task.fiber)
    ensures Owned(SetIo(s, t, Adding(key, task)).(pending := s.pending + 1))
  {
    var s' := SetIo(s, t, Adding(key, task)).(pending := s.pending + 1);
    assert WorkerOk(s, s.workers[t]);
    OthersOk(s, s', t, None);
    ApartKeeps(s, s', t);
    ExecTransfer(s, s', t);
    QueueKeeps(s, s', t, None);
    RegsKeep(s, s', t, None);
  }

  lemma AddCommitKeepsWorkers(s: State, t: ThreadId)
    requires WorkersOk(s) && WorkersApart(s) && ExecOwned(s) && t in s.workers && s.workers[t].io.Adding?
    ensures
      var s' := SetIo(s, t, NoOp).(regs := s.regs[s.workers[t].io.key := s.workers[t].io.task]);
      WorkersOk(s') && WorkersApart(s') && ExecOwned(s')
  {
    var s' := SetIo(s, t, NoOp).(regs := s.regs[s.workers[t].io.key := s.workers[t].io.task]);
    assert WorkerOk(s, s.workers[t]);
    assert forall u | u in s.workers && u != t :: Apart(s.workers[t], s.workers[u]);
    OthersOk(s, s', t, None);
    ApartKeeps(s, s', t);
    ExecTransfer(s, s', t);
  }

  lemma AddCommitKeepsWakes(s: State, t: ThreadId)
    requires WorkersOk(s) && WorkersApart(s) && QueueOk(s) && RegsOk(s) && t in s.workers && s.workers[t].io.Adding?
    ensures
      var s' := SetIo(s, t, NoOp).(regs := s.regs[s.workers[t].io.key := s.workers[t].io.task]);
      QueueOk(s') && RegsOk(s')
  {
    var Adding(key, task) := s.workers[t].io;
    var s' := SetIo(s, t, NoOp).(regs := s.regs[key := task]);
    assert WorkerOk(s, s.workers[t]);
    if task.Fib? {
      HeldIsAlone(s, t, task.fiber);
      assert Carries(s.fibers, s.workers[t], task.fiber);
      assert NotCarried(s', task.fiber);
    }
    forall e | e in s'.queue && e.task.Fib?
      ensures !Registered(s', e.task.fiber) && NotCarried(s', e.task.fiber)
    {
      assert !Registered(s, e.task.fiber) && NotCarried(s, e.task.fiber);
    }
    forall k | k in s'.regs && k != key && s'.regs[k].Fib?
      ensures s'.regs[k] != task && NotCarried(s', s'.regs[k].fiber)
    {
      assert NotCarried(s, s.regs[k].fiber);
    }
  }

  /** Leaving or entering the locked section of a delete or a delivery. */
  lemma IoKeeps(s: State, s': State, t: ThreadId)
    requires Owned(s) && OnlyWorker(s, s', t) && s'.queue == s.queue && s'.fibers == s.fibers
    requires s'.workers[t] == s.workers[t].(io := s'.workers[t].io) && !s'.workers[t].io.Adding?
    requires forall key | key in s'.regs :: key in s.regs && s'.regs[key] == s.regs[key]
    requires forall key | key in s.regs && key !in s'.regs :: OpOnFd(s.workers[t].io, key.fd) || FdFree(s, key.fd)
    requires Stopping(s') == Stopping(s) && IoShape(s', s'.workers[t])
    requires !s'.workers[t].io.NoOp? ==> OpOnFd(s.workers[t].io, s'.workers[t].io.key.fd) || FdFree(s, s'.workers[t].io.key.fd)
    ensures Owned(s')
  {
    assert WorkerOk(s, s.workers[t]);
    forall u | u in s.workers && u != t && !s.workers[u].io.NoOp?
      ensures var key := s.workers[u].io.key; key in s'.regs <==> key in s.regs
    {
      assert Apart(s.workers[t], s.workers[u]);
    }
    forall u | u in s.workers && u != t
      ensures Apart(s'.workers[t], s.workers[u])
    {
      assert Apart(s.workers[t], s.workers[u]);
    }
    OthersOk(s, s', t, None);
    ApartKeeps(s, s', t);
    QuietKeepsWakes(s, s', t);
  }

  lemma FireBeginKeeps(s: State, t: ThreadId, key: Key)
    requires Owned(s) && CanAct(s, t) && (s.workers[t].pc.Running? || s.workers[t].pc.Waiting?)
    requires FdFree(s, key.fd) && key in s.regs
    ensures Owned(Push(SetIo(s, t, Firing(key)).(regs := s.regs - {key}), Entry(s.regs[key], ANY)))
  {
    var s1 := SetIo(s, t, Firing(key)).(regs := s.regs - {key});
    IoKeeps(s, s1, t);
    var e := Entry(s.regs[key], ANY);
    if e.task.Fib? {
      var f := e.task.fiber;
      assert NotCarried(s, f) && Registered(s, f);
      assert !InQueue(s, f) && !Registered(s1, f) && NotCarried(s1, f);
    }
    PushOwned(s1, e);
  }

  lemma PushOwned(s: State, e: Entry)
    requires Owned(s) && MayWake(s, e.task)
    ensures Owned(Push(s, e))
  {
    var s' := Push(s, e);
    PushKeeps(s, e);
    assert forall t | t in s.workers :: WorkerOk(s, s.workers[t]);
    assert forall t | t in s'.workers :: WorkerOk(s', s'.workers[t]);
    assert ExecOwned(s') by {
      forall f | f in s'.fibers && s'.fibers[f].state == EXEC
        ensures exists u | u in s'.workers :: s'.workers[u].pc.Running? && s'.workers[u].pc.f == f
      {
        var u :| u in s.workers && s.workers[u].pc.Running? && s.workers[u].pc.f == f;
        assert s'.workers[u] == s.workers[u];
      }
    }
  }

  // ---- every step -------------------------------------------------------------------------------------

  lemma StartKeeps(s: State, t: ThreadId, newId: FiberId)
    requires Owned(s) && CanAct(s, t) && s.workers[t].pc.InHand? && newId !in s.fibers
    ensures Owned(DoStart(s, t, newId)) && !DoStart(s, t, newId).aborted
  {
    match s.workers[t].pc.e.task
    case Call(cb) =>
      CallbackKeepsWorkers(s, t, cb, newId);
      CallbackKeepsOwners(s, t, cb, newId);
      CallbackKeepsWakes(s, t, cb, newId);
    case Fib(f) =>
      DropKeeps(s, t);
      if f in s.fibers {
        SwapInKeepsWorkers(s, t, f);
        SwapInKeepsOwners(s, t, f);
      }
  }

  lemma SettleKeeps(s: State, t: ThreadId)
    requires Owned(s) && CanAct(s, t) && s.workers[t].pc.Counted?
    ensures Owned(DoSettle(s, t))
  {
    SettleKeepsWorkers(s, t);
    if InReadyWindow(s, t) {
      RequeueKeepsWakes(s, t);
    } else if Done(StateOf(s.fibers, s.workers[t].pc.f)) {
      RetireKeepsWakes(s, t);
    } else {
      assert WorkerOk(s, s.workers[t]);
      ParkKeepsWakes(s, t);
    }
  }

  lemma NewFiberKeeps(s: State, g: FiberId, cb: Callback)
    requires Owned(s) && g !in s.fibers
    ensures Owned(s.(fibers := s.fibers[g := FiberRec(INIT, Some(cb))]))
  {
    var s' := s.(fibers := s.fibers[g := FiberRec(INIT, Some(cb))]);
    NewIsFree(s, g);
    forall t | t in s.workers
      ensures WorkerOk(s', s'.workers[t])
      ensures forall f | f in s.fibers :: Carries(s'.fibers, s'.workers[t], f) ==> Carries(s.fibers, s.workers[t], f)
    {
      assert WorkerOk(s, s.workers[t]) && FreeOf(s.workers[t], g);
    }
    assert forall f | f in s.fibers :: NotCarried(s, f) ==> NotCarried(s', f);
    assert forall f :: Registered(s', f) ==> Registered(s, f);
  }

  lemma RequestStopKeeps(s: State)
    requires Owned(s)
    ensures Owned(s.(autoStop := true, isRunning := false))
  {
    var s' := s.(autoStop := true, isRunning := false);
    forall t | t in s'.workers
      ensures WorkerOk(s', s'.workers[t])
    {
      assert WorkerOk(s, s.workers[t]);
    }
    assert forall f :: Registered(s', f) ==> Registered(s, f);
    assert forall f :: NotCarried(s, f) ==> NotCarried(s', f);
  }

  lemma AddCommitKeeps(s: State, t: ThreadId)
    requires Owned(s) && Enabled(s, AddCommit(t))
    ensures Owned(Apply(s, AddCommit(t)))
  {
    AddCommitKeepsWorkers(s, t);
    AddCommitKeepsWakes(s, t);
  }

  lemma DelBeginKeeps(s: State, t: ThreadId, key: Key)
    requires Owned(s) && InFiber(s, t) && FdFree(s, key.fd) && key in s.regs
    ensures Owned(SetIo(s, t, Deleting(key)).(pending := s.pending - 1))
  {
    IoKeeps(s, SetIo(s, t, Deleting(key)).(pending := s.pending - 1), t);
  }

  lemma DelCommitKeeps(s: State, t: ThreadId)
    requires Owned(s) && t in s.workers && s.workers[t].io.Deleting?
    ensures Owned(SetIo(s, t, NoOp).(regs := s.regs - {s.workers[t].io.key}))
  {
    IoKeeps(s, SetIo(s, t, NoOp).(regs := s.regs - {s.workers[t].io.key}), t);
  }

  lemma FireEndKeeps(s: State, t: ThreadId)
    requires Owned(s) && t in s.workers && s.workers[t].io.Firing?
    ensures Owned(SetIo(s, t, NoOp).(pending := s.pending - 1))
  {
    IoKeeps(s, SetIo(s, t, NoOp).(pending := s.pending - 1), t);
  }

  lemma LoopStepKeeps(s: State, step: Step)
    requires Owned(s) && Enabled(s, step)
    requires step.Leave? || step.IdleCheck? || step.PendingCheck? || step.IdleYield?
    ensures Owned(Apply(s, step))
  {
    assert WorkerOk(s, s.workers[step.t]);
    LoopKeeps(s, Apply(s, step), step.t);
  }

  lemma TaskStepKeeps(s: State, step: Step)
    requires Owned(s) && Enabled(s, step) && WakeDiscipline(s, step) && Handover(s, step)
    requires step.ScanQueue? || step.StartTask? || step.Switch? || step.Decrement? || step.Settle?
    ensures Owned(Apply(s, step)) && !Apply(s, step).aborted
  {
    match step
    case ScanQueue(t) => ScanKeeps(s, t);
    case StartTask(t, newId) => StartKeeps(s, t, newId);
    case Switch(t, how) => SwitchKeepsWorkers(s, t, how); SwitchKeepsWakes(s, t, how);
    case Decrement(t) => DecrementKeeps(s, t);
    case Settle(t) => SettleKeeps(s, t);
  }

  lemma IoStepKeeps(s: State, step: Step)
    requires Owned(s) && Enabled(s, step) && WakeDiscipline(s, step) && IsIo(step)
    ensures Owned(Apply(s, step)) && !Apply(s, step).aborted
  {
    if step.AddBegin? {
      AddBeginKeeps(s, step.t, step.key, step.task);
    } else if step.AddCommit? {
      AddCommitKeeps(s, step.t);
    } else if step.DelOther? {
      RegsEdit(s, Apply(s, step));
    } else if step.FireBegin? {
      FireBeginKeeps(s, step.t, step.key);
    } else {
      LockStepKeeps(s, step);
    }
  }

  lemma LockStepKeeps(s: State, step: Step)
    requires Owned(s) && Enabled(s, step) && (step.DelBegin? || step.DelCommit? || step.FireEnd?)
    ensures Owned(Apply(s, step)) && !Apply(s, step).aborted
  {
    if step.DelBegin? {
      DelBeginKeeps(s, step.t, step.key);
      assert Apply(s, step) == SetIo(s, step.t, Deleting(step.key)).(pending := s.pending - 1);
    } else if step.DelCommit? {
      DelCommitKeeps(s, step.t);
      assert Apply(s, step) == SetIo(s, step.t, NoOp).(regs := s.regs - {s.workers[step.t].io.key});
    } else {
      FireEndKeeps(s, step.t);
      assert Apply(s, step) == SetIo(s, step.t, NoOp).(pending := s.pending - 1);
    }
  }

  /** Registrations come and go under the locks of their contexts, the new ones as callbacks. */
  lemma RegsEdit(s: State, s': State)
    requires Owned(s) && s' == s.(regs := s'.regs, pending := s'.pending)
    requires forall key | key in s'.regs && key in s.regs :: s'.regs[key] == s.regs[key]
    requires forall key | key in s'.regs && key !in s.regs :: s'.regs[key].Call? && FdFree(s, key.fd)
    requires forall key | key in s.regs && key !in s'.regs :: FdFree(s, key.fd)
    ensures Owned(s')
  {
    forall t | t in s.workers
      ensures WorkerOk(s', s'.workers[t])
    {
      assert WorkerOk(s, s.workers[t]);
      assert !s.workers[t].io.NoOp? ==> OpOnFd(s.workers[t].io, s.workers[t].io.key.fd);
    }
    assert forall f :: Registered(s', f) ==> Registered(s, f);
    assert forall f :: NotCarried(s, f) ==> NotCarried(s', f);
    assert ExecOwned(s') by {
      assert forall f | f in s.fibers && s.fibers[f].state == EXEC ::
        exists t | t in s.workers :: s.workers[t].pc.Running? && s.workers[t].pc.f == f;
    }
  }

  lemma RemoteKeeps(s: State, key: Key, call: RemoteCall)
    requires Owned(s) && FdFree(s, key.fd) && RemoteEnabled(s, key, call)
    ensures Owned(DoRemote(s, key, call))
  {
    match call
    case RemoteAdd(_) => RegsEdit(s, DoRemote(s, key, call));
    case RemoteDel => RegsEdit(s, DoRemote(s, key, call));
    case RemoteFire =>
      var s1 := s.(pending := s.pending - 1, regs := s.regs - {key});
      RegsEdit(s, s1);
      FiredMayWake(s, s1, key);
      PushOwned(s1, Entry(s.regs[key], ANY));
  }

  /** A registration taken out is its fiber's only wake-up. */
  lemma FiredMayWake(s: State, s1: State, key: Key)
    requires QueueOk(s) && RegsOk(s) && key in s.regs
    requires s1.regs == s.regs - {key} && s1.queue == s.queue && s1.fibers == s.fibers && s1.workers == s.workers
    ensures MayWake(s1, s.regs[key])
  {
    var task := s.regs[key];
    if task.Fib? {
      assert NotCarried(s, task.fiber) && Registered(s, task.fiber);
      assert !InQueue(s, task.fiber) && !Registered(s1, task.fiber);
    }
  }

  lemma OutsideKeeps(s: State, step: Step)
    requires Owned(s) && Enabled(s, step) && WakeDiscipline(s, step) && !ByWorker(step)
    ensures Owned(Apply(s, step)) && !Apply(s, step).aborted
  {
    if step.External? {
      PushOwned(s, step.e);
    } else if step.RequestStop? {
      RequestStopKeeps(s);
    } else if step.NewFiber? {
      NewFiberKeeps(s, step.g, step.cb);
    } else {
      RemoteKeeps(s, step.key, step.call);
    }
  }

  /** No step of a disciplined run breaks the ownership of a fiber or fails an assertion. */
  lemma OwnedKeeps(s: State, step: Step)
    requires Owned(s) && Enabled(s, step) && WakeDiscipline(s, step) && Handover(s, step)
    ensures Owned(Apply(s, step)) && !Apply(s, step).aborted
  {
    if IsIo(step) {
      IoStepKeeps(s, step);
    } else if !ByWorker(step) {
      OutsideKeeps(s, step);
    } else if step.Schedule? {
      PushOwned(s, step.e);
    } else if step.Leave? || step.IdleCheck? || step.PendingCheck? || step.IdleYield? {
      LoopStepKeeps(s, step);
    } else {
      TaskStepKeeps(s, step);
    }
  }

  /** The counters follow a change of worker t. */
  lemma CountersMove(s: State, s': State, t: ThreadId, w: Worker)
    requires CountersOk(s) && t in s.workers && s'.workers == s.workers[t := w]
    requires s'.active == s.active - One(Busy(s.workers[t].pc)) + One(Busy(w.pc))
    requires s'.idle == s.idle - One(InIdleFiber(s.workers[t].pc)) + One(InIdleFiber(w.pc))
    requires s'.pending - |s'.regs| == s.pending - |s.regs|
      - One(s.workers[t].io.Adding? || s.workers[t].io.Firing?) + One(w.io.Adding? || w.io.Firing?)
      + One(s.workers[t].io.Deleting?) - One(w.io.Deleting?)
    ensures CountersOk(s') && Uncounted(s') == Uncounted(s)
  {
    CountUpdate(s.workers, t, w);
  }

  lemma StartCounts(s: State, t: ThreadId, newId: FiberId)
    requires CountersOk(s) && t in s.workers && s.workers[t].pc.InHand? && !DoStart(s, t, newId).aborted
    ensures CountersOk(DoStart(s, t, newId)) && Uncounted(DoStart(s, t, newId)) == Uncounted(s)
  {
    match s.workers[t].pc.e.task
    case Call(cb) => CallbackCounts(s, t, cb, newId);
    case Fib(f) =>
      PcCounts(s, SetPc(s, t, Scan).(active := s.active - 1), t, Scan);
      if f in s.fibers && s.fibers[f].state != EXEC {
        PcCounts(s, DoSwapIn(s, t, f), t, Running(f, false));
      }
  }

  lemma CallbackCounts(s: State, t: ThreadId, cb: Callback, newId: FiberId)
    requires CountersOk(s) && t in s.workers && s.workers[t].pc.InHand? && !DoCallback(s, t, cb, newId).aborted
    ensures CountersOk(DoCallback(s, t, cb, newId)) && Uncounted(DoCallback(s, t, cb, newId)) == Uncounted(s)
  {
    CountUpdate(s.workers, t, DoCallback(s, t, cb, newId).workers[t]);
  }

  /** A step that only moves the program counter. */
  lemma PcCounts(s: State, s': State, t: ThreadId, pc: Pc)
    requires CountersOk(s) && t in s.workers && s'.workers == s.workers[t := s.workers[t].(pc := pc)]
    requires s'.active == s.active - One(Busy(s.workers[t].pc)) + One(Busy(pc))
    requires s'.idle == s.idle - One(InIdleFiber(s.workers[t].pc)) + One(InIdleFiber(pc))
    requires s'.pending == s.pending && s'.regs == s.regs
    ensures CountersOk(s') && Uncounted(s') == Uncounted(s)
  {
    CountUpdate(s.workers, t, s.workers[t].(pc := pc));
  }

  lemma ToLoopCounts(s: State, s': State, t: ThreadId, forget: bool)
    requires CountersOk(s) && t in s.workers && s.workers[t].pc.Counted? && s'.workers == s.workers[t := ToLoop(s.workers[t], forget)]
    requires s'.active == s.active && s'.idle == s.idle && s'.pending == s.pending && s'.regs == s.regs
    ensures CountersOk(s') && Uncounted(s') == Uncounted(s)
  {
    CountUpdate(s.workers, t, ToLoop(s.workers[t], forget));
  }

  lemma SettleCounts(s: State, t: ThreadId)
    requires CountersOk(s) && t in s.workers && s.workers[t].pc.Counted?
    ensures CountersOk(DoSettle(s, t)) && Uncounted(DoSettle(s, t)) == Uncounted(s)
  {
    var Counted(f, v) := s.workers[t].pc;
    var st := StateOf(s.fibers, f);
    if st == READY {
      ToLoopCounts(s, Requeue(s, t, f, v), t, v);
    } else if Done(st) {
      ToLoopCounts(s, Retire(s, t, f, v), t, false);
    } else {
      ToLoopCounts(s, Park(s, t, f, v), t, v);
    }
  }

  lemma ScanCounts(s: State, t: ThreadId)
    requires CountersOk(s) && t in s.workers && s.workers[t].pc.Scan?
    ensures CountersOk(DoScan(s, t)) && Uncounted(DoScan(s, t)) == Uncounted(s)
  {
    var i := FirstEligible(s.queue, s.fibers, t, 0);
    PcCounts(s, DoScan(s, t), t, if i == |s.queue| then EmptyHand else InHand(s.queue[i]));
  }

  lemma SwitchCounts(s: State, t: ThreadId, how: Exit)
    requires CountersOk(s) && t in s.workers && s.workers[t].pc.Running?
    ensures CountersOk(DoSwitch(s, t, how)) && Uncounted(DoSwitch(s, t, how)) == Uncounted(s)
  {
    PcCounts(s, DoSwitch(s, t, how), t, DoSwitch(s, t, how).workers[t].pc);
  }

  lemma LeaveCounts(s: State, t: ThreadId)
    requires CountersOk(s) && t in s.workers && s.workers[t].pc.EmptyHand?
    ensures CountersOk(DoLeave(s, t)) && Uncounted(DoLeave(s, t)) == Uncounted(s)
  {
    PcCounts(s, DoLeave(s, t), t, DoLeave(s, t).workers[t].pc);
  }

  lemma PendingCheckCounts(s: State, t: ThreadId)
    requires CountersOk(s) && t in s.workers && s.workers[t].pc.IdleMid?
    ensures CountersOk(DoPendingCheck(s, t)) && Uncounted(DoPendingCheck(s, t)) == Uncounted(s)
  {
    if s.pending == 0 {
      CountUpdate(s.workers, t, s.workers[t].(pc := Scan, idleTerm := true));
    } else {
      PcCounts(s, DoPendingCheck(s, t), t, Waiting);
    }
  }

  /** How the number of registrations changes when a registration is committed or removed. */
  lemma RegsSize(regs: map<Key, Task>, key: Key, task: Task)
    ensures key in regs ==> |regs - {key}| == |regs| - 1
    ensures key !in regs ==> |regs[key := task]| == |regs| + 1
  {
    assert (regs - {key}).Keys == regs.Keys - {key};
    assert regs[key := task].Keys == regs.Keys + {key};
  }

  lemma RemoteCounts(s: State, key: Key, call: RemoteCall)
    requires CountersOk(s) && RemoteEnabled(s, key, call)
    ensures CountersOk(DoRemote(s, key, call))
    ensures Uncounted(DoRemote(s, key, call)) == Uncounted(s) + One(call.RemoteDel? && key !in s.regs)
  {
    match call
    case RemoteAdd(cb) => RegsSize(s.regs, key, Call(cb));
    case RemoteDel =>
      RegsSize(s.regs, key, Call(0));
      assert key !in s.regs ==> s.regs - {key} == s.regs;
    case RemoteFire => RegsSize(s.regs, key, Call(0));
  }

  lemma CommitCounts(s: State, step: Step)
    requires WorkersOk(s) && CountersOk(s) && Enabled(s, step) && (step.AddCommit? || step.DelCommit? || step.FireEnd?)
    ensures CountersOk(Apply(s, step)) && Uncounted(Apply(s, step)) == Uncounted(s)
  {
    assert WorkerOk(s, s.workers[step.t]);
    RegsSize(s.regs, s.workers[step.t].io.key, Call(0));
    if step.AddCommit? {
      RegsSize(s.regs, s.workers[step.t].io.key, s.workers[step.t].io.task);
    }
    CountersMove(s, Apply(s, step), step.t, Apply(s, step).workers[step.t]);
  }

  lemma BeginCounts(s: State, step: Step)
    requires CountersOk(s) && Enabled(s, step) && (step.AddBegin? || step.DelBegin? || step.FireBegin?)
    ensures CountersOk(Apply(s, step)) && Uncounted(Apply(s, step)) == Uncounted(s)
  {
    RegsSize(s.regs, step.key, Call(0));
    CountersMove(s, Apply(s, step), step.t, Apply(s, step).workers[step.t]);
  }

  lemma SameCounts(s: State, s': State)
    requires CountersOk(s) && s'.workers == s.workers && s'.regs == s.regs
    requires s'.active == s.active && s'.idle == s.idle && s'.pending == s.pending
    ensures CountersOk(s') && Uncounted(s') == Uncounted(s)
  {
  }

  lemma LoopCounts(s: State, step: Step)
    requires CountersOk(s) && Enabled(s, step)
    requires step.Decrement? || step.Leave? || step.IdleCheck? || step.PendingCheck? || step.IdleYield?
    ensures CountersOk(Apply(s, step)) && Uncounted(Apply(s, step)) == Uncounted(s)
  {
    match step
    case Decrement(t) => PcCounts(s, Apply(s, step), t, Counted(s.workers[t].pc.f, s.workers[t].pc.viaCb));
    case Leave(t) => LeaveCounts(s, t);
    case IdleCheck(t) => PcCounts(s, Apply(s, step), t, if QueueStopped(s) then IdleMid else Waiting);
    case PendingCheck(t) => PendingCheckCounts(s, t);
    case IdleYield(t) => PcCounts(s, Apply(s, step), t, Scan);
  }

  lemma IoCounts(s: State, step: Step)
    requires WorkersOk(s) && CountersOk(s) && Enabled(s, step) && IsIo(step)
    ensures CountersOk(Apply(s, step)) && Uncounted(Apply(s, step)) == Uncounted(s) + One(Miscounts(s, step))
  {
    if step.AddBegin? || step.DelBegin? || step.FireBegin? {
      BeginCounts(s, step);
    } else if !step.DelOther? {
      CommitCounts(s, step);
    }
  }

  lemma TaskCounts(s: State, step: Step)
    requires CountersOk(s) && Enabled(s, step) && !Apply(s, step).aborted
    requires step.ScanQueue? || step.StartTask? || step.Switch? || step.Settle? || step.Schedule?
    ensures CountersOk(Apply(s, step)) && Uncounted(Apply(s, step)) == Uncounted(s)
  {
    match step
    case ScanQueue(t) => ScanCounts(s, t);
    case StartTask(t, newId) => StartCounts(s, t, newId);
    case Switch(t, how) => SwitchCounts(s, t, how);
    case Settle(t) => SettleCounts(s, t);
    case Schedule(_, _) => SameCounts(s, Apply(s, step));
  }

  lemma OutsideCounts(s: State, step: Step)
    requires CountersOk(s) && Enabled(s, step) && !ByWorker(step)
    ensures CountersOk(Apply(s, step)) && Uncounted(Apply(s, step)) == Uncounted(s) + One(Miscounts(s, step))
  {
    if step.Remote? {
      RemoteCounts(s, step.key, step.call);
    } else {
      SameCounts(s, Apply(s, step));
    }
  }

  lemma CountersKeep(s: State, step: Step)
    requires WorkersOk(s) && CountersOk(s) && Enabled(s, step) && !Apply(s, step).aborted
    ensures CountersOk(Apply(s, step)) && Uncounted(Apply(s, step)) == Uncounted(s) + One(Miscounts(s, step))
  {
    if IsIo(step) {
      IoCounts(s, step);
    } else if !ByWorker(step) {
      OutsideCounts(s, step);
    } else if step.Decrement? || step.Leave? || step.IdleCheck? || step.PendingCheck? || step.IdleYield? {
      LoopCounts(s, step);
    } else {
      TaskCounts(s, step);
    }
  }

  /** The invariant holds after every step of a disciplined run. */
  lemma InvKeeps(s: State, step: Step)
    requires Inv(s) && Enabled(s, step) && WakeDiscipline(s, step) && Handover(s, step)
    ensures Inv(Apply(s, step))
    ensures Uncounted(Apply(s, step)) == Uncounted(s) + One(Miscounts(s, step))
  {
    OwnedKeeps(s, step);
    CountersKeep(s, step);
  }
}
