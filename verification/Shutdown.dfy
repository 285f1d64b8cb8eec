/** When `stopped()` can be trusted: it hides no work but the READY window, and is stable exactly outside it. */
module Shutdown {
  import opened Types
  import opened Protocol
  import opened Ownership
  import opened Executions

  // ---- no work is invisible ----------------------------------------------------------------------------

  lemma CountersSeeWorkers(s: State)
    requires Inv(s)
    ensures s.active == 0 ==> forall t | t in s.workers :: !Busy(s.workers[t].pc)
    ensures s.active >= 0 && s.idle >= 0
    ensures s.active == 0 ==> s.pending + Uncounted(s) >= |s.regs|
    ensures s.active == 0 && s.pending + Uncounted(s) == 0 ==> s.regs == map[] && forall t | t in s.workers :: s.workers[t].io.NoOp?
  {
    if s.active == 0 {
      forall t | t in s.workers
        ensures !Busy(s.workers[t].pc)
      {
        assert t !in BusyThreads(s.workers);
      }
      forall t | t in s.workers
        ensures !s.workers[t].io.Deleting? && !s.workers[t].io.Adding?
      {
        assert WorkerOk(s, s.workers[t]);
      }
      assert forall t :: t !in BehindThreads(s.workers);
      assert BehindThreads(s.workers) == {};
      if s.pending + Uncounted(s) == 0 {
        assert |AheadThreads(s.workers)| == 0 && |s.regs| == 0;
        assert forall t | t in s.workers :: t !in AheadThreads(s.workers);
      }
    }
  }

  /**
   A fiber that runs or has a wake-up keeps one of the three counts that stopped() reads non-zero, or is in the READY
   window; only after a miscounted delete can it be registered and seen by none of them.
   */
  lemma NoInvisibleFiber(s0: State, steps: seq<Step>, f: FiberId)
    requires Initial(s0) && IsRun(s0, steps) && IsDisciplined(s0, steps)
    requires
      var s := After(s0, steps);
      HasWake(s, f) || StateOf(s.fibers, f) == EXEC
    ensures
      var s := After(s0, steps);
      || s.queue != [] || s.active > 0 || s.pending != 0 || (exists t :: InReadyWindow(s, t) && s.workers[t].pc.f == f)
      || (Missed(s0, steps) > 0 && Registered(s, f))
  {
    InitialInv(s0);
    RunKeepsInv(s0, steps);
    var s := After(s0, steps);
    CountersSeeWorkers(s);
    if s.queue == [] && s.active == 0 && s.pending == 0 {
      if HasWake(s, f) && !Registered(s, f) {
        var t :| t in s.workers && Carries(s.fibers, s.workers[t], f);
        assert WorkerOk(s, s.workers[t]);
        assert InReadyWindow(s, t);
      }
    }
  }

  /**
   A registration counted by addEvent is covered by the pending count until its delivery is queued or its deletion
   begins, but for the deletes that were miscounted before.
   */
  lemma NoInvisibleRegistration(s0: State, steps: seq<Step>, key: Key)
    requires Initial(s0) && IsRun(s0, steps) && IsDisciplined(s0, steps)
    requires
      var s := After(s0, steps);
      || (key in s.regs && forall t | t in s.workers :: s.workers[t].io != Deleting(key))
      || (exists t | t in s.workers :: s.workers[t].io.Adding? && s.workers[t].io.key == key)
    ensures After(s0, steps).pending + Missed(s0, steps) >= 1
  {
    InitialInv(s0);
    RunKeepsInv(s0, steps);
    PendingCovers(After(s0, steps), key);
  }

  /** The keys being deleted are distinct set bits. */
  lemma BehindWithin(s: State, threads: set<ThreadId>, keys: set<Key>)
    requires WorkersApart(s)
    requires forall t | t in threads :: t in s.workers && s.workers[t].io.Deleting? && s.workers[t].io.key in keys
    ensures |threads| <= |keys|
    decreases |threads|
  {
    if threads != {} {
      var t := Pick(threads);
      var key := s.workers[t].io.key;
      forall u | u in threads - {t}
        ensures s.workers[u].io.key in keys - {key}
      {
        assert Apart(s.workers[t], s.workers[u]);
      }
      BehindWithin(s, threads - {t}, keys - {key});
    }
  }

  lemma PendingCovers(s: State, key: Key)
    requires Inv(s)
    ensures s.pending + Uncounted(s) >= 0
    ensures key in s.regs && (forall t | t in s.workers :: s.workers[t].io != Deleting(key)) ==> s.pending + Uncounted(s) >= 1
    ensures (exists t | t in s.workers :: s.workers[t].io.Adding? && s.workers[t].io.key == key) ==> s.pending + Uncounted(s) >= 1
  {
    var behind := BehindThreads(s.workers);
    forall t | t in behind
      ensures s.workers[t].io.key in s.regs.Keys
    {
      assert WorkerOk(s, s.workers[t]);
    }
    BehindWithin(s, behind, s.regs.Keys);
    assert |s.regs.Keys| == |s.regs|;
    if key in s.regs && forall t | t in s.workers :: s.workers[t].io != Deleting(key) {
      BehindWithin(s, behind, s.regs.Keys - {key});
    }
    if t :| t in s.workers && s.workers[t].io.Adding? && s.workers[t].io.key == key {
      assert t in AheadThreads(s.workers);
    }
  }

  /** The pending count is exact, up to the operations between count and bit, if and only if no delete was miscounted. */
  lemma PendingExact(s0: State, steps: seq<Step>)
    requires Initial(s0) && IsRun(s0, steps) && IsDisciplined(s0, steps)
    ensures
      var s := After(s0, steps);
      s.pending == |s.regs| + |AheadThreads(s.workers)| - |BehindThreads(s.workers)| <==> Missed(s0, steps) == 0
  {
    InitialInv(s0);
    RunKeepsInv(s0, steps);
  }

  // ---- stopped() is stable exactly outside the READY window -------------------------------------------

  /** No worker is dispatching, or between a delivery and its decrement, with an uncounted registration. */
  predicate NothingToFire(s: State) {
    forall t | t in s.workers && s.workers[t].pc.Waiting? :: s.workers[t].io.NoOp? && s.regs == map[]
  }

  predicate Settled(s: State) { StoppedNow(s) && NoReadyWindow(s) && NothingToFire(s) }

  lemma StoppedBusy(s: State, t: ThreadId)
    requires Inv(s) && s.active == 0 && t in s.workers
    ensures !Busy(s.workers[t].pc)
    ensures !s.workers[t].pc.Waiting? ==> s.workers[t].io.NoOp?
    ensures !s.workers[t].io.Adding? && !s.workers[t].io.Deleting?
  {
    CountersSeeWorkers(s);
    assert WorkerOk(s, s.workers[t]);
  }

  /** In a settled state no worker is in a task, in the registry or in the dispatch loop with something to deliver. */
  lemma SettledKeeps(s: State, step: Step)
    requires Inv(s) && Settled(s) && Enabled(s, step) && WakeDiscipline(s, step)
    ensures Settled(Apply(s, step))
  {
    SettledSteps(s, step);
    match step
    case Settle(t) => SettledSettle(s, t);
    case NewFiber(g, cb) => SettledNewFiber(s, g, cb);
    case RequestStop => assert Apply(s, step).workers == s.workers;
    case _ => SettledPc(s, step);
  }

  lemma SettledSteps(s: State, step: Step)
    requires Inv(s) && Settled(s) && Enabled(s, step) && WakeDiscipline(s, step)
    ensures
      || step.RequestStop? || step.NewFiber? || step.ScanQueue? || step.Settle?
      || step.Leave? || step.IdleCheck? || step.PendingCheck? || step.IdleYield?
  {
    CountersSeeWorkers(s);
    if ByWorker(step) {
      assert !Busy(s.workers[step.t].pc) && WorkerOk(s, s.workers[step.t]);
    }
  }

  lemma SettledSettle(s: State, t: ThreadId)
    requires Inv(s) && Settled(s) && t in s.workers && s.workers[t].pc.Counted?
    ensures Settled(DoSettle(s, t))
  {
    var s' := DoSettle(s, t);
    assert !InReadyWindow(s, t);
    forall u | u in s'.workers
      ensures !InReadyWindow(s', u)
    {
      assert !InReadyWindow(s, u);
    }
  }

  lemma SettledNewFiber(s: State, g: FiberId, cb: Callback)
    requires Inv(s) && Settled(s) && Enabled(s, NewFiber(g, cb))
    ensures Settled(Apply(s, NewFiber(g, cb)))
  {
    var s' := Apply(s, NewFiber(g, cb));
    forall u | u in s'.workers
      ensures !InReadyWindow(s', u)
    {
      assert !InReadyWindow(s, u) && WorkerOk(s, s.workers[u]);
    }
  }

  lemma SettledPc(s: State, step: Step)
    requires Settled(s) && Enabled(s, step)
    requires step.ScanQueue? || step.Leave? || step.IdleCheck? || step.PendingCheck? || step.IdleYield?
    ensures Settled(Apply(s, step))
  {
    var s' := Apply(s, step);
    forall u | u in s'.workers
      ensures !InReadyWindow(s', u)
    {
      assert !InReadyWindow(s, u);
    }
  }

  lemma {:induction false} SettledForever(s: State, steps: seq<Step>)
    requires Inv(s) && Settled(s) && IsRun(s, steps) && IsDisciplined(s, steps)
    ensures Settled(After(s, steps))
    decreases |steps|
  {
    if steps != [] {
      InvKeeps(s, steps[0]);
      SettledKeeps(s, steps[0]);
      SettledForever(Apply(s, steps[0]), steps[1..]);
    }
  }

  /** Every disciplined continuation of s is still stopped. */
  ghost predicate StaysStopped(s: State) {
    forall steps: seq<Step> :: IsRun(s, steps) && IsDisciplined(s, steps) ==> StoppedNow(After(s, steps))
  }

  /**
   An instant at which `stopped()` is true is final if and only if no worker is in the READY window, and none is
   dispatching a registration that a miscounted delete has hidden.
   */
  lemma StoppedIsStable(s: State)
    requires Inv(s) && StoppedNow(s)
    ensures StaysStopped(s) <==> NoReadyWindow(s) && NothingToFire(s)
    ensures Uncounted(s) == 0 ==> NothingToFire(s)
  {
    CountersSeeWorkers(s);
    if NoReadyWindow(s) && NothingToFire(s) {
      forall steps: seq<Step> | IsRun(s, steps) && IsDisciplined(s, steps)
        ensures StoppedNow(After(s, steps))
      {
        SettledForever(s, steps);
      }
    } else if !NoReadyWindow(s) {
      var t :| t in s.workers && InReadyWindow(s, t);
      assert WorkerOk(s, s.workers[t]);
      OneStepEnds(s, Settle(t));
    } else {
      FiringEnds(s);
    }
  }

  lemma OneStepEnds(s: State, step: Step)
    requires Enabled(s, step) && WakeDiscipline(s, step) && Handover(s, step) && !StoppedNow(Apply(s, step))
    ensures !StaysStopped(s)
  {
    var steps := [step];
    assert steps[1..] == [];
    assert IsRun(s, steps) && IsDisciplined(s, steps);
    assert After(s, steps) == Apply(s, step);
  }

  lemma FiringEnds(s: State)
    requires Inv(s) && StoppedNow(s) && !NothingToFire(s)
    ensures !StaysStopped(s)
  {
    var t :| t in s.workers && s.workers[t].pc.Waiting? && !(s.workers[t].io.NoOp? && s.regs == map[]);
    StoppedBusy(s, t);
    if s.workers[t].io.Firing? {
      OneStepEnds(s, FireEnd(t));
    } else {
      var key := Pick(s.regs.Keys);
      if FdFree(s, key.fd) {
        OneStepEnds(s, FireBegin(t, key));
      } else {
        var u :| u in s.workers && OpOnFd(s.workers[u].io, key.fd);
        StoppedBusy(s, u);
        OneStepEnds(s, FireEnd(u));
      }
    }
  }

  // ---- clean shutdown -----------------------------------------------------------------------------------

  /** Worker w can do nothing but pass through the loop. */
  predicate Inert(fibers: map<FiberId, FiberRec>, w: Worker) {
    || w.pc.Scan? || w.pc.EmptyHand? || w.pc.IdleMid? || w.pc.Exited?
    || (w.pc.Counted? && StateOf(fibers, w.pc.f) != READY)
  }

  predicate Quiescent(s: State) {
    s.queue == [] && forall t | t in s.workers :: Inert(s.fibers, s.workers[t])
  }

  /** Every worker whose idle fiber has not finished is between the two reads of stopped(). */
  predicate AllChecking(s: State) {
    forall t | t in s.workers :: s.workers[t].idleTerm || s.workers[t].pc.IdleMid?
  }

  predicate AllTerm(s: State) { forall t | t in s.workers :: s.workers[t].idleTerm }

  /** The two reads of `IOManager::stopped()` are not atomic; this is what survives between them. */
  predicate Converging(s: State) {
    && (exists t :: t in s.workers)
    && (AllChecking(s) ==> Quiescent(s))
    && (AllTerm(s) ==> s.pending == 0)
  }

  lemma CheckConverges(s: State, t: ThreadId)
    requires Inv(s) && Converging(s) && Enabled(s, IdleCheck(t)) && CleanCheck(s, IdleCheck(t))
    ensures Converging(Apply(s, IdleCheck(t)))
  {
    CountersSeeWorkers(s);
    var s' := Apply(s, IdleCheck(t));
    assert !s'.workers[t].idleTerm by {
      assert WorkerOk(s, s.workers[t]);
    }
    if AllChecking(s') {
      forall u | u in s'.workers
        ensures Inert(s'.fibers, s'.workers[u])
      {
        assert !InReadyWindow(s, u) && WorkerOk(s, s.workers[u]);
        assert s'.workers[u].idleTerm || s'.workers[u].pc.IdleMid?;
      }
    }
  }

  lemma PendingCheckConverges(s: State, t: ThreadId)
    requires Inv(s) && Converging(s) && Enabled(s, PendingCheck(t))
    ensures Converging(Apply(s, PendingCheck(t)))
  {
    var s' := Apply(s, PendingCheck(t));
    assert WorkerOk(s, s.workers[t]);
    if AllChecking(s') {
      forall u | u in s.workers
        ensures s.workers[u].idleTerm || s.workers[u].pc.IdleMid?
      {
        assert s'.workers[u].idleTerm || s'.workers[u].pc.IdleMid?;
      }
      assert AllChecking(s);
    }
  }

  /** Only the pending check ends an idle fiber, and only the queue check puts a worker between the two reads. */
  lemma IdleFlags(s: State, step: Step, u: ThreadId)
    requires Enabled(s, step) && !step.IdleCheck? && !step.PendingCheck? && u in s.workers
    ensures Apply(s, step).workers[u].idleTerm == s.workers[u].idleTerm
    ensures Apply(s, step).workers[u].pc.IdleMid? ==> s.workers[u].pc.IdleMid?
  {
    match step
    case StartTask(t, newId) => assert Apply(s, step) == DoStart(s, t, newId);
    case Settle(t) => assert Apply(s, step) == DoSettle(s, t);
    case ScanQueue(t) => assert Apply(s, step) == DoScan(s, t);
    case _ => OtherFlags(s, step, u);
  }

  lemma OtherFlags(s: State, step: Step, u: ThreadId)
    requires Enabled(s, step) && !step.IdleCheck? && !step.PendingCheck? && u in s.workers
    requires !step.StartTask? && !step.Settle? && !step.ScanQueue?
    ensures Apply(s, step).workers[u].idleTerm == s.workers[u].idleTerm
    ensures Apply(s, step).workers[u].pc.IdleMid? ==> s.workers[u].pc.IdleMid?
  {
    if IsIo(step) { IoWorkers(s, step); }
  }

  lemma QuiescentKeeps(s: State, step: Step)
    requires Inv(s) && Quiescent(s) && Enabled(s, step) && !step.Leave? && !step.PendingCheck?
    requires !step.External? && !step.Remote? && !step.FailedCall?
    ensures step.IdleCheck? || Quiescent(Apply(s, step))
    ensures !step.IdleCheck? ==> Apply(s, step).pending == s.pending
  {
    QuiescentSteps(s, step);
    if step.Settle? {
      QuiescentSettle(s, step.t);
    } else if step.NewFiber? {
      QuiescentNewFiber(s, step.g, step.cb);
    }
  }

  /** In such a state a worker can only scan or settle. */
  lemma QuiescentSteps(s: State, step: Step)
    requires Inv(s) && Quiescent(s) && Enabled(s, step) && !step.Leave? && !step.PendingCheck?
    requires !step.External? && !step.Remote? && !step.FailedCall?
    ensures step.RequestStop? || step.NewFiber? || step.ScanQueue? || step.Settle?
  {
    if ByWorker(step) {
      assert Inert(s.fibers, s.workers[step.t]);
      assert WorkerOk(s, s.workers[step.t]);
    }
  }

  lemma QuiescentSettle(s: State, t: ThreadId)
    requires Inv(s) && Quiescent(s) && t in s.workers && s.workers[t].pc.Counted?
    ensures Quiescent(DoSettle(s, t)) && DoSettle(s, t).pending == s.pending
  {
    var s' := DoSettle(s, t);
    assert Inert(s.fibers, s.workers[t]);
    forall u | u in s'.workers
      ensures Inert(s'.fibers, s'.workers[u])
    {
      assert Inert(s.fibers, s.workers[u]);
    }
  }

  lemma QuiescentNewFiber(s: State, g: FiberId, cb: Callback)
    requires Enabled(s, NewFiber(g, cb)) && Inv(s) && Quiescent(s)
    ensures Quiescent(Apply(s, NewFiber(g, cb)))
  {
    var s' := Apply(s, NewFiber(g, cb));
    forall u | u in s'.workers
      ensures Inert(s'.fibers, s'.workers[u])
    {
      assert Inert(s.fibers, s.workers[u]) && WorkerOk(s, s.workers[u]);
    }
  }

  /** Any other step leaves `AllChecking` as it was, and is inert if that held. */
  lemma OtherConverges(s: State, step: Step)
    requires Inv(s) && Converging(s) && Enabled(s, step) && WakeDiscipline(s, step)
    requires !step.IdleCheck? && !step.PendingCheck?
    ensures Converging(Apply(s, step))
  {
    var s' := Apply(s, step);
    forall u | u in s.workers
      ensures s'.workers[u].idleTerm == s.workers[u].idleTerm
      ensures s'.workers[u].pc.IdleMid? ==> s.workers[u].pc.IdleMid?
    {
      IdleFlags(s, step, u);
    }
    if AllChecking(s') {
      assert AllChecking(s);
      var t :| t in s.workers;
      assert WorkerOk(s, s.workers[t]);
      assert Stopping(s);
      if step.Leave? {
        assert WorkerOk(s, s.workers[step.t]) && s'.workers[step.t].idleTerm;
      } else {
        QuiescentKeeps(s, step);
      }
    }
  }

  lemma ConvergingKeeps(s: State, step: Step)
    requires Inv(s) && Converging(s) && Enabled(s, step) && WakeDiscipline(s, step) && CleanCheck(s, step)
    ensures Converging(Apply(s, step))
  {
    if step.IdleCheck? {
      CheckConverges(s, step.t);
    } else if step.PendingCheck? {
      PendingCheckConverges(s, step.t);
    } else {
      OtherConverges(s, step);
    }
  }

  lemma {:induction false} RunKeepsConverging(s: State, steps: seq<Step>)
    requires Inv(s) && Converging(s) && IsRun(s, steps) && IsDisciplined(s, steps) && IsClean(s, steps)
    ensures Converging(After(s, steps))
    decreases |steps|
  {
    if steps != [] {
      InvKeeps(s, steps[0]);
      ConvergingKeeps(s, steps[0]);
      RunKeepsConverging(Apply(s, steps[0]), steps[1..]);
    }
  }

  /**
   With clean checks, when every worker has exited, no entry is left, pinned or not, and exactly as many registrations
   as deletes were miscounted: none at all if and only if none was.
   */
  lemma CleanShutdown(s0: State, steps: seq<Step>)
    requires Initial(s0) && IsRun(s0, steps) && IsDisciplined(s0, steps) && IsClean(s0, steps)
    requires AllExited(After(s0, steps))
    ensures
      var s := After(s0, steps);
      && s.queue == [] && s.active == 0 && s.pending == 0
      && |s.regs| == Missed(s0, steps) && (s.regs == map[] <==> Missed(s0, steps) == 0)
      && forall f :: HasWake(s, f) ==> Registered(s, f)
  {
    InitialInv(s0);
    assert Converging(s0);
    RunKeepsInv(s0, steps);
    RunKeepsConverging(s0, steps);
    var s := After(s0, steps);
    forall t | t in s.workers
      ensures s.workers[t].idleTerm && s.workers[t].io.NoOp?
    {
      assert WorkerOk(s, s.workers[t]);
    }
    assert AllTerm(s) && AllChecking(s);
    DrainSafety(s0, steps);
    NothingInFlight(s);
  }

  lemma NothingInFlight(s: State)
    requires forall t | t in s.workers :: s.workers[t].io.NoOp?
    ensures Uncounted(s) == |s.regs| - s.pending
  {
    assert forall t :: t !in AheadThreads(s.workers) && t !in BehindThreads(s.workers);
    assert AheadThreads(s.workers) == {} && BehindThreads(s.workers) == {};
  }

  // ---- when nothing left stays nothing left -----------------------------------------------------------

  predicate NothingLeft(s: State) { s.queue == [] && s.regs == map[] }

  /** Worker w brings nothing back into the queue or the registry. */
  predicate Spent(fibers: map<FiberId, FiberRec>, w: Worker) {
    !w.pc.InHand? && !w.pc.Running? && ((w.pc.Back? || w.pc.Counted?) ==> StateOf(fibers, w.pc.f) != READY)
  }

  predicate AllSpent(s: State) { forall t | t in s.workers :: Spent(s.fibers, s.workers[t]) }

  /** Every disciplined continuation leaves the queue and the registry empty. */
  ghost predicate StaysEmpty(s: State) {
    forall steps: seq<Step> :: IsRun(s, steps) && IsDisciplined(s, steps) ==> NothingLeft(After(s, steps))
  }

  /** Once every idle fiber has ended, an empty queue and registry are final if and only if no worker still has a task. */
  lemma EmptyIsFinal(s: State)
    requires Inv(s) && AllTerm(s) && (exists t :: t in s.workers) && NothingLeft(s)
    ensures StaysEmpty(s) <==> AllSpent(s)
  {
    if AllSpent(s) {
      forall steps: seq<Step> | IsRun(s, steps) && IsDisciplined(s, steps)
        ensures NothingLeft(After(s, steps))
      {
        SpentForever(s, steps);
      }
    } else {
      var t :| t in s.workers && !Spent(s.fibers, s.workers[t]);
      UnspentRefills(s, t);
    }
  }

  predicate Ended(s: State) { AllTerm(s) && (exists t :: t in s.workers) && NothingLeft(s) && AllSpent(s) }

  /** With no task left a worker can only scan, leave, uncount or settle. */
  lemma EndedSteps(s: State, step: Step)
    requires Inv(s) && Ended(s) && Enabled(s, step) && WakeDiscipline(s, step)
    ensures step.RequestStop? || step.NewFiber? || step.ScanQueue? || step.Leave? || step.Decrement? || step.Settle?
  {
    if ByWorker(step) {
      assert WorkerOk(s, s.workers[step.t]) && s.workers[step.t].idleTerm && Spent(s.fibers, s.workers[step.t]);
    } else {
      var t :| t in s.workers;
      assert WorkerOk(s, s.workers[t]) && s.workers[t].idleTerm;
    }
  }

  lemma EndedSettle(s: State, t: ThreadId)
    requires Inv(s) && Ended(s) && t in s.workers && s.workers[t].pc.Counted?
    ensures Ended(DoSettle(s, t))
  {
    var s', f := DoSettle(s, t), s.workers[t].pc.f;
    assert Spent(s.fibers, s.workers[t]);
    assert StateOf(s.fibers, f) != READY;
    forall u | u in s'.workers
      ensures s'.workers[u].idleTerm && Spent(s'.fibers, s'.workers[u])
    {
      assert s.workers[u].idleTerm && Spent(s.fibers, s.workers[u]);
    }
    assert t in s'.workers;
  }

  lemma EndedNewFiber(s: State, g: FiberId, cb: Callback)
    requires Inv(s) && Ended(s) && Enabled(s, NewFiber(g, cb))
    ensures Ended(Apply(s, NewFiber(g, cb)))
  {
    var s' := Apply(s, NewFiber(g, cb));
    forall u | u in s'.workers
      ensures s'.workers[u].idleTerm && Spent(s'.fibers, s'.workers[u])
    {
      assert s.workers[u].idleTerm && Spent(s.fibers, s.workers[u]) && WorkerOk(s, s.workers[u]);
    }
    var t :| t in s.workers;
    assert t in s'.workers;
  }

  lemma EndedPc(s: State, step: Step)
    requires Inv(s) && Ended(s) && Enabled(s, step) && (step.ScanQueue? || step.Leave? || step.Decrement?)
    ensures Ended(Apply(s, step))
  {
    var s' := Apply(s, step);
    forall u | u in s'.workers
      ensures s'.workers[u].idleTerm && Spent(s'.fibers, s'.workers[u])
    {
      assert s.workers[u].idleTerm && Spent(s.fibers, s.workers[u]);
    }
    assert step.t in s'.workers;
  }

  lemma EndedKeeps(s: State, step: Step)
    requires Inv(s) && Ended(s) && Enabled(s, step) && WakeDiscipline(s, step)
    ensures Ended(Apply(s, step))
  {
    EndedSteps(s, step);
    match step
    case Settle(t) => EndedSettle(s, t);
    case NewFiber(g, cb) => EndedNewFiber(s, g, cb);
    case RequestStop => assert Apply(s, step).workers == s.workers;
    case _ => EndedPc(s, step);
  }

  lemma {:induction false} SpentForever(s: State, steps: seq<Step>)
    requires Inv(s) && Ended(s) && IsRun(s, steps) && IsDisciplined(s, steps)
    ensures NothingLeft(After(s, steps))
    decreases |steps|
  {
    if steps != [] {
      InvKeeps(s, steps[0]);
      EndedKeeps(s, steps[0]);
      SpentForever(Apply(s, steps[0]), steps[1..]);
    }
  }

  lemma Refilled(s0: State, s: State)
    requires Reaches(1, s0, s, DISCIPLINED) && !NothingLeft(s)
    ensures !StaysEmpty(s0)
  {
    ReachesIsReachable(1, s0, s, DISCIPLINED);
    var steps: seq<Step> :| IsRun(s0, steps) && Follows(s0, steps, DISCIPLINED) && After(s0, steps) == s;
    assert IsDisciplined(s0, steps);
  }

  /** A running task may schedule one more. */
  lemma RunningRefills(s0: State, s: State, t: ThreadId)
    requires Reaches(1, s0, s, DISCIPLINED) && InFiber(s, t)
    ensures !StaysEmpty(s0)
  {
    var step := Schedule(t, Entry(Call(0), ANY));
    Extend(1, s0, s, DISCIPLINED, step);
    assert |Apply(s, step).queue| > 0;
    Refilled(s0, Apply(s, step));
  }

  /** A READY fiber is queued again. */
  lemma ReadyRefills(s0: State, s: State, t: ThreadId)
    requires Reaches(1, s0, s, DISCIPLINED) && CanAct(s, t) && InReadyWindow(s, t)
    ensures !StaysEmpty(s0)
  {
    Extend(1, s0, s, DISCIPLINED, Settle(t));
    assert |Apply(s, Settle(t)).queue| > 0;
    Refilled(s0, Apply(s, Settle(t)));
  }

  lemma InHandRefills(s: State, t: ThreadId)
    requires Inv(s) && CanAct(s, t) && s.workers[t].pc.InHand? && Reaches(1, s, s, DISCIPLINED)
    ensures !StaysEmpty(s)
  {
    var newId := FreshId(s.fibers.Keys);
    assert newId !in s.fibers;
    assert WorkerOk(s, s.workers[t]);
    StartKeeps(s, t, newId);
    Extend(1, s, s, DISCIPLINED, StartTask(t, newId));
    RunningRefills(s, DoStart(s, t, newId), t);
  }

  lemma UnspentRefills(s: State, t: ThreadId)
    requires Inv(s) && AllTerm(s) && NothingLeft(s) && t in s.workers && !Spent(s.fibers, s.workers[t])
    ensures !StaysEmpty(s)
  {
    var m := DISCIPLINED;
    Start(1, s, m);
    assert WorkerOk(s, s.workers[t]);
    if s.workers[t].io.Adding? {
      Extend(1, s, s, m, AddCommit(t));
      assert s.workers[t].io.key in Apply(s, AddCommit(t)).regs;
      Refilled(s, Apply(s, AddCommit(t)));
    } else if s.workers[t].io.Firing? {
      Extend(1, s, s, m, FireEnd(t));
      RunningRefills(s, Apply(s, FireEnd(t)), t);
    } else if s.workers[t].pc.Running? {
      RunningRefills(s, s, t);
    } else if s.workers[t].pc.InHand? {
      InHandRefills(s, t);
    } else if s.workers[t].pc.Back? {
      Extend(1, s, s, m, Decrement(t));
      ReadyRefills(s, Apply(s, Decrement(t)), t);
    } else {
      ReadyRefills(s, s, t);
    }
  }
}
