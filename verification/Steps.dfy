/**
 What the steps of a worker do to the state, said of the state alone and not through the functions that compute it:
 which entry a scan takes, which callback or fiber runs, what a fiber leaves behind, when an idle fiber ends.
 */
module Steps {
  import opened Types
  import opened Protocol
  import opened Ownership

  /** Lines 166-174: not pinned to another thread, and not a fiber in execution. */
  predicate MayTake(s: State, t: ThreadId, e: Entry) {
    (e.thread == -1 || e.thread == t) && !(e.task.Fib? && e.task.fiber in s.fibers && s.fibers[e.task.fiber].state == EXEC)
  }

  /** Entry i is the first that t may take. */
  predicate FirstFor(s: State, t: ThreadId, i: nat) {
    i < |s.queue| && MayTake(s, t, s.queue[i]) && forall j | 0 <= j < i :: !MayTake(s, t, s.queue[j])
  }

  /** Nothing else differs but worker t. */
  predicate ElseSame(s: State, s': State, t: ThreadId) {
    && s'.workers.Keys == s.workers.Keys && t in s.workers && (forall u | u in s.workers && u != t :: s'.workers[u] == s.workers[u])
    && s'.workers[t].io == s.workers[t].io
    && s'.regs == s.regs && s'.pending == s.pending && s'.autoStop == s.autoStop && s'.isRunning == s.isRunning
  }

  /** A scan takes the first entry it may take into hand and counts it active, or finds nothing (163-185). */
  lemma ScanExact(s: State, t: ThreadId)
    requires Enabled(s, ScanQueue(t))
    ensures
      var s' := Apply(s, ScanQueue(t));
      && ElseSame(s, s', t) && s'.fibers == s.fibers && s'.idle == s.idle && !s'.aborted
      && s'.workers[t].reuse == s.workers[t].reuse && s'.workers[t].idleTerm == s.workers[t].idleTerm
      && ((forall e | e in s.queue :: !MayTake(s, t, e)) ==>
            s'.queue == s.queue && s'.active == s.active && s'.workers[t].pc == EmptyHand)
      && (forall i: nat | FirstFor(s, t, i) ::
            s'.queue == s.queue[..i] + s.queue[i + 1..] && s'.active == s.active + 1 && s'.workers[t].pc == InHand(s.queue[i]))
  {
    var k := FirstEligible(s.queue, s.fibers, t, 0);
    assert forall e :: MayTake(s, t, e) == Eligible(s.fibers, t, e);
    if k < |s.queue| {
      assert s.queue[k] in s.queue && FirstFor(s, t, k);
      assert forall i: nat | FirstFor(s, t, i) :: i == k;
    } else {
      assert forall i: nat | FirstFor(s, t, i) :: false;
    }
  }

  /** Only the record of fiber g differs, or is new. */
  predicate OnlyRecord(s: State, s': State, g: FiberId) {
    s'.fibers.Keys == s.fibers.Keys + {g} && forall f | f in s.fibers && f != g :: s'.fibers[f] == s.fibers[f]
  }

  /** A callback in hand runs on the worker's reusable fiber or on a new one, and no other callback does (206-215). */
  lemma StartCallback(s: State, t: ThreadId, newId: FiberId, cb: Callback)
    requires Inv(s) && Enabled(s, StartTask(t, newId)) && s.workers[t].pc.e.task == Call(cb)
    ensures
      var s' := Apply(s, StartTask(t, newId));
      var g := if s.workers[t].reuse.Some? then s.workers[t].reuse.value else newId;
      && !s'.aborted && ElseSame(s, s', t) && s'.queue == s.queue && s'.active == s.active && s'.idle == s.idle
      && s'.workers[t].pc == Running(g, true) && s'.workers[t].reuse == Some(g)
      && g in s'.fibers && s'.fibers[g] == FiberRec(EXEC, Some(cb)) && OnlyRecord(s, s', g)
  {
    CallbackFiberIsAlone(s, t, newId);
    assert WorkerOk(s, s.workers[t]);
  }

  /** A fiber in hand is resumed with the callback it has (192-195). */
  lemma StartFiber(s: State, t: ThreadId, newId: FiberId, f: FiberId)
    requires Inv(s) && Enabled(s, StartTask(t, newId)) && s.workers[t].pc.e.task == Fib(f)
    ensures
      var s' := Apply(s, StartTask(t, newId));
      && !s'.aborted && ElseSame(s, s', t) && s'.queue == s.queue && s'.active == s.active && s'.idle == s.idle
      && s'.workers[t].pc == Running(f, false) && s'.workers[t].reuse == s.workers[t].reuse
      && f in s.fibers && f in s'.fibers && s'.fibers[f] == FiberRec(EXEC, s.fibers[f].cb) && OnlyRecord(s, s', f)
  {
    InHandIsAlone(s, t, f);
    assert WorkerOk(s, s.workers[t]);
  }

  /** A fiber in hand that has ended is dropped (192-193, 228-230). */
  lemma StartDropped(s: State, t: ThreadId, newId: FiberId, f: FiberId)
    requires Enabled(s, StartTask(t, newId)) && s.workers[t].pc.e.task == Fib(f)
    requires f in s.fibers && (s.fibers[f].state == TERM || s.fibers[f].state == EXCEPT)
    ensures
      var s' := Apply(s, StartTask(t, newId));
      && ElseSame(s, s', t) && s'.queue == s.queue && s'.fibers == s.fibers && s'.active == s.active - 1 && s'.idle == s.idle
      && s'.workers[t].pc == Scan && s'.workers[t].reuse == s.workers[t].reuse && !s'.aborted
  {
  }

  /** What a fiber leaves behind (fiber.cpp:180-217): only a normal return drops its callback. */
  lemma SwitchExact(s: State, t: ThreadId, how: Exit)
    requires Inv(s) && Enabled(s, Switch(t, how))
    ensures
      var s' := Apply(s, Switch(t, how));
      var Running(f, v) := s.workers[t].pc;
      && !s'.aborted && ElseSame(s, s', t) && s'.queue == s.queue && s'.active == s.active && s'.idle == s.idle
      && s'.workers[t].pc == Back(f, v) && s'.workers[t].reuse == s.workers[t].reuse
      && f in s.fibers && OnlyRecord(s, s', f)
      && s'.fibers[f].state == (match how case ToReady => READY case ToHold => HOLD case Finish => TERM case Throw => EXCEPT)
      && s'.fibers[f].cb == (if how == Finish then None else s.fibers[f].cb)
  {
    assert WorkerOk(s, s.workers[t]);
  }

  /** The active count goes down before anything else happens (196, 216). */
  lemma DecrementExact(s: State, t: ThreadId)
    requires Enabled(s, Decrement(t))
    ensures
      var s' := Apply(s, Decrement(t));
      && ElseSame(s, s', t) && s'.queue == s.queue && s'.fibers == s.fibers && s'.active == s.active - 1 && s'.idle == s.idle
      && s'.workers[t].pc == Counted(s.workers[t].pc.f, s.workers[t].pc.viaCb) && s'.workers[t].reuse == s.workers[t].reuse
  {
  }

  /** A READY fiber is queued again for any thread; a callback fiber is given up with it (198-199, 217-219). */
  lemma SettleReady(s: State, t: ThreadId)
    requires Enabled(s, Settle(t)) && s.workers[t].pc.f in s.fibers && s.fibers[s.workers[t].pc.f].state == READY
    ensures
      var s' := Apply(s, Settle(t));
      var Counted(f, v) := s.workers[t].pc;
      && ElseSame(s, s', t) && s'.fibers == s.fibers && s'.active == s.active && s'.idle == s.idle
      && s'.queue == s.queue + [Entry(Fib(f), -1)]
      && s'.workers[t].pc == Scan && s'.workers[t].reuse == (if v then None else s.workers[t].reuse)
  {
  }

  /** A fiber that has ended stays so; a callback fiber is made ready for the next callback (200, 220-222). */
  lemma SettleEnded(s: State, t: ThreadId)
    requires Enabled(s, Settle(t)) && s.workers[t].pc.f in s.fibers
    requires s.fibers[s.workers[t].pc.f].state == TERM || s.fibers[s.workers[t].pc.f].state == EXCEPT
    ensures
      var s' := Apply(s, Settle(t));
      var Counted(f, v) := s.workers[t].pc;
      && ElseSame(s, s', t) && s'.queue == s.queue && s'.active == s.active && s'.idle == s.idle && OnlyRecord(s, s', f)
      && s'.fibers[f] == (if v then FiberRec(INIT, None) else s.fibers[f])
      && s'.workers[t].pc == Scan && s'.workers[t].reuse == s.workers[t].reuse
  {
  }

  /** Anything else is on HOLD; a callback fiber is given up (200-202, 223-225). */
  lemma SettleHeld(s: State, t: ThreadId)
    requires Enabled(s, Settle(t)) && s.workers[t].pc.f in s.fibers
    requires !(s.fibers[s.workers[t].pc.f].state in {READY, TERM, EXCEPT})
    ensures
      var s' := Apply(s, Settle(t));
      var Counted(f, v) := s.workers[t].pc;
      && ElseSame(s, s', t) && s'.queue == s.queue && s'.active == s.active && s'.idle == s.idle && OnlyRecord(s, s', f)
      && s'.fibers[f] == FiberRec(HOLD, s.fibers[f].cb)
      && s'.workers[t].pc == Scan && s'.workers[t].reuse == (if v then None else s.workers[t].reuse)
  {
  }

  /** A worker that found nothing leaves when its idle fiber has ended, and else enters it (234-240). */
  lemma LeaveExact(s: State, t: ThreadId)
    requires Enabled(s, Leave(t))
    ensures
      var s' := Apply(s, Leave(t));
      && ElseSame(s, s', t) && s'.queue == s.queue && s'.fibers == s.fibers && s'.active == s.active
      && s'.workers[t] == s.workers[t].(pc := if s.workers[t].idleTerm then Exited else Idle)
      && s'.idle == (if s.workers[t].idleTerm then s.idle else s.idle + 1)
  {
  }

  /** An idle fiber ends exactly when stop was requested, the queue is empty, nothing is active and nothing pending (254-259, iomanager.cpp:282-297). */
  lemma IdleExact(s: State, t: ThreadId)
    requires Enabled(s, IdleCheck(t))
    ensures
      var stopped := s.autoStop && !s.isRunning && s.queue == [] && s.active == 0;
      var s1 := Apply(s, IdleCheck(t));
      && ElseSame(s, s1, t) && s1.queue == s.queue && s1.fibers == s.fibers && s1.active == s.active && s1.idle == s.idle
      && s1.workers[t] == s.workers[t].(pc := if stopped then IdleMid else Waiting)
  {
  }

  lemma PendingExact(s: State, t: ThreadId)
    requires Enabled(s, PendingCheck(t))
    ensures
      var s1 := Apply(s, PendingCheck(t));
      && ElseSame(s, s1, t) && s1.queue == s.queue && s1.fibers == s.fibers && s1.active == s.active
      && s1.workers[t] == (if s.pending == 0 then s.workers[t].(pc := Scan, idleTerm := true) else s.workers[t].(pc := Waiting))
      && s1.idle == (if s.pending == 0 then s.idle - 1 else s.idle)
  {
  }

  /** After one round of dispatching the idle fiber yields, and the worker scans again (367, 241). */
  lemma IdleYieldExact(s: State, t: ThreadId)
    requires Enabled(s, IdleYield(t))
    ensures
      var s' := Apply(s, IdleYield(t));
      && ElseSame(s, s', t) && s'.queue == s.queue && s'.fibers == s.fibers && s'.active == s.active && s'.idle == s.idle - 1
      && s'.workers[t] == s.workers[t].(pc := Scan)
  {
  }

  /** A record that a worker runs is changed by nobody else. */
  lemma RunningKept(s: State, step: Step, t: ThreadId)
    requires Inv(s) && Enabled(s, step) && t in s.workers && s.workers[t].pc.Running?
    requires !(step.Switch? && step.t == t)
    ensures
      var f := s.workers[t].pc.f;
      f in s.fibers && f in Apply(s, step).fibers && Apply(s, step).fibers[f] == s.fibers[f]
  {
    var f := s.workers[t].pc.f;
    assert WorkerOk(s, s.workers[t]);
    HeldIsAlone(s, t, f);
    match step
    case StartTask(u, newId) => StartKeepsRecord(s, u, newId, t);
    case Switch(u, how) => SwitchExact(s, u, how); assert FreeOf(s.workers[u], f);
    case Settle(u) => SettleKeepsRecord(s, u, t);
    case _ => OtherKeepsRecord(s, step, f);
  }

  lemma StartKeepsRecord(s: State, u: ThreadId, newId: FiberId, t: ThreadId)
    requires Inv(s) && Enabled(s, StartTask(u, newId)) && t in s.workers && s.workers[t].pc.Running?
    requires s.workers[t].pc.f in s.fibers && forall w | w in s.workers && w != t :: FreeOf(s.workers[w], s.workers[t].pc.f)
    ensures
      var f, s' := s.workers[t].pc.f, Apply(s, StartTask(u, newId));
      f in s'.fibers && s'.fibers[f] == s.fibers[f]
  {
    assert FreeOf(s.workers[u], s.workers[t].pc.f);
    match s.workers[u].pc.e.task
    case Call(cb) => StartCallback(s, u, newId, cb);
    case Fib(g) => StartFiber(s, u, newId, g);
  }

  lemma SettleKeepsRecord(s: State, u: ThreadId, t: ThreadId)
    requires Inv(s) && Enabled(s, Settle(u)) && t in s.workers && s.workers[t].pc.Running?
    requires s.workers[t].pc.f in s.fibers && forall w | w in s.workers && w != t :: FreeOf(s.workers[w], s.workers[t].pc.f)
    ensures
      var f, s' := s.workers[t].pc.f, Apply(s, Settle(u));
      f in s'.fibers && s'.fibers[f] == s.fibers[f]
  {
    assert FreeOf(s.workers[u], s.workers[t].pc.f) && WorkerOk(s, s.workers[u]);
    assert Apply(s, Settle(u)) == DoSettle(s, u);
  }

  lemma OtherKeepsRecord(s: State, step: Step, f: FiberId)
    requires Enabled(s, step) && !step.StartTask? && !step.Switch? && !step.Settle? && f in s.fibers
    ensures f in Apply(s, step).fibers && Apply(s, step).fibers[f] == s.fibers[f]
  {
    match step
    case NewFiber(g, _) => assert g != f;
    case _ =>
  }
}
