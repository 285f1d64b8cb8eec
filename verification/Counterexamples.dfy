/** Runs that the source allows and that show why each assumption on timing is needed. */
module Counterexamples {
  import opened Types
  import opened Protocol
  import opened Ownership
  import opened Executions
  import opened Shutdown

  const UNTIMELY := Rules(true, false, true)
  const CLEAN := Rules(true, true, true)

  /** Equal, map by map. */
  predicate Alike(a: State, b: State) {
    && a.queue == b.queue && a.active == b.active && a.idle == b.idle && a.pending == b.pending
    && a.autoStop == b.autoStop && a.isRunning == b.isRunning && a.aborted == b.aborted
    && a.fibers == b.fibers && a.workers == b.workers && a.regs == b.regs
  }

  // one lemma a step, in the terms of the step alone

  lemma GoExternal(n: nat, s0: State, s: State, m: Rules, cb: Callback)
    requires Reaches(n, s0, s, m) && !s.aborted && !s.autoStop
    ensures Reaches(n, s0, Push(s, Entry(Call(cb), ANY)), m)
  {
    Extend(n, s0, s, m, External(Entry(Call(cb), ANY)));
  }

  lemma GoStop(n: nat, s0: State, s: State, m: Rules)
    requires Reaches(n, s0, s, m) && !s.aborted
    ensures Reaches(n, s0, s.(autoStop := true, isRunning := false), m)
  {
    Extend(n, s0, s, m, RequestStop);
  }

  lemma GoTake(n: nat, s0: State, s: State, m: Rules, t: ThreadId, s': State)
    requires Reaches(n, s0, s, m) && CanAct(s, t) && s.workers[t].pc.Scan? && s.queue != []
    requires Eligible(s.fibers, t, s.queue[0])
    requires m.timely && s.queue[0].task.Fib? ==> forall u | u in s.workers :: !Unsettled(s.workers[u], s.queue[0].task.fiber)
    requires Alike(s', SetPc(s, t, InHand(s.queue[0])).(queue := s.queue[1..], active := s.active + 1))
    ensures Reaches(n, s0, s', m)
  {
    assert FirstEligible(s.queue, s.fibers, t, 0) == 0;
    assert RemoveAt(s.queue, 0) == s.queue[1..];
    Extend(n, s0, s, m, ScanQueue(t));
  }

  lemma GoScanEmpty(n: nat, s0: State, s: State, m: Rules, t: ThreadId, s': State)
    requires Reaches(n, s0, s, m) && CanAct(s, t) && s.workers[t].pc.Scan?
    requires forall i | 0 <= i < |s.queue| :: !Eligible(s.fibers, t, s.queue[i])
    requires Alike(s', SetPc(s, t, EmptyHand))
    ensures Reaches(n, s0, s', m)
  {
    Extend(n, s0, s, m, ScanQueue(t));
  }

  lemma GoStart(n: nat, s0: State, s: State, m: Rules, t: ThreadId, newId: FiberId, s': State)
    requires Reaches(n, s0, s, m) && CanAct(s, t) && s.workers[t].pc.InHand? && newId !in s.fibers
    requires Alike(s', DoStart(s, t, newId))
    ensures Reaches(n, s0, s', m)
  {
    Extend(n, s0, s, m, StartTask(t, newId));
  }

  lemma GoSwitch(n: nat, s0: State, s: State, m: Rules, t: ThreadId, how: Exit, s': State)
    requires Reaches(n, s0, s, m) && InFiber(s, t) && (m.obedient && how != ToHold ==> !HasWake(s, s.workers[t].pc.f))
    requires Alike(s', DoSwitch(s, t, how))
    ensures Reaches(n, s0, s', m)
  {
    Extend(n, s0, s, m, Switch(t, how));
  }

  lemma GoDecrement(n: nat, s0: State, s: State, m: Rules, t: ThreadId, s': State)
    requires Reaches(n, s0, s, m) && CanAct(s, t) && s.workers[t].pc.Back?
    requires Alike(s', SetPc(s, t, Counted(s.workers[t].pc.f, s.workers[t].pc.viaCb)).(active := s.active - 1))
    ensures Reaches(n, s0, s', m)
  {
    Extend(n, s0, s, m, Decrement(t));
  }

  lemma GoSettle(n: nat, s0: State, s: State, m: Rules, t: ThreadId, s': State)
    requires Reaches(n, s0, s, m) && CanAct(s, t) && s.workers[t].pc.Counted?
    requires Alike(s', DoSettle(s, t))
    ensures Reaches(n, s0, s', m)
  {
    Extend(n, s0, s, m, Settle(t));
  }

  lemma GoLeave(n: nat, s0: State, s: State, m: Rules, t: ThreadId, s': State)
    requires Reaches(n, s0, s, m) && CanAct(s, t) && s.workers[t].pc.EmptyHand?
    requires Alike(s', DoLeave(s, t))
    ensures Reaches(n, s0, s', m)
  {
    Extend(n, s0, s, m, Leave(t));
  }

  /** The idle fiber sees the scheduler stopped, in both reads. */
  lemma GoIdleStopped(n: nat, s0: State, s: State, m: Rules, t: ThreadId, s': State)
    requires Reaches(n, s0, s, m) && CanAct(s, t) && s.workers[t].pc.Idle? && StoppedNow(s) && (m.clean ==> NoReadyWindow(s))
    requires Alike(s', s.(workers := s.workers[t := s.workers[t].(pc := Scan, idleTerm := true)], idle := s.idle - 1))
    ensures Reaches(n, s0, s', m)
  {
    Extend(n, s0, s, m, IdleCheck(t));
    var s1 := SetPc(s, t, IdleMid);
    Extend(n, s0, s1, m, PendingCheck(t));
    assert Alike(DoPendingCheck(s1, t), s');
  }

  lemma GoAdd(n: nat, s0: State, s: State, m: Rules, t: ThreadId, key: Key, cb: Callback, s': State)
    requires Reaches(n, s0, s, m) && InFiber(s, t) && FdFree(s, key.fd) && key !in s.regs
    requires Alike(s', s.(pending := s.pending + 1, regs := s.regs[key := Call(cb)]))
    ensures Reaches(n, s0, s', m)
  {
    Extend(n, s0, s, m, AddBegin(t, key, Call(cb)));
    var s1 := SetIo(s, t, Adding(key, Call(cb))).(pending := s.pending + 1);
    Extend(n, s0, s1, m, AddCommit(t));
    assert s1.workers[t := s1.workers[t].(io := NoOp)] == s.workers;
  }

  lemma GoDelOther(n: nat, s0: State, s: State, m: Rules, t: ThreadId, key: Key)
    requires Reaches(n, s0, s, m) && InFiber(s, t) && FdFree(s, key.fd) && key !in s.regs && Other(key) in s.regs
    ensures Reaches(n, s0, s.(pending := s.pending - 1), m)
  {
    Extend(n, s0, s, m, DelOther(t, key));
  }

  lemma GoSchedule(n: nat, s0: State, s: State, m: Rules, t: ThreadId, e: Entry)
    requires Reaches(n, s0, s, m) && InFiber(s, t) && TaskExists(s, e.task) && (m.obedient ==> MayWake(s, e.task))
    ensures Reaches(n, s0, Push(s, e), m)
  {
    Extend(n, s0, s, m, Schedule(t, e));
  }

  // ---- the two-worker scheduler of the examples -------------------------------------------------------

  /** Threads 1 and 2, at most one fiber (0), READY or not. */
  function Two(queue: seq<Entry>, active: int, idle: int, stopping: bool, fiber: FiberRec, w1: Worker, w2: Worker): State {
    State(queue, active, idle, stopping, !stopping, 0, map[0 := fiber], map[1 := w1, 2 := w2], map[], false)
  }

  function W(pc: Pc): Worker { Worker(pc, None, false, NoOp) }
  function WR(pc: Pc): Worker { Worker(pc, Some(0), false, NoOp) }
  function WT(pc: Pc): Worker { Worker(pc, None, true, NoOp) }

  function Begin(): State {
    State([], 0, 0, false, true, 0, map[], map[1 := W(Scan), 2 := W(Scan)], map[], false)
  }

  /** Thread 1 starts callback 7 on the new fiber 0. */
  lemma StartOne(n: nat, m: Rules)
    ensures Reaches(n, Begin(), Two([], 1, 0, false, Live(), WR(Running(0, true)), W(Scan)), m)
  {
    var s0 := Begin();
    Start(n, s0, m);
    GoExternal(n, s0, s0, m, 7);
    var s1 := Push(s0, Entry(Call(7), ANY));
    var s2 := s0.(active := 1, workers := map[1 := W(InHand(Entry(Call(7), ANY))), 2 := W(Scan)]);
    GoTake(n, s0, s1, m, 1, s2);
    GoStart(n, s0, s2, m, 1, 0, Two([], 1, 0, false, Live(), WR(Running(0, true)), W(Scan)));
  }

  // ---- without the hand-over timing: one fiber on two workers ----------------------------------------

  function Wake(): Entry { Entry(Fib(0), ANY) }

  function Live(): FiberRec { FiberRec(EXEC, Some(7)) }
  function Yielded(): FiberRec { FiberRec(READY, Some(7)) }
  function Held0(): FiberRec { FiberRec(HOLD, Some(7)) }

  /** Thread 2 dequeues the fiber before thread 1 has settled it. */
  lemma PickedUp(n: nat)
    ensures Reaches(n, Begin(), Two([], 2, 0, false, Live(), WR(Back(0, true)), W(Running(0, false))), UNTIMELY)
  {
    var s0 := Begin();
    StartOne(n, UNTIMELY);
    var s1 := Two([], 1, 0, false, Live(), WR(Running(0, true)), W(Scan));
    GoSchedule(n, s0, s1, UNTIMELY, 1, Wake());
    var s2 := Two([Wake()], 1, 0, false, Held0(), WR(Back(0, true)), W(Scan));
    GoSwitch(n, s0, Push(s1, Wake()), UNTIMELY, 1, ToHold, s2);
    var s3 := Two([], 2, 0, false, Held0(), WR(Back(0, true)), W(InHand(Wake())));
    GoTake(n, s0, s2, UNTIMELY, 2, s3);
    GoStart(n, s0, s3, UNTIMELY, 2, 1, Two([], 2, 0, false, Live(), WR(Back(0, true)), W(Running(0, false))));
  }

  /** Thread 1 then puts a running fiber on HOLD. */
  lemma PickedUpEarly(n: nat)
    ensures Reaches(n, Begin(), Two([], 1, 0, false, Held0(), W(Scan), W(Running(0, false))), UNTIMELY)
  {
    var s0 := Begin();
    PickedUp(n);
    var s4 := Two([], 2, 0, false, Live(), WR(Back(0, true)), W(Running(0, false)));
    var s5 := Two([], 1, 0, false, Live(), WR(Counted(0, true)), W(Running(0, false)));
    GoDecrement(n, s0, s4, UNTIMELY, 1, s5);
    GoSettle(n, s0, s5, UNTIMELY, 1, Two([], 1, 0, false, Held0(), W(Scan), W(Running(0, false))));
  }

  function Both(): State { Two([], 2, 0, false, Live(), W(Running(0, false)), W(Running(0, false))) }

  lemma RunsTwice(n: nat)
    ensures Reaches(n, Begin(), Both(), UNTIMELY)
  {
    var s0 := Begin();
    PickedUpEarly(n);
    var s1 := Two([], 1, 0, false, Held0(), W(Scan), W(Running(0, false)));
    GoSchedule(n, s0, s1, UNTIMELY, 2, Wake());
    var s2 := Two([], 2, 0, false, Held0(), W(InHand(Wake())), W(Running(0, false)));
    GoTake(n, s0, Push(s1, Wake()), UNTIMELY, 1, s2);
    GoStart(n, s0, s2, UNTIMELY, 1, 1, Both());
  }

  /** The wake-up discipline alone does not give ownership: fiber 0 ends up on both workers. */
  lemma EarlyPickupBreaksOwnership()
    ensures Initial(Begin())
    ensures exists steps: seq<Step> ::
      && IsRun(Begin(), steps) && IsObedient(Begin(), steps)
      && Runs(After(Begin(), steps), 1, 0) && Runs(After(Begin(), steps), 2, 0)
  {
    assert 1 in Begin().workers;
    RunsTwice(0);
    ReachesIsReachable(0, Begin(), Both(), UNTIMELY);
  }

  // ---- without the wake-up discipline: a fiber queued twice ------------------------------------------

  /** The running fiber 0 has scheduled itself. */
  function WokenOnce(): State { Two([Wake()], 1, 0, false, Live(), WR(Running(0, true)), W(Scan)) }

  /** It has done so twice. */
  function WokenTwice(): State { Two([Wake(), Wake()], 1, 0, false, Live(), WR(Running(0, true)), W(Scan)) }

  /** Worker 1 runs it, and worker 2 has failed to resume it. */
  function Clash(): State {
    Two([], 2, 0, false, Live(), W(Running(0, false)), W(InHand(Wake()))).(aborted := true)
  }

  lemma TwiceQueued(n: nat)
    ensures Reaches(n, WokenTwice(), Two([Wake(), Wake()], 0, 0, false, Held0(), W(Scan), W(Scan)), DISCIPLINED)
  {
    var s0, m := WokenTwice(), DISCIPLINED;
    Start(n, s0, m);
    var s1 := Two([Wake(), Wake()], 1, 0, false, Held0(), WR(Back(0, true)), W(Scan));
    GoSwitch(n, s0, s0, m, 1, ToHold, s1);
    var s2 := Two([Wake(), Wake()], 0, 0, false, Held0(), WR(Counted(0, true)), W(Scan));
    GoDecrement(n, s0, s1, m, 1, s2);
    GoSettle(n, s0, s2, m, 1, Two([Wake(), Wake()], 0, 0, false, Held0(), W(Scan), W(Scan)));
  }

  /** Both entries are dequeued after fiber 0 has been settled. */
  lemma BothInHand(n: nat)
    ensures Reaches(n, WokenTwice(), Two([], 2, 0, false, Held0(), W(InHand(Wake())), W(InHand(Wake()))), DISCIPLINED)
  {
    var s0, m := WokenTwice(), DISCIPLINED;
    TwiceQueued(n);
    var s3 := Two([Wake(), Wake()], 0, 0, false, Held0(), W(Scan), W(Scan));
    var s4 := Two([Wake()], 1, 0, false, Held0(), W(InHand(Wake())), W(Scan));
    GoTake(n, s0, s3, m, 1, s4);
    GoTake(n, s0, s4, m, 2, Two([], 2, 0, false, Held0(), W(InHand(Wake())), W(InHand(Wake()))));
  }

  lemma TwiceAborts()
    ensures Reachable(WokenTwice(), Clash(), DISCIPLINED)
  {
    var s0, m := WokenTwice(), DISCIPLINED;
    BothInHand(1);
    var s1 := Two([], 2, 0, false, Held0(), W(InHand(Wake())), W(InHand(Wake())));
    var s2 := Two([], 2, 0, false, Live(), W(Running(0, false)), W(InHand(Wake())));
    GoStart(1, s0, s1, m, 1, 1, s2);
    GoStart(1, s0, s2, m, 2, 1, Clash());
    ReachesIsReachable(1, s0, Clash(), m);
  }

  /**
   The timing alone does not give ownership: a disciplined run reaches a state where one second wake-up is enough for a
   disciplined continuation to fail swapIn's assertion.
   */
  lemma DoubleWakeAborts()
    ensures Initial(Begin()) && Reachable(Begin(), WokenOnce(), DISCIPLINED)
    ensures
      var again := Schedule(1, Wake());
      && Enabled(WokenOnce(), again) && !WakeDiscipline(WokenOnce(), again)
      && Clash().aborted && Reachable(Apply(WokenOnce(), again), Clash(), DISCIPLINED)
      && !StaysOwned(Apply(WokenOnce(), again))
  {
    assert 1 in Begin().workers;
    StartOne(1, DISCIPLINED);
    var s1 := Two([], 1, 0, false, Live(), WR(Running(0, true)), W(Scan));
    GoSchedule(1, Begin(), s1, DISCIPLINED, 1, Wake());
    assert Alike(Push(s1, Wake()), WokenOnce());
    ReachesIsReachable(1, Begin(), WokenOnce(), DISCIPLINED);
    assert Wake() in WokenOnce().queue;
    assert Alike(Push(WokenOnce(), Wake()), WokenTwice());
    TwiceAborts();
    var steps: seq<Step> :|
      IsRun(WokenTwice(), steps) && Follows(WokenTwice(), steps, DISCIPLINED) && After(WokenTwice(), steps) == Clash();
    assert IsDisciplined(WokenTwice(), steps) && !OwnedAfter(WokenTwice(), steps);
  }

  // ---- without clean checks: a registered event is never delivered ------------------------------------

  /** Thread 2 tests stopped() inside thread 1's READY window. */
  lemma FirstWindow(n: nat)
    ensures Reaches(n, Begin(), Two([], 0, 1, true, Yielded(), WR(Counted(0, true)), W(Idle)), DISCIPLINED)
  {
    var s0 := Begin();
    StartOne(n, DISCIPLINED);
    GoStop(n, s0, Two([], 1, 0, false, Live(), WR(Running(0, true)), W(Scan)), DISCIPLINED);
    var s1 := Two([], 1, 0, true, Live(), WR(Running(0, true)), W(Scan));
    var s2 := Two([], 1, 0, true, Yielded(), WR(Back(0, true)), W(Scan));
    GoSwitch(n, s0, s1, DISCIPLINED, 1, ToReady, s2);
    var s3 := Two([], 0, 0, true, Yielded(), WR(Counted(0, true)), W(Scan));
    GoDecrement(n, s0, s2, DISCIPLINED, 1, s3);
    var s4 := Two([], 0, 0, true, Yielded(), WR(Counted(0, true)), W(EmptyHand));
    GoScanEmpty(n, s0, s3, DISCIPLINED, 2, s4);
    GoLeave(n, s0, s4, DISCIPLINED, 2, Two([], 0, 1, true, Yielded(), WR(Counted(0, true)), W(Idle)));
  }

  /** Thread 2's idle fiber ends; its last scan takes the fiber that thread 1 has queued again. */
  lemma LastScan(n: nat)
    ensures Reaches(n, Begin(), Two([], 1, 0, true, Live(), W(Scan), WT(Running(0, false))), DISCIPLINED)
  {
    var s0 := Begin();
    FirstWindow(n);
    var s1 := Two([], 0, 1, true, Yielded(), WR(Counted(0, true)), W(Idle));
    var s2 := Two([], 0, 0, true, Yielded(), WR(Counted(0, true)), WT(Scan));
    GoIdleStopped(n, s0, s1, DISCIPLINED, 2, s2);
    var s3 := Two([Wake()], 0, 0, true, Yielded(), W(Scan), WT(Scan));
    GoSettle(n, s0, s2, DISCIPLINED, 1, s3);
    var s4 := Two([], 1, 0, true, Yielded(), W(Scan), WT(InHand(Wake())));
    GoTake(n, s0, s3, DISCIPLINED, 2, s4);
    GoStart(n, s0, s4, DISCIPLINED, 2, 1, Two([], 1, 0, true, Live(), W(Scan), WT(Running(0, false))));
  }

  /** Thread 1 tests stopped() inside thread 2's window. */
  lemma SecondWindow(n: nat)
    ensures Reaches(n, Begin(), Two([Wake()], 0, 0, true, Yielded(), WT(Scan), WT(Scan)), DISCIPLINED)
  {
    var s0 := Begin();
    LastScan(n);
    var s1 := Two([], 1, 0, true, Live(), W(Scan), WT(Running(0, false)));
    var s2 := Two([], 1, 0, true, Live(), W(EmptyHand), WT(Running(0, false)));
    GoScanEmpty(n, s0, s1, DISCIPLINED, 1, s2);
    var s3 := Two([], 1, 1, true, Live(), W(Idle), WT(Running(0, false)));
    GoLeave(n, s0, s2, DISCIPLINED, 1, s3);
    var s4 := Two([], 1, 1, true, Yielded(), W(Idle), WT(Back(0, false)));
    GoSwitch(n, s0, s3, DISCIPLINED, 2, ToReady, s4);
    var s5 := Two([], 0, 1, true, Yielded(), W(Idle), WT(Counted(0, false)));
    GoDecrement(n, s0, s4, DISCIPLINED, 2, s5);
    var s6 := Two([], 0, 0, true, Yielded(), WT(Scan), WT(Counted(0, false)));
    GoIdleStopped(n, s0, s5, DISCIPLINED, 1, s6);
    GoSettle(n, s0, s6, DISCIPLINED, 2, Two([Wake()], 0, 0, true, Yielded(), WT(Scan), WT(Scan)));
  }

  /** Thread 2 runs the fiber once more; thread 1 leaves. */
  lemma LastTask(n: nat)
    ensures Reaches(n, Begin(), Two([], 1, 0, true, Live(), WT(Exited), WT(Running(0, false))), DISCIPLINED)
  {
    var s0 := Begin();
    SecondWindow(n);
    var s1 := Two([Wake()], 0, 0, true, Yielded(), WT(Scan), WT(Scan));
    var s2 := Two([], 1, 0, true, Yielded(), WT(Scan), WT(InHand(Wake())));
    GoTake(n, s0, s1, DISCIPLINED, 2, s2);
    var s3 := Two([], 1, 0, true, Live(), WT(Scan), WT(Running(0, false)));
    GoStart(n, s0, s2, DISCIPLINED, 2, 1, s3);
    var s4 := Two([], 1, 0, true, Live(), WT(EmptyHand), WT(Running(0, false)));
    GoScanEmpty(n, s0, s3, DISCIPLINED, 1, s4);
    GoLeave(n, s0, s4, DISCIPLINED, 1, Two([], 1, 0, true, Live(), WT(Exited), WT(Running(0, false))));
  }

  /** What is left: an entry pinned to the exited thread 1 and a registration of fd 5. */
  function Leftover(active: int, fiber: FiberRec, w2: Worker): State {
    Two([Entry(Call(9), 1)], active, 0, true, fiber, WT(Exited), w2).(pending := 1, regs := map[Key(5, false) := Call(8)])
  }

  lemma LastRegistration(n: nat)
    ensures Reaches(n, Begin(), Leftover(1, FiberRec(TERM, None), WT(Back(0, false))), DISCIPLINED)
  {
    var s0 := Begin();
    LastTask(n);
    var s1 := Two([], 1, 0, true, Live(), WT(Exited), WT(Running(0, false)));
    var s2 := s1.(pending := 1, regs := map[Key(5, false) := Call(8)]);
    GoAdd(n, s0, s1, DISCIPLINED, 2, Key(5, false), 8, s2);
    GoSchedule(n, s0, s2, DISCIPLINED, 2, Entry(Call(9), 1));
    assert Alike(Push(s2, Entry(Call(9), 1)), Leftover(1, Live(), WT(Running(0, false))));
    GoSwitch(n, s0, Leftover(1, Live(), WT(Running(0, false))), DISCIPLINED, 2, Finish,
      Leftover(1, FiberRec(TERM, None), WT(Back(0, false))));
  }

  lemma LastExit(n: nat)
    ensures Reaches(n, Begin(), Leftover(0, FiberRec(TERM, None), WT(Exited)), DISCIPLINED)
  {
    var s0 := Begin();
    LastRegistration(n);
    var s1 := Leftover(1, FiberRec(TERM, None), WT(Back(0, false)));
    var s2 := Leftover(0, FiberRec(TERM, None), WT(Counted(0, false)));
    GoDecrement(n, s0, s1, DISCIPLINED, 2, s2);
    var s3 := Leftover(0, FiberRec(TERM, None), WT(Scan));
    GoSettle(n, s0, s2, DISCIPLINED, 2, s3);
    var s4 := Leftover(0, FiberRec(TERM, None), WT(EmptyHand));
    GoScanEmpty(n, s0, s3, DISCIPLINED, 2, s4);
    GoLeave(n, s0, s4, DISCIPLINED, 2, Leftover(0, FiberRec(TERM, None), WT(Exited)));
  }

  /** A disciplined run whose workers all exit while an event is still registered and a pinned entry still queued. */
  lemma WindowLosesWork()
    ensures Initial(Begin())
    ensures exists steps: seq<Step> ::
      && IsRun(Begin(), steps) && IsDisciplined(Begin(), steps) && AllExited(After(Begin(), steps))
      && After(Begin(), steps).regs != map[] && After(Begin(), steps).queue != []
  {
    assert 1 in Begin().workers;
    LastExit(0);
    var s := Leftover(0, FiberRec(TERM, None), WT(Exited));
    ReachesIsReachable(0, Begin(), s, DISCIPLINED);
    var steps: seq<Step> :| IsRun(Begin(), steps) && Follows(Begin(), steps, DISCIPLINED) && After(Begin(), steps) == s;
    assert Key(5, false) in s.regs;
    assert IsDisciplined(Begin(), steps);
  }

  // ---- after a miscounted delete: a registered event is never delivered -------------------------------

  /** What is left: a registration of fd 5 that the pending count does not see. */
  function Hidden(active: int, idle: int, fiber: FiberRec, w1: Worker, w2: Worker): State {
    Two([], active, idle, true, fiber, w1, w2).(regs := map[Key(5, false) := Call(8)])
  }

  function Parked(): FiberRec { FiberRec(INIT, None) }
  function WP(pc: Pc): Worker { Worker(pc, Some(0), true, NoOp) }

  /** The task registers reading, deletes writing, and ends. */
  lemma MiscountedTask(n: nat)
    ensures Reaches(n, Begin(), Hidden(0, 0, Parked(), WR(Scan), W(Scan)), CLEAN)
  {
    var s0, m := Begin(), CLEAN;
    StartOne(n, m);
    GoStop(n, s0, Two([], 1, 0, false, Live(), WR(Running(0, true)), W(Scan)), m);
    var s1 := Two([], 1, 0, true, Live(), WR(Running(0, true)), W(Scan));
    var s2 := Hidden(1, 0, Live(), WR(Running(0, true)), W(Scan)).(pending := 1);
    GoAdd(n, s0, s1, m, 1, Key(5, false), 8, s2);
    GoDelOther(n, s0, s2, m, 1, Key(5, true));
    var s3 := Hidden(1, 0, Live(), WR(Running(0, true)), W(Scan));
    assert s2.(pending := 0) == s3;
    var s4 := Hidden(1, 0, FiberRec(TERM, None), WR(Back(0, true)), W(Scan));
    GoSwitch(n, s0, s3, m, 1, Finish, s4);
    var s5 := Hidden(0, 0, FiberRec(TERM, None), WR(Counted(0, true)), W(Scan));
    GoDecrement(n, s0, s4, m, 1, s5);
    GoSettle(n, s0, s5, m, 1, Hidden(0, 0, Parked(), WR(Scan), W(Scan)));
  }

  /** Worker 1 finds the scheduler stopped, then worker 2. */
  lemma MiscountedStop(n: nat)
    ensures Reaches(n, Begin(), Hidden(0, 0, Parked(), WP(Scan), W(Scan)), CLEAN)
  {
    var s0, m := Begin(), CLEAN;
    MiscountedTask(n);
    var s1 := Hidden(0, 0, Parked(), WR(Scan), W(Scan));
    var s2 := Hidden(0, 0, Parked(), WR(EmptyHand), W(Scan));
    GoScanEmpty(n, s0, s1, m, 1, s2);
    var s3 := Hidden(0, 1, Parked(), WR(Idle), W(Scan));
    GoLeave(n, s0, s2, m, 1, s3);
    GoIdleStopped(n, s0, s3, m, 1, Hidden(0, 0, Parked(), WP(Scan), W(Scan)));
  }

  lemma MiscountedStops(n: nat)
    ensures Reaches(n, Begin(), Hidden(0, 0, Parked(), WP(Scan), WT(Scan)), CLEAN)
  {
    var s0, m := Begin(), CLEAN;
    MiscountedStop(n);
    var s1 := Hidden(0, 0, Parked(), WP(Scan), W(Scan));
    var s2 := Hidden(0, 0, Parked(), WP(Scan), W(EmptyHand));
    GoScanEmpty(n, s0, s1, m, 2, s2);
    var s3 := Hidden(0, 1, Parked(), WP(Scan), W(Idle));
    GoLeave(n, s0, s2, m, 2, s3);
    GoIdleStopped(n, s0, s3, m, 2, Hidden(0, 0, Parked(), WP(Scan), WT(Scan)));
  }

  lemma MiscountedExit(n: nat)
    ensures Reaches(n, Begin(), Hidden(0, 0, Parked(), WP(Exited), WT(Scan)), CLEAN)
  {
    var s0, m := Begin(), CLEAN;
    MiscountedStops(n);
    var s1 := Hidden(0, 0, Parked(), WP(Scan), WT(Scan));
    var s2 := Hidden(0, 0, Parked(), WP(EmptyHand), WT(Scan));
    GoScanEmpty(n, s0, s1, m, 1, s2);
    GoLeave(n, s0, s2, m, 1, Hidden(0, 0, Parked(), WP(Exited), WT(Scan)));
  }

  lemma MiscountedExits(n: nat)
    ensures Reaches(n, Begin(), Hidden(0, 0, Parked(), WP(Exited), WT(Exited)), CLEAN)
  {
    var s0, m := Begin(), CLEAN;
    MiscountedExit(n);
    var s1 := Hidden(0, 0, Parked(), WP(Exited), WT(Scan));
    var s2 := Hidden(0, 0, Parked(), WP(Exited), WT(EmptyHand));
    GoScanEmpty(n, s0, s1, m, 2, s2);
    GoLeave(n, s0, s2, m, 2, Hidden(0, 0, Parked(), WP(Exited), WT(Exited)));
  }

  /** A disciplined run with clean checks whose workers all exit with an event registered and a pending count of zero. */
  lemma MiscountLosesEvent()
    ensures Initial(Begin())
    ensures exists steps: seq<Step> ::
      && IsRun(Begin(), steps) && IsDisciplined(Begin(), steps) && IsClean(Begin(), steps) && AllExited(After(Begin(), steps))
      && After(Begin(), steps).regs != map[] && After(Begin(), steps).pending == 0
  {
    assert 1 in Begin().workers;
    MiscountedExits(0);
    var s := Hidden(0, 0, Parked(), WP(Exited), WT(Exited));
    ReachesIsReachable(0, Begin(), s, CLEAN);
    var steps: seq<Step> :| IsRun(Begin(), steps) && Follows(Begin(), steps, CLEAN) && After(Begin(), steps) == s;
    assert Key(5, false) in s.regs;
    assert IsDisciplined(Begin(), steps);
  }
}
