/**
 The scheduler that runs on the caller's thread only: `stop` calls `run` (scheduler.cpp:119-124), and every
 task is a finite script.  `run` is the source's loop; it is proved to end with nothing left in the queue, to have taken
 only steps of the protocol, and to have performed every task up to its end or to a suspension that nobody ends.
 */
module CallerDrain {
  import opened Types
  import opened Protocol
  import opened Ownership
  import opened Executions
  import opened SchedulerModel
  import opened Scripts

  /** One worker, stop() already called, no registrations. */
  predicate Alone(s: State, t: ThreadId) {
    s.workers.Keys == {t} && s.regs == map[] && s.pending == 0 && Stopping(s)
  }

  predicate Local(q: seq<Entry>, t: ThreadId) { forall e | e in q :: e.thread == ANY || e.thread == t }

  /** At the loop head of a lone worker the first entry is always the one taken. */
  lemma TakesFirst(s: State, t: ThreadId)
    requires Inv(s) && Alone(s, t) && Local(s.queue, t) && s.workers[t].pc.Scan?
    ensures FirstEligible(s.queue, s.fibers, t, 0) == 0
  {
    if s.queue != [] {
      var e := s.queue[0];
      assert e in s.queue;
      if e.task.Fib? {
        assert StateOf(s.fibers, e.task.fiber) != EXEC;
      }
    }
  }

  /** s satisfies the invariant and a disciplined run leads to it; n definitions away, to keep it out of sight. */
  ghost predicate Good(n: nat, s0: State, s: State)
    decreases n
  {
    if n == 0 then Inv(s) && Reachable(s0, s, DISCIPLINED) else Good(n - 1, s0, s)
  }

  lemma {:induction false} GoodMeans(n: nat, s0: State, s: State)
    ensures Good(n, s0, s) <==> Inv(s) && Reachable(s0, s, DISCIPLINED)
    decreases n
  {
    if n > 0 {
      GoodMeans(n - 1, s0, s);
    }
  }

  /** The step keeps the invariant and extends the run. */
  lemma Advance(n: nat, s0: State, s: State, step: Step)
    requires Good(n, s0, s) && Enabled(s, step) && WakeDiscipline(s, step) && Handover(s, step)
    ensures Good(n, s0, Apply(s, step))
  {
    GoodMeans(n, s0, s);
    InvKeeps(s, step);
    ReachesIsReachable(1, s0, s, DISCIPLINED);
    Extend(1, s0, s, DISCIPLINED, step);
    ReachesIsReachable(1, s0, Apply(s, step), DISCIPLINED);
    GoodMeans(n, s0, Apply(s, step));
  }

  // ---- fibers asleep --------------------------------------------------------------------------------------

  /** f is suspended and has no wake-up. */
  ghost predicate Resting(s: State, f: FiberId) { f in s.fibers && s.fibers[f].state == HOLD && !HasWake(s, f) }

  ghost predicate Sleeping(s: State, asleep: seq<FiberId>) {
    && (forall i, j | 0 <= i < j < |asleep| :: asleep[i] != asleep[j])
    && (forall f | f in asleep :: Resting(s, f))
  }

  /** No step of the caller's thread disturbs a resting fiber. */
  ghost predicate Undisturbed(s: State, s': State) { forall f :: Resting(s, f) ==> Resting(s', f) }

  lemma SleepOn(s: State, s': State, asleep: seq<FiberId>)
    requires Sleeping(s, asleep) && Undisturbed(s, s')
    ensures Sleeping(s', asleep)
  {
  }

  /** What a push adds to the wake-ups. */
  lemma PushWakes(s: State, e: Entry)
    ensures forall f :: HasWake(Push(s, e), f) ==> HasWake(s, f) || e.task == Fib(f)
  {
    var s' := Push(s, e);
    forall f | HasWake(s', f)
      ensures HasWake(s, f) || e.task == Fib(f)
    {
      if InQueue(s', f) {
        var x :| x in s'.queue && x.task == Fib(f);
        assert x in s.queue || x == e;
      } else if Registered(s', f) {
        assert Registered(s, f);
      } else {
        var t :| t in s'.workers && Carries(s'.fibers, s'.workers[t], f);
        assert Carries(s.fibers, s.workers[t], f);
      }
    }
  }

  // ---- the caller -----------------------------------------------------------------------------------------

  /** The caller's thread inside `run`, with the books of its tasks. */
  class Caller {
    const sched: Scheduler
    const t: ThreadId
    var b: Books
    ghost const n: nat
    ghost const start: State
    ghost const given: nat    // the work of all tasks at the start
    ghost const calm: bool    // no task at the start suspends without a wake-up

    /** The scheduler object stands for a state that a disciplined run from start has reached. */
    ghost predicate Sound()
      reads this, sched, sched.table.Values
    {
      && sched.Valid() && Good(n, start, sched.Abs())
      && Alone(sched.Abs(), t) && Local(sched.fibers, t) && Sleeping(sched.Abs(), b.asleep)
    }

    /** The books balance: hand is the work in the worker's hand, open the number of its tasks there. */
    ghost predicate Balanced(hand: nat, open: int)
      reads this, sched
    {
      && Covered(sched.fibers, b) && Account(sched.fibers, b) + hand == given && Open(sched.fibers, b) == open
      && (calm ==> AllAwake(b))
    }

    function Pc(): Protocol.Pc
      requires t in sched.threads
      reads sched
    {
      sched.threads[t].pc
    }

    /** The worker runs a fiber that has no wake-up. */
    ghost predicate InTask()
      reads this, sched, sched.table.Values
    {
      && Sound() && Pc().Running? && sched.threads[t].io.NoOp? && Pc().f in sched.table
      && !HasWake(sched.Abs(), Pc().f)
    }

    /** `stop` has been called on a scheduler whose only worker is this thread, at its loop head. */
    constructor (sched: Scheduler, t: ThreadId, b: Books)
      requires sched.Valid() && Inv(sched.Abs()) && Alone(sched.Abs(), t) && Local(sched.fibers, t)
      requires Covered(sched.fibers, b) && b.asleep == [] && Open(sched.fibers, b) == 0
      ensures this.sched == sched && this.t == t && this.b == b && start == sched.Abs()
      ensures given == Account(sched.fibers, b) && calm == AllAwake(b)
      ensures Sound() && Balanced(0, 0)
    {
      this.sched, this.t, this.b := sched, t, b;
      n, start := 0, sched.Abs();
      given, calm := Account(sched.fibers, b), AllAwake(b);
      new;
      Start(0, start, DISCIPLINED);
      GoodMeans(n, start, start);
    }

    /** The locked scan of a lone worker takes the oldest entry. */
    method Take()
      requires Sound() && Balanced(0, 0) && Pc().Scan?
      modifies sched`fibers, sched`activeThreadCount, sched`threads
      ensures Sound() && sched.threads[t].idleTerm == old(sched.threads[t].idleTerm)
      ensures Pc() == (if old(sched.fibers) == [] then EmptyHand else InHand(old(sched.fibers)[0]))
      ensures old(sched.fibers) == [] ==> sched.fibers == [] && Balanced(0, 0)
      ensures old(sched.fibers) != [] ==> Scripted(Pc().e, b) && Balanced(Work(ScriptOf(Pc().e, b)), 1)
      ensures old(sched.fibers) != [] && calm ==> Awake(ScriptOf(Pc().e, b))
    {
      ghost var s, q := sched.Abs(), sched.fibers;
      TakeShape(n, start, s, t);
      Advance(n, start, s, ScanQueue(t));
      var _ := sched.TakeNext(t);
      SleepOn(s, sched.Abs(), b.asleep);
      if q != [] { TakeAccount(q, b); }
    }

    /** The fiber that runs next has no wake-up left; no other entry moves. */
    method Begin()
      requires Sound() && Pc().InHand?
      modifies sched`threads, sched`table, sched`nextId, sched`activeThreadCount, sched.table.Values
      ensures InTask() && sched.fibers == old(sched.fibers)
      ensures if Pc().viaCb then old(Pc().e).task.Call? && sched.table[Pc().f].cb == Some(old(Pc().e).task.cb)
              else old(Pc().e).task == Fib(Pc().f)
      ensures fresh(sched.table.Values - old(sched.table.Values))
    {
      ghost var s, id := sched.Abs(), sched.nextId;
      BeginShape(n, start, s, t, id);
      Advance(n, start, s, StartTask(t, id));
      sched.StartTask(t);
      SleepOn(s, sched.Abs(), b.asleep);
    }

    /** A running task calls schedule(). */
    method QueueTask(task: Task, thread: ThreadId)
      requires thread == ANY || thread == t
      requires Sound() && Pc().Running? && sched.threads[t].io.NoOp? && MayWake(sched.Abs(), task)
      requires task.Fib? ==> task.fiber !in b.asleep
      modifies sched`fibers
      ensures Sound() && sched.fibers == old(sched.fibers) + [Entry(task, thread)]
      ensures forall f :: HasWake(sched.Abs(), f) ==> HasWake(old(sched.Abs()), f) || task == Fib(f)
    {
      ghost var s := sched.Abs();
      Advance(n, start, s, Schedule(t, Entry(task, thread)));
      PushWakes(s, Entry(task, thread));
      var _ := sched.ScheduleNoLock(Some(task), thread);
    }

    /** A running task schedules a new callback. */
    method PerformSpawn(child: Script, here: bool, ghost rest: nat)
      requires InTask() && Balanced(1 + Work(child) + rest, 1) && (calm ==> Awake(child))
      modifies this`b, sched`fibers
      ensures InTask() && Balanced(rest, 1) && b == Spawned(old(b), child)
      ensures sched.fibers == old(sched.fibers) + [Entry(Call(old(b).nextCb), if here then t else ANY)]
      ensures Pc() == old(Pc())
    {
      var cb, thread := b.nextCb, if here then t else ANY;
      SpawnAccount(sched.fibers, b, child, thread);
      b := Spawned(b, child);
      QueueTask(Call(cb), thread);
    }

    /** A running task schedules a suspended fiber, if there are so many. */
    method PerformWake(i: nat, here: bool, ghost rest: nat)
      requires InTask() && Balanced(1 + rest, 1)
      modifies this`b, sched`fibers
      ensures InTask() && Balanced(rest, 1)
      ensures b == if i < |old(b).asleep| then Woken(old(b), i) else Idled(old(b))
      ensures sched.fibers == old(sched.fibers) +
        (if i < |old(b).asleep| then [Entry(Fib(old(b).asleep[i]), if here then t else ANY)] else [])
    {
      if i < |b.asleep| {
        WakeSleeper(i, if here then t else ANY, rest);
      } else {
        IdleAccount(sched.fibers, b);
        b := Idled(b);
      }
    }

    method WakeSleeper(i: nat, thread: ThreadId, ghost rest: nat)
      requires InTask() && Balanced(1 + rest, 1) && i < |b.asleep| && (thread == ANY || thread == t)
      modifies this`b, sched`fibers
      ensures InTask() && Balanced(rest, 1) && b == Woken(old(b), i)
      ensures sched.fibers == old(sched.fibers) + [Entry(Fib(old(b).asleep[i]), thread)]
    {
      var f := b.asleep[i];
      WakeAccount(sched.fibers, b, i, thread);
      RunningFacts(n, start, sched.Abs(), t, b.asleep);
      SleeperMayWake(sched.Abs(), b.asleep, i);
      b := Woken(b, i);
      QueueTask(Fib(f), thread);
    }

    method PerformCall(sc: Script)
      requires InTask() && Balanced(Work(sc), 1) && (calm ==> Awake(sc)) && (sc.Spawn? || sc.Wake?)
      modifies this`b, sched`fibers
      ensures InTask() && Balanced(Work(sc.rest), 1) && b.made >= old(b.made) && b.performed >= old(b.performed)
      ensures (calm ==> Awake(sc.rest)) && Leaves(sc.rest) == Leaves(sc) && Remaining(sc.rest) == Remaining(sc)
    {
      if sc.Spawn? {
        PerformSpawn(sc.child, sc.here, Work(sc.rest));
      } else {
        PerformWake(sc.i, sc.here, Work(sc.rest));
      }
    }

    /** The running fiber schedules others until its script says something else. */
    method PerformCalls(script: Script) returns (sc: Script)
      requires InTask() && Balanced(Work(script), 1) && (calm ==> Awake(script))
      modifies this`b, sched`fibers
      ensures InTask() && Balanced(Work(sc), 1) && (calm ==> Awake(sc)) && !sc.Spawn? && !sc.Wake?
      ensures Leaves(sc) == Leaves(script) && Remaining(sc) == Remaining(script)
      ensures b.made >= old(b.made) && b.performed >= old(b.performed)
    {
      sc := script;
      while sc.Spawn? || sc.Wake?
        invariant InTask() && Balanced(Work(sc), 1) && (calm ==> Awake(sc))
        invariant Leaves(sc) == Leaves(script) && Remaining(sc) == Remaining(script)
        invariant b.made >= old(b.made) && b.performed >= old(b.performed)
        decreases sc
      {
        PerformCall(sc);
        sc := sc.rest;
      }
    }

    /** The fiber leaves the thread. */
    method Depart(how: Types.Exit)
      requires Sound() && Pc().Running? && sched.threads[t].io.NoOp? && (how != ToHold ==> !HasWake(sched.Abs(), Pc().f))
      requires Pc().f in sched.table
      modifies sched`threads, sched.table[Pc().f]
      ensures Sound() && Pc() == Back(old(Pc()).f, old(Pc()).viaCb) && sched.threads[t].io.NoOp?
      ensures Pc().f in sched.table && sched.table[Pc().f].state == (match how case ToReady => READY case ToHold => HOLD case Finish => TERM case Throw => EXCEPT)
      ensures how == ToHold && !HasWake(old(sched.Abs()), old(Pc()).f) ==> Resting(sched.Abs(), Pc().f)
    {
      ghost var s := sched.Abs();
      ExitShape(n, start, s, t, how);
      Advance(n, start, s, Switch(t, how));
      sched.SwitchOut(t, how);
      SleepOn(s, sched.Abs(), b.asleep);
    }

    /** What the fiber that has left still brings to the queue: its rest, when it is READY. */
    ghost predicate Returning()
      reads this, sched, sched.table.Values
    {
      && Sound() && Pc().Back? && Pc().f in sched.table
      && if sched.table[Pc().f].state == READY then Pc().f in b.conts && Balanced(Work(b.conts[Pc().f]), 1) else Balanced(0, 0)
    }

    /** A normal return, or an exception. */
    method Finish(how: Types.Exit)
      requires InTask() && Balanced(1, 1) && (how == Types.Exit.Finish || how == Throw)
      modifies this`b, sched`threads, sched.table[Pc().f]
      ensures Returning() && b == Finished(old(b)) && sched.table[Pc().f].state == if how == Throw then EXCEPT else TERM
    {
      FinishAccount(sched.fibers, b);
      b := Finished(b);
      Depart(how);
    }

    /** yieldToReady. */
    method YieldReady(rest: Script)
      requires InTask() && Balanced(1 + Work(rest), 1) && (calm ==> Awake(rest))
      modifies this`b, sched`threads, sched.table[Pc().f]
      ensures Returning() && b == Kept(old(b), old(Pc()).f, rest) && sched.table[Pc().f].state == READY && Pc().f == old(Pc()).f
    {
      RunningFacts(n, start, sched.Abs(), t, b.asleep);
      KeepAccount(sched.fibers, b, Pc().f, rest);
      b := Kept(b, Pc().f, rest);
      Depart(ToReady);
    }

    /** yieldToHold with no wake-up. */
    method Suspend(rest: Script)
      requires InTask() && Balanced(1 + Work(rest), 1) && !calm
      modifies this`b, sched`threads, sched.table[Pc().f]
      ensures Returning() && b == Slept(old(b), old(Pc()).f, rest) && sched.table[Pc().f].state == HOLD && Pc().f == old(Pc()).f
    {
      var f := Pc().f;
      RunningFacts(n, start, sched.Abs(), t, b.asleep);
      SleepAccount(sched.fibers, b, f, rest);
      Depart(ToHold);
      b := Slept(b, f, rest);
    }

    /** schedule(self), then yieldToHold. */
    method SuspendQueued(rest: Script)
      requires InTask() && Balanced(1 + Work(rest), 1) && (calm ==> Awake(rest))
      modifies this`b, sched`fibers, sched`threads, sched.table[Pc().f]
      ensures Returning() && b == Kept(old(b), old(Pc()).f, rest) && sched.table[Pc().f].state == HOLD && Pc().f == old(Pc()).f
      ensures sched.fibers == old(sched.fibers) + [Entry(Fib(old(Pc()).f), ANY)]
    {
      var f := Pc().f;
      RunningFacts(n, start, sched.Abs(), t, b.asleep);
      KeepAccount(sched.fibers, b, f, rest);
      b := Kept(b, f, rest);
      RequeueAccount(sched.fibers, b, f);
      QueueTask(Fib(f), ANY);
      Depart(ToHold);
    }

    /** The running fiber carries out its script up to its next suspension or its end. */
    method Perform(script: Script)
      requires InTask() && Balanced(Work(script), 1) && (calm ==> Awake(script))
      modifies this`b, sched`fibers, sched`threads, sched.table[Pc().f]
      ensures Returning() && b.performed > old(b.performed) && b.made >= old(b.made)
      ensures sched.table[Pc().f].state == Leaves(script)
      ensures Remaining(script).Some? ==> Pc().f in b.conts && b.conts[Pc().f] == Remaining(script).value
    {
      var sc := PerformCalls(script);
      PerformLast(sc);
    }

    /** The action that makes the fiber leave its thread. */
    method PerformLast(sc: Script)
      requires InTask() && Balanced(Work(sc), 1) && (calm ==> Awake(sc)) && !sc.Spawn? && !sc.Wake?
      modifies this`b, sched`fibers, sched`threads, sched.table[Pc().f]
      ensures Returning() && b.performed > old(b.performed) && b.made >= old(b.made)
      ensures sched.table[Pc().f].state == Leaves(sc)
      ensures Remaining(sc).Some? ==> Pc().f in b.conts && b.conts[Pc().f] == Remaining(sc).value
    {
      match sc
      case Return => Finish(Types.Exit.Finish);
      case Raise => Finish(Throw);
      case Yield(rest) => YieldReady(rest);
      case Suspend(rest) => Suspend(rest);
      case WakeSelf(rest) => SuspendQueued(rest);
    }

    method UncountAndSettle()
      requires sched.Valid() && t in sched.threads && Pc().Back? && Pc().f in sched.table
      modifies sched`fibers, sched`threads, sched`activeThreadCount, sched.table[Pc().f]
      ensures sched.Valid()
      ensures
        var s, pc := old(sched.Abs()), old(Pc());
        sched.Abs() == DoSettle(SetPc(s, t, Counted(pc.f, pc.viaCb)).(active := s.active - 1), t)
    {
      sched.DecrementActive(t);
      sched.Settle(t);
    }

    /** The worker uncounts the task and settles the fiber. */
    method SettleTask()
      requires Sound() && Pc().Back? && Pc().f in sched.table
      modifies sched`fibers, sched`threads, sched`activeThreadCount, sched.table[Pc().f]
      ensures Sound() && Pc().Scan? && sched.threads[t].idleTerm == old(sched.threads[t].idleTerm)
      ensures sched.fibers == old(sched.fibers) +
        (if old(sched.table[Pc().f].state) == READY then [Entry(Fib(old(Pc()).f), ANY)] else [])
    {
      ghost var s := sched.Abs();
      EndShape(n, start, s, t);
      UncountAndSettle();
      SleepOn(s, sched.Abs(), b.asleep);
    }

    method EndTurn()
      requires Returning()
      modifies sched`fibers, sched`threads, sched`activeThreadCount, sched.table[Pc().f]
      ensures Sound() && Balanced(0, 0) && Pc().Scan? && sched.threads[t].idleTerm == old(sched.threads[t].idleTerm)
    {
      if sched.table[Pc().f].state == READY {
        RequeueAccount(sched.fibers, b, Pc().f);
      } else {
        assert sched.fibers + [] == sched.fibers;
      }
      SettleTask();
    }

    /** What the running fiber has to do, found from its callback or from what it had left. */
    method RunningScript(ghost e: Entry) returns (sc: Script)
      requires t in sched.threads && Pc().Running? && Pc().f in sched.table && Scripted(e, b)
      requires if Pc().viaCb then e.task.Call? && sched.table[Pc().f].cb == Some(e.task.cb) else e.task == Fib(Pc().f)
      ensures sc == ScriptOf(e, b)
    {
      if Pc().viaCb {
        sc := b.scripts[sched.table[Pc().f].cb.value];
      } else {
        sc := b.conts[Pc().f];
      }
    }

    method BeginTask() returns (script: Script)
      requires Sound() && Pc().InHand? && Scripted(Pc().e, b)
      requires Balanced(Work(ScriptOf(Pc().e, b)), 1) && (calm ==> Awake(ScriptOf(Pc().e, b)))
      modifies sched`threads, sched`table, sched`nextId, sched`activeThreadCount, sched.table.Values
      ensures script == ScriptOf(old(Pc().e), b) && InTask() && Balanced(Work(script), 1) && (calm ==> Awake(script))
      ensures fresh(sched.table.Values - old(sched.table.Values))
    {
      ghost var e := Pc().e;
      Begin();
      script := RunningScript(e);
    }

    /** One dequeued task, from its start to the next loop head. */
    method Turn()
      requires Sound() && Pc().InHand? && Scripted(Pc().e, b)
      requires Balanced(Work(ScriptOf(Pc().e, b)), 1) && (calm ==> Awake(ScriptOf(Pc().e, b)))
      modifies this`b, sched, sched.table.Values
      ensures Sound() && Balanced(0, 0) && Pc().Scan? && fresh(sched.table.Values - old(sched.table.Values))
      ensures b.performed > old(b.performed) && b.made >= old(b.made)
    {
      var script := BeginTask();
      Perform(script);
      EndTurn();
    }

    /** Nothing was queued: the idle fiber finds the scheduler stopped and ends, or has ended already and `run` is left. */
    method IdleRound()
      requires Sound() && Balanced(0, 0) && Pc().EmptyHand? && sched.fibers == []
      modifies sched`threads, sched`idleThreadCount
      ensures Sound() && Balanced(0, 0) && sched.fibers == []
      ensures if old(sched.threads[t].idleTerm) then Pc().Exited? else Pc().Scan? && sched.threads[t].idleTerm
    {
      ghost var s := sched.Abs();
      IdleRoundShape(n, start, s, t);
      sched.LeaveOrIdle(t);
      if Pc().Idle? {
        sched.CheckQueue(t);
        sched.CheckPending(t);
      }
      SleepOn(s, sched.Abs(), b.asleep);
    }

    /**
     `Scheduler::run` on the caller's thread (142-248): it ends, with the queue empty, after a disciplined run.  Every task
     made has ended or is suspended with nobody to wake it, and all work but that of the suspended ones is performed; no task
     stays suspended when none suspends without a wake-up.
     */
    method Run()
      requires Sound() && Balanced(0, 0) && Pc().Scan?
      modifies this`b, sched, sched.table.Values
      ensures Sound() && Pc().Exited? && sched.fibers == [] && sched.activeThreadCount == 0
      ensures Reachable(start, sched.Abs(), DISCIPLINED)
      ensures b.ended + |b.asleep| == b.made >= old(b.made) && Known(b.asleep, b.conts) && Sleeping(sched.Abs(), b.asleep)
      ensures b.performed + SleepWork(b.asleep, b.conts) == given
      ensures calm ==> b.asleep == []
    {
      while true
        invariant Sound() && Balanced(0, 0) && Pc().Scan? && b.made >= old(b.made)
        invariant fresh(sched.table.Values - old(sched.table.Values))
        decreases given - b.performed, if sched.threads[t].idleTerm then 0 else 1
      {
        Take();
        if Pc().InHand? {
          Turn();
        } else {
          IdleRound();
          if Pc().Exited? {
            break;
          }
        }
      }
      LeftShape(n, start, sched.Abs(), t);
    }
  }

  // ---- what the steps of a lone worker do ---------------------------------------------------------------------

  /** The running fiber is neither queued nor asleep, and may be woken. */
  lemma RunningFacts(n: nat, s0: State, s: State, t: ThreadId, asleep: seq<FiberId>)
    requires Good(n, s0, s) && t in s.workers && s.workers[t].pc.Running? && !HasWake(s, s.workers[t].pc.f)
    requires Sleeping(s, asleep)
    ensures
      var f := s.workers[t].pc.f;
      && f !in asleep && MayWake(s, Fib(f)) && forall e | e in s.queue :: e.task != Fib(f)
  {
    GoodMeans(n, s0, s);
    assert WorkerOk(s, s.workers[t]);
    assert !InQueue(s, s.workers[t].pc.f);
  }

  lemma SleeperMayWake(s: State, asleep: seq<FiberId>, i: nat)
    requires Sleeping(s, asleep) && i < |asleep|
    ensures MayWake(s, Fib(asleep[i]))
    ensures
      var rest := asleep[..i] + asleep[i + 1..];
      Sleeping(s, rest) && asleep[i] !in rest
  {
    assert asleep[i] in asleep;
    var rest := asleep[..i] + asleep[i + 1..];
    forall k | 0 <= k < |rest|
      ensures rest[k] == asleep[if k < i then k else k + 1]
    {
    }
  }

  /** What leaving the thread does. */
  lemma ExitShape(n: nat, s0: State, s: State, t: ThreadId, how: Types.Exit)
    requires Good(n, s0, s) && Alone(s, t) && s.workers[t].pc.Running? && s.workers[t].io.NoOp?
    ensures Undisturbed(s, DoSwitch(s, t, how))
    ensures how == ToHold && !HasWake(s, s.workers[t].pc.f) ==> Resting(DoSwitch(s, t, how), s.workers[t].pc.f)
  {
    GoodMeans(n, s0, s);
    assert WorkerOk(s, s.workers[t]);
    var s', g := DoSwitch(s, t, how), s.workers[t].pc.f;
    forall f | f != g || how == ToHold
      ensures HasWake(s', f) ==> HasWake(s, f)
    {
      FewerWakes(s, s', t, f);
    }
  }

  /** With the queue and the registrations as they were, only what the worker carries can be a new wake-up. */
  lemma FewerWakes(s: State, s': State, t: ThreadId, f: FiberId)
    requires Alone(s, t) && s'.workers.Keys == s.workers.Keys && s'.regs == s.regs
    requires forall e | e in s'.queue :: e in s.queue
    requires Carries(s'.fibers, s'.workers[t], f) ==> HasWake(s, f)
    ensures HasWake(s', f) ==> HasWake(s, f)
  {
    if InQueue(s', f) {
      assert InQueue(s, f);
    }
  }

  /** What decrementing and settling do when the worker is alone. */
  lemma EndShape(n: nat, s0: State, s: State, t: ThreadId)
    requires Good(n, s0, s) && Alone(s, t) && Local(s.queue, t) && s.workers[t].pc.Back?
    ensures
      var Back(f, v) := s.workers[t].pc;
      var s1 := SetPc(s, t, Counted(f, v)).(active := s.active - 1);
      var s2 := DoSettle(s1, t);
      && f in s.fibers && Good(n, s0, s2) && Alone(s2, t) && Local(s2.queue, t)
      && s2.workers[t].pc.Scan? && s2.workers[t].idleTerm == s.workers[t].idleTerm
      && s2.queue == s.queue + (if s.fibers[f].state == READY then [Entry(Fib(f), ANY)] else [])
      && Undisturbed(s, s2)
  {
    var Back(f, v) := s.workers[t].pc;
    var s1 := SetPc(s, t, Counted(f, v)).(active := s.active - 1);
    GoodMeans(n, s0, s);
    assert WorkerOk(s, s.workers[t]);
    Advance(n, s0, s, Decrement(t));
    Advance(n, s0, s1, Settle(t));
    SettleUndisturbed(s, s1, t);
  }

  lemma SettleUndisturbed(s: State, s1: State, t: ThreadId)
    requires Alone(s, t) && s.workers[t].pc.Back? && WorkerOk(s, s.workers[t])
    requires s1 == SetPc(s, t, Counted(s.workers[t].pc.f, s.workers[t].pc.viaCb)).(active := s.active - 1)
    ensures Undisturbed(s, DoSettle(s1, t))
  {
    var s2, g := DoSettle(s1, t), s.workers[t].pc.f;
    assert forall e | e in s2.queue :: e in s.queue || (e.task == Fib(g) && StateOf(s.fibers, g) == READY);
    forall f | Resting(s, f)
      ensures Resting(s2, f)
    {
      assert InQueue(s2, f) ==> InQueue(s, f);
    }
  }

  /** With nothing queued and stop requested, the lone worker's idle fiber ends in its first round. */
  lemma IdleRoundShape(n: nat, s0: State, s: State, t: ThreadId)
    requires Good(n, s0, s) && Alone(s, t) && s.workers[t].pc.EmptyHand? && s.queue == []
    ensures
      var s1 := DoLeave(s, t);
      var s2 := SetPc(s1, t, IdleMid);
      if s.workers[t].idleTerm then Good(n, s0, s1)
      else QueueStopped(s1) && Good(n, s0, DoPendingCheck(s2, t))
    ensures Undisturbed(s, DoLeave(s, t))
    ensures Undisturbed(s, DoPendingCheck(SetPc(DoLeave(s, t), t, IdleMid), t))
  {
    GoodMeans(n, s0, s);
    assert WorkerOk(s, s.workers[t]);
    assert BusyThreads(s.workers) == {};
    IdleUndisturbed(s, DoLeave(s, t), t);
    IdleUndisturbed(s, DoPendingCheck(SetPc(DoLeave(s, t), t, IdleMid), t), t);
    Advance(n, s0, s, Leave(t));
    if !s.workers[t].idleTerm {
      var s1 := DoLeave(s, t);
      Advance(n, s0, s1, IdleCheck(t));
      Advance(n, s0, SetPc(s1, t, IdleMid), PendingCheck(t));
    }
  }

  lemma IdleUndisturbed(s: State, s': State, t: ThreadId)
    requires Alone(s, t) && s'.workers.Keys == s.workers.Keys && s'.fibers == s.fibers && s'.regs == s.regs && s'.queue == s.queue
    requires s'.workers[t].io == s.workers[t].io && (s'.workers[t].pc.Exited? || s'.workers[t].pc.Idle? || s'.workers[t].pc.Scan? || s'.workers[t].pc.Waiting?)
    ensures Undisturbed(s, s')
  {
    forall f | Resting(s, f)
      ensures Resting(s', f)
    {
      assert Carries(s'.fibers, s'.workers[t], f) ==> Carries(s.fibers, s.workers[t], f);
      FewerWakes(s, s', t, f);
    }
  }

  lemma LeftShape(n: nat, s0: State, s: State, t: ThreadId)
    requires Good(n, s0, s) && Alone(s, t) && s.workers[t].pc.Exited?
    ensures Reachable(s0, s, DISCIPLINED) && s.active == 0 && s.workers[t].idleTerm
  {
    GoodMeans(n, s0, s);
    assert WorkerOk(s, s.workers[t]);
    assert BusyThreads(s.workers) == {};
  }

  /** What a scan does when the worker is alone. */
  lemma TakeShape(n: nat, s0: State, s: State, t: ThreadId)
    requires Good(n, s0, s) && Alone(s, t) && Local(s.queue, t) && s.workers[t].pc.Scan?
    ensures s.workers[t].io.NoOp? && !s.aborted && Handover(s, ScanQueue(t))
    ensures forall e | e in s.queue && e.task.Fib? :: e.task.fiber in s.fibers
    ensures
      var s' := DoScan(s, t);
      && s'.workers[t] == s.workers[t].(pc := if s.queue == [] then EmptyHand else InHand(s.queue[0]))
      && s'.queue == (if s.queue == [] then [] else s.queue[1..]) && Alone(s', t) && Local(s'.queue, t)
      && Undisturbed(s, s')
  {
    GoodMeans(n, s0, s);
    assert WorkerOk(s, s.workers[t]);
    TakesFirst(s, t);
    assert s.queue != [] ==> RemoveAt(s.queue, 0) == s.queue[1..];
    TakeUndisturbed(s, t);
  }

  lemma TakeUndisturbed(s: State, t: ThreadId)
    requires Alone(s, t) && s.workers[t].pc.Scan? && FirstEligible(s.queue, s.fibers, t, 0) == 0
    ensures Undisturbed(s, DoScan(s, t))
  {
    var s' := DoScan(s, t);
    assert s.queue != [] ==> RemoveAt(s.queue, 0) == s.queue[1..] && s.queue[0] in s.queue;
    forall f | Resting(s, f)
      ensures Resting(s', f)
    {
      assert Carries(s'.fibers, s'.workers[t], f) ==> HasWake(s, f);
      FewerWakes(s, s', t, f);
    }
  }

  /** What starting a task does when the worker is alone. */
  lemma BeginShape(n: nat, s0: State, s: State, t: ThreadId, id: FiberId)
    requires Good(n, s0, s) && Alone(s, t) && s.workers[t].pc.InHand? && id !in s.fibers
    ensures s.workers[t].io.NoOp? && !s.aborted
    ensures s.workers[t].pc.e.task.Fib? ==>
      s.workers[t].pc.e.task.fiber in s.fibers && s.fibers[s.workers[t].pc.e.task.fiber].state != EXEC
    ensures s.workers[t].reuse.Some? ==>
      s.workers[t].reuse.value in s.fibers && s.fibers[s.workers[t].reuse.value].state in {TERM, EXCEPT, INIT}
    ensures
      var s' := DoStart(s, t, id);
      && s'.workers[t].pc.Running? && s'.queue == s.queue && Alone(s', t) && !s'.aborted && s'.workers[t].io.NoOp?
      && s'.workers[t].pc.f in s'.fibers && !HasWake(s', s'.workers[t].pc.f)
      && Undisturbed(s, s')
      && (if s'.workers[t].pc.viaCb then
            s.workers[t].pc.e.task.Call? && s'.fibers[s'.workers[t].pc.f] == FiberRec(EXEC, Some(s.workers[t].pc.e.task.cb))
          else s.workers[t].pc.e.task == Fib(s'.workers[t].pc.f))
  {
    GoodMeans(n, s0, s);
    assert WorkerOk(s, s.workers[t]);
    StartKeeps(s, t, id);
    match s.workers[t].pc.e.task
    case Call(cb) => CallbackFiberIsAlone(s, t, id);
    case Fib(f) => InHandIsAlone(s, t, f);
    BeginUndisturbed(s, t, id);
  }

  lemma BeginUndisturbed(s: State, t: ThreadId, id: FiberId)
    requires Alone(s, t) && s.workers[t].pc.InHand? && s.workers[t].io.NoOp? && WorkerOk(s, s.workers[t]) && id !in s.fibers
    requires DoStart(s, t, id).workers[t].pc.Running? && DoStart(s, t, id).workers[t].io.NoOp?
    ensures Undisturbed(s, DoStart(s, t, id))
  {
    var s' := DoStart(s, t, id);
    assert s.workers[t].pc.e.task.Fib? ==> Carries(s.fibers, s.workers[t], s.workers[t].pc.e.task.fiber);
    forall f | Resting(s, f)
      ensures Resting(s', f)
    {
      FewerWakes(s, s', t, f);
    }
  }

  // ---- stop() -------------------------------------------------------------------------------------------

  /** The books of a scheduler that has been given tasks and has run none. */
  function Filling(tasks: seq<Script>): Books {
    Books(map cb | 0 <= cb < |tasks| :: tasks[cb], map[], [], |tasks|, |tasks|, 0, 0)
  }

  /** Its queue. */
  function Filled(tasks: seq<Script>): (q: seq<Entry>)
    ensures |q| == |tasks| && forall i | 0 <= i < |q| :: q[i] == Entry(Call(i), ANY)
  {
    seq(|tasks|, i => Entry(Call(i), ANY))
  }

  lemma FilledCovered(tasks: seq<Script>)
    ensures Covered(Filled(tasks), Filling(tasks)) && Open(Filled(tasks), Filling(tasks)) == 0
    ensures (forall sc | sc in tasks :: Awake(sc)) ==> AllAwake(Filling(tasks))
  {
  }

  lemma FilledSame(tasks: seq<Script>)
    requires tasks != []
    ensures
      var less := tasks[..|tasks| - 1];
      && Filled(tasks) == Filled(less) + [Entry(Call(|less|), ANY)]
      && (forall e | e in Filled(less) :: Scripted(e, Filling(less)) && Scripted(e, Filling(tasks)))
      && QueueWork(Filled(less), Filling(less)) == QueueWork(Filled(less), Filling(tasks))
  {
    var less := tasks[..|tasks| - 1];
    FilledCovered(less);
    QueueWorkSame(Filled(less), Filling(less), Filling(tasks));
  }

  lemma {:induction false} FilledAccount(tasks: seq<Script>)
    ensures Covered(Filled(tasks), Filling(tasks)) && Account(Filled(tasks), Filling(tasks)) == TasksWork(tasks)
    decreases |tasks|
  {
    FilledCovered(tasks);
    if tasks != [] {
      var less, last := tasks[..|tasks| - 1], |tasks| - 1;
      FilledCovered(less);
      FilledAccount(less);
      FilledSame(tasks);
      QueueWorkPush(Filled(less), Entry(Call(last), ANY), Filling(tasks));
    }
  }

  /** A scheduler of one thread, not yet stopped. */
  predicate Unstopped(s: State, t: ThreadId) {
    s.workers == map[t := Worker(Scan, None, false, NoOp)] && s.regs == map[] && s.pending == 0 && !s.autoStop
  }

  lemma GivenOne(s: State, t: ThreadId, cb: Callback)
    requires Inv(s) && Unstopped(s, t)
    ensures Inv(Push(s, Entry(Call(cb), ANY))) && Unstopped(Push(s, Entry(Call(cb), ANY)), t)
  {
    InvKeeps(s, External(Entry(Call(cb), ANY)));
  }

  lemma FilledOneMore(tasks: seq<Script>, i: nat)
    requires i < |tasks|
    ensures Filled(tasks[..i + 1]) == Filled(tasks[..i]) + [Entry(Call(i), ANY)]
  {
  }

  method QueueTasks(t: ThreadId, tasks: seq<Script>) returns (sched: Scheduler)
    requires t != ANY
    ensures fresh(sched) && sched.Valid() && sched.table == map[]
    ensures Inv(sched.Abs()) && Unstopped(sched.Abs(), t) && sched.fibers == Filled(tasks)
  {
    sched := new Scheduler({t});
    assert t in sched.threads;
    InitialInv(sched.Abs());
    var i := 0;
    while i < |tasks|
      invariant 0 <= i <= |tasks| && sched.Valid() && sched.table == map[] && fresh(sched)
      invariant Inv(sched.Abs()) && Unstopped(sched.Abs(), t) && sched.fibers == Filled(tasks[..i])
    {
      GivenOne(sched.Abs(), t, i);
      FilledOneMore(tasks, i);
      var _ := sched.ScheduleNoLock(Some(Call(i)), ANY);
      i := i + 1;
    }
    assert tasks[..i] == tasks;
  }

  /**
   A scheduler without threads of its own is given tasks and stopped: `stop` runs them (84-124).  Every task, given or made
   by another, has then ended or is suspended with nobody to wake it, and all their work but what those have left is performed;
   all have ended when none suspends without a wake-up.
   */
  method StopWithTasks(t: ThreadId, tasks: seq<Script>) returns (c: Caller)
    requires t != ANY
    ensures c.t == t && t in c.sched.threads && c.Pc().Exited? && c.sched.fibers == [] && c.sched.activeThreadCount == 0
    ensures c.b.ended + |c.b.asleep| == c.b.made >= |tasks|
    ensures Known(c.b.asleep, c.b.conts) && Sleeping(c.sched.Abs(), c.b.asleep)
    ensures c.b.performed + SleepWork(c.b.asleep, c.b.conts) == TasksWork(tasks)
    ensures (forall sc | sc in tasks :: Awake(sc)) ==> c.b.ended == c.b.made && c.b.performed == TasksWork(tasks)
  {
    var sched := QueueTasks(t, tasks);
    InvKeeps(sched.Abs(), Protocol.RequestStop);
    sched.RequestStop();
    FilledCovered(tasks);
    FilledAccount(tasks);
    c := new Caller(sched, t, Filling(tasks));
    c.Run();
  }
}
