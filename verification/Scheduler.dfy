/** `Fiber` and `Scheduler` as the source has them: objects updated in place, proved to take the steps of `Protocol`. */
module SchedulerModel {
  import opened Types
  import opened Protocol

  /** A fiber object (fiber.hpp:13-96).  The saved context and the stack are not part of this model. */
  class Fiber {
    var state: FiberState
    var cb: Option<Callback>

    function Value(): FiberRec
      reads this
    {
      FiberRec(state, cb)
    }

    /** Sub-fiber constructor (58-80). */
    constructor (f: Callback)
      ensures Value() == FiberRec(INIT, Some(f))
    {
      state, cb := INIT, Some(f);
    }

    /** Give a finished fiber a new callback; the source asserts that it is not alive (106-124). */
    method Reset(f: Option<Callback>)
      requires state in {TERM, EXCEPT, INIT}
      modifies this
      ensures Value() == FiberRec(INIT, f)
    {
      cb := f;
      state := INIT;
    }

    /** The source asserts that the fiber is not in execution (143-151). */
    method SwapIn()
      requires state != EXEC
      modifies this
      ensures Value() == old(Value()).(state := EXEC)
    {
      state := EXEC;
    }

    /** yieldToReady, yieldToHold and the two ends of mainFunc (180-221). */
    method SwapOut(how: Exit)
      modifies this
      ensures Value() == Leaving(old(Value()), how)
    {
      match how
      case ToReady => state := READY;
      case ToHold => state := HOLD;
      case Finish =>
        cb := None;
        state := TERM;
      case Throw => state := EXCEPT;
    }

    /** Lines 202 and 224 of scheduler.cpp: whatever the fiber left behind becomes HOLD. */
    method Park()
      modifies this
      ensures Value() == old(Value()).(state := HOLD)
    {
      state := HOLD;
    }
  }

  /** `DoCallback` when `reset` does not fail. */
  lemma CallbackShape(s: State, t: ThreadId, cb: Callback, newId: FiberId)
    requires t in s.workers
    requires s.workers[t].reuse.Some? ==> StateOf(s.fibers, s.workers[t].reuse.value) in {TERM, EXCEPT, INIT}
    ensures
      var g := s.workers[t].reuse.GetOr(newId);
      DoCallback(s, t, cb, newId) ==
        s.(fibers := s.fibers[g := FiberRec(EXEC, Some(cb))],
           workers := s.workers[t := s.workers[t].(pc := Running(g, true), reuse := Some(g))])
  {
  }

  class Scheduler {
    var fibers: seq<Entry>                  // m_fibers
    var activeThreadCount: int
    var idleThreadCount: int
    var pendingEventCount: int
    var autoStop: bool
    var isRunning: bool
    var table: map<FiberId, Fiber>          // the fiber objects that shared_ptrs keep alive
    var nextId: FiberId                     // s_fiber_id
    var threads: map<ThreadId, Worker>      // the locals of `run` on each thread
    var regs: map<Key, Task>

    function Records(): (r: map<FiberId, FiberRec>)
      reads this, table.Values
      ensures r.Keys == table.Keys && forall f | f in table :: r[f] == table[f].Value()
    {
      map f | f in table :: table[f].Value()
    }

    /** The protocol state this object stands for. */
    function Abs(): State
      reads this, table.Values
    {
      State(fibers, activeThreadCount, idleThreadCount, autoStop, isRunning, pendingEventCount,
        Records(), threads, regs, false)
    }

    /** Ids name distinct objects and the next id is unused. */
    predicate Valid()
      reads this
    {
      && (forall f, g | f in table && g in table && f != g :: table[f] != table[g])
      && (forall f | f in table :: f < nextId)
    }

    /** A started scheduler whose workers are at their loop heads. */
    constructor (ts: set<ThreadId>)
      requires ts != {} && ANY !in ts
      ensures Valid() && fresh(this) && table == map[]
      ensures Abs() == State([], 0, 0, false, true, 0, map[], map t | t in ts :: Worker(Scan, None, false, NoOp), map[], false)
    {
      fibers, activeThreadCount, idleThreadCount, pendingEventCount := [], 0, 0, 0;
      autoStop, isRunning := false, true;
      table, nextId, regs := map[], 0, map[];
      threads := map t | t in ts :: Worker(Scan, None, false, NoOp);
    }

    /** scheduleNoLock (scheduler.hpp:91-99): an empty payload is not queued; the result says whether to notify. */
    method ScheduleNoLock(task: Option<Task>, thread: ThreadId) returns (needNotify: bool)
      requires Valid()
      modifies this`fibers
      ensures Valid() && table == old(table)
      ensures Abs() == if task.Some? then Push(old(Abs()), Entry(task.value, thread)) else old(Abs())
      ensures needNotify <==> old(fibers) == []
    {
      needNotify := fibers == [];
      if task.Some? {
        fibers := fibers + [Entry(task.value, thread)];
      }
    }

    method RequestStop()
      requires Valid()
      modifies this`autoStop, this`isRunning
      ensures Valid() && Abs() == old(Abs()).(autoStop := true, isRunning := false)
    {
      autoStop := true;
      isRunning := false;
    }

    predicate KnowsQueue()
      reads this
    {
      forall e | e in fibers && e.task.Fib? :: e.task.fiber in table
    }

    /** The search of the locked scan (163-178): skip entries pinned elsewhere and fibers in execution. */
    method FindNext(t: ThreadId) returns (it: nat, notifyMe: bool)
      requires Valid() && KnowsQueue()
      ensures it == FirstEligible(fibers, Abs().fibers, t, 0)
      ensures notifyMe <==> exists i :: 0 <= i < it && fibers[i].thread != ANY && fibers[i].thread != t
    {
      notifyMe := false;
      it := 0;
      ghost var recs := Abs().fibers;
      while it < |fibers|
        invariant it <= |fibers|
        invariant FirstEligible(fibers, recs, t, 0) == FirstEligible(fibers, recs, t, it)
        invariant notifyMe <==> exists i :: 0 <= i < it && fibers[i].thread != ANY && fibers[i].thread != t
        decreases |fibers| - it
      {
        var e := fibers[it];
        if e.thread != ANY && e.thread != t {
          it := it + 1;
          notifyMe := true;
        } else if e.task.Fib? && table[e.task.fiber].state == EXEC {
          it := it + 1;
        } else {
          break;
        }
      }
    }

    /** Dequeue entry it and count it active (180-184). */
    method Dequeue(t: ThreadId, it: nat)
      requires Valid() && t in threads && it < |fibers|
      modifies this`fibers, this`activeThreadCount, this`threads
      ensures Valid() && Abs() == Take(old(Abs()), t, it)
    {
      threads := threads[t := threads[t].(pc := InHand(fibers[it]))];
      fibers := fibers[..it] + fibers[it + 1..];
      activeThreadCount := activeThreadCount + 1;
    }

    /** The locked scan (160-186). */
    method TakeNext(t: ThreadId) returns (notifyMe: bool)
      requires Valid() && KnowsQueue() && t in threads && threads[t].pc.Scan?
      modifies this`fibers, this`activeThreadCount, this`threads
      ensures Valid() && Abs() == DoScan(old(Abs()), t)
    {
      var it;
      it, notifyMe := FindNext(t);
      if it < |fibers| {
        Dequeue(t, it);
      } else {
        threads := threads[t := threads[t].(pc := EmptyHand)];
      }
    }

    /** swapIn (195, 215); only this fiber's record changes. */
    method Enter(f: FiberId)
      requires Valid() && f in table && table[f].state != EXEC
      modifies table[f]
      ensures Abs() == old(Abs()).(fibers := old(Records())[f := old(table[f].Value()).(state := EXEC)])
    {
      table[f].SwapIn();
      assert forall g | g in table && g != f :: table[g].Value() == old(table[g].Value());
    }

    /** Resume a dequeued fiber (195). */
    method ResumeFiber(t: ThreadId, f: FiberId)
      requires Valid() && t in threads && f in table && table[f].state != EXEC
      modifies this`threads, table[f]
      ensures Valid() && Abs() == DoSwapIn(old(Abs()), t, f)
    {
      Enter(f);
      threads := threads[t := threads[t].(pc := Running(f, false))];
    }

    /** The fiber a callback runs on: the reusable one, reset for it, or a new one (208-213). */
    method CallbackFiber(t: ThreadId, cb: Callback) returns (g: FiberId)
      requires Valid() && t in threads
      requires threads[t].reuse.Some? ==> threads[t].reuse.value in table && table[threads[t].reuse.value].state in {TERM, EXCEPT, INIT}
      modifies this`table, this`nextId, table.Values
      ensures Valid() && g == threads[t].reuse.GetOr(old(nextId)) && g in table
      ensures Records() == old(Records())[g := FiberRec(INIT, Some(cb))] && Abs() == old(Abs()).(fibers := Records())
      ensures fresh(table.Values - old(table.Values))
    {
      if threads[t].reuse.Some? {
        g := threads[t].reuse.value;
        table[g].Reset(Some(cb));
      } else {
        g := nextId;
        var fiber := new Fiber(cb);
        table := table[g := fiber];
        nextId := nextId + 1;
      }
      assert forall h | h in old(table) && h != g :: table[h].Value() == old(table[h].Value());
    }

    /** Set up the callback fiber and switch to it. */
    method EnterCallback(t: ThreadId, cb: Callback) returns (g: FiberId)
      requires Valid() && t in threads
      requires threads[t].reuse.Some? ==> threads[t].reuse.value in table && table[threads[t].reuse.value].state in {TERM, EXCEPT, INIT}
      modifies this`table, this`nextId, table.Values
      ensures Valid() && g == threads[t].reuse.GetOr(old(nextId))
      ensures Abs() == old(Abs()).(fibers := old(Records())[g := FiberRec(EXEC, Some(cb))])
      ensures fresh(table.Values - old(table.Values))
    {
      g := CallbackFiber(t, cb);
      assert Records()[g] == table[g].Value();
      Enter(g);
    }

    method SetThread(t: ThreadId, w: Worker)
      requires Valid()
      modifies this`threads
      ensures Valid() && Abs() == old(Abs()).(workers := old(threads)[t := w]) && table == old(table)
    {
      threads := threads[t := w];
    }

    /** Run a callback (206-215). */
    method RunCallback(t: ThreadId, cb: Callback)
      requires Valid() && t in threads
      requires threads[t].reuse.Some? ==> threads[t].reuse.value in table && table[threads[t].reuse.value].state in {TERM, EXCEPT, INIT}
      modifies this`threads, this`table, this`nextId, table.Values
      ensures Valid() && Abs() == DoCallback(old(Abs()), t, cb, old(nextId))
      ensures fresh(table.Values - old(table.Values))
    {
      ghost var s, id := Abs(), nextId;
      var g := EnterCallback(t, cb);
      SetThread(t, threads[t].(pc := Running(g, true), reuse := Some(g)));
      CallbackShape(s, t, cb, id);
    }

    /** A finished fiber is dropped (227-231). */
    method DropTask(t: ThreadId)
      requires Valid() && t in threads
      modifies this`threads, this`activeThreadCount
      ensures Valid() && Abs() == SetPc(old(Abs()), t, Scan).(active := old(activeThreadCount) - 1)
    {
      activeThreadCount := activeThreadCount - 1;
      threads := threads[t := threads[t].(pc := Scan)];
    }

    /** What a worker does with what it took from the queue (192-195, 206-215, 227-231). */
    method StartTask(t: ThreadId)
      requires Valid() && t in threads && threads[t].pc.InHand?
      requires threads[t].pc.e.task.Fib? ==> threads[t].pc.e.task.fiber in table && table[threads[t].pc.e.task.fiber].state != EXEC
      requires threads[t].reuse.Some? ==> threads[t].reuse.value in table && table[threads[t].reuse.value].state in {TERM, EXCEPT, INIT}
      modifies this`threads, this`table, this`nextId, this`activeThreadCount, table.Values
      ensures Valid() && Abs() == DoStart(old(Abs()), t, old(nextId))
      ensures fresh(table.Values - old(table.Values))
    {
      match threads[t].pc.e.task
      case Call(cb) => RunCallback(t, cb);
      case Fib(f) =>
        if table[f].state != TERM && table[f].state != EXCEPT {
          ResumeFiber(t, f);
        } else {
          DropTask(t);
        }
    }

    /** The running fiber gives up thread t. */
    method SwitchOut(t: ThreadId, how: Exit)
      requires Valid() && t in threads && threads[t].pc.Running? && threads[t].pc.f in table
      modifies this`threads, table[threads[t].pc.f]
      ensures Valid() && Abs() == DoSwitch(old(Abs()), t, how)
    {
      var f := threads[t].pc.f;
      table[f].SwapOut(how);
      threads := threads[t := threads[t].(pc := Back(f, threads[t].pc.viaCb))];
      assert forall g | g in table && g != f :: table[g].Value() == old(table[g].Value());
      assert Records() == old(Records())[f := table[f].Value()];
    }

    /** --m_activeThreadCount (196, 216). */
    method DecrementActive(t: ThreadId)
      requires Valid() && t in threads && threads[t].pc.Back?
      modifies this`threads, this`activeThreadCount
      ensures Valid()
      ensures Abs() == SetPc(old(Abs()), t, Counted(old(threads[t].pc.f), old(threads[t].pc.viaCb))).(active := old(activeThreadCount) - 1)
    {
      activeThreadCount := activeThreadCount - 1;
      threads := threads[t := threads[t].(pc := Counted(threads[t].pc.f, threads[t].pc.viaCb))];
    }

    /** READY (198-199, 217-219). */
    method RequeueFiber(t: ThreadId, f: FiberId, viaCb: bool)
      requires Valid() && t in threads
      modifies this`threads, this`fibers
      ensures Valid() && Abs() == Requeue(old(Abs()), t, f, viaCb)
    {
      var _ := ScheduleNoLock(Some(Fib(f)), ANY);
      threads := threads[t := ToLoop(threads[t], viaCb)];
    }

    /** TERM or EXCEPT (220-222). */
    method RetireFiber(t: ThreadId, f: FiberId, viaCb: bool)
      requires Valid() && t in threads && f in table && Done(table[f].state)
      modifies this`threads, table[f]
      ensures Valid() && Abs() == Retire(old(Abs()), t, f, viaCb)
    {
      if viaCb {
        table[f].Reset(None);
      }
      threads := threads[t := ToLoop(threads[t], false)];
      assert forall g | g in table && g != f :: table[g].Value() == old(table[g].Value());
      assert Records() == old(Records())[f := table[f].Value()];
    }

    /** Anything else (202, 224-225). */
    method ParkFiber(t: ThreadId, f: FiberId, viaCb: bool)
      requires Valid() && t in threads && f in table
      modifies this`threads, table[f]
      ensures Valid() && Abs() == Park(old(Abs()), t, f, viaCb)
    {
      table[f].Park();
      threads := threads[t := ToLoop(threads[t], viaCb)];
      assert forall g | g in table && g != f :: table[g].Value() == old(table[g].Value());
      assert Records() == old(Records())[f := table[f].Value()];
    }

    /** Act on the state the fiber left behind (198-205, 217-226). */
    method Settle(t: ThreadId)
      requires Valid() && t in threads && threads[t].pc.Counted? && threads[t].pc.f in table
      modifies this`threads, this`fibers, table[threads[t].pc.f]
      ensures Valid() && Abs() == DoSettle(old(Abs()), t)
    {
      var Counted(f, viaCb) := threads[t].pc;
      if table[f].state == READY {
        RequeueFiber(t, f, viaCb);
      } else if table[f].state == TERM || table[f].state == EXCEPT {
        RetireFiber(t, f, viaCb);
      } else {
        ParkFiber(t, f, viaCb);
      }
    }

    /** Nothing taken: leave `run` if the idle fiber has finished, else enter it (234-240). */
    method LeaveOrIdle(t: ThreadId)
      requires Valid() && t in threads && threads[t].pc.EmptyHand?
      modifies this`threads, this`idleThreadCount
      ensures Valid() && Abs() == DoLeave(old(Abs()), t)
    {
      if threads[t].idleTerm {
        threads := threads[t := threads[t].(pc := Exited)];
      } else {
        idleThreadCount := idleThreadCount + 1;
        threads := threads[t := threads[t].(pc := Idle)];
      }
    }

    /** Scheduler::stopped() (254-260). */
    method Stopped() returns (b: bool)
      ensures b <==> QueueStopped(Abs())
    {
      b := autoStop && !isRunning && fibers == [] && activeThreadCount == 0;
    }

    /** The first read of the idle fiber's test. */
    method CheckQueue(t: ThreadId)
      requires Valid() && t in threads && threads[t].pc.Idle?
      modifies this`threads
      ensures Valid() && Abs() == SetPc(old(Abs()), t, if QueueStopped(old(Abs())) then IdleMid else Waiting)
    {
      var b := Stopped();
      threads := threads[t := threads[t].(pc := if b then IdleMid else Waiting)];
    }

    /** The second read (iomanager.cpp:284). */
    method CheckPending(t: ThreadId)
      requires Valid() && t in threads && threads[t].pc.IdleMid?
      modifies this`threads, this`idleThreadCount
      ensures Valid() && Abs() == DoPendingCheck(old(Abs()), t)
    {
      if pendingEventCount == 0 {
        threads := threads[t := threads[t].(pc := Scan, idleTerm := true)];
        idleThreadCount := idleThreadCount - 1;
      } else {
        threads := threads[t := threads[t].(pc := Waiting)];
      }
    }

    /** The idle fiber yields; the worker is no longer idle (241). */
    method IdleYield(t: ThreadId)
      requires Valid() && t in threads && threads[t].pc.Waiting?
      modifies this`threads, this`idleThreadCount
      ensures Valid() && Abs() == SetPc(old(Abs()), t, Scan).(idle := old(idleThreadCount) - 1)
    {
      idleThreadCount := idleThreadCount - 1;
      threads := threads[t := threads[t].(pc := Scan)];
    }
  }
}
