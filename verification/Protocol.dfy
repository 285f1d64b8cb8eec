/**
 The multi-worker protocol of `Scheduler::run` (source/scheduler.cpp) together with the part of
 `IOManager` that shutdown depends on, as a state machine.  Every step is one locked section or one
 atomic update of the source; a run is any interleaving of the workers' steps.
 */
module Protocol {
  import opened Types

  /** Where a worker stands in `Scheduler::run`. */
  datatype Pc =
    | Scan                                 // loop head, before the locked scan (156-165)
    | InHand(e: Entry)                     // entry dequeued and counted active, not yet started (180-184)
    | Running(f: FiberId, viaCb: bool)     // control is inside fiber f (195, 215)
    | Back(f: FiberId, viaCb: bool)        // f switched out, active not yet decremented
    | Counted(f: FiberId, viaCb: bool)     // active decremented, state of f not yet acted on (197, 217)
    | EmptyHand                            // the scan took nothing (227)
    | Idle                                 // inside the idle fiber, before stopped() (254, 282)
    | IdleMid                              // Scheduler::stopped() was true, pending count not read yet (283-284)
    | Waiting                              // epoll_wait returned, dispatching ready events (312-361)
    | Exited                               // left run (236)

  /** A registry operation in flight: the fd lock is held, count and bit do not agree yet. */
  datatype IoOp = NoOp | Adding(key: Key, task: Task) | Firing(key: Key) | Deleting(key: Key)

  /** A worker: its program counter, the reusable callback fiber, whether its idle fiber is TERM. */
  datatype Worker = Worker(pc: Pc, reuse: Option<FiberId>, idleTerm: bool, io: IoOp)

  datatype State = State(
    queue: seq<Entry>,                // m_fibers
    active: int,                      // m_activeThreadCount
    idle: int,                        // m_idleThreadCount
    autoStop: bool,                   // m_autoStop
    isRunning: bool,                  // m_isRunning
    pending: int,                     // m_pendingEventCount
    fibers: map<FiberId, FiberRec>,
    workers: map<ThreadId, Worker>,
    regs: map<Key, Task>,             // the set event bits and their payloads
    aborted: bool)                    // a SERVER_ASSERT failed

  /** A call of the registry from a thread that is not a worker: addEvent of a callback, delEvent, one triggered event. */
  datatype RemoteCall = RemoteAdd(cb: Callback) | RemoteDel | RemoteFire

  /** A call whose assertion fails: addEvent of a taken event (iomanager.cpp:112-118), cancelEvent with the other event registered as well (221), an event found that is not registered (32). */
  datatype Fault = TakenAdd | SharedCancel | UnsetFire

  datatype Step =
    | External(e: Entry)                       // schedule() from a thread that is not a worker
    | RequestStop                              // stop() (85, 110)
    | ScanQueue(t: ThreadId)                   // 160-186
    | StartTask(t: ThreadId, newId: FiberId)   // 192-195, 206-215, 228-231
    | NewFiber(g: FiberId, cb: Callback)         // a fiber object is constructed
    | Schedule(t: ThreadId, e: Entry)          // a task calls schedule()
    | Switch(t: ThreadId, how: Exit)           // the task leaves its thread
    | Decrement(t: ThreadId)                   // 196, 216
    | Settle(t: ThreadId)                      // 198-205, 217-226
    | Leave(t: ThreadId)                       // 234-240
    | IdleCheck(t: ThreadId)                   // Scheduler::stopped(), under its lock
    | PendingCheck(t: ThreadId)                // m_pendingEventCount == 0
    | IdleYield(t: ThreadId)                   // 367, then 241-245
    | AddBegin(t: ThreadId, key: Key, task: Task)  // ++m_pendingEventCount (iomanager.cpp:135)
    | AddCommit(t: ThreadId)                   // bit and slot written (136-146)
    | DelBegin(t: ThreadId, key: Key)          // --m_pendingEventCount (181)
    | DelCommit(t: ThreadId)                   // bit and slot cleared (182-184)
    | DelOther(t: ThreadId, key: Key)          // delEvent finds only the other event: --m_pendingEventCount, no more (161-184)
    | FireBegin(t: ThreadId, key: Key)         // triggerEvent: bit cleared, payload scheduled (31-45)
    | FireEnd(t: ThreadId)                     // --m_pendingEventCount (219, 256, 261, 354, 359)
    | Remote(key: Key, call: RemoteCall)       // the registry called from outside
    | FailedCall(key: Key, fault: Fault)       // an assertion of the registry fails

  /** The step is taken by a worker, step.t. */
  predicate ByWorker(step: Step) {
    !step.External? && !step.RequestStop? && !step.NewFiber? && !step.Remote? && !step.FailedCall?
  }

  // ---- reading a state -------------------------------------------------------------------------

  function StateOf(fibers: map<FiberId, FiberRec>, f: FiberId): FiberState {
    if f in fibers then fibers[f].state else INIT
  }

  predicate Done(st: FiberState) { st == TERM || st == EXCEPT }

  /** The scan may take e on thread t: not pinned elsewhere, and not a fiber in execution (166-177). */
  predicate Eligible(fibers: map<FiberId, FiberRec>, t: ThreadId, e: Entry) {
    && (e.thread == ANY || e.thread == t)
    && !(e.task.Fib? && StateOf(fibers, e.task.fiber) == EXEC)
  }

  /** Index of the first eligible entry at or after i, or |q|. */
  function FirstEligible(q: seq<Entry>, fibers: map<FiberId, FiberRec>, t: ThreadId, i: nat): (r: nat)
    requires i <= |q|
    ensures i <= r <= |q|
    ensures forall j :: i <= j < r ==> !Eligible(fibers, t, q[j])
    ensures r < |q| ==> Eligible(fibers, t, q[r])
    decreases |q| - i
  {
    if i == |q| || Eligible(fibers, t, q[i]) then i else FirstEligible(q, fibers, t, i + 1)
  }

  function RemoveAt(q: seq<Entry>, i: nat): seq<Entry>
    requires i < |q|
  {
    q[..i] + q[i + 1..]
  }

  /** Between the dequeue and the decrement. */
  predicate Busy(pc: Pc) { pc.InHand? || pc.Running? || pc.Back? }

  predicate InIdleFiber(pc: Pc) { pc.Idle? || pc.IdleMid? || pc.Waiting? }

  /** The fiber a worker's program counter refers to. */
  function Held(pc: Pc): Option<FiberId> {
    match pc
    case InHand(e) => if e.task.Fib? then Some(e.task.fiber) else None
    case Running(f, _) => Some(f)
    case Back(f, _) => Some(f)
    case Counted(f, _) => Some(f)
    case _ => None
  }

  predicate CanAct(s: State, t: ThreadId) {
    !s.aborted && t in s.workers && s.workers[t].io.NoOp?
  }

  predicate InFiber(s: State, t: ThreadId) { CanAct(s, t) && s.workers[t].pc.Running? }

  predicate TaskExists(s: State, task: Task) { task.Fib? ==> task.fiber in s.fibers }

  predicate OpOnFd(io: IoOp, fd: nat) { !io.NoOp? && io.key.fd == fd }

  /** No operation holds the lock of this fd's context. */
  predicate FdFree(s: State, fd: nat) {
    forall t | t in s.workers :: !OpOnFd(s.workers[t].io, fd)
  }

  /** The other event of the same descriptor. */
  function Other(key: Key): Key { Key(key.fd, !key.write) }

  predicate Stopping(s: State) { s.autoStop && !s.isRunning }

  /** `Scheduler::stopped()` */
  predicate QueueStopped(s: State) { Stopping(s) && s.queue == [] && s.active == 0 }

  /** `IOManager::stopped()` read in one instant. */
  predicate StoppedNow(s: State) { QueueStopped(s) && s.pending == 0 }

  /** The window of lines 196-199 and 216-218: a READY fiber, uncounted and not yet queued again. */
  predicate InReadyWindow(s: State, t: ThreadId) {
    t in s.workers && s.workers[t].pc.Counted? && StateOf(s.fibers, s.workers[t].pc.f) == READY
  }

  // ---- the steps ---------------------------------------------------------------------------------

  predicate Enabled(s: State, step: Step) {
    match step
    case External(e) => !s.aborted && TaskExists(s, e.task)
    case RequestStop => !s.aborted
    case ScanQueue(t) => CanAct(s, t) && s.workers[t].pc.Scan?
    case StartTask(t, newId) => CanAct(s, t) && s.workers[t].pc.InHand? && newId !in s.fibers
    case NewFiber(g, _) => !s.aborted && g !in s.fibers
    case Schedule(t, e) => InFiber(s, t) && TaskExists(s, e.task)
    case Switch(t, _) => InFiber(s, t)
    case Decrement(t) => CanAct(s, t) && s.workers[t].pc.Back?
    case Settle(t) => CanAct(s, t) && s.workers[t].pc.Counted?
    case Leave(t) => CanAct(s, t) && s.workers[t].pc.EmptyHand?
    case IdleCheck(t) => CanAct(s, t) && s.workers[t].pc.Idle?
    case PendingCheck(t) => CanAct(s, t) && s.workers[t].pc.IdleMid?
    case IdleYield(t) => CanAct(s, t) && s.workers[t].pc.Waiting?
    case AddBegin(t, key, task) =>
      // without a callback the registered fiber is the running one (iomanager.cpp:144)
      && InFiber(s, t) && FdFree(s, key.fd) && key !in s.regs
      && (task.Fib? ==> task.fiber == s.workers[t].pc.f)
    case AddCommit(t) => !s.aborted && t in s.workers && s.workers[t].io.Adding?
    case DelBegin(t, key) => InFiber(s, t) && FdFree(s, key.fd) && key in s.regs
    case DelCommit(t) => !s.aborted && t in s.workers && s.workers[t].io.Deleting?
    case DelOther(t, key) => InFiber(s, t) && FdFree(s, key.fd) && key !in s.regs && Other(key) in s.regs
    case FireBegin(t, key) =>
      // cancelEvent and cancelAll run in a task, dispatch in the idle fiber
      && CanAct(s, t) && (s.workers[t].pc.Running? || s.workers[t].pc.Waiting?)
      && FdFree(s, key.fd) && key in s.regs
    case FireEnd(t) => !s.aborted && t in s.workers && s.workers[t].io.Firing?
    case Remote(key, call) => !s.aborted && FdFree(s, key.fd) && RemoteEnabled(s, key, call)
    case FailedCall(key, fault) => !s.aborted && FdFree(s, key.fd) && FaultEnabled(s, key, fault)
  }

  predicate RemoteEnabled(s: State, key: Key, call: RemoteCall) {
    match call
    case RemoteAdd(_) => key !in s.regs
    case RemoteDel => key in s.regs || Other(key) in s.regs
    case RemoteFire => key in s.regs
  }

  predicate FaultEnabled(s: State, key: Key, fault: Fault) {
    match fault
    case TakenAdd => key in s.regs
    case SharedCancel => key in s.regs && Other(key) in s.regs
    case UnsetFire => key !in s.regs && Other(key) in s.regs
  }

  function SetPc(s: State, t: ThreadId, pc: Pc): (r: State)
    requires t in s.workers
    ensures r.workers.Keys == s.workers.Keys
  {
    s.(workers := s.workers[t := s.workers[t].(pc := pc)])
  }

  function SetIo(s: State, t: ThreadId, io: IoOp): (r: State)
    requires t in s.workers
    ensures r.workers.Keys == s.workers.Keys
  {
    s.(workers := s.workers[t := s.workers[t].(io := io)])
  }

  function Push(s: State, e: Entry): State { s.(queue := s.queue + [e]) }

  /** Dequeue entry i and count it active (180-184). */
  function Take(s: State, t: ThreadId, i: nat): (r: State)
    requires t in s.workers && i < |s.queue|
    ensures r.workers.Keys == s.workers.Keys
  {
    SetPc(s, t, InHand(s.queue[i])).(queue := RemoveAt(s.queue, i), active := s.active + 1)
  }

  function DoScan(s: State, t: ThreadId): (r: State)
    requires t in s.workers
    ensures r.workers.Keys == s.workers.Keys
  {
    var i := FirstEligible(s.queue, s.fibers, t, 0);
    if i == |s.queue| then SetPc(s, t, EmptyHand) else Take(s, t, i)
  }

  /** Resume fiber f; `swapIn` asserts that it is not in execution (fiber.cpp:145). */
  function DoSwapIn(s: State, t: ThreadId, f: FiberId): (r: State)
    requires t in s.workers && f in s.fibers
    ensures r.workers.Keys == s.workers.Keys
    ensures r.workers == s.workers[t := r.workers[t]] && r.workers[t].idleTerm == s.workers[t].idleTerm
    ensures r.workers[t].pc.IdleMid? ==> s.workers[t].pc.IdleMid?
  {
    if s.fibers[f].state == EXEC then s.(aborted := true)
    else SetPc(s, t, Running(f, false)).(fibers := s.fibers[f := s.fibers[f].(state := EXEC)])
  }

  /** Run a callback on the reusable fiber, which `reset` asserts is not alive (fiber.cpp:109-111), or on a new one. */
  function DoCallback(s: State, t: ThreadId, cb: Callback, newId: FiberId): (r: State)
    requires t in s.workers
    ensures r.workers.Keys == s.workers.Keys
    ensures r.workers == s.workers[t := r.workers[t]] && r.workers[t].idleTerm == s.workers[t].idleTerm
    ensures r.workers[t].pc.IdleMid? ==> s.workers[t].pc.IdleMid?
  {
    var reuse := s.workers[t].reuse;
    if reuse.Some? && !(StateOf(s.fibers, reuse.value) in {TERM, EXCEPT, INIT}) then s.(aborted := true)
    else
      var g := if reuse.Some? then reuse.value else newId;
      s.(fibers := s.fibers[g := FiberRec(EXEC, Some(cb))],
         workers := s.workers[t := s.workers[t].(pc := Running(g, true), reuse := Some(g))])
  }

  function DoStart(s: State, t: ThreadId, newId: FiberId): (r: State)
    requires t in s.workers && s.workers[t].pc.InHand?
    ensures r.workers.Keys == s.workers.Keys
    ensures r.workers == s.workers[t := r.workers[t]] && r.workers[t].idleTerm == s.workers[t].idleTerm
    ensures r.workers[t].pc.IdleMid? ==> s.workers[t].pc.IdleMid?
    ensures r.regs == s.regs && r.pending == s.pending && r.queue == s.queue
  {
    match s.workers[t].pc.e.task
    case Call(cb) => DoCallback(s, t, cb, newId)
    case Fib(f) =>
      if f !in s.fibers || Done(s.fibers[f].state) then SetPc(s, t, Scan).(active := s.active - 1)
      else DoSwapIn(s, t, f)
  }

  /** The state a fiber leaves behind (fiber.cpp:183, 190, 203-206); only a normal return clears its callback. */
  function Leaving(r: FiberRec, how: Exit): FiberRec {
    match how
    case ToReady => r.(state := READY)
    case ToHold => r.(state := HOLD)
    case Finish => FiberRec(TERM, None)
    case Throw => r.(state := EXCEPT)
  }

  function DoSwitch(s: State, t: ThreadId, how: Exit): (r: State)
    requires t in s.workers && s.workers[t].pc.Running?
    ensures r.workers.Keys == s.workers.Keys
  {
    var Running(f, v) := s.workers[t].pc;
    var r := if f in s.fibers then s.fibers[f] else FiberRec(EXEC, None);
    SetPc(s, t, Back(f, v)).(fibers := s.fibers[f := Leaving(r, how)])
  }

  /** Back to the loop head; a callback fiber that lives on is given up (219, 225). */
  function ToLoop(w: Worker, forget: bool): Worker {
    if forget then w.(pc := Scan, reuse := None) else w.(pc := Scan)
  }

  /** READY: into the queue again, unpinned (198-199, 217-219). */
  function Requeue(s: State, t: ThreadId, f: FiberId, v: bool): (r: State)
    requires t in s.workers
    ensures r.workers.Keys == s.workers.Keys
    ensures r.workers == s.workers[t := r.workers[t]] && r.workers[t].pc.Scan? && r.workers[t].idleTerm == s.workers[t].idleTerm
  {
    Push(s.(workers := s.workers[t := ToLoop(s.workers[t], v)]), Entry(Fib(f), ANY))
  }

  /** Finished or failed: a callback fiber is reset for reuse (220-222). */
  function Retire(s: State, t: ThreadId, f: FiberId, v: bool): (r: State)
    requires t in s.workers
    ensures r.workers.Keys == s.workers.Keys
    ensures r.workers == s.workers[t := r.workers[t]] && r.workers[t].pc.Scan? && r.workers[t].idleTerm == s.workers[t].idleTerm
  {
    s.(workers := s.workers[t := ToLoop(s.workers[t], false)],
       fibers := if v then s.fibers[f := FiberRec(INIT, None)] else s.fibers)
  }

  /** Anything else is put on HOLD (202, 224-225). */
  function Park(s: State, t: ThreadId, f: FiberId, v: bool): (r: State)
    requires t in s.workers
    ensures r.workers.Keys == s.workers.Keys
    ensures r.workers == s.workers[t := r.workers[t]] && r.workers[t].pc.Scan? && r.workers[t].idleTerm == s.workers[t].idleTerm
  {
    var cb := if f in s.fibers then s.fibers[f].cb else None;
    s.(workers := s.workers[t := ToLoop(s.workers[t], v)], fibers := s.fibers[f := FiberRec(HOLD, cb)])
  }

  function DoSettle(s: State, t: ThreadId): (r: State)
    requires t in s.workers && s.workers[t].pc.Counted?
    ensures r.workers.Keys == s.workers.Keys
    ensures r.workers == s.workers[t := r.workers[t]] && r.workers[t].pc.Scan? && r.workers[t].idleTerm == s.workers[t].idleTerm
    ensures r.regs == s.regs && r.pending == s.pending && r.active == s.active
  {
    var Counted(f, v) := s.workers[t].pc;
    var st := StateOf(s.fibers, f);
    if st == READY then Requeue(s, t, f, v)
    else if Done(st) then Retire(s, t, f, v)
    else Park(s, t, f, v)
  }

  function DoLeave(s: State, t: ThreadId): (r: State)
    requires t in s.workers
    ensures r.workers.Keys == s.workers.Keys
  {
    if s.workers[t].idleTerm then SetPc(s, t, Exited)
    else SetPc(s, t, Idle).(idle := s.idle + 1)
  }

  function DoPendingCheck(s: State, t: ThreadId): (r: State)
    requires t in s.workers
    ensures r.workers.Keys == s.workers.Keys
  {
    if s.pending == 0 then
      s.(workers := s.workers[t := s.workers[t].(pc := Scan, idleTerm := true)], idle := s.idle - 1)
    else SetPc(s, t, Waiting)
  }

  /** A call from outside is one step; delEvent of an event that is not registered only uncounts. */
  function DoRemote(s: State, key: Key, call: RemoteCall): (r: State)
    requires RemoteEnabled(s, key, call)
    ensures r.workers == s.workers && r.fibers == s.fibers
  {
    match call
    case RemoteAdd(cb) => s.(pending := s.pending + 1, regs := s.regs[key := Call(cb)])
    case RemoteDel => s.(pending := s.pending - 1, regs := s.regs - {key})
    case RemoteFire => Push(s.(pending := s.pending - 1, regs := s.regs - {key}), Entry(s.regs[key], ANY))
  }

  /** Workers neither appear nor disappear. */
  function Apply(s: State, step: Step): (r: State)
    requires Enabled(s, step)
    ensures r.workers.Keys == s.workers.Keys
  {
    match step
    case External(e) => Push(s, e)
    case RequestStop => s.(autoStop := true, isRunning := false)
    case ScanQueue(t) => DoScan(s, t)
    case StartTask(t, newId) => DoStart(s, t, newId)
    case NewFiber(g, cb) => s.(fibers := s.fibers[g := FiberRec(INIT, Some(cb))])
    case Schedule(t, e) => Push(s, e)
    case Switch(t, how) => DoSwitch(s, t, how)
    case Decrement(t) => SetPc(s, t, Counted(s.workers[t].pc.f, s.workers[t].pc.viaCb)).(active := s.active - 1)
    case Settle(t) => DoSettle(s, t)
    case Leave(t) => DoLeave(s, t)
    case IdleCheck(t) => SetPc(s, t, if QueueStopped(s) then IdleMid else Waiting)
    case PendingCheck(t) => DoPendingCheck(s, t)
    case IdleYield(t) => SetPc(s, t, Scan).(idle := s.idle - 1)
    case AddBegin(t, key, task) => SetIo(s, t, Adding(key, task)).(pending := s.pending + 1)
    case AddCommit(t) =>
      var Adding(key, task) := s.workers[t].io;
      SetIo(s, t, NoOp).(regs := s.regs[key := task])
    case DelBegin(t, key) => SetIo(s, t, Deleting(key)).(pending := s.pending - 1)
    case DelCommit(t) => SetIo(s, t, NoOp).(regs := s.regs - {s.workers[t].io.key})
    case DelOther(t, key) => s.(pending := s.pending - 1)
    case FireBegin(t, key) =>
      Push(SetIo(s, t, Firing(key)).(regs := s.regs - {key}), Entry(s.regs[key], ANY))
    case FireEnd(t) => SetIo(s, t, NoOp).(pending := s.pending - 1)
    case Remote(key, call) => DoRemote(s, key, call)
    case FailedCall(_, _) => s.(aborted := true)
  }

  // ---- runs --------------------------------------------------------------------------------------

  /** Every step of the run is possible where it is taken. */
  predicate IsRun(s: State, steps: seq<Step>)
    decreases |steps|
  {
    steps == [] || (Enabled(s, steps[0]) && IsRun(Apply(s, steps[0]), steps[1..]))
  }

  function After(s: State, steps: seq<Step>): State
    requires IsRun(s, steps)
    decreases |steps|
  {
    if steps == [] then s else After(Apply(s, steps[0]), steps[1..])
  }

  /** A started scheduler: empty queue, all workers at the loop head, no fibers and no registrations. */
  predicate Initial(s: State) {
    && s.queue == [] && s.active == 0 && s.idle == 0 && s.pending == 0
    && !s.autoStop && s.isRunning && !s.aborted
    && s.fibers == map[] && s.regs == map[]
    && ANY !in s.workers && (exists t :: t in s.workers)
    && forall t | t in s.workers :: s.workers[t] == Worker(Scan, None, false, NoOp)
  }
}
