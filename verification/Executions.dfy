/** What holds after every run of disciplined steps: ownership, exact counters, drain safety. */
module Executions {
  import opened Types
  import opened Protocol
  import opened Ownership

  /** Every step obeys the wake-up discipline. */
  predicate IsObedient(s: State, steps: seq<Step>)
    requires IsRun(s, steps)
    decreases |steps|
  {
    steps == [] || (WakeDiscipline(s, steps[0]) && IsObedient(Apply(s, steps[0]), steps[1..]))
  }

  /** Every step respects the hand-over timing. */
  predicate IsTimely(s: State, steps: seq<Step>)
    requires IsRun(s, steps)
    decreases |steps|
  {
    steps == [] || (Handover(s, steps[0]) && IsTimely(Apply(s, steps[0]), steps[1..]))
  }

  predicate IsDisciplined(s: State, steps: seq<Step>)
    requires IsRun(s, steps)
  {
    IsObedient(s, steps) && IsTimely(s, steps)
  }

  predicate NoReadyWindow(s: State) { forall t | t in s.workers :: !InReadyWindow(s, t) }

  /** The idle fiber's test of the queue does not succeed inside another worker's READY window. */
  predicate CleanCheck(s: State, step: Step) {
    step.IdleCheck? && QueueStopped(s) ==> NoReadyWindow(s)
  }

  predicate IsClean(s: State, steps: seq<Step>)
    requires IsRun(s, steps)
    decreases |steps|
  {
    steps == [] || (CleanCheck(s, steps[0]) && IsClean(Apply(s, steps[0]), steps[1..]))
  }

  // ---- building runs ------------------------------------------------------------------------------------

  /** Which conditions a run is asked to meet. */
  datatype Rules = Rules(obedient: bool, timely: bool, clean: bool)

  const DISCIPLINED := Rules(true, true, false)

  predicate Follows(s0: State, steps: seq<Step>, m: Rules)
    requires IsRun(s0, steps)
  {
    (m.obedient ==> IsObedient(s0, steps)) && (m.timely ==> IsTimely(s0, steps)) && (m.clean ==> IsClean(s0, steps))
  }

  /** Some run leads from s0 to s and meets the conditions asked for. */
  ghost predicate Reachable(s0: State, s: State, m: Rules) {
    exists steps: seq<Step> :: IsRun(s0, steps) && Follows(s0, steps, m) && After(s0, steps) == s
  }

  /** The same, n definitions away, so that proofs which only extend a run do not unfold it. */
  ghost predicate Reaches(n: nat, s0: State, s: State, m: Rules)
    decreases n
  {
    if n == 0 then Reachable(s0, s, m) else Reaches(n - 1, s0, s, m)
  }

  lemma {:induction false} ReachesIsReachable(n: nat, s0: State, s: State, m: Rules)
    ensures Reaches(n, s0, s, m) <==> Reachable(s0, s, m)
    decreases n
  {
    if n > 0 {
      ReachesIsReachable(n - 1, s0, s, m);
    }
  }

  /** Every run starts by standing still. */
  lemma Start(n: nat, s0: State, m: Rules)
    ensures Reaches(n, s0, s0, m)
  {
    assert IsRun(s0, []) && Follows(s0, [], m) && After(s0, []) == s0;
    ReachesIsReachable(n, s0, s0, m);
  }

  lemma {:induction false} Append(s: State, steps: seq<Step>, step: Step)
    requires IsRun(s, steps) && Enabled(After(s, steps), step)
    ensures IsRun(s, steps + [step])
    ensures After(s, steps + [step]) == Apply(After(s, steps), step)
    ensures IsObedient(s, steps) && WakeDiscipline(After(s, steps), step) ==> IsObedient(s, steps + [step])
    ensures IsTimely(s, steps) && Handover(After(s, steps), step) ==> IsTimely(s, steps + [step])
    ensures IsClean(s, steps) && CleanCheck(After(s, steps), step) ==> IsClean(s, steps + [step])
    decreases |steps|
  {
    if steps == [] {
      assert steps + [step] == [step] && [step][1..] == [];
    } else {
      assert (steps + [step])[1..] == steps[1..] + [step];
      Append(Apply(s, steps[0]), steps[1..], step);
    }
  }

  /** One more step of such a run. */
  lemma Extend(n: nat, s0: State, s: State, m: Rules, step: Step)
    requires Reaches(n, s0, s, m) && Enabled(s, step)
    requires (m.obedient ==> WakeDiscipline(s, step)) && (m.timely ==> Handover(s, step)) && (m.clean ==> CleanCheck(s, step))
    ensures Reaches(n, s0, Apply(s, step), m)
  {
    ReachesIsReachable(n, s0, s, m);
    var steps: seq<Step> :| IsRun(s0, steps) && Follows(s0, steps, m) && After(s0, steps) == s;
    Append(s0, steps, step);
    ReachesIsReachable(n, s0, Apply(s, step), m);
  }

  /** Steps of the run that made the pending count too low. */
  function Missed(s: State, steps: seq<Step>): nat
    requires IsRun(s, steps)
    decreases |steps|
  {
    if steps == [] then 0 else (if Miscounts(s, steps[0]) then 1 else 0) + Missed(Apply(s, steps[0]), steps[1..])
  }

  // ---- ownership ---------------------------------------------------------------------------------------

  lemma {:induction false} RunKeepsInv(s: State, steps: seq<Step>)
    requires Inv(s) && IsRun(s, steps) && IsDisciplined(s, steps)
    ensures Inv(After(s, steps))
    ensures Uncounted(After(s, steps)) == Uncounted(s) + Missed(s, steps)
    decreases |steps|
  {
    if steps != [] {
      InvKeeps(s, steps[0]);
      RunKeepsInv(Apply(s, steps[0]), steps[1..]);
    }
  }

  /** Worker t is the one running f. */
  predicate Runs(s: State, t: ThreadId, f: FiberId) {
    t in s.workers && s.workers[t].pc.Running? && s.workers[t].pc.f == f
  }

  /** f is EXEC exactly when some worker runs it, and then only one does. */
  ghost predicate RunsOnce(s: State, f: FiberId) {
    && (StateOf(s.fibers, f) == EXEC <==> exists t :: Runs(s, t, f))
    && (forall t1, t2 :: Runs(s, t1, f) && Runs(s, t2, f) ==> t1 == t2)
  }

  lemma InvRunsOnce(s: State, f: FiberId)
    requires Inv(s)
    ensures RunsOnce(s, f)
  {
    if StateOf(s.fibers, f) == EXEC {
      var t :| t in s.workers && s.workers[t].pc.Running? && s.workers[t].pc.f == f;
      assert Runs(s, t, f);
    }
    forall t | Runs(s, t, f)
      ensures StateOf(s.fibers, f) == EXEC
    {
      assert WorkerOk(s, s.workers[t]);
    }
    forall t1, t2 | Runs(s, t1, f) && Runs(s, t2, f)
      ensures t1 == t2
    {
      assert t1 != t2 ==> Apart(s.workers[t1], s.workers[t2]);
    }
  }

  /** In every state of every disciplined run, each fiber is EXEC exactly when one worker runs it, and no assertion has failed. */
  lemma FiberOwnership(s0: State, steps: seq<Step>, f: FiberId)
    requires Initial(s0) && IsRun(s0, steps) && IsDisciplined(s0, steps)
    ensures !After(s0, steps).aborted && RunsOnce(After(s0, steps), f)
  {
    InitialInv(s0);
    RunKeepsInv(s0, steps);
    InvRunsOnce(After(s0, steps), f);
  }

  /** The fiber a worker is about to resume is alive, is not running, and no other worker refers to it. */
  lemma NeverResumedTwice(s0: State, steps: seq<Step>, t: ThreadId, f: FiberId)
    requires Initial(s0) && IsRun(s0, steps) && IsDisciplined(s0, steps)
    requires
      var s := After(s0, steps);
      t in s.workers && s.workers[t].pc.InHand? && s.workers[t].pc.e.task == Fib(f)
    ensures
      var s := After(s0, steps);
      && StateOf(s.fibers, f) in {INIT, HOLD, READY}
      && forall u | u in s.workers && u != t :: Held(s.workers[u].pc) != Some(f) && s.workers[u].reuse != Some(f)
  {
    InitialInv(s0);
    RunKeepsInv(s0, steps);
    InHandIsAlone(After(s0, steps), t, f);
  }

  /** active and idle count the workers they are named after; at the loop head the reusable fiber is parked and private. */
  lemma WorkerLoop(s0: State, steps: seq<Step>)
    requires Initial(s0) && IsRun(s0, steps) && IsDisciplined(s0, steps)
    ensures
      var s := After(s0, steps);
      && s.active == |set t | t in s.workers && Busy(s.workers[t].pc)|
      && s.idle == |set t | t in s.workers && InIdleFiber(s.workers[t].pc)|
      && forall t, g | t in s.workers && s.workers[t].pc.Scan? && s.workers[t].reuse == Some(g) ::
        && g in s.fibers && s.fibers[g] == FiberRec(INIT, None) && !InQueue(s, g) && !Registered(s, g)
        && forall u | u in s.workers && u != t :: Held(s.workers[u].pc) != Some(g) && s.workers[u].reuse != Some(g)
  {
    InitialInv(s0);
    RunKeepsInv(s0, steps);
    var s := After(s0, steps);
    forall t, g | t in s.workers && s.workers[t].pc.Scan? && s.workers[t].reuse == Some(g)
      ensures g in s.fibers && s.fibers[g] == FiberRec(INIT, None) && !InQueue(s, g) && !Registered(s, g)
      ensures forall u | u in s.workers && u != t :: Held(s.workers[u].pc) != Some(g) && s.workers[u].reuse != Some(g)
    {
      ParkedIsAlone(s, t, g);
    }
  }

  /** No disciplined continuation of s breaks the ownership of a fiber or fails an assertion. */
  ghost predicate StaysOwned(s: State) {
    forall steps: seq<Step> :: IsRun(s, steps) && IsDisciplined(s, steps) ==> OwnedAfter(s, steps)
  }

  ghost predicate OwnedAfter(s: State, steps: seq<Step>)
    requires IsRun(s, steps)
  {
    !After(s, steps).aborted && forall f :: RunsOnce(After(s, steps), f)
  }

  /** A scan leaves ownership safe from every disciplined continuation if and only if the fiber it takes has been settled. */
  lemma HandoverExact(s: State, t: ThreadId)
    requires Inv(s) && Enabled(s, ScanQueue(t))
    ensures StaysOwned(Apply(s, ScanQueue(t))) <==> Handover(s, ScanQueue(t))
  {
    if Handover(s, ScanQueue(t)) {
      InvKeeps(s, ScanQueue(t));
      InvStaysOwned(Apply(s, ScanQueue(t)));
    } else {
      EarlyScanBreaks(s, t);
    }
  }

  lemma InvStaysOwned(s: State)
    requires Inv(s)
    ensures StaysOwned(s)
  {
    forall steps: seq<Step> | IsRun(s, steps) && IsDisciplined(s, steps)
      ensures OwnedAfter(s, steps)
    {
      RunKeepsInv(s, steps);
      forall f
        ensures RunsOnce(After(s, steps), f)
      {
        InvRunsOnce(After(s, steps), f);
      }
    }
  }

  lemma {:induction false} FreshId(ids: set<FiberId>) returns (bound: FiberId)
    ensures forall f | f in ids :: f < bound
    decreases |ids|
  {
    bound := 0;
    if ids != {} {
      var f := Pick(ids);
      var b := FreshId(ids - {f});
      bound := if b > f then b else f + 1;
      forall g | g in ids
        ensures g < bound
      {
        assert g == f || g in ids - {f};
      }
    }
  }

  lemma Pick<T>(xs: set<T>) returns (x: T)
    requires xs != {}
    ensures x in xs
  {
    x :| x in xs;
  }

  /** What an early scan finds: the fiber is on HOLD and its old worker has not acted on it. */
  lemma EarlyScanFinds(s: State, t: ThreadId) returns (f: FiberId, u: ThreadId)
    requires Inv(s) && Enabled(s, ScanQueue(t)) && !Handover(s, ScanQueue(t))
    ensures u in s.workers && u != t && Unsettled(s.workers[u], f) && s.workers[u].io.NoOp?
    ensures f in s.fibers && s.fibers[f].state == HOLD
    ensures
      var s1 := DoScan(s, t);
      && s1.fibers == s.fibers && !s1.aborted
      && s1.workers[t].pc.InHand? && s1.workers[t].pc.e.task == Fib(f) && s1.workers[t].io.NoOp?
      && s1.workers[u] == s.workers[u]
  {
    var i := FirstEligible(s.queue, s.fibers, t, 0);
    f := s.queue[i].task.fiber;
    assert s.queue[i] in s.queue;
    u :| u in s.workers && Unsettled(s.workers[u], f);
    assert WorkerOk(s, s.workers[u]);
    assert !Carries(s.fibers, s.workers[u], f);
  }

  /** The fiber is resumed, and then its old worker puts it on HOLD while it runs. */
  lemma ParkedWhileRunning(s: State, t: ThreadId, u: ThreadId, f: FiberId, newId: FiberId)
    requires t in s.workers && u in s.workers && u != t && f in s.fibers && s.fibers[f].state == HOLD && newId !in s.fibers
    requires CanAct(s, t) && s.workers[t].pc.InHand? && s.workers[t].pc.e.task == Fib(f)
    requires CanAct(s, u) && s.workers[u].pc.Counted? && s.workers[u].pc.f == f
    ensures
      var s1 := DoStart(s, t, newId);
      && CanAct(s1, u) && s1.workers[u].pc.Counted?
      && !RunsOnce(DoSettle(s1, u), f)
  {
    var s1 := DoStart(s, t, newId);
    assert s1.fibers[f].state == EXEC;
    var s2 := DoSettle(s1, u);
    assert Runs(s2, t, f) && StateOf(s2.fibers, f) == HOLD;
  }

  lemma EarlyScanBreaks(s: State, t: ThreadId)
    requires Inv(s) && Enabled(s, ScanQueue(t)) && !Handover(s, ScanQueue(t))
    ensures !StaysOwned(Apply(s, ScanQueue(t)))
  {
    var m := DISCIPLINED;
    var f, u := EarlyScanFinds(s, t);
    var newId := FreshId(s.fibers.Keys);
    var s1 := DoScan(s, t);
    Start(1, s1, m);
    var s2 := if s.workers[u].pc.Back? then Apply(s1, Decrement(u)) else s1;
    if s.workers[u].pc.Back? { Extend(1, s1, s1, m, Decrement(u)); }
    assert newId !in s2.fibers;
    ParkedWhileRunning(s2, t, u, f, newId);
    Extend(1, s1, s2, m, StartTask(t, newId));
    var s3 := DoStart(s2, t, newId);
    Extend(1, s1, s3, m, Settle(u));
    ReachesIsReachable(1, s1, DoSettle(s3, u), m);
    var steps: seq<Step> :| IsRun(s1, steps) && Follows(s1, steps, m) && After(s1, steps) == DoSettle(s3, u);
    assert IsDisciplined(s1, steps);
    assert !OwnedAfter(s1, steps);
  }

  /** Scanning past what is not eligible. */
  lemma {:induction false} FirstFrom(q: seq<Entry>, fibers: map<FiberId, FiberRec>, t: ThreadId, i: nat, k: nat)
    requires i <= k <= |q| && (forall j | i <= j < k :: !Eligible(fibers, t, q[j])) && (k < |q| ==> Eligible(fibers, t, q[k]))
    ensures FirstEligible(q, fibers, t, i) == k
    decreases k - i
  {
    if i < k { FirstFrom(q, fibers, t, i + 1, k); }
  }

  lemma AbortBreaks(s1: State, s: State)
    requires Reaches(1, s1, s, DISCIPLINED) && s.aborted
    ensures !StaysOwned(s1)
  {
    ReachesIsReachable(1, s1, s, DISCIPLINED);
    var steps: seq<Step> :| IsRun(s1, steps) && Follows(s1, steps, DISCIPLINED) && After(s1, steps) == s;
    assert IsDisciplined(s1, steps) && !OwnedAfter(s1, steps);
  }

  /** Worker v is at its loop head and finds nothing to take but what index i holds. */
  predicate FindsOnly(s: State, v: ThreadId, i: nat) {
    && CanAct(s, v) && s.workers[v].pc.Scan?
    && forall k | 0 <= k < |s.queue| && k != i :: !Eligible(s.fibers, v, s.queue[k])
  }

  /** A scan by v takes entry i, which is settled. */
  lemma ScanOnly(s1: State, s: State, v: ThreadId, i: nat)
    requires Reaches(1, s1, s, DISCIPLINED) && FindsOnly(s, v, i) && i < |s.queue| && Eligible(s.fibers, v, s.queue[i])
    requires s.queue[i].task.Fib? ==> forall u | u in s.workers :: !Unsettled(s.workers[u], s.queue[i].task.fiber)
    ensures Reaches(1, s1, Take(s, v, i), DISCIPLINED)
  {
    FirstFrom(s.queue, s.fibers, v, 0, i);
    Extend(1, s1, s, DISCIPLINED, ScanQueue(v));
  }

  /**
   Scheduling the parked fiber of a worker, against the discipline: once another worker has taken and resumed it, its owner
   fails the assertion of reset when it is given a callback.
   */
  lemma ParkedScheduleBreaks(s: State, t: ThreadId, u: ThreadId, v: ThreadId, g: FiberId, thread: ThreadId)
    requires Inv(s) && InFiber(s, t) && u != v && (thread == ANY || thread == v)
    requires FindsOnly(s, u, |s.queue|) && FindsOnly(s, v, |s.queue|) && s.workers[u].reuse == Some(g)
    ensures
      var step := Schedule(t, Entry(Fib(g), thread));
      Enabled(s, step) && !WakeDiscipline(s, step) && !StaysOwned(Apply(s, step))
  {
    ParkedFacts(s, u, g);
    ParkedPushed(s, t, u, v, g, thread);
  }

  lemma ParkedFacts(s: State, u: ThreadId, g: FiberId)
    requires Inv(s) && u in s.workers && s.workers[u].pc.Scan? && s.workers[u].reuse == Some(g)
    ensures g in s.fibers && s.fibers[g] == FiberRec(INIT, None)
    ensures forall w | w in s.workers :: !Unsettled(s.workers[w], g)
  {
    ParkedIsAlone(s, u, g);
    assert WorkerOk(s, s.workers[u]);
  }

  lemma ParkedPushed(s: State, t: ThreadId, u: ThreadId, v: ThreadId, g: FiberId, thread: ThreadId)
    requires InFiber(s, t) && u != v && (thread == ANY || thread == v)
    requires FindsOnly(s, u, |s.queue|) && FindsOnly(s, v, |s.queue|) && s.workers[u].reuse == Some(g)
    requires g in s.fibers && s.fibers[g] == FiberRec(INIT, None) && forall w | w in s.workers :: !Unsettled(s.workers[w], g)
    ensures !StaysOwned(Push(s, Entry(Fib(g), thread)))
  {
    var n, e := |s.queue|, Entry(Fib(g), thread);
    var s1 := Push(s, e);
    Start(1, s1, DISCIPLINED);
    ScanOnly(s1, s1, v, n);
    var s2 := Take(s1, v, n);
    assert s2.queue == s.queue;
    var newId := FreshId(s.fibers.Keys);
    assert newId !in s2.fibers;
    Extend(1, s1, s2, DISCIPLINED, StartTask(v, newId));
    ResumedFinds(s, s2, t, u, v, g, newId);
    ParkedTaken(s1, DoStart(s2, v, newId), t, u, g);
  }

  lemma ResumedFinds(s: State, s2: State, t: ThreadId, u: ThreadId, v: ThreadId, g: FiberId, newId: FiberId)
    requires InFiber(s, t) && FindsOnly(s, u, |s.queue|) && u != v && v != t && g in s.fibers && s.fibers[g].state == INIT
    requires v in s.workers && v in s2.workers && s2 == SetPc(s, v, s2.workers[v].pc).(active := s2.active)
    requires s2.workers[v].pc.InHand? && s2.workers[v].pc.e.task == Fib(g)
    ensures
      var s3 := DoStart(s2, v, newId);
      && InFiber(s3, t) && FindsOnly(s3, u, |s3.queue|) && s3.workers[u] == s.workers[u]
      && g in s3.fibers && s3.fibers[g].state == EXEC
  {
    var s3 := DoStart(s2, v, newId);
    assert s3.queue == s.queue;
    forall k | 0 <= k < |s3.queue|
      ensures !Eligible(s3.fibers, u, s3.queue[k])
    {
      assert !Eligible(s.fibers, u, s.queue[k]);
    }
  }

  lemma ParkedTaken(s1: State, s: State, t: ThreadId, u: ThreadId, g: FiberId)
    requires Reaches(1, s1, s, DISCIPLINED) && InFiber(s, t) && FindsOnly(s, u, |s.queue|) && u != t
    requires s.workers[u].reuse == Some(g) && g in s.fibers && s.fibers[g].state == EXEC
    ensures !StaysOwned(s1)
  {
    var n, call := |s.queue|, Entry(Call(0), ANY);
    Extend(1, s1, s, DISCIPLINED, Schedule(t, call));
    var s2 := Push(s, call);
    ScanOnly(s1, s2, u, n);
    var s3 := Take(s2, u, n);
    var newId := FreshId(s.fibers.Keys);
    assert newId !in s3.fibers;
    Extend(1, s1, s3, DISCIPLINED, StartTask(u, newId));
    AbortBreaks(s1, DoStart(s3, u, newId));
  }

  /**
   Scheduling a fiber that is queued already, against the discipline: two workers that find no other entry take one each, and
   the second fails the assertion of swapIn.
   */
  lemma QueuedScheduleBreaks(s: State, t: ThreadId, u: ThreadId, v: ThreadId, i: nat, thread: ThreadId)
    requires Inv(s) && InFiber(s, t) && u != v && (thread == ANY || thread == v)
    requires i < |s.queue| && s.queue[i].task.Fib? && FindsOnly(s, u, i) && FindsOnly(s, v, i)
    requires Eligible(s.fibers, u, s.queue[i]) && forall w | w in s.workers :: !Unsettled(s.workers[w], s.queue[i].task.fiber)
    ensures
      var step := Schedule(t, Entry(s.queue[i].task, thread));
      Enabled(s, step) && !WakeDiscipline(s, step) && !StaysOwned(Apply(s, step))
  {
    var f := s.queue[i].task.fiber;
    assert s.queue[i] in s.queue && InQueue(s, f);
    var s1 := Push(s, Entry(Fib(f), thread));
    FirstOfTwo(s, u, i, f, thread);
    SecondOfTwo(s, u, v, i, f, thread);
  }

  lemma FirstOfTwo(s: State, u: ThreadId, i: nat, f: FiberId, thread: ThreadId)
    requires i < |s.queue| && s.queue[i].task == Fib(f) && FindsOnly(s, u, i) && Eligible(s.fibers, u, s.queue[i])
    requires forall w | w in s.workers :: !Unsettled(s.workers[w], f)
    ensures
      var s1 := Push(s, Entry(Fib(f), thread));
      Reaches(1, s1, Take(s1, u, i), DISCIPLINED)
  {
    var s1 := Push(s, Entry(Fib(f), thread));
    Start(1, s1, DISCIPLINED);
    FirstFrom(s1.queue, s1.fibers, u, 0, i);
    Extend(1, s1, s1, DISCIPLINED, ScanQueue(u));
  }

  lemma SecondOfTwo(s: State, u: ThreadId, v: ThreadId, i: nat, f: FiberId, thread: ThreadId)
    requires i < |s.queue| && FindsOnly(s, u, i) && FindsOnly(s, v, i) && u != v && (thread == ANY || thread == v)
    requires s.queue[i].task == Fib(f) && f in s.fibers && !Done(s.fibers[f].state) && s.fibers[f].state != EXEC
    requires forall w | w in s.workers :: !Unsettled(s.workers[w], f)
    requires
      var s1 := Push(s, Entry(Fib(f), thread));
      Reaches(1, s1, Take(s1, u, i), DISCIPLINED)
    ensures !StaysOwned(Push(s, Entry(Fib(f), thread)))
  {
    var e, n := Entry(Fib(f), thread), |s.queue| - 1;
    var s1 := Push(s, e);
    var s2 := Take(s1, u, i);
    assert s2.queue == RemoveAt(s.queue, i) + [e];
    assert forall k | 0 <= k < n :: s2.queue[k] == s.queue[if k < i then k else k + 1];
    ScanOnly(s1, s2, v, n);
    TwiceInHand(s1, Take(s2, v, n), u, v, f);
  }

  lemma TwiceInHand(s1: State, s: State, u: ThreadId, v: ThreadId, f: FiberId)
    requires Reaches(1, s1, s, DISCIPLINED) && u != v && CanAct(s, u) && CanAct(s, v)
    requires s.workers[u].pc.InHand? && s.workers[u].pc.e.task == Fib(f)
    requires s.workers[v].pc.InHand? && s.workers[v].pc.e.task == Fib(f)
    requires f in s.fibers && !Done(s.fibers[f].state) && s.fibers[f].state != EXEC
    ensures !StaysOwned(s1)
  {
    var newId := FreshId(s.fibers.Keys);
    assert newId !in s.fibers;
    Extend(1, s1, s, DISCIPLINED, StartTask(u, newId));
    var s2 := DoStart(s, u, newId);
    assert newId !in s2.fibers;
    Extend(1, s1, s2, DISCIPLINED, StartTask(v, newId));
    AbortBreaks(s1, DoStart(s2, v, newId));
  }

  /** A fiber whose old worker is not done with it may not be held by a second one. */
  lemma BadScan(s: State, t: ThreadId)
    requires Inv(s) && Enabled(s, ScanQueue(t)) && !Handover(s, ScanQueue(t))
    ensures !Inv(Apply(s, ScanQueue(t)))
  {
    var f, u := EarlyScanFinds(s, t);
    var s' := DoScan(s, t);
    assert !Apart(s'.workers[t], s'.workers[u]);
  }

  lemma BadPush(s: State, e: Entry)
    requires Inv(s) && TaskExists(s, e.task) && !MayWake(s, e.task)
    ensures !Inv(Push(s, e))
  {
    var s', f := Push(s, e), e.task.fiber;
    assert e in s'.queue;
    if InQueue(s, f) {
      var x :| x in s.queue && x.task == Fib(f);
      var i :| 0 <= i < |s.queue| && s.queue[i] == x;
      assert s'.queue[i].task == s'.queue[|s.queue|].task;
    } else if Registered(s, f) {
      assert Registered(s', f);
    } else if Wakeable(s.fibers[f]) {
      var t :| t in s.workers && Carries(s.fibers, s.workers[t], f);
      assert Carries(s'.fibers, s'.workers[t], f);
    }
  }

  /** A running fiber's wake-up can only be queued or registered. */
  lemma RunningWake(s: State, t: ThreadId)
    requires Inv(s) && InFiber(s, t) && HasWake(s, s.workers[t].pc.f)
    ensures InQueue(s, s.workers[t].pc.f) || Registered(s, s.workers[t].pc.f)
  {
    var f := s.workers[t].pc.f;
    assert WorkerOk(s, s.workers[t]);
    HeldIsAlone(s, t, f);
    forall u | u in s.workers
      ensures !Carries(s.fibers, s.workers[u], f)
    {
      assert WorkerOk(s, s.workers[u]);
      assert u != t ==> FreeOf(s.workers[u], f);
    }
  }

  lemma BadSwitch(s: State, t: ThreadId, how: Exit)
    requires Inv(s) && InFiber(s, t) && how != ToHold && HasWake(s, s.workers[t].pc.f)
    ensures !Inv(DoSwitch(s, t, how))
  {
    var s', f := DoSwitch(s, t, how), s.workers[t].pc.f;
    RunningWake(s, t);
    assert how == ToReady ==> Carries(s'.fibers, s'.workers[t], f);
    assert how != ToReady ==> !Wakeable(s'.fibers[f]);
    if InQueue(s, f) {
      var e :| e in s'.queue && e.task == Fib(f);
    } else {
      var key :| key in s'.regs && s'.regs[key] == Fib(f);
    }
  }

  lemma BadAdd(s: State, t: ThreadId, key: Key)
    requires Inv(s) && InFiber(s, t) && HasWake(s, s.workers[t].pc.f)
    ensures !Inv(SetIo(s, t, Adding(key, Fib(s.workers[t].pc.f))).(pending := s.pending + 1))
  {
    var f := s.workers[t].pc.f;
    var s' := SetIo(s, t, Adding(key, Fib(f))).(pending := s.pending + 1);
    RunningWake(s, t);
    assert Carries(s'.fibers, s'.workers[t], f);
    if InQueue(s, f) {
      var e :| e in s'.queue && e.task == Fib(f);
    } else {
      var k :| k in s'.regs && s'.regs[k] == Fib(f);
    }
  }

  /** For the steps of workers, and for calls that fail, the two conditions on a run are exactly what the invariant needs. */
  lemma DisciplineExact(s: State, step: Step)
    requires Inv(s) && Enabled(s, step) && (ByWorker(step) || step.FailedCall?)
    ensures Inv(Apply(s, step)) <==> WakeDiscipline(s, step) && Handover(s, step)
  {
    if WakeDiscipline(s, step) && Handover(s, step) {
      InvKeeps(s, step);
    } else {
      match step
      case ScanQueue(t) => BadScan(s, t);
      case FailedCall(_, _) =>
      case Schedule(_, e) => BadPush(s, e);
      case Switch(t, how) => BadSwitch(s, t, how);
      case AddBegin(t, key, task) =>
        assert WorkerOk(s, s.workers[t]);
        BadAdd(s, t, key);
    }
  }

  // ---- no READY fiber is lost ---------------------------------------------------------------------------

  predicate Tracked(s: State, f: FiberId) {
    InQueue(s, f) || exists t | t in s.workers :: Carries(s.fibers, s.workers[t], f)
  }

  /** A fiber that yielded READY is queued, or some worker is about to queue or resume it. */
  predicate ReadyTracked(s: State) {
    forall f | f in s.fibers && s.fibers[f].state == READY :: Tracked(s, f)
  }

  /** What worker t's step must preserve. */
  lemma ReadyMove(s: State, s': State, t: ThreadId)
    requires ReadyTracked(s) && OnlyWorker(s, s', t)
    requires forall f | f in s'.fibers && s'.fibers[f].state == READY && !Carries(s'.fibers, s'.workers[t], f) && !InQueue(s', f) ::
      f in s.fibers && s.fibers[f].state == READY && !InQueue(s, f) && !Carries(s.fibers, s.workers[t], f)
    ensures ReadyTracked(s')
  {
    forall f | f in s'.fibers && s'.fibers[f].state == READY
      ensures Tracked(s', f)
    {
      if !Carries(s'.fibers, s'.workers[t], f) && !InQueue(s', f) {
        var u :| u in s.workers && Carries(s.fibers, s.workers[u], f);
        assert Carries(s'.fibers, s'.workers[u], f);
      }
    }
  }

  lemma RemoveAtCovers(q: seq<Entry>, i: nat)
    requires i < |q|
    ensures forall e | e in q :: e == q[i] || e in RemoveAt(q, i)
  {
    var r := RemoveAt(q, i);
    forall k | 0 <= k < |q| && k != i
      ensures q[k] in r
    {
      assert r[if k < i then k else k - 1] == q[k];
    }
  }

  lemma ReadyTake(s: State, t: ThreadId, i: nat)
    requires ReadyTracked(s) && CanAct(s, t) && s.workers[t].pc.Scan? && i < |s.queue|
    ensures ReadyTracked(Take(s, t, i))
  {
    RemoveAtCovers(s.queue, i);
    ReadyMove(s, Take(s, t, i), t);
  }

  lemma ReadyPush(s: State, e: Entry)
    requires ReadyTracked(s)
    ensures ReadyTracked(Push(s, e))
  {
    var s' := Push(s, e);
    forall f | f in s'.fibers && s'.fibers[f].state == READY
      ensures Tracked(s', f)
    {
      if InQueue(s, f) {
        var x :| x in s.queue && x.task == Fib(f);
        assert x in s'.queue;
      } else {
        var u :| u in s.workers && Carries(s.fibers, s.workers[u], f);
        assert Carries(s'.fibers, s'.workers[u], f);
      }
    }
  }

  lemma ReadySettle(s: State, t: ThreadId)
    requires Inv(s) && ReadyTracked(s) && CanAct(s, t) && s.workers[t].pc.Counted?
    ensures ReadyTracked(DoSettle(s, t))
  {
    var f := s.workers[t].pc.f;
    assert WorkerOk(s, s.workers[t]);
    if InReadyWindow(s, t) {
      var s' := DoSettle(s, t);
      assert Entry(Fib(f), ANY) in s'.queue;
      assert forall e | e in s.queue :: e in s'.queue;
    }
    ReadyMove(s, DoSettle(s, t), t);
  }

  lemma ReadyStart(s: State, t: ThreadId, newId: FiberId)
    requires Inv(s) && ReadyTracked(s) && CanAct(s, t) && s.workers[t].pc.InHand? && newId !in s.fibers
    ensures ReadyTracked(DoStart(s, t, newId))
  {
    StartKeeps(s, t, newId);
    assert WorkerOk(s, s.workers[t]);
    ReadyMove(s, DoStart(s, t, newId), t);
  }

  lemma ReadySwitch(s: State, t: ThreadId, how: Exit)
    requires Inv(s) && ReadyTracked(s) && InFiber(s, t)
    ensures ReadyTracked(DoSwitch(s, t, how))
  {
    assert WorkerOk(s, s.workers[t]);
    ReadyMove(s, DoSwitch(s, t, how), t);
  }

  lemma ReadyNewFiber(s: State, g: FiberId, cb: Callback)
    requires ReadyTracked(s) && g !in s.fibers
    ensures ReadyTracked(s.(fibers := s.fibers[g := FiberRec(INIT, Some(cb))]))
  {
    var s' := s.(fibers := s.fibers[g := FiberRec(INIT, Some(cb))]);
    forall f | f in s'.fibers && s'.fibers[f].state == READY
      ensures Tracked(s', f)
    {
      assert Tracked(s, f);
      if !InQueue(s, f) {
        var u :| u in s.workers && Carries(s.fibers, s.workers[u], f);
        assert Carries(s'.fibers, s'.workers[u], f);
      }
    }
  }

  lemma ReadyKeeps(s: State, step: Step)
    requires Inv(s) && ReadyTracked(s) && Enabled(s, step)
    ensures ReadyTracked(Apply(s, step))
  {
    if IsIo(step) {
      ReadyIo(s, step);
    } else if ByWorker(step) {
      ReadyWorker(s, step);
    } else {
      ReadyOutside(s, step);
    }
  }

  lemma ReadyOutside(s: State, step: Step)
    requires ReadyTracked(s) && Enabled(s, step) && !ByWorker(step)
    ensures ReadyTracked(Apply(s, step))
  {
    match step
    case External(e) => ReadyPush(s, e);
    case NewFiber(g, cb) => ReadyNewFiber(s, g, cb);
    case Remote(key, call) => ReadyRemote(s, key, call);
    case FailedCall(_, _) => ReadySame(s, Apply(s, step));
    case RequestStop => ReadySame(s, Apply(s, step));
  }

  lemma ReadyIo(s: State, step: Step)
    requires Inv(s) && ReadyTracked(s) && Enabled(s, step) && IsIo(step)
    ensures ReadyTracked(Apply(s, step))
  {
    if step.FireBegin? {
      ReadyFire(s, step.t, step.key);
    } else {
      IoSame(s, step);
      ReadyOther(s, step);
    }
  }

  /** Steps that touch neither the queue nor a fiber. */
  lemma StepSame(s: State, step: Step)
    requires Enabled(s, step)
    requires step.Decrement? || step.Leave? || step.IdleCheck? || step.PendingCheck? || step.IdleYield?
    ensures Apply(s, step).queue == s.queue && Apply(s, step).fibers == s.fibers
  {
  }

  lemma IoSame(s: State, step: Step)
    requires Enabled(s, step) && IsIo(step) && !step.FireBegin?
    ensures Apply(s, step).queue == s.queue && Apply(s, step).fibers == s.fibers
  {
  }

  lemma ReadyScan(s: State, t: ThreadId)
    requires Inv(s) && ReadyTracked(s) && Enabled(s, ScanQueue(t))
    ensures ReadyTracked(Apply(s, ScanQueue(t)))
  {
    if FirstEligible(s.queue, s.fibers, t, 0) < |s.queue| {
      ReadyTake(s, t, FirstEligible(s.queue, s.fibers, t, 0));
    } else {
      ReadyOther(s, ScanQueue(t));
    }
  }

  lemma ReadyWorker(s: State, step: Step)
    requires Inv(s) && ReadyTracked(s) && Enabled(s, step) && ByWorker(step) && !IsIo(step)
    ensures ReadyTracked(Apply(s, step))
  {
    if step.Schedule? {
      ReadyPush(s, step.e);
    } else if step.ScanQueue? {
      ReadyScan(s, step.t);
    } else if step.StartTask? {
      ReadyStart(s, step.t, step.newId);
    } else if step.Switch? {
      ReadySwitch(s, step.t, step.how);
    } else if step.Settle? {
      ReadySettle(s, step.t);
    } else {
      StepSame(s, step);
      ReadyOther(s, step);
    }
  }

  lemma ReadyFire(s: State, t: ThreadId, key: Key)
    requires ReadyTracked(s) && CanAct(s, t) && key in s.regs
    ensures ReadyTracked(Push(SetIo(s, t, Firing(key)).(regs := s.regs - {key}), Entry(s.regs[key], ANY)))
  {
    var s1 := SetIo(s, t, Firing(key)).(regs := s.regs - {key});
    ReadyMove(s, s1, t);
    ReadyPush(s1, Entry(s.regs[key], ANY));
  }

  lemma {:induction false} RunKeepsReady(s: State, steps: seq<Step>)
    requires Inv(s) && ReadyTracked(s) && IsRun(s, steps) && IsDisciplined(s, steps)
    ensures ReadyTracked(After(s, steps))
    decreases |steps|
  {
    if steps != [] {
      InvKeeps(s, steps[0]);
      ReadyKeeps(s, steps[0]);
      RunKeepsReady(Apply(s, steps[0]), steps[1..]);
    }
  }

  /** A fiber that yielded READY is never forgotten: it is queued, or a worker is about to queue or resume it. */
  lemma NoLostReady(s0: State, steps: seq<Step>, f: FiberId)
    requires Initial(s0) && IsRun(s0, steps) && IsDisciplined(s0, steps)
    requires f in After(s0, steps).fibers && After(s0, steps).fibers[f].state == READY
    ensures Tracked(After(s0, steps), f)
  {
    InitialInv(s0);
    RunKeepsReady(s0, steps);
  }

  lemma ReadySame(s: State, s': State)
    requires ReadyTracked(s) && s'.queue == s.queue && s'.fibers == s.fibers && s'.workers == s.workers
    ensures ReadyTracked(s')
  {
    forall f | f in s'.fibers && s'.fibers[f].state == READY
      ensures Tracked(s', f)
    {
      assert Tracked(s, f);
    }
  }

  lemma ReadyRemote(s: State, key: Key, call: RemoteCall)
    requires ReadyTracked(s) && RemoteEnabled(s, key, call)
    ensures ReadyTracked(DoRemote(s, key, call))
  {
    var s1 := s.(pending := s.pending - 1, regs := s.regs - {key});
    ReadySame(s, s1);
    if call.RemoteFire? {
      ReadyPush(s1, Entry(s.regs[key], ANY));
    } else {
      ReadySame(s, DoRemote(s, key, call));
    }
  }

  /** They drop no wake-up of a READY fiber. */
  lemma OtherCarries(s: State, step: Step)
    requires Inv(s) && Enabled(s, step) && ByWorker(step)
    requires Apply(s, step).queue == s.queue && Apply(s, step).fibers == s.fibers
    requires !step.StartTask? && !step.Settle? && !step.Switch? && !step.Schedule?
    ensures OnlyWorker(s, Apply(s, step), step.t)
    ensures forall f | f in s.fibers && s.fibers[f].state == READY && Carries(s.fibers, s.workers[step.t], f) ::
      Carries(s.fibers, Apply(s, step).workers[step.t], f)
  {
    assert WorkerOk(s, s.workers[step.t]);
    if IsIo(step) {
      IoWorkers(s, step);
      IoCarries(s, Apply(s, step), step.t);
    }
  }

  /** A step in the registry changes nothing of the workers but what one of them has in flight. */
  lemma IoWorkers(s: State, step: Step)
    requires Enabled(s, step) && IsIo(step)
    ensures Apply(s, step).workers == s.workers[step.t := s.workers[step.t].(io := Apply(s, step).workers[step.t].io)]
  {
  }

  lemma IoCarries(s: State, s': State, t: ThreadId)
    requires t in s.workers && WorkerOk(s, s.workers[t]) && t in s'.workers
    requires s'.workers == s.workers[t := s.workers[t].(io := s'.workers[t].io)]
    ensures OnlyWorker(s, s', t)
    ensures forall f | f in s.fibers && s.fibers[f].state == READY && Carries(s.fibers, s.workers[t], f) ::
      Carries(s.fibers, s'.workers[t], f)
  {
  }

  lemma ReadyOther(s: State, step: Step)
    requires Inv(s) && ReadyTracked(s) && Enabled(s, step) && ByWorker(step)
    requires Apply(s, step).queue == s.queue && Apply(s, step).fibers == s.fibers
    requires !step.StartTask? && !step.Settle? && !step.Switch? && !step.Schedule?
    ensures ReadyTracked(Apply(s, step))
  {
    OtherCarries(s, step);
    ReadyMove(s, Apply(s, step), step.t);
  }

  // ---- drain safety ------------------------------------------------------------------------------------

  /** Worker w may still scan the queue. */
  predicate WillScan(w: Worker) { !w.pc.Exited? && !(w.pc.EmptyHand? && w.idleTerm) }

  predicate HasUnpinned(s: State) { exists e | e in s.queue :: e.thread == ANY }

  predicate Drainable(s: State) {
    && (exists t :: t in s.workers)
    && (HasUnpinned(s) ==> exists t | t in s.workers :: WillScan(s.workers[t]))
  }

  /** A scan that takes nothing leaves behind only pinned entries and fibers that another worker is running. */
  lemma EmptyScanLeavesWork(s: State, t: ThreadId)
    requires Inv(s) && Enabled(s, ScanQueue(t)) && HasUnpinned(s)
    requires FirstEligible(s.queue, s.fibers, t, 0) == |s.queue|
    ensures exists u | u in s.workers && u != t :: WillScan(s.workers[u])
  {
    var e :| e in s.queue && e.thread == ANY;
    assert !Eligible(s.fibers, t, e);
    var u :| u in s.workers && s.workers[u].pc.Running? && s.workers[u].pc.f == e.task.fiber;
    assert WillScan(s.workers[u]);
  }

  /** A worker that takes any other step than these two is still in the loop. */
  lemma StaysInLoop(s: State, step: Step)
    requires Enabled(s, step) && ByWorker(step) && !step.ScanQueue? && !step.Leave?
    requires IoShape(s, s.workers[step.t])
    ensures WillScan(Apply(s, step).workers[step.t])
  {
    if IsIo(step) {
      IoWorkers(s, step);
    } else if step.IdleCheck? || step.PendingCheck? || step.IdleYield? {
      IdleStaysInLoop(s, step);
    } else {
      TaskStaysInLoop(s, step);
    }
  }

  lemma IdleStaysInLoop(s: State, step: Step)
    requires Enabled(s, step) && (step.IdleCheck? || step.PendingCheck? || step.IdleYield?)
    ensures WillScan(Apply(s, step).workers[step.t])
  {
  }

  lemma TaskStaysInLoop(s: State, step: Step)
    requires Enabled(s, step) && (step.StartTask? || step.Schedule? || step.Switch? || step.Decrement? || step.Settle?)
    ensures WillScan(Apply(s, step).workers[step.t])
  {
    match step
    case StartTask(t, newId) => StartStaysInLoop(s, t, newId);
    case Settle(t) => assert Apply(s, step) == DoSettle(s, t);
    case _ =>
  }

  lemma StartStaysInLoop(s: State, t: ThreadId, newId: FiberId)
    requires t in s.workers && s.workers[t].pc.InHand?
    ensures WillScan(DoStart(s, t, newId).workers[t])
  {
  }

  lemma ExternalDrainable(s: State, e: Entry)
    requires WorkersOk(s) && (exists t :: t in s.workers) && !s.autoStop
    ensures Drainable(Push(s, e))
  {
    var t :| t in s.workers;
    assert WorkerOk(s, s.workers[t]);
    assert WillScan(Push(s, e).workers[t]);
  }

  lemma RemoteDrainable(s: State, key: Key, call: RemoteCall)
    requires WorkersOk(s) && Drainable(s) && !s.autoStop && RemoteEnabled(s, key, call)
    ensures Drainable(DoRemote(s, key, call))
  {
    var t :| t in s.workers;
    assert WorkerOk(s, s.workers[t]);
    assert WillScan(DoRemote(s, key, call).workers[t]);
  }

  lemma LeaveDrainable(s: State, t: ThreadId)
    requires Drainable(s) && Enabled(s, Leave(t))
    ensures Drainable(DoLeave(s, t))
  {
    if HasUnpinned(s) {
      var u :| u in s.workers && WillScan(s.workers[u]);
      assert WillScan(DoLeave(s, t).workers[u]);
    }
  }

  lemma ScanDrainable(s: State, t: ThreadId)
    requires Inv(s) && Drainable(s) && Enabled(s, ScanQueue(t))
    ensures Drainable(DoScan(s, t))
  {
    if FirstEligible(s.queue, s.fibers, t, 0) < |s.queue| {
      assert WillScan(DoScan(s, t).workers[t]);
    } else if HasUnpinned(s) {
      EmptyScanLeavesWork(s, t);
    }
  }

  lemma DrainableKeeps(s: State, step: Step)
    requires Inv(s) && Drainable(s) && Enabled(s, step) && WakeDiscipline(s, step)
    ensures Drainable(Apply(s, step))
  {
    if step.ScanQueue? {
      ScanDrainable(s, step.t);
    } else if step.Leave? {
      LeaveDrainable(s, step.t);
    } else if ByWorker(step) {
      assert WorkerOk(s, s.workers[step.t]);
      StaysInLoop(s, step);
    } else {
      OutsideDrainable(s, step);
    }
  }

  lemma OutsideDrainable(s: State, step: Step)
    requires WorkersOk(s) && Drainable(s) && Enabled(s, step) && WakeDiscipline(s, step) && !ByWorker(step)
    ensures Drainable(Apply(s, step))
  {
    match step
    case External(e) => ExternalDrainable(s, e);
    case Remote(key, call) => RemoteDrainable(s, key, call);
    case RequestStop =>
    case NewFiber(_, _) =>
  }

  lemma {:induction false} RunKeepsDrainable(s: State, steps: seq<Step>)
    requires Inv(s) && Drainable(s) && IsRun(s, steps) && IsDisciplined(s, steps)
    ensures Drainable(After(s, steps))
    decreases |steps|
  {
    if steps != [] {
      InvKeeps(s, steps[0]);
      DrainableKeeps(s, steps[0]);
      RunKeepsDrainable(Apply(s, steps[0]), steps[1..]);
    }
  }

  predicate AllExited(s: State) { forall t | t in s.workers :: s.workers[t].pc.Exited? }

  /** Once every worker has left `run`: nothing runs, nothing is counted, and only pinned entries are left behind. */
  lemma DrainSafety(s0: State, steps: seq<Step>)
    requires Initial(s0) && IsRun(s0, steps) && IsDisciplined(s0, steps) && AllExited(After(s0, steps))
    ensures
      var s := After(s0, steps);
      && (forall e | e in s.queue :: e.thread != ANY)
      && (forall f | f in s.fibers :: s.fibers[f].state != EXEC)
      && s.active == 0 && s.idle == 0
  {
    InitialInv(s0);
    RunKeepsInv(s0, steps);
    RunKeepsDrainable(s0, steps);
    var s := After(s0, steps);
    assert BusyThreads(s.workers) == {} && IdleThreads(s.workers) == {} by {
      assert forall t :: t !in BusyThreads(s.workers) && t !in IdleThreads(s.workers);
    }
  }
}
