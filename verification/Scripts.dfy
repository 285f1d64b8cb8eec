/**
 What the tasks of a caller-thread scheduler do, as finite scripts, and the books of a drain: which tasks are known, which
 are suspended with nobody to wake them, and how much has been performed.
 */
module Scripts {
  import opened Types

  /** What a task does, up to its end. */
  datatype Script =
    | Return
    | Raise
    | Yield(rest: Script)                            // yieldToReady
    | Suspend(rest: Script)                          // yieldToHold with no wake-up arranged
    | WakeSelf(rest: Script)                         // schedule(Fiber::getThis()), then yieldToHold
    | Spawn(child: Script, here: bool, rest: Script) // schedule(child), pinned to this thread or not
    | Wake(i: nat, here: bool, rest: Script)         // schedule the i-th suspended fiber, if there are so many

  /** The actions a script holds, those of its children included. */
  function Work(sc: Script): (w: nat)
    ensures w > 0
  {
    match sc
    case Return => 1
    case Raise => 1
    case Yield(rest) => 1 + Work(rest)
    case Suspend(rest) => 1 + Work(rest)
    case WakeSelf(rest) => 1 + Work(rest)
    case Spawn(child, _, rest) => 1 + Work(child) + Work(rest)
    case Wake(_, _, rest) => 1 + Work(rest)
  }

  /** The state in which the fiber leaves its thread, after the calls the script starts with. */
  function Leaves(sc: Script): FiberState {
    match sc
    case Return => TERM
    case Raise => EXCEPT
    case Yield(_) => READY
    case Suspend(_) => HOLD
    case WakeSelf(_) => HOLD
    case Spawn(_, _, rest) => Leaves(rest)
    case Wake(_, _, rest) => Leaves(rest)
  }

  /** What is then left of the script. */
  function Remaining(sc: Script): Option<Script> {
    match sc
    case Return => None
    case Raise => None
    case Yield(rest) => Some(rest)
    case Suspend(rest) => Some(rest)
    case WakeSelf(rest) => Some(rest)
    case Spawn(_, _, rest) => Remaining(rest)
    case Wake(_, _, rest) => Remaining(rest)
  }

  /** Neither the script nor a child of it suspends without a wake-up. */
  predicate Awake(sc: Script) {
    match sc
    case Return => true
    case Raise => true
    case Yield(rest) => Awake(rest)
    case Suspend(_) => false
    case WakeSelf(rest) => Awake(rest)
    case Spawn(child, _, rest) => Awake(child) && Awake(rest)
    case Wake(_, _, rest) => Awake(rest)
  }

  function TasksWork(tasks: seq<Script>): nat {
    if tasks == [] then 0 else TasksWork(tasks[..|tasks| - 1]) + Work(tasks[|tasks| - 1])
  }

  /**
   What is known of the tasks: the scripts of callbacks, what fibers have left to do, the fibers suspended with nobody to
   wake them, the next callback; how many tasks were made, how many have ended, how many actions were performed.
   */
  datatype Books = Books(
    scripts: map<Callback, Script>, conts: map<FiberId, Script>, asleep: seq<FiberId>, nextCb: Callback,
    made: nat, ended: nat, performed: nat)

  /** The script of an entry is known. */
  predicate Scripted(e: Entry, b: Books) {
    match e.task
    case Call(cb) => cb in b.scripts
    case Fib(f) => f in b.conts
  }

  function ScriptOf(e: Entry, b: Books): Script
    requires Scripted(e, b)
  {
    match e.task
    case Call(cb) => b.scripts[cb]
    case Fib(f) => b.conts[f]
  }

  predicate Covered(q: seq<Entry>, b: Books) {
    && (forall e | e in q :: Scripted(e, b))
    && Known(b.asleep, b.conts)
    && (forall cb | cb in b.scripts :: cb < b.nextCb)
  }

  /** The work still queued. */
  function QueueWork(q: seq<Entry>, b: Books): nat
    requires forall e | e in q :: Scripted(e, b)
  {
    if q == [] then 0 else Work(ScriptOf(q[0], b)) + QueueWork(q[1..], b)
  }

  predicate Known(fibers: seq<FiberId>, conts: map<FiberId, Script>) {
    forall i | 0 <= i < |fibers| :: fibers[i] in conts
  }

  /** The work of suspended fibers. */
  function SleepWork(asleep: seq<FiberId>, conts: map<FiberId, Script>): nat
    requires Known(asleep, conts)
  {
    if asleep == [] then 0 else Work(conts[asleep[0]]) + SleepWork(asleep[1..], conts)
  }

  /** Actions performed, queued and asleep. */
  function Account(q: seq<Entry>, b: Books): nat
    requires Covered(q, b)
  {
    b.performed + QueueWork(q, b) + SleepWork(b.asleep, b.conts)
  }

  /** Tasks that are neither queued, nor ended, nor asleep. */
  function Open(q: seq<Entry>, b: Books): int { b.made - |q| - b.ended - |b.asleep| }

  /** No known task suspends without a wake-up, and none has. */
  predicate AllAwake(b: Books) {
    && b.asleep == []
    && (forall cb | cb in b.scripts :: Awake(b.scripts[cb]))
    && (forall f | f in b.conts :: Awake(b.conts[f]))
  }

  // ---- the actions on the books ---------------------------------------------------------------------------

  function Spawned(b: Books, child: Script): Books {
    b.(scripts := b.scripts[b.nextCb := child], nextCb := b.nextCb + 1, made := b.made + 1, performed := b.performed + 1)
  }

  function Woken(b: Books, i: nat): Books
    requires i < |b.asleep|
  {
    b.(asleep := b.asleep[..i] + b.asleep[i + 1..], performed := b.performed + 1)
  }

  /** An action that finds nothing to do. */
  function Idled(b: Books): Books { b.(performed := b.performed + 1) }

  /** Fiber f leaves its thread with rest to do, and will be queued. */
  function Kept(b: Books, f: FiberId, rest: Script): Books {
    b.(conts := b.conts[f := rest], performed := b.performed + 1)
  }

  /** Fiber f leaves its thread with rest to do, and nobody will wake it. */
  function Slept(b: Books, f: FiberId, rest: Script): Books {
    b.(conts := b.conts[f := rest], asleep := b.asleep + [f], performed := b.performed + 1)
  }

  function Finished(b: Books): Books { b.(ended := b.ended + 1, performed := b.performed + 1) }

  // ---- accounting -----------------------------------------------------------------------------------------

  lemma {:induction false} QueueWorkPush(q: seq<Entry>, e: Entry, b: Books)
    requires forall x | x in q + [e] :: Scripted(x, b)
    ensures QueueWork(q + [e], b) == QueueWork(q, b) + Work(ScriptOf(e, b))
  {
    if q == [] {
      assert q + [e] == [e];
    } else {
      assert (q + [e])[1..] == q[1..] + [e];
      QueueWorkPush(q[1..], e, b);
    }
  }

  /** Scripts of tasks that are not queued do not matter. */
  lemma {:induction false} QueueWorkSame(q: seq<Entry>, b: Books, b': Books)
    requires forall e | e in q :: Scripted(e, b) && Scripted(e, b') && ScriptOf(e, b) == ScriptOf(e, b')
    ensures QueueWork(q, b) == QueueWork(q, b')
  {
    if q != [] {
      QueueWorkSame(q[1..], b, b');
    }
  }

  lemma {:induction false} SleepWorkSame(asleep: seq<FiberId>, conts: map<FiberId, Script>, conts': map<FiberId, Script>)
    requires Known(asleep, conts) && Known(asleep, conts') && forall i | 0 <= i < |asleep| :: conts[asleep[i]] == conts'[asleep[i]]
    ensures SleepWork(asleep, conts) == SleepWork(asleep, conts')
  {
    if asleep != [] {
      SleepWorkSame(asleep[1..], conts, conts');
    }
  }

  lemma {:induction false} SleepWorkConcat(a: seq<FiberId>, c: seq<FiberId>, conts: map<FiberId, Script>)
    requires Known(a, conts) && Known(c, conts)
    ensures SleepWork(a + c, conts) == SleepWork(a, conts) + SleepWork(c, conts)
  {
    if a == [] {
      assert a + c == c;
    } else {
      assert (a + c)[1..] == a[1..] + c;
      SleepWorkConcat(a[1..], c, conts);
    }
  }

  /** Dequeuing puts the entry's work into the worker's hand. */
  lemma TakeAccount(q: seq<Entry>, b: Books)
    requires Covered(q, b) && q != []
    ensures Scripted(q[0], b) && Covered(q[1..], b)
    ensures Account(q[1..], b) + Work(ScriptOf(q[0], b)) == Account(q, b) && Open(q[1..], b) == Open(q, b) + 1
    ensures AllAwake(b) ==> Awake(ScriptOf(q[0], b))
  {
    assert q[0] in q && forall e | e in q[1..] :: e in q;
  }

  lemma SpawnAccount(q: seq<Entry>, b: Books, child: Script, thread: ThreadId)
    requires Covered(q, b)
    ensures
      var q', b' := q + [Entry(Call(b.nextCb), thread)], Spawned(b, child);
      && Covered(q', b') && Account(q', b') == Account(q, b) + 1 + Work(child) && Open(q', b') == Open(q, b)
      && (AllAwake(b) && Awake(child) ==> AllAwake(b'))
  {
    var e, b' := Entry(Call(b.nextCb), thread), Spawned(b, child);
    assert forall x | x in q :: Scripted(x, b);
    QueueWorkSame(q, b, b');
    QueueWorkPush(q, e, b');
  }

  lemma WakeAccount(q: seq<Entry>, b: Books, i: nat, thread: ThreadId)
    requires Covered(q, b) && i < |b.asleep|
    ensures
      var q', b' := q + [Entry(Fib(b.asleep[i]), thread)], Woken(b, i);
      && Covered(q', b') && Account(q', b') == Account(q, b) + 1 && Open(q', b') == Open(q, b)
  {
    var f, b' := b.asleep[i], Woken(b, i);
    QueueWorkSame(q, b, b');
    QueueWorkPush(q, Entry(Fib(f), thread), b');
    WokenWork(b.asleep, i, b.conts);
  }

  lemma WokenWork(asleep: seq<FiberId>, i: nat, conts: map<FiberId, Script>)
    requires i < |asleep| && Known(asleep, conts)
    ensures Known(asleep[..i] + asleep[i + 1..], conts)
    ensures SleepWork(asleep, conts) == SleepWork(asleep[..i] + asleep[i + 1..], conts) + Work(conts[asleep[i]])
  {
    var a, c := asleep[..i], asleep[i + 1..];
    assert asleep == a + ([asleep[i]] + c) && Known(a, conts) && Known(c, conts);
    SleepWorkConcat(a, [asleep[i]] + c, conts);
    SleepWorkConcat(a, c, conts);
    SleepWorkConcat([asleep[i]], c, conts);
    assert SleepWork([asleep[i]], conts) == Work(conts[asleep[i]]);
  }

  lemma KeepAccount(q: seq<Entry>, b: Books, f: FiberId, rest: Script)
    requires Covered(q, b) && f !in b.asleep && forall e | e in q :: e.task != Fib(f)
    ensures
      var b' := Kept(b, f, rest);
      && Covered(q, b') && Account(q, b') == Account(q, b) + 1 && Open(q, b') == Open(q, b)
      && (AllAwake(b) && Awake(rest) ==> AllAwake(b'))
  {
    var b' := Kept(b, f, rest);
    QueueWorkSame(q, b, b');
    SleepWorkSame(b.asleep, b.conts, b'.conts);
  }

  /** A fiber whose rest is kept joins the queue. */
  lemma RequeueAccount(q: seq<Entry>, b: Books, f: FiberId)
    requires Covered(q, b) && f in b.conts
    ensures
      var q' := q + [Entry(Fib(f), ANY)];
      Covered(q', b) && Account(q', b) == Account(q, b) + Work(b.conts[f]) && Open(q', b) == Open(q, b) - 1
  {
    QueueWorkPush(q, Entry(Fib(f), ANY), b);
  }

  lemma SleepAccount(q: seq<Entry>, b: Books, f: FiberId, rest: Script)
    requires Covered(q, b) && f !in b.asleep && forall e | e in q :: e.task != Fib(f)
    ensures
      var b' := Slept(b, f, rest);
      Covered(q, b') && Account(q, b') == Account(q, b) + 1 + Work(rest) && Open(q, b') == Open(q, b) - 1
  {
    var b1, b' := Kept(b, f, rest), Slept(b, f, rest);
    KeepAccount(q, b, f, rest);
    QueueWorkSame(q, b1, b');
    SleepWorkConcat(b.asleep, [f], b'.conts);
    assert SleepWork([f], b'.conts) == Work(rest);
  }

  lemma FinishAccount(q: seq<Entry>, b: Books)
    requires Covered(q, b)
    ensures
      var b' := Finished(b);
      && Covered(q, b') && Account(q, b') == Account(q, b) + 1 && Open(q, b') == Open(q, b) - 1
      && (AllAwake(b) ==> AllAwake(b'))
  {
    QueueWorkSame(q, b, Finished(b));
  }

  lemma IdleAccount(q: seq<Entry>, b: Books)
    requires Covered(q, b)
    ensures
      var b' := Idled(b);
      && Covered(q, b') && Account(q, b') == Account(q, b) + 1 && Open(q, b') == Open(q, b)
      && (AllAwake(b) ==> AllAwake(b'))
  {
    QueueWorkSame(q, b, Idled(b));
  }
}
