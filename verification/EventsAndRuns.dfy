/**
 Runs of the scheduler protocol and runs of the registry: the registry steps of any disciplined run, of any number of
 threads, are a run of `IOManager`'s operations on one table, which the protocol's registrations and pending count describe.
 */
module EventsAndRuns {
  import opened Types
  import P = Protocol
  import O = Ownership
  import opened Executions
  import S = Shutdown
  import opened Registry
  import L = Lifecycle

  /** The registrations of the protocol are those of the table, on this scheduler. */
  ghost predicate SameRegs(regs: map<Key, Task>, r: Registry, self: SchedulerId) {
    forall key: Key :: HeldAt(r.ctxs, key.fd, key.write) == RegsAt(regs, key, self)
  }

  function RegsAt(regs: map<Key, Task>, key: Key, self: SchedulerId): seq<Reg> {
    if key in regs then [Reg(self, regs[key])] else []
  }

  /** The registry's count is the protocol's, but for the operations of the protocol between count and bit. */
  predicate SameCount(s: P.State, r: Registry) { r.pending == |s.regs| - O.Uncounted(s) }

  /** A state of the protocol, with any operations in flight, and a registry of its scheduler say the same. */
  ghost predicate Agrees(s: P.State, r: Registry, self: SchedulerId) {
    Sound(r) && SameCount(s, r) && SameRegs(s.regs, r, self)
  }

  // ---- one registration ---------------------------------------------------------------------------------

  lemma RegsChange(a: seq<Ctx>, b: seq<Ctx>, regs: map<Key, Task>, regs': map<Key, Task>, self: SchedulerId, key: Key)
    requires L.OnlyAt(a, b, key.fd, key.write) && HeldAt(b, key.fd, key.write) == RegsAt(regs', key, self)
    requires forall k: Key :: HeldAt(a, k.fd, k.write) == RegsAt(regs, k, self)
    requires forall k: Key :: k != key ==> RegsAt(regs', k, self) == RegsAt(regs, k, self)
    ensures forall k: Key :: HeldAt(b, k.fd, k.write) == RegsAt(regs', k, self)
  {
    forall k: Key
      ensures HeldAt(b, k.fd, k.write) == RegsAt(regs', k, self)
    {
      assert k == key || !(k.fd == key.fd && k.write == key.write);
    }
  }

  lemma Counted(more: Registry, less: Registry, reg: Reg)
    requires Drift(more) == Drift(less) && Held(more.ctxs) == Held(less.ctxs) + multiset{reg}
    ensures more.pending == less.pending + 1
  {
  }

  /** What was delivered is no longer counted. */
  lemma OneFewer(r: Registry, r': Registry, out: seq<Reg>)
    requires L.Conserved(r, r') && r'.out == r.out + out
    ensures r'.pending == r.pending - |out|
  {
    assert |Held(r'.ctxs) + multiset(r'.out)| == |Held(r.ctxs) + multiset(r.out)|;
  }

  lemma AddHeld(r: Registry, key: Key, reg: Reg)
    requires Sound(r) && HeldAt(r.ctxs, key.fd, key.write) == []
    ensures key.fd < |Grow(r.ctxs, key.fd)|
    ensures
      var o := AddEvent(r, key.fd, key.write, reg.scheduler, reg.task, true);
      && o.ret == 0 && Sound(o.r) && o.r.pending == r.pending + 1 && o.r.out == r.out
      && L.OnlyAt(r.ctxs, o.r.ctxs, key.fd, key.write) && HeldAt(o.r.ctxs, key.fd, key.write) == [reg]
  {
    L.AddEventExact(r, key.fd, key.write, reg.scheduler, reg.task, true);
    Counted(AddEvent(r, key.fd, key.write, reg.scheduler, reg.task, true).r, r, reg);
  }

  lemma AddRegs(regs: map<Key, Task>, r: Registry, self: SchedulerId, key: Key, task: Task)
    requires Sound(r) && SameRegs(regs, r, self) && key !in regs
    ensures key.fd < |Grow(r.ctxs, key.fd)|
    ensures
      var o := AddEvent(r, key.fd, key.write, self, task, true);
      o.ret == 0 && Sound(o.r) && o.r.pending == r.pending + 1 && o.r.out == r.out && SameRegs(regs[key := task], o.r, self)
  {
    assert HeldAt(r.ctxs, key.fd, key.write) == RegsAt(regs, key, self);
    AddHeld(r, key, Reg(self, task));
    RegsChange(r.ctxs, AddEvent(r, key.fd, key.write, self, task, true).r.ctxs, regs, regs[key := task], self, key);
  }

  lemma DelHeld(r: Registry, key: Key, reg: Reg)
    requires Sound(r) && HeldAt(r.ctxs, key.fd, key.write) == [reg]
    ensures
      var o := DelEvent(r, key.fd, key.write, true);
      && o.ret == 1 && Sound(o.r) && o.r.pending == r.pending - 1 && o.r.out == r.out
      && L.OnlyAt(r.ctxs, o.r.ctxs, key.fd, key.write) && HeldAt(o.r.ctxs, key.fd, key.write) == []
  {
    L.DelEventExact(r, key.fd, key.write, true);
    L.BothOrNone(r, key.fd, key.write);
    assert multiset([reg]) == multiset{reg};
    Counted(r, DelEvent(r, key.fd, key.write, true).r, reg);
  }

  lemma DelRegs(regs: map<Key, Task>, r: Registry, self: SchedulerId, key: Key)
    requires Sound(r) && SameRegs(regs, r, self) && key in regs
    ensures
      var o := DelEvent(r, key.fd, key.write, true);
      && o.ret == 1 && Sound(o.r) && o.r.pending == r.pending - 1 && o.r.out == r.out && SameRegs(regs - {key}, o.r, self)
      && !L.Miscounts(r, L.Del(key.fd, key.write, true))
  {
    assert HeldAt(r.ctxs, key.fd, key.write) == RegsAt(regs, key, self);
    DelHeld(r, key, Reg(self, regs[key]));
    RegsChange(r.ctxs, DelEvent(r, key.fd, key.write, true).r.ctxs, regs, regs - {key}, self, key);
  }

  /** delEvent of the event that is not registered changes the count and nothing else. */
  lemma DelOtherRegs(regs: map<Key, Task>, r: Registry, self: SchedulerId, key: Key)
    requires Sound(r) && SameRegs(regs, r, self) && key !in regs && P.Other(key) in regs
    ensures
      var o := DelEvent(r, key.fd, key.write, true);
      && o.ret == 1 && Sound(o.r) && o.r.pending == r.pending - 1 && o.r.out == r.out && SameRegs(regs, o.r, self)
      && L.Miscounts(r, L.Del(key.fd, key.write, true))
  {
    var other := P.Other(key);
    assert HeldAt(r.ctxs, key.fd, key.write) == RegsAt(regs, key, self);
    assert HeldAt(r.ctxs, other.fd, other.write) == RegsAt(regs, other, self);
    L.DelEventExact(r, key.fd, key.write, true);
    L.BothOrNone(r, key.fd, key.write);
    NoneDropped(r, DelEvent(r, key.fd, key.write, true).r);
    RegsChange(r.ctxs, DelEvent(r, key.fd, key.write, true).r.ctxs, regs, regs, self, key);
  }

  lemma NoneDropped(r: Registry, r': Registry)
    requires Held(r.ctxs) == Held(r'.ctxs) + multiset([]) && Drift(r') == Drift(r) + 1
    ensures r'.pending == r.pending - 1
  {
    assert Held(r'.ctxs) + multiset([]) == Held(r'.ctxs);
  }

  /** The entry epoll reports for one event that is ready. */
  function ReadyFor(key: Key): Ready { Ready(key.fd, Bit(key.write), true) }

  lemma ReadyForBits(key: Key)
    ensures RealEvents(Bit(key.write)) == Bit(key.write) && Has(Bit(key.write), key.write) && !Has(Bit(key.write), !key.write)
  {
  }

  lemma ReportRegs(regs: map<Key, Task>, r: Registry, self: SchedulerId, key: Key)
    requires Sound(r) && SameRegs(regs, r, self) && key in regs
    ensures key.fd < |r.ctxs|
    ensures
      var r' := DispatchOne(r, ReadyFor(key));
      && Sound(r') && r'.pending == r.pending - 1 && SameRegs(regs - {key}, r', self)
      && r'.out == r.out + [Reg(self, regs[key])]
  {
    assert HeldAt(r.ctxs, key.fd, key.write) == RegsAt(regs, key, self);
    var e, r' := ReadyFor(key), DispatchOne(r, ReadyFor(key));
    ReadyForBits(key);
    OneReported(r, key);
    L.DispatchExact(r, e);
    OneFewer(r, r', [Reg(self, regs[key])]);
    ReportOnlyAt(r, r', key);
    RegsChange(r.ctxs, r'.ctxs, regs, regs - {key}, self, key);
  }

  lemma OneReported(r: Registry, key: Key)
    requires key.fd < |r.ctxs| && HeldAt(r.ctxs, key.fd, key.write) != []
    ensures L.Covered(r, ReadyFor(key)) && L.Reported(r, ReadyFor(key)) == HeldAt(r.ctxs, key.fd, key.write)
  {
    ReadyForBits(key);
    assert forall w | w in {false, true} && Has(Bit(key.write), w) :: w == key.write;
  }

  lemma ReportOnlyAt(r: Registry, r': Registry, key: Key)
    requires L.OnlyOf(r.ctxs, r'.ctxs, key.fd)
    requires HeldAt(r.ctxs, key.fd, key.write) != []
    requires forall w :: HeldAt(r'.ctxs, key.fd, w) == L.If(!L.Tried(r.ctxs, key.fd, Bit(key.write), w), HeldAt(r.ctxs, key.fd, w))
    ensures L.OnlyAt(r.ctxs, r'.ctxs, key.fd, key.write) && HeldAt(r'.ctxs, key.fd, key.write) == []
  {
    ReadyForBits(key);
    forall f: nat, w
      ensures (f == key.fd && w == key.write) || HeldAt(r'.ctxs, f, w) == HeldAt(r.ctxs, f, w)
    {
      if f == key.fd && w != key.write { assert w == !key.write; }
    }
  }

  // ---- the steps of the protocol, whatever else is in flight ----------------------------------------------

  /** The states still agree when the registrations changed alike and the counts by as much. */
  lemma AgreesAfter(s: P.State, step: P.Step, r: Registry, r': Registry, self: SchedulerId)
    requires O.Inv(s) && P.Enabled(s, step) && O.WakeDiscipline(s, step) && O.Handover(s, step)
    requires SameCount(s, r) && Sound(r') && SameRegs(P.Apply(s, step).regs, r', self)
    requires r'.pending == r.pending + |P.Apply(s, step).regs| - |s.regs| - O.One(O.Miscounts(s, step))
    ensures Agrees(P.Apply(s, step), r', self)
  {
    O.InvKeeps(s, step);
  }

  lemma DelCommitRegs(s: P.State, t: ThreadId)
    requires P.Enabled(s, P.DelCommit(t))
    ensures P.Apply(s, P.DelCommit(t)).regs == s.regs - {s.workers[t].io.key}
    ensures O.Inv(s) ==> s.workers[t].io.key in s.regs
  {
    assert O.Inv(s) ==> O.WorkerOk(s, s.workers[t]);
  }

  lemma RemoteDelIs(s: P.State, key: Key)
    requires P.Enabled(s, P.Remote(key, P.RemoteDel))
    ensures P.Apply(s, P.Remote(key, P.RemoteDel)).regs == s.regs - {key}
    ensures key in s.regs || P.Other(key) in s.regs
    ensures |s.regs - {key}| == |s.regs| - O.One(key in s.regs)
    ensures O.Miscounts(s, P.Remote(key, P.RemoteDel)) <==> key !in s.regs
  {
    O.RegsSize(s.regs, key, Call(0));
    assert key !in s.regs ==> s.regs - {key} == s.regs;
  }

  /** Writing bit and slot is addEvent. */
  lemma AddRefines(s: P.State, r: Registry, self: SchedulerId, t: ThreadId)
    requires O.Inv(s) && Agrees(s, r, self) && P.Enabled(s, P.AddCommit(t))
    ensures
      var Adding(key, task) := s.workers[t].io;
      key.fd < |Grow(r.ctxs, key.fd)|
      && var o := AddEvent(r, key.fd, key.write, self, task, true);
      o.ret == 0 && Agrees(P.Apply(s, P.AddCommit(t)), o.r, self) && o.r.out == r.out
  {
    var Adding(key, task) := s.workers[t].io;
    assert O.WorkerOk(s, s.workers[t]);
    AddRegs(s.regs, r, self, key, task);
    O.RegsSize(s.regs, key, task);
    AgreesAfter(s, P.AddCommit(t), r, AddEvent(r, key.fd, key.write, self, task, true).r, self);
  }

  /** Clearing bit and slot is delEvent. */
  lemma DelRefines(s: P.State, r: Registry, self: SchedulerId, t: ThreadId, key: Key)
    requires O.Inv(s) && Agrees(s, r, self) && P.Enabled(s, P.DelCommit(t)) && s.workers[t].io.key == key
    ensures
      var o := DelEvent(r, key.fd, key.write, true);
      && o.ret == 1 && Agrees(P.Apply(s, P.DelCommit(t)), o.r, self) && o.r.out == r.out
      && !L.Miscounts(r, L.Del(key.fd, key.write, true))
  {
    DelCommitRegs(s, t);
    DelRegs(s.regs, r, self, key);
    O.RegsSize(s.regs, key, Call(0));
    AgreesAfter(s, P.DelCommit(t), r, DelEvent(r, key.fd, key.write, true).r, self);
  }

  /** Uncounting an event that is not registered is delEvent of it. */
  lemma DelOtherRefines(s: P.State, r: Registry, self: SchedulerId, t: ThreadId, key: Key)
    requires O.Inv(s) && Agrees(s, r, self) && P.Enabled(s, P.DelOther(t, key))
    ensures
      var o := DelEvent(r, key.fd, key.write, true);
      && o.ret == 1 && Agrees(P.Apply(s, P.DelOther(t, key)), o.r, self) && o.r.out == r.out
      && L.Miscounts(r, L.Del(key.fd, key.write, true))
  {
    DelOtherRegs(s.regs, r, self, key);
    AgreesAfter(s, P.DelOther(t, key), r, DelEvent(r, key.fd, key.write, true).r, self);
  }

  /** Clearing a bit and scheduling its payload is what the dispatch loop does with the event reported alone. */
  lemma TriggerRefines(s: P.State, r: Registry, self: SchedulerId, t: ThreadId, key: Key)
    requires O.Inv(s) && Agrees(s, r, self) && P.Enabled(s, P.FireBegin(t, key))
    ensures
      var r' := DispatchOne(r, ReadyFor(key));
      var s' := P.Apply(s, P.FireBegin(t, key));
      && key.fd < |r.ctxs| && Agrees(s', r', self)
      && r'.out == r.out + [Reg(self, s.regs[key])] && s'.queue == s.queue + [Entry(s.regs[key], ANY)]
  {
    ReportRegs(s.regs, r, self, key);
    O.RegsSize(s.regs, key, Call(0));
    AgreesAfter(s, P.FireBegin(t, key), r, DispatchOne(r, ReadyFor(key)), self);
  }

  /** It is also what cancelEvent does, when the other event is not registered. */
  lemma CancelRefines(s: P.State, r: Registry, self: SchedulerId, t: ThreadId, key: Key)
    requires O.Inv(s) && Agrees(s, r, self) && P.Enabled(s, P.FireBegin(t, key)) && P.Other(key) !in s.regs
    ensures
      var o := CancelEvent(r, key.fd, key.write, true);
      var s' := P.Apply(s, P.FireBegin(t, key));
      && o.ret == 1 && Agrees(s', o.r, self)
      && o.r.out == r.out + [Reg(self, s.regs[key])] && s'.queue == s.queue + [Entry(s.regs[key], ANY)]
  {
    CancelRegs(s.regs, r, self, key);
    O.RegsSize(s.regs, key, Call(0));
    AgreesAfter(s, P.FireBegin(t, key), r, CancelEvent(r, key.fd, key.write, true).r, self);
  }

  lemma CancelRegs(regs: map<Key, Task>, r: Registry, self: SchedulerId, key: Key)
    requires Sound(r) && SameRegs(regs, r, self) && key in regs && P.Other(key) !in regs
    ensures
      var o := CancelEvent(r, key.fd, key.write, true);
      && o.ret == 1 && Sound(o.r) && o.r.pending == r.pending - 1 && SameRegs(regs - {key}, o.r, self)
      && o.r.out == r.out + [Reg(self, regs[key])]
  {
    var other := P.Other(key);
    assert HeldAt(r.ctxs, key.fd, key.write) == RegsAt(regs, key, self);
    assert HeldAt(r.ctxs, other.fd, other.write) == RegsAt(regs, other, self);
    L.CancelEventExact(r, key.fd, key.write, true);
    var r' := CancelEvent(r, key.fd, key.write, true).r;
    OneFewer(r, r', HeldAt(r.ctxs, key.fd, key.write));
    RegsChange(r.ctxs, r'.ctxs, regs, regs - {key}, self, key);
  }

  lemma RemoteAddRefines(s: P.State, r: Registry, self: SchedulerId, key: Key, cb: Callback)
    requires O.Inv(s) && Agrees(s, r, self) && P.Enabled(s, P.Remote(key, P.RemoteAdd(cb))) && !s.autoStop
    ensures
      var op := L.Add(key.fd, key.write, self, Call(cb), true);
      L.Legal(r, op) && var r' := L.Do(r, op).r;
      Agrees(P.Apply(s, P.Remote(key, P.RemoteAdd(cb))), r', self) && r'.out == r.out
  {
    O.RegsSize(s.regs, key, Call(cb));
    AddRegs(s.regs, r, self, key, Call(cb));
    AgreesAfter(s, P.Remote(key, P.RemoteAdd(cb)), r, AddEvent(r, key.fd, key.write, self, Call(cb), true).r, self);
  }

  lemma RemoteDelRefines(s: P.State, r: Registry, self: SchedulerId, key: Key)
    requires O.Inv(s) && Agrees(s, r, self) && P.Enabled(s, P.Remote(key, P.RemoteDel)) && !s.autoStop
    ensures
      var op := L.Del(key.fd, key.write, true);
      var r' := L.Do(r, op).r;
      Agrees(P.Apply(s, P.Remote(key, P.RemoteDel)), r', self) && r'.out == r.out && (L.Miscounts(r, op) <==> key !in s.regs)
  {
    RemoteDelIs(s, key);
    RemoteDelRegs(s.regs, r, self, key);
    AgreesAfter(s, P.Remote(key, P.RemoteDel), r, DelEvent(r, key.fd, key.write, true).r, self);
  }

  lemma RemoteFireRefines(s: P.State, r: Registry, self: SchedulerId, key: Key)
    requires O.Inv(s) && Agrees(s, r, self) && P.Enabled(s, P.Remote(key, P.RemoteFire)) && !s.autoStop
    ensures
      var op := L.Report(ReadyFor(key));
      L.Legal(r, op) && var r' := L.Do(r, op).r;
      Agrees(P.Apply(s, P.Remote(key, P.RemoteFire)), r', self) && r'.out == r.out + [Reg(self, s.regs[key])]
  {
    O.RegsSize(s.regs, key, Call(0));
    ReportRegs(s.regs, r, self, key);
    AgreesAfter(s, P.Remote(key, P.RemoteFire), r, DispatchOne(r, ReadyFor(key)), self);
  }

  lemma RemoteDelRegs(regs: map<Key, Task>, r: Registry, self: SchedulerId, key: Key)
    requires Sound(r) && SameRegs(regs, r, self) && (key in regs || P.Other(key) in regs)
    ensures
      var o := DelEvent(r, key.fd, key.write, true);
      && Sound(o.r) && o.r.pending == r.pending - 1 && o.r.out == r.out && SameRegs(regs - {key}, o.r, self)
      && (L.Miscounts(r, L.Del(key.fd, key.write, true)) <==> key !in regs)
  {
    assert HeldAt(r.ctxs, key.fd, key.write) == RegsAt(regs, key, self);
    if key in regs {
      DelRegs(regs, r, self, key);
    } else {
      DelOtherRegs(regs, r, self, key);
      assert regs - {key} == regs;
    }
  }

  // ---- runs ----------------------------------------------------------------------------------------------

  /**
   The operation of the registry that a step completes, if any.  A triggered event is given as the dispatch loop
   reports it, whichever call triggers it.
   */
  function OpsOf(s: P.State, step: P.Step, self: SchedulerId): seq<L.Op>
    requires P.Enabled(s, step)
  {
    match step
    case AddCommit(t) => var Adding(key, task) := s.workers[t].io; [L.Add(key.fd, key.write, self, task, true)]
    case DelCommit(t) => [L.Del(s.workers[t].io.key.fd, s.workers[t].io.key.write, true)]
    case DelOther(_, key) => [L.Del(key.fd, key.write, true)]
    case FireBegin(_, key) => [L.Report(ReadyFor(key))]
    case Remote(key, RemoteAdd(cb)) => [L.Add(key.fd, key.write, self, Call(cb), true)]
    case Remote(key, RemoteDel) => [L.Del(key.fd, key.write, true)]
    case Remote(key, RemoteFire) => [L.Report(ReadyFor(key))]
    case _ => []
  }

  /** What a step hands to the scheduler from the registry. */
  function Fired(s: P.State, step: P.Step, self: SchedulerId): seq<Reg>
    requires P.Enabled(s, step)
  {
    match step
    case FireBegin(_, key) => [Reg(self, s.regs[key])]
    case Remote(key, RemoteFire) => [Reg(self, s.regs[key])]
    case _ => []
  }

  function RunOps(s: P.State, steps: seq<P.Step>, self: SchedulerId): seq<L.Op>
    requires P.IsRun(s, steps)
    decreases |steps|
  {
    if steps == [] then [] else OpsOf(s, steps[0], self) + RunOps(P.Apply(s, steps[0]), steps[1..], self)
  }

  function RunFired(s: P.State, steps: seq<P.Step>, self: SchedulerId): seq<Reg>
    requires P.IsRun(s, steps)
    decreases |steps|
  {
    if steps == [] then [] else Fired(s, steps[0], self) + RunFired(P.Apply(s, steps[0]), steps[1..], self)
  }

  /** ops takes r to r', meeting its assertions, delivering out and miscounting missed times. */
  ghost predicate Leads(r: Registry, ops: seq<L.Op>, r': Registry, out: seq<Reg>, missed: int) {
    && L.IsRun(r, ops) && L.After(r, ops) == r' && L.AllAssert(r, ops)
    && r'.out == r.out + out && L.Miscounted(r, ops) == missed
  }

  lemma LeadsNowhere(r: Registry)
    ensures Leads(r, [], r, [], 0)
  {
  }

  lemma LeadsOne(r: Registry, op: L.Op, out: seq<Reg>)
    requires Sound(r) && L.Legal(r, op) && Sound(L.Do(r, op).r) && L.Do(r, op).r.out == r.out + out
    ensures Leads(r, [op], L.Do(r, op).r, out, O.One(L.Miscounts(r, op)))
  {
    L.StepSound(r, op);
    assert [op][1..] == [];
    assert L.IsRun(L.Do(r, op).r, []);
  }

  lemma LeadsOn(r: Registry, a: seq<L.Op>, r1: Registry, b: seq<L.Op>, r2: Registry, out1: seq<Reg>, out2: seq<Reg>, m1: int, m2: int)
    requires |a| <= 1 && Leads(r, a, r1, out1, m1) && Leads(r1, b, r2, out2, m2)
    ensures Leads(r, a + b, r2, out1 + out2, m1 + m2)
  {
    Associative(r.out, out1, out2);
    if a == [] {
      assert a + b == b;
    } else {
      assert (a + b)[1..] == b && a[1..] == [];
      var r0 := L.Do(r, a[0]).r;
      assert L.After(r0, []) == r0 && L.Miscounted(r0, []) == 0;
      assert r1 == r0;
      assert L.AllAssert(r0, b) && L.Asserts(r, a[0]);
    }
  }

  /** A step takes r to r' by the operation it completes, if any; n definitions away, to keep it out of sight. */
  ghost predicate Refines(n: nat, s: P.State, step: P.Step, r: Registry, r': Registry, self: SchedulerId)
    requires P.Enabled(s, step)
    decreases n
  {
    if n > 0 then Refines(n - 1, s, step, r, r', self)
    else
      && Agrees(P.Apply(s, step), r', self)
      && Leads(r, OpsOf(s, step, self), r', Fired(s, step, self), O.One(O.Miscounts(s, step)))
  }

  lemma {:induction false} RefinesIs(n: nat, s: P.State, step: P.Step, r: Registry, r': Registry, self: SchedulerId)
    requires P.Enabled(s, step)
    ensures Refines(n, s, step, r, r', self) <==>
      && Agrees(P.Apply(s, step), r', self)
      && Leads(r, OpsOf(s, step, self), r', Fired(s, step, self), O.One(O.Miscounts(s, step)))
    decreases n
  {
    if n > 0 { RefinesIs(n - 1, s, step, r, r', self); }
  }

  lemma DelLeads(r: Registry, key: Key, missed: bool)
    requires Sound(r) && L.Miscounts(r, L.Del(key.fd, key.write, true)) == missed
    requires Sound(DelEvent(r, key.fd, key.write, true).r) && DelEvent(r, key.fd, key.write, true).r.out == r.out
    ensures Leads(r, [L.Del(key.fd, key.write, true)], DelEvent(r, key.fd, key.write, true).r, [], O.One(missed))
  {
    assert r.out + [] == r.out;
    LeadsOne(r, L.Del(key.fd, key.write, true), []);
  }

  lemma AddStep(n: nat, s: P.State, r: Registry, self: SchedulerId, t: ThreadId) returns (r': Registry)
    requires O.Inv(s) && Agrees(s, r, self) && P.Enabled(s, P.AddCommit(t))
    ensures Refines(n, s, P.AddCommit(t), r, r', self)
  {
    AddRefines(s, r, self, t);
    var step := P.AddCommit(t);
    var op := OpsOf(s, step, self)[0];
    r' := L.Do(r, op).r;
    LeadsOne(r, op, Fired(s, step, self));
    assert OpsOf(s, step, self) == [op];
    RefinesIs(n, s, step, r, r', self);
  }

  lemma DelStepOps(s: P.State, self: SchedulerId, t: ThreadId, key: Key)
    requires P.Enabled(s, P.DelCommit(t)) && s.workers[t].io.key == key
    ensures OpsOf(s, P.DelCommit(t), self) == [L.Del(key.fd, key.write, true)] && Fired(s, P.DelCommit(t), self) == []
    ensures !O.Miscounts(s, P.DelCommit(t))
  {
  }

  lemma DelStep(n: nat, s: P.State, r: Registry, self: SchedulerId, t: ThreadId, key: Key) returns (r': Registry)
    requires O.Inv(s) && Agrees(s, r, self) && P.Enabled(s, P.DelCommit(t)) && s.workers[t].io.key == key
    ensures Refines(n, s, P.DelCommit(t), r, r', self)
  {
    DelRefines(s, r, self, t, key);
    r' := DelEvent(r, key.fd, key.write, true).r;
    DelLeads(r, key, false);
    DelStepOps(s, self, t, key);
    RefinesIs(n, s, P.DelCommit(t), r, r', self);
  }

  lemma DelOtherStep(n: nat, s: P.State, r: Registry, self: SchedulerId, t: ThreadId, key: Key) returns (r': Registry)
    requires O.Inv(s) && Agrees(s, r, self) && P.Enabled(s, P.DelOther(t, key))
    ensures Refines(n, s, P.DelOther(t, key), r, r', self)
  {
    DelOtherRefines(s, r, self, t, key);
    r' := DelEvent(r, key.fd, key.write, true).r;
    DelLeads(r, key, true);
    assert OpsOf(s, P.DelOther(t, key), self) == [L.Del(key.fd, key.write, true)];
    RefinesIs(n, s, P.DelOther(t, key), r, r', self);
  }

  lemma FireStep(n: nat, s: P.State, r: Registry, self: SchedulerId, t: ThreadId, key: Key) returns (r': Registry)
    requires O.Inv(s) && Agrees(s, r, self) && P.Enabled(s, P.FireBegin(t, key))
    ensures Refines(n, s, P.FireBegin(t, key), r, r', self)
  {
    TriggerRefines(s, r, self, t, key);
    var step := P.FireBegin(t, key);
    var op := OpsOf(s, step, self)[0];
    r' := L.Do(r, op).r;
    LeadsOne(r, op, Fired(s, step, self));
    assert OpsOf(s, step, self) == [op];
    RefinesIs(n, s, step, r, r', self);
  }

  lemma RemoteAddStep(n: nat, s: P.State, r: Registry, self: SchedulerId, key: Key, cb: Callback) returns (r': Registry)
    requires O.Inv(s) && Agrees(s, r, self) && P.Enabled(s, P.Remote(key, P.RemoteAdd(cb))) && !s.autoStop
    ensures Refines(n, s, P.Remote(key, P.RemoteAdd(cb)), r, r', self)
  {
    RemoteAddRefines(s, r, self, key, cb);
    var step := P.Remote(key, P.RemoteAdd(cb));
    var op := OpsOf(s, step, self)[0];
    r' := L.Do(r, op).r;
    LeadsOne(r, op, Fired(s, step, self));
    assert OpsOf(s, step, self) == [op];
    RefinesIs(n, s, step, r, r', self);
  }

  lemma RemoteDelStep(n: nat, s: P.State, r: Registry, self: SchedulerId, key: Key) returns (r': Registry)
    requires O.Inv(s) && Agrees(s, r, self) && P.Enabled(s, P.Remote(key, P.RemoteDel)) && !s.autoStop
    ensures Refines(n, s, P.Remote(key, P.RemoteDel), r, r', self)
  {
    RemoteDelRefines(s, r, self, key);
    r' := DelEvent(r, key.fd, key.write, true).r;
    DelLeads(r, key, key !in s.regs);
    assert OpsOf(s, P.Remote(key, P.RemoteDel), self) == [L.Del(key.fd, key.write, true)];
    RefinesIs(n, s, P.Remote(key, P.RemoteDel), r, r', self);
  }

  lemma RemoteFireStep(n: nat, s: P.State, r: Registry, self: SchedulerId, key: Key) returns (r': Registry)
    requires O.Inv(s) && Agrees(s, r, self) && P.Enabled(s, P.Remote(key, P.RemoteFire)) && !s.autoStop
    ensures Refines(n, s, P.Remote(key, P.RemoteFire), r, r', self)
  {
    RemoteFireRefines(s, r, self, key);
    var step := P.Remote(key, P.RemoteFire);
    var op := OpsOf(s, step, self)[0];
    r' := L.Do(r, op).r;
    LeadsOne(r, op, Fired(s, step, self));
    assert OpsOf(s, step, self) == [op];
    RefinesIs(n, s, step, r, r', self);
  }

  lemma RemoteStep(n: nat, s: P.State, r: Registry, self: SchedulerId, key: Key, call: P.RemoteCall) returns (r': Registry)
    requires O.Inv(s) && Agrees(s, r, self) && P.Enabled(s, P.Remote(key, call)) && !s.autoStop
    ensures Refines(n, s, P.Remote(key, call), r, r', self)
  {
    match call
    case RemoteAdd(cb) => r' := RemoteAddStep(n, s, r, self, key, cb);
    case RemoteDel => r' := RemoteDelStep(n, s, r, self, key);
    case RemoteFire => r' := RemoteFireStep(n, s, r, self, key);
  }

  lemma IoStep(n: nat, s: P.State, step: P.Step, r: Registry, self: SchedulerId) returns (r': Registry)
    requires O.Inv(s) && Agrees(s, r, self) && P.Enabled(s, step)
    requires step.AddCommit? || step.DelCommit? || step.DelOther? || step.FireBegin?
    ensures Refines(n, s, step, r, r', self)
  {
    if step.AddCommit? {
      r' := AddStep(n, s, r, self, step.t);
    } else if step.DelCommit? {
      r' := DelStep(n, s, r, self, step.t, s.workers[step.t].io.key);
    } else if step.DelOther? {
      r' := DelOtherStep(n, s, r, self, step.t, step.key);
    } else {
      r' := FireStep(n, s, r, self, step.t, step.key);
    }
  }

  lemma StepRefines(n: nat, s: P.State, step: P.Step, r: Registry, self: SchedulerId) returns (r': Registry)
    requires O.Inv(s) && Agrees(s, r, self)
    requires P.Enabled(s, step) && O.WakeDiscipline(s, step) && O.Handover(s, step)
    ensures Refines(n, s, step, r, r', self)
  {
    if step.Remote? {
      r' := RemoteStep(n, s, r, self, step.key, step.call);
    } else if step.AddCommit? || step.DelCommit? || step.DelOther? || step.FireBegin? {
      r' := IoStep(n, s, step, r, self);
    } else {
      r' := r;
      NoOperation(s, step, r, self);
      RefinesIs(n, s, step, r, r', self);
    }
  }

  lemma NoOperation(s: P.State, step: P.Step, r: Registry, self: SchedulerId)
    requires O.Inv(s) && Agrees(s, r, self)
    requires P.Enabled(s, step) && O.WakeDiscipline(s, step) && O.Handover(s, step)
    requires !step.AddCommit? && !step.DelCommit? && !step.DelOther? && !step.FireBegin? && !step.Remote?
    ensures Agrees(P.Apply(s, step), r, self)
    ensures Leads(r, OpsOf(s, step, self), r, Fired(s, step, self), O.One(O.Miscounts(s, step)))
  {
    LeadsNowhere(r);
    SameRegsAfter(s, step);
    AgreesAfter(s, step, r, r, self);
  }

  /** Steps that take or run a task leave the registrations alone. */
  lemma TaskRegs(s: P.State, step: P.Step)
    requires P.Enabled(s, step) && (step.ScanQueue? || step.StartTask? || step.Switch? || step.Settle?)
    ensures P.Apply(s, step).regs == s.regs
  {
    match step
    case ScanQueue(t) =>
    case StartTask(t, newId) => assert P.Apply(s, step) == P.DoStart(s, t, newId);
    case Switch(t, how) =>
    case Settle(t) => assert P.Apply(s, step) == P.DoSettle(s, t);
  }

  lemma SameRegsAfter(s: P.State, step: P.Step)
    requires P.Enabled(s, step)
    requires !step.AddCommit? && !step.DelCommit? && !step.DelOther? && !step.FireBegin? && !step.Remote?
    ensures P.Apply(s, step).regs == s.regs
  {
    if step.ScanQueue? || step.StartTask? || step.Switch? || step.Settle? { TaskRegs(s, step); }
  }

  lemma {:induction false} RunFrom(s: P.State, steps: seq<P.Step>, r: Registry, self: SchedulerId) returns (r': Registry)
    requires O.Inv(s) && Agrees(s, r, self) && P.IsRun(s, steps) && IsDisciplined(s, steps)
    ensures Agrees(P.After(s, steps), r', self)
    ensures Leads(r, RunOps(s, steps, self), r', RunFired(s, steps, self), Missed(s, steps))
    decreases |steps|
  {
    if steps == [] {
      r' := r;
      LeadsNowhere(r);
    } else {
      var s1 := P.Apply(s, steps[0]);
      var r1 := StepRefines(1, s, steps[0], r, self);
      RefinesIs(1, s, steps[0], r, r1, self);
      O.InvKeeps(s, steps[0]);
      r' := RunFrom(s1, steps[1..], r1, self);
      RunJoins(s, steps, r, r1, r', self);
    }
  }

  /** The first step and the rest of a run. */
  lemma RunJoins(s: P.State, steps: seq<P.Step>, r: Registry, r1: Registry, r2: Registry, self: SchedulerId)
    requires P.IsRun(s, steps) && steps != []
    requires Leads(r, OpsOf(s, steps[0], self), r1, Fired(s, steps[0], self), O.One(O.Miscounts(s, steps[0])))
    requires
      var s1 := P.Apply(s, steps[0]);
      Leads(r1, RunOps(s1, steps[1..], self), r2, RunFired(s1, steps[1..], self), Missed(s1, steps[1..]))
    ensures Leads(r, RunOps(s, steps, self), r2, RunFired(s, steps, self), Missed(s, steps))
  {
    var s1 := P.Apply(s, steps[0]);
    OpsAtMostOne(s, steps[0], self);
    LeadsOn(r, OpsOf(s, steps[0], self), r1, RunOps(s1, steps[1..], self), r2,
            Fired(s, steps[0], self), RunFired(s1, steps[1..], self), O.One(O.Miscounts(s, steps[0])), Missed(s1, steps[1..]));
  }

  lemma OpsAtMostOne(s: P.State, step: P.Step, self: SchedulerId)
    requires P.Enabled(s, step)
    ensures |OpsOf(s, step, self)| <= 1
  {
  }

  lemma FreshAgrees(s: P.State, self: SchedulerId)
    requires P.Initial(s)
    ensures Agrees(s, Fresh(), self)
  {
    FreshValid();
    O.InitialInv(s);
    forall key: Key
      ensures HeldAt(Fresh().ctxs, key.fd, key.write) == []
    {
      assert key.fd < |Fresh().ctxs| ==> Fresh().ctxs[key.fd] == NewCtx(key.fd);
    }
  }

  /**
   The registry steps of every disciplined run, of any number of threads, are a run of the registry from a new manager:
   no assertion fails, the tables agree at the end, deliveries are the same in the same order, and as many deletes are
   miscounted.
   */
  lemma RunRefines(s0: P.State, steps: seq<P.Step>, self: SchedulerId)
    requires P.Initial(s0) && P.IsRun(s0, steps) && IsDisciplined(s0, steps)
    ensures
      var ops := RunOps(s0, steps, self);
      && L.IsRun(Fresh(), ops) && L.AllAssert(Fresh(), ops)
      && Agrees(P.After(s0, steps), L.After(Fresh(), ops), self)
      && L.After(Fresh(), ops).out == RunFired(s0, steps, self)
      && L.Miscounted(Fresh(), ops) == Missed(s0, steps)
  {
    O.InitialInv(s0);
    FreshAgrees(s0, self);
    var r := RunFrom(s0, steps, Fresh(), self);
    assert [] + RunFired(s0, steps, self) == RunFired(s0, steps, self);
  }

  /** Where the protocol has no registration left, every event set is NONE, every slot empty and epoll watches nothing. */
  lemma TableEmpty(s: P.State, r: Registry, self: SchedulerId)
    requires Agrees(s, r, self)
    ensures s.regs == map[] <==> forall i | 0 <= i < |r.ctxs| :: r.ctxs[i] == NewCtx(i)
    ensures s.regs == map[] ==> r.kernel == map[]
  {
    if s.regs == map[] {
      forall i | 0 <= i < |r.ctxs|
        ensures r.ctxs[i] == NewCtx(i) && i !in r.kernel
      {
        assert HeldAt(r.ctxs, i, false) == RegsAt(s.regs, Key(i, false), self);
        assert HeldAt(r.ctxs, i, true) == RegsAt(s.regs, Key(i, true), self);
        assert CtxOk(r.ctxs[i], i) && Mirrors(r.kernel, i, r.ctxs[i]);
        L.SomeBit(r.ctxs[i], i);
      }
      assert forall k | k in r.kernel :: false;
    } else {
      var key :| key in s.regs;
      assert HeldAt(r.ctxs, key.fd, key.write) == RegsAt(s.regs, key, self);
      assert r.ctxs[key.fd] != NewCtx(key.fd);
    }
  }

  /**
   With clean checks, once every worker has left the loop the manager's count is zero, and its table is as empty as a new
   one if and only if no delete was miscounted.
   */
  lemma ShutdownTable(s0: P.State, steps: seq<P.Step>, self: SchedulerId)
    requires P.Initial(s0) && P.IsRun(s0, steps) && IsDisciplined(s0, steps) && IsClean(s0, steps)
    requires AllExited(P.After(s0, steps))
    ensures L.IsRun(Fresh(), RunOps(s0, steps, self))
    ensures
      var r := L.After(Fresh(), RunOps(s0, steps, self));
      && r.pending == 0
      && ((forall i | 0 <= i < |r.ctxs| :: r.ctxs[i] == NewCtx(i)) <==> Missed(s0, steps) == 0)
      && (Missed(s0, steps) == 0 ==> r.kernel == map[])
  {
    S.CleanShutdown(s0, steps);
    O.InitialInv(s0);
    RunKeepsInv(s0, steps);
    RunRefines(s0, steps, self);
    TableEmpty(P.After(s0, steps), L.After(Fresh(), RunOps(s0, steps, self)), self);
  }
}
