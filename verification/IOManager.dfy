/**
 `FdContext` and `IOManager` (source/iomanager.cpp) as objects changed in place.  Each method is the operation of
 the registry with the same name; what is proved about that operation holds of the method.
 */
module IOManagerModel {
  import opened Types
  import R = Registry

  class FdContext {
    var fd: int
    var read: R.Slot
    var write: R.Slot
    var events: R.Mask

    constructor ()
      ensures Abs() == R.NewCtx(0)
    {
      fd, read, write, events := 0, R.EMPTY, R.EMPTY, 0;
    }

    function Abs(): R.Ctx
      reads this
    {
      R.Ctx(fd, read, write, events)
    }

    /** getContext (14-23) */
    function GetContext(forWrite: bool): R.Slot
      reads this
    {
      if forWrite then write else read
    }

    method SetContext(forWrite: bool, slot: R.Slot)
      modifies this`read, this`write
      ensures Abs() == R.WithSlot(old(Abs()), forWrite, slot)
    {
      if forWrite { write := slot; } else { read := slot; }
    }

    /** resetContext (25-29) */
    method ResetContext(forWrite: bool)
      modifies this`read, this`write
      ensures Abs() == R.WithSlot(old(Abs()), forWrite, R.EMPTY)
    {
      SetContext(forWrite, R.EMPTY);
    }

    /** The bit cleared and the slot emptied without delivery (182-184). */
    method Forget(forWrite: bool, left: R.Mask)
      requires left == R.Without(events, R.Bit(forWrite))
      modifies this
      ensures Abs() == R.Cleared(old(Abs()), forWrite)
    {
      events := left;
      ResetContext(forWrite);
    }

    /** triggerEvent (31-45): the call of schedule it makes, or a failed assertion. */
    method TriggerEvent(forWrite: bool) returns (asserted: bool, scheduled: seq<R.Reg>)
      modifies this
      ensures asserted == R.Has(old(events), forWrite)
      ensures asserted ==> Abs() == R.Cleared(old(Abs()), forWrite)
      ensures asserted ==> scheduled == R.Deliveries(R.SlotOf(old(Abs()), forWrite))
      ensures !asserted ==> Abs() == old(Abs()) && scheduled == []
    {
      asserted := R.Has(events, forWrite);
      scheduled := [];
      if asserted {
        scheduled := Schedule(GetContext(forWrite));
        events := R.Without(events, R.Bit(forWrite));
        ResetContext(forWrite);
      }
    }

    /** The callback if there is one, else the fiber (37-41). */
    static method Schedule(ctx: R.Slot) returns (scheduled: seq<R.Reg>)
      ensures scheduled == R.Deliveries(ctx)
    {
      if ctx.cb.Some? {
        scheduled := [R.Reg(ctx.scheduler.GetOr(0), Call(ctx.cb.value))];
      } else if ctx.fiber.Some? {
        scheduled := [R.Reg(ctx.scheduler.GetOr(0), Fib(ctx.fiber.value))];
      } else {
        scheduled := [];
      }
    }
  }

  class IOManager {
    var m_fdContexts: seq<FdContext>
    var m_pendingEventCount: int
    var kernel: map<int, R.Interest>
    var scheduled: seq<R.Reg>
    var aborted: bool

    /** No context is at two places of the table. */
    ghost predicate Separate()
      reads this
    {
      forall i, j | 0 <= i < j < |m_fdContexts| :: m_fdContexts[i] != m_fdContexts[j]
    }

    ghost function Table(): (r: seq<R.Ctx>)
      reads this, m_fdContexts
      ensures |r| == |m_fdContexts|
      ensures forall i | 0 <= i < |r| :: r[i] == m_fdContexts[i].Abs()
    {
      seq(|m_fdContexts|, i requires 0 <= i < |m_fdContexts| reads this, m_fdContexts => m_fdContexts[i].Abs())
    }

    ghost function Abs(): R.Registry
      reads this, m_fdContexts
    {
      R.Registry(Table(), m_pendingEventCount, kernel, scheduled, aborted)
    }

    constructor ()
      ensures Separate() && Abs() == R.Fresh() && fresh(m_fdContexts)
    {
      m_fdContexts, m_pendingEventCount, kernel, scheduled, aborted := [], 0, map[], [], false;
      new;
      ContextResize(32);
    }

    /** contextResize (85-94): contexts are added at the end, or cut off there. */
    method ContextResize(size: nat)
      requires Separate()
      modifies this`m_fdContexts
      ensures Separate() && |m_fdContexts| == size
      ensures forall i | 0 <= i < size :: if i < |old(m_fdContexts)| then m_fdContexts[i] == old(m_fdContexts)[i] else fresh(m_fdContexts[i])
      ensures Table() == R.Resize(old(Table()), size)
    {
      var before := m_fdContexts;
      var table: seq<FdContext?> := if size <= |before| then before[..size] else before + seq(size - |before|, _ => null);
      var i := 0;
      while i < |table|
        invariant 0 <= i <= |table| == size
        invariant forall k | 0 <= k < size && k < |before| :: table[k] == before[k]
        invariant forall k | |before| <= k < i :: table[k] != null && fresh(table[k]) && table[k].Abs() == R.NewCtx(k)
        invariant forall k | i <= k < size :: |before| <= k ==> table[k] == null
        invariant forall k, l | |before| <= k < l < i :: table[k] != table[l]
      {
        if table[i] == null {
          var c := new FdContext();
          c.fd := i;
          table := table[i := c];
        }
        i := i + 1;
      }
      m_fdContexts := table;
    }

    /** The kernel's answer to epoll_ctl; ok when it has no reason of its own to refuse. */
    method EpollCtl(op: R.CtlOp, fd: int, mask: R.Mask, ok: bool) returns (ret: int)
      modifies this`kernel
      ensures ret in {0, -1}
      ensures
        var k := R.Ctl(old(kernel), op, fd, mask, ok);
        (ret == 0 <==> k.Some?) && kernel == k.GetOr(old(kernel))
    {
      var k := R.Ctl(kernel, op, fd, mask, ok);
      if k.None? { return -1; }
      kernel := k.value;
      return 0;
    }

    /** triggerEvent on one context of the table, with the decrement that follows it. */
    method Trigger(fd: nat, write: bool)
      requires Separate() && fd < |m_fdContexts|
      modifies this`m_pendingEventCount, this`scheduled, this`aborted, m_fdContexts[fd]
      ensures Abs() == R.Trigger(old(Abs()), fd, write)
    {
      var asserted, out := m_fdContexts[fd].TriggerEvent(write);
      if asserted {
        scheduled := scheduled + out;
        m_pendingEventCount := m_pendingEventCount - 1;
      } else {
        aborted := true;
      }
      assert Table() == R.Trigger(old(Abs()), fd, write).ctxs;
    }

    /** addEvent (97-149); the payload is the callback, or the running fiber when there is none. */
    method AddEvent(fd: nat, write: bool, sched: R.SchedulerId, task: Task, ok: bool) returns (ret: int)
      requires Separate() && |m_fdContexts| >= 2
      modifies this, m_fdContexts
      ensures Separate()
      ensures fd < |R.Grow(old(Table()), fd)|
      ensures R.Outcome(Abs(), ret) == R.AddEvent(old(Abs()), fd, write, sched, task, ok)
    {
      if |m_fdContexts| <= fd { ContextResize(fd * 3 / 2); }
      ret := Register(fd, write, R.Reg(sched, task), ok);
    }

    /** The part of addEvent under the lock of the context (111-148). */
    method Register(fd: nat, write: bool, reg: R.Reg, ok: bool) returns (ret: int)
      requires Separate() && fd < |m_fdContexts|
      modifies this, m_fdContexts[fd]
      ensures m_fdContexts == old(m_fdContexts)
      ensures R.Outcome(Abs(), ret) == R.AddEvent(old(Abs()), fd, write, reg.scheduler, reg.task, ok)
    {
      var fdCtx := m_fdContexts[fd];
      if R.Has(fdCtx.events, write) {
        aborted := true;
        return -1;
      }
      var bits := R.With(fdCtx.events, R.Bit(write));
      ret := EpollCtl(R.AddOp(fdCtx.events), fd, bits, ok);
      if ret != 0 { return; }
      m_pendingEventCount := m_pendingEventCount + 1;
      fdCtx.events := bits;
      if fdCtx.GetContext(write) != R.EMPTY {
        aborted := true;
        return -1;
      }
      fdCtx.SetContext(write, R.SlotFor(reg));
    }

    /** delEvent (151-186) */
    method DelEvent(fd: nat, write: bool, ok: bool) returns (ret: int)
      requires Separate()
      modifies this, m_fdContexts
      ensures m_fdContexts == old(m_fdContexts)
      ensures R.Outcome(Abs(), ret) == R.DelEvent(old(Abs()), fd, write, ok)
    {
      if |m_fdContexts| <= fd { return 0; }
      var fdCtx := m_fdContexts[fd];
      var left := R.Without(fdCtx.events, R.Bit(write));
      var refused := EpollCtl(R.LeftOp(left), fd, left, ok);
      if refused != 0 { return 0; }
      Forget(fd, write, left);
      return 1;
    }

    /** What is left to do once epoll has accepted (181-184). */
    method Forget(fd: nat, write: bool, left: R.Mask)
      requires Separate() && fd < |m_fdContexts| && left == R.Without(m_fdContexts[fd].events, R.Bit(write))
      modifies this`m_pendingEventCount, m_fdContexts[fd]
      ensures Abs() == old(Abs()).(ctxs := old(Table())[fd := R.Cleared(old(Table())[fd], write)], pending := old(m_pendingEventCount) - 1)
    {
      m_pendingEventCount := m_pendingEventCount - 1;
      m_fdContexts[fd].Forget(write, left);
    }

    /** cancelEvent (188-223) */
    method CancelEvent(fd: nat, write: bool, ok: bool) returns (ret: int)
      requires Separate()
      modifies this, m_fdContexts
      ensures m_fdContexts == old(m_fdContexts)
      ensures R.Outcome(Abs(), ret) == R.CancelEvent(old(Abs()), fd, write, ok)
    {
      if |m_fdContexts| <= fd || !R.Has(m_fdContexts[fd].events, write) { return 0; }
      var left := R.Without(m_fdContexts[fd].events, R.Bit(write));
      var refused := EpollCtl(R.LeftOp(left), fd, left, ok);
      if refused != 0 { return 0; }
      Trigger(fd, write);
      if m_fdContexts[fd].events != 0 { aborted := true; }
      return 1;
    }

    /** The bits tested one after the other, reading first (254-262, 352-360). */
    method TriggerAll(fd: nat, bits: R.Mask)
      requires Separate() && fd < |m_fdContexts|
      modifies this`m_pendingEventCount, this`scheduled, this`aborted, m_fdContexts[fd]
      ensures Abs() == R.TriggerAll(old(Abs()), fd, bits)
    {
      if R.Has(bits, false) { Trigger(fd, false); }
      if R.Has(bits, true) && !aborted { Trigger(fd, true); }
    }

    /** cancelAll (225-266) */
    method CancelAll(fd: nat, ok: bool) returns (ret: int)
      requires Separate()
      modifies this, m_fdContexts
      ensures m_fdContexts == old(m_fdContexts)
      ensures R.Outcome(Abs(), ret) == R.CancelAll(old(Abs()), fd, ok)
    {
      if |m_fdContexts| < fd { return 0; }
      if |m_fdContexts| == fd {
        aborted := true;
        return 0;
      }
      if m_fdContexts[fd].events == 0 { return 0; }
      var refused := EpollCtl(R.DEL, fd, 0, ok);
      if refused != 0 { return 0; }
      TriggerRest(fd);
      return 1;
    }

    /** What is left to do once epoll has accepted (253-264). */
    method TriggerRest(fd: nat)
      requires Separate() && fd < |m_fdContexts|
      modifies this`m_pendingEventCount, this`scheduled, this`aborted, m_fdContexts[fd]
      ensures
        var r := R.TriggerAll(old(Abs()), fd, old(Abs()).ctxs[fd].events);
        Abs() == r.(aborted := r.aborted || r.ctxs[fd].events != 0)
    {
      TriggerAll(fd, m_fdContexts[fd].events);
      if m_fdContexts[fd].events != 0 { aborted := true; }
    }

    /** One entry epoll_wait reported (321-360). */
    method DispatchOne(e: R.Ready)
      requires Separate() && e.fd < |m_fdContexts|
      modifies this`m_pendingEventCount, this`scheduled, this`aborted, this`kernel, m_fdContexts[e.fd]
      ensures Abs() == R.DispatchOne(old(Abs()), e)
    {
      var fdCtx := m_fdContexts[e.fd];
      var found := R.RealEvents(e.bits);
      if fdCtx.events & found == 0 { return; }
      var left := R.Without(fdCtx.events, found);
      var refused := EpollCtl(R.LeftOp(left), fdCtx.fd, left, e.ok);
      if refused == 0 { TriggerAll(e.fd, found); }
    }

    /** The loop over what epoll_wait reported (312-361). */
    method Dispatch(batch: seq<R.Ready>)
      requires Separate() && forall e | e in batch :: e.fd < |m_fdContexts|
      modifies this, m_fdContexts
      ensures m_fdContexts == old(m_fdContexts)
      ensures Abs() == R.Dispatch(old(Abs()), batch)
    {
      var i := 0;
      while i < |batch| && !aborted
        invariant 0 <= i <= |batch| && m_fdContexts == old(m_fdContexts)
        invariant R.Dispatch(Abs(), batch[i..]) == R.Dispatch(old(Abs()), batch)
      {
        DispatchOne(batch[i]);
        i := i + 1;
      }
    }
  }
}
