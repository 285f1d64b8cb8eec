/**
 The event registry of `IOManager` (source/iomanager.cpp) on values: the context table, the pending count, the
 interest set the kernel holds, and what has been handed to schedulers.
 */
module Registry {
  import opened Types

  type SchedulerId = int

  /** `Event` (iomanager.hpp:13-17): READ is bit 0x1, WRITE is bit 0x4. */
  type Mask = bv8
  function Bit(write: bool): Mask { if write then 0x4 else 0x1 }
  predicate Has(m: Mask, write: bool) { m & Bit(write) != 0 }
  const EVENTS: Mask := 0x5

  function With(m: Mask, bits: Mask): Mask { m | bits }
  function Without(m: Mask, bits: Mask): Mask { m & !bits }

  /** epoll's own bits for errors and hang-ups (323). */
  const ERR_HUP: Mask := 0x18

  /** `EventContext` (iomanager.hpp:23-33). */
  datatype Slot = Slot(scheduler: Option<SchedulerId>, fiber: Option<FiberId>, cb: Option<Callback>)
  const EMPTY := Slot(None, None, None)

  /** `FdContext` (iomanager.hpp:20-55). */
  datatype Ctx = Ctx(fd: int, read: Slot, write: Slot, events: Mask)

  /** What epoll remembers of a descriptor: its mask and the context its data pointer leads to. */
  datatype Interest = Interest(mask: Mask, data: int)
  datatype CtlOp = ADD | MOD | DEL

  /** A registration, and equally the call of `schedule` that delivers it: which scheduler is to run what. */
  datatype Reg = Reg(scheduler: SchedulerId, task: Task)

  datatype Registry = Registry(
    ctxs: seq<Ctx>,                 // m_fdContexts
    pending: int,                   // m_pendingEventCount
    kernel: map<int, Interest>,     // the interest set of m_epfd
    out: seq<Reg>,                  // calls of schedule, oldest first
    aborted: bool)                  // a SERVER_ASSERT failed

  function SlotOf(c: Ctx, write: bool): Slot { if write then c.write else c.read }

  function WithSlot(c: Ctx, write: bool, s: Slot): Ctx {
    if write then c.(write := s) else c.(read := s)
  }

  function NewCtx(fd: int): Ctx { Ctx(fd, EMPTY, EMPTY, 0) }

  /** contextResize (85-94). */
  function Resize(ctxs: seq<Ctx>, size: nat): (r: seq<Ctx>)
    ensures |r| == size
    ensures forall i | 0 <= i < size :: r[i] == if i < |ctxs| then ctxs[i] else NewCtx(i)
  {
    seq(size, i requires 0 <= i < size => if i < |ctxs| then ctxs[i] else NewCtx(i))
  }

  /** The table addEvent works on: grown to one and a half times fd when fd is beyond it (100-109). */
  function Grow(ctxs: seq<Ctx>, fd: nat): seq<Ctx> {
    if |ctxs| > fd then ctxs else Resize(ctxs, fd * 3 / 2)
  }

  /** Adding to a descriptor's mask (120). */
  function AddOp(events: Mask): CtlOp { if events != 0 then MOD else ADD }

  /** Changing a descriptor's mask to what is left of it (167, 204, 340). */
  function LeftOp(left: Mask): CtlOp { if left != 0 then MOD else DEL }

  /** epoll_ctl: refused for reasons of its own (!ok), for a second ADD, and for MOD or DEL of an absent descriptor. */
  function Ctl(kernel: map<int, Interest>, op: CtlOp, fd: int, mask: Mask, ok: bool): Option<map<int, Interest>> {
    if !ok || (op == ADD) == (fd in kernel) then None
    else if op == DEL then Some(kernel - {fd})
    else Some(kernel[fd := Interest(mask, fd)])
  }

  /** What triggerEvent schedules: the callback if there is one, else the fiber (37-41); an empty slot schedules nothing. */
  function Payload(s: Slot): Option<Task> {
    if s.cb.Some? then Some(Call(s.cb.value)) else if s.fiber.Some? then Some(Fib(s.fiber.value)) else None
  }

  function Deliveries(s: Slot): seq<Reg> {
    if Payload(s).Some? then [Reg(s.scheduler.GetOr(0), Payload(s).value)] else []
  }

  /** Clearing a bit and emptying its slot. */
  function Cleared(c: Ctx, write: bool): Ctx {
    WithSlot(c.(events := Without(c.events, Bit(write))), write, EMPTY)
  }

  /** triggerEvent (31-45) and the decrement that follows every call of it. */
  function Trigger(r: Registry, fd: nat, write: bool): (r': Registry)
    requires fd < |r.ctxs|
    ensures |r'.ctxs| == |r.ctxs|
  {
    var c := r.ctxs[fd];
    if !Has(c.events, write) then r.(aborted := true)
    else
      r.(ctxs := r.ctxs[fd := Cleared(c, write)], pending := r.pending - 1, out := r.out + Deliveries(SlotOf(c, write)))
  }

  datatype Outcome = Outcome(r: Registry, ret: int)

  /** The slot addEvent fills, and the context with it and its bit. */
  function SlotFor(reg: Reg): Slot {
    match reg.task
    case Call(cb) => Slot(Some(reg.scheduler), None, Some(cb))
    case Fib(f) => Slot(Some(reg.scheduler), Some(f), None)
  }

  function WithEvent(c: Ctx, write: bool, reg: Reg): Ctx {
    WithSlot(c.(events := With(c.events, Bit(write))), write, SlotFor(reg))
  }

  /** addEvent (97-149) of a callback or of the running fiber; 0 for success, -1 when epoll refuses. */
  function AddEvent(r: Registry, fd: nat, write: bool, sched: SchedulerId, task: Task, ok: bool): Outcome
    requires fd < |Grow(r.ctxs, fd)|
  {
    var ctxs := Grow(r.ctxs, fd);
    var c := ctxs[fd];
    if Has(c.events, write) then Outcome(r.(ctxs := ctxs, aborted := true), -1)
    else
      var k := Ctl(r.kernel, AddOp(c.events), fd, With(c.events, Bit(write)), ok);
      if k.None? then Outcome(r.(ctxs := ctxs), -1)
      else if SlotOf(c, write) != EMPTY then
        Outcome(r.(ctxs := ctxs[fd := c.(events := With(c.events, Bit(write)))], pending := r.pending + 1, kernel := k.value, aborted := true), -1)
      else
        Outcome(r.(ctxs := ctxs[fd := WithEvent(c, write, Reg(sched, task))], pending := r.pending + 1, kernel := k.value), 0)
  }

  /** delEvent (151-186).  Its guard, `events | event`, never refuses (161). */
  function DelEvent(r: Registry, fd: nat, write: bool, ok: bool): Outcome {
    if |r.ctxs| <= fd then Outcome(r, 0)
    else
      var c := r.ctxs[fd];
      var left := Without(c.events, Bit(write));
      var k := Ctl(r.kernel, LeftOp(left), fd, left, ok);
      if k.None? then Outcome(r, 0)
      else
        Outcome(r.(ctxs := r.ctxs[fd := Cleared(c, write)], pending := r.pending - 1, kernel := k.value), 1)
  }

  /** cancelEvent (188-223): deliver, then assert that nothing else is registered. */
  function CancelEvent(r: Registry, fd: nat, write: bool, ok: bool): Outcome {
    if |r.ctxs| <= fd || !Has(r.ctxs[fd].events, write) then Outcome(r, 0)
    else
      var left := Without(r.ctxs[fd].events, Bit(write));
      var k := Ctl(r.kernel, LeftOp(left), fd, left, ok);
      if k.None? then Outcome(r, 0)
      else
        var r' := Trigger(r.(kernel := k.value), fd, write);
        Outcome(r'.(aborted := r'.aborted || r'.ctxs[fd].events != 0), 1)
  }

  /** Deliver the events of bits, reading first; a failed assertion ends it (254-262, 352-360). */
  function TriggerAll(r: Registry, fd: nat, bits: Mask): (r': Registry)
    requires fd < |r.ctxs|
    ensures |r'.ctxs| == |r.ctxs|
  {
    var r1 := if Has(bits, false) then Trigger(r, fd, false) else r;
    if Has(bits, true) && !r1.aborted then Trigger(r1, fd, true) else r1
  }

  /** cancelAll (225-266).  Its bound check lets fd == size through to an access out of range (227), which ends the run here. */
  function CancelAll(r: Registry, fd: nat, ok: bool): Outcome {
    if |r.ctxs| < fd then Outcome(r, 0)
    else if |r.ctxs| == fd then Outcome(r.(aborted := true), 0)
    else if r.ctxs[fd].events == 0 then Outcome(r, 0)
    else
      var k := Ctl(r.kernel, DEL, fd, 0, ok);
      if k.None? then Outcome(r, 0)
      else
        var r' := TriggerAll(r.(kernel := k.value), fd, r.ctxs[fd].events);
        Outcome(r'.(aborted := r'.aborted || r'.ctxs[fd].events != 0), 1)
  }

  /** One entry of the array epoll_wait fills: the context its data pointer leads to and the raw bits; ok is the answer of the epoll_ctl it causes. */
  datatype Ready = Ready(fd: nat, bits: Mask, ok: bool)

  /** Errors and hang-ups count as both events (323-334). */
  function RealEvents(bits: Mask): Mask {
    (if bits & ERR_HUP != 0 then bits | EVENTS else bits) & EVENTS
  }

  /** One round of the dispatch loop (313-360). */
  function DispatchOne(r: Registry, e: Ready): (r': Registry)
    requires e.fd < |r.ctxs|
    ensures |r'.ctxs| == |r.ctxs|
  {
    var c := r.ctxs[e.fd];
    var found := RealEvents(e.bits);
    if c.events & found == 0 then r
    else
      var left := Without(c.events, found);
      var k := Ctl(r.kernel, LeftOp(left), c.fd, left, e.ok);
      if k.None? then r else TriggerAll(r.(kernel := k.value), e.fd, found)
  }

  function Dispatch(r: Registry, batch: seq<Ready>): (r': Registry)
    requires forall e | e in batch :: e.fd < |r.ctxs|
    ensures |r'.ctxs| == |r.ctxs|
    decreases |batch|
  {
    if batch == [] || r.aborted then r else Dispatch(DispatchOne(r, batch[0]), batch[1..])
  }

  // ---- what a table holds ------------------------------------------------------------------------------

  /** The registration of one event of one context: none, or exactly one. */
  function HeldBy(c: Ctx, write: bool): seq<Reg> {
    if Has(c.events, write) then Deliveries(SlotOf(c, write)) else []
  }

  function HeldAt(ctxs: seq<Ctx>, fd: nat, write: bool): seq<Reg> {
    if fd < |ctxs| then HeldBy(ctxs[fd], write) else []
  }

  /** All of them. */
  function Held(ctxs: seq<Ctx>): multiset<Reg> {
    if ctxs == [] then multiset{} else HeldIn(ctxs[0]) + Held(ctxs[1..])
  }

  function HeldIn(c: Ctx): multiset<Reg> { multiset(HeldBy(c, false)) + multiset(HeldBy(c, true)) }

  /** A slot filled by addEvent: a scheduler, and a callback or a fiber but not both. */
  predicate Filled(s: Slot) { s.scheduler.Some? && (s.fiber.Some? <==> s.cb.None?) }

  /** Bits, slots and descriptor of one context agree. */
  predicate CtxOk(c: Ctx, fd: int) {
    && c.fd == fd && c.events & !EVENTS == 0
    && (if Has(c.events, false) then Filled(c.read) else c.read == EMPTY)
    && (if Has(c.events, true) then Filled(c.write) else c.write == EMPTY)
  }

  predicate TableOk(ctxs: seq<Ctx>) {
    |ctxs| >= 32 && forall i | 0 <= i < |ctxs| :: CtxOk(ctxs[i], i)
  }

  /** epoll holds exactly the descriptors with a set bit, with their bits and their own context. */
  predicate KernelOk(kernel: map<int, Interest>, ctxs: seq<Ctx>) {
    && (forall fd | fd in kernel :: 0 <= fd < |ctxs|)
    && (forall fd | 0 <= fd < |ctxs| :: Mirrors(kernel, fd, ctxs[fd]))
  }

  predicate Mirrors(kernel: map<int, Interest>, fd: int, c: Ctx) {
    if c.events == 0 then fd !in kernel else fd in kernel && kernel[fd] == Interest(c.events, fd)
  }

  predicate Sound(r: Registry) { !r.aborted && TableOk(r.ctxs) && KernelOk(r.kernel, r.ctxs) }

  /** How far the pending count is below the number of registrations. */
  function Drift(r: Registry): int { |Held(r.ctxs)| - r.pending }

  predicate Valid(r: Registry) { Sound(r) && Drift(r) == 0 }

  /** A new manager: thirty-two empty contexts (67). */
  function Fresh(): Registry { Registry(Resize([], 32), 0, map[], [], false) }

  // ---- one bit of one context ---------------------------------------------------------------------------

  lemma BitsApart(m: Mask, write: bool)
    ensures !Has(m & !Bit(write), write) && Has(m & !Bit(write), !write) == Has(m, !write)
    ensures Has(m | Bit(write), write) && Has(m | Bit(write), !write) == Has(m, !write)
    ensures m & !EVENTS == 0 ==> (m & !Bit(write)) & !EVENTS == 0 && (m | Bit(write)) & !EVENTS == 0
    ensures m & !EVENTS == 0 ==> (m == 0 <==> !Has(m, false) && !Has(m, true))
  {
  }

  lemma ClearedOk(c: Ctx, fd: int, write: bool)
    requires CtxOk(c, fd)
    ensures CtxOk(Cleared(c, write), fd)
    ensures HeldBy(Cleared(c, write), write) == []
    ensures HeldBy(Cleared(c, write), !write) == HeldBy(c, !write)
    ensures HeldIn(c) == HeldIn(Cleared(c, write)) + multiset(HeldBy(c, write))
  {
    BitsApart(c.events, write);
  }

  lemma WithEventOk(c: Ctx, fd: int, write: bool, reg: Reg)
    requires CtxOk(c, fd) && !Has(c.events, write)
    ensures CtxOk(WithEvent(c, write, reg), fd)
    ensures HeldBy(WithEvent(c, write, reg), write) == [reg]
    ensures HeldBy(WithEvent(c, write, reg), !write) == HeldBy(c, !write)
    ensures HeldIn(WithEvent(c, write, reg)) == HeldIn(c) + multiset{reg}
  {
    BitsApart(c.events, write);
    WithEventHeld(c, write, reg);
    var c' := WithEvent(c, write, reg);
    assert HeldIn(c') == multiset(HeldBy(c', write)) + multiset(HeldBy(c', !write));
    assert HeldIn(c) == multiset(HeldBy(c, write)) + multiset(HeldBy(c, !write));
  }

  lemma WithEventHeld(c: Ctx, write: bool, reg: Reg)
    ensures HeldBy(WithEvent(c, write, reg), write) == [reg]
    ensures HeldBy(WithEvent(c, write, reg), !write) == HeldBy(c, !write)
  {
    BitsApart(c.events, write);
  }

  /** A bit is set exactly when its slot holds one registration. */
  lemma HeldByBit(c: Ctx, fd: int, write: bool)
    requires CtxOk(c, fd)
    ensures |HeldBy(c, write)| == if Has(c.events, write) then 1 else 0
    ensures SlotOf(c, write) == if Has(c.events, write) then SlotFor(HeldBy(c, write)[0]) else EMPTY
  {
  }

  // ---- one context of the table -------------------------------------------------------------------------

  lemma HeldConcat(a: seq<Ctx>, b: seq<Ctx>)
    ensures Held(a + b) == Held(a) + Held(b)
  {
    if a == [] {
      assert a + b == b;
    } else {
      assert (a + b)[1..] == a[1..] + b;
      HeldConcat(a[1..], b);
    }
  }

  /** Replacing one context changes what is held by what that context held. */
  lemma HeldUpdate(ctxs: seq<Ctx>, fd: nat, c: Ctx)
    requires fd < |ctxs|
    ensures Held(ctxs[fd := c]) + HeldIn(ctxs[fd]) == Held(ctxs) + HeldIn(c)
  {
    var a, b := ctxs[..fd], ctxs[fd + 1..];
    assert ctxs == a + ([ctxs[fd]] + b) && ctxs[fd := c] == a + ([c] + b);
    HeldConcat(a, [ctxs[fd]] + b);
    HeldConcat(a, [c] + b);
  }

  lemma HeldNone(ctxs: seq<Ctx>)
    requires forall i | 0 <= i < |ctxs| :: ctxs[i].events == 0
    ensures Held(ctxs) == multiset{}
  {
  }

  lemma FreshValid()
    ensures Valid(Fresh()) && Held(Fresh().ctxs) == multiset{} && |Fresh().ctxs| == 32
  {
    HeldNone(Fresh().ctxs);
  }

  /** A table beyond fd is left alone, another grows to one and a half times fd, rounded down (100-107). */
  lemma GrowSize(ctxs: seq<Ctx>, fd: nat)
    ensures if fd < |ctxs| then Grow(ctxs, fd) == ctxs else 3 * fd - 1 <= 2 * |Grow(ctxs, fd)| <= 3 * fd
  {
  }

  /** Growing the table covers fd, keeps what is there and registers nothing (100-109). */
  lemma GrowCovers(ctxs: seq<Ctx>, fd: nat)
    requires TableOk(ctxs)
    ensures fd < |Grow(ctxs, fd)| && |ctxs| <= |Grow(ctxs, fd)| && TableOk(Grow(ctxs, fd))
    ensures forall i | 0 <= i < |ctxs| :: Grow(ctxs, fd)[i] == ctxs[i]
    ensures forall i | |ctxs| <= i < |Grow(ctxs, fd)| :: Grow(ctxs, fd)[i].events == 0
    ensures Held(Grow(ctxs, fd)) == Held(ctxs)
  {
    if |ctxs| <= fd { ResizeHeld(ctxs, fd * 3 / 2); }
  }

  lemma ResizeHeld(ctxs: seq<Ctx>, size: nat)
    requires |ctxs| <= size
    ensures Held(Resize(ctxs, size)) == Held(ctxs)
  {
    var g := Resize(ctxs, size);
    var tail := g[|ctxs|..];
    assert g == ctxs + tail;
    HeldConcat(ctxs, tail);
    HeldNone(tail);
  }

  /** The kernel's side of a change of one context. */
  function Told(kernel: map<int, Interest>, fd: nat, mask: Mask): map<int, Interest> {
    if mask == 0 then kernel - {fd} else kernel[fd := Interest(mask, fd)]
  }

  lemma KernelUpdate(kernel: map<int, Interest>, ctxs: seq<Ctx>, fd: nat, c: Ctx)
    requires KernelOk(kernel, ctxs) && fd < |ctxs|
    ensures KernelOk(Told(kernel, fd, c.events), ctxs[fd := c])
  {
    var k, ctxs' := Told(kernel, fd, c.events), ctxs[fd := c];
    forall i | 0 <= i < |ctxs'|
      ensures Mirrors(k, i, ctxs'[i])
    {
      assert Mirrors(kernel, i, ctxs[i]);
    }
  }
}
