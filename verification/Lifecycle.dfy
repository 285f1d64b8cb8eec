/**
 What each operation of the registry does to the registrations, exactly, and the ledger of a whole run: every
 registration is delivered once, deleted once, or still held.
 */
module Lifecycle {
  import opened Types
  import opened Registry

  /** Only the registration of this event may differ. */
  ghost predicate OnlyAt(a: seq<Ctx>, b: seq<Ctx>, fd: nat, write: bool) {
    forall f: nat, w :: (f == fd && w == write) || HeldAt(b, f, w) == HeldAt(a, f, w)
  }

  /** Only registrations of this descriptor may differ. */
  ghost predicate OnlyOf(a: seq<Ctx>, b: seq<Ctx>, fd: nat) {
    forall f: nat, w :: f == fd || HeldAt(b, f, w) == HeldAt(a, f, w)
  }

  ghost predicate SameHeld(a: seq<Ctx>, b: seq<Ctx>) {
    forall f: nat, w :: HeldAt(b, f, w) == HeldAt(a, f, w)
  }

  /** Both registrations of a descriptor, reading first. */
  function Both(ctxs: seq<Ctx>, fd: nat): seq<Reg> { HeldAt(ctxs, fd, false) + HeldAt(ctxs, fd, true) }

  function If(b: bool, s: seq<Reg>): seq<Reg> { if b then s else [] }

  /** No registration is lost or made up: what is gone from the table has been handed to its scheduler. */
  ghost predicate Conserved(r: Registry, r': Registry) {
    && Held(r'.ctxs) + multiset(r'.out) == Held(r.ctxs) + multiset(r.out)
    && Drift(r') == Drift(r)
  }

  // ---- pieces -------------------------------------------------------------------------------------------

  /** A context mirrored by the kernel has its change accepted exactly when epoll has no reason of its own. */
  lemma CtlExact(kernel: map<int, Interest>, fd: nat, c: Ctx, mask: Mask, ok: bool)
    requires Mirrors(kernel, fd, c)
    ensures c.events != 0 ==>
      Ctl(kernel, LeftOp(mask), fd, mask, ok) == if ok then Some(Told(kernel, fd, mask)) else None
    ensures mask != 0 ==>
      Ctl(kernel, AddOp(c.events), fd, mask, ok) == if ok then Some(Told(kernel, fd, mask)) else None
    ensures c.events == 0 ==> Ctl(kernel, LeftOp(mask), fd, mask, ok) == None
  {
  }

  lemma SomeBit(c: Ctx, fd: int)
    requires CtxOk(c, fd)
    ensures c.events != 0 <==> HeldBy(c, false) + HeldBy(c, true) != []
    ensures forall w :: Has(c.events, w) <==> HeldBy(c, w) != []
  {
    BitsApart(c.events, false);
    HeldByBit(c, fd, false);
    HeldByBit(c, fd, true);
  }

  lemma Replaced(ctxs: seq<Ctx>, fd: nat, write: bool, c: Ctx)
    requires TableOk(ctxs) && fd < |ctxs| && CtxOk(c, fd) && HeldBy(c, !write) == HeldBy(ctxs[fd], !write)
    ensures TableOk(ctxs[fd := c]) && OnlyAt(ctxs, ctxs[fd := c], fd, write)
  {
    var ctxs' := ctxs[fd := c];
    forall f: nat, w
      ensures (f == fd && w == write) || HeldAt(ctxs', f, w) == HeldAt(ctxs, f, w)
    {
      if f == fd && w != write { assert w == !write; }
    }
  }

  lemma ClearedTable(ctxs: seq<Ctx>, fd: nat, write: bool)
    requires TableOk(ctxs) && fd < |ctxs|
    ensures
      var ctxs' := ctxs[fd := Cleared(ctxs[fd], write)];
      && TableOk(ctxs')
      && OnlyAt(ctxs, ctxs', fd, write) && HeldAt(ctxs', fd, write) == []
  {
    ClearedOk(ctxs[fd], fd, write);
    Replaced(ctxs, fd, write, Cleared(ctxs[fd], write));
  }

  lemma ClearedHeld(ctxs: seq<Ctx>, fd: nat, write: bool)
    requires TableOk(ctxs) && fd < |ctxs|
    ensures Held(ctxs) == Held(ctxs[fd := Cleared(ctxs[fd], write)]) + multiset(HeldAt(ctxs, fd, write))
  {
    var c := ctxs[fd];
    ClearedOk(c, fd, write);
    HeldUpdate(ctxs, fd, Cleared(c, write));
    Cancel(Held(ctxs[fd := Cleared(c, write)]), HeldIn(Cleared(c, write)), multiset(HeldBy(c, write)), Held(ctxs));
  }

  lemma Cancel<T>(a: multiset<T>, b: multiset<T>, c: multiset<T>, d: multiset<T>)
    requires a + (b + c) == d + b
    ensures d == a + c
  {
    forall x
      ensures d[x] == (a + c)[x]
    {
      assert (a + (b + c))[x] == (d + b)[x];
    }
  }

  /** triggerEvent hands over the registration of its bit, and asserts that there is one. */
  lemma TriggerExact(r: Registry, fd: nat, write: bool)
    requires TableOk(r.ctxs) && fd < |r.ctxs|
    ensures
      var r' := Trigger(r, fd, write);
      && TableOk(r'.ctxs) && |r'.ctxs| == |r.ctxs| && r'.kernel == r.kernel
      && r'.aborted == (r.aborted || HeldAt(r.ctxs, fd, write) == [])
      && r'.out == r.out + HeldAt(r.ctxs, fd, write)
      && OnlyAt(r.ctxs, r'.ctxs, fd, write) && HeldAt(r'.ctxs, fd, write) == []
      && Conserved(r, r')
  {
    HeldByBit(r.ctxs[fd], fd, write);
    if Has(r.ctxs[fd].events, write) {
      ClearedTable(r.ctxs, fd, write);
      TriggerConserves(r, fd, write);
    }
  }

  lemma TriggerConserves(r: Registry, fd: nat, write: bool)
    requires TableOk(r.ctxs) && fd < |r.ctxs| && Has(r.ctxs[fd].events, write)
    ensures Conserved(r, Trigger(r, fd, write))
  {
    HeldByBit(r.ctxs[fd], fd, write);
    ClearedHeld(r.ctxs, fd, write);
    var h := HeldAt(r.ctxs, fd, write);
    Moved(Held(r.ctxs), Held(Trigger(r, fd, write).ctxs), r.out, h);
  }

  lemma Moved<T>(a: multiset<T>, b: multiset<T>, out: seq<T>, h: seq<T>)
    requires a == b + multiset(h)
    ensures b + multiset(out + h) == a + multiset(out)
    ensures |b| == |a| - |h|
  {
    assert multiset(out + h) == multiset(out) + multiset(h);
  }

  /** The event is among bits, and no assertion has failed before it. */
  predicate Tried(ctxs: seq<Ctx>, fd: nat, bits: Mask, write: bool) {
    Has(bits, write) && (write && Has(bits, false) ==> HeldAt(ctxs, fd, false) != [])
  }

  lemma TriggerAllExact(r: Registry, fd: nat, bits: Mask)
    requires TableOk(r.ctxs) && fd < |r.ctxs| && !r.aborted
    ensures
      var r' := TriggerAll(r, fd, bits);
      && TableOk(r'.ctxs) && r'.kernel == r.kernel
      && (r'.aborted <==> exists w :: Has(bits, w) && HeldAt(r.ctxs, fd, w) == [])
      && r'.out == r.out + If(Tried(r.ctxs, fd, bits, false), HeldAt(r.ctxs, fd, false))
                         + If(Tried(r.ctxs, fd, bits, true), HeldAt(r.ctxs, fd, true))
      && OnlyOf(r.ctxs, r'.ctxs, fd)
      && (forall w :: HeldAt(r'.ctxs, fd, w) == If(!Tried(r.ctxs, fd, bits, w), HeldAt(r.ctxs, fd, w)))
      && Conserved(r, r')
  {
    var r1 := if Has(bits, false) then Trigger(r, fd, false) else r;
    TriggerIf(r, fd, false, Has(bits, false));
    TriggerIf(r1, fd, true, Has(bits, true) && !r1.aborted);
  }

  /** One of the two tests before a trigger. */
  lemma TriggerIf(r: Registry, fd: nat, write: bool, on: bool)
    requires TableOk(r.ctxs) && fd < |r.ctxs|
    ensures
      var r' := if on then Trigger(r, fd, write) else r;
      && TableOk(r'.ctxs) && r'.kernel == r.kernel
      && r'.aborted == (r.aborted || (on && HeldAt(r.ctxs, fd, write) == []))
      && r'.out == r.out + If(on, HeldAt(r.ctxs, fd, write))
      && OnlyAt(r.ctxs, r'.ctxs, fd, write) && HeldAt(r'.ctxs, fd, write) == If(!on, HeldAt(r.ctxs, fd, write))
      && Conserved(r, r')
  {
    if on { TriggerExact(r, fd, write); }
  }

  /** The bits left in a context after delivering some of them. */
  lemma TriggerAllLeaves(r: Registry, fd: nat, bits: Mask)
    requires TableOk(r.ctxs) && fd < |r.ctxs| && bits & !EVENTS == 0 && !TriggerAll(r, fd, bits).aborted
    ensures
      var c' := TriggerAll(r, fd, bits).ctxs[fd];
      && TriggerAll(r, fd, bits).ctxs == r.ctxs[fd := c']
      && c'.events == Without(r.ctxs[fd].events, bits)
  {
  }
  // ---- the five mutators --------------------------------------------------------------------------------

  /** After one context changes and epoll has been told its new bits, the registry is sound. */
  lemma StaysSound(r: Registry, r': Registry, fd: nat)
    requires Sound(r) && fd < |r.ctxs| && TableOk(r'.ctxs) && !r'.aborted
    requires |r'.ctxs| == |r.ctxs| && r'.ctxs == r.ctxs[fd := r'.ctxs[fd]]
    requires r'.kernel == Told(r.kernel, fd, r'.ctxs[fd].events)
    ensures Sound(r')
  {
    KernelUpdate(r.kernel, r.ctxs, fd, r'.ctxs[fd]);
  }

  /** addEvent registers exactly what it is given, and aborts exactly when that event is taken; a refusal changes nothing. */
  lemma AddEventExact(r: Registry, fd: nat, write: bool, sched: SchedulerId, task: Task, ok: bool)
    requires Sound(r)
    ensures fd < |Grow(r.ctxs, fd)|
    ensures
      var taken := HeldAt(r.ctxs, fd, write) != [];
      var o := AddEvent(r, fd, write, sched, task, ok);
      && (Sound(o.r) <==> !taken) && (o.r.aborted <==> taken)
      && (o.ret == 0 <==> ok && !taken)
      && (if o.ret == 0 then HeldAt(o.r.ctxs, fd, write) == [Reg(sched, task)] && OnlyAt(r.ctxs, o.r.ctxs, fd, write)
          else o.ret == -1 && SameHeld(r.ctxs, o.r.ctxs) && o.r.kernel == r.kernel && o.r.pending == r.pending)
      && Held(o.r.ctxs) == Held(r.ctxs) + (if o.ret == 0 then multiset{Reg(sched, task)} else multiset{})
      && Drift(o.r) == Drift(r) && o.r.out == r.out
  {
    GrowCovers(r.ctxs, fd);
    var g := r.(ctxs := Grow(r.ctxs, fd));
    SoundGrown(r, g);
    HeldByBit(g.ctxs[fd], fd, write);
    if HeldAt(r.ctxs, fd, write) == [] {
      var c := WithEvent(g.ctxs[fd], write, Reg(sched, task));
      BitsApart(g.ctxs[fd].events, write);
      CtlExact(r.kernel, fd, g.ctxs[fd], c.events, ok);
      if ok {
        WithEventOk(g.ctxs[fd], fd, write, Reg(sched, task));
        Replaced(g.ctxs, fd, write, c);
        HeldUpdate(g.ctxs, fd, c);
        Cancel2(Held(g.ctxs[fd := c]), HeldIn(g.ctxs[fd]), multiset{Reg(sched, task)}, Held(g.ctxs));
        StaysSound(g, AddEvent(r, fd, write, sched, task, ok).r, fd);
      }
    }
  }

  lemma Cancel2<T>(a: multiset<T>, b: multiset<T>, c: multiset<T>, d: multiset<T>)
    requires a + b == d + (b + c)
    ensures a == d + c
  {
    Cancel(d, b, c, a);
  }

  lemma SoundGrown(r: Registry, g: Registry)
    requires Sound(r) && TableOk(g.ctxs) && |r.ctxs| <= |g.ctxs| && g == r.(ctxs := g.ctxs)
    requires forall i | 0 <= i < |r.ctxs| :: g.ctxs[i] == r.ctxs[i]
    requires forall i | |r.ctxs| <= i < |g.ctxs| :: g.ctxs[i].events == 0
    ensures Sound(g) && SameHeld(r.ctxs, g.ctxs)
  {
    forall i | 0 <= i < |g.ctxs|
      ensures Mirrors(g.kernel, i, g.ctxs[i])
    {
      if i < |r.ctxs| { assert Mirrors(r.kernel, i, r.ctxs[i]); }
    }
    forall f: nat, w
      ensures HeldAt(g.ctxs, f, w) == HeldAt(r.ctxs, f, w)
    {
      assert |r.ctxs| <= f < |g.ctxs| ==> g.ctxs[f].events == 0;
    }
  }

  /**
   delEvent drops the registration of its event without delivering it.  When that event is not registered but the
   other one is, epoll accepts the unchanged mask and the pending count is one too low from then on.
   */
  lemma DelEventExact(r: Registry, fd: nat, write: bool, ok: bool)
    requires Sound(r)
    ensures
      var here := HeldAt(r.ctxs, fd, write);
      var o := DelEvent(r, fd, write, ok);
      && Sound(o.r) && o.ret in {0, 1}
      && (o.ret == 1 <==> ok && Both(r.ctxs, fd) != [])
      && HeldAt(o.r.ctxs, fd, write) == If(o.ret == 0, here) && OnlyAt(r.ctxs, o.r.ctxs, fd, write)
      && Held(r.ctxs) == Held(o.r.ctxs) + multiset(If(o.ret == 1, here))
      && Drift(o.r) == Drift(r) + (if o.ret == 1 && here == [] then 1 else 0)
      && o.r.out == r.out
      && (o.ret == 0 ==> o.r == r)
  {
    if fd < |r.ctxs| {
      var c := r.ctxs[fd];
      var o := DelEvent(r, fd, write, ok);
      SomeBit(c, fd);
      HeldByBit(c, fd, write);
      CtlExact(r.kernel, fd, c, Without(c.events, Bit(write)), ok);
      if o.ret == 1 {
        ClearedTable(r.ctxs, fd, write);
        ClearedHeld(r.ctxs, fd, write);
        Moved(Held(r.ctxs), Held(o.r.ctxs), r.out, HeldAt(r.ctxs, fd, write));
        StaysSound(r, o.r, fd);
      }
    }
  }

  /** cancelEvent delivers the registration of its event, and aborts exactly when the other event is registered too. */
  lemma CancelEventExact(r: Registry, fd: nat, write: bool, ok: bool)
    requires Sound(r)
    ensures
      var here := HeldAt(r.ctxs, fd, write);
      var o := CancelEvent(r, fd, write, ok);
      && (o.ret == 1 <==> ok && here != []) && o.ret in {0, 1}
      && (o.r.aborted <==> o.ret == 1 && HeldAt(r.ctxs, fd, !write) != []) && (Sound(o.r) <==> !o.r.aborted)
      && o.r.out == r.out + If(o.ret == 1, here)
      && HeldAt(o.r.ctxs, fd, write) == If(o.ret == 0, here) && OnlyAt(r.ctxs, o.r.ctxs, fd, write)
      && Conserved(r, o.r)
      && (o.ret == 0 ==> o.r == r)
  {
    if fd < |r.ctxs| {
      HeldByBit(r.ctxs[fd], fd, write);
      if Has(r.ctxs[fd].events, write) {
        CtlExact(r.kernel, fd, r.ctxs[fd], Without(r.ctxs[fd].events, Bit(write)), ok);
        if ok { CancelAccepted(r, fd, write); }
      }
    }
  }

  /** cancelEvent once epoll has accepted (218-221). */
  lemma CancelAccepted(r: Registry, fd: nat, write: bool)
    requires Sound(r) && fd < |r.ctxs| && HeldAt(r.ctxs, fd, write) != []
    ensures
      var left := Without(r.ctxs[fd].events, Bit(write));
      var r1 := Trigger(r.(kernel := Told(r.kernel, fd, left)), fd, write);
      var r' := r1.(aborted := r1.aborted || r1.ctxs[fd].events != 0);
      && (r'.aborted <==> HeldAt(r.ctxs, fd, !write) != []) && (Sound(r') <==> !r'.aborted)
      && r'.out == r.out + HeldAt(r.ctxs, fd, write)
      && HeldAt(r'.ctxs, fd, write) == [] && OnlyAt(r.ctxs, r'.ctxs, fd, write)
      && Conserved(r, r')
  {
    CancelTriggered(r, fd, write);
  }

  lemma CancelTriggered(r: Registry, fd: nat, write: bool)
    requires Sound(r) && fd < |r.ctxs| && HeldAt(r.ctxs, fd, write) != []
    ensures
      var r1 := Trigger(r.(kernel := Told(r.kernel, fd, Without(r.ctxs[fd].events, Bit(write)))), fd, write);
      && !r1.aborted && (r1.ctxs[fd].events == 0 ==> Sound(r1)) && (r1.ctxs[fd].events != 0 <==> HeldAt(r.ctxs, fd, !write) != [])
      && r1.out == r.out + HeldAt(r.ctxs, fd, write)
      && HeldAt(r1.ctxs, fd, write) == [] && OnlyAt(r.ctxs, r1.ctxs, fd, write)
      && Conserved(r, r1)
  {
    var k := r.(kernel := Told(r.kernel, fd, Without(r.ctxs[fd].events, Bit(write))));
    var r1 := Trigger(k, fd, write);
    HeldByBit(r.ctxs[fd], fd, write);
    TriggerExact(k, fd, write);
    OneLeft(r1.ctxs[fd], fd, write);
    assert HeldAt(r1.ctxs, fd, !write) == HeldAt(r.ctxs, fd, !write);
    StaysSound(r, r1, fd);
  }

  lemma OneLeft(c: Ctx, fd: int, write: bool)
    requires CtxOk(c, fd) && HeldBy(c, write) == []
    ensures c.events != 0 <==> HeldBy(c, !write) != []
  {
    SomeBit(c, fd);
  }

  /** cancelAll delivers both registrations of a descriptor, reading first, and goes wrong exactly at fd == size. */
  lemma CancelAllExact(r: Registry, fd: nat, ok: bool)
    requires Sound(r)
    ensures
      var all := Both(r.ctxs, fd);
      var o := CancelAll(r, fd, ok);
      && (Sound(o.r) <==> fd != |r.ctxs|) && (o.r.aborted <==> fd == |r.ctxs|) && o.ret in {0, 1}
      && (o.ret == 1 <==> ok && all != [])
      && o.r.out == r.out + If(o.ret == 1, all)
      && Both(o.r.ctxs, fd) == If(o.ret == 0, all) && OnlyOf(r.ctxs, o.r.ctxs, fd)
      && Conserved(r, o.r)
      && (o.ret == 0 && fd != |r.ctxs| ==> o.r == r)
  {
    if fd != |r.ctxs| { CancelAllIs(r, fd, ok); }
    if fd < |r.ctxs| {
      SomeBit(r.ctxs[fd], fd);
      if ok && r.ctxs[fd].events != 0 {
        Handed(r, fd, r.ctxs[fd].events);
        AllHanded(r, CancelAll(r, fd, ok).r, fd);
      }
    }
  }

  lemma AllHanded(r: Registry, r': Registry, fd: nat)
    requires Sound(r) && fd < |r.ctxs| && IsHanded(r, r', fd, r.ctxs[fd].events)
    ensures Sound(r') && Both(r'.ctxs, fd) == [] && r'.out == r.out + Both(r.ctxs, fd)
  {
    SomeBit(r.ctxs[fd], fd);
    var bits := r.ctxs[fd].events;
    assert forall w | w in {false, true} :: Has(bits, w) <==> HeldAt(r.ctxs, fd, w) != [];
    Associative(r.out, HeldAt(r.ctxs, fd, false), HeldAt(r.ctxs, fd, true));
    assert HeldAt(r'.ctxs, fd, false) == [] && HeldAt(r'.ctxs, fd, true) == [];
  }

  lemma CancelAllIs(r: Registry, fd: nat, ok: bool)
    requires Sound(r) && fd != |r.ctxs|
    ensures CancelAll(r, fd, ok) ==
      if fd < |r.ctxs| && ok && r.ctxs[fd].events != 0 then Outcome(HandOver(r, fd, r.ctxs[fd].events), 1) else Outcome(r, 0)
  {
    if fd < |r.ctxs| {
      CtlExact(r.kernel, fd, r.ctxs[fd], 0, ok);
      assert r.ctxs[fd].events & !r.ctxs[fd].events == 0;
      if ok && r.ctxs[fd].events != 0 {
        Handed(r, fd, r.ctxs[fd].events);
      }
    }
  }

  predicate AllHeld(r: Registry, fd: nat, bits: Mask) {
    forall w | w in {false, true} && Has(bits, w) :: HeldAt(r.ctxs, fd, w) != []
  }

  predicate NoneHeld(r: Registry, fd: nat, bits: Mask) {
    forall w | w in {false, true} && Has(bits, w) :: HeldAt(r.ctxs, fd, w) == []
  }

  /** The registrations of bits are delivered up to the first that is missing, the others stay; it aborts when one is missing. */
  ghost predicate IsHanded(r: Registry, r': Registry, fd: nat, bits: Mask)
    requires fd < |r.ctxs|
  {
    && (Sound(r') <==> AllHeld(r, fd, bits)) && (r'.aborted <==> !AllHeld(r, fd, bits))
    && |r'.ctxs| == |r.ctxs| && (bits == r.ctxs[fd].events ==> r'.ctxs[fd].events == 0)
    && r'.out == r.out + If(Tried(r.ctxs, fd, bits, false), HeldAt(r.ctxs, fd, false))
                       + If(Tried(r.ctxs, fd, bits, true), HeldAt(r.ctxs, fd, true))
    && (forall w :: HeldAt(r'.ctxs, fd, w) == If(!Tried(r.ctxs, fd, bits, w), HeldAt(r.ctxs, fd, w)))
    && OnlyOf(r.ctxs, r'.ctxs, fd)
    && Conserved(r, r')
  }

  /** The part cancelAll and the dispatch loop share: tell epoll what is left, then trigger. */
  function HandOver(r: Registry, fd: nat, bits: Mask): Registry
    requires fd < |r.ctxs|
  {
    TriggerAll(r.(kernel := Told(r.kernel, fd, Without(r.ctxs[fd].events, bits))), fd, bits)
  }

  lemma Handed(r: Registry, fd: nat, bits: Mask)
    requires Sound(r) && fd < |r.ctxs| && bits & !EVENTS == 0
    ensures IsHanded(r, HandOver(r, fd, bits), fd, bits)
  {
    var k := r.(kernel := Told(r.kernel, fd, Without(r.ctxs[fd].events, bits)));
    var r' := TriggerAll(k, fd, bits);
    TriggerAllExact(k, fd, bits);
    SomeBit(r.ctxs[fd], fd);
    if !r'.aborted {
      TriggerAllLeaves(k, fd, bits);
      StaysSound(r, r', fd);
    }
    assert r.ctxs[fd].events & !r.ctxs[fd].events == 0;
  }

  /** Every event epoll reports in this entry is registered, or none is, or epoll refuses the change. */
  predicate Covered(r: Registry, e: Ready)
    requires e.fd < |r.ctxs|
  {
    var found := RealEvents(e.bits);
    || !e.ok
    || AllHeld(r, e.fd, found)
    || NoneHeld(r, e.fd, found)
  }

  /** What the entry makes the loop deliver: nothing after a failed assertion. */
  function Reported(r: Registry, e: Ready): seq<Reg> {
    var found := RealEvents(e.bits);
    If(e.ok && Tried(r.ctxs, e.fd, found, false), HeldAt(r.ctxs, e.fd, false))
    + If(e.ok && Tried(r.ctxs, e.fd, found, true), HeldAt(r.ctxs, e.fd, true))
  }

  /**
   The dispatch loop delivers what is registered among the events found, reading first, and aborts exactly when it finds
   one event registered and the other not, at the one that is not: it does not mask what it finds with what is registered.
   */
  lemma DispatchExact(r: Registry, e: Ready)
    requires Sound(r) && e.fd < |r.ctxs|
    ensures
      var r' := DispatchOne(r, e);
      && (Sound(r') <==> Covered(r, e)) && (r'.aborted <==> !Covered(r, e))
      && r'.out == r.out + Reported(r, e)
      && (forall w :: HeldAt(r'.ctxs, e.fd, w) == If(!(e.ok && Tried(r.ctxs, e.fd, RealEvents(e.bits), w)), HeldAt(r.ctxs, e.fd, w)))
      && OnlyOf(r.ctxs, r'.ctxs, e.fd)
      && Conserved(r, r')
      && (!e.ok || NoneHeld(r, e.fd, RealEvents(e.bits)) ==> r' == r)
  {
    DispatchIs(r, e);
    var found := RealEvents(e.bits);
    SomeBit(r.ctxs[e.fd], e.fd);
    FoundBits(r.ctxs[e.fd].events, found);
    if r.ctxs[e.fd].events & found != 0 && e.ok {
      Handed(r, e.fd, found);
      FoundHanded(r, DispatchOne(r, e), e);
    }
  }

  lemma FoundHanded(r: Registry, r': Registry, e: Ready)
    requires Sound(r) && e.fd < |r.ctxs| && IsHanded(r, r', e.fd, RealEvents(e.bits)) && e.ok && !NoneHeld(r, e.fd, RealEvents(e.bits))
    ensures (Sound(r') <==> Covered(r, e)) && (r'.aborted <==> !Covered(r, e))
    ensures r'.out == r.out + Reported(r, e)
  {
    var found := RealEvents(e.bits);
    Associative(r.out, If(Tried(r.ctxs, e.fd, found, false), HeldAt(r.ctxs, e.fd, false)),
                If(Tried(r.ctxs, e.fd, found, true), HeldAt(r.ctxs, e.fd, true)));
  }

  lemma DispatchIs(r: Registry, e: Ready)
    requires Sound(r) && e.fd < |r.ctxs|
    ensures DispatchOne(r, e) ==
      if r.ctxs[e.fd].events & RealEvents(e.bits) != 0 && e.ok then HandOver(r, e.fd, RealEvents(e.bits)) else r
  {
    var c := r.ctxs[e.fd];
    CtlExact(r.kernel, e.fd, c, Without(c.events, RealEvents(e.bits)), e.ok);
    FoundBits(c.events, RealEvents(e.bits));
  }

  lemma FoundBits(events: Mask, found: Mask)
    ensures events == 0 ==> events & found == 0
    ensures found & !EVENTS == 0 ==>
      (events & found == 0 <==> !(Has(events, false) && Has(found, false)) && !(Has(events, true) && Has(found, true)))
  {
  }

  // ---- whole runs ---------------------------------------------------------------------------------------

  /** One operation under the lock of its context; several threads and the entries of a batch interleave freely. */
  datatype Op =
    | Add(fd: nat, write: bool, scheduler: SchedulerId, task: Task, ok: bool)
    | Del(fd: nat, write: bool, ok: bool)
    | CancelOne(fd: nat, write: bool, ok: bool)
    | CancelBoth(fd: nat, ok: bool)
    | Report(e: Ready)

  /** epoll reports only contexts it was given, and growing the table covers fd. */
  predicate Legal(r: Registry, op: Op) {
    match op
    case Report(e) => e.fd < |r.ctxs|
    case Add(fd, _, _, _, _) => fd < |Grow(r.ctxs, fd)|
    case _ => true
  }

  function Do(r: Registry, op: Op): Outcome
    requires Legal(r, op)
  {
    match op
    case Add(fd, write, sched, task, ok) => AddEvent(r, fd, write, sched, task, ok)
    case Del(fd, write, ok) => DelEvent(r, fd, write, ok)
    case CancelOne(fd, write, ok) => CancelEvent(r, fd, write, ok)
    case CancelBoth(fd, ok) => CancelAll(r, fd, ok)
    case Report(e) => Outcome(DispatchOne(r, e), 0)
  }

  /** A failed assertion ends the run. */
  predicate IsRun(r: Registry, ops: seq<Op>)
    decreases |ops|
  {
    ops == [] || (!r.aborted && Legal(r, ops[0]) && IsRun(Do(r, ops[0]).r, ops[1..]))
  }

  function After(r: Registry, ops: seq<Op>): Registry
    requires IsRun(r, ops)
    decreases |ops|
  {
    if ops == [] then r else After(Do(r, ops[0]).r, ops[1..])
  }

  /** What addEvent registered: it answered 0. */
  function AddedBy(r: Registry, op: Op): multiset<Reg>
    requires Legal(r, op)
  {
    if op.Add? && Do(r, op).ret == 0 then multiset{Reg(op.scheduler, op.task)} else multiset{}
  }

  /** What delEvent dropped. */
  function DeletedBy(r: Registry, op: Op): multiset<Reg>
    requires Legal(r, op)
  {
    if op.Del? && Do(r, op).ret == 1 then multiset(HeldAt(r.ctxs, op.fd, op.write)) else multiset{}
  }

  function Added(r: Registry, ops: seq<Op>): multiset<Reg>
    requires IsRun(r, ops)
    decreases |ops|
  {
    if ops == [] then multiset{} else AddedBy(r, ops[0]) + Added(Do(r, ops[0]).r, ops[1..])
  }

  function Deleted(r: Registry, ops: seq<Op>): multiset<Reg>
    requires IsRun(r, ops)
    decreases |ops|
  {
    if ops == [] then multiset{} else DeletedBy(r, ops[0]) + Deleted(Do(r, ops[0]).r, ops[1..])
  }

  /** delEvent of an event that is not registered, while the other one is, accepted by epoll. */
  predicate Miscounts(r: Registry, op: Op) {
    op.Del? && op.ok && HeldAt(r.ctxs, op.fd, op.write) == [] && HeldAt(r.ctxs, op.fd, !op.write) != []
  }

  /** The operation's assertions hold. */
  predicate Asserts(r: Registry, op: Op)
    requires Legal(r, op)
  {
    match op
    case Add(fd, write, _, _, _) => HeldAt(r.ctxs, fd, write) == []
    case Del(_, _, _) => true
    case CancelOne(fd, write, ok) => !ok || HeldAt(r.ctxs, fd, write) == [] || HeldAt(r.ctxs, fd, !write) == []
    case CancelBoth(fd, _) => fd != |r.ctxs|
    case Report(e) => Covered(r, e)
  }

  /** Steps of the run that made the pending count too low. */
  function Miscounted(r: Registry, ops: seq<Op>): nat
    requires IsRun(r, ops)
    decreases |ops|
  {
    if ops == [] then 0 else (if Miscounts(r, ops[0]) then 1 else 0) + Miscounted(Do(r, ops[0]).r, ops[1..])
  }

  /** Every operation of the run meets its assertions where it is made. */
  predicate AllAssert(r: Registry, ops: seq<Op>)
    requires IsRun(r, ops)
    decreases |ops|
  {
    ops == [] || (Asserts(r, ops[0]) && AllAssert(Do(r, ops[0]).r, ops[1..]))
  }

  /** The ledger of one operation, whether or not it aborts. */
  ghost predicate Booked(r: Registry, r': Registry, added: multiset<Reg>, deleted: multiset<Reg>, miscounted: int) {
    && Held(r'.ctxs) + multiset(r'.out) + deleted == Held(r.ctxs) + multiset(r.out) + added
    && Drift(r') == Drift(r) + miscounted
  }

  /** The ledger read off the change of each part. */
  lemma Books(r: Registry, r': Registry, added: multiset<Reg>, deleted: multiset<Reg>, miscounted: int)
    requires r'.out == r.out && Held(r'.ctxs) + deleted == Held(r.ctxs) + added && Drift(r') == Drift(r) + miscounted
    ensures Booked(r, r', added, deleted, miscounted)
  {
    forall x
      ensures (Held(r'.ctxs) + multiset(r'.out) + deleted)[x] == (Held(r.ctxs) + multiset(r.out) + added)[x]
    {
      assert (Held(r'.ctxs) + deleted)[x] == (Held(r.ctxs) + added)[x];
    }
  }

  lemma AddBooks(r: Registry, op: Op)
    requires Sound(r) && op.Add? && Legal(r, op)
    ensures Booked(r, Do(r, op).r, AddedBy(r, op), DeletedBy(r, op), 0)
  {
    AddEventExact(r, op.fd, op.write, op.scheduler, op.task, op.ok);
    Books(r, Do(r, op).r, AddedBy(r, op), DeletedBy(r, op), 0);
  }

  lemma DelBooks(r: Registry, op: Op)
    requires Sound(r) && op.Del? && Legal(r, op)
    ensures Booked(r, Do(r, op).r, AddedBy(r, op), DeletedBy(r, op), if Miscounts(r, op) then 1 else 0)
  {
    DelEventExact(r, op.fd, op.write, op.ok);
    BothOrNone(r, op.fd, op.write);
    Books(r, Do(r, op).r, AddedBy(r, op), DeletedBy(r, op), if Miscounts(r, op) then 1 else 0);
  }

  lemma BothOrNone(r: Registry, fd: nat, write: bool)
    ensures Both(r.ctxs, fd) == [] <==> HeldAt(r.ctxs, fd, write) == [] && HeldAt(r.ctxs, fd, !write) == []
  {
  }

  lemma StepBooks(r: Registry, op: Op)
    requires Sound(r) && Legal(r, op)
    ensures Booked(r, Do(r, op).r, AddedBy(r, op), DeletedBy(r, op), if Miscounts(r, op) then 1 else 0)
  {
    match op
    case Add(fd, write, sched, task, ok) => AddBooks(r, op);
    case Del(fd, write, ok) => DelBooks(r, op);
    case CancelOne(fd, write, ok) => CancelEventExact(r, fd, write, ok);
    case CancelBoth(fd, ok) => CancelAllExact(r, fd, ok);
    case Report(e) => DispatchExact(r, e);
  }

  /** An operation keeps the registry sound when its assertions hold, and aborts when they do not. */
  lemma StepSound(r: Registry, op: Op)
    requires Sound(r) && Legal(r, op)
    ensures (Sound(Do(r, op).r) <==> Asserts(r, op)) && (Do(r, op).r.aborted <==> !Asserts(r, op))
  {
    match op
    case Add(fd, write, sched, task, ok) => AddEventExact(r, fd, write, sched, task, ok);
    case Del(fd, write, ok) => DelEventExact(r, fd, write, ok);
    case CancelOne(fd, write, ok) => CancelEventExact(r, fd, write, ok);
    case CancelBoth(fd, ok) => CancelAllExact(r, fd, ok);
    case Report(e) => DispatchExact(r, e);
  }

  lemma JoinBooks(r: Registry, r1: Registry, r2: Registry, a1: multiset<Reg>, a2: multiset<Reg>, d1: multiset<Reg>, d2: multiset<Reg>, m1: int, m2: int)
    requires Booked(r, r1, a1, d1, m1) && Booked(r1, r2, a2, d2, m2)
    ensures Booked(r, r2, a1 + a2, d1 + d2, m1 + m2)
  {
    forall x
      ensures (Held(r2.ctxs) + multiset(r2.out) + (d1 + d2))[x] == (Held(r.ctxs) + multiset(r.out) + (a1 + a2))[x]
    {
      assert (Held(r1.ctxs) + multiset(r1.out) + d1)[x] == (Held(r.ctxs) + multiset(r.out) + a1)[x];
      assert (Held(r2.ctxs) + multiset(r2.out) + d2)[x] == (Held(r1.ctxs) + multiset(r1.out) + a2)[x];
    }
  }

  lemma {:induction false} RunBooks(r: Registry, ops: seq<Op>)
    requires Sound(r) && IsRun(r, ops)
    ensures Booked(r, After(r, ops), Added(r, ops), Deleted(r, ops), Miscounted(r, ops))
    decreases |ops|
  {
    if ops != [] {
      var r1 := Do(r, ops[0]).r;
      StepBooks(r, ops[0]);
      StepSound(r, ops[0]);
      if r1.aborted {
        assert ops[1..] == [];
        JoinBooks(r, r1, r1, AddedBy(r, ops[0]), multiset{}, DeletedBy(r, ops[0]), multiset{},
                  if Miscounts(r, ops[0]) then 1 else 0, 0);
      } else {
        RunBooks(r1, ops[1..]);
        JoinBooks(r, r1, After(r1, ops[1..]), AddedBy(r, ops[0]), Added(r1, ops[1..]), DeletedBy(r, ops[0]), Deleted(r1, ops[1..]),
                  if Miscounts(r, ops[0]) then 1 else 0, Miscounted(r1, ops[1..]));
      }
    }
  }

  lemma {:induction false} RunSound(r: Registry, ops: seq<Op>)
    requires Sound(r) && IsRun(r, ops)
    ensures Sound(After(r, ops)) <==> AllAssert(r, ops)
    decreases |ops|
  {
    if ops != [] {
      StepSound(r, ops[0]);
      if !Do(r, ops[0]).r.aborted { RunSound(Do(r, ops[0]).r, ops[1..]); }
    }
  }

  /**
   Over any run of a new manager, every registration addEvent accepted has been handed to its scheduler once, was
   deleted once, or is still in the table, never two of these.
   */
  lemma ExactlyOnce(ops: seq<Op>)
    requires IsRun(Fresh(), ops)
    ensures
      var end := After(Fresh(), ops);
      Added(Fresh(), ops) == multiset(end.out) + Deleted(Fresh(), ops) + Held(end.ctxs)
  {
    FreshValid();
    RunBooks(Fresh(), ops);
    var end := After(Fresh(), ops);
    assert multiset(Fresh().out) == multiset{};
    Regroup(Held(end.ctxs), multiset(end.out), Deleted(Fresh(), ops), Added(Fresh(), ops));
  }

  lemma Regroup<T>(a: multiset<T>, b: multiset<T>, c: multiset<T>, d: multiset<T>)
    requires a + b + c == multiset{} + multiset{} + d
    ensures d == b + c + a
  {
    assert d == a + b + c;
  }

  /** Bits, slots, kernel and pending count agree after a run exactly when no assertion failed and nothing was miscounted. */
  lemma AgreementExact(ops: seq<Op>)
    requires IsRun(Fresh(), ops)
    ensures Valid(After(Fresh(), ops)) <==> AllAssert(Fresh(), ops) && Miscounted(Fresh(), ops) == 0
    ensures After(Fresh(), ops).pending == |Held(After(Fresh(), ops).ctxs)| - Miscounted(Fresh(), ops)
  {
    FreshValid();
    RunBooks(Fresh(), ops);
    RunSound(Fresh(), ops);
  }

  /** The dispatch loop over a batch is a run of its entries, so all of the above holds of it; an abort ends it early. */
  function Reports(batch: seq<Ready>): seq<Op> { seq(|batch|, i requires 0 <= i < |batch| => Report(batch[i])) }

  /** EPOLLIN, an error or a hang-up is reading; EPOLLOUT, an error or a hang-up is writing; nothing else is an event (323-334). */
  lemma RealEventsExact(bits: Mask)
    ensures Has(RealEvents(bits), false) <==> bits & 0x19 != 0
    ensures Has(RealEvents(bits), true) <==> bits & 0x1C != 0
    ensures RealEvents(bits) & !0x5 == 0
  {
  }

  /** The dispatch of one entry, from the bits epoll reports. */
  lemma DispatchBits(r: Registry, e: Ready)
    requires Sound(r) && e.fd < |r.ctxs|
    ensures
      var r' := DispatchOne(r, e);
      var reading, writing := HeldAt(r.ctxs, e.fd, false), HeldAt(r.ctxs, e.fd, true);
      var read, write := e.ok && e.bits & 0x19 != 0, e.ok && e.bits & 0x1C != 0;
      && (r'.aborted <==> read && write && (reading == []) != (writing == []))
      && (!r'.aborted ==>
            && r'.out == r.out + If(read, reading) + If(write, writing)
            && HeldAt(r'.ctxs, e.fd, false) == If(!read, reading) && HeldAt(r'.ctxs, e.fd, true) == If(!write, writing))
  {
    RealEventsExact(e.bits);
    DispatchExact(r, e);
    BitsCovered(r, e);
    var found := RealEvents(e.bits);
    Associative(r.out, If(e.ok && Tried(r.ctxs, e.fd, found, false), HeldAt(r.ctxs, e.fd, false)),
                If(e.ok && Tried(r.ctxs, e.fd, found, true), HeldAt(r.ctxs, e.fd, true)));
  }

  lemma BitsCovered(r: Registry, e: Ready)
    requires e.fd < |r.ctxs|
    ensures Covered(r, e) <==>
      !(e.ok && e.bits & 0x19 != 0 && e.bits & 0x1C != 0
        && (HeldAt(r.ctxs, e.fd, false) == []) != (HeldAt(r.ctxs, e.fd, true) == []))
  {
    RealEventsExact(e.bits);
    var found := RealEvents(e.bits);
    assert AllHeld(r, e.fd, found) <==>
      (Has(found, false) ==> HeldAt(r.ctxs, e.fd, false) != []) && (Has(found, true) ==> HeldAt(r.ctxs, e.fd, true) != []);
    assert NoneHeld(r, e.fd, found) <==>
      (Has(found, false) ==> HeldAt(r.ctxs, e.fd, false) == []) && (Has(found, true) ==> HeldAt(r.ctxs, e.fd, true) == []);
  }

  /** How many entries the loop takes: all, or up to the one that aborts. */
  function Handled(r: Registry, batch: seq<Ready>): (k: nat)
    requires forall e | e in batch :: e.fd < |r.ctxs|
    ensures k <= |batch|
    decreases |batch|
  {
    if batch == [] || r.aborted then 0 else 1 + Handled(DispatchOne(r, batch[0]), batch[1..])
  }

  lemma {:induction false} BatchIsRun(r: Registry, batch: seq<Ready>)
    requires Sound(r) && forall e | e in batch :: e.fd < |r.ctxs|
    ensures
      var k := Handled(r, batch);
      && IsRun(r, Reports(batch[..k])) && After(r, Reports(batch[..k])) == Dispatch(r, batch)
      && (k == |batch| || Dispatch(r, batch).aborted)
    ensures Sound(Dispatch(r, batch)) <==> IsRun(r, Reports(batch)) && AllAssert(r, Reports(batch))
    decreases |batch|
  {
    if batch != [] {
      var r1, k := DispatchOne(r, batch[0]), Handled(r, batch);
      assert batch[..k][1..] == batch[1..][..k - 1];
      BatchStep(r, batch);
      BatchStep(r, batch[..k]);
      StepSound(r, Report(batch[0]));
      if r1.aborted {
        assert batch[..k][1..] == [];
      } else {
        BatchIsRun(r1, batch[1..]);
      }
    }
  }

  lemma BatchStep(r: Registry, batch: seq<Ready>)
    requires !r.aborted && batch != [] && forall e | e in batch :: e.fd < |r.ctxs|
    ensures
      var r1, ops, rest := DispatchOne(r, batch[0]), Reports(batch), Reports(batch[1..]);
      && ops[0] == Report(batch[0]) && Legal(r, ops[0]) && Do(r, ops[0]).r == r1
      && Dispatch(r, batch) == Dispatch(r1, batch[1..])
      && (IsRun(r, ops) <==> IsRun(r1, rest))
      && (IsRun(r, ops) ==> After(r, ops) == After(r1, rest))
      && (IsRun(r, ops) ==> (AllAssert(r, ops) <==> Asserts(r, ops[0]) && AllAssert(r1, rest)))
  {
    assert Reports(batch)[1..] == Reports(batch[1..]);
  }

  // ---- runs that break the agreement --------------------------------------------------------------------

  lemma TwoSteps(r: Registry, a: Op, b: Op)
    requires !r.aborted && Legal(r, a) && !Do(r, a).r.aborted && Legal(Do(r, a).r, b)
    ensures IsRun(r, [a, b]) && After(r, [a, b]) == Do(Do(r, a).r, b).r
  {
    assert [a, b][1..] == [b] && [b][1..] == [];
    assert IsRun(Do(r, a).r, [b]);
    assert After(Do(r, a).r, [b]) == After(Do(Do(r, a).r, b).r, []);
  }

  function OneReader(sched: SchedulerId, task: Task): Op { Add(5, false, sched, task, true) }

  lemma OneReaderIs(sched: SchedulerId, task: Task)
    ensures Legal(Fresh(), OneReader(sched, task)) && !Fresh().aborted
    ensures
      var r := Do(Fresh(), OneReader(sched, task)).r;
      Sound(r) && |r.ctxs| >= 32 && r.pending == 1 && HeldAt(r.ctxs, 5, false) == [Reg(sched, task)] && HeldAt(r.ctxs, 5, true) == []
  {
    FreshValid();
    assert !Has(Fresh().ctxs[5].events, false) && !Has(Fresh().ctxs[5].events, true);
    AddEventExact(Fresh(), 5, false, sched, task, true);
    var r := Do(Fresh(), OneReader(sched, task)).r;
    assert Held(r.ctxs) == multiset{Reg(sched, task)};
  }

  /** Deleting the unregistered event of a descriptor leaves a registration the pending count does not see. */
  lemma DeleteMiscounts(sched: SchedulerId, task: Task)
    ensures
      var ops := [OneReader(sched, task), Del(5, true, true)];
      && IsRun(Fresh(), ops) && !After(Fresh(), ops).aborted
      && After(Fresh(), ops).pending == 0 && HeldAt(After(Fresh(), ops).ctxs, 5, false) == [Reg(sched, task)]
  {
    OneReaderIs(sched, task);
    var r := Do(Fresh(), OneReader(sched, task)).r;
    TwoSteps(Fresh(), OneReader(sched, task), Del(5, true, true));
    DelEventExact(r, 5, true, true);
    BothOrNone(r, 5, true);
    assert If(false, HeldAt(r.ctxs, 5, true)) == [];
  }

  /** A hang-up on a descriptor with only reading registered fails triggerEvent's assertion. */
  lemma HangUpAborts(sched: SchedulerId, task: Task)
    ensures
      var ops := [OneReader(sched, task), Report(Ready(5, 0x10, true))];
      IsRun(Fresh(), ops) && After(Fresh(), ops).aborted
  {
    OneReaderIs(sched, task);
    var r, e := Do(Fresh(), OneReader(sched, task)).r, Ready(5, 0x10, true);
    TwoSteps(Fresh(), OneReader(sched, task), Report(e));
    DispatchExact(r, e);
    HangUpUncovered(r, e);
  }

  lemma HangUpUncovered(r: Registry, e: Ready)
    requires e.fd < |r.ctxs| && e.ok && e.bits == 0x10 && HeldAt(r.ctxs, e.fd, false) != [] && HeldAt(r.ctxs, e.fd, true) == []
    ensures !Covered(r, e)
  {
    assert RealEvents(e.bits) == 5;
    assert Has(5, true) && Has(5, false);
  }

  /** cancelEvent of one of two registered events fails the assertion that nothing is left (221). */
  lemma SharedCancelAborts(sched: SchedulerId, task: Task)
    ensures
      var ops := [OneReader(sched, task), Add(5, true, sched, task, true), CancelOne(5, false, true)];
      IsRun(Fresh(), ops) && After(Fresh(), ops).aborted
  {
    OneReaderIs(sched, task);
    var both := [OneReader(sched, task), Add(5, true, sched, task, true)];
    var r := Do(Fresh(), OneReader(sched, task)).r;
    TwoSteps(Fresh(), both[0], both[1]);
    AddEventExact(r, 5, true, sched, task, true);
    var r2 := Do(r, both[1]).r;
    assert HeldAt(r2.ctxs, 5, false) == HeldAt(r.ctxs, 5, false);
    CancelEventExact(r2, 5, false, true);
    var cancel := CancelOne(5, false, true);
    OneMore(Fresh(), both, cancel);
    assert both + [cancel] == [OneReader(sched, task), Add(5, true, sched, task, true), cancel];
  }

  lemma {:induction false} OneMore(r: Registry, ops: seq<Op>, op: Op)
    requires IsRun(r, ops) && !After(r, ops).aborted && Legal(After(r, ops), op)
    ensures IsRun(r, ops + [op]) && After(r, ops + [op]) == Do(After(r, ops), op).r
    decreases |ops|
  {
    if ops == [] {
      assert ops + [op] == [op] && [op][1..] == [];
    } else {
      assert (ops + [op])[1..] == ops[1..] + [op];
      OneMore(Do(r, ops[0]).r, ops[1..], op);
    }
  }

  /** A hang-up on a descriptor with only writing registered fails at reading, and delivers nothing. */
  lemma HangUpDeliversNothing(r: Registry, fd: nat)
    requires Sound(r) && fd < |r.ctxs| && HeldAt(r.ctxs, fd, false) == [] && HeldAt(r.ctxs, fd, true) != []
    ensures
      var r' := DispatchOne(r, Ready(fd, 0x10, true));
      r'.aborted && r'.out == r.out && HeldAt(r'.ctxs, fd, true) == HeldAt(r.ctxs, fd, true)
  {
    var e := Ready(fd, 0x10, true);
    assert RealEvents(e.bits) == 5 && Has(5, true) && Has(5, false);
    DispatchExact(r, e);
    assert Reported(r, e) == [];
  }

  // ---- a table resized late ---------------------------------------------------------------------------

  /**
   addEvent drops its lock between finding the table too small and resizing it (100-109).  If another call has grown
   the table meanwhile, it is resized all the same.
   */
  function ResizeLate(r: Registry, fd: nat): Registry { r.(ctxs := Resize(r.ctxs, fd * 3 / 2)) }

  /** The table still agrees with the kernel if and only if no context that is cut off has a registration. */
  lemma ResizeLateExact(r: Registry, fd: nat)
    requires Sound(r) && fd >= 32
    ensures fd < |ResizeLate(r, fd).ctxs|
    ensures Sound(ResizeLate(r, fd)) <==> forall i | fd * 3 / 2 <= i < |r.ctxs| :: Both(r.ctxs, i) == []
  {
    var r' := ResizeLate(r, fd);
    forall i | fd * 3 / 2 <= i < |r.ctxs|
      ensures Both(r.ctxs, i) == [] <==> i !in r.kernel
    {
      SomeBit(r.ctxs[i], i);
      assert Mirrors(r.kernel, i, r.ctxs[i]);
    }
    forall i | 0 <= i < |r'.ctxs| && i < |r.ctxs|
      ensures r'.ctxs[i] == r.ctxs[i] && Mirrors(r'.kernel, i, r'.ctxs[i])
    {
      assert Mirrors(r.kernel, i, r.ctxs[i]);
    }
    assert TableOk(r'.ctxs) by {
      assert forall i | |r.ctxs| <= i < |r'.ctxs| :: r'.ctxs[i] == NewCtx(i);
    }
  }

  /** addEvent of fd 40, late after addEvent of fd 100, loses the registration of fd 100. */
  lemma ResizeLateLoses(sched: SchedulerId, task: Task)
    ensures
      var r := Do(Fresh(), Add(100, false, sched, task, true)).r;
      HeldAt(r.ctxs, 100, false) == [Reg(sched, task)] && HeldAt(ResizeLate(r, 40).ctxs, 100, false) == []
  {
    FreshValid();
    assert HeldAt(Fresh().ctxs, 100, false) == [];
    AddEventExact(Fresh(), 100, false, sched, task, true);
  }
}
