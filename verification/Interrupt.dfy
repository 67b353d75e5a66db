/**
 Interrupt dispatch. A poll takes the signalled bits, runs the handler of each enabled one to
 its end and puts the interrupted context back. Handlers are arbitrary action lists.
 */
module Interrupt {
  import opened Types
  import opened CpuMode

  /** A 32-bit mask as the set of its bits. */
  type Bits = s: set<nat> | forall b :: b in s ==> b < 32

  type BitNo = b: nat | b < 32

  /** What a handler can do; `Poll` is what each of its branches does first. */
  datatype Action =
    | Fire(bit: BitNo)
    | Poll
    | SetIE(ie: Bits)
    | SetIME(ime: bool)
    | SetIF(flags: Bits)
    | SetHandler(addr: bv32)
    | SetProc(proc: Proc)

  /** A dispatch: the bit, and the handler address read for it. */
  datatype Dispatch = Dispatch(bit: BitNo, addr: bv32)

  /** `handler` is the word the handler's address is read from. `log` and `fired` are the
      history of dispatches and of fired bits; the source has no such variables. */
  datatype Irq = Irq(signaled: Bits, inside: bool, ime: bool, ie: Bits, flags: Bits, vblank: bool,
                     handler: bv32, proc: Proc, log: seq<Dispatch>, fired: seq<BitNo>)

  /** What a handler does when entered in a state, and which bits other threads fire before
      each turn of the poll loop. */
  datatype World = World(handler: (BitNo, Irq) -> seq<Action>, meanwhile: nat -> seq<BitNo>)

  /** `fire` */
  function Fired(s: Irq, b: BitNo): Irq {
    s.(signaled := s.signaled + {b}, vblank := s.vblank || b == 0, fired := s.fired + [b])
  }

  function FiredAll(s: Irq, bits: seq<BitNo>): (r: Irq)
    ensures r == s.(signaled := r.signaled, vblank := r.vblank, fired := r.fired)
    decreases |bits|
  {
    if bits == [] then s else FiredAll(Fired(s, bits[0]), bits[1..])
  }

  /** The interrupt mode with the handler's address: what the handler starts in. */
  function Entry(s: Irq, bit: BitNo): Irq {
    s.(flags := {bit}, inside := true, log := s.log + [Dispatch(bit, s.handler)],
       proc := WriteReg(CpsrLoaded(s.proc, 0x12, 0x1F), 15, s.handler))
  }

  /** Back to the interrupted mode, whose context is overwritten with the copy made before. */
  function Leave(backup: Context, p: Proc): Proc {
    var q := CpsrLoaded(p, backup.cpsr, 0x1F);
    q.(contexts := q.contexts[q.mode := backup])
  }

  function Act(cpu: Cpu, w: World, s: Irq, a: Action): (r: Irq)
    requires s.inside
    ensures r.inside && r.log == s.log
    decreases 0, 1, 0
  {
    match a
    case Fire(b) => Fired(s, b)
    case Poll => Polled(cpu, w, s)
    case SetIE(ie) => s.(ie := ie)
    case SetIME(ime) => s.(ime := ime)
    case SetIF(flags) => s.(flags := flags)
    case SetHandler(addr) => s.(handler := addr)
    case SetProc(proc) => s.(proc := proc)
  }

  function Handled(cpu: Cpu, w: World, s: Irq, actions: seq<Action>): (r: Irq)
    requires s.inside
    ensures r.inside && r.log == s.log
    decreases 0, 1, |actions|
  {
    if actions == [] then s else Handled(cpu, w, Act(cpu, w, s, actions[0]), actions[1..])
  }

  /** `switch_and_invoke_old` */
  function Dispatched(cpu: Cpu, w: World, s: Irq, bit: BitNo): (r: Irq)
    ensures !r.inside && r.log == s.log + [Dispatch(bit, s.handler)]
    decreases 1, 0, 0
  {
    var t := Handled(cpu, w, Entry(s, bit), w.handler(bit, Entry(s, bit)));
    t.(inside := false, proc := Leave(s.proc.Ctx(), t.proc))
  }

  /** The state in which turn `i` decides, and after the turn. */
  function AtTurn(w: World, s: Irq, i: BitNo): Irq { FiredAll(s, w.meanwhile(i)) }

  function AfterTurn(cpu: Cpu, w: World, s: Irq, intr: Bits, i: BitNo): (r: Irq)
    requires !s.inside
    ensures !r.inside
    decreases 1, 0, 1
  {
    var t := AtTurn(w, s, i);
    if i in intr && i in t.ie then Dispatched(cpu, w, t, i) else t
  }

  /** After the first `n` turns of the loop over the mask. */
  function After(cpu: Cpu, w: World, s: Irq, intr: Bits, n: nat): (r: Irq)
    requires !s.inside && n <= 32
    ensures !r.inside
    decreases 1, 1, n
  {
    if n == 0 then s else AfterTurn(cpu, w, After(cpu, w, s, intr, n - 1), intr, n - 1)
  }

  /** The ARM7 masks what it takes with the enabled bits first, the ARM9 does not. */
  function TakenBits(cpu: Cpu, s: Irq): Bits { if cpu.Arm7? then s.signaled * s.ie else s.signaled }

  /** `poll_process` */
  function Polled(cpu: Cpu, w: World, s: Irq): (r: Irq)
    ensures s.inside || !s.ime ==> r == s
    ensures !s.inside ==> !r.inside
    decreases (if s.inside then 0 else 1), (if s.inside then 0 else 2), 0
  {
    if s.inside || !s.ime then s
    else After(cpu, w, s.(signaled := {}), TakenBits(cpu, s), 32)
  }

  // ----- signalled bits -----

  function BitsIn(bits: seq<BitNo>): Bits { set b | b in bits }

  /** Between two states nothing but fires touched the signalled bits. */
  ghost predicate OnlyFires(s: Irq, r: Irq) {
    && |s.fired| <= |r.fired| && r.fired[..|s.fired|] == s.fired
    && r.signaled == s.signaled + BitsIn(r.fired[|s.fired|..])
  }

  lemma FiresCompose(a: Irq, b: Irq, c: Irq)
    requires OnlyFires(a, b) && OnlyFires(b, c)
    ensures OnlyFires(a, c)
  {
    var n, m := |a.fired|, |b.fired|;
    assert c.fired[n..] == b.fired[n..] + c.fired[m..] by {
      assert c.fired[..m] == b.fired;
      assert c.fired == b.fired + c.fired[m..];
    }
  }

  lemma FiredOnly(s: Irq, b: BitNo)
    ensures OnlyFires(s, Fired(s, b))
  {
    assert Fired(s, b).fired[|s.fired|..] == [b];
  }

  lemma {:induction false} FiredAllOnly(s: Irq, bits: seq<BitNo>)
    ensures OnlyFires(s, FiredAll(s, bits))
    ensures FiredAll(s, bits).fired == s.fired + bits
    decreases |bits|
  {
    if bits == [] {
      assert s.fired[|s.fired|..] == [];
    } else {
      FiredOnly(s, bits[0]);
      FiredAllOnly(Fired(s, bits[0]), bits[1..]);
      FiresCompose(s, Fired(s, bits[0]), FiredAll(s, bits));
    }
  }

  /** What fires leave: the bits signalled, and the vertical-blank bit noted if bit 0 is among them. */
  lemma {:induction false} FiredBits(s: Irq, bits: seq<BitNo>)
    ensures FiredAll(s, bits).signaled == s.signaled + BitsIn(bits)
    ensures FiredAll(s, bits).vblank <==> s.vblank || 0 in bits
    decreases |bits|
  {
    if bits != [] {
      FiredBits(Fired(s, bits[0]), bits[1..]);
      assert bits == [bits[0]] + bits[1..];
    }
  }

  lemma {:induction false} HandledOnlyFires(cpu: Cpu, w: World, s: Irq, actions: seq<Action>)
    requires s.inside
    ensures OnlyFires(s, Handled(cpu, w, s, actions))
    decreases |actions|
  {
    if actions == [] {
      assert s.fired[|s.fired|..] == [];
    } else {
      var t := Act(cpu, w, s, actions[0]);
      if actions[0].Fire? { FiredOnly(s, actions[0].bit); } else { assert s.fired[|s.fired|..] == []; }
      HandledOnlyFires(cpu, w, t, actions[1..]);
      FiresCompose(s, t, Handled(cpu, w, t, actions[1..]));
    }
  }

  lemma {:induction false} TurnOnlyFires(cpu: Cpu, w: World, s: Irq, intr: Bits, i: BitNo)
    requires !s.inside
    ensures OnlyFires(s, AfterTurn(cpu, w, s, intr, i))
  {
    hide OnlyFires;
    var t := AtTurn(w, s, i);
    FiredAllOnly(s, w.meanwhile(i));
    if i in intr && i in t.ie {
      var e := Entry(t, i);
      HandledOnlyFires(cpu, w, e, w.handler(i, e));
      FiresFrame(t, e, Handled(cpu, w, e, w.handler(i, e)), Dispatched(cpu, w, t, i));
      FiresCompose(s, t, Dispatched(cpu, w, t, i));
    }
  }

  lemma FiresFrame(t: Irq, e: Irq, h: Irq, r: Irq)
    requires OnlyFires(e, h)
    requires e.fired == t.fired && e.signaled == t.signaled && r.fired == h.fired && r.signaled == h.signaled
    ensures OnlyFires(t, r)
  {
  }

  // ----- the loop -----

  ghost predicate Ascending(log: seq<Dispatch>) {
    forall i, j :: 0 <= i < j < |log| ==> log[i].bit < log[j].bit
  }

  /** Bit `b` is dispatched in a log, with the handler address of its turn. */
  ghost predicate HasDispatch(log: seq<Dispatch>, b: BitNo, addr: bv32) { Dispatch(b, addr) in log }

  ghost predicate Mentions(log: seq<Dispatch>, b: BitNo) { exists k :: 0 <= k < |log| && log[k].bit == b }

  /** The dispatches since an earlier state. */
  function LogSince(s: Irq, r: Irq): seq<Dispatch>
    requires |s.log| <= |r.log|
  {
    r.log[|s.log|..]
  }

  ghost predicate LogGrows(s: Irq, r: Irq) { |s.log| <= |r.log| && r.log[..|s.log|] == s.log }

  /** Of the bits below `n`, exactly those taken and enabled at their turn were dispatched,
      each with the handler address of its turn. */
  ghost predicate RightBits(cpu: Cpu, w: World, s: Irq, intr: Bits, n: nat, d: seq<Dispatch>)
    requires !s.inside && n <= 32
  {
    forall b: BitNo :: b < n ==>
      var t := AtTurn(w, After(cpu, w, s, intr, b), b);
      (Mentions(d, b) <==> b in intr && b in t.ie) && (Mentions(d, b) ==> HasDispatch(d, b, t.handler))
  }

  lemma {:induction false} TurnsDispatch(cpu: Cpu, w: World, s: Irq, intr: Bits, n: nat)
    requires !s.inside && n <= 32
    ensures var r := After(cpu, w, s, intr, n);
            && LogGrows(s, r) && Ascending(LogSince(s, r)) && RightBits(cpu, w, s, intr, n, LogSince(s, r))
            && (forall k :: 0 <= k < |LogSince(s, r)| ==> LogSince(s, r)[k].bit < n)
    decreases n
  {
    hide Dispatched, AtTurn, Mentions, HasDispatch, Ascending;
    if n > 0 {
      var i: BitNo := n - 1;
      var q, r := After(cpu, w, s, intr, i), After(cpu, w, s, intr, n);
      TurnsDispatch(cpu, w, s, intr, i);
      var t, d := AtTurn(w, q, i), LogSince(s, q);
      TurnKeepsLog(w, q, i);
      NotYet(d, i);
      if i in intr && i in t.ie {
        assert LogSince(s, r) == d + [Dispatch(i, t.handler)];
        OneMore(d, Dispatch(i, t.handler));
      }
    } else {
      NoDispatch();
    }
  }

  lemma NoDispatch()
    ensures Ascending([])
  {
  }

  lemma NotYet(d: seq<Dispatch>, i: BitNo)
    requires forall k :: 0 <= k < |d| ==> d[k].bit < i
    ensures !Mentions(d, i)
  {
  }

  lemma {:induction false} TurnsOnlyFire(cpu: Cpu, w: World, s: Irq, intr: Bits, n: nat)
    requires !s.inside && n <= 32
    ensures OnlyFires(s, After(cpu, w, s, intr, n))
    decreases n
  {
    hide AfterTurn, OnlyFires;
    if n == 0 {
      NothingFired(s);
    } else {
      var q := After(cpu, w, s, intr, n - 1);
      TurnsOnlyFire(cpu, w, s, intr, n - 1);
      TurnOnlyFires(cpu, w, q, intr, n - 1);
      FiresCompose(s, q, After(cpu, w, s, intr, n));
    }
  }

  lemma NothingFired(s: Irq)
    ensures OnlyFires(s, s)
  {
    assert s.fired[|s.fired|..] == [];
  }

  lemma TurnKeepsLog(w: World, s: Irq, i: BitNo)
    ensures AtTurn(w, s, i).log == s.log && AtTurn(w, s, i).proc == s.proc
  {
  }

  lemma OneMore(d: seq<Dispatch>, x: Dispatch)
    requires Ascending(d) && forall k :: 0 <= k < |d| ==> d[k].bit < x.bit
    ensures Ascending(d + [x])
    ensures forall b: BitNo :: Mentions(d + [x], b) <==> Mentions(d, b) || b == x.bit
    ensures forall b: BitNo, a :: HasDispatch(d, b, a) ==> HasDispatch(d + [x], b, a)
    ensures HasDispatch(d + [x], x.bit, x.addr)
  {
    assert (d + [x])[|d|] == x;
    forall b: BitNo | Mentions(d, b) ensures Mentions(d + [x], b) {
      var k :| 0 <= k < |d| && d[k].bit == b;
      assert (d + [x])[k].bit == b;
    }
  }

  /** A poll outside a handler: every bit taken is dispatched exactly once, in ascending order,
      if it is enabled at its turn, and dropped if not; what is signalled afterwards is exactly
      what was fired meanwhile. */
  lemma {:induction false} PollDispatches(cpu: Cpu, w: World, s: Irq)
    requires !s.inside && s.ime
    ensures var r := Polled(cpu, w, s);
            && LogGrows(s, r) && Ascending(LogSince(s, r)) && !r.inside
            && RightBits(cpu, w, s.(signaled := {}), if cpu == Arm7 then s.signaled * s.ie else s.signaled, 32,
                         LogSince(s, r))
            && |s.fired| <= |r.fired| && r.signaled == BitsIn(r.fired[|s.fired|..])
  {
    hide AfterTurn, RightBits, Ascending;
    TurnsDispatch(cpu, w, s.(signaled := {}), TakenBits(cpu, s), 32);
    TurnsOnlyFire(cpu, w, s.(signaled := {}), TakenBits(cpu, s), 32);
  }

  /** Inside a handler a poll does nothing, so dispatches do not nest: whatever the handler
      does, the log does not grow until it returns. */
  lemma {:induction false} NoNesting(cpu: Cpu, w: World, s: Irq, bit: BitNo, n: nat)
    requires var acts := w.handler(bit, Entry(s, bit)); n < |acts| && acts[n].Poll?
    ensures var during := Handled(cpu, w, Entry(s, bit), w.handler(bit, Entry(s, bit))[..n]);
            during.inside && Act(cpu, w, during, Poll) == during && during.log == Entry(s, bit).log
  {
  }

  // ----- the interrupted context -----

  lemma NamedModeBack(cpsr: bv32, c: bv32)
    ensures ModeOf(Merged(cpsr, c, 0x1F)) == ModeOf(c)
  {
    assert Merged(cpsr, c, 0x1F) & 0x1F == c & 0x1F;
  }

  lemma LeaveMode(backup: Context, p: Proc)
    ensures var q := Leave(backup, p);
            q.Ctx() == backup
            && q.mode == match ModeOf(backup.cpsr) { case Some(m) => m case None => p.mode }
  {
    hide ModeOf, Merged, TouchesFlags, PackFlags;
    NamedModeBack(p.Ctx().cpsr, backup.cpsr);
    assert TouchesMode(0x1F);
  }

  /** The interrupted context and mode come back, whatever the handler made of the processor,
      exactly when the interrupted CPSR names the interrupted mode. */
  lemma RestoredExactlyWhenConsistent(p: Proc)
    ensures (forall q: Proc :: Leave(p.Ctx(), q).mode == p.mode && Leave(p.Ctx(), q).Ctx() == p.Ctx())
       <==> ModeMatches(p)
  {
    hide ModeOf, Leave;
    forall q: Proc ensures Leave(p.Ctx(), q).Ctx() == p.Ctx()
    {
      LeaveMode(p.Ctx(), q);
    }
    if ModeMatches(p) {
      forall q: Proc ensures Leave(p.Ctx(), q).mode == p.mode
      {
        LeaveMode(p.Ctx(), q);
      }
    } else {
      var other: Mode := if p.mode == 0 then 1 else 0;
      LeaveMode(p.Ctx(), p.(mode := other));
      assert Leave(p.Ctx(), p.(mode := other)).mode != p.mode;
    }
  }

  lemma {:induction false} DispatchRestores(cpu: Cpu, w: World, s: Irq, bit: BitNo)
    requires ModeMatches(s.proc)
    ensures var r := Dispatched(cpu, w, s, bit);
            r.proc.mode == s.proc.mode && r.proc.Ctx() == s.proc.Ctx()
  {
    hide ModeOf, Handled, Leave, WriteReg, CpsrLoaded;
    var t := Handled(cpu, w, Entry(s, bit), w.handler(bit, Entry(s, bit)));
    LeaveMode(s.proc.Ctx(), t.proc);
  }

  lemma {:induction false} TurnsRestore(cpu: Cpu, w: World, s: Irq, intr: Bits, n: nat)
    requires !s.inside && n <= 32 && ModeMatches(s.proc)
    ensures var r := After(cpu, w, s, intr, n);
            r.proc.mode == s.proc.mode && r.proc.Ctx() == s.proc.Ctx()
    decreases n
  {
    hide ModeOf, AtTurn, Dispatched;
    if n > 0 {
      var i: BitNo := n - 1;
      TurnsRestore(cpu, w, s, intr, i);
      var q := After(cpu, w, s, intr, i);
      TurnKeepsLog(w, q, i);
      var t := AtTurn(w, q, i);
      if i in intr && i in t.ie {
        DispatchRestores(cpu, w, t, i);
      }
    }
  }

  /** A whole poll, with as many dispatches as there are, gives a consistent processor back its
      context and mode. */
  lemma {:induction false} PollRestores(cpu: Cpu, w: World, s: Irq)
    requires ModeMatches(s.proc)
    ensures var r := Polled(cpu, w, s);
            r.proc.mode == s.proc.mode && r.proc.Ctx() == s.proc.Ctx()
  {
    hide ModeOf, AfterTurn;
    if !s.inside && s.ime { TurnsRestore(cpu, w, s.(signaled := {}), TakenBits(cpu, s), 32); }
  }

  // ----- what a handler starts in -----

  /** The interrupt mode's CPSR: only the mode bits differ. */
  predicate IrqCpsr(before: bv32, after: bv32) {
    after & 0x1F == 0x12 && after & 0xFFFF_FFE0 == before & 0xFFFF_FFE0
  }

  /** Interrupt mode entered from `p`: r0 to r12 those of the interrupted mode (r0 to r7 from fast
      interrupt mode), r13, r14 and the saved status those of the interrupt mode's own context. */
  ghost predicate IrqBank(p: Proc, q: Proc) {
    var c := q.Ctx();
    && q.mode == 4
    && (forall i :: 0 <= i < 8 ==> c.regs[i] == p.Ctx().regs[i])
    && (forall i :: 8 <= i < 13 ==> c.regs[i] == if p.mode == 5 then p.contexts[4].regs[i] else p.Ctx().regs[i])
    && c.regs[13] == p.contexts[4].regs[13] && c.regs[14] == p.contexts[4].regs[14]
    && c.spsr == p.contexts[4].spsr
    && (forall m :: 0 <= m < 6 && m != 4 ==> q.contexts[m].regs == p.contexts[m].regs)
  }

  /** With the program counter at `pc`. */
  ghost predicate IrqRegs(p: Proc, q: Proc, pc: bv32) { IrqBank(p, q) && q.Ctx().regs[15] == pc }

  /** `e` is an interrupt entered from `s` at the handler word, with just the one bit flagged. */
  ghost predicate StartsIn(s: Irq, bit: BitNo, e: Irq) {
    && e.inside && e.flags == {bit}
    && e == s.(flags := e.flags, inside := e.inside, log := e.log, proc := e.proc)
    && IrqRegs(s.proc, e.proc, s.handler) && IrqCpsr(s.proc.Ctx().cpsr, e.proc.Ctx().cpsr)
  }

  lemma IrqBits(cpsr: bv32)
    ensures IrqCpsr(cpsr, Merged(cpsr, 0x12, 0x1F)) && !TouchesFlags(0x1F) && TouchesMode(0x1F)
    ensures ModeOf(Merged(cpsr, 0x12, 0x1F)) == Some(4)
  {
    ModeNumbers(Merged(cpsr, 0x12, 0x1F));
  }

  lemma SwitchIrq(p: Proc)
    ensures IrqBank(p, SwitchTo(p, 4)) && SwitchTo(p, 4).Ctx().cpsr == p.Ctx().cpsr
  {
  }

  lemma LoadIrq(p: Proc)
    ensures var c := p.Ctx().(cpsr := Merged(p.Ctx().cpsr, 0x12, 0x1F));
            CpsrLoaded(p, 0x12, 0x1F) == SwitchTo(p.(contexts := p.contexts[p.mode := c]), 4)
  {
    hide Merged, ModeOf, TouchesFlags, TouchesMode, PackFlags, IrqCpsr, SwitchTo;
    IrqBits(p.Ctx().cpsr);
  }

  lemma BankWithPc(p: Proc, p': Proc, q: Proc, pc: bv32)
    requires IrqBank(p', q) && p'.mode == p.mode
    requires forall m :: 0 <= m < 6 ==>
               p'.contexts[m].regs == p.contexts[m].regs && p'.contexts[m].spsr == p.contexts[m].spsr
    ensures IrqRegs(p, WriteReg(q, 15, pc), pc) && WriteReg(q, 15, pc).Ctx().cpsr == q.Ctx().cpsr
  {
  }

  /** Into interrupt mode from any mode. */
  lemma IntoIrq(p: Proc, pc: bv32)
    ensures var q := WriteReg(CpsrLoaded(p, 0x12, 0x1F), 15, pc);
            IrqRegs(p, q, pc) && IrqCpsr(p.Ctx().cpsr, q.Ctx().cpsr)
  {
    hide Merged, CpsrLoaded, SwitchTo, WriteReg, IrqCpsr, IrqRegs, IrqBank;
    IrqBits(p.Ctx().cpsr);
    LoadIrq(p);
    var p' := p.(contexts := p.contexts[p.mode := p.Ctx().(cpsr := Merged(p.Ctx().cpsr, 0x12, 0x1F))]);
    SwitchIrq(p');
    BankWithPc(p, p', SwitchTo(p', 4), pc);
  }

  /** The handler is called in such a state, and what a dispatch does is what the handler does from
      there, with the interrupted context put back. */
  lemma {:induction false} HandlerStarts(cpu: Cpu, w: World, s: Irq, bit: BitNo) returns (e: Irq)
    ensures StartsIn(s, bit, e)
    ensures var t := Handled(cpu, w, e, w.handler(bit, e));
            Dispatched(cpu, w, s, bit) == t.(inside := false, proc := Leave(s.proc.Ctx(), t.proc))
  {
    hide CpsrLoaded, WriteReg, Handled, Leave, IrqRegs, IrqCpsr;
    e := Entry(s, bit);
    IntoIrq(s.proc, s.handler);
  }

  /** The same, by what a poll's handlers can see of the processor it interrupts. */
  ghost predicate SeenByHandlers(p: Proc, bit: BitNo, e: Irq) {
    var c := e.proc.Ctx();
    && e.inside && e.flags == {bit} && e.proc.mode == 4 && IrqCpsr(p.Ctx().cpsr, c.cpsr) && c.regs[15] == e.handler
    && (forall i :: 0 <= i < 8 ==> c.regs[i] == p.Ctx().regs[i])
    && (p.mode != 5 ==> forall i :: 8 <= i < 13 ==> c.regs[i] == p.Ctx().regs[i])
  }

  lemma {:induction false} HandledAlone(cpu: Cpu, w: World, w': World, s: Irq, actions: seq<Action>)
    requires s.inside
    ensures Handled(cpu, w, s, actions) == Handled(cpu, w', s, actions)
    decreases |actions|
  {
    if actions != [] { HandledAlone(cpu, w, w', Act(cpu, w, s, actions[0]), actions[1..]); }
  }

  lemma {:induction false} DispatchSame(cpu: Cpu, w: World, w': World, p: Proc, s: Irq, bit: BitNo)
    requires s.proc.mode == p.mode && s.proc.Ctx() == p.Ctx()
    requires forall b: BitNo, e: Irq :: SeenByHandlers(p, b, e) ==> w.handler(b, e) == w'.handler(b, e)
    ensures Dispatched(cpu, w, s, bit) == Dispatched(cpu, w', s, bit)
  {
    hide Handled, Leave, CpsrLoaded, WriteReg, IrqCpsr;
    var e := Entry(s, bit);
    IntoIrq(s.proc, s.handler);
    assert SeenByHandlers(p, bit, e);
    HandledAlone(cpu, w, w', e, w.handler(bit, e));
  }

  lemma {:induction false} TurnsSame(cpu: Cpu, w: World, w': World, s: Irq, intr: Bits, n: nat)
    requires !s.inside && n <= 32 && ModeMatches(s.proc) && w.meanwhile == w'.meanwhile
    requires forall b: BitNo, e: Irq :: SeenByHandlers(s.proc, b, e) ==> w.handler(b, e) == w'.handler(b, e)
    ensures After(cpu, w, s, intr, n) == After(cpu, w', s, intr, n)
    decreases n
  {
    hide ModeOf, Dispatched, SeenByHandlers, FiredAll;
    if n > 0 {
      var i: BitNo := n - 1;
      TurnsSame(cpu, w, w', s, intr, i);
      TurnsRestore(cpu, w, s, intr, i);
      var t := AtTurn(w, After(cpu, w, s, intr, i), i);
      TurnKeepsLog(w, After(cpu, w, s, intr, i), i);
      DispatchSame(cpu, w, w', s.proc, t, i);
    }
  }

  /** In a whole poll of a consistent processor no handler is ever started in any other state: what
      handlers would do elsewhere makes no difference. */
  lemma {:induction false} HandlersStartNowhereElse(cpu: Cpu, w: World, w': World, s: Irq)
    requires ModeMatches(s.proc) && w.meanwhile == w'.meanwhile
    requires forall b: BitNo, e: Irq :: SeenByHandlers(s.proc, b, e) ==> w.handler(b, e) == w'.handler(b, e)
    ensures Polled(cpu, w, s) == Polled(cpu, w', s)
  {
    hide ModeOf, AfterTurn, SeenByHandlers;
    if !s.inside && s.ime { TurnsSame(cpu, w, w', s.(signaled := {}), TakenBits(cpu, s), 32); }
  }

  // ----- the dispatcher as the source runs it -----

  class Dispatcher {
    const cpu: Cpu
    var signaled: Bits
    var inside: bool
    var ime: bool
    var ie: Bits
    var flags: Bits
    var vblank: bool
    var handler: bv32
    var proc: Proc
    var log: seq<Dispatch>
    var fired: seq<BitNo>

    ghost function State(): Irq
      reads this
    {
      Irq(signaled, inside, ime, ie, flags, vblank, handler, proc, log, fired)
    }

    constructor (cpu: Cpu, proc: Proc)
      ensures State() == Irq({}, false, false, {}, {}, false, 0, proc, [], []) && this.cpu == cpu
    {
      this.cpu, this.proc := cpu, proc;
      signaled, inside, ime, ie, flags, vblank, handler, log, fired := {}, false, false, {}, {}, false, 0, [], [];
    }

    method Fire(bit: BitNo)
      modifies this`signaled, this`vblank, this`fired
      ensures State() == Fired(old(State()), bit)
    {
      signaled := signaled + {bit};
      fired := fired + [bit];
      if bit == 0 {
        vblank := true;
      }
    }

    /** Other threads firing between two turns. */
    method FireAll(bits: seq<BitNo>)
      modifies this`signaled, this`vblank, this`fired
      ensures State() == FiredAll(old(State()), bits)
    {
      var i := 0;
      while i < |bits|
        invariant 0 <= i <= |bits|
        invariant FiredAll(State(), bits[i..]) == FiredAll(old(State()), bits)
      {
        assert bits[i..][1..] == bits[i + 1..];
        Fire(bits[i]);
        i := i + 1;
      }
    }

    /** The guest code of a handler. */
    method Invoke(w: World, actions: seq<Action>)
      requires inside
      modifies this
      ensures State() == Handled(cpu, w, old(State()), actions)
    {
      var r := Handled(cpu, w, Irq(signaled, inside, ime, ie, flags, vblank, handler, proc, log, fired), actions);
      signaled, inside, ime, ie, flags := r.signaled, r.inside, r.ime, r.ie, r.flags;
      vblank, handler, proc, log, fired := r.vblank, r.handler, r.proc, r.log, r.fired;
    }

    method SwitchAndInvoke(w: World, bit: BitNo)
      modifies this
      ensures State() == Dispatched(cpu, w, old(State()), bit)
    {
      hide CpsrLoaded, WriteReg, Handled;
      flags := {bit};
      var addr := handler;
      log := log + [Dispatch(bit, addr)];
      var backup := proc.Ctx();
      proc := CpsrLoaded(proc, 0x12, 0x1F);
      proc := WriteReg(proc, 15, addr);
      inside := true;
      assert State() == Entry(old(State()), bit);
      var actions := w.handler(bit, Irq(signaled, inside, ime, ie, flags, vblank, handler, proc, log, fired));
      Invoke(w, actions);
      inside := false;
      proc := CpsrLoaded(proc, backup.cpsr, 0x1F);
      proc := proc.(contexts := proc.contexts[proc.mode := backup]);
    }

    /** `poll_process` */
    method Poll(w: World)
      modifies this
      ensures State() == Polled(cpu, w, old(State()))
    {
      hide AtTurn, Dispatched;
      if inside {
        return;
      }
      if !ime {
        return;
      }
      var intr := signaled;
      signaled := {};
      if cpu.Arm7? {
        intr := intr * ie;
      }
      ghost var start := State();
      for i := 0 to 32
        invariant !inside && State() == After(cpu, w, start, intr, i)
      {
        Turn(w, intr, i);
      }
    }

    method Turn(w: World, intr: Bits, i: BitNo)
      requires !inside
      modifies this
      ensures State() == AfterTurn(cpu, w, old(State()), intr, i)
    {
      hide Dispatched;
      FireAll(w.meanwhile(i));
      if i in intr && i in ie {
        SwitchAndInvoke(w, i);
      }
    }
  }
}
