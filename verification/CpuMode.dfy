/**
 CPU modes. The source keeps one full register context per mode and copies the shared
 registers when the mode changes. This is compared with a banked register file as in sections
 A2.2 to A2.4 of the ARM Architecture Reference Manual (DDI 0100).
 */
module CpuMode {
  import opened Types
  import X86

  /** `cpu_mode`: user/system, supervisor, abort, undefined, interrupt, fast interrupt. */
  type Mode = m: nat | m < 6
  const USER: Mode := 0
  const IRQ: Mode := 4
  const FIQ: Mode := 5

  type Regs = s: seq<bv32> | |s| == 16 witness seq(16, _ => 0)

  datatype Context = Context(regs: Regs, cpsr: bv32, spsr: bv32, x86: bv32)

  type Contexts = s: seq<Context> | |s| == 6 witness seq(6, _ => Context(seq(16, _ => 0), 0, 0, 0))

  datatype Proc = Proc(contexts: Contexts, mode: Mode) {
    function Ctx(): Context { contexts[mode] }
  }

  /** The mode a CPSR names, if any. */
  function ModeOf(cpsr: bv32): Option<Mode> {
    var m := cpsr & 0x1F;
    if m == 0x11 then Some(FIQ)
    else if m == 0x12 then Some(IRQ)
    else if m == 0x1B then Some(3)
    else if m == 0x14 then Some(2)
    else if m == 0x13 then Some(1)
    else if m == 0x1F || m == 0x10 then Some(USER)
    else None
  }

  /** `mode_regs` */
  function OwnFrom(m: Mode): nat { if m == USER then 15 else if m == FIQ then 8 else 13 }

  // ----- flags -----

  /** CPSR flags to the saved x86 flags: S, Z, C and V to bits 15, 14, 8 and 0. */
  function PackFlags(cpsr: bv32): bv32 {
    var f := cpsr & 0xF800_0000;
    ((f >> 16) | (f >> 21) | (f >> 28)) & 0xC101
  }

  function UnpackFlags(x86: bv32): bv32 {
    var f := x86 & 0xC101;
    ((f << 16) | (f << 21) | (f << 28)) & 0xF800_0000
  }

  /** `storecpsr` */
  function StoreCpsr(c: Context): bv32 { (c.cpsr & 0x07FF_FFFF) | UnpackFlags(c.x86) }

  // ----- loadcpsr -----

  function Merged(cpsr: bv32, value: bv32, mask: bv32): bv32 {
    (cpsr & (0xFFFF_FFFF ^ mask)) | (value & mask)
  }

  predicate TouchesFlags(mask: bv32) { mask & 0xF800_0000 != 0 }

  predicate TouchesMode(mask: bv32) { mask & 0x1F != 0 }

  function WithCpsr(c: Context, value: bv32, mask: bv32): Context {
    var cpsr := Merged(c.cpsr, value, mask);
    c.(cpsr := cpsr, x86 := if TouchesFlags(mask) then PackFlags(cpsr) else c.x86)
  }

  /** What the new context takes over: the registers neither mode has for itself, the program
      counter and the CPSR. */
  function Taken(from: Context, to: Context, n: nat): Context
    requires n <= 15
  {
    to.(regs := seq(16, i requires 0 <= i < 16 => if i < n || i == 15 then from.regs[i] else to.regs[i]),
        cpsr := from.cpsr)
  }

  function SwitchTo(p: Proc, m: Mode): Proc {
    if m == p.mode then p
    else Proc(p.contexts[m := Taken(p.Ctx(), p.contexts[m], Min(OwnFrom(p.mode), OwnFrom(m)))], m)
  }

  function CpsrLoaded(p: Proc, value: bv32, mask: bv32): Proc {
    var c := WithCpsr(p.Ctx(), value, mask);
    var q := p.(contexts := p.contexts[p.mode := c]);
    if TouchesMode(mask) && ModeOf(c.cpsr).Some? then SwitchTo(q, ModeOf(c.cpsr).value) else q
  }

  function WriteReg(p: Proc, i: nat, v: bv32): Proc
    requires i < 16
  {
    p.(contexts := p.contexts[p.mode := p.Ctx().(regs := p.Ctx().regs[i := v])])
  }

  function WriteSpsr(p: Proc, v: bv32): Proc {
    p.(contexts := p.contexts[p.mode := p.Ctx().(spsr := v)])
  }

  // ----- the banked file -----

  /** `low` is r0-r7, `user` and `fiq` the two sets of r8-r12, `own` r13 and r14 of each mode
      and `spsr` the saved status of each mode. */
  datatype Banked = Banked(low: seq<bv32>, user: seq<bv32>, fiq: seq<bv32>, own: seq<seq<bv32>>,
                           spsr: seq<bv32>, pc: bv32, mode: Mode)
  {
    predicate Ok() {
      |low| == 8 && |user| == 5 && |fiq| == 5 && |own| == 6 && |spsr| == 6 && forall m :: 0 <= m < 6 ==> |own[m]| == 2
    }

    /** What an instruction sees as register `i`. */
    function Read(i: nat): bv32
      requires Ok() && i < 16
    {
      if i < 8 then low[i]
      else if i == 15 then pc
      else if i >= 13 then own[mode][i - 13]
      else if mode == FIQ then fiq[i - 8]
      else user[i - 8]
    }

    function Write(i: nat, v: bv32): (r: Banked)
      requires Ok() && i < 16
      ensures r.Ok() && r.mode == mode && r.spsr == spsr
      ensures r.Read(i) == v && forall j :: 0 <= j < 16 && j != i ==> r.Read(j) == Read(j)
    {
      if i < 8 then this.(low := low[i := v])
      else if i == 15 then this.(pc := v)
      else if i >= 13 then this.(own := own[mode := own[mode][i - 13 := v]])
      else if mode == FIQ then this.(fiq := fiq[i - 8 := v])
      else this.(user := user[i - 8 := v])
    }
  }

  /** The current context shows the registers of the banked file. */
  ghost predicate Shows(p: Proc, b: Banked) {
    b.Ok() && b.mode == p.mode && forall i :: 0 <= i < 16 ==> p.Ctx().regs[i] == b.Read(i)
  }

  /** The other banks are where they are left: r13, r14 and the saved status in their modes'
      contexts, the two sets of r8-r12 in those of FIQ and of `entered`. */
  ghost predicate Keeps(p: Proc, b: Banked, entered: Mode) {
    && b.Ok() && entered != FIQ && (p.mode != FIQ ==> entered == p.mode)
    && (forall m :: 0 <= m < 6 ==> p.contexts[m].regs[13..15] == b.own[m] && p.contexts[m].spsr == b.spsr[m])
    && p.contexts[FIQ].regs[8..13] == b.fiq
    && p.contexts[entered].regs[8..13] == b.user
  }

  /** The contexts hold the banked file; while the mode is FIQ, the other r8-r12 are in the
      context of `entered`, the mode FIQ was entered from. */
  ghost predicate Holds(p: Proc, b: Banked, entered: Mode) { Shows(p, b) && Keeps(p, b, entered) }

  /** The mode the source thinks it is in is the one its CPSR names. */
  predicate ModeMatches(p: Proc) { ModeOf(p.Ctx().cpsr) == Some(p.mode) }

  /** The program does what keeps the banks: the new mode exists, and FIQ is left to the mode
      it was entered from. */
  predicate Allowed(p: Proc, entered: Mode, value: bv32, mask: bv32) {
    var m := ModeOf(Merged(p.Ctx().cpsr, value, mask));
    TouchesMode(mask) ==> m.Some? && (p.mode == FIQ ==> m.value in {FIQ, entered})
  }

  function EnteredAfter(p: Proc, entered: Mode, q: Proc): Mode {
    if q.mode == FIQ then entered else q.mode
  }

  // ----- one step -----

  /** Changing the mode of the banked file changes nothing else. */
  lemma SwitchHolds(p: Proc, b: Banked, entered: Mode, m: Mode)
    requires Holds(p, b, entered) && (p.mode == FIQ ==> m in {FIQ, entered})
    ensures var q := SwitchTo(p, m);
            Holds(q, b.(mode := m), EnteredAfter(p, entered, q)) && q.mode == m && q.Ctx().cpsr == p.Ctx().cpsr
  {
    if m != p.mode {
      SwitchShows(p, b, entered, m);
      SwitchKeeps(p, b, entered, m);
    } else {
      assert b.(mode := m) == b;
    }
  }

  lemma SwitchShows(p: Proc, b: Banked, entered: Mode, m: Mode)
    requires Holds(p, b, entered) && (p.mode == FIQ ==> m == entered) && m != p.mode
    ensures Shows(SwitchTo(p, m), b.(mode := m))
  {
    var q, b' := SwitchTo(p, m), b.(mode := m);
    forall i | 0 <= i < 16
      ensures q.Ctx().regs[i] == b'.Read(i)
    {
      assert p.Ctx().regs[i] == b.Read(i);
      if 13 <= i < 15 { assert p.contexts[m].regs[13..15][i - 13] == b.own[m][i - 13]; }
      if 8 <= i < 13 {
        assert p.contexts[FIQ].regs[8..13][i - 8] == b.fiq[i - 8];
        assert p.contexts[entered].regs[8..13][i - 8] == b.user[i - 8];
      }
    }
  }

  lemma TakenSlices(from: Context, to: Context, n: nat)
    requires n in {8, 13}
    ensures Taken(from, to, n).spsr == to.spsr
    ensures var r := Taken(from, to, n).regs;
            && r[13..15] == to.regs[13..15]
            && r[8..13] == if n == 13 then from.regs[8..13] else to.regs[8..13]
  {
    var r, src := Taken(from, to, n).regs, if n == 13 then from.regs else to.regs;
    forall k | 0 <= k < 5 ensures r[8..13][k] == src[8..13][k] {
      assert r[8 + k] == src[8 + k];
    }
    forall k | 0 <= k < 2 ensures r[13..15][k] == to.regs[13..15][k] {
      assert r[13 + k] == to.regs[13 + k];
    }
  }

  lemma SwitchKeeps(p: Proc, b: Banked, entered: Mode, m: Mode)
    requires Holds(p, b, entered) && (p.mode == FIQ ==> m == entered) && m != p.mode
    ensures var q := SwitchTo(p, m); Keeps(q, b.(mode := m), EnteredAfter(p, entered, q))
  {
    hide Banked.Read, Taken, Shows;
    TakenSlices(p.Ctx(), p.contexts[m], Min(OwnFrom(p.mode), OwnFrom(m)));
  }

  lemma ModeBitsKept(cpsr: bv32, value: bv32, mask: bv32)
    requires !TouchesMode(mask)
    ensures ModeOf(Merged(cpsr, value, mask)) == ModeOf(cpsr)
  {
    assert Merged(cpsr, value, mask) & 0x1F == cpsr & 0x1F;
  }

  lemma LoadCpsrHolds(p: Proc, b: Banked, entered: Mode, value: bv32, mask: bv32)
    requires Holds(p, b, entered) && ModeMatches(p) && Allowed(p, entered, value, mask)
    ensures var q := CpsrLoaded(p, value, mask);
            && Holds(q, b.(mode := q.mode), EnteredAfter(p, entered, q)) && ModeMatches(q)
            && ModeOf(Merged(p.Ctx().cpsr, value, mask)) == Some(q.mode)
  {
    hide ModeOf, Merged, TouchesMode, TouchesFlags, PackFlags, SwitchTo;
    var c := WithCpsr(p.Ctx(), value, mask);
    var q := p.(contexts := p.contexts[p.mode := c]);
    assert Holds(q, b, entered);
    if TouchesMode(mask) {
      SwitchHolds(q, b, entered, ModeOf(c.cpsr).value);
    } else {
      ModeBitsKept(p.Ctx().cpsr, value, mask);
    }
  }

  lemma WriteRegHolds(p: Proc, b: Banked, entered: Mode, i: nat, v: bv32)
    requires i < 16 && Holds(p, b, entered)
    ensures Holds(WriteReg(p, i, v), b.Write(i, v), entered)
  {
    hide Banked.Read;
    var q, b' := WriteReg(p, i, v), b.Write(i, v);
    var r, r' := p.Ctx().regs, q.Ctx().regs;
    assert r' == r[i := v];
    assert Shows(q, b');
    assert r'[8..13] == if 8 <= i < 13 then r[8..13][i - 8 := v] else r[8..13];
    assert r'[13..15] == if 13 <= i < 15 then r[13..15][i - 13 := v] else r[13..15];
  }

  /** The banked file a state stands for. */
  function BankedOf(p: Proc, entered: Mode): Banked {
    Banked(p.Ctx().regs[..8], p.contexts[entered].regs[8..13], p.contexts[FIQ].regs[8..13],
           seq(6, m requires 0 <= m < 6 => p.contexts[m].regs[13..15]),
           seq(6, m requires 0 <= m < 6 => p.contexts[m].spsr), p.Ctx().regs[15], p.mode)
  }

  /** Every state stands for one, so a run can start anywhere. */
  lemma EveryStateHolds(p: Proc, entered: Mode)
    requires entered != FIQ && (p.mode != FIQ ==> entered == p.mode)
    ensures Holds(p, BankedOf(p, entered), entered)
  {
    var b := BankedOf(p, entered);
    forall i | 0 <= i < 16
      ensures p.Ctx().regs[i] == b.Read(i)
    {
      if 13 <= i < 15 { assert b.own[b.mode] == p.Ctx().regs[13..15]; }
    }
  }

  // ----- runs -----

  datatype Event = Reg(i: nat, v: bv32) | Spsr(v: bv32) | Cpsr(value: bv32, mask: bv32)

  function Step(p: Proc, e: Event): Proc
    requires e.Reg? ==> e.i < 16
  {
    match e
    case Reg(i, v) => WriteReg(p, i, v)
    case Spsr(v) => WriteSpsr(p, v)
    case Cpsr(value, mask) => CpsrLoaded(p, value, mask)
  }

  /** The banked file under the same event: a CPSR write only changes the mode. */
  function BankedStep(b: Banked, e: Event, cpsr: bv32): Banked
    requires b.Ok() && (e.Reg? ==> e.i < 16)
  {
    match e
    case Reg(i, v) => b.Write(i, v)
    case Spsr(v) => b.(spsr := b.spsr[b.mode := v])
    case Cpsr(value, mask) =>
      var m := ModeOf(Merged(cpsr, value, mask));
      if m.Some? then b.(mode := m.value) else b
  }

  ghost predicate RunAllowed(p: Proc, entered: Mode, events: seq<Event>)
    decreases |events|
  {
    events != [] ==>
      var e := events[0];
      && (e.Reg? ==> e.i < 16)
      && (e.Cpsr? ==> Allowed(p, entered, e.value, e.mask))
      && var q := Step(p, e); RunAllowed(q, EnteredAfter(p, entered, q), events[1..])
  }

  /** The contexts after a run. */
  ghost function Run(p: Proc, entered: Mode, events: seq<Event>): Proc
    requires RunAllowed(p, entered, events)
    decreases |events|
  {
    if events == [] then p
    else var q := Step(p, events[0]); Run(q, EnteredAfter(p, entered, q), events[1..])
  }

  /** The banked file after the same run. The CPSR is the banked machine's own: it is not
      banked, and mode changes carry it along. */
  ghost function BankedRun(b: Banked, cpsr: bv32, events: seq<Event>): Banked
    requires b.Ok() && forall k :: 0 <= k < |events| ==> events[k].Reg? ==> events[k].i < 16
    decreases |events|
  {
    if events == [] then b
    else
      var e := events[0];
      BankedRun(BankedStep(b, e, cpsr), if e.Cpsr? then Merged(cpsr, e.value, e.mask) else cpsr, events[1..])
  }

  lemma {:induction false} EventsOk(p: Proc, entered: Mode, events: seq<Event>)
    requires RunAllowed(p, entered, events)
    ensures forall k :: 0 <= k < |events| ==> events[k].Reg? ==> events[k].i < 16
    decreases |events|
  {
    hide Step, Allowed;
    if events != [] {
      var q := Step(p, events[0]);
      EventsOk(q, EnteredAfter(p, entered, q), events[1..]);
      forall k | 0 <= k < |events| && events[k].Reg? ensures events[k].i < 16 {
        if k > 0 { assert events[k] == events[1..][k - 1]; }
      }
    }
  }

  lemma StepHolds(p: Proc, b: Banked, entered: Mode, e: Event)
    requires Holds(p, b, entered) && ModeMatches(p)
    requires (e.Reg? ==> e.i < 16) && (e.Cpsr? ==> Allowed(p, entered, e.value, e.mask))
    ensures var q := Step(p, e);
            && Holds(q, BankedStep(b, e, p.Ctx().cpsr), EnteredAfter(p, entered, q)) && ModeMatches(q)
            && q.Ctx().cpsr == if e.Cpsr? then Merged(p.Ctx().cpsr, e.value, e.mask) else p.Ctx().cpsr
  {
    hide ModeOf, Merged, TouchesMode, TouchesFlags, PackFlags, CpsrLoaded;
    match e {
      case Reg(i, v) => WriteRegHolds(p, b, entered, i, v);
      case Spsr(v) =>
        assert Holds(WriteSpsr(p, v), b.(spsr := b.spsr[b.mode := v]), entered);
      case Cpsr(value, mask) =>
        LoadCpsrHolds(p, b, entered, value, mask);
        CarriesCpsr(p, value, mask);
    }
  }

  lemma CarriesCpsr(p: Proc, value: bv32, mask: bv32)
    ensures CpsrLoaded(p, value, mask).Ctx().cpsr == Merged(p.Ctx().cpsr, value, mask)
  {
    hide ModeOf, Merged, TouchesMode, TouchesFlags, PackFlags;
  }

  /** Copying contexts is a banked register file, over every run. */
  lemma {:induction false} CopyingIsBanking(p: Proc, b: Banked, entered: Mode, events: seq<Event>)
    requires Holds(p, b, entered) && ModeMatches(p) && RunAllowed(p, entered, events)
    ensures forall k :: 0 <= k < |events| ==> events[k].Reg? ==> events[k].i < 16
    ensures var q, c := Run(p, entered, events), BankedRun(b, p.Ctx().cpsr, events);
            && ModeMatches(q) && c.Ok() && q.mode == c.mode
            && (forall i :: 0 <= i < 16 ==> q.Ctx().regs[i] == c.Read(i))
            && q.Ctx().spsr == c.spsr[c.mode]
            && exists entered' :: Holds(q, c, entered')
    decreases |events|
  {
    hide ModeOf, Step, Allowed, BankedStep, Merged;
    EventsOk(p, entered, events);
    if events == [] {
      assert Holds(Run(p, entered, events), BankedRun(b, p.Ctx().cpsr, events), entered);
    } else {
      var q := Step(p, events[0]);
      StepHolds(p, b, entered, events[0]);
      CopyingIsBanking(q, BankedStep(b, events[0], p.Ctx().cpsr), EnteredAfter(p, entered, q), events[1..]);
    }
  }

  // ----- banks, by the bits of the CPSR -----

  /** The number the source gives the mode of a CPSR: the contexts of different numbers are
      different banks, and these are the only modes there are. */
  lemma ModeNumbers(c: bv32)
    ensures ModeOf(c) == Some(0) <==> c & 0x1F == 0x10 || c & 0x1F == 0x1F
    ensures ModeOf(c) == Some(1) <==> c & 0x1F == 0x13
    ensures ModeOf(c) == Some(2) <==> c & 0x1F == 0x14
    ensures ModeOf(c) == Some(3) <==> c & 0x1F == 0x1B
    ensures ModeOf(c) == Some(4) <==> c & 0x1F == 0x12
    ensures ModeOf(c) == Some(5) <==> c & 0x1F == 0x11
    ensures ModeOf(c).Some? ==> c & 0x10 != 0
  {
    LowFive(c);
  }

  lemma LowFive(c: bv32)
    ensures c & 0x10 == c & 0x1F & 0x10
  {
  }

  predicate UserBits(c: bv32) { c & 0x1F == 0x10 || c & 0x1F == 0x1F }

  /** Two CPSRs name one bank of r13, r14 and the saved status. */
  predicate SameBank(c: bv32, d: bv32) { c & 0x1F == d & 0x1F || (UserBits(c) && UserBits(d)) }

  lemma SameModeBits(c: bv32, d: bv32)
    requires ModeOf(c).Some? && ModeOf(d).Some?
    ensures ModeOf(c) == ModeOf(d) <==> SameBank(c, d)
  {
  }

  /** Register `i` is one register under both CPSRs: r0 to r7 and the program counter always, r8 to
      r12 unless one of them is FIQ's, r13 and r14 in one bank. */
  predicate SameRegister(i: nat, c: bv32, d: bv32) {
    if i < 8 || i == 15 then true
    else if i < 13 then c & 0x1F == 0x11 <==> d & 0x1F == 0x11
    else SameBank(c, d)
  }

  /** The value last written, over a run from CPSR `cpsr`, to what register `i` is under `target`. */
  function LastWritten(i: nat, cpsr: bv32, events: seq<Event>, target: bv32, first: bv32): bv32
    decreases |events|
  {
    if events == [] then first
    else
      match events[0]
      case Reg(j, v) =>
        LastWritten(i, cpsr, events[1..], target, if j == i && SameRegister(i, cpsr, target) then v else first)
      case Spsr(_) => LastWritten(i, cpsr, events[1..], target, first)
      case Cpsr(value, mask) => LastWritten(i, Merged(cpsr, value, mask), events[1..], target, first)
  }

  /** A masked write takes the bits of the mask from the value and leaves the others. */
  lemma MergedBits(cpsr: bv32, value: bv32, mask: bv32)
    ensures Merged(cpsr, value, mask) & mask == value & mask
    ensures Merged(cpsr, value, mask) & (0xFFFF_FFFF ^ mask) == cpsr & (0xFFFF_FFFF ^ mask)
  {
  }

  predicate SameInModes(i: nat, m: Mode, m': Mode) {
    if i < 8 || i == 15 then true else if i < 13 then m == FIQ <==> m' == FIQ else m == m'
  }

  lemma OwnWriteSeen(b: Banked, m: Mode, i: nat, v: bv32)
    requires b.Ok() && i < 16
    ensures b.Write(i, v).(mode := m).Ok() && b.(mode := m).Ok()
    ensures b.Write(i, v).(mode := m).Read(i) == if SameInModes(i, b.mode, m) then v else b.(mode := m).Read(i)
  {
  }

  lemma OtherWriteSeen(b: Banked, m: Mode, i: nat, j: nat, v: bv32)
    requires b.Ok() && i < 16 && j < 16 && i != j
    ensures b.Write(j, v).(mode := m).Ok() && b.(mode := m).Ok()
    ensures b.Write(j, v).(mode := m).Read(i) == b.(mode := m).Read(i)
  {
  }

  lemma WriteSeenIn(b: Banked, m: Mode, i: nat, j: nat, v: bv32)
    requires b.Ok() && i < 16 && j < 16
    ensures b.Write(j, v).(mode := m).Ok() && b.(mode := m).Ok()
    ensures b.Write(j, v).(mode := m).Read(i)
         == if j == i && SameInModes(i, b.mode, m) then v else b.(mode := m).Read(i)
  {
    hide Banked.Read, Banked.Write, SameInModes;
    if i == j { OwnWriteSeen(b, m, i, v); } else { OtherWriteSeen(b, m, i, j, v); }
  }

  lemma SameByBits(i: nat, c: bv32, d: bv32, m: Mode, m': Mode)
    requires ModeOf(c) == Some(m) && ModeOf(d) == Some(m')
    ensures SameRegister(i, c, d) <==> SameInModes(i, m, m')
  {
    SameModeBits(c, d);
    ModeNumbers(c);
    ModeNumbers(d);
    hide ModeOf, SameBank;
  }

  /** One write, seen from the mode `target` names. */
  lemma WriteSeen(b: Banked, cpsr: bv32, target: bv32, m: Mode, i: nat, j: nat, v: bv32)
    requires b.Ok() && i < 16 && j < 16 && ModeOf(cpsr) == Some(b.mode) && ModeOf(target) == Some(m)
    ensures b.Write(j, v).(mode := m).Ok() && b.(mode := m).Ok()
    ensures b.Write(j, v).(mode := m).Read(i)
         == if j == i && SameRegister(i, cpsr, target) then v else b.(mode := m).Read(i)
  {
    hide ModeOf, SameRegister, SameInModes, Banked.Read;
    SameByBits(i, cpsr, target, b.mode, m);
    WriteSeenIn(b, m, i, j, v);
  }

  lemma {:induction false} BankedReadsLast(p: Proc, b: Banked, entered: Mode, events: seq<Event>, target: bv32,
                                           m: Mode, i: nat)
    requires Holds(p, b, entered) && ModeMatches(p) && RunAllowed(p, entered, events)
    requires i < 16 && ModeOf(target) == Some(m)
    ensures forall k :: 0 <= k < |events| ==> events[k].Reg? ==> events[k].i < 16
    ensures var c := BankedRun(b, p.Ctx().cpsr, events);
            && c.Ok() && b.Ok()
            && c.(mode := m).Read(i) == LastWritten(i, p.Ctx().cpsr, events, target, b.(mode := m).Read(i))
    decreases |events|
  {
    hide ModeOf, Step, Allowed, Merged, Banked.Read, SameRegister;
    EventsOk(p, entered, events);
    CopyingIsBanking(p, b, entered, events);
    if events != [] {
      var q, e := Step(p, events[0]), events[0];
      var c := BankedStep(b, e, p.Ctx().cpsr);
      StepHolds(p, b, entered, e);
      BankedReadsLast(q, c, EnteredAfter(p, entered, q), events[1..], target, m, i);
      match e {
        case Reg(j, v) => WriteSeen(b, p.Ctx().cpsr, target, m, i, j, v);
        case Spsr(v) => SpsrUnseen(b, m, i, v);
        case Cpsr(value, mask) => assert c.(mode := m) == b.(mode := m);
      }
    }
  }

  lemma SpsrUnseen(b: Banked, m: Mode, i: nat, v: bv32)
    requires b.Ok() && i < 16
    ensures b.(spsr := b.spsr[b.mode := v]).(mode := m).Ok() && b.(mode := m).Ok()
    ensures b.(spsr := b.spsr[b.mode := v]).(mode := m).Read(i) == b.(mode := m).Read(i)
  {
  }

  /** Over every allowed run, what is read in the end is the last value written while the CPSR
      named the same register; what is written in one bank is never seen in another. */
  lemma {:induction false} ReadsLastWritten(p: Proc, b: Banked, entered: Mode, events: seq<Event>, i: nat)
    requires Holds(p, b, entered) && ModeMatches(p) && RunAllowed(p, entered, events) && i < 16
    ensures var q := Run(p, entered, events);
            && b.Ok()
            && q.Ctx().regs[i]
               == LastWritten(i, p.Ctx().cpsr, events, q.Ctx().cpsr, b.(mode := q.mode).Read(i))
  {
    hide ModeOf, Run, BankedRun, LastWritten, RunAllowed, Banked.Read;
    var q := Run(p, entered, events);
    EventsOk(p, entered, events);
    CopyingIsBanking(p, b, entered, events);
    BankedReadsLast(p, b, entered, events, q.Ctx().cpsr, q.mode, i);
    var c := BankedRun(b, p.Ctx().cpsr, events);
    assert c.(mode := q.mode) == c;
  }

  /** Leaving FIQ keeps the banks exactly when the mode it is left to happens to hold the
      r8-r12 of the mode it was entered from. */
  lemma LeavingFiq(p: Proc, b: Banked, entered: Mode, m: Mode)
    requires Holds(p, b, entered) && p.mode == FIQ && m != FIQ
    ensures (forall i :: 0 <= i < 16 ==> SwitchTo(p, m).Ctx().regs[i] == b.(mode := m).Read(i))
       <==> p.contexts[m].regs[8..13] == p.contexts[entered].regs[8..13]
  {
    var q := SwitchTo(p, m);
    forall i | 0 <= i < 16 && !(8 <= i < 13)
      ensures q.Ctx().regs[i] == b.(mode := m).Read(i)
    {
      assert p.Ctx().regs[i] == b.Read(i);
    }
    var x, y := p.contexts[m].regs[8..13], p.contexts[entered].regs[8..13];
    forall i | 8 <= i < 13
      ensures q.Ctx().regs[i] == x[i - 8] && b.(mode := m).Read(i) == y[i - 8]
    {
    }
    if forall i :: 0 <= i < 16 ==> q.Ctx().regs[i] == b.(mode := m).Read(i) {
      forall k | 0 <= k < 5 ensures x[k] == y[k] { assert q.Ctx().regs[k + 8] == b.(mode := m).Read(k + 8); }
    }
  }

  // ----- reading the CPSR back -----

  lemma FlagsThroughX86(cpsr: bv32)
    ensures UnpackFlags(PackFlags(cpsr)) == cpsr & 0xF000_0000
  {
  }

  /** In one mode, what is read after a write of all fields is what was written but for bit 27,
      which is lost: the value comes back exactly when that bit is clear. */
  lemma ReadBack(p: Proc, value: bv32)
    requires ModeMatches(p) && ModeOf(value) == Some(p.mode)
    ensures var r := StoreCpsr(CpsrLoaded(p, value, 0xFFFF_FFFF).Ctx());
            r == value & 0xF7FF_FFFF && (r == value <==> value & 0x0800_0000 == 0)
  {
    hide ModeOf, StoreCpsr, PackFlags;
    AllFields(p.Ctx().cpsr, value);
    var c := WithCpsr(p.Ctx(), value, 0xFFFF_FFFF);
    assert c.cpsr == value && c.x86 == PackFlags(value);
    assert CpsrLoaded(p, value, 0xFFFF_FFFF).Ctx() == c;
    ReadValue(c, value);
  }

  lemma AllFields(cpsr: bv32, value: bv32)
    ensures Merged(cpsr, value, 0xFFFF_FFFF) == value && TouchesFlags(0xFFFF_FFFF)
  {
  }

  lemma ReadValue(c: Context, value: bv32)
    requires c.cpsr == value && c.x86 == PackFlags(value)
    ensures StoreCpsr(c) == value & 0xF7FF_FFFF
    ensures StoreCpsr(c) == value <==> value & 0x0800_0000 == 0
  {
    hide PackFlags, UnpackFlags;
    FlagsThroughX86(value);
    SplitValue(value);
  }

  lemma SplitValue(v: bv32)
    ensures (v & 0x07FF_FFFF) | (v & 0xF000_0000) == v & 0xF7FF_FFFF
    ensures v & 0xF7FF_FFFF == v <==> v & 0x0800_0000 == 0
  {
  }

  /** The flags of a CPSR, as the compiled code finds them in the saved word, and back. */
  lemma FlagsForCode(cpsr: bv32, x86: bv32)
    ensures X86.SavedS(PackFlags(cpsr)) == (cpsr & 0x8000_0000 != 0)
    ensures X86.SavedZ(PackFlags(cpsr)) == (cpsr & 0x4000_0000 != 0)
    ensures X86.SavedC(PackFlags(cpsr)) == (cpsr & 0x2000_0000 != 0)
    ensures X86.SavedO(PackFlags(cpsr)) == (cpsr & 0x1000_0000 != 0)
    ensures PackFlags(cpsr) & 0xFE == 0
    ensures (UnpackFlags(x86) & 0x8000_0000 != 0) == X86.SavedS(x86)
    ensures (UnpackFlags(x86) & 0x4000_0000 != 0) == X86.SavedZ(x86)
    ensures (UnpackFlags(x86) & 0x2000_0000 != 0) == X86.SavedC(x86)
    ensures (UnpackFlags(x86) & 0x1000_0000 != 0) == X86.SavedO(x86)
    ensures UnpackFlags(x86) & 0x0FFF_FFFF == 0
  {
  }

  /** The value read before, with the bits of the mask as written. */
  predicate OnlyMasked(before: bv32, after: bv32, value: bv32, mask: bv32) {
    after == (before & (0xFFFF_FFFF ^ mask)) | (value & mask)
  }

  /** The flag bits outside the mask are those of the CPSR field, and bit 27 is not written as one. */
  predicate FlagsSynced(cpsr: bv32, before: bv32, value: bv32, mask: bv32) {
    (cpsr ^ before) & 0xF000_0000 & (0xFFFF_FFFF ^ mask) == 0 && value & mask & 0x0800_0000 == 0
  }

  /** A write that does not touch the mode, under any mask: what is read back is what was read
      before with just the bits of the mask changed, if and only if no flag bit is in the mask or
      the flags are in step. */
  lemma MaskedReadBack(p: Proc, value: bv32, mask: bv32)
    requires mask & 0x1F == 0
    ensures var c := p.Ctx();
            var before, after := StoreCpsr(c), StoreCpsr(CpsrLoaded(p, value, mask).Ctx());
            OnlyMasked(before, after, value, mask)
            <==> mask & 0xF800_0000 == 0 || FlagsSynced(c.cpsr, before, value, mask)
  {
    assert TouchesFlags(mask) <==> mask & 0xF800_0000 != 0;
    NoModeChange(p, value, mask);
    hide PackFlags, UnpackFlags, Merged, OnlyMasked, FlagsSynced, CpsrLoaded, StoreCpsr, TouchesFlags;
    var c, d := p.Ctx(), WithCpsr(p.Ctx(), value, mask);
    if TouchesFlags(mask) { Resynced(c, d, value, mask); } else { LeftAlone(c, d, value, mask); }
  }

  function Join(cpsr: bv32, flags: bv32): bv32 { (cpsr & 0x07FF_FFFF) | flags }

  function TopFour(x: bv32): bv32 { x & 0xF000_0000 }

  /** What the saved flags of a context stand for, and what is read of it. */
  lemma ReadIsJoin(c: Context)
    ensures StoreCpsr(c) == Join(c.cpsr, UnpackFlags(c.x86)) && NoLow(UnpackFlags(c.x86))
    ensures c.x86 == PackFlags(c.cpsr) ==> UnpackFlags(c.x86) == TopFour(c.cpsr)
  {
    hide PackFlags, UnpackFlags;
    FlagsThroughX86(c.cpsr);
    HighBits(c.x86);
  }

  predicate NoLow(f: bv32) { f & 0x0FFF_FFFF == 0 }

  lemma Resynced(c: Context, d: Context, value: bv32, mask: bv32)
    requires d.cpsr == Merged(c.cpsr, value, mask) && d.x86 == PackFlags(d.cpsr)
    ensures OnlyMasked(StoreCpsr(c), StoreCpsr(d), value, mask) <==> FlagsSynced(c.cpsr, StoreCpsr(c), value, mask)
  {
    hide PackFlags, UnpackFlags, Merged, OnlyMasked, FlagsSynced, StoreCpsr, Join, TopFour, NoLow;
    ReadIsJoin(c);
    ReadIsJoin(d);
    TouchedFlags(c.cpsr, UnpackFlags(c.x86), value, mask);
  }

  lemma LeftAlone(c: Context, d: Context, value: bv32, mask: bv32)
    requires d.cpsr == Merged(c.cpsr, value, mask) && d.x86 == c.x86 && !TouchesFlags(mask)
    ensures OnlyMasked(StoreCpsr(c), StoreCpsr(d), value, mask)
  {
    hide PackFlags, UnpackFlags, Merged, OnlyMasked, StoreCpsr, Join, NoLow, TouchesFlags;
    ReadIsJoin(c);
    ReadIsJoin(d);
    UntouchedFlags(c.cpsr, UnpackFlags(c.x86), value, mask);
  }

  lemma NoModeChange(p: Proc, value: bv32, mask: bv32)
    requires mask & 0x1F == 0
    ensures CpsrLoaded(p, value, mask).Ctx() == WithCpsr(p.Ctx(), value, mask)
  {
    hide WithCpsr, ModeOf, SwitchTo;
  }

  lemma HighBits(x86: bv32)
    ensures UnpackFlags(x86) & 0x0FFF_FFFF == 0
  {
  }

  lemma UntouchedFlags(cpsr: bv32, f: bv32, value: bv32, mask: bv32)
    requires NoLow(f) && !TouchesFlags(mask)
    ensures OnlyMasked(Join(cpsr, f), Join(Merged(cpsr, value, mask), f), value, mask)
  {
  }

  lemma TouchedFlags(cpsr: bv32, f: bv32, value: bv32, mask: bv32)
    requires NoLow(f)
    ensures var before, m := Join(cpsr, f), Merged(cpsr, value, mask);
            OnlyMasked(before, Join(m, TopFour(m)), value, mask) <==> FlagsSynced(cpsr, before, value, mask)
  {
  }

  /** Across a mode change the flags are not carried over: the new mode shows the flags its
      context last held. */
  lemma FlagsAfterModeChange(p: Proc, value: bv32, mask: bv32)
    requires TouchesMode(mask)
    requires var m := ModeOf(Merged(p.Ctx().cpsr, value, mask)); m.Some? && m.value != p.mode
    ensures var q := CpsrLoaded(p, value, mask);
            q.Ctx().x86 == p.contexts[q.mode].x86 && q.mode != p.mode
  {
    hide ModeOf, Merged, TouchesMode, TouchesFlags, PackFlags;
  }

  // ----- the processor as the source updates it -----

  class Processor {
    var contexts: Contexts
    var mode: Mode

    ghost function State(): Proc
      reads this
    {
      Proc(contexts, mode)
    }

    constructor (p: Proc)
      ensures State() == p
    {
      contexts, mode := p.contexts, p.mode;
    }

    /** The CPSR and the saved x86 flags. */
    method SetCpsr(value: bv32, mask: bv32) returns (cpsr: bv32)
      modifies this`contexts
      ensures contexts == old(contexts)[mode := WithCpsr(old(contexts)[mode], value, mask)]
      ensures cpsr == WithCpsr(old(contexts)[mode], value, mask).cpsr
    {
      hide Merged, PackFlags, TouchesFlags;
      cpsr := Merged(contexts[mode].cpsr, value, mask);
      contexts := contexts[mode := contexts[mode].(cpsr := cpsr)];
      if TouchesFlags(mask) {
        contexts := contexts[mode := contexts[mode].(x86 := PackFlags(cpsr))];
      }
    }

    /** `loadcpsr` */
    method LoadCpsr(value: bv32, mask: bv32) returns (ctx: Context)
      modifies this
      ensures State() == CpsrLoaded(old(State()), value, mask)
      ensures ctx == contexts[mode]
    {
      hide ModeOf, WithCpsr, TouchesMode, Taken;
      var cpsr := SetCpsr(value, mask);
      if TouchesMode(mask) {
        var m := ModeOf(cpsr);
        if m.Some? && m.value != mode {
          Switch(m.value);
        }
      }
      ctx := contexts[mode];
    }

    method Switch(cpumode: Mode)
      requires cpumode != mode
      modifies this
      ensures State() == SwitchTo(old(State()), cpumode)
    {
      var n := Min(OwnFrom(mode), OwnFrom(cpumode));
      var oldCtx, newCtx := contexts[mode], contexts[cpumode];
      var regs := newCtx.regs;
      for i := 0 to n
        invariant |regs| == 16
        invariant forall j :: 0 <= j < 16 ==> regs[j] == if j < i then oldCtx.regs[j] else newCtx.regs[j]
      {
        regs := regs[i := oldCtx.regs[i]];
      }
      regs := regs[15 := oldCtx.regs[15]];
      assert newCtx.(regs := regs, cpsr := oldCtx.cpsr) == Taken(oldCtx, newCtx, n);
      contexts := contexts[cpumode := newCtx.(regs := regs, cpsr := oldCtx.cpsr)];
      mode := cpumode;
    }
  }
}
