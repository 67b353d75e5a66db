/**
 Which of the ARM flags the host flags and the saved-flags word really hold is tracked
 statically, one instruction at a time (`Track`): the compiler uses live host flags after a
 flag writer, drops flag stores the next instruction makes useless, and for several opcodes
 leaves a carry or an overflow that is not ARM's. `Admissible` says that no instruction reads a
 flag the tracking does not vouch for.
 */
module Tracking {
  import opened X86
  import Arm
  import opened Compiler
  import opened CodeEffects

  type Inst = Arm.Inst
  type State = Arm.State

  // ----- which flags a flag holder really holds -----

  /** The flags some place (host flags or saved word) agrees with ARM on. */
  datatype Valid = Valid(nz: bool, c: bool, v: bool)

  const ALL := Valid(true, true, true)
  const NONE := Valid(false, false, false)

  function Meet(a: Valid, b: Valid): Valid { Valid(a.nz && b.nz, a.c && b.c, a.v && b.v) }

  predicate Covers(have: Valid, need: Valid) {
    (need.nz ==> have.nz) && (need.c ==> have.c) && (need.v ==> have.v)
  }

  /** `live`: the compiler will take flags from the host; `host` and `mem` say which of them,
      and of the saved ones, are ARM's. */
  datatype Track = Track(live: bool, host: Valid, mem: Valid)

  /** The flags a condition reads. */
  function Reads(cond: Arm.Cond): Valid {
    match cond
    case EQ => Valid(true, false, false)
    case NE => Valid(true, false, false)
    case CS => Valid(false, true, false)
    case CC => Valid(false, true, false)
    case MI => Valid(true, false, false)
    case PL => Valid(true, false, false)
    case VS => Valid(false, false, true)
    case VC => Valid(false, false, true)
    case HI => Valid(true, true, false)
    case LS => Valid(true, true, false)
    case GE => Valid(true, false, true)
    case LT => Valid(true, false, true)
    case GT => Valid(true, false, true)
    case LE => Valid(true, false, true)
    case AL => NONE
    case NV => NONE
  }

  /** The flags the code of an S-form instruction leaves as ARM would. */
  function Writes(i: Inst): Valid {
    match i.op
    case ADD => ALL
    case ADC => ALL
    case CMP => ALL
    case CMN => ALL
    case SBC => ALL
    case SUB => Valid(true, false, true)
    case RSB => Valid(true, false, true)
    case RSC => Valid(true, false, false)
    case TST => Valid(true, false, false)
    case TEQ => Valid(true, false, false)
    case MVN => Valid(false, !Arm.KeepsCarry(i), false)
    case _ => Valid(true, !Arm.KeepsCarry(i), false)
  }

  /** The flags an S-form instruction leaves unchanged in ARM. */
  function Keeps(i: Inst): Valid {
    if Arm.Logical(i.op) then Valid(false, Arm.KeepsCarry(i), true) else NONE
  }

  /** The flags are already in the host when the guard of an instruction is reached. */
  predicate LoadedAt(t: Track, lookahead: bool) { t.live && !lookahead }

  /** What the host flags hold after the guard of a conditional instruction. */
  function AfterGuard(i: Inst, t: Track, lookahead: bool): Valid {
    var v := if LoadedAt(t, lookahead) then t.host else t.mem;
    if Complements(i.cond) then v.(c := false) else v
  }

  /** What the host flags hold when the body starts. */
  function BodyHost(i: Inst, t: Track, lookahead: bool): Valid {
    if Guarded(i.cond) then AfterGuard(i, t, lookahead)
    else if LoadedAt(t, lookahead) then t.host else NONE
  }

  predicate BodyLoaded(i: Inst, t: Track, lookahead: bool) {
    Guarded(i.cond) || LoadedAt(t, lookahead)
  }

  /** Every flag the instruction reads, and reads from the place the code takes it from, is
      vouched for. */
  predicate Readable(i: Inst, t: Track, lookahead: bool) {
    && (Guarded(i.cond) ==>
          Covers(if LoadedAt(t, lookahead) then t.host else t.mem, Reads(i.cond)))
    && (i.shift == Arm.RRX || i.op == Arm.ADC ==> t.mem.c)
    && (i.op == Arm.SBC ==> !BodyLoaded(i, t, lookahead) && t.mem.c)
    && (i.op == Arm.RSC ==>
          if BodyLoaded(i, t, lookahead) then BodyHost(i, t, lookahead).c else t.mem.c)
  }

  /** The tracking after an instruction that was executed. */
  function Executed(i: Inst, t: Track, lookahead: bool): Track {
    if !i.s then Track(false, NONE, t.mem)
    else Track(true, Writes(i), if lookahead then Meet(t.mem, Keeps(i)) else Writes(i))
  }

  /** The tracking after an instruction that was skipped. */
  function Skipped(i: Inst, t: Track, lookahead: bool): Track {
    Track(i.s, AfterGuard(i, t, lookahead), t.mem)
  }

  function Next(i: Inst, t: Track, lookahead: bool): Track {
    var e := Executed(i, t, lookahead);
    if Guarded(i.cond) then
      var k := Skipped(i, t, lookahead);
      Track(i.s, Meet(e.host, k.host), Meet(e.mem, k.mem))
    else e
  }

  /** Nothing from instruction `k` on reads a flag that is not vouched for. */
  predicate Admissible(p: seq<Inst>, k: nat, t: Track, enabled: bool)
    requires k <= |p|
    decreases |p| - k
  {
    k == |p| ||
    var la := LookaheadAt(p, k, enabled);
    Readable(p[k], t, la) && Admissible(p, k + 1, Next(p[k], t, la), enabled)
  }

  function TrackFrom(p: seq<Inst>, k: nat, t: Track, enabled: bool): Track
    requires k <= |p|
    decreases |p| - k
  {
    if k == |p| then t
    else TrackFrom(p, k + 1, Next(p[k], t, LookaheadAt(p, k, enabled)), enabled)
  }

  // ----- what the tracking claims about a state -----

  ghost predicate Agree(v: Valid, st: State, c: bool, z: bool, s: bool, o: bool) {
    && (v.nz ==> st.n == s && st.z == z)
    && (v.c ==> st.c == c)
    && (v.v ==> st.v == o)
  }

  ghost predicate HostAgrees(v: Valid, st: State, m: Host) { Agree(v, st, m.cf, m.zf, m.sf, m.of) }

  ghost predicate MemAgrees(v: Valid, st: State, m: Host) {
    Agree(v, st, SavedC(m.saved), SavedZ(m.saved), SavedS(m.saved), SavedO(m.saved))
  }

  ghost predicate Refines(t: Track, st: State, m: Host) {
    && m.regs == st.regs
    && LowByteOk(m.saved)
    && MemAgrees(t.mem, st, m)
    && (t.live ==> HostAgrees(t.host, st, m))
  }
}
