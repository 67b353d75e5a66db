/**
 The host side of the JIT: the symbolic x86 micro-operations the compiler emits and an
 interpreter for them.

 Byte encodings are left out; what each emitted instruction does to the registers, to the
 saved-flags word of the emulation context and to CF, ZF, SF and OF is kept. Flags the
 processor leaves undefined (OF after a multi-bit shift, AF and PF) are taken from an
 arbitrary `Noise`, so nothing proved here can depend on them.
 */
module X86 {

  /** Index of an emulated ARM register. */
  type Reg = n: nat | n < 16

  /** The sixteen ARM registers of an emulation context, in host memory. */
  type RegFile = s: seq<bv32> | |s| == 16
    witness [0, 0, 0, 0, 0, 0, 0, 0, 0, 0, 0, 0, 0, 0, 0, 0]

  /** Source of the flag bits the processor leaves undefined, indexed by time. */
  type Noise = nat -> bv32

  /** Places an operand can live in: host registers, ARM registers, `x86_flags`. */
  datatype Loc = Eax | Ecx | Edx | Esi | Arm(r: Reg) | Saved

  datatype AluOp = Add | Adc | Sub | Sbb | Cmp | And | Or | Xor | Test

  datatype ShiftOp = Shl | Shr | Sar | Ror

  /** Conditions of the skip jumps, named after the jump taken. */
  datatype Cc = Jnz | Jz | Jnc | Jc | Jns | Js | Jno | Jo | Jbe | Ja | Jl | Jge | Jle | Jg

  datatype Op =
    | Mov(dst: Loc, src: Loc)
    | MovImm(dst: Loc, imm: bv32)
    | Alu(op: AluOp, dst: Loc, src: Loc)
    | AluImm(op: AluOp, dst: Loc, imm: bv32)
    | Shift(sop: ShiftOp, dst: Loc, amount: bv32)
    | ShiftCl(sop: ShiftOp, dst: Loc)
    | Rcl1(dst: Loc)
    | Rcr1(dst: Loc)
    | RorAl1
    | Not(dst: Loc)
    | Dec(dst: Loc)
    | Cmova(dst: Loc, src: Loc)
    | Cmc
    | SetoAl
    | Lahf
    | Sahf
    | Push(src: Loc)
    | PushImm(imm: bv32)
    | Pop(dst: Loc)
    | IncEbx
    | LeaEbx
    | Jump(cc: Cc, skip: nat)

  /** Host processor state together with the part of the emulation context the code touches. */
  datatype Host = Host(
    eax: bv32, ebx: bv32, ecx: bv32, edx: bv32, esi: bv32,
    regs: RegFile, saved: bv32, stack: seq<bv32>,
    cf: bool, zf: bool, sf: bool, of: bool, clock: nat)
  {
    function Get(l: Loc): bv32 {
      match l
      case Eax => eax
      case Ecx => ecx
      case Edx => edx
      case Esi => esi
      case Arm(r) => regs[r]
      case Saved => saved
    }

    function Set(l: Loc, v: bv32): Host {
      match l
      case Eax => this.(eax := v)
      case Ecx => this.(ecx := v)
      case Edx => this.(edx := v)
      case Esi => this.(esi := v)
      case Arm(r) => this.(regs := regs[r := v])
      case Saved => this.(saved := v)
    }

    function Flags(c: bool, z: bool, s: bool, o: bool): Host {
      this.(cf := c, zf := z, sf := s, of := o)
    }
  }

  function Bit(x: bv32, i: bv32): bool
    requires i < 32
  {
    (x >> i) & 1 == 1
  }

  function Msb(x: bv32): bool { x & 0x8000_0000 != 0 }

  function B2w(b: bool): bv32 { if b then 1 else 0 }

  /** Bits of `x86_flags` that hold OF, CF, ZF and SF. */
  function SavedO(w: bv32): bool { w & 0x1 != 0 }
  function SavedC(w: bv32): bool { w & 0x100 != 0 }
  function SavedZ(w: bv32): bool { w & 0x4000 != 0 }
  function SavedS(w: bv32): bool { w & 0x8000 != 0 }

  // ----- arithmetic and logic -----

  // Word arithmetic, modulo 2^32, and bitwise logic.

  function Plus(a: bv32, b: bv32): bv32 { a + b }

  function Minus(a: bv32, b: bv32): bv32 { a - b }

  function Conj(a: bv32, b: bv32): bv32 { a & b }

  function Disj(a: bv32, b: bv32): bv32 { a | b }

  function Excl(a: bv32, b: bv32): bv32 { a ^ b }

  function Compl(a: bv32): bv32 { !a }

  function Zext(x: bv32): bv33 { x as bv33 }

  function Sext(x: bv32): bv33 {
    if Msb(x) then (x as bv33) | 0x1_0000_0000 else x as bv33
  }

  function C33(c: bool): bv33 { if c then 1 else 0 }

  /** The exact unsigned sum `a + b + c` does not fit in 32 bits. */
  predicate CarryFrom(a: bv32, b: bv32, c: bool) {
    (Zext(a) + Zext(b) + C33(c)) & 0x1_0000_0000 != 0
  }

  /** The exact unsigned difference `a - b - c` is negative. */
  predicate BorrowFrom(a: bv32, b: bv32, c: bool) {
    Zext(a) < Zext(b) + C33(c)
  }

  /** The exact signed result needs a 33rd bit that differs from its sign bit. */
  predicate Unrepresentable(r: bv33) {
    (r & 0x1_0000_0000 != 0) != (r & 0x8000_0000 != 0)
  }

  predicate OverflowAdd(a: bv32, b: bv32, c: bool) {
    Unrepresentable(Sext(a) + Sext(b) + C33(c))
  }

  predicate OverflowSub(a: bv32, b: bv32, c: bool) {
    Unrepresentable(Sext(a) - Sext(b) - C33(c))
  }

  function Value(op: AluOp, a: bv32, b: bv32, c: bool): bv32 {
    match op
    case Add => Plus(a, b)
    case Adc => Plus(Plus(a, b), B2w(c))
    case Sub => Minus(a, b)
    case Sbb => Minus(Minus(a, b), B2w(c))
    case Cmp => Minus(a, b)
    case And => Conj(a, b)
    case Or => Disj(a, b)
    case Xor => Excl(a, b)
    case Test => Conj(a, b)
  }

  function CarryOf(op: AluOp, a: bv32, b: bv32, c: bool): bool {
    match op
    case Add => CarryFrom(a, b, false)
    case Adc => CarryFrom(a, b, c)
    case Sub => BorrowFrom(a, b, false)
    case Sbb => BorrowFrom(a, b, c)
    case Cmp => BorrowFrom(a, b, false)
    case _ => false
  }

  function OverflowOf(op: AluOp, a: bv32, b: bv32, c: bool): bool {
    match op
    case Add => OverflowAdd(a, b, false)
    case Adc => OverflowAdd(a, b, c)
    case Sub => OverflowSub(a, b, false)
    case Sbb => OverflowSub(a, b, c)
    case Cmp => OverflowSub(a, b, false)
    case _ => false
  }

  predicate Discards(op: AluOp) { op in {Cmp, Test} }

  function AluStep(op: AluOp, dst: Loc, b: bv32, m: Host): Host {
    var a := m.Get(dst);
    var v := Value(op, a, b, m.cf);
    (if Discards(op) then m else m.Set(dst, v))
      .Flags(CarryOf(op, a, b, m.cf), v == 0, Msb(v), OverflowOf(op, a, b, m.cf))
  }

  function IncStep(m: Host): Host {
    var v := Plus(m.ebx, 1);
    m.(ebx := v).Flags(m.cf, v == 0, Msb(v), OverflowAdd(m.ebx, 1, false))
  }

  function DecStep(dst: Loc, m: Host): Host {
    var v := Minus(m.Get(dst), 1);
    m.Set(dst, v).Flags(m.cf, v == 0, Msb(v), OverflowSub(m.Get(dst), 1, false))
  }

  // ----- shifts -----

  /** The value after one single-bit step of a shift. */
  function ShiftOnce(op: ShiftOp, x: bv32): bv32 {
    match op
    case Shl => x << 1
    case Shr => x >> 1
    case Sar => (x >> 1) | (x & 0x8000_0000)
    case Ror => (x >> 1) | (x << 31)
  }

  /** The bit a single-bit step moves into CF. */
  function BitOut(op: ShiftOp, x: bv32): bool {
    if op == Shl then Msb(x) else x & 1 != 0
  }

  /** The processor repeats the single-bit step `n` times. */
  function ShiftBy(op: ShiftOp, x: bv32, n: bv32): bv32
    decreases n
  {
    if n == 0 then x else ShiftOnce(op, ShiftBy(op, x, n - 1))
  }

  /** The last bit shifted out by `n` steps. */
  function ShiftOut(op: ShiftOp, x: bv32, n: bv32): bool
    requires n != 0
  {
    BitOut(op, ShiftBy(op, x, n - 1))
  }

  /** A shift by an immediate or by CL: only the low five bits of the amount count, a zero
      amount changes nothing, rotates leave ZF and SF alone. */
  function ShiftStep(op: ShiftOp, dst: Loc, amount: bv32, m: Host, noise: Noise): Host {
    var n := amount & 31;
    if n == 0 then m else
      var r := ShiftBy(op, m.Get(dst), n);
      var c := ShiftOut(op, m.Get(dst), n);
      var o := noise(m.clock) & 1 != 0;
      if op == Ror then m.Set(dst, r).Flags(c, m.zf, m.sf, o)
      else m.Set(dst, r).Flags(c, r == 0, Msb(r), o)
  }

  // The four shifts as one operation on the whole word.

  function Lsl(x: bv32, n: bv32): bv32
    requires n <= 32
  {
    x << n
  }

  function Lsr(x: bv32, n: bv32): bv32
    requires n <= 32
  {
    x >> n
  }

  function Asr(x: bv32, n: bv32): bv32
    requires n <= 32
  {
    if Msb(x) then (x >> n) | (0xFFFF_FFFF << (32 - n)) else x >> n
  }

  function Rotr(x: bv32, n: bv32): bv32
    requires n <= 32
  {
    (x >> n) | (x << (32 - n))
  }

  /** The closed form of `n` single-bit steps. */
  function Closed(op: ShiftOp, x: bv32, n: bv32): bv32
    requires n <= 32
  {
    match op
    case Shl => Lsl(x, n)
    case Shr => Lsr(x, n)
    case Sar => Asr(x, n)
    case Ror => Rotr(x, n)
  }

  /** The position the last of `n` steps takes its bit from. */
  function OutPosition(op: ShiftOp, n: bv32): (p: bv32)
    requires 1 <= n <= 31
    ensures p < 32
  {
    if op == Shl then 32 - n else n - 1
  }

  lemma ShlNext(x: bv32, n: bv32)
    requires 1 <= n <= 31
    ensures (x << (n - 1)) << 1 == x << n
    ensures Msb(x << (n - 1)) == Bit(x, 32 - n)
  {
  }

  lemma ShrNext(x: bv32, n: bv32)
    requires 1 <= n <= 31
    ensures (x >> (n - 1)) >> 1 == x >> n
    ensures ((x >> (n - 1)) & 1 != 0) == Bit(x, n - 1)
  {
  }

  lemma SarNegative(x: bv32, n: bv32)
    requires 1 <= n <= 31 && x & 0x8000_0000 != 0
    ensures var y := (x >> (n - 1)) | (0xFFFF_FFFF << (32 - (n - 1)));
            (y >> 1) | (y & 0x8000_0000) == (x >> n) | (0xFFFF_FFFF << (32 - n))
  {
  }

  lemma SarNegativeOut(x: bv32, n: bv32)
    requires 1 <= n <= 31
    ensures (((x >> (n - 1)) | (0xFFFF_FFFF << (32 - (n - 1)))) & 1 != 0) == Bit(x, n - 1)
  {
  }

  lemma SarPositive(x: bv32, n: bv32)
    requires 1 <= n <= 31 && x & 0x8000_0000 == 0
    ensures ((x >> (n - 1)) >> 1) | ((x >> (n - 1)) & 0x8000_0000) == x >> n
  {
  }

  lemma RorNext(x: bv32, n: bv32)
    requires 1 <= n <= 31
    ensures var y := (x >> (n - 1)) | (x << (32 - (n - 1)));
            (y >> 1) | (y << 31) == (x >> n) | (x << (32 - n))
  {
  }

  lemma RorOut(x: bv32, n: bv32)
    requires 2 <= n <= 31
    ensures (((x >> (n - 1)) | (x << (32 - (n - 1)))) & 1 != 0) == Bit(x, n - 1)
  {
  }

  lemma ClosedShl(x: bv32, n: bv32)
    requires 1 <= n <= 31
    ensures ShiftOnce(Shl, Closed(Shl, x, n - 1)) == Closed(Shl, x, n)
  {
    ShlNext(x, n);
  }

  lemma ClosedShr(x: bv32, n: bv32)
    requires 1 <= n <= 31
    ensures ShiftOnce(Shr, Closed(Shr, x, n - 1)) == Closed(Shr, x, n)
  {
    ShrNext(x, n);
  }

  lemma ClosedSar(x: bv32, n: bv32)
    requires 1 <= n <= 31
    ensures ShiftOnce(Sar, Closed(Sar, x, n - 1)) == Closed(Sar, x, n)
  {
    if x & 0x8000_0000 != 0 { SarNegative(x, n); } else { SarPositive(x, n); }
  }

  lemma ClosedRor(x: bv32, n: bv32)
    requires 1 <= n <= 31
    ensures ShiftOnce(Ror, Closed(Ror, x, n - 1)) == Closed(Ror, x, n)
  {
    RorNext(x, n);
  }

  lemma ClosedNext(op: ShiftOp, x: bv32, n: bv32)
    requires 1 <= n <= 31
    ensures ShiftOnce(op, Closed(op, x, n - 1)) == Closed(op, x, n)
  {
    match op {
      case Shl => ClosedShl(x, n);
      case Shr => ClosedShr(x, n);
      case Sar => ClosedSar(x, n);
      case Ror => ClosedRor(x, n);
    }
  }

  lemma ClosedOut(op: ShiftOp, x: bv32, n: bv32)
    requires 1 <= n <= 31
    ensures BitOut(op, Closed(op, x, n - 1)) == Bit(x, OutPosition(op, n))
  {
    match op
    case Shl => ShlNext(x, n);
    case Shr => ShrNext(x, n);
    case Sar => if Msb(x) { SarNegativeOut(x, n); } else { ShrNext(x, n); }
    case Ror => if n > 1 { RorOut(x, n); }
  }

  lemma ClosedZero(op: ShiftOp, x: bv32)
    ensures Closed(op, x, 0) == x
  {
  }

  /** Repeating the single-bit step gives the closed form for every amount, and the bit it
      leaves in CF is the one the ARM shifter calls the carry out. */
  lemma {:induction false} ShiftByClosed(op: ShiftOp, x: bv32, n: bv32)
    requires n <= 31
    ensures ShiftBy(op, x, n) == Closed(op, x, n)
    ensures n > 0 ==> ShiftOut(op, x, n) == Bit(x, OutPosition(op, n))
    decreases n
  {
    if n == 0 {
      ClosedZero(op, x);
    } else {
      ShiftByClosed(op, x, n - 1);
      ClosedNext(op, x, n);
      ClosedOut(op, x, n);
    }
  }

  /** Rotate left by one through the carry. */
  function Rcl(x: bv32, c: bool): bv32 { (x << 1) | B2w(c) }

  /** Rotate right by one through the carry. */
  function Rcr(x: bv32, c: bool): bv32 { (x >> 1) | (B2w(c) << 31) }

  function RclStep(dst: Loc, m: Host): Host {
    var x := m.Get(dst);
    var r := Rcl(x, m.cf);
    m.Set(dst, r).Flags(Msb(x), m.zf, m.sf, Msb(r) != Msb(x))
  }

  function RcrStep(dst: Loc, m: Host): Host {
    var x := m.Get(dst);
    m.Set(dst, Rcr(x, m.cf)).Flags(x & 1 != 0, m.zf, m.sf, Msb(x) != m.cf)
  }

  /** AL rotated right by one bit, the rest of EAX kept. */
  function RorAl(eax: bv32): bv32 {
    (eax & 0xFFFF_FF00) | ((eax & 0xFE) >> 1) | ((eax & 1) << 7)
  }

  /** OF after `ror al, 1`: the two top bits of AL differ. */
  function RorAlOf(eax: bv32): bool { (RorAl(eax) & 0x80 != 0) != (RorAl(eax) & 0x40 != 0) }

  function RorAlStep(m: Host): Host {
    m.(eax := RorAl(m.eax)).Flags(RorAl(m.eax) & 0x80 != 0, m.zf, m.sf, RorAlOf(m.eax))
  }

  // ----- interpreter -----

  predicate Taken(cc: Cc, m: Host) {
    match cc
    case Jnz => !m.zf
    case Jz => m.zf
    case Jnc => !m.cf
    case Jc => m.cf
    case Jns => !m.sf
    case Js => m.sf
    case Jno => !m.of
    case Jo => m.of
    case Jbe => m.cf || m.zf
    case Ja => !m.cf && !m.zf
    case Jl => m.sf != m.of
    case Jge => m.sf == m.of
    case Jle => m.zf || m.sf != m.of
    case Jg => !m.zf && m.sf == m.of
  }

  /** EAX with AL set to OF. */
  function WithAl(eax: bv32, o: bool): bv32 { (eax & 0xFFFF_FF00) | B2w(o) }

  /** EAX with AH as `lahf` leaves it: SF ZF 0 AF 0 PF 1 CF; AF and PF are `junk`. */
  function WithAh(eax: bv32, s: bool, z: bool, c: bool, junk: bv32): bv32 {
    (eax & 0xFFFF_00FF)
      | (if s then 0x8000 else 0) | (if z then 0x4000 else 0) | (if c then 0x100 else 0)
      | 0x200 | (junk & 0x1400)
  }

  /** One micro-operation other than a jump. */
  function Step(op: Op, m0: Host, noise: Noise): Host {
    var m := Tick(m0);
    match op
    case Mov(d, s) => m.Set(d, m.Get(s))
    case MovImm(d, v) => m.Set(d, v)
    case Alu(o, d, s) => AluStep(o, d, m.Get(s), m)
    case AluImm(o, d, v) => AluStep(o, d, v, m)
    case Shift(o, d, n) => ShiftStep(o, d, n, m, noise)
    case ShiftCl(o, d) => ShiftStep(o, d, m.ecx, m, noise)
    case Rcl1(d) => RclStep(d, m)
    case Rcr1(d) => RcrStep(d, m)
    case RorAl1 => RorAlStep(m)
    case Not(d) => m.Set(d, Compl(m.Get(d)))
    case Dec(d) => DecStep(d, m)
    case Cmova(d, s) => if !m.cf && !m.zf then m.Set(d, m.Get(s)) else m
    case Cmc => m.(cf := !m.cf)
    case SetoAl => m.(eax := WithAl(m.eax, m.of))
    case Lahf => m.(eax := WithAh(m.eax, m.sf, m.zf, m.cf, noise(m.clock)))
    case Sahf => m.Flags(SavedC(m.eax), SavedZ(m.eax), SavedS(m.eax), m.of)
    case Push(s) => m.(stack := [m.Get(s)] + m.stack)
    case PushImm(v) => m.(stack := [v] + m.stack)
    case Pop(d) =>
      if |m.stack| == 0 then m else m.(stack := m.stack[1..]).Set(d, m.stack[0])
    case IncEbx => IncStep(m)
    case LeaEbx => m.(ebx := Plus(m.ebx, 1))
    case Jump(_, _) => m
  }

  function Tick(m: Host): Host { m.(clock := m.clock + 1) }

  /** Runs a piece of code to its end; a jump skips forward over `skip` operations. */
  function Run(code: seq<Op>, m: Host, noise: Noise): Host {
    if |code| == 0 then m
    else if code[0].Jump? && Taken(code[0].cc, m) then
      var m' := Tick(m);
      if 1 + code[0].skip <= |code| then Run(code[1 + code[0].skip..], m', noise) else m'
    else Run(code[1..], Step(code[0], m, noise), noise)
  }

  /** No jump leaves the piece of code. */
  ghost predicate JumpsInside(code: seq<Op>) {
    forall k :: 0 <= k < |code| && code[k].Jump? ==> k + 1 + code[k].skip <= |code|
  }

  lemma {:induction false} RunAppend(a: seq<Op>, b: seq<Op>, m: Host, noise: Noise)
    requires JumpsInside(a)
    ensures Run(a + b, m, noise) == Run(b, Run(a, m, noise), noise)
    decreases |a|
  {
    if |a| == 0 {
      assert a + b == b;
    } else {
      assert (a + b)[0] == a[0];
      if a[0].Jump? && Taken(a[0].cc, m) {
        var n := 1 + a[0].skip;
        assert n <= |a|;
        assert (a + b)[n..] == a[n..] + b;
        Suffix(a, n);
        RunAppend(a[n..], b, Tick(m), noise);
      } else {
        assert (a + b)[1..] == a[1..] + b;
        Suffix(a, 1);
        RunAppend(a[1..], b, Step(a[0], m, noise), noise);
      }
    }
  }

  lemma Suffix(a: seq<Op>, n: nat)
    requires n <= |a| && JumpsInside(a)
    ensures JumpsInside(a[n..])
  {
    forall k | 0 <= k < |a[n..]| && a[n..][k].Jump?
      ensures k + 1 + a[n..][k].skip <= |a[n..]|
    {
      assert a[n..][k] == a[n + k];
    }
  }

  lemma JumpsInsideAppend(a: seq<Op>, b: seq<Op>)
    requires JumpsInside(a) && JumpsInside(b)
    ensures JumpsInside(a + b)
  {
    forall k | 0 <= k < |a + b| && (a + b)[k].Jump?
      ensures k + 1 + (a + b)[k].skip <= |a + b|
    {
      if k >= |a| { assert (a + b)[k] == b[k - |a|]; }
    }
  }

  lemma {:induction false} RunOne(a: Op, m: Host, noise: Noise)
    requires !a.Jump?
    ensures Run([a], m, noise) == Step(a, m, noise)
  {
    assert [a][1..] == [];
  }

  lemma {:induction false} RunCons(a: Op, b: seq<Op>, m: Host, noise: Noise)
    requires !a.Jump?
    ensures Run([a] + b, m, noise) == Run(b, Step(a, m, noise), noise)
  {
    assert ([a] + b)[1..] == b;
  }

  lemma {:induction false} RunTwo(a: Op, b: Op, m: Host, noise: Noise)
    requires !a.Jump? && !b.Jump?
    ensures Run([a, b], m, noise) == Step(b, Step(a, m, noise), noise)
  {
    hide Step;
    assert [a, b] == [a] + [b];
    RunCons(a, [b], m, noise);
    RunOne(b, Step(a, m, noise), noise);
  }

  lemma {:induction false} RunThree(a: Op, b: Op, c: Op, m: Host, noise: Noise)
    requires !a.Jump? && !b.Jump? && !c.Jump?
    ensures Run([a, b, c], m, noise) == Step(c, Step(b, Step(a, m, noise), noise), noise)
  {
    hide Step;
    assert [a, b, c] == [a] + [b, c];
    RunCons(a, [b, c], m, noise);
    RunTwo(b, c, Step(a, m, noise), noise);
  }
}
