/**
 Breakpoints in compiled code. A breakpoint patches one host byte of the code of an
 instruction; the lookup table leads from patched bytes back to breakpoints.

 One CPU and one instruction set; addresses are physical, so the memory map is fixed. The
 x86 decoder is a parameter; like the source's it is run on the bytes that are there, patched
 ones included.
 */
module Breakpoint {
  import opened Types

  const LINES := 40
  const PAGE := 512
  const DEBUG_BREAK: Byte := 0xCC

  /** A `break_data`: one kept per address that has breakpoints, or one of the two for single
      steps. */
  datatype Owner = Regular(addr: nat) | Stepper(i: nat)

  /** A `break_info`: line `sub` of its owner, one per host instruction. */
  datatype Id = Id(owner: Owner, sub: nat)

  /** `pos` is a host address, zero while there is no code to patch. */
  datatype Info = Info(used: bool, patched: bool, pos: nat, original: Byte)

  const BLANK := Info(false, false, 0, 0)

  type Lines = s: seq<Info> | |s| == 40 witness seq(40, _ => Info(false, false, 0, 0))

  /** A compiled block: its host range, and where in it each instruction starts. */
  datatype Code = Code(base: nat, size: nat, remap: seq<nat>)

  /** `host` is the code memory as it is and `pristine` as the compiler wrote it, which the
      source does not keep. */
  datatype State = State(host: map<nat, Byte>, pristine: map<nat, Byte>, data: map<Owner, Lines>,
                         steps: seq<nat>, dt: map<nat, Id>, blocks: map<nat, Code>, width: nat)

  /** The sizes of the host instructions in a byte string. */
  type Decoder = seq<Byte> -> Option<seq<nat>>

  predicate Has(s: State, id: Id) { id.owner in s.data && id.sub < LINES }

  function Get(s: State, id: Id): Info
    requires Has(s, id)
  {
    s.data[id.owner][id.sub]
  }

  function Set(s: State, id: Id, i: Info): State
    requires Has(s, id)
  {
    s.(data := s.data[id.owner := s.data[id.owner][id.sub := i]])
  }

  function AddrOf(s: State, o: Owner): nat {
    match o
    case Regular(a) => a
    case Stepper(i) => if i < |s.steps| then s.steps[i] else 0
  }

  predicate InCode(c: Code, p: nat) { c.base <= p < c.base + c.size }

  predicate InBlock(s: State, page: nat, p: nat) { page in s.blocks && InCode(s.blocks[page], p) }

  predicate CodeOk(c: Code, width: nat) {
    && width in {2, 4} && |c.remap| == PAGE / width && c.base > 0
    && (forall i :: 0 <= i < |c.remap| ==> c.remap[i] <= c.size)
    && (forall i, j :: 0 <= i < j < |c.remap| ==> c.remap[i] <= c.remap[j])
  }

  predicate Apart(c: Code, d: Code) { c.base + c.size <= d.base || d.base + d.size <= c.base }

  ghost predicate ShapeOk(s: State) {
    && |s.steps| == 2 && Stepper(0) in s.data && Stepper(1) in s.data
    && (forall o :: o in s.data && o.Stepper? ==> o.i < 2)
  }

  ghost predicate MemoryOk(s: State) {
    && s.host.Keys == s.pristine.Keys && 0 !in s.host
    && (forall g :: g in s.blocks ==> CodeOk(s.blocks[g], s.width))
    && (forall g, p :: g in s.blocks && InCode(s.blocks[g], p) ==> p in s.host)
    && (forall g, h :: g in s.blocks && h in s.blocks && g != h ==> Apart(s.blocks[g], s.blocks[h]))
  }

  // ----- one breakpoint -----

  function Write(host: map<nat, Byte>, p: nat, b: Byte): (r: map<nat, Byte>)
    ensures r.Keys == host.Keys
  {
    if p in host then host[p := b] else host
  }

  /** Nothing but the patched bytes, the lines and the table is different. */
  predicate SameCode(s: State, r: State) {
    && r.host.Keys == s.host.Keys && r.pristine == s.pristine && r.data.Keys == s.data.Keys
    && r.steps == s.steps && r.blocks == s.blocks && r.width == s.width
  }

  /** `patch_bi` */
  function Patch(s: State, id: Id): (r: State)
    requires Has(s, id)
    ensures SameCode(s, r) && r.data.Keys == s.data.Keys
  {
    var i := Get(s, id);
    if i.patched then s
    else Set(s, id, i.(patched := true)).(dt := s.dt[i.pos := id], host := Write(s.host, i.pos, DEBUG_BREAK))
  }

  /** `unpatch_bi` */
  function Unpatch(s: State, id: Id): (r: State)
    requires Has(s, id)
    ensures SameCode(s, r) && r.data.Keys == s.data.Keys
  {
    var i := Get(s, id);
    if !i.patched then s
    else Set(s, id, i.(patched := false)).(host := Write(s.host, i.pos, i.original), dt := s.dt - {i.pos})
  }

  /** `remove_bi`: forgets the place without restoring the byte. */
  function Remove(s: State, id: Id): (r: State)
    requires Has(s, id)
    ensures SameCode(s, r) && r.data.Keys == s.data.Keys
  {
    var i := Get(s, id);
    Set(s, id, i.(pos := 0, patched := false)).(dt := if i.patched then s.dt - {i.pos} else s.dt)
  }

  /** `toggle_sub` */
  function Toggle(s: State, id: Id): (r: State)
    requires Has(s, id)
    ensures SameCode(s, r) && r.data.Keys == s.data.Keys
  {
    var i := Get(s, id);
    var t := Set(s, id, i.(used := !i.used));
    if i.pos == 0 then t else if !i.used then Patch(t, id) else Unpatch(t, id)
  }

  /** One turn of the loop over the decoded instructions. */
  function Place(s: State, id: Id, pos: nat): (r: State)
    requires Has(s, id) && pos in s.host
    ensures SameCode(s, r) && r.data.Keys == s.data.Keys
  {
    var i := Get(s, id);
    var t := Set(s, id, i.(pos := pos, original := s.host[pos]));
    if i.used then Patch(t, id) else t
  }

  // ----- the host instructions of an instruction -----

  function From(c: Code, width: nat, a: nat): (r: nat)
    requires CodeOk(c, width)
    ensures c.base <= r
  {
    c.base + c.remap[a % PAGE / width]
  }

  function To(c: Code, width: nat, a: nat): (r: nat)
    requires CodeOk(c, width)
    ensures From(c, width, a) <= r <= c.base + c.size
  {
    var inst := a % PAGE / width + 1;
    if inst >= |c.remap| then c.base + c.size else c.base + c.remap[inst]
  }

  predicate RangeIn(m: map<nat, Byte>, from: nat, to: nat) { forall p :: from <= p < to ==> p in m }

  function Bytes(m: map<nat, Byte>, from: nat, to: nat): (r: seq<Byte>)
    requires from <= to && RangeIn(m, from, to)
    ensures |r| == to - from
  {
    seq(to - from, k requires 0 <= k < to - from => m[from + k])
  }

  function Sum(sizes: seq<nat>): nat
    decreases |sizes|
  {
    if sizes == [] then 0 else Sum(sizes[..|sizes| - 1]) + sizes[|sizes| - 1]
  }

  /** What is relied on from the decoder: non-empty instructions inside the bytes. */
  ghost predicate DecoderOk(decode: Decoder) {
    forall bytes :: decode(bytes).Some? ==>
      var sizes := decode(bytes).value;
      Sum(sizes) <= |bytes| && forall k :: 0 <= k < |sizes| ==> sizes[k] > 0
  }

  lemma {:induction false} SumPrefix(sizes: seq<nat>, n: nat)
    requires n <= |sizes|
    requires forall k :: 0 <= k < |sizes| ==> sizes[k] > 0
    ensures Sum(sizes[..n]) <= Sum(sizes) && (n < |sizes| ==> Sum(sizes[..n]) < Sum(sizes))
    decreases |sizes|
  {
    if n < |sizes| {
      var init := sizes[..|sizes| - 1];
      assert init[..n] == sizes[..n];
      SumPrefix(init, n);
    } else {
      assert sizes[..n] == sizes;
    }
  }

  /** Where the first forty host instructions start. */
  function SpotList(start: nat, sizes: seq<nat>): (r: seq<nat>)
    ensures |r| == Min(|sizes|, LINES)
  {
    seq(Min(|sizes|, LINES), k requires 0 <= k < Min(|sizes|, LINES) => start + Sum(sizes[..k]))
  }

  function Spots(decode: Decoder, m: map<nat, Byte>, c: Code, width: nat, a: nat): (r: seq<nat>)
    requires CodeOk(c, width) && RangeIn(m, From(c, width, a), To(c, width, a))
    ensures |r| <= LINES
  {
    var d := decode(Bytes(m, From(c, width, a), To(c, width, a)));
    if d.None? then [] else SpotList(From(c, width, a), d.value)
  }

  lemma SpotsOk(decode: Decoder, m: map<nat, Byte>, c: Code, width: nat, a: nat)
    requires CodeOk(c, width) && RangeIn(m, From(c, width, a), To(c, width, a)) && DecoderOk(decode)
    ensures var sp := Spots(decode, m, c, width, a);
            && (forall k :: 0 <= k < |sp| ==> From(c, width, a) <= sp[k] < To(c, width, a) && InCode(c, sp[k]))
            && (forall j, k :: 0 <= j < k < |sp| ==> sp[j] < sp[k])
            && (|sp| > 0 ==> sp[0] == From(c, width, a))
  {
    hide CodeOk;
    var d := decode(Bytes(m, From(c, width, a), To(c, width, a)));
    if d.Some? {
      var sizes, sp := d.value, Spots(decode, m, c, width, a);
      forall k | 0 <= k < |sp| ensures From(c, width, a) <= sp[k] < To(c, width, a) && InCode(c, sp[k]) {
        SumPrefix(sizes, k);
      }
      forall j, k | 0 <= j < k < |sp| ensures sp[j] < sp[k] {
        assert sizes[..k][..j] == sizes[..j];
        SumPrefix(sizes[..k], j);
      }
      if |sp| > 0 { assert sizes[..0] == []; }
    }
  }

  lemma CodeInHost(s: State, a: nat)
    requires MemoryOk(s) && a / PAGE in s.blocks
    ensures var c := s.blocks[a / PAGE];
            RangeIn(s.host, From(c, s.width, a), To(c, s.width, a))
            && RangeIn(s.pristine, From(c, s.width, a), To(c, s.width, a))
  {
    var c := s.blocks[a / PAGE];
    assert forall p :: From(c, s.width, a) <= p < To(c, s.width, a) ==> InCode(c, p);
  }

  /** The spots of an instruction, none if its page has no code. */
  function SpotsAt(decode: Decoder, s: State, a: nat): (r: seq<nat>)
    requires MemoryOk(s)
    ensures |r| <= LINES
  {
    if a / PAGE !in s.blocks then []
    else
      CodeInHost(s, a);
      Spots(decode, s.host, s.blocks[a / PAGE], s.width, a)
  }

  lemma SpotsAtOk(decode: Decoder, s: State, a: nat)
    requires MemoryOk(s) && DecoderOk(decode)
    ensures var sp := SpotsAt(decode, s, a);
            && (forall k :: 0 <= k < |sp| ==> sp[k] in s.host && InBlock(s, a / PAGE, sp[k]))
            && (forall j, k :: 0 <= j < k < |sp| ==> sp[j] < sp[k])
  {
    if a / PAGE in s.blocks {
      CodeInHost(s, a);
      SpotsOk(decode, s.host, s.blocks[a / PAGE], s.width, a);
    }
  }

  // ----- one owner -----

  function RemoveTo(s: State, o: Owner, n: nat): (r: State)
    requires o in s.data && n <= LINES
    ensures SameCode(s, r) && r.data.Keys == s.data.Keys
    decreases n
  {
    if n == 0 then s else Remove(RemoveTo(s, o, n - 1), Id(o, n - 1))
  }

  /** All places of an owner forgotten. */
  function Forget(s: State, o: Owner): (r: State)
    requires o in s.data
    ensures SameCode(s, r) && r.data.Keys == s.data.Keys
  {
    RemoveTo(s, o, |s.data[o]|)
  }

  function PlaceTo(s: State, o: Owner, spots: seq<nat>, n: nat): (r: State)
    requires o in s.data && n <= |spots| && n <= LINES
    requires forall k :: 0 <= k < n ==> spots[k] in s.host
    ensures SameCode(s, r) && r.data.Keys == s.data.Keys && r.host.Keys == s.host.Keys
    decreases n
  {
    if n == 0 then s else Place(PlaceTo(s, o, spots, n - 1), Id(o, n - 1), spots[n - 1])
  }

  /** `disassemble_breakdata` */
  function Disassemble(decode: Decoder, s: State, o: Owner): (r: State)
    requires MemoryOk(s) && DecoderOk(decode) && o in s.data
    ensures SameCode(s, r) && r.data.Keys == s.data.Keys
  {
    SpotsAtOk(decode, s, AddrOf(s, o));
    var spots := SpotsAt(decode, s, AddrOf(s, o));
    PlaceTo(s, o, spots, |spots|)
  }

  lemma CodeSame(s: State, r: State)
    requires SameCode(s, r) && MemoryOk(s)
    ensures MemoryOk(r)
  {
  }

  /** `update_breakdata` */
  function Update(decode: Decoder, s: State, o: Owner): (r: State)
    requires MemoryOk(s) && DecoderOk(decode) && o in s.data
    ensures SameCode(s, r) && r.data.Keys == s.data.Keys
  {
    CodeSame(s, Forget(s, o));
    Disassemble(decode, Forget(s, o), o)
  }

  // ----- operations -----

  predicate AnyUsed(s: State, o: Owner)
    requires o in s.data
  {
    exists k :: 0 <= k < LINES && s.data[o][k].used
  }

  /** A new `break_data`. */
  function Added(s: State, a: nat): State { s.(data := s.data[Regular(a) := seq(LINES, _ => BLANK)]) }

  function Erased(s: State, a: nat): State { s.(data := s.data - {Regular(a)}) }

  /** `toggle` */
  function ToggleAt(decode: Decoder, s: State, a: nat, sub: nat): State
    requires MemoryOk(s) && DecoderOk(decode)
  {
    if sub >= LINES then s
    else if Regular(a) !in s.data then
      CodeSameBut(s, Added(s, a));
      Toggle(Update(decode, Added(s, a), Regular(a)), Id(Regular(a), sub))
    else
      var t := Toggle(s, Id(Regular(a), sub));
      if AnyUsed(t, Regular(a)) then t else Erased(t, a)
  }

  lemma CodeSameBut(s: State, r: State)
    requires MemoryOk(s) && r.host.Keys == s.host.Keys && r.pristine == s.pristine
    requires r.blocks == s.blocks && r.width == s.width
    ensures MemoryOk(r)
  {
  }

  function ToggleIfUsed(s: State, id: Id): (r: State)
    requires Has(s, id)
    ensures SameCode(s, r) && r.data.Keys == s.data.Keys
  {
    if Get(s, id).used then Toggle(s, id) else s
  }

  /** One line of both single-step owners off. */
  function PairOff(s: State, k: nat): (r: State)
    requires Stepper(0) in s.data && Stepper(1) in s.data && k < LINES
    ensures SameCode(s, r) && r.data.Keys == s.data.Keys
  {
    ToggleIfUsed(ToggleIfUsed(s, Id(Stepper(0), k)), Id(Stepper(1), k))
  }

  function StepsOffTo(s: State, n: nat): (r: State)
    requires Stepper(0) in s.data && Stepper(1) in s.data && n <= LINES
    ensures SameCode(s, r) && r.data.Keys == s.data.Keys
    decreases n
  {
    if n == 0 then s else PairOff(StepsOffTo(s, n - 1), n - 1)
  }

  /** `unset_onetime`: both single-step owners off, line by line. */
  function StepsOff(s: State): (r: State)
    requires Stepper(0) in s.data && Stepper(1) in s.data
    ensures SameCode(s, r) && r.data.Keys == s.data.Keys
  {
    StepsOffTo(s, |s.data[Stepper(0)]|)
  }

  /** A single-step owner is pointed at an address; it is disassembled again if that changes. */
  function Aim(decode: Decoder, s: State, i: nat, a: nat): (r: State)
    requires MemoryOk(s) && DecoderOk(decode) && Stepper(i) in s.data && i < |s.steps|
    ensures SameCode(s.(steps := s.steps[i := a]), r) && r.data.Keys == s.data.Keys
  {
    if s.steps[i] == a then
      assert s.steps[i := a] == s.steps;
      s
    else
      CodeSameBut(s, s.(steps := s.steps[i := a]));
      Update(decode, s.(steps := s.steps[i := a]), Stepper(i))
  }

  /** The first single-step breakpoint of `set_onetime`, from a state without any. */
  function FirstStep(decode: Decoder, t: State, a1: nat, sub1: nat): (r: State)
    requires MemoryOk(t) && ShapeOk(t) && DecoderOk(decode) && sub1 < LINES
    ensures MemoryOk(r) && ShapeOk(r) && r.steps == t.steps[0 := a1]
  {
    var t1 := Aim(decode, t, 0, a1);
    var r := Toggle(t1, Id(Stepper(0), sub1));
    CodeSameBut(t, r);
    r
  }

  /** The second one, on another line of the same instruction or on another instruction. */
  function SecondStep(decode: Decoder, t: State, a1: nat, a2: nat, sub2: nat): (r: State)
    requires MemoryOk(t) && ShapeOk(t) && DecoderOk(decode) && sub2 < LINES
    ensures MemoryOk(r) && ShapeOk(r)
  {
    var r := if a1 == a2 then Toggle(t, Id(Stepper(0), sub2)) else Toggle(Aim(decode, t, 1, a2), Id(Stepper(1), sub2));
    CodeSameBut(t, r);
    r
  }

  /** `set_onetime` */
  function Onetime(decode: Decoder, s: State, a1: nat, sub1: nat, a2: nat, sub2: nat, num: nat): State
    requires MemoryOk(s) && ShapeOk(s) && DecoderOk(decode)
  {
    if sub1 >= LINES || (num > 1 && sub2 >= LINES) then s
    else
      var t := StepsOff(s);
      CodeSame(s, t);
      var t2 := FirstStep(decode, t, a1, sub1);
      if num <= 1 || (a1 == a2 && sub1 == sub2) then t2
      else SecondStep(decode, t2, a1, a2, sub2)
  }

  /** The block of a page is deleted and a new one put somewhere. */
  function Replaced(s: State, page: nat, code: Code, bytes: seq<Byte>): State
    requires |bytes| == code.size
  {
    s.(host := Overlaid(s, s.host, page, code, bytes), pristine := Overlaid(s, s.pristine, page, code, bytes),
       blocks := s.blocks[page := code])
  }

  function Overlaid(s: State, m: map<nat, Byte>, page: nat, code: Code, bytes: seq<Byte>): (r: map<nat, Byte>)
    requires |bytes| == code.size
    ensures forall p :: p in r <==> InCode(code, p) || (p in m && !InBlock(s, page, p))
    ensures forall p :: p in r ==> r[p] == if InCode(code, p) then bytes[p - code.base] else m[p]
  {
    var live := set p | p in m && !InBlock(s, page, p);
    var added := set p | code.base <= p < code.base + code.size && InCode(code, p);
    map p | p in live + added :: if InCode(code, p) then bytes[p - code.base] else m[p]
  }

  /** The order in which a recompile brings owners up to date: by address, then the two
      single-step ones. */
  function OwnerAt(page: nat, k: nat): Owner { if k < PAGE then Regular(page * PAGE + k) else Stepper(k - PAGE) }

  predicate Concerned(s: State, page: nat, o: Owner) { o in s.data && AddrOf(s, o) / PAGE == page }

  function UpdatedTo(decode: Decoder, s: State, page: nat, n: nat): (r: State)
    requires MemoryOk(s) && DecoderOk(decode) && n <= PAGE + 2
    ensures SameCode(s, r) && r.data.Keys == s.data.Keys && MemoryOk(r)
    decreases n
  {
    if n == 0 then s
    else
      var q := UpdatedTo(decode, s, page, n - 1);
      var r := if Concerned(q, page, OwnerAt(page, n - 1)) then Update(decode, q, OwnerAt(page, n - 1)) else q;
      CodeSame(s, r);
      r
  }

  /** A compiled block the allocator and the compiler can hand out: not on live code of another
      page; the bytes of the block it replaces are free. */
  ghost predicate Fits(s: State, page: nat, code: Code, bytes: seq<Byte>) {
    && |bytes| == code.size && CodeOk(code, s.width)
    && (forall g :: g in s.blocks && g != page ==> Apart(code, s.blocks[g]))
    && (forall p :: p in s.host && InCode(code, p) ==> InBlock(s, page, p))
  }

  lemma ReplacedMemory(s: State, page: nat, code: Code, bytes: seq<Byte>)
    requires MemoryOk(s) && Fits(s, page, code, bytes)
    ensures MemoryOk(Replaced(s, page, code, bytes))
  {
    var r := Replaced(s, page, code, bytes);
    assert r.host.Keys == r.pristine.Keys by {
      assert forall p :: p in r.host <==> p in r.pristine;
    }
    forall g, p | g in r.blocks && InCode(r.blocks[g], p) ensures p in r.host {
      if g != page {
        assert p in s.host && (page in s.blocks ==> Apart(s.blocks[g], s.blocks[page]));
      }
    }
  }

  /** `recompile` */
  function Recompiled(decode: Decoder, s: State, page: nat, code: Code, bytes: seq<Byte>): State
    requires MemoryOk(s) && ShapeOk(s) && DecoderOk(decode) && Fits(s, page, code, bytes)
  {
    ReplacedMemory(s, page, code, bytes);
    UpdatedTo(decode, Replaced(s, page, code, bytes), page, PAGE + |s.steps|)
  }

  /** No code, no breakpoints. */
  function Initial(width: nat): State {
    State(map[], map[], map[Stepper(0) := seq(LINES, _ => BLANK), Stepper(1) := seq(LINES, _ => BLANK)], [0, 0],
          map[], map[], width)
  }

  lemma InitialOk(width: nat)
    ensures MemoryOk(Initial(width)) && ShapeOk(Initial(width))
  {
  }

  // ----- showing the code of an instruction -----

  function UndoneTo(s: State, o: Owner, start: nat, buf: seq<Byte>, n: nat): (r: seq<Byte>)
    requires o in s.data && n <= LINES
    ensures |r| == |buf|
    decreases n
  {
    if n == 0 then buf
    else
      var q, i := UndoneTo(s, o, start, buf, n - 1), Get(s, Id(o, n - 1));
      if i.patched && start <= i.pos < start + |buf| then q[i.pos - start := i.original] else q
  }

  /** `get_jit`: the code with the patches of the regular breakpoints taken out; none without a
      compiled block. */
  function GetJit(s: State, a: nat): Option<seq<Byte>>
    requires MemoryOk(s)
  {
    if a / PAGE !in s.blocks then None
    else
      CodeInHost(s, a);
      var c := s.blocks[a / PAGE];
      var code := Bytes(s.host, From(c, s.width, a), To(c, s.width, a));
      Some(if Regular(a) !in s.data then code
           else UndoneTo(s, Regular(a), From(c, s.width, a), code, |s.data[Regular(a)]|))
  }

  // ----- the tables as the source updates them -----

  class Breakpoints {
    const decode: Decoder
    const width: nat
    var host: map<nat, Byte>
    ghost var pristine: map<nat, Byte>
    var data: map<Owner, Lines>
    var steps: seq<nat>
    var dt: map<nat, Id>
    var blocks: map<nat, Code>

    ghost function Value(): State
      reads this
    {
      State(host, pristine, data, steps, dt, blocks, width)
    }

    ghost predicate Valid()
      reads this
    {
      MemoryOk(Value()) && ShapeOk(Value()) && DecoderOk(decode)
    }

    constructor (decode: Decoder, width: nat)
      requires DecoderOk(decode)
      ensures Valid() && Value() == Initial(width) && this.decode == decode
    {
      this.decode, this.width := decode, width;
      host, pristine, steps, dt, blocks := map[], map[], [0, 0], map[], map[];
      data := map[Stepper(0) := seq(LINES, _ => BLANK), Stepper(1) := seq(LINES, _ => BLANK)];
      new;
      InitialOk(width);
    }

    method SetLine(id: Id, i: Info)
      requires Has(Value(), id)
      modifies this`data
      ensures Value() == Set(old(Value()), id, i)
    {
      data := data[id.owner := data[id.owner][id.sub := i]];
    }

    method PatchBi(id: Id)
      requires Has(Value(), id)
      modifies this`host, this`data, this`dt
      ensures Value() == Patch(old(Value()), id)
    {
      var i := data[id.owner][id.sub];
      if i.patched {
        return;
      }
      dt := dt[i.pos := id];
      host := Write(host, i.pos, DEBUG_BREAK);
      SetLine(id, i.(patched := true));
    }

    method UnpatchBi(id: Id)
      requires Has(Value(), id)
      modifies this`host, this`data, this`dt
      ensures Value() == Unpatch(old(Value()), id)
    {
      var i := data[id.owner][id.sub];
      if !i.patched {
        return;
      }
      host := Write(host, i.pos, i.original);
      SetLine(id, i.(patched := false));
      dt := dt - {i.pos};
    }

    method RemoveBi(id: Id)
      requires Has(Value(), id)
      modifies this`data, this`dt
      ensures Value() == Remove(old(Value()), id)
    {
      var i := data[id.owner][id.sub];
      if i.patched {
        dt := dt - {i.pos};
      }
      SetLine(id, i.(pos := 0, patched := false));
    }

    method ToggleSub(id: Id)
      requires Has(Value(), id)
      modifies this`host, this`data, this`dt
      ensures Value() == Toggle(old(Value()), id)
    {
      var i := data[id.owner][id.sub];
      SetLine(id, i.(used := !i.used));
      if i.pos != 0 {
        if !i.used {
          PatchBi(id);
        } else {
          UnpatchBi(id);
        }
      }
    }

    /** `update_breakdata`: forget the places, then decode the instruction again. */
    method UpdateBreakdata(o: Owner)
      requires MemoryOk(Value()) && DecoderOk(decode) && o in data
      modifies this`host, this`data, this`dt
      ensures Value() == Update(decode, old(Value()), o)
    {
      hide MemoryOk, DecoderOk, SameCode, Disassemble, Forget;
      RemoveLines(o);
      CodeSame(old(Value()), Value());
      DisassembleBreakdata(o);
    }

    method RemoveLines(o: Owner)
      requires o in data
      modifies this`host, this`data, this`dt
      ensures Value() == Forget(old(Value()), o)
    {
      hide Remove, SameCode;
      ghost var s := Value();
      for k := 0 to LINES
        invariant o in data && Value() == RemoveTo(s, o, k)
      {
        RemoveBi(Id(o, k));
      }
    }

    /** The host code of an instruction. */
    method CodeRange(a: nat) returns (start: nat, end: nat)
      requires a / PAGE in blocks && CodeOk(blocks[a / PAGE], width)
      ensures start == From(blocks[a / PAGE], width, a) && end == To(blocks[a / PAGE], width, a)
    {
      var code := blocks[a / PAGE];
      var inst := a % PAGE / width;
      start := code.base + code.remap[inst];
      inst := inst + 1;
      end := if inst >= |code.remap| then code.base + code.size else code.base + code.remap[inst];
    }

    method DisassembleBreakdata(o: Owner)
      requires MemoryOk(Value()) && DecoderOk(decode) && o in data
      modifies this`host, this`data, this`dt
      ensures Value() == Disassemble(decode, old(Value()), o)
    {
      ghost var was := Value();
      var a := match o { case Regular(a) => a case Stepper(i) => if i < |steps| then steps[i] else 0 };
      assert a == AddrOf(was, o);
      SpotsAtOk(decode, was, a);
      if a / PAGE in blocks {
        CodeInHost(was, a);
        var start, end := CodeRange(a);
        hide From, To, PlaceTo, MemoryOk, DecoderOk, SpotList, CodeOk;
        var d := decode(Bytes(host, start, end));
        if d.Some? {
          PlaceLines(o, start, d.value);
        }
      }
    }

    method PlaceLine(id: Id, pos: nat)
      requires Has(Value(), id) && pos in host
      modifies this`host, this`data, this`dt
      ensures Value() == Place(old(Value()), id, pos)
    {
      var i := data[id.owner][id.sub];
      SetLine(id, i.(pos := pos, original := host[pos]));
      if i.used {
        PatchBi(id);
      }
    }

    method PlaceLines(o: Owner, start: nat, sizes: seq<nat>)
      requires o in data
      requires forall k :: 0 <= k < |SpotList(start, sizes)| ==> SpotList(start, sizes)[k] in host
      modifies this`host, this`data, this`dt
      ensures var spots := SpotList(start, sizes); Value() == PlaceTo(old(Value()), o, spots, |spots|)
    {
      hide Place, SameCode;
      ghost var spots := SpotList(start, sizes);
      ghost var s := Value();
      var pos := start;
      assert sizes[..0] == [];
      for k := 0 to Min(|sizes|, LINES)
        invariant o in data && pos == start + Sum(sizes[..k])
        invariant Value() == PlaceTo(s, o, spots, k)
      {
        assert pos == spots[k] && spots[k] in s.host;
        PlaceLine(Id(o, k), pos);
        NextSum(sizes, k);
        pos := pos + sizes[k];
      }
    }

    method ToggleUsed(id: Id)
      requires Has(Value(), id)
      modifies this`host, this`data, this`dt
      ensures Value() == ToggleIfUsed(old(Value()), id)
    {
      if data[id.owner][id.sub].used {
        ToggleSub(id);
      }
    }

    method TogglePair(k: nat)
      requires Stepper(0) in data && Stepper(1) in data && k < LINES
      modifies this`host, this`data, this`dt
      ensures Value() == PairOff(old(Value()), k)
    {
      hide ToggleIfUsed, SameCode;
      ToggleUsed(Id(Stepper(0), k));
      ToggleUsed(Id(Stepper(1), k));
    }

    method UnsetOnetime()
      requires Valid()
      modifies this`host, this`data, this`dt
      ensures Stepper(0) in old(data) && Stepper(1) in old(data)
      ensures Value() == StepsOff(old(Value()))
    {
      hide PairOff, MemoryOk, DecoderOk, SameCode;
      ghost var s := Value();
      for k := 0 to LINES
        invariant Stepper(0) in data && Stepper(1) in data && Value() == StepsOffTo(s, k)
      {
        TogglePair(k);
      }
    }

    method AimAt(i: nat, a: nat)
      requires MemoryOk(Value()) && DecoderOk(decode) && Stepper(i) in data && i < |steps|
      modifies this
      ensures Value() == Aim(decode, old(Value()), i, a)
    {
      hide Update, DecoderOk;
      if steps[i] != a {
        ghost var was := Value();
        steps := steps[i := a];
        CodeSameBut(was, Value());
        UpdateBreakdata(Stepper(i));
      }
    }

    method SetOnetime(a1: nat, sub1: nat, a2: nat, sub2: nat, num: nat)
      requires Valid()
      modifies this
      ensures Value() == Onetime(decode, old(Value()), a1, sub1, a2, sub2, num)
    {
      hide Toggle, Aim, StepsOff, MemoryOk, DecoderOk;
      if sub1 >= LINES {
        return;
      }
      if num > 1 && sub2 >= LINES {
        return;
      }
      ghost var s := Value();
      UnsetOnetime();
      ghost var t := Value();
      CodeSame(s, t);
      AimAt(0, a1);
      ToggleSub(Id(Stepper(0), sub1));
      assert Value() == FirstStep(decode, t, a1, sub1);
      if num <= 1 {
        return;
      }
      if a2 == a1 {
        if sub1 == sub2 {
          return;
        }
        ToggleSub(Id(Stepper(0), sub2));
      } else {
        AimAt(1, a2);
        ToggleSub(Id(Stepper(1), sub2));
      }
    }

    /** `toggle`, with `add_bp` for the first breakpoint of an address. */
    method ToggleBreak(a: nat, sub: nat)
      requires Valid()
      modifies this`host, this`data, this`dt
      ensures Value() == ToggleAt(decode, old(Value()), a, sub)
    {
      hide Toggle, Update, MemoryOk, DecoderOk, ShapeOk;
      if sub >= LINES {
        return;
      }
      ghost var s := Value();
      var o := Regular(a);
      if o !in data {
        data := data[o := seq(LINES, _ => BLANK)];
        CodeSameBut(s, Value());
        UpdateBreakdata(o);
        ToggleSub(Id(o, sub));
      } else {
        ToggleSub(Id(o, sub));
        if exists k :: 0 <= k < LINES && data[o][k].used {
          return;
        }
        data := data - {o};
      }
    }
  }

  lemma NextSum(sizes: seq<nat>, k: nat)
    requires k < |sizes|
    ensures Sum(sizes[..k + 1]) == Sum(sizes[..k]) + sizes[k]
  {
    assert sizes[..k + 1][..k] == sizes[..k] && sizes[..k + 1][k] == sizes[k];
  }
}
