/**
 VRAM banks: a small table records, per CPU, at which address each bank was mapped last. The
 table tells the truth about the overlay, and remapping with unchanged control registers
 changes nothing.
 */
module Vram {
  import opened Overlay
  import opened MemMap

  const SIZE_BITS_FACTOR := 512
  const PAGES := 0x80_0000

  function PageOf(addr: nat): nat { addr / SIZE_BITS_FACTOR }

  /** The recorded addresses (0: not mapped) and the memory map of one CPU. */
  datatype Cpu = Cpu(mapping: seq<nat>, mem: Map)

  // ----- the operations, as functions -----

  function UnmapBank(v: Cpu, idx: nat, bank: Region): Cpu
    requires idx < |v.mapping|
  {
    if v.mapping[idx] != 0 then Cpu(v.mapping[idx := 0], Unmap(v.mem, bank)) else v
  }

  function MapBank(v: Cpu, idx: nat, bank: Region, addr: nat): Cpu
    requires idx < |v.mapping|
  {
    if v.mapping[idx] != addr then
      var u := UnmapBank(v, idx, bank);
      Cpu(u.mapping[idx := addr],
          MapRegion(u.mem, bank, PageOf(addr), PageOf(addr) + bank.pages))
    else v
  }

  // ----- the records tell the truth -----

  /** Bank `idx` is recorded as covering page `p`. */
  predicate Recorded(v: Cpu, banks: seq<Region>, idx: nat, p: nat)
    requires idx < |banks| == |v.mapping|
  {
    var addr := v.mapping[idx];
    addr != 0 && PageOf(addr) <= p < PageOf(addr) + banks[idx].pages
  }

  /** The banks are different regions, and no other region has the priority of a bank. */
  ghost predicate BanksOk(banks: seq<Region>, cat: set<Region>, nil: Region) {
    && Identified(cat) && nil in cat && nil !in banks
    && (forall i :: 0 <= i < |banks| ==> banks[i] in cat)
    && (forall i, j :: 0 <= i < j < |banks| ==> banks[i] != banks[j])
    && (forall i, x :: 0 <= i < |banks| && x in cat && x.priority == banks[i].priority ==> x == banks[i])
  }

  /** A non-zero record: the bank lies over exactly the recorded window. Zero: it is absent. */
  ghost predicate Booked(v: Cpu, n: nat, cat: set<Region>, nil: Region, banks: seq<Region>) {
    && BanksOk(banks, cat, nil)
    && |v.mapping| == |banks|
    && Good(v.mem, n, cat)
    && (forall p :: 0 <= p < n ==> nil in Cover(v.mem, n, p))
    && (forall i, p :: 0 <= i < |banks| && 0 <= p < n ==>
          (banks[i] in Cover(v.mem, n, p) <==> Recorded(v, banks, i, p)))
  }

  lemma UnmapBankBooked(v: Cpu, n: nat, cat: set<Region>, nil: Region, banks: seq<Region>, idx: nat)
    requires Booked(v, n, cat, nil, banks) && idx < |banks|
    ensures var v' := UnmapBank(v, idx, banks[idx]);
            Booked(v', n, cat, nil, banks) && v'.mapping == v.mapping[idx := 0]
  {
    hide Unmap, Good, Cover;
    if v.mapping[idx] != 0 {
      UnmapGood(v.mem, n, cat, banks[idx]);
    }
  }

  lemma MapBankBooked(v: Cpu, n: nat, cat: set<Region>, nil: Region, banks: seq<Region>, idx: nat, addr: nat)
    requires Booked(v, n, cat, nil, banks) && idx < |banks|
    requires addr != 0 && PageOf(addr) + banks[idx].pages <= n
    ensures var v' := MapBank(v, idx, banks[idx], addr);
            Booked(v', n, cat, nil, banks) && v'.mapping == v.mapping[idx := addr]
  {
    hide Unmap, MapRegion;
    if v.mapping[idx] != addr {
      UnmapBankBooked(v, n, cat, nil, banks, idx);
      var u := UnmapBank(v, idx, banks[idx]);
      var a, b := PageOf(addr), PageOf(addr) + banks[idx].pages;
      assert Fits(u.mem, n, banks[idx], a, b) by {
        forall p, q | a <= p < b && q in Cover(u.mem, n, p) ensures q.priority != banks[idx].priority {
          assert PageGood(u.mem, n, cat, p);
          assert !Recorded(u, banks, idx, p);
        }
      }
      MapRegionGood(u.mem, n, cat, banks[idx], a, b);
    }
  }

  /** The initial mapping with nothing recorded. */
  lemma InitBooked(n: nat, cat: set<Region>, nil: Region, banks: seq<Region>)
    requires BanksOk(banks, cat, nil)
    ensures Booked(Cpu(seq(|banks|, i => 0), InitNull(n, nil)), n, cat, nil, banks)
  {
    InitNullGood(n, nil, cat);
  }

  // ----- whole runs -----

  datatype BankOp = MapOp(idx: nat, addr: nat) | UnmapOp(idx: nat)

  predicate OpOk(op: BankOp, n: nat, banks: seq<Region>) {
    op.idx < |banks| &&
    (op.MapOp? ==> op.addr != 0 && PageOf(op.addr) + banks[op.idx].pages <= n)
  }

  function DoBank(op: BankOp, v: Cpu, banks: seq<Region>): Cpu
    requires op.idx < |banks| == |v.mapping|
  {
    match op
    case MapOp(i, addr) => MapBank(v, i, banks[i], addr)
    case UnmapOp(i) => UnmapBank(v, i, banks[i])
  }

  function DoBanks(ops: seq<BankOp>, v: Cpu, banks: seq<Region>): Cpu
    requires forall k :: 0 <= k < |ops| ==> ops[k].idx < |banks|
    requires |banks| == |v.mapping|
    decreases |ops|
  {
    if |ops| == 0 then v else DoBanks(ops[1..], DoBank(ops[0], v, banks), banks)
  }

  /** Over every run of bank operations the records keep telling the truth. */
  lemma {:induction false} RunBooked(ops: seq<BankOp>, v: Cpu, n: nat, cat: set<Region>, nil: Region,
                                     banks: seq<Region>)
    requires forall k :: 0 <= k < |ops| ==> OpOk(ops[k], n, banks)
    requires Booked(v, n, cat, nil, banks)
    ensures forall k :: 0 <= k < |ops| ==> ops[k].idx < |banks|
    ensures Booked(DoBanks(ops, v, banks), n, cat, nil, banks)
    decreases |ops|
  {
    hide Booked, MapBank, UnmapBank;
    BookedLength(v, n, cat, nil, banks);
    if |ops| > 0 {
      var op := ops[0];
      assert OpOk(op, n, banks);
      match op {
        case MapOp(i, addr) => MapBankBooked(v, n, cat, nil, banks, i, addr);
        case UnmapOp(i) => UnmapBankBooked(v, n, cat, nil, banks, i);
      }
      RunBooked(ops[1..], DoBank(op, v, banks), n, cat, nil, banks);
    }
  }

  /** From the initial mapping, whatever banks were mapped and unmapped. */
  lemma {:induction false} InitRunBooked(ops: seq<BankOp>, n: nat, cat: set<Region>, nil: Region, banks: seq<Region>)
    requires BanksOk(banks, cat, nil) && forall k :: 0 <= k < |ops| ==> OpOk(ops[k], n, banks)
    ensures forall k :: 0 <= k < |ops| ==> ops[k].idx < |banks|
    ensures Booked(DoBanks(ops, Cpu(seq(|banks|, i => 0), InitNull(n, nil)), banks), n, cat, nil, banks)
  {
    hide Booked, InitNull;
    InitBooked(n, cat, nil, banks);
    RunBooked(ops, Cpu(seq(|banks|, i => 0), InitNull(n, nil)), n, cat, nil, banks);
  }

  lemma BookedLength(v: Cpu, n: nat, cat: set<Region>, nil: Region, banks: seq<Region>)
    requires Booked(v, n, cat, nil, banks)
    ensures |v.mapping| == |banks|
  {
  }

  // ----- the control registers of banks A to E -----

  /** What a control register asks for. */
  datatype Request = On9(addr: nat) | On7(addr: nat) | Off | Invalid

  /** Banks A to E as `map_vcnt` decodes them: bit 7 enables, the low bits select the use and
      bits 3 and 4 the offset. Banks A and B have two selection bits, the others three; E has
      no offset. A bank C selection without a case falls through to bank D's cases, which have
      none for it either. */
  function Decode(idx: nat, cnt: nat): Request
    requires idx < 5
  {
    if (cnt / 128) % 2 == 0 then Off
    else
      var mst := if idx < 2 then cnt % 4 else cnt % 8;
      var ofs := ((cnt / 8) % 4) * 8 * 0x4000;
      match idx
      case 0 =>
        if mst == 0 then On9(0x0680_0000)
        else if mst == 1 then On9(0x0600_0000 + ofs)
        else if mst == 2 then On9(0x0640_0000 + ofs)
        else Invalid
      case 1 =>
        if mst == 0 then On9(0x0682_0000)
        else if mst == 1 then On9(0x0600_0000 + ofs)
        else if mst == 2 then On9(0x0640_0000 + ofs)
        else Invalid
      case 2 =>
        if mst == 0 then On9(0x0684_0000)
        else if mst == 1 then On9(0x0600_0000 + ofs)
        else if mst == 2 then On7(0x0600_0000 + ofs)
        else if mst == 4 then On9(0x0620_0000)
        else Invalid
      case 3 =>
        if mst == 0 then On9(0x0686_0000)
        else if mst == 1 then On9(0x0600_0000 + ofs)
        else if mst == 2 then On7(0x0600_0000 + ofs)
        else if mst == 4 then On9(0x0660_0000)
        else Invalid
      case 4 =>
        if mst == 0 then On9(0x0688_0000)
        else if mst == 1 then On9(0x0600_0000)
        else if mst == 2 then On9(0x0640_0000)
        else Invalid
  }

  datatype Both = Both(arm9: Cpu, arm7: Cpu)

  function Apply(idx: nat, cnt: nat, s: Both, banks: seq<Region>): Both
    requires idx < 5 && idx < |banks| == |s.arm9.mapping| == |s.arm7.mapping|
  {
    match Decode(idx, cnt)
    case On9(addr) => s.(arm9 := MapBank(s.arm9, idx, banks[idx], addr))
    case On7(addr) => s.(arm7 := MapBank(s.arm7, idx, banks[idx], addr))
    case Off => Both(UnmapBank(s.arm9, idx, banks[idx]), UnmapBank(s.arm7, idx, banks[idx]))
    case Invalid => s
  }

  /** The control registers of the first `k` banks, in order. */
  function Remap(cnt: seq<nat>, k: nat, s: Both, banks: seq<Region>): (r: Both)
    requires k <= 5 <= |cnt| && 5 <= |banks| == |s.arm9.mapping| == |s.arm7.mapping|
    ensures |banks| == |r.arm9.mapping| == |r.arm7.mapping|
  {
    if k == 0 then s else Apply(k - 1, cnt[k - 1], Remap(cnt, k - 1, s, banks), banks)
  }

  /** The records already show what the register asks for. */
  predicate Settled(idx: nat, cnt: nat, s: Both)
    requires idx < 5 && idx < |s.arm9.mapping| == |s.arm7.mapping|
  {
    match Decode(idx, cnt)
    case On9(addr) => s.arm9.mapping[idx] == addr
    case On7(addr) => s.arm7.mapping[idx] == addr
    case Off => s.arm9.mapping[idx] == 0 && s.arm7.mapping[idx] == 0
    case Invalid => true
  }

  lemma SettledIsFixed(idx: nat, cnt: nat, s: Both, banks: seq<Region>)
    requires idx < 5 && idx < |banks| == |s.arm9.mapping| == |s.arm7.mapping|
    requires Settled(idx, cnt, s)
    ensures Apply(idx, cnt, s, banks) == s
  {
    hide Decode, Unmap, MapRegion;
  }

  lemma ApplySettles(idx: nat, cnt: nat, s: Both, banks: seq<Region>)
    requires idx < 5 && idx < |banks| == |s.arm9.mapping| == |s.arm7.mapping|
    ensures var s' := Apply(idx, cnt, s, banks);
            && |s'.arm9.mapping| == |s'.arm7.mapping| == |banks|
            && Settled(idx, cnt, s')
            && forall j :: 0 <= j < |banks| && j != idx ==>
                 s'.arm9.mapping[j] == s.arm9.mapping[j] && s'.arm7.mapping[j] == s.arm7.mapping[j]
  {
    hide Decode, Unmap, MapRegion;
  }

  lemma {:induction false} RemapSettles(cnt: seq<nat>, k: nat, s: Both, banks: seq<Region>)
    requires k <= 5 <= |cnt| && 5 <= |banks| == |s.arm9.mapping| == |s.arm7.mapping|
    ensures forall j :: 0 <= j < k ==> Settled(j, cnt[j], Remap(cnt, k, s, banks))
  {
    hide Decode, Apply;
    if k > 0 {
      RemapSettles(cnt, k - 1, s, banks);
      ApplySettles(k - 1, cnt[k - 1], Remap(cnt, k - 1, s, banks), banks);
    }
  }

  lemma {:induction false} SettledRemap(cnt: seq<nat>, k: nat, s: Both, banks: seq<Region>)
    requires k <= 5 <= |cnt| && 5 <= |banks| == |s.arm9.mapping| == |s.arm7.mapping|
    requires forall j :: 0 <= j < 5 ==> Settled(j, cnt[j], s)
    ensures Remap(cnt, k, s, banks) == s
  {
    hide Decode, Apply;
    if k > 0 {
      SettledRemap(cnt, k - 1, s, banks);
      SettledIsFixed(k - 1, cnt[k - 1], s, banks);
    }
  }

  /** A second remap with unchanged registers changes neither records nor maps. */
  lemma {:induction false} RemapTwice(cnt: seq<nat>, s: Both, banks: seq<Region>)
    requires 5 <= |cnt| && 5 <= |banks| == |s.arm9.mapping| == |s.arm7.mapping|
    ensures Remap(cnt, 5, Remap(cnt, 5, s, banks), banks) == Remap(cnt, 5, s, banks)
  {
    hide Remap, Settled;
    RemapSettles(cnt, 5, s, banks);
    SettledRemap(cnt, 5, Remap(cnt, 5, s, banks), banks);
  }

  /** Remapping banks A to E keeps the records of both CPUs true, for all register values. */
  lemma {:induction false} RemapBooked(cnt: seq<nat>, k: nat, s: Both, cat: set<Region>, nil: Region,
                                       banks: seq<Region>)
    requires k <= 5 <= |cnt| && 5 <= |banks| == |s.arm9.mapping| == |s.arm7.mapping|
    requires Booked(s.arm9, PAGES, cat, nil, banks) && Booked(s.arm7, PAGES, cat, nil, banks)
    requires forall i :: 0 <= i < 5 ==> banks[i].pages <= 256
    ensures Booked(Remap(cnt, k, s, banks).arm9, PAGES, cat, nil, banks)
    ensures Booked(Remap(cnt, k, s, banks).arm7, PAGES, cat, nil, banks)
  {
    hide Booked, MapBank, UnmapBank;
    if k > 0 {
      RemapBooked(cnt, k - 1, s, cat, nil, banks);
      var r := Remap(cnt, k - 1, s, banks);
      DecodeBounds(k - 1, cnt[k - 1]);
      match Decode(k - 1, cnt[k - 1])
      case On9(addr) => MapBankBooked(r.arm9, PAGES, cat, nil, banks, k - 1, addr);
      case On7(addr) => MapBankBooked(r.arm7, PAGES, cat, nil, banks, k - 1, addr);
      case Off =>
        UnmapBankBooked(r.arm9, PAGES, cat, nil, banks, k - 1);
        UnmapBankBooked(r.arm7, PAGES, cat, nil, banks, k - 1);
      case Invalid =>
    }
  }

  lemma DecodeBounds(idx: nat, cnt: nat)
    requires idx < 5
    ensures Decode(idx, cnt).On9? ==> 0 < Decode(idx, cnt).addr < 0x0700_0000
    ensures Decode(idx, cnt).On7? ==> 0 < Decode(idx, cnt).addr < 0x0700_0000
  {
  }

  // ----- what a register value means -----

  /** Bit 7, bits 3-4 and bits 0-2 of a control register. */
  datatype Fields = Fields(rest: nat, on: bool, mid: nat, ofs: nat, mst: nat) {
    predicate Ok() { mid < 4 && ofs < 4 && mst < 8 }

    function Value(): nat { mst + 8 * (ofs + 4 * (mid + 4 * ((if on then 1 else 0) + 2 * rest))) }
  }

  /** Where banks A to E can go, in pages of the address space. */
  datatype Window = Window(arm7: bool, first: nat) | Nowhere

  /** Plain use at a place of its own; background memory in steps of a bank; object memory for A and
      B, the ARM7's work memory for C and D; and the second screen's memory. Banks A and B do not
      look at bit 2; E has no steps. */
  function WindowOf(idx: nat, mst: nat, ofs: nat): Window {
    var use, step := if idx < 2 then mst % 4 else mst, if idx < 4 then 0x100 * ofs else 0;
    if use == 0 then Window(false, 0x3_4000 + 0x100 * idx)
    else if use == 1 then Window(false, 0x3_0000 + step)
    else if use == 2 && idx in {2, 3} then Window(true, 0x3_0000 + step)
    else if use == 2 then Window(false, 0x3_2000 + step)
    else if use == 4 && idx == 2 then Window(false, 0x3_1000)
    else if use == 4 && idx == 3 then Window(false, 0x3_3000)
    else Nowhere
  }

  lemma FieldsOf(cnt: nat, f: Fields)
    requires f.Ok() && cnt == f.Value()
    ensures (cnt / 128) % 2 == (if f.on then 1 else 0) && cnt % 8 == f.mst && cnt % 4 == f.mst % 4
    ensures (cnt / 8) % 4 == f.ofs
  {
    var z := (if f.on then 1 else 0) + 2 * f.rest;
    var y := f.mid + 4 * z;
    var x := f.ofs + 4 * y;
    LowAndRest(cnt, 8, f.mst, x);
    LowAndRest(x, 4, f.ofs, y);
    LowAndRest(y, 4, f.mid, z);
    assert cnt / 128 == z && cnt % 4 == f.mst % 4;
  }

  lemma LowAndRest(n: nat, m: nat, low: nat, rest: nat)
    requires m in {4, 8} && low < m && n == low + m * rest
    ensures n % m == low && n / m == rest
  {
  }

  lemma DecodeIsWindow(idx: nat, cnt: nat, f: Fields)
    requires idx < 5 && f.Ok() && cnt == f.Value()
    ensures !f.on ==> Decode(idx, cnt) == Off
    ensures f.on ==>
              match WindowOf(idx, f.mst, f.ofs)
              case Nowhere => Decode(idx, cnt) == Invalid
              case Window(true, p) => Decode(idx, cnt) == On7(512 * p)
              case Window(false, p) => Decode(idx, cnt) == On9(512 * p)
  {
    FieldsOf(cnt, f);
  }

  ghost predicate LiesOver(v: Cpu, bank: Region, p: nat)
    requires Partition(v.mem.ovl, 0, PAGES) && p < PAGES
  {
    bank in Cover(v.mem, PAGES, p)
  }

  /** A control register that is written: a window of the ARM9 or the ARM7 is covered by exactly the
      bank, which leaves any other window it had on that CPU but not one on the other; a cleared
      bit 7 takes it off both; a value without a use changes nothing. */
  lemma RegisterMaps(idx: nat, f: Fields, s: Both, cat: set<Region>, nil: Region, banks: seq<Region>, p: nat)
    requires idx < 5 <= |banks| && f.Ok() && p < PAGES && banks[idx].pages <= 256
    requires Booked(s.arm9, PAGES, cat, nil, banks) && Booked(s.arm7, PAGES, cat, nil, banks)
    ensures var r, bank := Apply(idx, f.Value(), s, banks), banks[idx];
            && Booked(r.arm9, PAGES, cat, nil, banks) && Booked(r.arm7, PAGES, cat, nil, banks)
            && (!f.on ==> !LiesOver(r.arm9, bank, p) && !LiesOver(r.arm7, bank, p))
            && (f.on ==>
                  match WindowOf(idx, f.mst, f.ofs)
                  case Nowhere => r == s
                  case Window(true, first) =>
                    r.arm9 == s.arm9 && (LiesOver(r.arm7, bank, p) <==> first <= p < first + bank.pages)
                  case Window(false, first) =>
                    r.arm7 == s.arm7 && (LiesOver(r.arm9, bank, p) <==> first <= p < first + bank.pages))
  {
    hide Decode, WindowOf, Fields.Value, MapBank, UnmapBank, Cover, Good, BanksOk;
    var cnt := f.Value();
    DecodeIsWindow(idx, cnt, f);
    DecodeBounds(idx, cnt);
    match Decode(idx, cnt) {
      case On9(addr) =>
        MapBankBooked(s.arm9, PAGES, cat, nil, banks, idx, addr);
        RecordCovers(MapBank(s.arm9, idx, banks[idx], addr), cat, nil, banks, idx, p);
      case On7(addr) =>
        MapBankBooked(s.arm7, PAGES, cat, nil, banks, idx, addr);
        RecordCovers(MapBank(s.arm7, idx, banks[idx], addr), cat, nil, banks, idx, p);
      case Off =>
        UnmapBankBooked(s.arm9, PAGES, cat, nil, banks, idx);
        UnmapBankBooked(s.arm7, PAGES, cat, nil, banks, idx);
        RecordCovers(UnmapBank(s.arm9, idx, banks[idx]), cat, nil, banks, idx, p);
        RecordCovers(UnmapBank(s.arm7, idx, banks[idx]), cat, nil, banks, idx, p);
      case Invalid =>
    }
  }

  lemma RecordCovers(v: Cpu, cat: set<Region>, nil: Region, banks: seq<Region>, idx: nat, p: nat)
    requires Booked(v, PAGES, cat, nil, banks) && idx < |banks| && p < PAGES
    ensures LiesOver(v, banks[idx], p) <==>
              v.mapping[idx] != 0 && v.mapping[idx] / 512 <= p < v.mapping[idx] / 512 + banks[idx].pages
  {
    hide BanksOk, Cover, PageGood;
    assert banks[idx] in Cover(v.mem, PAGES, p) <==> Recorded(v, banks, idx, p);
  }

  // ----- the bookkeeping itself -----

  class CurMaps {
    const banks: seq<Region>
    const mapping: array<nat>
    const mem: PageTable

    ghost predicate Valid()
      reads this, mem
    {
      mem.Valid() && mapping.Length == |banks|
    }

    ghost function State(): Cpu
      reads this, mapping, mem, mem.table
    {
      Cpu(mapping[..], mem.State())
    }

    constructor (banks: seq<Region>, mem: PageTable)
      requires mem.Valid()
      ensures Valid() && this.mem == mem && this.banks == banks
      ensures fresh(mapping) && forall i :: 0 <= i < |banks| ==> mapping[i] == 0
    {
      this.banks, this.mem := banks, mem;
      mapping := new nat[|banks|](_ => 0);
    }

    method DoUnmap(idx: nat)
      requires Valid() && idx < |banks|
      modifies mapping, mem`ovl, mem.table
      ensures Valid() && mem.table == old(mem.table)
      ensures State() == UnmapBank(old(State()), idx, banks[idx])
    {
      if mapping[idx] != 0 {
        mem.UnmapRegion(banks[idx]);
        mapping[idx] := 0;
      }
    }

    method DoMap(idx: nat, addr: nat)
      requires Valid() && idx < |banks|
      requires addr != 0 && PageOf(addr) + banks[idx].pages <= mem.pages
      modifies mapping, mem`ovl, mem.table
      ensures Valid() && mem.table == old(mem.table)
      ensures State() == MapBank(old(State()), idx, banks[idx], addr)
    {
      if mapping[idx] != addr {
        DoUnmap(idx);
        mem.MapWindow(banks[idx], PageOf(addr), PageOf(addr) + banks[idx].pages);
        mapping[idx] := addr;
      }
    }
  }

  /** Both CPUs' bookkeeping, driven by the VRAM control registers. */
  class VideoRam {
    const arm9: CurMaps
    const arm7: CurMaps

    ghost predicate Valid()
      reads this, arm9, arm7, arm9.mem, arm7.mem
    {
      && arm9.Valid() && arm7.Valid()
      && arm9.banks == arm7.banks && |arm9.banks| >= 5
      && arm9.mapping != arm7.mapping && arm9.mem != arm7.mem && arm9.mem.table != arm7.mem.table
      && arm9.mem.pages == arm7.mem.pages == PAGES
      && forall i :: 0 <= i < 5 ==> arm9.banks[i].pages <= 256
    }

    ghost function State(): Both
      reads this, arm9, arm7, arm9.mem, arm7.mem, arm9.mapping, arm7.mapping
      reads arm9.mem.table, arm7.mem.table
    {
      Both(arm9.State(), arm7.State())
    }

    constructor (arm9: CurMaps, arm7: CurMaps)
      ensures this.arm9 == arm9 && this.arm7 == arm7
    {
      this.arm9, this.arm7 := arm9, arm7;
    }

    method MapVcnt(idx: nat, cnt: nat)
      requires Valid() && idx < 5
      modifies arm9.mapping, arm9.mem`ovl, arm9.mem.table, arm7.mapping, arm7.mem`ovl, arm7.mem.table
      ensures Valid() && arm9.mem.table == old(arm9.mem.table) && arm7.mem.table == old(arm7.mem.table)
      ensures State() == Apply(idx, cnt, old(State()), arm9.banks)
    {
      hide Unmap, MapRegion, Decode;
      DecodeBounds(idx, cnt);
      match Decode(idx, cnt)
      case On9(addr) => arm9.DoMap(idx, addr);
      case On7(addr) => arm7.DoMap(idx, addr);
      case Off =>
        arm7.DoUnmap(idx);
        arm9.DoUnmap(idx);
      case Invalid =>
    }

    method RemapBanks(cnt: seq<nat>)
      requires Valid() && 5 <= |cnt|
      modifies arm9.mapping, arm9.mem`ovl, arm9.mem.table, arm7.mapping, arm7.mem`ovl, arm7.mem.table
      ensures Valid() && arm9.mem.table == old(arm9.mem.table) && arm7.mem.table == old(arm7.mem.table)
      ensures State() == Remap(cnt, 5, old(State()), arm9.banks)
    {
      hide Apply;
      ghost var s := State();
      assert Remap(cnt, 0, s, arm9.banks) == s;
      MapVcnt(0, cnt[0]);
      assert State() == Remap(cnt, 1, s, arm9.banks);
      MapVcnt(1, cnt[1]);
      assert State() == Remap(cnt, 2, s, arm9.banks);
      MapVcnt(2, cnt[2]);
      assert State() == Remap(cnt, 3, s, arm9.banks);
      MapVcnt(3, cnt[3]);
      assert State() == Remap(cnt, 4, s, arm9.banks);
      MapVcnt(4, cnt[4]);
    }
  }
}
