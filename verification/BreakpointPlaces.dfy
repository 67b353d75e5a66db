/**
 Where the code of an instruction and the lines of its breakpoints are, from the remap table and
 the decoded sizes alone, and which lines each operation leaves in use.
 */
module BreakpointPlaces {
  import opened Types
  import opened Breakpoint
  import opened BreakpointProof
  import opened BreakpointView
  import opened BreakpointRecompile
  import opened BreakpointRuns

  // ----- the code of an instruction -----

  /** The ranges of a block's instructions follow one another: instruction `i` starts at entry `i`
      of the remap table and ends at the next entry, the last one at the end of the block. */
  lemma RangesTile(c: Code, width: nat, a: nat, i: nat)
    requires CodeOk(c, width) && i == a % 512 / width
    ensures |c.remap| * width == 512 && i < |c.remap|
    ensures From(c, width, a) == c.base + c.remap[i]
    ensures To(c, width, a) == if i + 1 < |c.remap| then c.base + c.remap[i + 1] else c.base + c.size
    ensures a % 512 + width < 512 ==> To(c, width, a) == From(c, width, a + width)
  {
    if width == 4 { NextWordSlot(a); } else { NextHalfSlot(a); }
  }

  lemma NextWordSlot(a: nat)
    ensures a % 512 + 4 < 512 ==> (a + 4) % 512 / 4 == a % 512 / 4 + 1
    ensures a % 512 / 4 < 128 && (a % 512 + 4 < 512 <==> a % 512 / 4 + 1 < 128)
  {
    if a % 512 + 4 < 512 { SamePage(a, 4); }
  }

  lemma NextHalfSlot(a: nat)
    ensures a % 512 + 2 < 512 ==> (a + 2) % 512 / 2 == a % 512 / 2 + 1
    ensures a % 512 / 2 < 256 && (a % 512 + 2 < 512 <==> a % 512 / 2 + 1 < 256)
  {
    if a % 512 + 2 < 512 { SamePage(a, 2); }
  }

  lemma SamePage(a: nat, n: nat)
    requires a % 512 + n < 512
    ensures (a + n) % 512 == a % 512 + n
  {
    assert a == 512 * (a / 512) + a % 512;
    assert (a + n) / 512 == a / 512;
  }

  lemma RangeOf(c: Code, width: nat, j: nat)
    requires CodeOk(c, width) && j < |c.remap|
    ensures From(c, width, j * width) == c.base + c.remap[j]
    ensures To(c, width, j * width) == if j + 1 < |c.remap| then c.base + c.remap[j + 1] else c.base + c.size
  {
    assert width == 2 || width == 4;
    RangesTile(c, width, j * width, j);
  }

  predicate InRange(c: Code, width: nat, j: nat, p: nat)
    requires CodeOk(c, width)
  {
    From(c, width, j * width) <= p < To(c, width, j * width)
  }

  /** Every byte of a block from its first instruction on is in the code of exactly one. */
  lemma EachByteOnce(c: Code, width: nat, p: nat) returns (i: nat)
    requires CodeOk(c, width) && c.base + c.remap[0] <= p < c.base + c.size
    ensures i < |c.remap| && InRange(c, width, i, p)
    ensures forall j :: 0 <= j < |c.remap| && j != i ==> !InRange(c, width, j, p)
  {
    i := LastBefore(c, p - c.base, |c.remap|);
    RangeOf(c, width, i);
    forall j | 0 <= j < |c.remap| && j != i ensures !InRange(c, width, j, p) {
      RangeOf(c, width, j);
    }
  }

  lemma {:induction false} LastBefore(c: Code, x: nat, n: nat) returns (i: nat)
    requires 0 < n <= |c.remap| && c.remap[0] <= x
    ensures i < n && c.remap[i] <= x && (i + 1 < n ==> x < c.remap[i + 1])
    decreases n
  {
    i := n - 1;
    if x < c.remap[i] { i := LastBefore(c, x, n - 1); }
  }

  // ----- the lines of an owner -----

  /** The host bytes of an instruction, by the remap table. */
  ghost predicate BytesOf(s: State, a: nat, bytes: seq<Byte>) {
    && a / 512 in s.blocks && s.width in {2, 4}
    && var c, i := s.blocks[a / 512], a % 512 / s.width;
       && i < |c.remap|
       && var end := if i + 1 < |c.remap| then c.remap[i + 1] else c.size;
          && c.remap[i] <= end && |bytes| == end - c.remap[i]
          && forall k :: 0 <= k < |bytes| ==> c.base + c.remap[i] + k in s.host
                                              && s.host[c.base + c.remap[i] + k] == bytes[k]
  }

  lemma SpotsFromBytes(decode: Decoder, s: State, a: nat, bytes: seq<Byte>)
    requires MemoryOk(s) && BytesOf(s, a, bytes)
    ensures var c, d := s.blocks[a / 512], decode(bytes);
            SpotsAt(decode, s, a)
            == if d.None? then [] else SpotList(c.base + c.remap[a % 512 / s.width], d.value)
  {
    var c := s.blocks[a / 512];
    CodeInHost(s, a);
    RangesTile(c, s.width, a, a % 512 / s.width);
    hide MemoryOk, From, To, CodeOk, SpotList;
    assert Bytes(s.host, From(c, s.width, a), To(c, s.width, a)) == bytes;
  }

  /** After a decode line `k` of a breakpoint at `a`, or of a single step pointed at `a`, is where the
      code of the instruction starts plus the sizes of the host instructions in front of it; lines
      there is no host instruction for have no place. */
  lemma DecodedLines(decode: Decoder, s: State, o: Owner, a: nat, bytes: seq<Byte>, k: nat)
    requires MemoryOk(s) && DecoderOk(decode) && o in s.data && k < 40 && BytesOf(s, a, bytes)
    requires o == Regular(a) || (o.Stepper? && o.i < |s.steps| && s.steps[o.i] == a)
    ensures var c, i := s.blocks[a / 512], Update(decode, s, o).data[o][k];
            if decode(bytes).Some? && k < |decode(bytes).value| then
              && i.pos == c.base + c.remap[a % 512 / s.width] + Sum(decode(bytes).value[..k])
              && (i.patched <==> s.data[o][k].used)
            else i.pos == 0 && !i.patched
  {
    hide MemoryOk, DecoderOk, Update, SpotsAt, Sum, BytesOf;
    SpotsFromBytes(decode, s, a, bytes);
    UpdateLine(decode, s, o, k);
  }

  /** There are such bytes for every instruction of a compiled page, and no place without. */
  lemma BytesThere(decode: Decoder, s: State, o: Owner, k: nat) returns (bytes: seq<Byte>)
    requires MemoryOk(s) && DecoderOk(decode) && o in s.data && k < 40
    ensures AddrOf(s, o) / 512 in s.blocks ==> BytesOf(s, AddrOf(s, o), bytes)
    ensures AddrOf(s, o) / 512 !in s.blocks ==> Update(decode, s, o).data[o][k].pos == 0
  {
    var a := AddrOf(s, o);
    if a / 512 in s.blocks {
      var c := s.blocks[a / 512];
      CodeInHost(s, a);
      RangesTile(c, s.width, a, a % 512 / s.width);
      bytes := Bytes(s.host, From(c, s.width, a), To(c, s.width, a));
    } else {
      bytes := [];
      hide MemoryOk, DecoderOk, Update;
      assert SpotsAt(decode, s, a) == [];
      UpdateLine(decode, s, o, k);
    }
  }

  /** The code shown for an instruction is as long as the remap table says and, where no patch of
      another breakpoint changed a byte, the compiler's bytes from there on. */
  lemma ShownFrom(s: State, a: nat, k: nat)
    requires Good(s) && MemoryOk(s) && a / 512 in s.blocks
    ensures var c := s.blocks[a / 512];
            && GetJit(s, a).Some? && s.width > 0 && a % 512 / s.width < |c.remap|
            && var i, shown := a % 512 / s.width, GetJit(s, a).value;
               && |shown| == (if i + 1 < |c.remap| then c.remap[i + 1] else c.size) - c.remap[i]
               && (k < |shown| ==>
                     var p := c.base + c.remap[i] + k;
                     p in s.pristine && (shown[k] == s.pristine[p] <==> !StepPatch(s, a, p)))
  {
    var c := s.blocks[a / 512];
    assert CodeOk(c, s.width);
    RangesTile(c, s.width, a, a % 512 / s.width);
    hide Good, MemoryOk, GetJit, CompiledCode, From, To, StepPatch;
    ShownLength(s, a);
    if k < |GetJit(s, a).value| {
      var p := c.base + c.remap[a % 512 / s.width] + k;
      ShownByte(s, a, p);
      CompiledByte(s, a, p);
    }
  }

  // ----- which lines are in use -----

  predicate Uses(s: State, o: Owner, k: nat) { o in s.data && k < 40 && s.data[o][k].used }

  lemma UpdateUses(decode: Decoder, s: State, o: Owner, q: Owner, k: nat)
    requires MemoryOk(s) && DecoderOk(decode) && o in s.data
    ensures Uses(Update(decode, s, o), q, k) <==> Uses(s, q, k)
  {
    hide MemoryOk, DecoderOk, Update;
    if q in s.data && k < 40 {
      if q == o { UpdateLine(decode, s, o, k); } else { UpdateOther(decode, s, o, Id(q, k)); }
    }
  }

  lemma ToggleUses(s: State, id: Id, q: Owner, k: nat)
    requires Has(s, id)
    ensures Uses(Toggle(s, id), q, k) <==> (if Id(q, k) == id then !Uses(s, q, k) else Uses(s, q, k))
  {
  }

  /** A toggle from outside turns exactly the named line of the named address on or off; an
      address has an entry afterwards if it had one and is another, or if a line of it is used. */
  lemma ToggleAtUses(decode: Decoder, s: State, a: nat, sub: nat, q: Owner, k: nat)
    requires MemoryOk(s) && DecoderOk(decode)
    ensures var r := ToggleAt(decode, s, a, sub);
            && (sub >= 40 ==> r == s)
            && (sub < 40 ==>
                  && (Uses(r, q, k) <==> (if q == Regular(a) && k == sub then !Uses(s, q, k) else Uses(s, q, k)))
                  && (q in r.data <==>
                        (if q == Regular(a) then exists j :: 0 <= j < 40 && Uses(r, q, j) else q in s.data)))
  {
    if sub < 40 {
      var o, id := Regular(a), Id(Regular(a), sub);
      var r := ToggleAt(decode, s, a, sub);
      hide MemoryOk, DecoderOk, Update, Toggle;
      if o in s.data {
        ToggleUses(s, id, q, k);
        ErasedUses(Toggle(s, id), a, q, k);
      } else {
        var t := Added(s, a);
        CodeSameBut(s, t);
        AddedUses(s, a, q, k);
        UpdateUses(decode, t, o, q, k);
        ToggleUses(Update(decode, t, o), id, q, k);
        AddedUses(s, a, o, sub);
        UpdateUses(decode, t, o, o, sub);
        ToggleUses(Update(decode, t, o), id, o, sub);
      }
    }
  }

  lemma AddedUses(s: State, a: nat, q: Owner, k: nat)
    requires Regular(a) !in s.data
    ensures Uses(Added(s, a), q, k) <==> Uses(s, q, k)
  {
  }

  lemma ErasedUses(t: State, a: nat, q: Owner, k: nat)
    requires Regular(a) in t.data
    ensures AnyUsed(t, Regular(a)) <==> exists j :: 0 <= j < 40 && Uses(t, Regular(a), j)
    ensures !AnyUsed(t, Regular(a)) ==> (Uses(Erased(t, a), q, k) <==> Uses(t, q, k))
  {
    if AnyUsed(t, Regular(a)) {
      var j :| 0 <= j < 40 && t.data[Regular(a)][j].used;
      assert Uses(t, Regular(a), j);
    }
  }

  lemma FirstUses(decode: Decoder, t: State, a: nat, sub: nat, q: Owner, k: nat)
    requires MemoryOk(t) && ShapeOk(t) && DecoderOk(decode) && sub < 40
    ensures var u := FirstStep(decode, t, a, sub);
            && |u.steps| == 2 && u.steps[0] == a && u.steps[1] == t.steps[1]
            && (Uses(u, q, k) <==> (if q == Stepper(0) && k == sub then !Uses(t, q, k) else Uses(t, q, k)))
  {
    hide MemoryOk, DecoderOk, Update, Toggle, Aim;
    AimUses(decode, t, 0, a, q, k);
    ToggleUses(Aim(decode, t, 0, a), Id(Stepper(0), sub), q, k);
  }

  lemma SecondUses(decode: Decoder, u: State, a1: nat, a2: nat, sub: nat, q: Owner, k: nat)
    requires MemoryOk(u) && ShapeOk(u) && DecoderOk(decode) && sub < 40
    ensures var r, o := SecondStep(decode, u, a1, a2, sub), Stepper(if a1 == a2 then 0 else 1);
            && |r.steps| == 2 && r.steps[0] == u.steps[0]
            && r.steps[1] == (if a1 == a2 then u.steps[1] else a2)
            && (Uses(r, q, k) <==> (if q == o && k == sub then !Uses(u, q, k) else Uses(u, q, k)))
  {
    hide MemoryOk, DecoderOk, Update, Toggle, Aim;
    if a1 == a2 {
      ToggleUses(u, Id(Stepper(0), sub), q, k);
    } else {
      AimUses(decode, u, 1, a2, q, k);
      ToggleUses(Aim(decode, u, 1, a2), Id(Stepper(1), sub), q, k);
    }
  }

  /** After single steps were set, exactly the named lines of the two single-step owners are in
      use, and those point at the named addresses; breakpoints are as they were. */
  lemma OnetimeUses(decode: Decoder, s: State, a1: nat, sub1: nat, a2: nat, sub2: nat, num: nat, q: Owner, k: nat)
    requires MemoryOk(s) && ShapeOk(s) && DecoderOk(decode) && sub1 < 40 && (num > 1 ==> sub2 < 40)
    ensures var r := Onetime(decode, s, a1, sub1, a2, sub2, num);
            && |r.steps| == 2 && |s.steps| == 2 && r.steps[0] == a1
            && r.steps[1] == (if num > 1 && a1 != a2 then a2 else s.steps[1])
            && (q.Regular? ==> (Uses(r, q, k) <==> Uses(s, q, k)))
            && (q == Stepper(0) ==> (Uses(r, q, k) <==> k == sub1 || (num > 1 && a1 == a2 && k == sub2)))
            && (q == Stepper(1) ==> (Uses(r, q, k) <==> num > 1 && a1 != a2 && k == sub2))
  {
    var t := StepsOff(s);
    OnetimeCases(decode, s, a1, sub1, a2, sub2, num);
    OffUses(s, q, k);
    hide MemoryOk, ShapeOk, DecoderOk, StepsOff, FirstStep, SecondStep, Onetime, Uses;
    FirstUses(decode, t, a1, sub1, q, k);
    if TwoSteps(a1, sub1, a2, sub2, num) {
      SecondUses(decode, FirstStep(decode, t, a1, sub1), a1, a2, sub2, q, k);
    }
    StepsShape(s);
  }

  lemma StepsShape(s: State)
    requires ShapeOk(s)
    ensures |s.steps| == 2 && StepsOff(s).steps == s.steps
  {
    hide StepsOffTo;
  }

  lemma AimUses(decode: Decoder, s: State, i: nat, a: nat, q: Owner, k: nat)
    requires MemoryOk(s) && DecoderOk(decode) && Stepper(i) in s.data && i < |s.steps|
    ensures Uses(Aim(decode, s, i, a), q, k) <==> Uses(s, q, k)
  {
    hide MemoryOk, DecoderOk, Update;
    if s.steps[i] != a {
      CodeSameBut(s, s.(steps := s.steps[i := a]));
      UpdateUses(decode, s.(steps := s.steps[i := a]), Stepper(i), q, k);
    }
  }

  /** `unset_onetime` leaves no single-step line in use and breakpoints as they were. */
  lemma OffUses(s: State, q: Owner, k: nat)
    requires ShapeOk(s)
    ensures Uses(StepsOff(s), q, k) <==> q.Regular? && Uses(s, q, k)
  {
    hide StepsOffTo;
    if q in s.data && k < 40 { StepsOffToGet(s, |s.data[Stepper(0)]|, Id(q, k)); }
  }

  /** A recompile takes no line out of use and brings none into it. */
  lemma RecompileUses(decode: Decoder, s: State, page: nat, code: Code, bytes: seq<Byte>, q: Owner, k: nat)
    requires MemoryOk(s) && ShapeOk(s) && DecoderOk(decode) && Fits(s, page, code, bytes)
    ensures Uses(Recompiled(decode, s, page, code, bytes), q, k) <==> Uses(s, q, k)
  {
    ReplacedShape(s, page, code, bytes);
    hide UpdatedTo, MemoryOk, ShapeOk, DecoderOk, Fits;
    var t := Replaced(s, page, code, bytes);
    assert Uses(t, q, k) <==> Uses(s, q, k);
    UsedStays(decode, t, page, PAGE + 2, Id(q, k));
  }
}
