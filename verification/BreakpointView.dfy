/**
 The code that the debugger shows for an instruction.
 */
module BreakpointView {
  import opened Types
  import opened Breakpoint
  import opened BreakpointProof

  /** A byte after the first `n` lines of an owner were undone. */
  function LineByte(s: State, o: Owner, n: nat, p: nat, b: Byte): Byte {
    if p in s.dt && s.dt[p].owner == o && s.dt[p].sub < n && p in s.pristine then s.pristine[p] else b
  }

  lemma {:induction false} UndoneToByte(s: State, o: Owner, start: nat, buf: seq<Byte>, n: nat, k: nat)
    requires Good(s) && o in s.data && n <= LINES && k < |buf|
    ensures UndoneTo(s, o, start, buf, n)[k] == LineByte(s, o, n, start + k, buf[k])
    decreases n
  {
    hide ShapeOk, MemoryOk;
    if n > 0 {
      var p := start + k;
      UndoneToByte(s, o, start, buf, n - 1, k);
      assert Has(s, Id(o, n - 1)) && InfoOk(s, {}, Id(o, n - 1));
      if p in s.dt { assert EntryOk(s, p); }
    }
  }

  /** The code of an instruction as the compiler wrote it. */
  ghost function CompiledCode(s: State, a: nat): seq<Byte>
    requires MemoryOk(s) && a / PAGE in s.blocks
  {
    CodeInHost(s, a);
    var c := s.blocks[a / PAGE];
    Bytes(s.pristine, From(c, s.width, a), To(c, s.width, a))
  }

  /** A patch on `p` that changed the byte and is not one of the regular breakpoints at `a`. */
  predicate StepPatch(s: State, a: nat, p: nat) {
    p in s.dt && p in s.pristine && s.pristine[p] != DEBUG_BREAK && s.dt[p].owner != Regular(a)
  }

  lemma EntryLine(s: State, p: nat)
    requires Good(s) && p in s.dt
    ensures s.dt[p].owner in s.data && s.dt[p].sub < LINES
  {
    assert EntryOk(s, p);
  }

  lemma CompiledByte(s: State, a: nat, p: nat)
    requires MemoryOk(s) && a / PAGE in s.blocks
    requires From(s.blocks[a / PAGE], s.width, a) <= p < To(s.blocks[a / PAGE], s.width, a)
    ensures var k := p - From(s.blocks[a / PAGE], s.width, a);
            k < |CompiledCode(s, a)| && p in s.pristine && CompiledCode(s, a)[k] == s.pristine[p]
  {
    CodeInHost(s, a);
    hide From, To, MemoryOk;
  }

  lemma JitByte(s: State, a: nat, p: nat)
    requires Good(s) && MemoryOk(s) && a / PAGE in s.blocks && p in s.host
    requires From(s.blocks[a / PAGE], s.width, a) <= p < To(s.blocks[a / PAGE], s.width, a)
    ensures var k, shown, o := p - From(s.blocks[a / PAGE], s.width, a), GetJit(s, a), Regular(a);
            && shown.Some? && k < |shown.value|
            && shown.value[k] == (if o in s.data then LineByte(s, o, LINES, p, s.host[p]) else s.host[p])
  {
    CodeInHost(s, a);
    var c, o := s.blocks[a / PAGE], Regular(a);
    var from, to := From(c, s.width, a), To(c, s.width, a);
    hide From, To, UndoneTo, Good, MemoryOk, LineByte;
    if o in s.data { UndoneToByte(s, o, from, Bytes(s.host, from, to), |s.data[o]|, p - from); }
  }

  lemma ShownByte(s: State, a: nat, p: nat)
    requires Good(s) && MemoryOk(s) && a / PAGE in s.blocks
    requires From(s.blocks[a / PAGE], s.width, a) <= p < To(s.blocks[a / PAGE], s.width, a)
    ensures var k, shown := p - From(s.blocks[a / PAGE], s.width, a), GetJit(s, a);
            && shown.Some? && k < |shown.value| && k < |CompiledCode(s, a)|
            && (shown.value[k] == CompiledCode(s, a)[k] <==> !StepPatch(s, a, p))
  {
    CodeInHost(s, a);
    hide From, To, GetJit, CompiledCode, InfoOk, MemoryOk, ShapeOk;
    CompiledByte(s, a, p);
    JitByte(s, a, p);
    assert ByteOk(s, {}, p);
    if p in s.dt { EntryLine(s, p); }
  }

  lemma ShownLength(s: State, a: nat)
    requires MemoryOk(s) && a / PAGE in s.blocks
    ensures var c := s.blocks[a / PAGE];
            && GetJit(s, a).Some?
            && |GetJit(s, a).value| == |CompiledCode(s, a)| == To(c, s.width, a) - From(c, s.width, a)
  {
    hide From, To, UndoneTo;
    CodeInHost(s, a);
  }

  /** What is shown is the code as compiled exactly when no patch of another breakpoint that
      changed a byte is in it, whether or not the address has breakpoints of its own. */
  lemma GetJitExactly(s: State, a: nat)
    requires Good(s) && MemoryOk(s) && a / PAGE in s.blocks
    ensures var c := s.blocks[a / PAGE];
            GetJit(s, a) == Some(CompiledCode(s, a))
            <==> forall p :: From(c, s.width, a) <= p < To(c, s.width, a) ==> !StepPatch(s, a, p)
  {
    ShownLength(s, a);
    var c := s.blocks[a / PAGE];
    var from, to := From(c, s.width, a), To(c, s.width, a);
    var shown, whole := GetJit(s, a).value, CompiledCode(s, a);
    hide From, To, GetJit, CompiledCode, Good, MemoryOk, StepPatch;
    forall p | from <= p < to ensures shown[p - from] == whole[p - from] <==> !StepPatch(s, a, p) {
      ShownByte(s, a, p);
    }
    if forall p :: from <= p < to ==> !StepPatch(s, a, p) {
      forall k | 0 <= k < to - from ensures shown[k] == whole[k] {
        assert !StepPatch(s, a, from + k);
      }
      assert shown == whole;
    } else {
      var p :| from <= p < to && StepPatch(s, a, p);
      assert shown[p - from] != whole[p - from];
    }
  }
}
