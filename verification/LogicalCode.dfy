/**
 Arithmetic and logical instructions mixed, under any conditions, compiled without the
 lookahead: the lists for which the emitted code is right, said in terms of the instructions
 alone.
 */
module LogicalCode {
  import opened X86
  import Arm
  import opened Compiler
  import opened CodeEffects
  import opened Tracking
  import opened Lowering
  import opened DeadFlags

  predicate Mixed(i: Inst) {
    i.InFragment() && i.op in {Arm.ADD, Arm.ADC, Arm.CMP, Arm.CMN, Arm.AND, Arm.EOR, Arm.ORR, Arm.BIC}
  }

  predicate AllMixed(p: seq<Inst>) { forall k :: 0 <= k < |p| ==> Mixed(p[k]) }

  /** V may not be ARM's: an S-form logical instruction came since the last unconditional
      S-form arithmetic one. */
  predicate StaleV(p: seq<Inst>, k: nat)
    requires k <= |p|
  {
    k > 0 &&
    var i := p[k - 1];
    if i.s && Arm.Logical(i.op) then true else if i.s && i.cond == Arm.AL then false else StaleV(p, k - 1)
  }

  /** C may not be ARM's: an S-form logical instruction with LSL #0 came since the last
      unconditional flag writer of another kind. */
  predicate StaleC(p: seq<Inst>, k: nat)
    requires k <= |p|
  {
    k > 0 &&
    var i := p[k - 1];
    if i.s && Arm.Logical(i.op) && Arm.KeepsCarry(i) then true
    else if i.s && i.cond == Arm.AL then false else StaleC(p, k - 1)
  }

  /** No conditional instruction comes right after a flag writer. */
  predicate Spaced(p: seq<Inst>) { forall k :: 0 < k < |p| && p[k - 1].s ==> !Guarded(p[k].cond) }

  /** Instruction `k` reads no stale flag. */
  predicate ReadsFresh(p: seq<Inst>, k: nat)
    requires k < |p|
  {
    var i := p[k];
    && !(StaleV(p, k) && Reads(i.cond).v)
    && !(StaleC(p, k) && (Reads(i.cond).c || i.shift == Arm.RRX || i.op == Arm.ADC))
  }

  predicate MixedTrack(p: seq<Inst>, k: nat, t: Track)
    requires k <= |p|
  {
    t.live == LiveAt(p, k) && t.mem == Valid(true, !StaleC(p, k), !StaleV(p, k))
  }

  lemma MixedStep(p: seq<Inst>, k: nat, t: Track)
    requires AllMixed(p) && Spaced(p) && k < |p| && MixedTrack(p, k, t)
    ensures Readable(p[k], t, false) <==> ReadsFresh(p, k)
    ensures MixedTrack(p, k + 1, Next(p[k], t, false))
  {
    assert k > 0 && p[k - 1].s ==> !Guarded(p[k].cond);
  }

  lemma {:induction false} MixedAdmissible(p: seq<Inst>, k: nat, t: Track)
    requires AllMixed(p) && Spaced(p) && k <= |p| && MixedTrack(p, k, t)
    ensures Admissible(p, k, t, false) <==> forall j :: k <= j < |p| ==> ReadsFresh(p, j)
    ensures MixedTrack(p, |p|, TrackFrom(p, k, t, false))
    decreases |p| - k
  {
    hide Readable, ReadsFresh, MixedTrack, Next;
    if k < |p| {
      MixedStep(p, k, t);
      MixedAdmissible(p, k + 1, Next(p[k], t, false));
    }
  }

  /** A mixed list in which no conditional follows a flag writer is vouched for exactly when
      no instruction reads a stale C or V. */
  lemma {:induction false} FreshIsAdmissible(p: seq<Inst>)
    requires AllMixed(p) && Spaced(p)
    ensures Admissible(p, 0, ENTRY, false) <==> forall j :: 0 <= j < |p| ==> ReadsFresh(p, j)
  {
    MixedAdmissible(p, 0, ENTRY);
  }

  /** Such a list leaves ARM's registers, N and Z, and C and V unless they are stale at the
      end. */
  lemma {:induction false} MixedCorrect(p: seq<Inst>, st: State, m: Host, noise: Noise)
    requires AllMixed(p) && Spaced(p) && Matches(st, m)
    requires forall j :: 0 <= j < |p| ==> ReadsFresh(p, j)
    ensures Arm.AllDecoded(p)
    ensures var st', m' := Arm.Run(p, st), Run(CodeFrom(p, 0, false), m, noise);
            && m'.regs == st'.regs
            && SavedS(m'.saved) == st'.n && SavedZ(m'.saved) == st'.z
            && (!StaleC(p, |p|) ==> SavedC(m'.saved) == st'.c)
            && (!StaleV(p, |p|) ==> SavedO(m'.saved) == st'.v)
  {
    hide Run, CodeFrom, ReadsFresh, SavedC, SavedZ, SavedS, SavedO, LowByteOk, Arm.Run, Admissible, TrackFrom;
    MixedAdmissible(p, 0, ENTRY);
    CodeRefines(p, 0, ENTRY, false, st, m, noise);
    assert p[0..] == p;
  }
}
