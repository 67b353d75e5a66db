/**
 The two hardware FIFOs between the CPUs: rings of 16 words with free-running 32-bit counters,
 and the status bits each CPU keeps about the other's.
 */
module Ipc {
  import opened Types
  import opened Memory

  const SLOTS := 16

  /** A ring as a value: `queue` and the two counters. */
  datatype Ring = Ring(readpos: Word, writepos: Word, queue: seq<Word>) {
    predicate Ok() { |queue| == SLOTS }

    /** How far the writer is ahead, through counter wrap-around. */
    function Lag(): nat { (writepos - readpos) % SPACE }

    function Size(): nat { Lag() % SLOTS }

    predicate Empty() { writepos == readpos }

    predicate Full() { !Empty() && Size() == 0 }

    function Top(): Word
      requires Ok()
    {
      queue[readpos % SLOTS]
    }

    function Write(v: Word): (r: Ring)
      requires Ok()
      ensures r.Ok()
    {
      Ring(readpos, (writepos + 1) % SPACE, queue[writepos % SLOTS := v])
    }

    function Read(): (r: Ring)
      requires Ok()
      ensures r.Ok()
    {
      Ring((readpos + 1) % SPACE, writepos, queue)
    }

    /** The next `n` words a reader gets. */
    function Ahead(n: nat): (s: seq<Word>)
      requires Ok()
      ensures |s| == n
    {
      seq(n, k requires 0 <= k < n => queue[(readpos + k) % SLOTS])
    }

    function Contents(): (s: seq<Word>)
      requires Ok()
    {
      Ahead(Lag())
    }
  }

  // ----- the ring is a queue -----

  /** Indexing by a counter is the same before and after it wraps, as 16 divides 2^32. */
  lemma SlotAcrossWrap(x: nat)
    ensures x % SPACE % SLOTS == x % SLOTS
  {
  }

  lemma LagOf(readpos: Word, n: nat, writepos: Word)
    requires n < SPACE && writepos == (readpos + n) % SPACE
    ensures (writepos - readpos) % SPACE == n
  {
  }

  lemma WriterAt(r: Ring)
    ensures r.writepos == (r.readpos + r.Lag()) % SPACE
  {
  }

  lemma NextCount(x: nat)
    ensures (x % SPACE + 1) % SPACE == (x + 1) % SPACE
  {
  }

  lemma AfterWrite(r: Ring, v: Word)
    requires r.Ok() && r.Lag() < SPACE - 1
    ensures r.Write(v).Lag() == r.Lag() + 1
    ensures r.writepos % SLOTS == (r.readpos + r.Lag()) % SLOTS
  {
    hide Ring.Lag;
    WriterAt(r);
    SlotAcrossWrap(r.readpos + r.Lag());
    NextCount(r.readpos + r.Lag());
    LagIs(r.Write(v), r.Lag() + 1);
  }

  lemma LagIs(r: Ring, n: nat)
    requires n < SPACE && r.writepos == (r.readpos + n) % SPACE
    ensures r.Lag() == n
  {
    LagOf(r.readpos, n, r.writepos);
  }

  lemma OtherSlot(x: nat, k: nat, n: nat)
    requires k < n < k + SLOTS
    ensures (x + k) % SLOTS != (x + n) % SLOTS
  {
  }

  /** Full and empty are what they say while the lag is at most 16. */
  lemma StateMeansLag(r: Ring)
    requires r.Lag() <= SLOTS
    ensures r.Empty() <==> r.Lag() == 0
    ensures r.Full() <==> r.Lag() == SLOTS
  {
  }

  lemma WriteAppends(r: Ring, v: Word)
    requires r.Ok() && r.Lag() <= SLOTS && !r.Full()
    ensures r.Write(v).Lag() == r.Lag() + 1 && r.Write(v).Contents() == r.Contents() + [v]
  {
    hide Ring.Lag;
    StateMeansLag(r);
    var n := r.Lag();
    AfterWrite(r, v);
    var s := r.Write(v);
    forall k | 0 <= k < n
      ensures s.Ahead(n + 1)[k] == r.Ahead(n)[k]
    {
      OtherSlot(r.readpos, k, n);
    }
    assert s.Ahead(n + 1)[n] == v;
  }

  lemma ReadTakes(r: Ring)
    requires r.Ok() && 0 < r.Lag() <= SLOTS
    ensures r.Read().Lag() == r.Lag() - 1
    ensures r.Contents() == [r.Top()] + r.Read().Contents()
  {
    hide Ring.Lag;
    var n := r.Lag();
    WriterAt(r);
    var s := r.Read();
    MoveReader(r.readpos, n);
    LagIs(s, n - 1);
    forall k | 0 < k < n
      ensures r.Ahead(n)[k] == s.Ahead(n - 1)[k - 1]
    {
      ReaderSlot(r.readpos, k - 1);
    }
  }

  lemma MoveReader(readpos: Word, n: nat)
    requires n > 0
    ensures ((readpos + 1) % SPACE + (n - 1)) % SPACE == (readpos + n) % SPACE
  {
    if readpos + 1 == SPACE {
      var x := n - 1;
      assert (x + SPACE) % SPACE == x % SPACE;
    }
  }

  lemma ReaderSlot(readpos: Word, k: nat)
    ensures ((readpos + 1) % SPACE + k) % SLOTS == (readpos + (k + 1)) % SLOTS
  {
    if readpos + 1 == SPACE {
      assert (0x1_0000_0000 + k) % 16 == k % 16;
    }
  }

  /** Writing into a full ring overwrites the oldest word: the reader gets the words written
      exactly when the new word equals the one it replaced. */
  lemma OverflowLoses(r: Ring, v: Word)
    requires r.Ok() && r.Lag() == SLOTS
    ensures r.Write(v).Ahead(SLOTS + 1) == [v] + r.Contents()[1..] + [v]
    ensures r.Write(v).Ahead(SLOTS + 1) == r.Contents() + [v] <==> r.Contents()[0] == v
  {
    hide Ring.Lag;
    AfterWrite(r, v);
    var s, c := r.Write(v), r.Contents();
    var words := s.Ahead(SLOTS + 1);
    SameSlot(r.readpos);
    forall k | 0 < k < SLOTS
      ensures words[k] == c[k]
    {
      OtherSlot(r.readpos, 0, k);
      SameSlot(r.readpos);
    }
    assert words[0] == v && words[SLOTS] == v;
    assert words == [v] + c[1..] + [v];
    if words == c + [v] { assert (c + [v])[0] == c[0]; }
    if c[0] == v { assert [v] + c[1..] == c; }
  }

  lemma SameSlot(readpos: Word)
    ensures (readpos + SLOTS) % SLOTS == readpos % SLOTS
  {
  }

  // ----- the status bits -----

  /** `get_fifostate` */
  function FifoState(r: Ring): bv32 { (if r.Empty() then 1 else 0) | (if r.Full() then 2 else 0) }

  /** `flag_fifo` */
  function Flagged(cnt: bv32, state: bv32): bv32 { (cnt & 0xFFFF_FCFF) | (state << 8) }

  /** `get_fifocnt`: what a CPU reads. */
  function FifoCnt(cnt: bv32, r: Ring): bv32 { (cnt & 0xFFFF_FFFC) | FifoState(r) }

  function SendBits(w: bv32): bv32 { w & 3 }

  function ReceiveBits(w: bv32): bv32 { (w >> 8) & 3 }

  lemma FlaggedBits(cnt: bv32, state: bv32)
    requires state < 4
    ensures ReceiveBits(Flagged(cnt, state)) == state
    ensures Flagged(cnt, state) & 0xFFFF_FCFF == cnt & 0xFFFF_FCFF
  {
  }

  lemma ReadBits(cnt: bv32, r: Ring)
    ensures SendBits(FifoCnt(cnt, r)) == FifoState(r) && ReceiveBits(FifoCnt(cnt, r)) == ReceiveBits(cnt)
    ensures FifoCnt(cnt, r) & 0xFFFF_FFFC == cnt & 0xFFFF_FFFC
  {
    var s := FifoState(r);
    assert s < 4;
    MergeBits(cnt, s);
  }

  lemma MergeBits(cnt: bv32, s: bv32)
    requires s < 4
    ensures ((cnt & 0xFFFF_FFFC) | s) & 3 == s
    ensures (((cnt & 0xFFFF_FFFC) | s) >> 8) & 3 == (cnt >> 8) & 3
    ensures ((cnt & 0xFFFF_FFFC) | s) & 0xFFFF_FFFC == cnt & 0xFFFF_FFFC
  {
  }

  // ----- both CPUs -----

  /** One direction: the sender's ring, the receiver's count register, and the history: what was
      pushed and popped, and whether the receiver was told anything yet. */
  datatype Direction = Direction(ring: Ring, cnt: bv32, pushed: seq<Word>, popped: seq<Word>, told: bool)

  /** `to9` is written by the ARM7. `fires` is the history of interrupts raised. */
  datatype Link = Link(to7: Direction, to9: Direction, fires: seq<(Cpu, nat)>)

  const START := Direction(Ring(0, 0, seq(16, _ => 0)), 0, [], [], false)

  datatype Event = Push(from: Cpu, v: Word) | Pop(at: Cpu)

  /** The store to the send register. */
  function PushStep(d: Direction, v: Word): Direction
    requires d.ring.Ok()
  {
    var r := d.ring.Write(v);
    Direction(r, Flagged(d.cnt, FifoState(r)), d.pushed + [v], d.popped, true)
  }

  /** The load from the receive register; an empty ring is left alone. */
  function PopStep(d: Direction): Direction
    requires d.ring.Ok()
  {
    var r := if d.ring.Empty() then d.ring else d.ring.Read();
    Direction(r, Flagged(d.cnt, FifoState(r)), d.pushed,
              if d.ring.Empty() then d.popped else d.popped + [d.ring.Top()], true)
  }

  /** A push raises 18 at the receiver, a pop that leaves the ring empty 17 at the sender. */
  function Step(l: Link, e: Event): Link
    requires l.to7.ring.Ok() && l.to9.ring.Ok()
  {
    match e
    case Push(Arm9, v) => Link(PushStep(l.to7, v), l.to9, l.fires + [(Arm7, 18)])
    case Push(Arm7, v) => Link(l.to7, PushStep(l.to9, v), l.fires + [(Arm9, 18)])
    case Pop(Arm7) =>
      var d := PopStep(l.to7);
      Link(d, l.to9, if d.ring.Empty() then l.fires + [(Arm9, 17)] else l.fires)
    case Pop(Arm9) =>
      var d := PopStep(l.to9);
      Link(l.to7, d, if d.ring.Empty() then l.fires + [(Arm7, 17)] else l.fires)
  }

  /** Words arrive in order, none lost or made up; the writer is at most 16 ahead; the
      receiver's bits are right exactly when it was told anything. */
  ghost predicate Good(d: Direction) {
    && d.ring.Ok() && d.ring.Lag() <= SLOTS
    && d.pushed == d.popped + d.ring.Contents()
    && (ReceiveBits(d.cnt) == FifoState(d.ring) <==> d.told)
    && (!d.told ==> d.ring.Empty() && d.pushed == [])
  }

  lemma StartGood()
    ensures Good(START)
  {
  }

  lemma StateBelow4(r: Ring)
    ensures FifoState(r) < 4
  {
  }

  lemma PushGood(d: Direction, v: Word)
    requires Good(d) && !d.ring.Full()
    ensures Good(PushStep(d, v))
  {
    hide Ring.Lag, Ring.Full, Ring.Empty, Ring.Write, Ring.Contents, FifoState, Flagged, ReceiveBits;
    var r := d.ring.Write(v);
    WriteAppends(d.ring, v);
    StateMeansLag(d.ring);
    StateBelow4(r);
    FlaggedBits(d.cnt, FifoState(r));
    assert d.popped + (d.ring.Contents() + [v]) == d.pushed + [v];
  }

  lemma PopGood(d: Direction)
    requires Good(d)
    ensures Good(PopStep(d))
  {
    hide Ring.Lag, Ring.Full, Ring.Empty, Ring.Read, Ring.Contents, Ring.Top, FifoState, Flagged, ReceiveBits;
    var r := if d.ring.Empty() then d.ring else d.ring.Read();
    StateMeansLag(d.ring);
    StateBelow4(r);
    FlaggedBits(d.cnt, FifoState(r));
    if !d.ring.Empty() {
      ReadTakes(d.ring);
      assert d.popped + ([d.ring.Top()] + r.Contents()) == (d.popped + [d.ring.Top()]) + r.Contents();
    }
  }

  function SendRing(l: Link, cpu: Cpu): Ring { if cpu.Arm9? then l.to7.ring else l.to9.ring }

  /** Every push finds room. */
  ghost predicate Polite(l: Link, events: seq<Event>)
    requires l.to7.ring.Ok() && l.to9.ring.Ok()
    decreases |events|
  {
    events != [] ==>
      (events[0].Push? ==> !SendRing(l, events[0].from).Full()) && Polite(Step(l, events[0]), events[1..])
  }

  ghost function Run(l: Link, events: seq<Event>): (r: Link)
    requires l.to7.ring.Ok() && l.to9.ring.Ok()
    decreases |events|
  {
    if events == [] then l else Run(Step(l, events[0]), events[1..])
  }

  lemma {:induction false} RunGood(l: Link, events: seq<Event>)
    requires Good(l.to7) && Good(l.to9) && Polite(l, events)
    ensures Good(Run(l, events).to7) && Good(Run(l, events).to9)
    decreases |events|
  {
    hide Good, PushStep, PopStep;
    if events != [] {
      GoodOk(l);
      match events[0] {
        case Push(Arm9, v) => PushGood(l.to7, v);
        case Push(Arm7, v) => PushGood(l.to9, v);
        case Pop(Arm7) => PopGood(l.to7);
        case Pop(Arm9) => PopGood(l.to9);
      }
      RunGood(Step(l, events[0]), events[1..]);
    }
  }

  lemma GoodOk(l: Link)
    requires Good(l.to7) && Good(l.to9)
    ensures l.to7.ring.Ok() && l.to9.ring.Ok()
  {
  }

  /** The status bits say how far the writer is ahead: bit 0 not at all, bit 1 sixteen words. */
  lemma StatusBits(r: Ring)
    requires r.Lag() <= 16
    ensures FifoState(r) & 1 != 0 <==> r.Lag() == 0
    ensures FifoState(r) & 2 != 0 <==> r.Lag() == 16
    ensures FifoState(r) & 0xFFFF_FFFC == 0
  {
    hide Ring.Lag, Ring.Full, Ring.Empty;
    StateMeansLag(r);
  }

  /** The bits of a count register that is read: 0 and 1 of the own ring, 8 and 9 as last told. */
  lemma CountBits(cnt: bv32, own: Ring, other: Ring)
    requires own.Lag() <= 16 && other.Lag() <= 16
    ensures var read := FifoCnt(cnt, own);
            && (read & 0x1 != 0 <==> own.Lag() == 0) && (read & 0x2 != 0 <==> own.Lag() == 16)
    ensures ReceiveBits(cnt) == FifoState(other) ==>
              var read := FifoCnt(cnt, own);
              && (read & 0x100 != 0 <==> other.Lag() == 0) && (read & 0x200 != 0 <==> other.Lag() == 16)
  {
    hide Ring.Lag, FifoState;
    StatusBits(own);
    StatusBits(other);
    BitsOf(cnt, FifoState(own), FifoState(other));
  }

  lemma BitsOf(cnt: bv32, s: bv32, t: bv32)
    requires s & 0xFFFF_FFFC == 0
    ensures var read := (cnt & 0xFFFF_FFFC) | s;
            && read & 0x1 == s & 0x1 && read & 0x2 == s & 0x2
            && ((cnt >> 8) & 3 == t ==>
                  (read & 0x100 != 0 <==> t & 1 != 0) && (read & 0x200 != 0 <==> t & 2 != 0))
  {
  }

  /** One step, by what was pushed and popped: a push goes to the other CPU's receive register and
      raises its 18; a pop takes the oldest word still on its way, if there is one, and raises 17 at
      the sender if none is left then. */
  lemma StepHistory(l: Link, e: Event)
    requires Good(l.to7) && Good(l.to9) && (e.Push? ==> !SendRing(l, e.from).Full())
    ensures l.to7.ring.Ok() && l.to9.ring.Ok()
    ensures var r := Step(l, e);
            match e
            case Push(from, v) =>
              && r.fires == l.fires + [(if from == Arm9 then Arm7 else Arm9, 18)]
              && r.to7.pushed == (if from == Arm9 then l.to7.pushed + [v] else l.to7.pushed)
              && r.to9.pushed == (if from == Arm7 then l.to9.pushed + [v] else l.to9.pushed)
              && r.to7.popped == l.to7.popped && r.to9.popped == l.to9.popped
            case Pop(at) =>
              && r.to7.pushed == l.to7.pushed && r.to9.pushed == l.to9.pushed
              && (at == Arm7 ==> r.to9 == l.to9 && Popped(l.to7, r.to7)
                                 && r.fires == l.fires + if r.to7.popped == r.to7.pushed then [(Arm9, 17)] else [])
              && (at == Arm9 ==> r.to7 == l.to7 && Popped(l.to9, r.to9)
                                 && r.fires == l.fires + if r.to9.popped == r.to9.pushed then [(Arm7, 17)] else [])
  {
    hide Ring.Lag, Ring.Full, Ring.Write, Ring.Contents, FifoState, Flagged;
    GoodOk(l);
    if e == Pop(Arm7) { PopHistory(l.to7); }
    if e == Pop(Arm9) { PopHistory(l.to9); }
  }

  ghost predicate Popped(d: Direction, r: Direction) {
    && |d.popped| <= |d.pushed|
    && r.popped == if |d.popped| < |d.pushed| then d.popped + [d.pushed[|d.popped|]] else d.popped
  }

  lemma PopHistory(d: Direction)
    requires Good(d)
    ensures Popped(d, PopStep(d)) && (PopStep(d).ring.Empty() <==> PopStep(d).popped == d.pushed)
  {
    hide Ring.Lag, Ring.Full, Ring.Empty, Ring.Read, Ring.Contents, Ring.Top, FifoState, Flagged, ReceiveBits;
    PopGood(d);
    var r := PopStep(d);
    StateMeansLag(d.ring);
    StateMeansLag(r.ring);
    LengthIsLag(d.ring);
    LengthIsLag(r.ring);
    if d.ring.Lag() > 0 { ReadTakes(d.ring); }
  }

  lemma LengthIsLag(r: Ring)
    requires r.Ok()
    ensures |r.Contents()| == r.Lag()
  {
  }

  /** After any run in which pushes find room, in both directions: what was popped is a prefix
      of what was pushed, at most 16 words are on their way and the counters say how many, however
      often they wrapped; each CPU reads in bits 0 and 1 whether none or sixteen of its own words are
      on their way, and in bits 8 and 9 the same of the other's exactly when it was told anything. */
  lemma {:induction false} LinkIsSafe(events: seq<Event>)
    requires Polite(Link(START, START, []), events)
    ensures var l := Run(Link(START, START, []), events);
            && l.to7.popped <= l.to7.pushed && l.to9.popped <= l.to9.pushed
            && |l.to7.pushed| - |l.to7.popped| == l.to7.ring.Lag() <= 16
            && |l.to9.pushed| - |l.to9.popped| == l.to9.ring.Lag() <= 16
            && (l.to7.told <==> ReceiveBits(FifoCnt(l.to7.cnt, l.to9.ring)) == FifoState(l.to7.ring))
            && (l.to9.told <==> ReceiveBits(FifoCnt(l.to9.cnt, l.to7.ring)) == FifoState(l.to9.ring))
            && SendBits(FifoCnt(l.to9.cnt, l.to7.ring)) == FifoState(l.to7.ring)
            && SendBits(FifoCnt(l.to7.cnt, l.to9.ring)) == FifoState(l.to9.ring)
    ensures var l := Run(Link(START, START, []), events);
            var way7, way9 := |l.to7.pushed| - |l.to7.popped|, |l.to9.pushed| - |l.to9.popped|;
            var read7, read9 := FifoCnt(l.to7.cnt, l.to9.ring), FifoCnt(l.to9.cnt, l.to7.ring);
            && (read9 & 0x1 != 0 <==> way7 == 0) && (read9 & 0x2 != 0 <==> way7 == 16)
            && (read7 & 0x1 != 0 <==> way9 == 0) && (read7 & 0x2 != 0 <==> way9 == 16)
            && (l.to7.told ==> (read7 & 0x100 != 0 <==> way7 == 0) && (read7 & 0x200 != 0 <==> way7 == 16))
            && (l.to9.told ==> (read9 & 0x100 != 0 <==> way9 == 0) && (read9 & 0x200 != 0 <==> way9 == 16))
  {
    hide FifoCnt, FifoState, SendBits, ReceiveBits, Run, Polite;
    StartGood();
    RunGood(Link(START, START, []), events);
    var l := Run(Link(START, START, []), events);
    ReadBits(l.to7.cnt, l.to9.ring);
    ReadBits(l.to9.cnt, l.to7.ring);
    CountBits(l.to7.cnt, l.to9.ring, l.to7.ring);
    CountBits(l.to9.cnt, l.to7.ring, l.to9.ring);
  }

  // ----- the objects -----

  class Fifo {
    const queue: array<Word>
    var readpos: Word
    var writepos: Word

    ghost predicate Valid()
      reads this
    {
      queue.Length == SLOTS
    }

    ghost function Value(): Ring
      reads this, queue
    {
      Ring(readpos, writepos, queue[..])
    }

    constructor ()
      ensures Valid() && fresh(queue) && readpos == 0 && writepos == 0
    {
      queue := new Word[16](_ => 0);
      readpos, writepos := 0, 0;
    }

    method Size() returns (n: nat)
      ensures n == Value().Size()
    {
      n := (writepos - readpos) % SPACE % SLOTS;
    }

    method IsEmpty() returns (b: bool)
      ensures b == Value().Empty()
    {
      b := writepos == readpos;
    }

    method IsFull() returns (b: bool)
      ensures b == Value().Full()
    {
      var e := IsEmpty();
      var n := Size();
      b := !e && n == 0;
    }

    method Write(data: Word)
      requires Valid()
      modifies this`writepos, queue
      ensures Valid() && Value() == old(Value()).Write(data)
    {
      queue[writepos % SLOTS] := data;
      writepos := (writepos + 1) % SPACE;
    }

    method Top() returns (data: Word)
      requires Valid()
      ensures data == Value().Top()
    {
      data := queue[readpos % SLOTS];
    }

    method Read() returns (data: Word)
      requires Valid()
      modifies this`readpos
      ensures Valid() && data == old(Value()).Top() && Value() == old(Value()).Read()
    {
      data := queue[readpos % SLOTS];
      readpos := (readpos + 1) % SPACE;
    }

    method Reset()
      modifies this`readpos, this`writepos
      ensures Value().Empty() && queue[..] == old(queue[..])
    {
      readpos, writepos := 0, 0;
    }
  }

  class IoRegs {
    const fifo: Fifo
    var fifocnt: bv32

    ghost predicate Valid()
      reads this, fifo
    {
      fifo.Valid()
    }

    constructor ()
      ensures Valid() && fresh(fifo) && fresh(fifo.queue) && fifocnt == 0 && fifo.Value().Empty()
    {
      fifocnt := 0;
      fifo := new Fifo();
    }

    method GetFifoState() returns (state: bv32)
      ensures state == FifoState(fifo.Value())
    {
      state := 0;
      var e := fifo.IsEmpty();
      var f := fifo.IsFull();
      if e { state := state | 1; }
      if f { state := state | 2; }
    }

    method GetFifoCnt() returns (r: bv32)
      ensures r == FifoCnt(fifocnt, fifo.Value())
    {
      var state := GetFifoState();
      r := (fifocnt & 0xFFFF_FFFC) | state;
    }

    /** A full FIFO is reported and written to all the same. */
    method PushFifo(value: Word)
      requires Valid()
      modifies fifo`writepos, fifo.queue
      ensures Valid() && fifo.Value() == old(fifo.Value()).Write(value)
    {
      fifo.Write(value);
    }

    method PopFifo() returns (ok: bool, value: Word)
      requires Valid()
      modifies fifo`readpos
      ensures Valid() && ok == !old(fifo.Value()).Empty()
      ensures ok ==> value == old(fifo.Value()).Top() && fifo.Value() == old(fifo.Value()).Read()
      ensures !ok ==> fifo.Value() == old(fifo.Value())
    {
      var e := fifo.IsEmpty();
      if e {
        return false, 0;
      }
      value := fifo.Read();
      ok := true;
    }

    method FlagFifo(state: bv32)
      modifies this`fifocnt
      ensures fifocnt == Flagged(old(fifocnt), state)
    {
      fifocnt := (fifocnt & 0xFFFF_FCFF) | (state << 8);
    }

    /** The store to the send register of this CPU; the receiver's 18 is to be fired. */
    method Send(remote: IoRegs, value: Word)
      requires Valid() && remote != this
      modifies fifo`writepos, fifo.queue, remote`fifocnt
      ensures Valid() && fifo.Value() == old(fifo.Value()).Write(value)
      ensures remote.fifocnt == Flagged(old(remote.fifocnt), FifoState(fifo.Value()))
    {
      PushFifo(value);
      var state := GetFifoState();
      remote.FlagFifo(state);
    }

    /** The load from the receive register of this CPU: `fire` says whether 17 is raised at the
        sender. The value of a load from an empty FIFO is not determined. */
    method Receive(remote: IoRegs) returns (ok: bool, value: Word, fire: bool)
      requires remote.Valid() && remote != this
      modifies remote.fifo`readpos, this`fifocnt
      ensures remote.Valid() && ok == !old(remote.fifo.Value()).Empty()
      ensures ok ==> value == old(remote.fifo.Value()).Top() && remote.fifo.Value() == old(remote.fifo.Value()).Read()
      ensures !ok ==> remote.fifo.Value() == old(remote.fifo.Value())
      ensures fifocnt == Flagged(old(fifocnt), FifoState(remote.fifo.Value()))
      ensures fire == remote.fifo.Value().Empty()
    {
      ok, value := remote.PopFifo();
      if !ok {
        value := *;
      }
      var state := remote.GetFifoState();
      FlagFifo(state);
      fire := state & 1 == 1;
      EmptyBit(remote.fifo.Value());
    }
  }

  lemma EmptyBit(r: Ring)
    ensures FifoState(r) & 1 == 1 <==> r.Empty()
  {
  }
}
