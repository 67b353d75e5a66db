/**
 The LZ77 decoder of the BIOS: a ring of 4096 bytes, flag bits packed eight to a byte, copies
 that may overlap what they write. The ring is shown to be a plain history of the output, and
 decoding to undo an encoder.
 */
module Lz77 {
  import opened Types

  const N := 4096
  const F := 18
  const THRESHOLD := 2

  // ----- decoding on a plain history -----

  /** The decoder between two flag bits: input position, flag byte shifted so far, number of
      the last flag bit used, and everything written, after a window of `N` initial bytes. */
  datatype Decoder = Decoder(pos: nat, flags: nat, z: nat, hist: seq<Byte>)

  /** `n` bytes copied one by one from `dist` bytes back; they may read what they wrote. */
  function CopyBytes(h: seq<Byte>, dist: nat, n: nat): (r: seq<Byte>)
    requires 1 <= dist <= N <= |h|
    ensures |r| == |h| + n
    decreases n
  {
    if n == 0 then h else CopyBytes(h + [h[|h| - dist]], dist, n - 1)
  }

  /** Distance and length of the copy encoded in the two bytes at `pos`. */
  function Distance(input: nat -> Byte, pos: nat): (d: nat)
    ensures 1 <= d <= N
  {
    (input(pos + 1) as nat) + (input(pos) as nat) % 16 * 256 + 1
  }

  function Length(input: nat -> Byte, pos: nat): (n: nat)
    ensures THRESHOLD < n <= F
  {
    (input(pos) as nat) / 16 + THRESHOLD + 1
  }

  lemma Fields(input: nat -> Byte, pos: nat)
    ensures Distance(input, pos) == (input(pos + 1) as nat) + (input(pos) as nat) % 16 * 256 + 1
    ensures Length(input, pos) == (input(pos) as nat) / 16 + THRESHOLD + 1
  {
  }

  /** One turn of the main loop: fetch a flag bit, then a literal or a copy. */
  function Turn(input: nat -> Byte, d: Decoder): (r: Decoder)
    requires d.z <= 7 && |d.hist| >= N
    ensures r.z <= 7 && |d.hist| < |r.hist| <= |d.hist| + F
  {
    var reload := d.z + 1 == 8;
    var flags := if reload then input(d.pos) else d.flags * 2;
    var z := if reload then 0 else d.z + 1;
    var pos := if reload then d.pos + 1 else d.pos;
    if (flags / 128) % 2 == 0 then
      Decoder(pos + 1, flags, z, d.hist + [input(pos)])
    else
      Decoder(pos + 2, flags, z, CopyBytes(d.hist, Distance(input, pos), Length(input, pos)))
  }

  function Loop(input: nat -> Byte, d: Decoder, size: nat): (r: Decoder)
    requires d.z <= 7 && |d.hist| >= N
    ensures r.z <= 7 && |r.hist| >= N
    decreases N + size - |d.hist|
  {
    if |d.hist| - N >= size then d else Loop(input, Turn(input, d), size)
  }

  /** The loop stops at the declared size or up to 17 bytes beyond it. */
  lemma {:induction false} Overshoot(input: nat -> Byte, d: Decoder, size: nat)
    requires d.z <= 7 && |d.hist| >= N && |d.hist| - N < size + F
    ensures size <= |Loop(input, d, size).hist| - N < size + F
    decreases N + size - |d.hist|
  {
    if |d.hist| - N < size {
      Overshoot(input, Turn(input, d), size);
    }
  }

  function DeclaredSize(input: nat -> Byte): nat {
    input(1) + input(2) * 256 + input(3) * 65536
  }

  function Start(window: seq<Byte>): Decoder { Decoder(4, 7, 7, window) }

  /** Everything written for a given input, from a given initial window. */
  function Decoded(input: nat -> Byte, window: seq<Byte>): seq<Byte>
    requires |window| == N
  {
    Loop(input, Start(window), DeclaredSize(input)).hist[N..]
  }

  lemma DecodedSize(input: nat -> Byte, window: seq<Byte>)
    requires |window| == N
    ensures var n, size := |Decoded(input, window)|, DeclaredSize(input);
            size <= n && (if size == 0 then n == 0 else n <= size + 17)
  {
    var size := DeclaredSize(input);
    if size > 0 { Overshoot(input, Start(window), size); }
  }

  // ----- the ring -----

  /** How many bytes back of position `r` ring cell `k` was written. */
  function Age(r: nat, k: nat): (d: nat)
    requires r < N && k < N
    ensures 1 <= d <= N && k == (r - d) % N
  {
    if k < r then r - k else r - k + N
  }

  /** Position `r` of the ring is overwritten next: cell `k` holds the byte of that age, so
      the byte `d` back is in cell `(r - d) % N`, for every `d` up to `N`. */
  ghost predicate IsRing(buf: seq<Byte>, r: nat, hist: seq<Byte>) {
    && |buf| == N + F - 1 && r < N && |hist| >= N
    && forall k :: 0 <= k < N ==> buf[k] == hist[|hist| - Age(r, k)]
  }

  lemma RingBack(buf: seq<Byte>, r: nat, hist: seq<Byte>, d: nat)
    requires IsRing(buf, r, hist) && 1 <= d <= N
    ensures buf[(r - d) % N] == hist[|hist| - d]
  {
    var k := (r - d) % N;
    assert k == if d <= r then r - d else r - d + N;
    assert Age(r, k) == d;
  }

  lemma RingPut(buf: seq<Byte>, r: nat, hist: seq<Byte>, c: Byte)
    requires IsRing(buf, r, hist)
    ensures IsRing(buf[r := c], (r + 1) % N, hist + [c])
  {
    var r' := (r + 1) % N;
    forall k | 0 <= k < N ensures buf[r := c][k] == (hist + [c])[|hist| + 1 - Age(r', k)] {
      if k != r { assert Age(r', k) == Age(r, k) + 1; }
    }
  }

  class Lz77Decoder {
    const textBuf: array<Byte>
    var src: nat
    var out: seq<Byte>

    constructor ()
      ensures textBuf.Length == N + F - 1 && fresh(textBuf)
      ensures out == []
    {
      textBuf := new Byte[N + F - 1](_ => 0);
      src, out := 0, [];
    }

    ghost predicate Ring(r: nat, hist: seq<Byte>)
      reads textBuf
    {
      IsRing(textBuf[..], r, hist)
    }

    method Get8(input: nat -> Byte) returns (c: Byte)
      modifies this`src
      ensures c == input(old(src)) && src == old(src) + 1
    {
      c := input(src);
      src := src + 1;
    }

    /** Writes a byte to the output and into the ring. */
    method Put(c: Byte, r: nat, ghost hist: seq<Byte>) returns (r': nat)
      requires Ring(r, hist)
      modifies this`out, textBuf
      ensures out == old(out) + [c] && Ring(r', hist + [c])
    {
      RingPut(textBuf[..], r, hist, c);
      out := out + [c];
      textBuf[r] := c;
      r' := (r + 1) % N;
    }

    method CopyRun(dist: nat, n: nat, r: nat, ghost hist: seq<Byte>) returns (r': nat)
      requires Ring(r, hist) && 1 <= dist <= N
      modifies this`out, textBuf
      ensures Ring(r', CopyBytes(hist, dist, n))
      ensures out == old(out) + CopyBytes(hist, dist, n)[|hist|..]
    {
      r' := r;
      ghost var h := hist;
      var k := 0;
      while k < n
        invariant 0 <= k <= n && Ring(r', h) && |h| == |hist| + k
        invariant CopyBytes(h, dist, n - k) == CopyBytes(hist, dist, n)
        invariant hist <= h && out == old(out) + h[|hist|..]
      {
        RingBack(textBuf[..], r', h, dist);
        var c := textBuf[(r' - dist) % N];
        r' := Put(c, r', h);
        h := h + [c];
        k := k + 1;
      }
    }

    /** The four header bytes: a type byte and the size, low byte first. */
    method ReadHeader(input: nat -> Byte) returns (size: nat)
      modifies this`src
      ensures size == DeclaredSize(input) && src == 4
    {
      src := 0;
      var c0 := Get8(input);
      var c1 := Get8(input);
      var c2 := Get8(input);
      var c3 := Get8(input);
      size := (c1 as nat) + (c2 as nat) * 256 + (c3 as nat) * 65536;
    }

    /** All but the last `F` cells of the ring are set to 0xFF. */
    method InitRing()
      requires textBuf.Length == N + F - 1
      modifies textBuf
      ensures Ring(N - F, old(InitialWindow()))
    {
      ghost var window := InitialWindow();
      var i := 0;
      while i < N - F
        invariant 0 <= i <= N - F
        invariant forall k :: 0 <= k < i ==> textBuf[k] == 0xFF
        invariant forall k :: N - F <= k < N ==> textBuf[k] == old(textBuf[k])
      {
        textBuf[i] := 0xFF;
        i := i + 1;
      }
      RingStart(textBuf[..], window);
    }

    /** A literal or a copy, as the flag bit says; `n` bytes are written. */
    method PutToken(input: nat -> Byte, copy: bool, r: nat, ghost hist: seq<Byte>)
      returns (r': nat, n: nat, ghost h: seq<Byte>)
      requires Ring(r, hist) && |hist| >= N
      modifies this`src, this`out, textBuf
      ensures src == old(src) + (if copy then 2 else 1)
      ensures h == if copy then CopyBytes(hist, Distance(input, old(src)), Length(input, old(src)))
                   else hist + [input(old(src))]
      ensures Ring(r', h) && n == |h| - |hist|
      ensures hist <= h && out == old(out) + h[|hist|..]
    {
      hide IsRing, Distance, Length;
      if !copy {
        var c := Get8(input);
        r' := Put(c, r, hist);
        n, h := 1, hist + [c];
      } else {
        var i := Get8(input);
        var j := Get8(input);
        var dist: nat := (j as nat) + (i as nat) % 16 * 256 + 1;
        n := (i as nat) / 16 + THRESHOLD + 1;
        Fields(input, old(src));
        CopyExtends(hist, dist, n);
        r' := CopyRun(dist, n, r, hist);
        h := CopyBytes(hist, dist, n);
      }
    }

    /** The whole decoder: the output is the decoding on a plain history, whatever the ring
        held before. */
    method Decode(input: nat -> Byte)
      requires textBuf.Length == N + F - 1
      modifies this, textBuf
      ensures out == Decoded(input, old(InitialWindow()))
    {
      hide IsRing, Distance, Length, CopyBytes;
      out := [];
      var size := ReadHeader(input);
      ghost var window := InitialWindow();
      InitRing();
      var r: nat, flags: nat, z: nat := N - F, 7, 7;
      var curSize := 0;
      ghost var d := Start(window);
      assert d.hist[N..] == [];
      while curSize < size
        invariant Ring(r, d.hist) && d.pos == src && d.flags == flags && d.z == z && z <= 7
        invariant |d.hist| >= N && out == d.hist[N..] && curSize == |out|
        invariant Loop(input, d, size) == Loop(input, Start(window), size)
        decreases size as int - curSize as int
      {
        ghost var next := Turn(input, d);
        flags := flags * 2;
        z := z + 1;
        if z == 8 {
          flags := Get8(input);
          z := 0;
        }
        ghost var h;
        var n;
        r, n, h := PutToken(input, (flags / 128) % 2 != 0, r, d.hist);
        assert h == next.hist && h[N..] == d.hist[N..] + h[|d.hist|..];
        curSize := curSize + n;
        d := next;
      }
    }

    /** The window before anything is written: the ring read from where the output starts. */
    ghost function InitialWindow(): (w: seq<Byte>)
      requires textBuf.Length == N + F - 1
      reads textBuf
      ensures |w| == N
    {
      textBuf[N - F..N] + seq(N - F, _ => 0xFF)
    }
  }

  lemma RingStart(buf: seq<Byte>, window: seq<Byte>)
    requires |buf| == N + F - 1 && |window| == N
    requires forall k :: 0 <= k < N - F ==> buf[k] == window[F + k]
    requires forall k :: N - F <= k < N ==> buf[k] == window[k - (N - F)]
    ensures IsRing(buf, N - F, window)
  {
  }

  lemma {:induction false} CopyExtends(h: seq<Byte>, dist: nat, n: nat)
    requires 1 <= dist <= N <= |h|
    ensures h <= CopyBytes(h, dist, n)
    decreases n
  {
    if n > 0 { CopyExtends(h + [h[|h| - dist]], dist, n - 1); }
  }

  // ----- an encoder, and the round trip -----

  datatype Token = Lit(c: Byte) | Copy(dist: nat, len: nat)

  function TokenLen(t: Token): nat { if t.Lit? then 1 else t.len }

  /** Copies of 3 to 18 bytes from at most 4096 bytes back, never from before the output. */
  predicate WellFormed(ts: seq<Token>, produced: nat)
    decreases |ts|
  {
    |ts| == 0 ||
    ((ts[0].Copy? ==> 1 <= ts[0].dist <= N && ts[0].dist <= produced && 3 <= ts[0].len <= F)
     && WellFormed(ts[1..], produced + TokenLen(ts[0])))
  }

  /** `n` bytes copied one by one from `dist` bytes back in an output of any length. */
  function CopyOut(o: seq<Byte>, dist: nat, n: nat): (r: seq<Byte>)
    requires 1 <= dist <= |o|
    ensures |r| == |o| + n
    decreases n
  {
    if n == 0 then o else CopyOut(o + [o[|o| - dist]], dist, n - 1)
  }

  /** What a token list stands for. */
  function Expand(ts: seq<Token>, o: seq<Byte>): seq<Byte>
    requires WellFormed(ts, |o|)
    decreases |ts|
  {
    if |ts| == 0 then o
    else Expand(ts[1..], if ts[0].Lit? then o + [ts[0].c] else CopyOut(o, ts[0].dist, ts[0].len))
  }

  function Payload(t: Token): seq<Byte>
    requires t.Copy? ==> 1 <= t.dist <= N && 3 <= t.len <= F
  {
    match t
    case Lit(c) => [c]
    case Copy(dist, len) => [(len - 3) * 16 + (dist - 1) / 256, (dist - 1) % 256]
  }

  function Power(n: nat): nat
    requires n <= 8
  {
    match n
    case 0 => 1 case 1 => 2 case 2 => 4 case 3 => 8 case 4 => 16
    case 5 => 32 case 6 => 64 case 7 => 128 case 8 => 256
  }

  /** The flag bits of the first `n` tokens, first token in the highest bit. */
  function FlagBits(ts: seq<Token>, n: nat): (b: nat)
    requires n <= 8
    ensures b < Power(n)
    decreases n
  {
    if n == 0 then 0
    else if |ts| == 0 then 0
    else (if ts[0].Copy? then Power(n - 1) else 0) + FlagBits(ts[1..], n - 1)
  }

  /** The serialised form, when `n` flag bits of the current group are still unused. */
  function Encode(ts: seq<Token>, n: nat, produced: nat): seq<Byte>
    requires n <= 8 && WellFormed(ts, produced)
    decreases |ts|, if n == 0 then 1 else 0
  {
    if |ts| == 0 then []
    else if n == 0 then [FlagBits(ts, 8)] + Encode(ts, 8, produced)
    else Payload(ts[0]) + Encode(ts[1..], n - 1, produced + TokenLen(ts[0]))
  }

  /** The declared size is reached by the last token and not before. */
  predicate Fits(ts: seq<Token>, produced: nat, size: nat)
    decreases |ts|
  {
    if |ts| == 0 then produced >= size
    else produced < size && Fits(ts[1..], produced + TokenLen(ts[0]), size)
  }

  predicate StartsWith(input: nat -> Byte, pos: nat, s: seq<Byte>) {
    forall k :: 0 <= k < |s| ==> input(pos + k) == s[k]
  }

  lemma StartsWithConcat(input: nat -> Byte, pos: nat, a: seq<Byte>, b: seq<Byte>)
    requires StartsWith(input, pos, a + b)
    ensures StartsWith(input, pos, a) && StartsWith(input, pos + |a|, b)
  {
    forall k | 0 <= k < |a| ensures input(pos + k) == a[k] { assert (a + b)[k] == a[k]; }
    forall k | 0 <= k < |b| ensures input(pos + |a| + k) == b[k] {
      assert (a + b)[|a| + k] == b[k];
      assert pos + |a| + k == pos + (|a| + k);
    }
  }

  /** A copy inside the output does not see the window in front of it. */
  lemma {:induction false} CopyInside(w: seq<Byte>, o: seq<Byte>, dist: nat, n: nat)
    requires |w| == N && 1 <= dist <= N && dist <= |o|
    ensures CopyBytes(w + o, dist, n) == w + CopyOut(o, dist, n)
    decreases n
  {
    if n > 0 {
      var c := o[|o| - dist];
      assert (w + o)[|w + o| - dist] == c;
      assert w + o + [c] == w + (o + [c]);
      CopyInside(w, o + [c], dist, n - 1);
    }
  }

  /** The decoder has `n` unused flag bits, and they are those of the tokens to come. */
  ghost predicate Pending(d: Decoder, ts: seq<Token>, n: nat) {
    && n <= 7 && d.z == 7 - n
    && (n > 0 ==> (d.flags * 2) % 256 == FlagBits(ts, n) * Power(8 - n))
  }

  /** Fetching the flag bit of the first pending token. */
  lemma FlagFetched(flags: nat, ts: seq<Token>, n: nat)
    requires 1 <= n <= 8 && |ts| > 0 && flags % 256 == FlagBits(ts, n) * Power(8 - n)
    ensures ((flags / 128) % 2 != 0) <==> ts[0].Copy?
    ensures n > 1 ==> (flags * 2) % 256 == FlagBits(ts[1..], n - 1) * Power(9 - n)
  {
    var x := FlagBits(ts[1..], n - 1);
    TopBit(flags, if ts[0].Copy? then 1 else 0, x, n);
  }

  lemma HighBit(flags: nat, bit: nat, y: nat)
    requires bit <= 1 && y < 128 && flags % 256 == bit * 128 + y
    ensures ((flags / 128) % 2 != 0) <==> bit == 1
    ensures (flags * 2) % 256 == y * 2
  {
    assert flags == (flags / 256) * 256 + bit * 128 + y;
    assert flags / 128 == (flags / 256) * 2 + bit;
  }

  /** The bits below the first, moved up to just under bit 7. */
  lemma LowBits(bit: nat, x: nat, n: nat)
    requires 1 <= n <= 8 && bit <= 1 && x < Power(n - 1)
    ensures (bit * Power(n - 1) + x) * Power(8 - n) == bit * 128 + x * Power(8 - n)
    ensures x * Power(8 - n) < 128
    ensures n > 1 ==> x * Power(9 - n) == x * Power(8 - n) * 2
  {
    match n
    case 1 => case 2 => case 3 => case 4 => case 5 => case 6 => case 7 => case 8 =>
  }

  lemma TopBit(flags: nat, bit: nat, x: nat, n: nat)
    requires 1 <= n <= 8 && bit <= 1 && x < Power(n - 1)
    requires flags % 256 == (bit * Power(n - 1) + x) * Power(8 - n)
    ensures ((flags / 128) % 2 != 0) <==> bit == 1
    ensures n > 1 ==> (flags * 2) % 256 == x * Power(9 - n)
  {
    hide Power;
    LowBits(bit, x, n);
    HighBit(flags, bit, x * Power(8 - n));
  }

  /** Decoding a payload. */
  lemma PayloadDecodes(input: nat -> Byte, pos: nat, t: Token)
    requires t.Copy? && 1 <= t.dist <= N && 3 <= t.len <= F
    requires StartsWith(input, pos, Payload(t))
    ensures Distance(input, pos) == t.dist && Length(input, pos) == t.len
  {
    var p := Payload(t);
    assert input(pos + 0) == p[0] && input(pos + 1) == p[1];
  }

  /** One turn decodes one token, reading the flag byte first when the group is used up. */
  lemma TurnDecodes(input: nat -> Byte, w: seq<Byte>, o: seq<Byte>, d: Decoder, ts: seq<Token>, n: nat)
    requires |w| == N && d.hist == w + o && |ts| > 0 && WellFormed(ts, |o|) && Pending(d, ts, n)
    requires StartsWith(input, d.pos, Encode(ts, n, |o|))
    ensures var m := if n == 0 then 7 else n - 1;
            var o' := if ts[0].Lit? then o + [ts[0].c] else CopyOut(o, ts[0].dist, ts[0].len);
            var d' := Turn(input, d);
            && d'.hist == w + o' && |o'| == |o| + TokenLen(ts[0])
            && Pending(d', ts[1..], m)
            && StartsWith(input, d'.pos, Encode(ts[1..], m, |o'|))
  {
    hide Distance, Length, CopyBytes, CopyOut;
    var k := if n == 0 then 8 else n;
    var flags := if n == 0 then input(d.pos) else d.flags * 2;
    var pos := if n == 0 then d.pos + 1 else d.pos;
    if n == 0 {
      FlagByteRead(input, d.pos, ts, |o|);
    }
    FlagFetched(flags, ts, k);
    var rest := Encode(ts[1..], k - 1, |o| + TokenLen(ts[0]));
    assert Encode(ts, k, |o|) == Payload(ts[0]) + rest;
    StartsWithConcat(input, pos, Payload(ts[0]), rest);
    if ts[0].Copy? {
      PayloadDecodes(input, pos, ts[0]);
      CopyInside(w, o, ts[0].dist, ts[0].len);
    } else {
      assert input(pos + 0) == Payload(ts[0])[0];
      assert w + o + [ts[0].c] == w + (o + [ts[0].c]);
    }
  }

  lemma {:induction false} FlagByteRead(input: nat -> Byte, pos: nat, ts: seq<Token>, produced: nat)
    requires |ts| > 0 && WellFormed(ts, produced) && StartsWith(input, pos, Encode(ts, 0, produced))
    ensures input(pos) == FlagBits(ts, 8)
    ensures StartsWith(input, pos + 1, Encode(ts, 8, produced))
  {
    StartsWithConcat(input, pos, [FlagBits(ts, 8)], Encode(ts, 8, produced));
    assert input(pos + 0) == [FlagBits(ts, 8)][0];
  }

  lemma {:induction false} LoopDecodes(input: nat -> Byte, w: seq<Byte>, o: seq<Byte>, d: Decoder,
                                       ts: seq<Token>, n: nat, size: nat)
    requires |w| == N && d.hist == w + o && WellFormed(ts, |o|) && Pending(d, ts, n)
    requires StartsWith(input, d.pos, Encode(ts, n, |o|)) && Fits(ts, |o|, size)
    ensures Loop(input, d, size).hist == w + Expand(ts, o)
    decreases |ts|
  {
    hide Turn, Encode, Pending, CopyOut, StartsWith;
    PendingBounds(d, ts, n);
    if |ts| > 0 {
      TurnDecodes(input, w, o, d, ts, n);
      var o' := if ts[0].Lit? then o + [ts[0].c] else CopyOut(o, ts[0].dist, ts[0].len);
      LoopDecodes(input, w, o', Turn(input, d), ts[1..], if n == 0 then 7 else n - 1, size);
    }
  }

  lemma PendingBounds(d: Decoder, ts: seq<Token>, n: nat)
    requires Pending(d, ts, n)
    ensures n <= 7 && d.z <= 7
  {
  }

  /** Decoding undoes encoding: for every well-formed token list, every declared size that its
      last token reaches and every content of the ring beforehand. */
  lemma {:induction false} RoundTrip(input: nat -> Byte, window: seq<Byte>, ts: seq<Token>)
    requires |window| == N && WellFormed(ts, 0)
    requires StartsWith(input, 4, Encode(ts, 0, 0)) && Fits(ts, 0, DeclaredSize(input))
    ensures Decoded(input, window) == Expand(ts, [])
  {
    hide Encode, Loop, Fits;
    assert window + [] == window;
    LoopDecodes(input, window, [], Start(window), ts, 0, DeclaredSize(input));
  }
}
