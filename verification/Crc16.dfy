/**
 The table-driven CRC-16 of the BIOS call, against the bit-by-bit CRC of section 6.2.2 of
 MODBUS over Serial Line V1.02 (reflected polynomial 0xA001).
 */
module Crc16 {

  /** One of eight table entries. */
  function Pick(col: bv16, a: bv16, b: bv16, c: bv16, d: bv16, e: bv16, f: bv16, g: bv16, h: bv16): bv16 {
    if col == 0 then a else if col == 1 then b else if col == 2 then c else if col == 3 then d
    else if col == 4 then e else if col == 5 then f else if col == 6 then g else h
  }

  /** `crc16tab`, row by row. */
  function Tab(i: bv16): bv16
    requires i < 256
  {
    var row, col := i >> 3, i & 7;
    if row == 0 then Pick(col, 0x0000, 0xC0C1, 0xC181, 0x0140, 0xC301, 0x03C0, 0x0280, 0xC241)
    else if row == 1 then Pick(col, 0xC601, 0x06C0, 0x0780, 0xC741, 0x0500, 0xC5C1, 0xC481, 0x0440)
    else if row == 2 then Pick(col, 0xCC01, 0x0CC0, 0x0D80, 0xCD41, 0x0F00, 0xCFC1, 0xCE81, 0x0E40)
    else if row == 3 then Pick(col, 0x0A00, 0xCAC1, 0xCB81, 0x0B40, 0xC901, 0x09C0, 0x0880, 0xC841)
    else if row == 4 then Pick(col, 0xD801, 0x18C0, 0x1980, 0xD941, 0x1B00, 0xDBC1, 0xDA81, 0x1A40)
    else if row == 5 then Pick(col, 0x1E00, 0xDEC1, 0xDF81, 0x1F40, 0xDD01, 0x1DC0, 0x1C80, 0xDC41)
    else if row == 6 then Pick(col, 0x1400, 0xD4C1, 0xD581, 0x1540, 0xD701, 0x17C0, 0x1680, 0xD641)
    else if row == 7 then Pick(col, 0xD201, 0x12C0, 0x1380, 0xD341, 0x1100, 0xD1C1, 0xD081, 0x1040)
    else if row == 8 then Pick(col, 0xF001, 0x30C0, 0x3180, 0xF141, 0x3300, 0xF3C1, 0xF281, 0x3240)
    else if row == 9 then Pick(col, 0x3600, 0xF6C1, 0xF781, 0x3740, 0xF501, 0x35C0, 0x3480, 0xF441)
    else if row == 10 then Pick(col, 0x3C00, 0xFCC1, 0xFD81, 0x3D40, 0xFF01, 0x3FC0, 0x3E80, 0xFE41)
    else if row == 11 then Pick(col, 0xFA01, 0x3AC0, 0x3B80, 0xFB41, 0x3900, 0xF9C1, 0xF881, 0x3840)
    else if row == 12 then Pick(col, 0x2800, 0xE8C1, 0xE981, 0x2940, 0xEB01, 0x2BC0, 0x2A80, 0xEA41)
    else if row == 13 then Pick(col, 0xEE01, 0x2EC0, 0x2F80, 0xEF41, 0x2D00, 0xEDC1, 0xEC81, 0x2C40)
    else if row == 14 then Pick(col, 0xE401, 0x24C0, 0x2580, 0xE541, 0x2700, 0xE7C1, 0xE681, 0x2640)
    else if row == 15 then Pick(col, 0x2200, 0xE2C1, 0xE381, 0x2340, 0xE101, 0x21C0, 0x2080, 0xE041)
    else if row == 16 then Pick(col, 0xA001, 0x60C0, 0x6180, 0xA141, 0x6300, 0xA3C1, 0xA281, 0x6240)
    else if row == 17 then Pick(col, 0x6600, 0xA6C1, 0xA781, 0x6740, 0xA501, 0x65C0, 0x6480, 0xA441)
    else if row == 18 then Pick(col, 0x6C00, 0xACC1, 0xAD81, 0x6D40, 0xAF01, 0x6FC0, 0x6E80, 0xAE41)
    else if row == 19 then Pick(col, 0xAA01, 0x6AC0, 0x6B80, 0xAB41, 0x6900, 0xA9C1, 0xA881, 0x6840)
    else if row == 20 then Pick(col, 0x7800, 0xB8C1, 0xB981, 0x7940, 0xBB01, 0x7BC0, 0x7A80, 0xBA41)
    else if row == 21 then Pick(col, 0xBE01, 0x7EC0, 0x7F80, 0xBF41, 0x7D00, 0xBDC1, 0xBC81, 0x7C40)
    else if row == 22 then Pick(col, 0xB401, 0x74C0, 0x7580, 0xB541, 0x7700, 0xB7C1, 0xB681, 0x7640)
    else if row == 23 then Pick(col, 0x7200, 0xB2C1, 0xB381, 0x7340, 0xB101, 0x71C0, 0x7080, 0xB041)
    else if row == 24 then Pick(col, 0x5000, 0x90C1, 0x9181, 0x5140, 0x9301, 0x53C0, 0x5280, 0x9241)
    else if row == 25 then Pick(col, 0x9601, 0x56C0, 0x5780, 0x9741, 0x5500, 0x95C1, 0x9481, 0x5440)
    else if row == 26 then Pick(col, 0x9C01, 0x5CC0, 0x5D80, 0x9D41, 0x5F00, 0x9FC1, 0x9E81, 0x5E40)
    else if row == 27 then Pick(col, 0x5A00, 0x9AC1, 0x9B81, 0x5B40, 0x9901, 0x59C0, 0x5880, 0x9841)
    else if row == 28 then Pick(col, 0x8801, 0x48C0, 0x4980, 0x8941, 0x4B00, 0x8BC1, 0x8A81, 0x4A40)
    else if row == 29 then Pick(col, 0x4E00, 0x8EC1, 0x8F81, 0x4F40, 0x8D01, 0x4DC0, 0x4C80, 0x8C41)
    else if row == 30 then Pick(col, 0x4400, 0x84C1, 0x8581, 0x4540, 0x8701, 0x47C0, 0x4680, 0x8641)
    else Pick(col, 0x8201, 0x42C0, 0x4380, 0x8341, 0x4100, 0x81C1, 0x8081, 0x4040)
  }

  /** A byte enters the lower half of the register. */
  function Mix(v: bv16, b: bv8): bv16 { v ^ (b as bv16) }

  function Xor(x: bv16, y: bv16): bv16 { x ^ y }

  function Shifted(v: bv16): bv16 { v >> 8 }

  function LowByte(v: bv16): (r: bv16)
    ensures r < 256
  {
    v & 0xFF
  }

  /** One turn of the table loop. */
  function TableStep(v: bv16, b: bv8): bv16 {
    Xor(Shifted(v), Tab(LowByte(Mix(v, b))))
  }

  // ----- the bit-by-bit CRC -----

  /** Shift right by one; when a one leaves, take the polynomial away. */
  function BitStep(v: bv16): bv16 { if v & 1 == 1 then (v >> 1) ^ 0xA001 else v >> 1 }

  function BitSteps(v: bv16, n: nat): bv16
    decreases n
  {
    if n == 0 then v else BitSteps(BitStep(v), n - 1)
  }

  /** One message byte. */
  function Feed(v: bv16, b: bv8): bv16 { BitSteps(Mix(v, b), 8) }

  /** The CRC register after a message, started at `v`. */
  function Crc(v: bv16, msg: seq<bv8>): bv16
    decreases |msg|
  {
    if msg == [] then v else Crc(Feed(v, msg[0]), msg[1..])
  }

  /** Eight steps, as one expression. */
  function Eight(v: bv16): bv16 {
    BitStep(BitStep(BitStep(BitStep(BitStep(BitStep(BitStep(BitStep(v))))))))
  }

  lemma {:induction false} EightSteps(v: bv16)
    ensures BitSteps(v, 8) == Eight(v)
  {
    hide BitStep;
    var v4 := BitStep(BitStep(BitStep(BitStep(v))));
    assert BitSteps(v, 8) == BitSteps(BitStep(v), 7) == BitSteps(BitStep(BitStep(v)), 6);
    assert BitSteps(BitStep(BitStep(v)), 6) == BitSteps(BitStep(BitStep(BitStep(v))), 5) == BitSteps(v4, 4);
    assert BitSteps(v4, 4) == BitSteps(BitStep(v4), 3) == BitSteps(BitStep(BitStep(v4)), 2);
    assert BitSteps(BitStep(BitStep(v4)), 2) == BitSteps(BitStep(BitStep(BitStep(v4))), 1) == Eight(v);
  }

  // ----- the table is right -----

  /** Every entry is eight bit steps of its index. */
  lemma TableEntry(i: bv16)
    requires i < 256
    ensures Tab(i) == Eight(i)
  {
    hide Tab, Eight;
    if i < 64 { Quarter0(i); } else if i < 128 { Quarter1(i); } else if i < 192 { Quarter2(i); } else { Quarter3(i); }
  }

  lemma Quarter0(i: bv16)
    requires i < 64
    ensures Tab(i) == Eight(i)
  {
  }

  lemma Quarter1(i: bv16)
    requires 64 <= i < 128
    ensures Tab(i) == Eight(i)
  {
  }

  lemma Quarter2(i: bv16)
    requires 128 <= i < 192
    ensures Tab(i) == Eight(i)
  {
  }

  lemma Quarter3(i: bv16)
    requires 192 <= i < 256
    ensures Tab(i) == Eight(i)
  {
  }

  /** The upper byte only moves down while the lower one is consumed. */
  lemma HighByteMoves(x: bv16)
    ensures Eight(x) == Xor(Shifted(x), Eight(LowByte(x)))
  {
  }

  lemma StepIsFeed(v: bv16, b: bv8)
    ensures TableStep(v, b) == Feed(v, b)
  {
    hide Tab, Eight, BitSteps, Mix, Shifted, LowByte, Xor;
    var x := Mix(v, b);
    EightSteps(x);
    TableEntry(LowByte(x));
    HighByteMoves(x);
    SameHigh(v, b);
  }

  lemma SameHigh(v: bv16, b: bv8)
    ensures Shifted(Mix(v, b)) == Shifted(v)
  {
  }

  /** `util::get_crc16` */
  method GetCrc16(crc: bv16, mem: seq<bv8>) returns (v: bv16)
    ensures v == Crc(crc, mem)
  {
    v := crc;
    var i := 0;
    while i != |mem|
      invariant 0 <= i <= |mem|
      invariant Crc(v, mem[i..]) == Crc(crc, mem)
    {
      assert mem[i..][1..] == mem[i + 1..];
      StepIsFeed(v, mem[i]);
      v := TableStep(v, mem[i]);
      i := i + 1;
    }
  }

  // ----- what the CRC is for -----

  lemma {:induction false} CrcAppend(v: bv16, a: seq<bv8>, b: seq<bv8>)
    ensures Crc(v, a + b) == Crc(Crc(v, a), b)
    decreases |a|
  {
    if a == [] {
      assert a + b == b;
    } else {
      assert (a + b)[1..] == a[1..] + b;
      CrcAppend(Feed(v, a[0]), a[1..], b);
    }
  }

  function Low(v: bv16): bv8 { LowByte(v) as bv8 }

  function High(v: bv16): bv8 { Shifted(v) as bv8 }

  /** A message followed by its CRC, low byte first, has CRC zero, whatever the seed. */
  lemma {:induction false} CrcOfSealed(seed: bv16, msg: seq<bv8>)
    ensures var v := Crc(seed, msg); Crc(seed, msg + [Low(v), High(v)]) == 0
  {
    hide Feed, Low, High;
    var v := Crc(seed, msg);
    CrcAppend(seed, msg, [Low(v), High(v)]);
    CrcPair(v, Low(v), High(v));
    LowOut(v);
    HighOut(v);
  }

  lemma {:induction false} CrcPair(v: bv16, a: bv8, b: bv8)
    ensures Crc(v, [a, b]) == Feed(Feed(v, a), b)
  {
    hide Feed;
    assert [a, b][1..] == [b];
    assert Crc(Feed(v, a), [b]) == Crc(Feed(Feed(v, a), b), []);
  }

  lemma LowOut(v: bv16)
    ensures Feed(v, Low(v)) == Shifted(v)
  {
    hide BitSteps;
    EightSteps(Mix(v, Low(v)));
    assert Eight(Mix(v, Low(v))) == Shifted(v);
  }

  lemma HighOut(v: bv16)
    ensures Feed(Shifted(v), High(v)) == 0
  {
    hide BitSteps;
    assert Mix(Shifted(v), High(v)) == 0;
    EightSteps(0);
    assert Eight(0) == 0;
  }

  /** The polynomial has its top bit set, so a step can be undone. */
  lemma BitStepInjective(v: bv16, w: bv16)
    requires BitStep(v) == BitStep(w)
    ensures v == w
  {
  }

  lemma {:induction false} BitStepsInjective(v: bv16, w: bv16, n: nat)
    requires BitSteps(v, n) == BitSteps(w, n)
    ensures v == w
    decreases n
  {
    hide BitStep;
    if n > 0 {
      BitStepsInjective(BitStep(v), BitStep(w), n - 1);
      BitStepInjective(v, w);
    }
  }

  lemma MixInjective(v: bv16, w: bv16, b: bv8)
    requires Mix(v, b) == Mix(w, b)
    ensures v == w
  {
  }

  lemma FeedInjective(v: bv16, w: bv16, b: bv8)
    requires Feed(v, b) == Feed(w, b)
    ensures v == w
  {
    hide BitSteps, Mix;
    BitStepsInjective(Mix(v, b), Mix(w, b), 8);
    MixInjective(v, w, b);
  }

  /** The same message never brings two registers together. */
  lemma {:induction false} CrcInjective(v: bv16, w: bv16, msg: seq<bv8>)
    requires Crc(v, msg) == Crc(w, msg)
    ensures v == w
    decreases |msg|
  {
    hide Feed;
    if msg != [] {
      CrcInjective(Feed(v, msg[0]), Feed(w, msg[0]), msg[1..]);
      FeedInjective(v, w, msg[0]);
    }
  }

  function Upper(b: bv8): bv16 { (b as bv16) << 8 }

  lemma BothOdd(x: bv16, y: bv16)
    requires x & 1 == 1 && y & 1 == 1
    ensures BitStep(Xor(x, y)) == Xor(BitStep(x), BitStep(y))
  {
    assert (x ^ y) & 1 == (x & 1) ^ (y & 1);
    assert (x ^ y) >> 1 == (x >> 1) ^ (y >> 1);
  }

  lemma FirstOdd(x: bv16, y: bv16)
    requires x & 1 == 1 && y & 1 != 1
    ensures BitStep(Xor(x, y)) == Xor(BitStep(x), BitStep(y))
  {
    assert (x ^ y) & 1 == (x & 1) ^ (y & 1);
    assert (x ^ y) >> 1 == (x >> 1) ^ (y >> 1);
  }

  lemma SecondOdd(x: bv16, y: bv16)
    requires x & 1 != 1 && y & 1 == 1
    ensures BitStep(Xor(x, y)) == Xor(BitStep(x), BitStep(y))
  {
    assert (x ^ y) & 1 == (x & 1) ^ (y & 1);
    assert (x ^ y) >> 1 == (x >> 1) ^ (y >> 1);
  }

  lemma BothEven(x: bv16, y: bv16)
    requires x & 1 != 1 && y & 1 != 1
    ensures BitStep(Xor(x, y)) == Xor(BitStep(x), BitStep(y))
  {
    assert (x ^ y) & 1 == (x & 1) ^ (y & 1);
    assert (x ^ y) >> 1 == (x >> 1) ^ (y >> 1);
  }

  lemma BitStepLinear(x: bv16, y: bv16)
    ensures BitStep(Xor(x, y)) == Xor(BitStep(x), BitStep(y))
  {
    hide BitStep, Xor;
    if x & 1 == 1 {
      if y & 1 == 1 { BothOdd(x, y); } else { FirstOdd(x, y); }
    } else {
      if y & 1 == 1 { SecondOdd(x, y); } else { BothEven(x, y); }
    }
  }

  lemma {:induction false} BitStepsLinear(x: bv16, y: bv16, n: nat)
    ensures BitSteps(Xor(x, y), n) == Xor(BitSteps(x, n), BitSteps(y, n))
    decreases n
  {
    hide BitStep, Xor;
    if n > 0 {
      BitStepLinear(x, y);
      BitStepsLinear(BitStep(x), BitStep(y), n - 1);
    }
  }

  lemma UpperComesDown(x: bv16, b: bv8)
    ensures Xor(x, BitSteps(Upper(b), 8)) == Mix(x, b)
  {
    hide BitSteps;
    EightSteps(Upper(b));
    assert Eight(Upper(b)) == b as bv16;
  }

  /** The second byte can be put in before the first eight steps. */
  lemma {:induction false} SecondByteEarly(x: bv16, b: bv8)
    ensures Mix(BitSteps(x, 8), b) == BitSteps(Xor(x, Upper(b)), 8)
  {
    hide BitSteps, Mix, Xor, Upper;
    BitStepsLinear(x, Upper(b), 8);
    UpperComesDown(BitSteps(x, 8), b);
  }

  lemma WindowInjective(v: bv16, a: bv8, b: bv8, c: bv8, d: bv8)
    requires Xor(Mix(v, a), Upper(b)) == Xor(Mix(v, c), Upper(d))
    ensures a == c && b == d
  {
  }

  lemma {:induction false} PairInjective(v: bv16, a: bv8, b: bv8, c: bv8, d: bv8)
    requires Crc(v, [a, b]) == Crc(v, [c, d])
    ensures a == c && b == d
  {
    hide BitSteps, Xor, Upper, Mix, Crc;
    CrcPair(v, a, b);
    CrcPair(v, c, d);
    SecondByteEarly(Mix(v, a), b);
    SecondByteEarly(Mix(v, c), d);
    var x, y := Xor(Mix(v, a), Upper(b)), Xor(Mix(v, c), Upper(d));
    BitStepsInjective(BitSteps(x, 8), BitSteps(y, 8), 8);
    BitStepsInjective(x, y, 8);
    WindowInjective(v, a, b, c, d);
  }

  lemma MixTellsBytes(v: bv16, a: bv8, c: bv8)
    requires Mix(v, a) == Mix(v, c)
    ensures a == c
  {
  }

  lemma {:induction false} ByteInjective(v: bv16, a: bv8, c: bv8)
    requires Crc(v, [a]) == Crc(v, [c])
    ensures a == c
  {
    hide BitSteps, Mix;
    assert Crc(Feed(v, a), []) == Crc(Feed(v, c), []);
    BitStepsInjective(Mix(v, a), Mix(v, c), 8);
    MixTellsBytes(v, a, c);
  }

  /** Messages that differ only inside a window of at most two bytes have different CRCs. */
  lemma {:induction false} NoCollision(seed: bv16, pre: seq<bv8>, w: seq<bv8>, w': seq<bv8>, post: seq<bv8>)
    requires |w| == |w'| <= 2 && w != w'
    ensures Crc(seed, pre + w + post) != Crc(seed, pre + w' + post)
  {
    hide Crc;
    if Crc(seed, pre + w + post) == Crc(seed, pre + w' + post) {
      CrcAppend(seed, pre + w, post);
      CrcAppend(seed, pre + w', post);
      CrcAppend(seed, pre, w);
      CrcAppend(seed, pre, w');
      var v := Crc(seed, pre);
      CrcInjective(Crc(v, w), Crc(v, w'), post);
      if |w| == 2 {
        assert w == [w[0], w[1]] && w' == [w'[0], w'[1]];
        PairInjective(v, w[0], w[1], w'[0], w'[1]);
      } else if |w| == 1 {
        assert w == [w[0]] && w' == [w'[0]];
        ByteInjective(v, w[0], w'[0]);
      }
      assert false;
    }
  }
}
