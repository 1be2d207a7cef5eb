/** The bus checksum: seed 0x02, polynomial 0x07 shifted in most significant bit first,
    final xor 0x02. It is not one of the catalogued CRC-8 variants. */
module Crc {
  import opened Bytes
  import CircularBuffer

  const CRC_SEED: byte := 0x02
  const CRC_POLY: byte := 0x07
  const CRC_FINAL_XOR: byte := 0x02

  // ---------------------------------------------------------------------------
  // Reference definition on an 8-bit register.

  /** One shift of the register: shift left, and xor the polynomial in when bit 7 fell out. */
  function BitStep(c: byte): byte
  {
    if c & 0x80 != 0 then (c << 1) ^ CRC_POLY else c << 1
  }

  function BitSteps(c: byte, n: nat): byte
  {
    if n == 0 then c else BitStep(BitSteps(c, n - 1))
  }

  /** The eight shifts that follow xoring one data byte into the register. */
  function ByteStep(c: byte): byte
  {
    BitSteps(c, 8)
  }

  /** The register after the bytes of `s`, first to last. */
  function Register(s: seq<byte>): byte
  {
    if s == [] then CRC_SEED else ByteStep(Register(s[..|s| - 1]) ^ s[|s| - 1])
  }

  /** The checksum of `s`. */
  function Crc8(s: seq<byte>): byte
  {
    Register(s) ^ CRC_FINAL_XOR
  }

  /** Running the register on to the checksum itself always ends in the same residue,
      whatever `s` is. */
  lemma Crc8Residue(s: seq<byte>)
    ensures Register(s + [Crc8(s)]) == ByteStep(CRC_FINAL_XOR)
  {
    assert (s + [Crc8(s)])[..|s + [Crc8(s)]| - 1] == s;
  }

  // ---------------------------------------------------------------------------
  // The source's accumulator is an `unsigned long` (32 bits on the targets) that is never
  // masked: the shifted-out bits pile up above bit 7.

  function WideBitStep(a: bv32): bv32
  {
    if a & 0x80 != 0 then (a << 1) ^ 0x07 else a << 1
  }

  function WideBitSteps(a: bv32, n: nat): bv32
  {
    if n == 0 then a else WideBitStep(WideBitSteps(a, n - 1))
  }

  /** A byte in the accumulator's width. */
  function Widen(b: byte): bv32
  {
    b as bv32
  }

  function WideRegister(s: seq<byte>): bv32
  {
    if s == [] then 0x02 else WideBitSteps(WideRegister(s[..|s| - 1]) ^ Widen(s[|s| - 1]), 8)
  }

  function Low(a: bv32): byte
  {
    (a & 0xFF) as byte
  }

  lemma LowBitStep(a: bv32)
    ensures Low(WideBitStep(a)) == BitStep(Low(a))
  {
  }

  lemma LowXor(a: bv32, b: bv32)
    ensures Low(a ^ b) == Low(a) ^ Low(b)
  {
  }

  lemma LowOfByte(b: byte)
    ensures Low(Widen(b)) == b
  {
  }

  lemma {:induction false} LowBitSteps(a: bv32, n: nat)
    ensures Low(WideBitSteps(a, n)) == BitSteps(Low(a), n)
  {
    if n > 0 {
      LowBitSteps(a, n - 1);
      LowBitStep(WideBitSteps(a, n - 1));
    }
  }

  /** The bits that pile up above bit 7 never reach the low byte: the unmasked accumulator
      returns the same checksum byte as an 8-bit register would. */
  lemma {:induction false} WideRegisterLowByte(s: seq<byte>)
    ensures Low(WideRegister(s)) == Register(s)
    ensures Low(WideRegister(s) ^ 0x02) == Crc8(s)
  {
    if s != [] {
      var a := WideRegister(s[..|s| - 1]) ^ Widen(s[|s| - 1]);
      WideRegisterLowByte(s[..|s| - 1]);
      LowBitSteps(a, 8);
      LowXor(WideRegister(s[..|s| - 1]), Widen(s[|s| - 1]));
      LowOfByte(s[|s| - 1]);
    }
    LowXor(WideRegister(s), 0x02);
    LowOfByte(0x02);
  }

  // ---------------------------------------------------------------------------
  // The bytes `crc8(data, ignore_delimiter)` reads.

  /** `data_length` is a `uint8_t`, so `size - 2` (or `size`) is taken modulo 256; reading
      starts at index 1 when the delimiter is ignored, and each read goes through
      `operator[]`. */
  function Window(s: seq<byte>, ignoreDelimiter: bool): seq<byte>
  {
    var start := if ignoreDelimiter then 1 else 0;
    var len := (if ignoreDelimiter then |s| - 2 else |s|) % 256;
    if len <= start then [] else seq(len - start, i => At(s, start + i))
  }

  /** For an inbound frame the window is everything between the leading delimiter and the
      trailing CRC byte and delimiter. */
  lemma WindowInbound(s: seq<byte>)
    requires 3 <= |s| <= 257
    ensures Window(s, true) == s[1..|s| - 2]
  {
    assert (|s| - 2) % 256 == |s| - 2;
    if |s| > 3 {
      assert Window(s, true) == seq(|s| - 3, i => At(s, 1 + i));
    }
  }

  /** For an outbound telegram the window is the whole staged telegram. */
  lemma WindowOutbound(s: seq<byte>)
    requires |s| < 256
    ensures Window(s, false) == s
  {
    assert |s| % 256 == |s|;
    if |s| > 0 {
      assert Window(s, false) == seq(|s|, i => At(s, i));
    }
  }

  lemma WindowLength(s: seq<byte>, ignoreDelimiter: bool)
    ensures var start := if ignoreDelimiter then 1 else 0;
      var len := (if ignoreDelimiter then |s| - 2 else |s|) % 256;
      |Window(s, ignoreDelimiter)| == if len <= start then 0 else len - start
  {
  }

  lemma WindowAt(s: seq<byte>, ignoreDelimiter: bool, k: nat)
    requires k < |Window(s, ignoreDelimiter)|
    ensures Window(s, ignoreDelimiter)[k] == At(s, k + if ignoreDelimiter then 1 else 0)
  {
  }

  /** The inner loop of `crc8`: eight shifts of the accumulator. */
  method ShiftEight(a: bv32) returns (r: bv32)
    ensures r == WideBitSteps(a, 8)
  {
    r := a;
    var bitIndex := 0;
    while bitIndex < 8
      invariant 0 <= bitIndex <= 8
      invariant r == WideBitSteps(a, bitIndex)
    {
      ghost var next := WideBitStep(r);
      assert next == WideBitSteps(a, bitIndex + 1);
      if r & 0x80 != 0 {
        r := r << 1;
        r := r ^ 0x7;
        assert r == next;
      } else {
        r := r << 1;
        assert r == next;
      }
      bitIndex := bitIndex + 1;
    }
  }

  /** `crc8(data, ignore_delimiter)`: the checksum of the window of `data`, taken from the
      low byte of the accumulator. */
  method Crc8Of(data: CircularBuffer.ByteQueue, ignoreDelimiter: bool) returns (crc: byte)
    ensures crc == Crc8(Window(data.items, ignoreDelimiter))
  {
    var crcValue := Accumulate(data, ignoreDelimiter);
    crc := Low(crcValue ^ 0x02);
    WideRegisterLowByte(Window(data.items, ignoreDelimiter));
  }

  /** The byte loop of `crc8`: xor each byte of the window into the accumulator, then shift
      eight times. */
  method Accumulate(data: CircularBuffer.ByteQueue, ignoreDelimiter: bool) returns (crcValue: bv32)
    ensures crcValue == WideRegister(Window(data.items, ignoreDelimiter))
  {
    ghost var items := data.items;
    ghost var w := Window(items, ignoreDelimiter);
    var size := |data.items|;
    var dataLength := (if ignoreDelimiter then size - 2 else size) % 256;
    var first := if ignoreDelimiter then 1 else 0;
    var byteIndex := first;
    crcValue := 0x02;
    WindowLength(items, ignoreDelimiter);
    assert dataLength <= first || dataLength - first == |w|;
    while byteIndex < dataLength
      invariant first <= byteIndex
      invariant byteIndex - first <= |w|
      invariant crcValue == WideRegister(w[..byteIndex - first])
      decreases dataLength - byteIndex
    {
      var b := data.Get(byteIndex);
      WindowAt(items, ignoreDelimiter, byteIndex - first);
      AccumulateStep(w, byteIndex - first, b);
      crcValue := ShiftEight(crcValue ^ Widen(b));
      byteIndex := byteIndex + 1;
    }
    assert w[..byteIndex - first] == w;
  }

  /** Reading the byte `b` at position `k` of `w` takes the register over `w` one step on. */
  lemma AccumulateStep(w: seq<byte>, k: nat, b: byte)
    requires k < |w| && w[k] == b
    ensures WideRegister(w[..k + 1]) == WideBitSteps(WideRegister(w[..k]) ^ Widen(b), 8)
  {
    assert w[..k + 1] == w[..k] + [b];
    WideRegisterSnoc(w[..k], b);
  }

  lemma WideRegisterSnoc(s: seq<byte>, b: byte)
    ensures WideRegister(s + [b]) == WideBitSteps(WideRegister(s) ^ Widen(b), 8)
  {
    assert (s + [b])[..|s|] == s;
  }

  // ---------------------------------------------------------------------------
  // Error detection.

  /** A shift of the register is injective: the polynomial's constant term is 1, so the
      low bit tells whether bit 7 fell out. */
  lemma BitStepInjective(a: byte, b: byte)
    requires a != b
    ensures BitStep(a) != BitStep(b)
  {
    if a & 0x80 != 0 {
      if b & 0x80 != 0 {
      } else {
      }
    } else {
      if b & 0x80 != 0 {
      } else {
      }
    }
  }

  lemma {:induction false} BitStepsInjective(a: byte, b: byte, n: nat)
    requires a != b
    ensures BitSteps(a, n) != BitSteps(b, n)
  {
    if n > 0 {
      BitStepsInjective(a, b, n - 1);
      BitStepInjective(BitSteps(a, n - 1), BitSteps(b, n - 1));
    }
  }

  lemma ByteStepInjective(a: byte, b: byte)
    requires a != b
    ensures ByteStep(a) != ByteStep(b)
  {
    BitStepsInjective(a, b, 8);
  }

  /** Dropping the last byte of two sequences that differ only at `k < |s| - 1` keeps them
      differing only at `k`, and their last bytes agree. */
  lemma DropLastKeepsDifference(s: seq<byte>, t: seq<byte>, k: nat)
    requires |s| == |t| && k + 1 < |s|
    requires s[..k] == t[..k] && s[k] != t[k] && s[k + 1..] == t[k + 1..]
    ensures var n := |s| - 1;
      s[..n][..k] == t[..n][..k] && s[..n][k] != t[..n][k] && s[..n][k + 1..] == t[..n][k + 1..]
      && s[n] == t[n]
  {
    var n := |s| - 1;
    assert s[..n][..k] == s[..k] && t[..n][..k] == t[..k];
    assert s[..n][k + 1..] == s[k + 1..][..n - k - 1];
    assert t[..n][k + 1..] == t[k + 1..][..n - k - 1];
    assert s[n] == s[k + 1..][n - k - 1] && t[n] == t[k + 1..][n - k - 1];
  }

  /** The register of a non-empty sequence is decided by the byte xored in last. */
  lemma LastByteStepDiffers(s: seq<byte>, t: seq<byte>)
    requires s != [] && t != []
    requires Register(s[..|s| - 1]) ^ s[|s| - 1] != Register(t[..|t| - 1]) ^ t[|t| - 1]
    ensures Register(s) != Register(t)
  {
    ByteStepInjective(Register(s[..|s| - 1]) ^ s[|s| - 1], Register(t[..|t| - 1]) ^ t[|t| - 1]);
  }

  lemma XorDiffers(a: byte, b: byte, x: byte, y: byte)
    requires (a == b && x != y) || (a != b && x == y)
    ensures a ^ x != b ^ y
  {
  }

  /** Two registers that differ stay different after every further data byte. */
  lemma {:induction false} RegisterDifferenceSurvives(s: seq<byte>, t: seq<byte>, k: nat)
    requires |s| == |t| && k < |s|
    requires s[..k] == t[..k] && s[k] != t[k] && s[k + 1..] == t[k + 1..]
    ensures Register(s) != Register(t)
    decreases |s|
  {
    var n := |s| - 1;
    if n == k {
      assert s[..n] == t[..n];
    } else {
      DropLastKeepsDifference(s, t, k);
      RegisterDifferenceSurvives(s[..n], t[..n], k);
    }
    XorDiffers(Register(s[..n]), Register(t[..n]), s[n], t[n]);
    LastByteStepDiffers(s, t);
  }

  /** Changing any one byte of the checksummed range (any non-zero error pattern `e`, so in
      particular any single flipped bit) changes the checksum. */
  lemma ByteErrorDetected(s: seq<byte>, k: nat, e: byte)
    requires k < |s| && e != 0
    ensures Crc8(s[k := s[k] ^ e]) != Crc8(s)
  {
    var t := s[k := s[k] ^ e];
    assert s[..k] == t[..k];
    assert s[k + 1..] == t[k + 1..];
    RegisterDifferenceSurvives(s, t, k);
  }
}
