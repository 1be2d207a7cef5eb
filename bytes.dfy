/** Machine integers of the source and the byte helpers every other module uses. */
module Bytes {

  /** A byte on the wire (`uint8_t`). Bit-vectors give the source's masks, shifts and xor. */
  type byte = bv8

  /** Unsigned machine widths of the source's fields and bit-fields, as bounded naturals. */
  type u1 = x: nat | x < 2
  type u2 = x: nat | x < 4
  type u5 = x: nat | x < 32
  type u6 = x: nat | x < 64
  type u8 = x: nat | x < 0x100
  type u16 = x: nat | x < 0x1_0000
  type u32 = x: nat | x < 0x1_0000_0000

  datatype Option<T> = None | Some(value: T)

  /** A count below 256 survives conversion to a byte and back. */
  lemma ByteOfNat(n: nat)
    requires n < 0x100
    ensures (n as byte) as int == n
  {
    assert n % 0x100 == n;
  }

  /** A small natural as the byte that holds it. */
  function AsByte(n: u8): byte
  {
    n as byte
  }

  /** Indexed read of a byte queue: element `i` when it exists and 0 (the value `T()`) otherwise. */
  function At(s: seq<byte>, i: int): (r: byte)
    ensures 0 <= i < |s| ==> r == s[i]
    ensures !(0 <= i < |s|) ==> r == 0
  {
    if 0 <= i < |s| then s[i] else 0
  }

  /** `bitRead(value, bit)`, that is `(value >> bit) & 1`. */
  function BitRead(v: byte, b: nat): (r: u1)
    requires b < 8
    ensures r == 1 <==> v & ((1 as bv8) << b) != 0
  {
    if (v >> b) & 1 == 1 then 1 else 0
  }

  /** `uint32_t` subtraction, which wraps around modulo 2^32. */
  function Sub32(a: u32, b: u32): (r: u32)
    ensures a >= b ==> r == a - b
    ensures a < b ==> r == a - b + 0x1_0000_0000
  {
    (a - b) % 0x1_0000_0000
  }

  /** `uint16_t` addition, which wraps around modulo 2^16. */
  function Add16(a: u16, b: nat): (r: u16)
    ensures (r - a - b) % 0x1_0000 == 0
  {
    (a + b) % 0x1_0000
  }

  /** Storing a `uint8_t` into a 5-bit unsigned bit-field keeps its low 5 bits. */
  function Low5(v: byte): (r: u5)
    ensures v as nat < 32 ==> r == v as nat
    ensures (v as nat - r) % 32 == 0
  {
    (v & 0x1F) as nat
  }

  /** Storing a `uint8_t` into a 6-bit unsigned bit-field keeps its low 6 bits. */
  function Low6(v: byte): (r: u6)
    ensures v as nat < 64 ==> r == v as nat
    ensures (v as nat - r) % 64 == 0
  {
    (v & 0x3F) as nat
  }
}
