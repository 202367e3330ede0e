/** Machine-level scalars of the Rust source: bytes, `f32` values kept as their IEEE-754
    bit patterns (no floating-point arithmetic is modelled), their little-endian byte
    encoding, and the truncating integer casts `as u32` and `as i32`. */
module Scalars {

  type Byte = b: nat | b < 256

  /** `u16`, the element type of index buffers. */
  type U16 = n: nat | n < 0x1_0000

  /** An `f32`, as its 32-bit IEEE-754 pattern. */
  type F32 = b: nat | b < 0x1_0000_0000

  const F32_ZERO: F32 := 0x0000_0000
  const F32_ONE: F32 := 0x3F80_0000
  const F32_FIVE: F32 := 0x40A0_0000
  const F32_MINUS_HALF: F32 := 0xBF00_0000
  const F32_POINT_TWO: F32 := 0x3E4C_CCCD

  /** The in-memory bytes of an `f32` on a little-endian host. */
  function F32Bytes(f: F32): (r: seq<Byte>)
    ensures |r| == 4
  {
    var q1 := f / 256;
    var q2 := q1 / 256;
    [f % 256, q1 % 256, q2 % 256, q2 / 256]
  }

  function BytesF32(b: seq<Byte>): F32
    requires |b| == 4
  {
    var n: nat := b[0] as nat + 256 * (b[1] as nat + 256 * (b[2] as nat + 256 * (b[3] as nat)));
    n
  }

  lemma F32RoundTrip(f: F32)
    ensures BytesF32(F32Bytes(f)) == f
  {
    var q1 := f / 256;
    var q2 := q1 / 256;
    assert f == f % 256 + 256 * q1;
    assert q1 == q1 % 256 + 256 * q2;
    assert q2 == q2 % 256 + 256 * (q2 / 256);
  }

  /** The bytes of a run of `f32` values laid out one after the other. */
  function EncodeF32s(fs: seq<F32>): (r: seq<Byte>)
    ensures |r| == 4 * |fs|
  {
    if fs == [] then [] else F32Bytes(fs[0]) + EncodeF32s(fs[1..])
  }

  function DecodeF32s(bs: seq<Byte>): (r: seq<F32>)
    requires |bs| % 4 == 0
    ensures 4 * |r| == |bs|
  {
    if bs == [] then [] else [BytesF32(bs[..4])] + DecodeF32s(bs[4..])
  }

  lemma {:induction false} F32sRoundTrip(fs: seq<F32>)
    ensures DecodeF32s(EncodeF32s(fs)) == fs
  {
    if fs != [] {
      var bs := EncodeF32s(fs);
      assert bs[..4] == F32Bytes(fs[0]);
      assert bs[4..] == EncodeF32s(fs[1..]);
      F32RoundTrip(fs[0]);
      F32sRoundTrip(fs[1..]);
    }
  }

  /** Byte offsets of the fields of a `#[repr(C)]` struct whose fields all have the same
      alignment and sizes that are multiples of it: each field starts where the previous
      one ends. */
  function ReprCOffsets(fieldSizes: seq<nat>, start: nat): (r: seq<nat>)
    ensures |r| == |fieldSizes|
  {
    if fieldSizes == [] then [] else [start] + ReprCOffsets(fieldSizes[1..], start + fieldSizes[0])
  }

  /** The size of such a struct: the sum of its field sizes. */
  function ReprCSize(fieldSizes: seq<nat>): nat
  {
    if fieldSizes == [] then 0 else fieldSizes[0] + ReprCSize(fieldSizes[1..])
  }

  const U32_MODULUS: nat := 0x1_0000_0000
  const U32_MAX: nat := 0xFFFF_FFFF

  /** `n as u32`: keeps the low 32 bits. */
  function AsU32(n: nat): (r: nat)
    ensures r < U32_MODULUS
    ensures n < U32_MODULUS ==> r == n
  {
    n % U32_MODULUS
  }

  /** `n as i32` for an unsigned `n`: the low 32 bits read as two's complement. */
  function AsI32(n: nat): (r: int)
    ensures -0x8000_0000 <= r < 0x8000_0000
    ensures n < 0x8000_0000 ==> r == n
    ensures (r - n) % U32_MODULUS == 0
  {
    var low := n % U32_MODULUS;
    if low < 0x8000_0000 then low else low - U32_MODULUS
  }
}
