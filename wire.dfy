/** Fixed-width integers, byte strings and the big-endian layout that Go's
    encoding/binary writes for the fixed-size structs of the protocol package. */
module Wire {

  type uint8 = x: int | 0 <= x < 0x100
  type uint16 = x: int | 0 <= x < 0x1_0000
  type uint32 = x: int | 0 <= x < 0x1_0000_0000

  type Bytes = seq<uint8>

  datatype Option<+T> = None | Some(value: T)

  datatype Result<+T, +E> = Ok(value: T) | Err(error: E)

  datatype Outcome<+E> = Pass | Fail(error: E)

  function Min(a: int, b: int): int { if a <= b then a else b }

  /** make([]byte, n) */
  function Zeros(n: nat): (r: Bytes)
    ensures |r| == n && forall i :: 0 <= i < n ==> r[i] == 0
  {
    seq(n, _ => 0)
  }

  // ---------------------------------------------------------------------------
  // Big-endian integers (binary.BigEndian.PutUint16/Uint16/PutUint32/Uint32)
  // ---------------------------------------------------------------------------

  function BigEndian16(x: uint16): (r: Bytes)
    ensures |r| == 2
  {
    [x / 0x100, x % 0x100]
  }

  function Uint16(b: Bytes): uint16
    requires |b| == 2
  {
    b[0] as int * 0x100 + b[1]
  }

  function BigEndian32(x: uint32): (r: Bytes)
    ensures |r| == 4
  {
    [x / 0x100_0000, x / 0x1_0000 % 0x100, x / 0x100 % 0x100, x % 0x100]
  }

  function Uint32(b: Bytes): uint32
    requires |b| == 4
  {
    ((b[0] as int * 0x100 + b[1]) * 0x100 + b[2]) * 0x100 + b[3]
  }

  /** Decoding a 16-bit big-endian encoding gives the number back. */
  lemma Uint16OfBigEndian16(x: uint16)
    ensures Uint16(BigEndian16(x)) == x
  {
  }

  /** Every two bytes are the big-endian encoding of the number they decode to. */
  lemma BigEndian16OfUint16(b: Bytes)
    requires |b| == 2
    ensures BigEndian16(Uint16(b)) == b
  {
  }

  /** Decoding a 32-bit big-endian encoding gives the number back. */
  lemma Uint32OfBigEndian32(x: uint32)
    ensures Uint32(BigEndian32(x)) == x
  {
    var h := x / 0x100;
    var g := h / 0x100;
    assert x == h * 0x100 + x % 0x100;
    assert h == g * 0x100 + h % 0x100;
    assert g == (g / 0x100) * 0x100 + g % 0x100;
    assert x / 0x1_0000 == g;
    assert x / 0x100_0000 == g / 0x100;
  }

  /** Every four bytes are the big-endian encoding of the number they decode to. */
  lemma BigEndian32OfUint32(b: Bytes)
    requires |b| == 4
    ensures BigEndian32(Uint32(b)) == b
  {
    var hi: int := b[0] as int * 0x100 + b[1];
    var mid: int := hi * 0x100 + b[2];
    assert Uint32(b) == mid * 0x100 + b[3];
    assert Uint32(b) / 0x100 == mid && Uint32(b) % 0x100 == b[3];
    assert mid / 0x100 == hi && mid % 0x100 == b[2];
    assert hi / 0x100 == b[0] && hi % 0x100 == b[1];
    assert Uint32(b) / 0x1_0000 == hi;
    assert Uint32(b) / 0x100_0000 == b[0];
  }

  /** The low byte of a 32-bit number is the last byte of its big-endian encoding. */
  lemma LowByteIsLast(b: Bytes)
    requires |b| == 4
    ensures Uint32(b) % 0x100 == b[3]
  {
  }

  // ---------------------------------------------------------------------------
  // Go strings are byte sequences; here a string holds one char per byte.
  // ---------------------------------------------------------------------------

  predicate IsByteString(s: string)
  {
    forall i :: 0 <= i < |s| ==> s[i] as int < 0x100
  }

  /** string(b) */
  function StringOf(b: Bytes): (s: string)
    ensures |s| == |b| && IsByteString(s)
  {
    seq(|b|, i requires 0 <= i < |b| => b[i] as char)
  }

  /** []byte(s) */
  function BytesOf(s: string): (b: Bytes)
    requires IsByteString(s)
    ensures |b| == |s|
  {
    seq(|s|, i requires 0 <= i < |s| => s[i] as int)
  }

  lemma BytesOfStringOf(b: Bytes)
    ensures BytesOf(StringOf(b)) == b
  {
  }

  lemma StringOfBytesOf(s: string)
    requires IsByteString(s)
    ensures StringOf(BytesOf(s)) == s
  {
  }
}
