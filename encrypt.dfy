/** The byte obfuscation of encrypt/encrypt.go.  Each byte is rotated left by
    three bits, bit-reversed and XORed with a key; decryption undoes the three
    steps in the opposite order.  The file fixes the key at XOR_KEY; the
    proxy's callers use the same transform with a per-session key, so the key
    is a parameter here and XOR_KEY is one instance of it. */
module Encrypt {
  import opened Wire

  /** XOR_KEY = 0b10110010 */
  const XOR_KEY: uint8 := 178

  /** bits.Reverse8: bit i of the result is bit 7 - i of b. */
  function Reverse8(b: bv8): bv8
  {
    ((b & 1) << 7) | ((b & 2) << 5) | ((b & 4) << 3) | ((b & 8) << 1)
    | ((b >> 1) & 8) | ((b >> 3) & 4) | ((b >> 5) & 2) | ((b >> 7) & 1)
  }

  predicate Bit(b: bv8, i: nat)
    requires i < 8
  {
    (b >> i) & 1 == 1
  }

  /** Reverse8 mirrors the bit positions. */
  lemma Reverse8Mirrors(b: bv8, i: nat)
    requires i < 8
    ensures Bit(Reverse8(b), i) == Bit(b, 7 - i)
  {
    if i == 0 {
    } else if i == 1 {
    } else if i == 2 {
    } else if i == 3 {
    } else if i == 4 {
    } else if i == 5 {
    } else if i == 6 {
    } else {
    }
  }

  /** Reversing twice restores the byte. */
  lemma Reverse8Involution(b: bv8)
    ensures Reverse8(Reverse8(b)) == b
  {
  }

  /** bits.RotateLeft8(b, -3) undoes bits.RotateLeft8(b, 3). */
  lemma RotateInverse(b: bv8)
    ensures b.RotateLeft(3).RotateRight(3) == b && b.RotateRight(3).RotateLeft(3) == b
  {
  }

  function EncryptBits(b: bv8, key: bv8): bv8
  {
    Reverse8(b.RotateLeft(3)) ^ key
  }

  function DecryptBits(b: bv8, key: bv8): bv8
  {
    Reverse8(b ^ key).RotateRight(3)
  }

  lemma DecryptEncryptBits(b: bv8, key: bv8)
    ensures DecryptBits(EncryptBits(b, key), key) == b
  {
    Reverse8Involution(b.RotateLeft(3));
    RotateInverse(b);
  }

  lemma EncryptDecryptBits(b: bv8, key: bv8)
    ensures EncryptBits(DecryptBits(b, key), key) == b
  {
    Reverse8Involution(b ^ key);
    RotateInverse(Reverse8(b ^ key));
  }

  /** One loop step of Encrypt: rotate left 3, reverse, XOR the key. */
  function EncryptByte(b: uint8, key: uint8): uint8
  {
    EncryptBits(b as bv8, key as bv8) as uint8
  }

  /** One loop step of Decrypt: XOR the key, reverse, rotate right 3. */
  function DecryptByte(b: uint8, key: uint8): uint8
  {
    DecryptBits(b as bv8, key as bv8) as uint8
  }

  lemma BitsOfByte(x: bv8)
    ensures (x as int) as bv8 == x
  {
  }

  lemma ByteOfBits(b: uint8)
    ensures (b as bv8) as int == b
  {
    assert b % 0x100 == b;
  }

  /** Decrypting an encrypted byte with the same key gives the byte back. */
  lemma DecryptEncryptByte(b: uint8, key: uint8)
    ensures DecryptByte(EncryptByte(b, key), key) == b
  {
    var x, k := b as bv8, key as bv8;
    var e := EncryptBits(x, k);
    BitsOfByte(e);
    DecryptEncryptBits(x, k);
    ByteOfBits(b);
    calc {
      DecryptByte(EncryptByte(b, key), key);
      DecryptBits((e as int) as bv8, k) as int;
      DecryptBits(e, k) as int;
      x as int;
    }
  }

  /** Encrypting a decrypted byte with the same key gives the byte back. */
  lemma EncryptDecryptByte(b: uint8, key: uint8)
    ensures EncryptByte(DecryptByte(b, key), key) == b
  {
    var x, k := b as bv8, key as bv8;
    var d := DecryptBits(x, k);
    BitsOfByte(d);
    EncryptDecryptBits(x, k);
    ByteOfBits(b);
    calc {
      EncryptByte(DecryptByte(b, key), key);
      EncryptBits((d as int) as bv8, k) as int;
      EncryptBits(d, k) as int;
      x as int;
    }
  }

  /** For a fixed key the byte map is a bijection on 0..255. */
  lemma EncryptByteBijective(key: uint8)
    ensures forall a: uint8, b: uint8 :: EncryptByte(a, key) == EncryptByte(b, key) ==> a == b
    ensures forall c: uint8 :: EncryptByte(DecryptByte(c, key), key) == c
  {
    forall a: uint8, b: uint8 | EncryptByte(a, key) == EncryptByte(b, key) ensures a == b {
      DecryptEncryptByte(a, key);
      DecryptEncryptByte(b, key);
    }
    forall c: uint8 ensures EncryptByte(DecryptByte(c, key), key) == c {
      EncryptDecryptByte(c, key);
    }
  }

  // ---------------------------------------------------------------------------
  // Whole buffers
  // ---------------------------------------------------------------------------

  /** What Encrypt leaves in a buffer that held s. */
  function Encrypted(s: Bytes, key: uint8): (r: Bytes)
    ensures |r| == |s|
    decreases |s|
  {
    if s == [] then [] else [EncryptByte(s[0], key)] + Encrypted(s[1..], key)
  }

  /** What Decrypt leaves in a buffer that held s. */
  function Decrypted(s: Bytes, key: uint8): (r: Bytes)
    ensures |r| == |s|
    decreases |s|
  {
    if s == [] then [] else [DecryptByte(s[0], key)] + Decrypted(s[1..], key)
  }

  /** Output byte i depends on input byte i alone. */
  lemma {:induction false} EncryptedAt(s: Bytes, key: uint8, i: nat)
    requires i < |s|
    ensures Encrypted(s, key)[i] == EncryptByte(s[i], key)
    decreases |s|
  {
    if i > 0 {
      EncryptedAt(s[1..], key, i - 1);
    }
  }

  lemma {:induction false} DecryptedAt(s: Bytes, key: uint8, i: nat)
    requires i < |s|
    ensures Decrypted(s, key)[i] == DecryptByte(s[i], key)
    decreases |s|
  {
    if i > 0 {
      DecryptedAt(s[1..], key, i - 1);
    }
  }

  /** Transforming a buffer equals transforming the two parts of any split and concatenating. */
  lemma {:induction false} EncryptedAppend(a: Bytes, b: Bytes, key: uint8)
    ensures Encrypted(a + b, key) == Encrypted(a, key) + Encrypted(b, key)
    decreases |a|
  {
    if a != [] {
      EncryptedAppend(a[1..], b, key);
      assert (a + b)[1..] == a[1..] + b;
    } else {
      assert a + b == b;
    }
  }

  lemma {:induction false} DecryptedAppend(a: Bytes, b: Bytes, key: uint8)
    ensures Decrypted(a + b, key) == Decrypted(a, key) + Decrypted(b, key)
    decreases |a|
  {
    if a != [] {
      DecryptedAppend(a[1..], b, key);
      assert (a + b)[1..] == a[1..] + b;
    } else {
      assert a + b == b;
    }
  }

  /** Decrypt after Encrypt with the same key restores every buffer. */
  lemma {:induction false} DecryptedEncrypted(s: Bytes, key: uint8)
    ensures Decrypted(Encrypted(s, key), key) == s
    decreases |s|
  {
    if s != [] {
      DecryptedEncrypted(s[1..], key);
      DecryptEncryptByte(s[0], key);
    }
  }

  /** Encrypt after Decrypt with the same key restores every buffer. */
  lemma {:induction false} EncryptedDecrypted(s: Bytes, key: uint8)
    ensures Encrypted(Decrypted(s, key), key) == s
    decreases |s|
  {
    if s != [] {
      EncryptedDecrypted(s[1..], key);
      EncryptDecryptByte(s[0], key);
    }
  }

  /** Two buffers that encrypt alike under one key are equal. */
  lemma EncryptedInjective(s: Bytes, t: Bytes, key: uint8)
    requires Encrypted(s, key) == Encrypted(t, key)
    ensures s == t
  {
    DecryptedEncrypted(s, key);
    DecryptedEncrypted(t, key);
  }

  lemma XorKeyed(r: bv8, k1: bv8, k2: bv8)
    requires k1 != k2
    ensures r ^ k1 != r ^ k2
  {
    assert (r ^ k1) ^ (r ^ k2) == k1 ^ k2;
  }

  /** Under two different keys every byte encrypts to two different bytes. */
  lemma EncryptByteKeyed(b: uint8, k1: uint8, k2: uint8)
    requires k1 != k2
    ensures EncryptByte(b, k1) != EncryptByte(b, k2)
  {
    var x, c1, c2 := b as bv8, k1 as bv8, k2 as bv8;
    assert c1 != c2 by {
      ByteOfBits(k1);
      ByteOfBits(k2);
    }
    var e1, e2 := EncryptBits(x, c1), EncryptBits(x, c2);
    assert e1 != e2 by {
      XorKeyed(Reverse8(x.RotateLeft(3)), c1, c2);
    }
    BitsOfByte(e1);
    BitsOfByte(e2);
  }

  /** A non-empty buffer encrypts differently under two different keys. */
  lemma EncryptedKeyed(s: Bytes, k1: uint8, k2: uint8)
    requires s != [] && k1 != k2
    ensures Encrypted(s, k1) != Encrypted(s, k2)
  {
    EncryptedAt(s, k1, 0);
    EncryptedAt(s, k2, 0);
    EncryptByteKeyed(s[0], k1, k2);
  }

  /** Undoing a transform with a key other than the one applied never
      restores a non-empty buffer, in either order. */
  lemma WrongKeyGarbles(s: Bytes, k1: uint8, k2: uint8)
    requires s != [] && k1 != k2
    ensures Decrypted(Encrypted(s, k1), k2) != s
    ensures Encrypted(Decrypted(s, k2), k1) != s
  {
    if Decrypted(Encrypted(s, k1), k2) == s {
      EncryptedDecrypted(Encrypted(s, k1), k2);
      EncryptedKeyed(s, k1, k2);
    }
    var d := Decrypted(s, k2);
    if Encrypted(d, k1) == s {
      EncryptedDecrypted(s, k2);
      EncryptedKeyed(d, k1, k2);
    }
  }

  // ---------------------------------------------------------------------------
  // The in-place loops.  A Go slice buff[:n] is the array and its length n.
  // ---------------------------------------------------------------------------

  /** Encrypt(data[:n]) with the given key: only indices 0..n-1 change. */
  method Encrypt(data: array<uint8>, n: nat, key: uint8)
    requires n <= data.Length
    modifies data
    ensures data[..n] == Encrypted(old(data[..n]), key)
    ensures data[n..] == old(data[n..])
  {
    ghost var s := data[..n];
    for i := 0 to n
      invariant forall j :: 0 <= j < i ==> data[j] == EncryptByte(s[j], key)
      invariant forall j :: i <= j < data.Length ==> data[j] == old(data[j])
    {
      data[i] := EncryptByte(data[i], key);
    }
    forall j | 0 <= j < n
      ensures data[..n][j] == Encrypted(s, key)[j]
    {
      EncryptedAt(s, key, j);
    }
  }

  /** Decrypt(data[:n]) with the given key: only indices 0..n-1 change. */
  method Decrypt(data: array<uint8>, n: nat, key: uint8)
    requires n <= data.Length
    modifies data
    ensures data[..n] == Decrypted(old(data[..n]), key)
    ensures data[n..] == old(data[n..])
  {
    ghost var s := data[..n];
    for i := 0 to n
      invariant forall j :: 0 <= j < i ==> data[j] == DecryptByte(s[j], key)
      invariant forall j :: i <= j < data.Length ==> data[j] == old(data[j])
    {
      data[i] := DecryptByte(data[i], key);
    }
    forall j | 0 <= j < n
      ensures data[..n][j] == Decrypted(s, key)[j]
    {
      DecryptedAt(s, key, j);
    }
  }
}
