/**
  The 32-bit FNV-1a hash that keys the suite index, written as ctest.h writes
  it: recursively from the last byte down, over bytes s[0..size] inclusive.
  `unsigned int` arithmetic is spelled out: results are reduced mod 2^32.
 */
module Fnv {
  import opened CTypes

  const Two32 := 0x1_0000_0000
  newtype uint32 = x: int | 0 <= x < 0x1_0000_0000

  const OffsetBasis: uint32 := 2166136261
  const Prime: uint32 := 16777619

  /** Bitwise exclusive or of two naturals. */
  function Xor(a: nat, b: nat): nat
    decreases a + b
  {
    if a == 0 then b
    else if b == 0 then a
    else 2 * Xor(a / 2, b / 2) + (if a % 2 == b % 2 then 0 else 1)
  }

  /** Bit k of n. */
  function Bit(n: nat, k: nat): bool {
    if k == 0 then n % 2 == 1 else Bit(n / 2, k - 1)
  }

  lemma {:induction false} ZeroBit(k: nat)
    ensures !Bit(0, k)
  {
    if k > 0 {
      ZeroBit(k - 1);
    }
  }

  /** Xor sets exactly the bits where its operands differ. */
  lemma {:induction false} XorBit(a: nat, b: nat, k: nat)
    ensures Bit(Xor(a, b), k) == (Bit(a, k) != Bit(b, k))
    decreases a + b
  {
    if a == 0 || b == 0 {
      ZeroBit(k);
    } else if k > 0 {
      XorBit(a / 2, b / 2, k - 1);
      var x := Xor(a / 2, b / 2);
      assert Xor(a, b) / 2 == x;
    }
  }

  /**
    `(unsigned int)((const char*)s)[i]`: on the usual ABIs `char` is signed,
    so a byte of 0x80 or more sign-extends before the conversion to unsigned.
   */
  function CharBits(b: byte): (r: uint32)
    ensures r as int % 256 == b as int
    ensures r as int / 256 == if b < 0x80 then 0 else 0xFF_FFFF
  {
    if b < 0x80 then b as uint32 else (b as int + 0xFFFF_FF00) as uint32
  }

  /** One FNV-1a round: xor the byte in, then multiply by the prime, mod 2^32. */
  function Mix(h: uint32, b: byte): uint32 {
    ((Xor(h as nat, CharBits(b) as nat) * Prime as int) % Two32) as uint32
  }

  /** ctest_impl_fnv1a32(s, size): hashes s[0], ..., s[size]. */
  function Fnv1a32(s: seq<byte>, size: nat): uint32
    requires size < |s|
  {
    Mix(if size == 0 then OffsetBasis else Fnv1a32(s, size - 1), s[size])
  }

  /** The usual iterative statement of FNV-1a: fold the rounds left to right. */
  function Fold(h: uint32, bytes: seq<byte>): uint32
    decreases |bytes|
  {
    if bytes == [] then h else Fold(Mix(h, bytes[0]), bytes[1..])
  }

  lemma {:induction false} FoldSnoc(h: uint32, bytes: seq<byte>, b: byte)
    ensures Fold(h, bytes + [b]) == Mix(Fold(h, bytes), b)
    decreases |bytes|
  {
    if bytes != [] {
      assert (bytes + [b])[1..] == bytes[1..] + [b];
      FoldSnoc(Mix(h, bytes[0]), bytes[1..], b);
    }
  }

  /** The recursive hash is the left fold over the size + 1 bytes it covers. */
  lemma {:induction false} Fnv1a32IsFold(s: seq<byte>, size: nat)
    requires size < |s|
    ensures Fnv1a32(s, size) == Fold(OffsetBasis, s[..size + 1])
  {
    var prev := if size == 0 then OffsetBasis else Fnv1a32(s, size - 1);
    assert Fnv1a32(s, size) == Mix(prev, s[size]);
    assert s[..size + 1] == s[..size] + [s[size]];
    FoldSnoc(OffsetBasis, s[..size], s[size]);
    if size == 0 {
      assert s[..size] == [];
    } else {
      Fnv1a32IsFold(s, size - 1);
    }
  }

  /**
    ctest_impl_hash_suite(sname) = ctest_impl_fnv1a32(sname, strlen(sname)):
    because the range is inclusive, the terminating NUL is hashed too.
   */
  function HashSuite(name: CString): (h: uint32)
    ensures h == Fold(OffsetBasis, name + [0])
  {
    var bytes := name + [0];
    Fnv1a32IsFold(bytes, |name|);
    assert bytes[..|name| + 1] == bytes;
    Fnv1a32(bytes, |name|)
  }
}
