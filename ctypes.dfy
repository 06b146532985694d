/**
  C-level vocabulary shared by the model of ctest.h: fixed-width integers,
  NUL-terminated strings as byte sequences, and the two libc string
  comparisons the framework relies on (strcmp for suite lookup, strncmp for
  the command-line suite filter).
 */
module CTypes {

  newtype byte = x: int | 0 <= x < 0x100
  newtype int32 = x: int | -0x8000_0000 <= x < 0x8000_0000
  newtype int64 = x: int | -0x8000_0000_0000_0000 <= x < 0x8000_0000_0000_0000
  newtype uint64 = x: int | 0 <= x < 0x1_0000_0000_0000_0000

  /** A function pointer (setup, teardown or test body), identified by its address. */
  type FuncPtr = nat
  /** A non-NULL `void*` to a test's fixture data, identified by its address. */
  type DataPtr = nat

  datatype Option<+T> = None | Some(value: T)

  /** The characters of a C string: everything before its terminating NUL. */
  predicate NoNul(s: seq<byte>) {
    forall i :: 0 <= i < |s| ==> s[i] != 0
  }

  type CString = s: seq<byte> | NoNul(s)

  /** The byte at index `i` of the string laid out in memory with its NUL terminator. */
  function At(s: seq<byte>, i: nat): byte {
    if i < |s| then s[i] else 0
  }

  /**
    strncmp(a, b, n): compares at most `n` bytes as unsigned char, stopping
    after the first NUL; the result is the sign of the first difference.
   */
  function Strncmp(a: seq<byte>, b: seq<byte>, n: nat): (r: int)
    ensures -1 <= r <= 1
    ensures n == 0 ==> r == 0
    decreases n
  {
    if n == 0 then 0
    else if At(a, 0) != At(b, 0) then (if At(a, 0) < At(b, 0) then -1 else 1)
    else if At(a, 0) == 0 then 0
    else Strncmp(a[1..], b[1..], n - 1)
  }

  /** strcmp(a, b): the comparison runs at the latest up to `a`'s terminator. */
  function Strcmp(a: seq<byte>, b: seq<byte>): (r: int)
    ensures -1 <= r <= 1
  {
    Strncmp(a, b, |a| + 1)
  }

  /** strncmp(p, s, strlen(p)) == 0 holds exactly when `p` is a prefix of `s`. */
  lemma {:induction false} StrncmpPrefix(p: CString, s: CString)
    ensures Strncmp(p, s, |p|) == 0 <==> p <= s
    decreases |p|
  {
    if p != [] {
      assert At(p, 0) == p[0] != 0;
      if s != [] && s[0] == p[0] {
        var p', s' := p[1..], s[1..];
        assert NoNul(p') && NoNul(s');
        StrncmpPrefix(p', s');
        assert p <= s <==> p' <= s' by {
          assert p == [p[0]] + p' && s == [s[0]] + s';
        }
      } else {
        assert !(p <= s);
      }
    }
  }

  /** strcmp(a, b) == 0 holds exactly when the two strings are equal. */
  lemma {:induction false} StrcmpZero(a: CString, b: CString)
    ensures Strcmp(a, b) == 0 <==> a == b
    decreases |a|
  {
    if a == [] {
      if b != [] {
        assert At(b, 0) == b[0] != 0;
      }
    } else {
      assert At(a, 0) == a[0] != 0;
      if b != [] && b[0] == a[0] {
        var a', b' := a[1..], b[1..];
        assert NoNul(a') && NoNul(b');
        StrcmpZero(a', b');
        assert Strcmp(a, b) == Strcmp(a', b');
        assert a == b <==> a' == b' by {
          assert a == [a[0]] + a' && b == [b[0]] + b';
        }
      }
    }
  }
}
