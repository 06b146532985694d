/**
  The decision rules of ctest's non-floating-point assertion functions.
  Each assert_* either returns, or raises CTEST_ERR with a message that
  reports the offending values; here the raise is a `Fail` value carrying
  those values, and the longjmp it triggers is the driver's `Raised`
  outcome.
 */
module Assertions {
  import opened CTypes

  /** The values an assertion's CTEST_ERR message reports. */
  datatype Reason =
    | Expected(exp: int, actual: int)                        // "expected %d, got %d"
    | ShouldNotBe(actual: int)                               // "should not be %d"
    | OutsideInterval(lo: int, hi: int, actual: int)         // "expected %d-%d, got %d"
    | StrMismatch(expStr: Option<CString>, actualStr: Option<CString>)
    | SizeMismatch(expSize: nat, actualSize: nat)            // "expected %u bytes, got %u"
    | ByteMismatch(expByte: byte, offset: nat, actualByte: byte)
    | ShouldBeNull
    | ShouldNotBeNull
    | ShouldBeTrue
    | ShouldBeFalse
    | ShouldNotComeHere

  /** What an assertion call does: return, or raise CTEST_ERR. */
  datatype Check = Pass | Fail(reason: Reason)

  /** A `void*` argument: NULL or the address of some object. */
  type Ptr = Option<DataPtr>

  /** assert_equal, on intmax_t: raises unless the values are equal. */
  function AssertEqual(exp: int64, actual: int64): (c: Check)
    ensures c.Pass? <==> exp == actual
    ensures c.Fail? ==> c.reason == Expected(exp as int, actual as int)
  {
    if exp != actual then Fail(Expected(exp as int, actual as int)) else Pass
  }

  /** assert_equal_u, the same on uintmax_t. */
  function AssertEqualU(exp: uint64, actual: uint64): (c: Check)
    ensures c.Pass? <==> exp == actual
    ensures c.Fail? ==> c.reason == Expected(exp as int, actual as int)
  {
    if exp != actual then Fail(Expected(exp as int, actual as int)) else Pass
  }

  /** assert_not_equal, on intmax_t: the message reports only the actual value. */
  function AssertNotEqual(exp: int64, actual: int64): (c: Check)
    ensures c.Pass? <==> exp != actual
    ensures c.Fail? ==> c.reason == ShouldNotBe(actual as int)
  {
    if exp == actual then Fail(ShouldNotBe(actual as int)) else Pass
  }

  /** assert_not_equal_u, the same on uintmax_t. */
  function AssertNotEqualU(exp: uint64, actual: uint64): (c: Check)
    ensures c.Pass? <==> exp != actual
    ensures c.Fail? ==> c.reason == ShouldNotBe(actual as int)
  {
    if exp == actual then Fail(ShouldNotBe(actual as int)) else Pass
  }

  /** Equality and inequality checks fail on exactly complementary inputs. */
  lemma EqualComplementsNotEqual(exp: int64, actual: int64, uexp: uint64, uactual: uint64)
    ensures AssertEqual(exp, actual).Pass? != AssertNotEqual(exp, actual).Pass?
    ensures AssertEqualU(uexp, uactual).Pass? != AssertNotEqualU(uexp, uactual).Pass?
  {
  }

  /** assert_interval(exp1, exp2, real): both bounds are inclusive. */
  function AssertInterval(lo: int64, hi: int64, actual: int64): (c: Check)
    ensures c.Pass? <==> lo <= actual <= hi
    ensures c.Fail? ==> c.reason == OutsideInterval(lo as int, hi as int, actual as int)
  {
    if actual < lo || actual > hi then Fail(OutsideInterval(lo as int, hi as int, actual as int)) else Pass
  }

  /** An interval check with equal bounds is an equality check; one with crossed bounds always fails. */
  lemma IntervalDegenerate(lo: int64, hi: int64, actual: int64)
    ensures AssertInterval(lo, lo, actual).Pass? == AssertEqual(lo, actual).Pass?
    ensures hi < lo ==> AssertInterval(lo, hi, actual).Fail?
  {
  }

  /** assert_null */
  function AssertNull(actual: Ptr): (c: Check)
    ensures c.Pass? <==> actual == None
    ensures c.Fail? ==> c.reason == ShouldBeNull
  {
    if actual != None then Fail(ShouldBeNull) else Pass
  }

  /** assert_not_null */
  function AssertNotNull(actual: Ptr): (c: Check)
    ensures c.Pass? <==> actual.Some?
    ensures c.Fail? ==> c.reason == ShouldNotBeNull
  {
    if actual == None then Fail(ShouldNotBeNull) else Pass
  }

  /** assert_true, on an int: any non-zero value is true. */
  function AssertTrue(actual: int32): (c: Check)
    ensures c.Pass? <==> actual != 0
    ensures c.Fail? ==> c.reason == ShouldBeTrue
  {
    if actual == 0 then Fail(ShouldBeTrue) else Pass
  }

  /** assert_false, on an int */
  function AssertFalse(actual: int32): (c: Check)
    ensures c.Pass? <==> actual == 0
    ensures c.Fail? ==> c.reason == ShouldBeFalse
  {
    if actual != 0 then Fail(ShouldBeFalse) else Pass
  }

  /** Exactly one of assert_null/assert_not_null and of assert_true/assert_false passes. */
  lemma NullAndTruthComplement(p: Ptr, v: int32)
    ensures AssertNull(p).Pass? != AssertNotNull(p).Pass?
    ensures AssertTrue(v).Pass? != AssertFalse(v).Pass?
  {
  }

  /** assert_fail(): raises unconditionally. */
  function AssertFail(): (c: Check)
    ensures c == Fail(ShouldNotComeHere)
  {
    Fail(ShouldNotComeHere)
  }

  /**
    assert_str(exp, real): fails when exactly one side is NULL, or when both
    are strings and strcmp finds them different.
   */
  function AssertStr(exp: Option<CString>, actual: Option<CString>): (c: Check)
    ensures c.Fail? ==> c.reason == StrMismatch(exp, actual)
  {
    if (exp.None? && actual.Some?) || (exp.Some? && actual.None?)
       || (exp.Some? && actual.Some? && Strcmp(exp.value, actual.value) != 0)
    then Fail(StrMismatch(exp, actual))
    else Pass
  }

  /** assert_str passes exactly when both are NULL or both are the same string. */
  lemma AssertStrPassesIffEqual(exp: Option<CString>, actual: Option<CString>)
    ensures AssertStr(exp, actual).Pass? <==> exp == actual
  {
    if exp.Some? && actual.Some? {
      StrcmpZero(exp.value, actual.value);
    }
  }

  /**
    assert_data(exp, expsize, real, realsize): the sizes are compared first;
    then the bytes are scanned in order and the first difference raises,
    reporting both bytes and their offset. `exp` and `actual` are the
    `expsize` and `realsize` bytes the pointers address.
   */
  method AssertData(exp: seq<byte>, actual: seq<byte>) returns (c: Check)
    ensures |exp| != |actual| ==> c == Fail(SizeMismatch(|exp|, |actual|))
    ensures |exp| == |actual| ==> (c == Pass <==> exp == actual)
    ensures |exp| == |actual| && c.Fail? ==>
      c.reason.ByteMismatch? && c.reason.offset < |exp| &&
      exp[..c.reason.offset] == actual[..c.reason.offset] &&
      c.reason.expByte == exp[c.reason.offset] != actual[c.reason.offset] == c.reason.actualByte
  {
    if |exp| != |actual| {
      return Fail(SizeMismatch(|exp|, |actual|));
    }
    var i := 0;
    while i < |exp|
      invariant 0 <= i <= |exp|
      invariant exp[..i] == actual[..i]
    {
      if exp[i] != actual[i] {
        return Fail(ByteMismatch(exp[i], i, actual[i]));
      }
      i := i + 1;
    }
    assert exp == exp[..i];
    assert actual == actual[..i];
    return Pass;
  }
}
