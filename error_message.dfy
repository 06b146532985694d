/**
  Bookkeeping of the per-test diagnostic buffer: the cursor `ctest_errormsg`
  (kept here as its offset into the 4096-byte `ctest_errorbuffer`) and the
  remaining count `ctest_errorsize`, a size_t. vsnprintf is represented only
  by the value it returns: the full length of the formatted text, or a
  negative number on an encoding error.
 */
module ErrorMessage {
  import opened CTypes

  const MsgSize := 4096
  /** One past the largest size_t on a 64-bit target. */
  const SizeLimit := 0x1_0000_0000_0000_0000

  /** (ctest_errormsg - ctest_errorbuffer, ctest_errorsize) */
  datatype Cursor = Cursor(offset: int, remaining: int)

  /** The state the driver installs before each test. */
  const Fresh := Cursor(0, MsgSize - 1)

  /**
    vprint_errormsg exactly as written, size_t wrap-around included. In the
    truncating branch (remaining <= ret) it advances by ret - remaining, which
    is unrelated to the number of bytes vsnprintf stored.
   */
  function VprintAsWritten(c: Cursor, ret: int32): (r: Cursor)
    requires 0 <= c.remaining < SizeLimit
    ensures 0 <= r.remaining < SizeLimit
  {
    if ret < 0 then c
    else
      var size := ret as int;
      var s := if c.remaining <= size then size - c.remaining else size;
      Cursor(c.offset + s, (c.remaining - s) % SizeLimit)
  }

  /**
    When the text fits (0 <= ret < remaining) the code as written advances
    the cursor by ret and keeps offset + remaining at MsgSize - 1.
   */
  lemma AsWrittenFitKeepsSum(c: Cursor, ret: int32)
    requires 0 <= c.offset && 0 <= c.remaining < SizeLimit
    requires c.offset + c.remaining == MsgSize - 1
    requires 0 <= ret as int < c.remaining
    ensures VprintAsWritten(c, ret) == Cursor(c.offset + ret as int, c.remaining - ret as int)
    ensures VprintAsWritten(c, ret).offset + VprintAsWritten(c, ret).remaining == MsgSize - 1
  {
  }

  /**
    The length msg_start's title reports, "  ERR: " or "  LOG: ", which
    every CTEST_ERR and CTEST_LOG formats before its own text (colour
    output off; with colour on, the colour code comes first as well).
   */
  const TitleLength: int32 := 7

  /**
    Counterexample: CTEST_ERR with a 10000-byte message into a freshly reset
    buffer. The title leaves the cursor at 7 with 4088 bytes free; the text
    then moves the cursor 5919 bytes in, past the end of the 4096-byte
    buffer, and wraps the remaining count around to 2^64 - 1824; msg_end's
    "\n" is then written at offset 5919, outside the buffer.
   */
  lemma AsWrittenOverrunsBuffer()
    ensures VprintAsWritten(Fresh, TitleLength) == Cursor(7, 4088)
    ensures VprintAsWritten(VprintAsWritten(Fresh, TitleLength), 10000) == Cursor(5919, SizeLimit - 1824)
    ensures VprintAsWritten(VprintAsWritten(VprintAsWritten(Fresh, TitleLength), 10000), 1) == Cursor(5920, SizeLimit - 1825)
  {
  }

  /**
    Whenever vsnprintf reports exactly the remaining count, the text is
    stored truncated but the code as written does not move the cursor, so
    the next message is written over it.
   */
  lemma AsWrittenExactFitStays(c: Cursor, ret: int32)
    requires 0 < c.remaining < SizeLimit && ret as int == c.remaining
    ensures VprintAsWritten(c, ret) == c
  {
  }

  /**
    Counterexample: CTEST_LOG with a 4088-byte message after a reset. The
    title moves the cursor to 7; the text is stored truncated from offset 7
    but the cursor stays there, so msg_end's "\n" is written at offset 7,
    over the first byte of the text, and its NUL ends the buffer there.
   */
  lemma AsWrittenExactFitIsLost()
    ensures var title := VprintAsWritten(Fresh, TitleLength);
      && VprintAsWritten(title, 4088) == title
      && VprintAsWritten(VprintAsWritten(title, 4088), 1) == Cursor(8, 4087)
  {
  }

  /**
    The buffer invariant: the cursor sits inside the buffer on the NUL that
    ends what was written, and offset + remaining stays MsgSize - 1.
   */
  ghost predicate Inv(c: Cursor) {
    0 <= c.offset && 1 <= c.remaining && c.offset + c.remaining == MsgSize - 1
  }

  /**
    vprint_errormsg with the truncating branch corrected: vsnprintf stores at
    most remaining - 1 bytes and a NUL, so the cursor advances by exactly the
    number of bytes stored.
   */
  function Vprint(c: Cursor, ret: int32): (r: Cursor)
    requires Inv(c)
    ensures Inv(r)
    ensures r.offset - c.offset == if ret < 0 then 0 else Min(ret as int, c.remaining - 1)
  {
    if ret < 0 then c
    else
      var size := ret as int;
      var s := if c.remaining <= size then c.remaining - 1 else size;
      Cursor(c.offset + s, c.remaining - s)
  }

  /**
    With the corrected step the exact-fit CTEST_LOG keeps its text: the
    truncated text fills the buffer up to its last byte, and msg_end's "\n"
    finds no room, so it moves nothing and overwrites nothing.
   */
  lemma ExactFitKept()
    ensures var title := Vprint(Fresh, TitleLength);
      && Vprint(title, 4088) == Cursor(MsgSize - 2, 1)
      && Vprint(Vprint(title, 4088), 1) == Vprint(title, 4088)
  {
  }

  function Min(a: int, b: int): int {
    if a < b then a else b
  }

  /** The cursor after a sequence of vprint_errormsg calls, in order. */
  function VprintAll(c: Cursor, rets: seq<int32>): (r: Cursor)
    requires Inv(c)
    ensures Inv(r)
    decreases |rets|
  {
    if rets == [] then c else Vprint(VprintAll(c, rets[..|rets| - 1]), rets[|rets| - 1])
  }

  lemma {:induction false} VprintAllAppend(c: Cursor, a: seq<int32>, b: seq<int32>)
    requires Inv(c)
    ensures VprintAll(c, a + b) == VprintAll(VprintAll(c, a), b)
    decreases |b|
  {
    if b == [] {
      assert a + b == a;
    } else {
      assert (a + b)[..|a + b| - 1] == a + b[..|b| - 1];
      VprintAllAppend(c, a, b[..|b| - 1]);
    }
  }

  /**
    Starting from a freshly reset buffer, the cursor has left offset 0
    exactly when some call formatted a non-empty text; the cursor never
    leaves the buffer.
   */
  lemma {:induction false} VprintAllMoved(rets: seq<int32>)
    ensures var r := VprintAll(Fresh, rets);
      0 <= r.offset < MsgSize - 1 && (r.offset != 0 <==> exists i :: 0 <= i < |rets| && rets[i] > 0)
    decreases |rets|
  {
    if rets != [] {
      var init := rets[..|rets| - 1];
      VprintAllMoved(init);
      var last := rets[|rets| - 1];
      if exists i :: 0 <= i < |init| && init[i] > 0 {
        var i :| 0 <= i < |init| && init[i] > 0;
        assert rets[i] > 0;
      }
      if exists i :: 0 <= i < |rets| && rets[i] > 0 {
        var i :| 0 <= i < |rets| && rets[i] > 0;
        if i < |rets| - 1 {
          assert init[i] > 0;
        }
      }
    }
  }

  /**
    Whether the driver prints the buffer after a test whose messages
    reported `rets`: it does when ctest_errorsize differs from MsgSize - 1
    (ctest.h:670).
   */
  function Printed(rets: seq<int32>): bool {
    VprintAll(Fresh, rets).remaining != MsgSize - 1
  }

  /**
    For a single text formatted right after a reset, the code as written
    moves the count, and so has the buffer printed, exactly when the text
    is non-empty and not exactly MsgSize - 1 bytes long; the corrected step
    prints it exactly when it is non-empty. The two decisions part only on
    a text of exactly MsgSize - 1 bytes, which CTEST_LOG and CTEST_ERR never
    format first, because msg_start's title comes before it.
   */
  lemma AsWrittenFirstPrinted(ret: int32)
    ensures VprintAsWritten(Fresh, ret).remaining != MsgSize - 1 <==> ret > 0 && ret as int != MsgSize - 1
    ensures Printed([ret]) <==> ret > 0
  {
    assert VprintAll(Fresh, [ret]) == Vprint(VprintAll(Fresh, []), ret);
  }

  /** After the corrected bookkeeping, the buffer is printed exactly when the test logged some non-empty text. */
  lemma PrintedIffLogged(rets: seq<int32>)
    ensures Printed(rets) <==> exists i :: 0 <= i < |rets| && rets[i] > 0
  {
    VprintAllMoved(rets);
  }

  /** The two statics that vprint_errormsg advances. */
  class MessageBuffer {
    var errormsg: int    // offset of ctest_errormsg into ctest_errorbuffer
    var errorsize: int   // ctest_errorsize

    ghost predicate Valid()
      reads this
    {
      Inv(Cursor(errormsg, errorsize))
    }

    /** The cursor the two statics form. */
    ghost function Current(): Cursor
      reads this
    {
      Cursor(errormsg, errorsize)
    }

    /** Static storage before the first test: both statics are zero (the NULL cursor is represented as offset 0); Reset runs before any use. */
    constructor ()
      ensures errormsg == 0 && errorsize == 0
    {
      errormsg, errorsize := 0, 0;
    }

    /** ctest_errorbuffer[0] = 0; ctest_errorsize = MSG_SIZE-1; ctest_errormsg = ctest_errorbuffer; */
    method Reset()
      modifies this
      ensures Valid() && Cursor(errormsg, errorsize) == Fresh
    {
      errorsize := MsgSize - 1;
      errormsg := 0;
    }

    /** vprint_errormsg, given the value vsnprintf returned. */
    method VprintErrormsg(ret: int32)
      requires Valid()
      modifies this
      ensures Valid()
      ensures Cursor(errormsg, errorsize) == Vprint(old(Cursor(errormsg, errorsize)), ret)
    {
      if ret >= 0 {
        var size := ret as int;
        var s := if errorsize <= size then errorsize - 1 else size;
        errorsize := errorsize - s;
        errormsg := errormsg + s;
      }
    }

    /** The vprint_errormsg calls one test step makes through CTEST_LOG and CTEST_ERR, in order. */
    method VprintEach(rets: seq<int32>)
      requires Valid()
      modifies this
      ensures Valid()
      ensures Cursor(errormsg, errorsize) == VprintAll(old(Cursor(errormsg, errorsize)), rets)
    {
      ghost var start := Cursor(errormsg, errorsize);
      var i := 0;
      while i < |rets|
        invariant 0 <= i <= |rets| && Valid()
        invariant Cursor(errormsg, errorsize) == VprintAll(start, rets[..i])
      {
        assert rets[..i + 1][..i] == rets[..i];
        VprintErrormsg(rets[i]);
        i := i + 1;
      }
      assert rets[..i] == rets;
    }
  }
}
