# ctest.h, modelled and verified in Dafny

ctest is a single-header C unit-test framework. The Dafny modules here model its core:

- **Test registry** (`TestRegistry`, test_list.dfy). `ctest_impl_test_list` is an intrusive circular doubly linked list with a sentinel. Each test's load-time constructor appends the test with `ctest_impl_list_add_tail`. It is modelled as node objects with `next`/`prev` fields, plus a ghost sequence of nodes.
- **Suite index** (`SuiteIndex`, suite_index.dfy; `Fnv`, fnv.dfy). `ctest_impl_suite_hashtable` has 1024 buckets. Each bucket is a circular singly linked list whose head is the bucket slot itself.
  - Suites are keyed by the 32-bit FNV-1a hash of their name, terminating NUL included.
  - The operations are lazy initialisation, prepend, find by `strcmp`, find-or-insert (emplace), and the fixture constructor that sets a suite's `setup` or `teardown` hook.
- **Diagnostic buffer** (`ErrorMessage`, error_message.dfy). `vprint_errormsg` advances the cursor `ctest_errormsg` and the remaining count `ctest_errorsize` by the length `vsnprintf` reports. The driver resets both before each test, and prints the buffer when the count moved.
- **Assertions** (`Assertions`, assertions.dfy). The decision rule of every non-floating-point `assert_*`: it either returns, or raises `CTEST_ERR` with the values its message reports.
- **Run driver** (`Driver`, driver.dfy). `ctest_main` works in three steps:
  - It chooses `suite_all`, or `suite_filter` when `argc == 2`.
  - A first pass counts the selected tests.
  - A second pass runs each selected test in registry order: setup, body, then teardown, inside the `setjmp` region. It prints one line per test and counts the test as ok, failed or skipped. It returns the number that failed.

C strings are byte sequences without NUL (`CTypes.CString`), compared by models of `strcmp` and `strncmp`.

The test code that ctest calls is abstract: a `Behaviour` gives each call its outcome and the lengths `vsnprintf` reports for the messages the call formats.
- An outcome is `Returned`, or `Raised` for a `CTEST_ERR` whose `longjmp` lands on the driver's `setjmp`.
- Each run of the driver is specified by the function `Driver.Run`. Its methods are proved to compute it, walking the real list and table and updating the real buffer.

`vsnprintf`'s size argument exists so that a long message is truncated safely. The bookkeeping at ctest.h:396-399 still lets the cursor leave the buffer. The model states the code as written in `ErrorMessage.VprintAsWritten`, and the buffer the driver uses takes the corrected step `ErrorMessage.Vprint` (see Findings).

## Model

| member | source | states |
|---|---|---|
| CTypes.Strncmp | ctest.h:572-574 | strncmp's result is a sign (-1, 0 or 1), and comparing zero bytes finds the strings equal |
| CTypes.StrncmpPrefix | ctest.h:572-574 | `strncmp(p, s, strlen(p)) == 0` holds exactly when p is a prefix of s |
| CTypes.Strcmp | ctest.h:194 | strcmp's result is a sign (-1, 0 or 1); when it is zero is stated by StrcmpZero |
| CTypes.StrcmpZero | ctest.h:194 | `strcmp(a, b) == 0` holds exactly when the two strings are equal |
| Fnv.CharBits | ctest.h:157-158 | the byte, converted through signed `char` to `unsigned int`: its low 8 bits are the byte, and the 24 bits above are all zero below 0x80 and all one from 0x80 |
| Fnv.Mix | ctest.h:157-159 | one FNV-1a round, xor then multiply by the prime mod 2^32; how rounds chain is stated by FoldSnoc and Fnv1a32IsFold |
| Fnv.Fnv1a32 | ctest.h:154-160 | the recursive hash over s[0..size]; its meaning, the FNV-1a fold from the offset basis, is stated by Fnv1a32IsFold |
| Fnv.XorBit | ctest.h:157-158 | the `^` of the hash sets exactly the bits where its operands differ |
| Fnv.Fnv1a32IsFold | ctest.h:154-160 | the recursive `ctest_impl_fnv1a32(s, size)` equals the iterative FNV-1a fold (xor, then multiply by 16777619 mod 2^32, from 2166136261) over bytes s[0..size] inclusive |
| Fnv.HashSuite | ctest.h:183-186 | `ctest_impl_hash_suite(name)` is the FNV-1a fold over the name followed by its NUL terminator |
| SuiteIndex.Bucket | ctest.h:139-147 | the bucket index `key % 1024` is always below 1024 |
| TestRegistry.ListHead.constructor | ctest.h:69 | a statically initialised node points to itself both ways |
| TestRegistry.AddBetween | ctest.h:71-79 | `curr` is spliced in between `prev` and `next`; the outer links of prev and next are unchanged |
| TestRegistry.TestList.constructor | ctest.h:355 | the registry starts as an empty, valid list whose sentinel is a self-loop |
| TestRegistry.TestList.AddTail | ctest.h:81-85 | the node becomes the last element (`head->prev == node`, `node->next == head`); earlier nodes stay in order and the list stays consistent |
| TestRegistry.TestList.Appended | ctest.h:71-85 | splicing a new node between the former last node and the sentinel keeps every next/prev pair consistent and appends its test to the registry order |
| TestRegistry.TestList.ValidWalks | ctest.h:103-106 | following next from the sentinel passes the nodes of the registered tests in registry order and ends at the sentinel, which carries no test of its own |
| TestRegistry.RegisterTest | ctest.h:238-242 | a test's constructor appends exactly that test to the registry |
| SuiteIndex.Suite.constructor | ctest.h:248-253 | a fixture's static suite has its name, no hooks, and a self-loop list node |
| SuiteIndex.LookupIffNamed | ctest.h:188-199 | when every suite sits in its hash bucket, a lookup finds a name exactly when the table holds it |
| SuiteIndex.HashedPrepend | ctest.h:139-147 | prepending a suite to bucket `hash % 1024` keeps every suite in its own bucket |
| SuiteIndex.FindIn | ctest.h:192-198 | a bucket scan returns a suite of the queried name, or null exactly when no suite of the bucket has that name |
| SuiteIndex.FindInFirst | ctest.h:93-98 | the scan returns the first match in list order, so the most recently prepended duplicate wins |
| SuiteIndex.FindInOther | ctest.h:188-199 | prepending a suite of another name does not change what find returns for a name |
| SuiteIndex.SuiteTable.FindIffNamed | ctest.h:188-199 | find returns non-null exactly for the names in the table, and only suites of the table |
| SuiteIndex.SuiteTable.constructor | ctest.h:356 | the zero-initialised static table is valid, not yet initialised and empty |
| SuiteIndex.SuiteTable.InitHelper | ctest.h:121-128 | every bucket becomes an empty self-loop (`heads[b]` points to slot b) |
| SuiteIndex.SuiteTable.InitOnce | ctest.h:130-137 | the table is initialised when bucket 0 is NULL; otherwise nothing changes, so a second call keeps every chain |
| SuiteIndex.SuiteTable.FindSuite | ctest.h:188-199 | the chain walk returns the table's answer for the name: a suite of that name, or null exactly when the name is absent |
| SuiteIndex.SuiteTable.AddSuite | ctest.h:201-205 | the suite is prepended to the chain of its name's bucket; the other buckets are unchanged |
| SuiteIndex.SuiteTable.EmplaceSuite | ctest.h:207-216 | returns the existing suite of that name and leaves the table unchanged; otherwise inserts its argument and returns it; names stay unique |
| SuiteIndex.SuiteTable.DeclareSuite | ctest.h:244-254 | after init_once and emplace, find returns a suite of the name carrying its earlier hooks; find is unchanged for other names; any suite added is newly allocated |
| SuiteIndex.SuiteTable.RegisterFixture | ctest.h:244-256 | the emplaced suite gets the declared hook and keeps its other hook; every other name's suite and hooks are unchanged; any suite added is newly allocated |
| SuiteIndex.SetupAndTeardown | ctest.h:244-256 | on the name-to-hooks map the table holds, a setup and a teardown declaration for one name, in either order, leave that name with both hooks |
| SuiteIndex.SuiteTable.RegisterSetupAndTeardown | ctest.h:244-256 | on the table itself: a setup and a teardown declaration for one name, in either order, leave find returning one suite of that name carrying both hooks; other names keep their suite and hooks, and names stay unique |
| SuiteIndex.RegisteredHolds | ctest.h:244-256 | a name-to-hooks map that describes the table before a fixture declaration describes it after, updated at the declared name |
| ErrorMessage.VprintAsWritten | ctest.h:389-401 | vprint_errormsg as written, with size_t wrap-around: the remaining count stays a size_t |
| ErrorMessage.AsWrittenFitKeepsSum | ctest.h:395-399 | when the text fits, the code advances the cursor by ret and offset + remaining stays MSG_SIZE-1 |
| ErrorMessage.AsWrittenOverrunsBuffer | ctest.h:389-449 | CTEST_ERR with a 10000-byte message after a reset (colour off): the 7-byte title leaves the cursor at 7, the text moves it to offset 5919, past the 4096-byte buffer, and wraps the count to 2^64 - 1824; msg_end's newline then lands at offset 5919 |
| ErrorMessage.AsWrittenExactFitStays | ctest.h:396-399 | a text whose length is exactly the remaining count is stored truncated, but the cursor and count do not move |
| ErrorMessage.AsWrittenExactFitIsLost | ctest.h:389-434 | CTEST_LOG with a 4088-byte message after a reset (colour off): the cursor stays at 7 after the text, so msg_end's newline is written at offset 7, over the start of the truncated text |
| ErrorMessage.Vprint | ctest.h:389-401 | corrected bookkeeping: the cursor advances by exactly the bytes stored (ret, or remaining - 1 when truncated) and stays in the buffer |
| ErrorMessage.ExactFitKept | ctest.h:389-434 | with the corrected step, the exact-fit CTEST_LOG fills the buffer to its last byte and msg_end's newline moves nothing, so the stored text survives |
| ErrorMessage.VprintAll | ctest.h:389-401 | any sequence of corrected steps (`Vprint`, not the code as written) keeps offset + remaining == MSG_SIZE-1 with at least one byte (the NUL) still free |
| ErrorMessage.VprintAllAppend | ctest.h:389-401 | running two batches of corrected steps one after the other is running their concatenation |
| ErrorMessage.VprintAllMoved | ctest.h:641-643 | from a fresh reset, a sequence of corrected steps keeps the cursor inside the buffer and has moved it exactly when some call formatted non-empty text |
| ErrorMessage.Printed | ctest.h:670 | whether the driver prints the buffer after a test (the count moved from MSG_SIZE-1); its meaning is stated by PrintedIffLogged |
| ErrorMessage.AsWrittenFirstPrinted | ctest.h:389-401 | for one text right after a reset, the code as written moves the count exactly when the text is non-empty and not exactly MSG_SIZE-1 bytes, while the corrected step moves it exactly when the text is non-empty |
| ErrorMessage.PrintedIffLogged | ctest.h:670 | the buffer is printed after a test exactly when the test formatted some non-empty text |
| ErrorMessage.MessageBuffer.constructor | ctest.h:358-359 | before the first test the statics are zero |
| ErrorMessage.MessageBuffer.Reset | ctest.h:641-643 | the per-test reset restores offset 0 and remaining MSG_SIZE-1 |
| ErrorMessage.MessageBuffer.VprintErrormsg | ctest.h:389-401 | one call moves the two statics as the corrected bookkeeping says |
| ErrorMessage.MessageBuffer.VprintEach | ctest.h:424-449 | the successive vprint_errormsg calls of CTEST_LOG/CTEST_ERR move the statics as the fold over their lengths says |
| Assertions.AssertEqual | ctest.h:484-488 | passes iff the values are equal; on failure reports both values |
| Assertions.AssertEqualU | ctest.h:490-494 | passes iff the unsigned values are equal; on failure reports both values |
| Assertions.AssertNotEqual | ctest.h:496-500 | passes iff the values differ; on failure reports the actual value |
| Assertions.AssertNotEqualU | ctest.h:502-506 | passes iff the unsigned values differ; on failure reports the actual value |
| Assertions.EqualComplementsNotEqual | ctest.h:484-506 | for any inputs, exactly one of assert_equal and assert_not_equal passes (signed and unsigned) |
| Assertions.AssertInterval | ctest.h:508-512 | passes iff exp1 <= real <= exp2 (both bounds inclusive); on failure reports the bounds and the value |
| Assertions.IntervalDegenerate | ctest.h:508-512 | an interval with equal bounds is an equality check; crossed bounds always fail |
| Assertions.AssertNull | ctest.h:538-542 | passes iff the pointer is NULL |
| Assertions.AssertNotNull | ctest.h:544-548 | passes iff the pointer is not NULL |
| Assertions.AssertTrue | ctest.h:550-554 | passes iff the int is non-zero |
| Assertions.AssertFalse | ctest.h:556-560 | passes iff the int is zero |
| Assertions.NullAndTruthComplement | ctest.h:538-560 | exactly one of assert_null/assert_not_null and exactly one of assert_true/assert_false passes |
| Assertions.AssertFail | ctest.h:562-564 | always raises, with "shouldn't come here" |
| Assertions.AssertStr | ctest.h:453-459 | on failure reports both strings |
| Assertions.AssertStrPassesIffEqual | ctest.h:453-459 | passes iff both are NULL or both are the same string |
| Assertions.AssertData | ctest.h:469-482 | a size mismatch is reported first; with equal sizes it passes iff the bytes are equal, and a failure names the first differing offset and both bytes there |
| Driver.Accepts | ctest.h:567-574 | the filter's decision for a test; its meaning is stated by AcceptsIffPrefix |
| Driver.AcceptsIffPrefix | ctest.h:567-574 | suite_all accepts every test; suite_filter accepts exactly the tests whose suite name starts with the filter; the empty filter accepts all |
| Driver.SelectFilter | ctest.h:616-625 | the prefix filter on argv[1] is installed exactly when argc == 2 |
| Driver.BodyCall | ctest.h:654-657 | the unary run with the test's data when it has data, the nullary run otherwise; it is the one call every Planned sequence holds |
| Driver.Planned | ctest.h:653-658 | the calls a running test attempts: one to three calls holding the body; a setup call can only come first and a teardown call only last, and both need the test's data |
| Driver.RunTest | ctest.h:646-669 | one test's status and calls; its meaning is stated by SkipIffSkipped, FailedIffSomeCallRaised, TeardownOnlyAfterReturns, SetupRaisesStopsTest and AllReturnedPasses |
| Driver.Executed | ctest.h:650-669 | the calls made are a prefix of the planned calls and include at least the first |
| Driver.ExecutedStopsAtRaise | ctest.h:650-669 | every call made but the last returned normally; a run cut short ended on a raise (the longjmp) |
| Driver.FailedIffSomeCallRaised | ctest.h:650-669 | a test that runs is counted failed exactly when one of its calls raised |
| Driver.TeardownOnlyAfterReturns | ctest.h:653-658 | teardown runs only for a test with data, as its last call, right after its body, and only when every earlier call returned |
| Driver.SetupRaisesStopsTest | ctest.h:653 | a setup that raises fails the test, and neither body nor teardown runs |
| Driver.AllReturnedPasses | ctest.h:651-665 | when every planned call returns, all of them run and the test is ok |
| Driver.Selected | ctest.h:635-637 | the tests the filter accepts, in registry order, never more than registered; membership is stated by SelectedIff |
| Driver.SelectedIff | ctest.h:635-640 | a test is selected exactly when it is registered and the filter accepts it |
| Driver.Lines | ctest.h:639-673 | the second pass prints one line per selected test |
| Driver.SkipIffSkipped | ctest.h:646-649 | a test is reported skipped exactly when it is marked skip, and then no call is made |
| Driver.LinesNumbered | ctest.h:639-673 | line i reports the i-th selected test as `TEST i+1/total`; it is skipped iff the test is marked skip; a skipped test prints no buffer |
| Driver.CountsAddUp | ctest.h:646-668 | ok + failed + skipped lines add up to all lines |
| Driver.TallyStep | ctest.h:639-673 | visiting test k adds its line, numbered after the earlier ones, exactly when the filter accepts it, and bumps the counter of its status |
| Driver.TallyLines | ctest.h:639-673 | the counters' total is the first pass's count, and the lines are those of the second pass |
| Driver.TallyCounts | ctest.h:646-668 | num_ok, num_fail and num_skip count the lines of each status |
| Driver.Run | ctest.h:609-682 | after a run, total == number of selected tests == number of lines == num_ok + num_fail + num_skip |
| Driver.CountSelected | ctest.h:635-637 | the first pass walks the list and counts exactly the selected tests |
| Driver.PhasedIsExecuted | ctest.h:650-658 | the straight-line code (setup if present, body, teardown if present, stopping at a raise) makes exactly the run-until-raise calls |
| Driver.RunTestIsPhased | ctest.h:650-669 | a test that runs has the straight-line calls, fails iff the last one raised, and reports their message lengths |
| Driver.LineOfRun | ctest.h:650-670 | the line of a test that runs is given by its straight-line calls and by the buffer those calls leave |
| Driver.Perform | ctest.h:653-658 | one call reports raised iff its outcome is a raise, and feeds its message lengths through vprint_errormsg |
| Driver.RunBody | ctest.h:654-658 | the body runs; teardown runs when suite, hook and data are present and the body returned; the buffer takes their messages in order |
| Driver.RunOne | ctest.h:650-669 | the setjmp region runs setup, body and teardown, stopping at a raise; the status is failed iff the last call raised, never skipped |
| Driver.RunFound | ctest.h:650-670 | a test that is not skipped gets the line its run specifies, including whether the buffer is printed |
| Driver.RunSelected | ctest.h:640-671 | a selected test, after the buffer reset, gets the line its run specifies (skipped and silent when marked skip) |
| Driver.Record | ctest.h:646-668 | the status of the line picks which of num_ok, num_fail, num_skip goes up by one, and the line is appended |
| Driver.Visit | ctest.h:639-673 | one iteration of the second loop advances the counters and lines from the tally of tests[..k] to that of tests[..k+1] |
| Driver.SecondPass | ctest.h:639-674 | the second loop walks the list and produces the tally of all registered tests |
| Driver.CtestMain | ctest.h:609-682 | ctest_main produces the report `Run` specifies for the registered tests, the filter from argv and the suite table, and returns num_fail |

## Left out

- Console output is not modelled: printf, fflush, color_print, ANSI colours, isatty and the RESULTS summary line. Each printed test line is the value `Driver.Line`, and the summary is the `Report` counters.
- Timing (`gettimeofday`, the elapsed milliseconds) is wall-clock I/O and is not modelled.
- `vsnprintf` and printf-style formatting are a libc call. They appear only as the int each call returns, and the buffer's bytes are not modelled.
- `setjmp`/`longjmp` become the `Raised` outcome of a call. A `CTEST_ERR` is modelled as a call that raises after formatting its message, not as a non-local jump.
- The SIGSEGV handler is signal handling and process control, and is not modelled.
- `assert_dbl_near` and `assert_dbl_far` are floating point and are not modelled. `assert_wstr` is `assert_str` over `wchar_t` and has no separate model.
- Load-time constructor ordering, macro name mangling, the `offsetof` container-of arithmetic and the nullary/unary function-pointer casts are compiler mechanics.
  - Registration is an explicit call of `TestRegistry.RegisterTest` or `SuiteIndex.SuiteTable.RegisterFixture`.
  - A node carries its test as the `entry` field.
- ErrorMessage.MessageBuffer.VprintErrormsg: the buffer the driver uses takes the corrected step `ErrorMessage.Vprint`. Once a message is truncated, its cursor and count differ from those of the code as written, which `ErrorMessage.VprintAsWritten` states and which can leave the buffer. The driver's only observation of the buffer, the print decision `Line.printed`, can differ too: `ErrorMessage.AsWrittenFirstPrinted` shows that the two steps disagree when the first text after a reset is exactly MSG_SIZE-1 bytes long. No CTEST_LOG or CTEST_ERR formats such a text first, because msg_start's title always comes before it.
- ErrorMessage.VprintAll, ErrorMessage.VprintAllAppend and ErrorMessage.VprintAllMoved describe the corrected step `ErrorMessage.Vprint`. The code as written does not keep their invariant once a text is truncated (`ErrorMessage.AsWrittenOverrunsBuffer`).
- ErrorMessage.AsWrittenOverrunsBuffer and ErrorMessage.AsWrittenExactFitIsLost: the figures assume colour output is off. With colour on, the colour code is formatted before the title and shifts every offset by its length.
- Driver.CtestMain: the counters total, num_ok, num_fail, num_skip and idx are unbounded integers. The source's `int` could overflow only beyond 2^31 tests.
- Driver.CtestMain: the function-static counters and filter keep their values across calls to ctest_main. The model describes one invocation starting from zero.
- Driver.RunOne: the suite's hooks are read once, at the start of the test. The source reads `suite->teardown` again after the body, but nothing in the model can change a hook during a test.
- Driver.RunSelected: `ctest_impl_find_suite` is called before the setjmp region rather than inside it. Find cannot raise, so the outcome is the same.
- The test code is a finite map of call effects with a default (`Driver.Behaviour`). Code whose effect depends on earlier calls of the same test is not captured.
- `Fnv.CharBits`: bytes of 0x80 and above are hashed as a signed `char`, which is sign-extended. That is the common ABI; an unsigned-`char` target is not modelled.

## Findings

| source | as written | input that shows it | evidently intended | confidence | as-written member | corrected member |
|---|---|---|---|---|---|---|
| ctest.h:396-399 | when the text does not fit (`ctest_errorsize <= ret`), the cursor advances by `ret - ctest_errorsize` and the count drops by as much, wrapping around as a size_t | CTEST_ERR with a 10000-byte message after a reset, colour off: the title "  ERR: " leaves the cursor at 7 with 4088 bytes free; the text moves it to offset 5919, past the end of the 4096-byte buffer; the count becomes 2^64 - 1824, so msg_end's newline is written at offset 5919, out of bounds | advance by the bytes `vsnprintf` stored (`ctest_errorsize - 1`), so the cursor stays on the buffer's last byte and the count stays at least 1 | not executed | ErrorMessage.AsWrittenOverrunsBuffer | ErrorMessage.Vprint |
| ctest.h:396-399, 417-434 | a text of exactly `ctest_errorsize` bytes is stored truncated but advances the cursor by 0 | CTEST_LOG with a 4088-byte message after a reset, colour off: the title leaves the cursor at 7 with 4088 bytes free; the text is stored from offset 7 but the cursor stays there, so msg_end writes its newline and NUL at offset 7 and the printed buffer ends right after the title | advance past the stored text, so the truncated text stays in the buffer and is printed | not executed | ErrorMessage.AsWrittenExactFitIsLost | ErrorMessage.ExactFitKept |
