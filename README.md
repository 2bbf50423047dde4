# is — assertion context and failure decisions, modelled in Dafny

`is` is a Go assertion helper layered over `testing.TB`. This project models
its core in `is.go`:

- the assertion context `Is` (test object, strict/lax policy, custom failure
  message format and arguments) and its chaining constructors `New`,
  `(*Is).New`, `Msg`, `AddMsg`, `Lax` and `Strict`, each of which builds a new
  context and leaves the receiver alone (`Context.dfy`);
- the failure dispatcher `fail`, here an injected `FailureLog` object that
  records every call with the context it received (`Failures.dfy`);
- the decision of every assertion — when it calls `fail`, with which of its
  default messages, and how often — as a pure specification `Checks.Verdict`
  and as imperative methods proved against it (`Assertions.dfy`);
- the hit-counting tests of `is_test.go` as client methods over a fresh log
  (`Scenarios.dfy`).

The deep-equality engine (`isEqual`, `isNil`, `isZero`) is not defined in the
modelled file; it is the `Values.Engine` datatype of three arbitrary
functions, so every assertion is proved for every engine. Go values
(`interface{}`) are `Values.Value`: the nil interface, or a value with a
dynamic type (name and reflect kind), the length reflect reports, and an
opaque rest. The host test object is `Values.TB`.

Where the code behaves differently from what its comments or a casual reading suggest, the model follows the code:

- `AddMsg` tests only whether the stored *format* is empty. Arguments stored
  with an empty format (`Msg("", x)`) are dropped by a following `AddMsg`
  (`Context.AddMsg`, `Context.AddMsgOnEmptyIsMsg`).
- `Len` rejects only the nil *interface*; a typed nil slice or map has kind
  Slice or Map, length 0, and is compared like any other value
  (`Checks.LenFailsDistinctly`). A negative expected length always fails.
- `(*Is).New` does not check its test object for nil; only the package-level
  `New` does (`Context.Rebind` has no precondition). A context rebound to a
  nil test object panics at the `Helper()` call that starts every assertion,
  before any decision; every assertion method therefore requires
  `c.tb != NilTB`.

## Model

| member | source | states |
|---|---|---|
| `Context.New` | is.go:24-29 | needs a non-nil test object; the context is strict, with an empty format and no arguments |
| `Context.Rebind` | is.go:41-48 | only the test object is replaced; strictness, format and arguments are copied, and rebinding to the same object gives the same context |
| `Context.Msg` | is.go:52-59 | format and arguments are exactly the given ones; test object and strictness unchanged |
| `Context.AddMsg` | is.go:72-82 | with an empty stored format it sets format and arguments as given; otherwise the format is old + " - " + new and the arguments old ++ new; the new format and arguments always end the result; test object and strictness unchanged |
| `Context.AddMsgOnEmptyIsMsg` | is.go:73-75 | on an empty stored format `AddMsg` equals `Msg`, whatever arguments were stored |
| `Context.Lax` | is.go:87-94 | the result is not strict; test object, format and arguments unchanged |
| `Context.Strict` | is.go:99-106 | the result is strict; test object, format and arguments unchanged |
| `Context.LaxIdempotent` | is.go:87-94 | applying `Lax` twice is applying it once |
| `Context.StrictIdempotent` | is.go:99-106 | applying `Strict` twice is applying it once |
| `Context.StrictUndoesLax` | is.go:96-106 | `Strict(Lax(x)) == x` for a strict `x`, and `Lax(Strict(x)) == x` for a lax one |
| `Context.AddMsgsKeepsEarlierParts` | is.go:61-82 | once a format is stored, any number of `AddMsg` steps keep every earlier argument in order, append all new ones, keep the stored format as the prefix, and keep test object and policy |
| `Context.MsgThenAddMsgExample` | is_test.go:179-199 | `Msg("something %s", a).AddMsg("another %s %s", b, c)` has format `"something %s - another %s %s"` and arguments `[a, b, c]` |
| `Failures.FailureLog.Fail` | is_test.go:207-212 | one call appends exactly one record of the context and reason, adds one hit, and aborts the test exactly when the context is strict or it already aborted |
| `Checks.Verdict` | is.go:114-308 | the failure an assertion reports, if any: always one of that assertion's own messages (`Len` has two); `True`/`False` pass exactly on the expected boolean, `Len` exactly on a countable value of the expected length, `EqualType` exactly on equal dynamic types |
| `Checks.PairsAreComplementary` | is.go:114-265 | for any operands exactly one of `Equal`/`NotEqual`, `OneOf`/`NotOneOf`, `Err`/`NotErr`, `Nil`/`NotNil`, `True`/`False`, `Zero`/`NotZero` fails, and pairing is an involution |
| `Checks.OneOfFailsIffNoCandidateMatches` | is.go:145-182 | `OneOf` fails iff no candidate is engine-equal, `NotOneOf` iff some is; with no candidates `OneOf` fails and `NotOneOf` passes |
| `Checks.LenFailsDistinctly` | is.go:271-286 | a nil or non-array/slice/map value fails with the not-countable reason and no length comparison; a countable value fails iff its length differs, reporting want and got; a negative length always fails |
| `Checks.EqualTypeComparesTypesOnly` | is.go:303-308 | `EqualType` fails iff the dynamic types differ, whatever the contents; two nil interfaces pass; nil against a typed value fails |
| `Assertions.Scan` | is.go:147-153 | the early-exit loop returns true iff some candidate is engine-equal to the value |
| `Assertions.Equal` | is.go:114-121 | appends one `ExpectedEqual` failure iff the operands are not engine-equal, nothing otherwise |
| `Assertions.NotEqual` | is.go:129-136 | appends one `ExpectedNotEqual` failure iff the operands are engine-equal |
| `Assertions.OneOf` | is.go:145-159 | appends one `ExpectedOneOf` failure iff no candidate is engine-equal |
| `Assertions.NotOneOf` | is.go:168-182 | appends one `ExpectedNotOneOf` failure iff some candidate is engine-equal |
| `Assertions.Err` | is.go:185-190 | appends one `ExpectedError` failure iff the error is nil |
| `Assertions.NotErr` | is.go:194-199 | appends one `ExpectedNoError` failure iff the error is not nil |
| `Assertions.Nil` | is.go:202-207 | appends one `ExpectedNil` failure iff the value is not nil |
| `Assertions.NotNil` | is.go:210-215 | appends one `ExpectedNotNil` failure iff the value is nil |
| `Assertions.True` | is.go:218-223 | appends one `ExpectedTrue` failure iff the boolean is false |
| `Assertions.False` | is.go:226-231 | appends one `ExpectedFalse` failure iff the boolean is true |
| `Assertions.Zero` | is.go:243-248 | appends one `ExpectedZero` failure iff the value is not zero |
| `Assertions.NotZero` | is.go:260-265 | appends one `ExpectedNotZero` failure iff the value is zero |
| `Assertions.Len` | is.go:271-286 | appends exactly one failure unless the value is a countable array, slice or map of the expected length: `NotCountable` for nil or other kinds, else `WrongLength(want, got)` |
| `Assertions.EqualType` | is.go:303-308 | appends one `ExpectedSameType` failure iff the dynamic types differ |
| `Scenarios.FailingAssertions` | is_test.go:237-260 | the eleven failing calls of the failures test (all but `ShouldPanic`) report eleven failures, in order, with `Len`'s two reasons distinct |
| `Scenarios.MembershipAssertions` | is_test.go:221-235 | of `OneOf(2,1,2,3)`, `OneOf(4,…)`, `NotOneOf(2,…)`, `NotOneOf(4,…)` exactly the second and third fail: the hit count after each call is 0, 1, 2, 2, and the two failures are a `OneOf` then a `NotOneOf` |
| `Scenarios.LaxFailure` | is_test.go:202-219 | a failing `Equal` through `Lax()` is one hit and does not abort the test |
| `Scenarios.PassingAssertions` | is_test.go:138-160 | the passing calls of the main test, including `Len(…, 3)` on a slice, an array and a map, report no failure |

## Left out

- The equality engine `isEqual`, `isNil`, `isZero` and `objectTypeName`/`objectTypeNames`: their definitions are not part of this model; they are the arbitrary functions of `Values.Engine`, and the scenarios state the engine facts they rely on as preconditions.
- Message text: the default messages and their `%v`/`%s` formatting are represented by the `Failures.Reason` tag (with the two numbers `Len` prints); only `AddMsg`'s `"%s - %s"` on two strings is modelled, as concatenation.
- `TB.Helper()` and the host framework's `FailNow`: calls into `testing.TB`; the only effect of `Helper()` kept is its panic on a nil test object, as the precondition `c.tb != NilTB` of every assertion. The default dispatcher `failDefault` is not part of this model; whether a failure would abort is recorded as the context's `strict` flag (`FailureLog.Aborts`), and execution after an abort is not modelled: in the lax test's dispatcher a strict failure calls `t.FailNow()` and never reaches `hit++`, whereas `FailureLog.Fail` always counts the hit.
- `log.Fatalln` on a nil test object in `New`: a process exit, modelled as the precondition `tb != NilTB`.
- `ShouldPanic`: its meaning rests on Go `panic`, `recover` and `defer`; this is why `Scenarios.FailingAssertions` counts eleven hits where the Go test counts twelve.
- `WaitForTrue`: wall-clock timers, `select` on a channel and `time.Sleep`.
- The process-wide reassignment of the `fail` variable: the dispatcher is an explicit `FailureLog` parameter instead of global state.
- Slice aliasing in `AddMsg`: `append(is.failArgs, args...)` writes into the parent's backing array when it has spare capacity. Two `AddMsg` calls on the same parent then write the same slots, and the later child overwrites the arguments of the earlier one, so in Go contexts are not fully value-like. Arguments here are immutable sequences, so each child keeps its own arguments; the model does not capture this overwriting.
- The table-driven `Equal`/`NotEqual`/`Zero`/`NotZero` loops of the main test: their outcome is decided entirely by the equality engine.
