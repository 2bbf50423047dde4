/**
  The hit-counting tests of the library, as clients of the model: each runs
  a sequence of assertions against a fresh log and states what was reported.
  The facts the Go equality engine gives for the operands used are stated as
  preconditions, since the engine is not part of this model.
 */
module Scenarios {
  import opened Values
  import opened Context
  import opened Failures
  import opened Assertions

  const IntType := GoType("int", Other)
  const ZeroInt := Of(IntType, 0, "0")
  const One := Of(IntType, 0, "1")
  const Two := Of(IntType, 0, "2")
  const Three := Of(IntType, 0, "3")
  const Four := Of(IntType, 0, "4")
  /** `errors.New("error")` */
  const SomeError := Of(GoType("*errors.errorString", Other), 0, "error")
  /** `&hit`, a non-nil pointer */
  const HitPointer := Of(GoType("*int", Other), 0, "&hit")
  /** `&testStruct{v: 1}` */
  const StructPointer := Of(GoType("*is.testStruct", Other), 0, "&{1}")
  /** `(*testStruct)(nil)`, a typed nil */
  const NilStructPointer := Of(GoType("*is.testStruct", Other), 0, "nil")
  const EmptyInts := Of(GoType("[]int", Slice), 0, "[]")
  const ThreeInts := Of(GoType("[]int", Slice), 3, "[1 2 3]")
  const ThreeIntArray := Of(GoType("[3]int", Array), 3, "[1 2 3]")
  const ThreeEntryMap := Of(GoType("map[int]int", Map), 3, "map[1:1 2:2 3:3]")

  function Reasons(fs: seq<Failure>): seq<Reason> {
    seq(|fs|, i requires 0 <= i < |fs| => fs[i].reason)
  }

  /** Each of eleven failing assertions calls `fail` once; `Len` reports its two cases apart. */
  method FailingAssertions(eng: Engine, tb: TB) returns (failures: seq<Failure>)
    requires tb != NilTB
    requires eng.isEqual(One, One) && eng.isNil(NilInterface)
    requires !eng.isNil(SomeError) && !eng.isNil(HitPointer)
    requires !eng.isZero(One) && eng.isZero(ZeroInt)
    ensures |failures| == 11
    ensures var c := New(tb);
      failures ==
        [Failure(c, ExpectedNotEqual), Failure(c, ExpectedError), Failure(c, ExpectedNoError),
         Failure(c, ExpectedNil), Failure(c, ExpectedNotNil), Failure(c, ExpectedTrue),
         Failure(c, ExpectedFalse), Failure(c, ExpectedZero), Failure(c, ExpectedNotZero),
         Failure(c, WrongLength(1, 0)), Failure(c, NotCountable(1))]
  {
    var c := New(tb);
    var log := new FailureLog();
    FailEqualityAndNil(c, log, eng);
    FailTruthAndZero(c, log, eng);
    Len(c, log, EmptyInts, 1);
    Len(c, log, NilInterface, 1);
    failures := log.failures;
  }

  method FailEqualityAndNil(c: Is, log: FailureLog, eng: Engine)
    requires c.tb != NilTB
    requires eng.isEqual(One, One) && eng.isNil(NilInterface)
    requires !eng.isNil(SomeError) && !eng.isNil(HitPointer)
    modifies log
    ensures log.failures == old(log.failures) +
      [Failure(c, ExpectedNotEqual), Failure(c, ExpectedError), Failure(c, ExpectedNoError),
       Failure(c, ExpectedNil), Failure(c, ExpectedNotNil)]
  {
    NotEqual(c, log, eng, One, One);
    Err(c, log, eng, NilInterface);
    NotErr(c, log, eng, SomeError);
    Nil(c, log, eng, HitPointer);
    NotNil(c, log, eng, NilInterface);
  }

  method FailTruthAndZero(c: Is, log: FailureLog, eng: Engine)
    requires c.tb != NilTB
    requires !eng.isZero(One) && eng.isZero(ZeroInt)
    modifies log
    ensures log.failures == old(log.failures) +
      [Failure(c, ExpectedTrue), Failure(c, ExpectedFalse), Failure(c, ExpectedZero), Failure(c, ExpectedNotZero)]
  {
    True(c, log, false);
    False(c, log, true);
    Zero(c, log, eng, One);
    NotZero(c, log, eng, ZeroInt);
  }

  /**
    Of `OneOf(2, 1, 2, 3)`, `OneOf(4, 1, 2, 3)`, `NotOneOf(2, 1, 2, 3)` and
    `NotOneOf(4, 1, 2, 3)`, exactly the second and the third fail: the hit
    count after each call is 0, 1, 2, 2.
   */
  method MembershipAssertions(eng: Engine, tb: TB) returns (hitsAfter: seq<nat>, failures: seq<Failure>)
    requires tb != NilTB
    requires eng.isEqual(Two, Two)
    requires !eng.isEqual(Four, One) && !eng.isEqual(Four, Two) && !eng.isEqual(Four, Three)
    ensures hitsAfter == [0, 1, 2, 2]
    ensures Reasons(failures) == [ExpectedOneOf, ExpectedNotOneOf]
  {
    var c := New(tb);
    var log := new FailureLog();
    assert eng.isEqual(Two, [One, Two, Three][1]);
    OneOf(c, log, eng, Two, [One, Two, Three]);
    hitsAfter := [log.Hits()];
    OneOf(c, log, eng, Four, [One, Two, Three]);
    hitsAfter := hitsAfter + [log.Hits()];
    NotOneOf(c, log, eng, Two, [One, Two, Three]);
    hitsAfter := hitsAfter + [log.Hits()];
    NotOneOf(c, log, eng, Four, [One, Two, Three]);
    hitsAfter := hitsAfter + [log.Hits()];
    failures := log.failures;
  }

  /** A failure through a `Lax` context is recorded once and does not abort the test. */
  method LaxFailure(eng: Engine, tb: TB) returns (hits: nat, aborts: bool)
    requires tb != NilTB
    requires !eng.isEqual(One, Two)
    ensures hits == 1 && !aborts
  {
    var log := new FailureLog();
    Equal(Lax(New(tb)), log, eng, One, Two);
    hits, aborts := log.Hits(), log.Aborts();
  }

  /** The assertions that hold report nothing, including `Len` on a slice, an array and a map. */
  method PassingAssertions(eng: Engine, tb: TB) returns (failures: seq<Failure>)
    requires tb != NilTB
    requires eng.isNil(NilInterface) && eng.isNil(NilStructPointer)
    requires !eng.isNil(StructPointer) && !eng.isNil(SomeError)
    requires eng.isZero(NilInterface) && eng.isEqual(One, One)
    requires !eng.isEqual(One, Two) && !eng.isEqual(One, Three)
    ensures failures == []
  {
    var c := New(tb);
    var log := new FailureLog();
    Nil(c, log, eng, NilInterface);
    NotNil(c, log, eng, StructPointer);
    Err(c, log, eng, SomeError);
    NotErr(c, log, eng, NilInterface);
    True(c, log, true);
    False(c, log, false);
    Zero(c, log, eng, NilInterface);
    Nil(c, log, eng, NilStructPointer);
    assert eng.isEqual(One, [Two, Three, One][2]);
    OneOf(c, log, eng, One, [Two, Three, One]);
    NotOneOf(c, log, eng, One, [Two, Three]);
    Len(c, log, ThreeInts, 3);
    Len(c, log, ThreeIntArray, 3);
    Len(c, log, ThreeEntryMap, 3);
    failures := log.failures;
  }
}
