/**
  When each assertion calls `fail`, as a pure function of its operands:
  `Verdict` gives the failure an assertion reports, or `None` when it passes.
 */
module Checks {
  import opened Values
  import opened Failures

  /** One assertion call with its operands. */
  datatype Check =
    | Equal(actual: Value, expected: Value)
    | NotEqual(a: Value, b: Value)
    | OneOf(a: Value, bs: seq<Value>)
    | NotOneOf(a: Value, bs: seq<Value>)
    | Err(e: Value)
    | NotErr(e: Value)
    | Nil(o: Value)
    | NotNil(o: Value)
    | True(cond: bool)
    | False(cond: bool)
    | Zero(o: Value)
    | NotZero(o: Value)
    | Len(o: Value, l: int)
    | EqualType(expected: Value, actual: Value)

  /** Some candidate is equal to `a` under the engine. */
  predicate Matches(eng: Engine, a: Value, bs: seq<Value>) {
    exists j :: 0 <= j < |bs| && eng.isEqual(a, bs[j])
  }

  /** The assertions whose outcome the equality engine decides. */
  predicate NeedsEngine(check: Check) {
    !(check.True? || check.False? || check.Len? || check.EqualType?)
  }

  /** The failure, if any, of an assertion that does not consult the engine. */
  function Plain(check: Check): Option<Reason>
    requires !NeedsEngine(check)
  {
    match check
    case True(b) => if b then None else Some(ExpectedTrue)
    case False(b) => if b then Some(ExpectedFalse) else None
    case Len(o, l) =>
      if !Countable(o) then Some(NotCountable(l))
      else if o.len != l then Some(WrongLength(l, o.len))
      else None
    case EqualType(expected, actual) => if TypeOf(expected) != TypeOf(actual) then Some(ExpectedSameType) else None
  }

  /** The messages an assertion can send: its own, and for `Len` its two. */
  predicate OwnMessage(check: Check, reason: Reason) {
    match check
    case Equal(_, _) => reason == ExpectedEqual
    case NotEqual(_, _) => reason == ExpectedNotEqual
    case OneOf(_, _) => reason == ExpectedOneOf
    case NotOneOf(_, _) => reason == ExpectedNotOneOf
    case Err(_) => reason == ExpectedError
    case NotErr(_) => reason == ExpectedNoError
    case Nil(_) => reason == ExpectedNil
    case NotNil(_) => reason == ExpectedNotNil
    case True(_) => reason == ExpectedTrue
    case False(_) => reason == ExpectedFalse
    case Zero(_) => reason == ExpectedZero
    case NotZero(_) => reason == ExpectedNotZero
    case Len(o, l) => reason == NotCountable(l) || (o.Of? && reason == WrongLength(l, o.len))
    case EqualType(_, _) => reason == ExpectedSameType
  }

  /** The failure, if any, that an assertion reports to `fail`. */
  function Verdict(eng: Engine, check: Check): (r: Option<Reason>)
    ensures r.Some? ==> OwnMessage(check, r.value)
    ensures check.True? ==> (r.None? <==> check.cond)
    ensures check.False? ==> (r.None? <==> !check.cond)
    ensures check.Len? ==> (r.None? <==> Countable(check.o) && check.o.len == check.l)
    ensures check.EqualType? ==> (r.None? <==> TypeOf(check.expected) == TypeOf(check.actual))
  {
    match check
    case Equal(actual, expected) => if eng.isEqual(actual, expected) then None else Some(ExpectedEqual)
    case NotEqual(a, b) => if eng.isEqual(a, b) then Some(ExpectedNotEqual) else None
    case OneOf(a, bs) => if Matches(eng, a, bs) then None else Some(ExpectedOneOf)
    case NotOneOf(a, bs) => if Matches(eng, a, bs) then Some(ExpectedNotOneOf) else None
    case Err(e) => if eng.isNil(e) then Some(ExpectedError) else None
    case NotErr(e) => if eng.isNil(e) then None else Some(ExpectedNoError)
    case Nil(o) => if eng.isNil(o) then None else Some(ExpectedNil)
    case NotNil(o) => if eng.isNil(o) then Some(ExpectedNotNil) else None
    case Zero(o) => if eng.isZero(o) then None else Some(ExpectedZero)
    case NotZero(o) => if eng.isZero(o) then Some(ExpectedNotZero) else None
    case _ => Plain(check)
  }

  /** The assertions that come in pairs with opposite conditions. */
  predicate Paired(check: Check) {
    !check.Len? && !check.EqualType?
  }

  /** The other member of a pair, on the same operands. */
  function Dual(check: Check): (d: Check)
    requires Paired(check)
    ensures Paired(d)
  {
    match check
    case Equal(a, b) => NotEqual(a, b)
    case NotEqual(a, b) => Equal(a, b)
    case OneOf(a, bs) => NotOneOf(a, bs)
    case NotOneOf(a, bs) => OneOf(a, bs)
    case Err(e) => NotErr(e)
    case NotErr(e) => Err(e)
    case Nil(o) => NotNil(o)
    case NotNil(o) => Nil(o)
    case True(b) => False(b)
    case False(b) => True(b)
    case Zero(o) => NotZero(o)
    case NotZero(o) => Zero(o)
  }

  /** For any operands, exactly one assertion of each pair fails. */
  lemma PairsAreComplementary(eng: Engine, check: Check)
    requires Paired(check)
    ensures Verdict(eng, check).Some? != Verdict(eng, Dual(check)).Some?
    ensures Dual(Dual(check)) == check
  {
  }

  /** `OneOf` fails iff no candidate is equal, so it always fails with no candidates. */
  lemma OneOfFailsIffNoCandidateMatches(eng: Engine, a: Value, bs: seq<Value>)
    ensures Verdict(eng, OneOf(a, bs)).Some? <==> forall j :: 0 <= j < |bs| ==> !eng.isEqual(a, bs[j])
    ensures Verdict(eng, NotOneOf(a, bs)).Some? <==> exists j :: 0 <= j < |bs| && eng.isEqual(a, bs[j])
    ensures bs == [] ==> Verdict(eng, OneOf(a, bs)) == Some(ExpectedOneOf) && Verdict(eng, NotOneOf(a, bs)) == None
  {
  }

  /**
    `Len` reports a nil or uncountable value with its own reason and compares
    no length; a countable value fails iff its length differs.
   */
  lemma LenFailsDistinctly(eng: Engine, o: Value, l: int)
    ensures !Countable(o) ==> Verdict(eng, Len(o, l)) == Some(NotCountable(l))
    ensures o == NilInterface ==> Verdict(eng, Len(o, l)) == Some(NotCountable(l))
    ensures Countable(o) ==> (Verdict(eng, Len(o, l)).Some? <==> o.len != l)
    ensures Countable(o) && o.len != l ==> Verdict(eng, Len(o, l)) == Some(WrongLength(l, o.len))
    ensures l < 0 ==> Verdict(eng, Len(o, l)).Some?
  {
  }

  /** `EqualType` looks only at dynamic types: contents and lengths never matter. */
  lemma EqualTypeComparesTypesOnly(eng: Engine, t: GoType, u: GoType, n: nat, m: nat, x: string, y: string)
    ensures Verdict(eng, EqualType(Of(t, n, x), Of(u, m, y))).Some? <==> t != u
    ensures Verdict(eng, EqualType(NilInterface, NilInterface)) == None
    ensures Verdict(eng, EqualType(NilInterface, Of(t, n, x))).Some?
  {
  }
}

/**
  The assertion methods. Each may call `fail` (here `log.Fail`) at most once,
  exactly when `Verdict` says so, and changes nothing else. Each first calls
  `Helper()` on the context's test object, which panics on a nil one: hence
  the precondition `c.tb != NilTB`.
 */
module Assertions {
  import opened Values
  import opened Context
  import opened Failures
  import opened Checks

  /** The loop shared by `OneOf` and `NotOneOf`: stop at the first equal candidate. */
  method Scan(eng: Engine, a: Value, bs: seq<Value>) returns (result: bool)
    ensures result <==> Matches(eng, a, bs)
  {
    result := false;
    var i := 0;
    while i < |bs|
      invariant 0 <= i <= |bs|
      invariant !result
      invariant forall j :: 0 <= j < i ==> !eng.isEqual(a, bs[j])
    {
      result := eng.isEqual(a, bs[i]);
      if result {
        break;
      }
      i := i + 1;
    }
  }

  method Equal(c: Is, log: FailureLog, eng: Engine, actual: Value, expected: Value)
    requires c.tb != NilTB
    modifies log
    ensures log.failures == old(log.failures) + Report(c, Verdict(eng, Checks.Equal(actual, expected)))
    ensures log.Hits() == old(log.Hits()) + if eng.isEqual(actual, expected) then 0 else 1
  {
    if !eng.isEqual(actual, expected) {
      log.Fail(c, ExpectedEqual);
    }
  }

  method NotEqual(c: Is, log: FailureLog, eng: Engine, a: Value, b: Value)
    requires c.tb != NilTB
    modifies log
    ensures log.failures == old(log.failures) + Report(c, Verdict(eng, Checks.NotEqual(a, b)))
    ensures log.Hits() == old(log.Hits()) + if eng.isEqual(a, b) then 1 else 0
  {
    if eng.isEqual(a, b) {
      log.Fail(c, ExpectedNotEqual);
    }
  }

  method OneOf(c: Is, log: FailureLog, eng: Engine, a: Value, bs: seq<Value>)
    requires c.tb != NilTB
    modifies log
    ensures log.failures == old(log.failures) + Report(c, Verdict(eng, Checks.OneOf(a, bs)))
    ensures log.Hits() == old(log.Hits()) + if exists j :: 0 <= j < |bs| && eng.isEqual(a, bs[j]) then 0 else 1
  {
    var result := Scan(eng, a, bs);
    if !result {
      log.Fail(c, ExpectedOneOf);
    }
  }

  method NotOneOf(c: Is, log: FailureLog, eng: Engine, a: Value, bs: seq<Value>)
    requires c.tb != NilTB
    modifies log
    ensures log.failures == old(log.failures) + Report(c, Verdict(eng, Checks.NotOneOf(a, bs)))
    ensures log.Hits() == old(log.Hits()) + if exists j :: 0 <= j < |bs| && eng.isEqual(a, bs[j]) then 1 else 0
  {
    var result := Scan(eng, a, bs);
    if result {
      log.Fail(c, ExpectedNotOneOf);
    }
  }

  method Err(c: Is, log: FailureLog, eng: Engine, e: Value)
    requires c.tb != NilTB
    modifies log
    ensures log.failures == old(log.failures) + Report(c, Verdict(eng, Checks.Err(e)))
    ensures log.Hits() == old(log.Hits()) + if eng.isNil(e) then 1 else 0
  {
    if eng.isNil(e) {
      log.Fail(c, ExpectedError);
    }
  }

  method NotErr(c: Is, log: FailureLog, eng: Engine, e: Value)
    requires c.tb != NilTB
    modifies log
    ensures log.failures == old(log.failures) + Report(c, Verdict(eng, Checks.NotErr(e)))
    ensures log.Hits() == old(log.Hits()) + if eng.isNil(e) then 0 else 1
  {
    if !eng.isNil(e) {
      log.Fail(c, ExpectedNoError);
    }
  }

  method Nil(c: Is, log: FailureLog, eng: Engine, o: Value)
    requires c.tb != NilTB
    modifies log
    ensures log.failures == old(log.failures) + Report(c, Verdict(eng, Checks.Nil(o)))
    ensures log.Hits() == old(log.Hits()) + if eng.isNil(o) then 0 else 1
  {
    if !eng.isNil(o) {
      log.Fail(c, ExpectedNil);
    }
  }

  method NotNil(c: Is, log: FailureLog, eng: Engine, o: Value)
    requires c.tb != NilTB
    modifies log
    ensures log.failures == old(log.failures) + Report(c, Verdict(eng, Checks.NotNil(o)))
    ensures log.Hits() == old(log.Hits()) + if eng.isNil(o) then 1 else 0
  {
    if eng.isNil(o) {
      log.Fail(c, ExpectedNotNil);
    }
  }

  method True(c: Is, log: FailureLog, b: bool)
    requires c.tb != NilTB
    modifies log
    ensures log.failures == old(log.failures) + Report(c, Plain(Checks.True(b)))
    ensures log.Hits() == old(log.Hits()) + if b then 0 else 1
  {
    if !b {
      log.Fail(c, ExpectedTrue);
    }
  }

  method False(c: Is, log: FailureLog, b: bool)
    requires c.tb != NilTB
    modifies log
    ensures log.failures == old(log.failures) + Report(c, Plain(Checks.False(b)))
    ensures log.Hits() == old(log.Hits()) + if b then 1 else 0
  {
    if b {
      log.Fail(c, ExpectedFalse);
    }
  }

  method Zero(c: Is, log: FailureLog, eng: Engine, o: Value)
    requires c.tb != NilTB
    modifies log
    ensures log.failures == old(log.failures) + Report(c, Verdict(eng, Checks.Zero(o)))
    ensures log.Hits() == old(log.Hits()) + if eng.isZero(o) then 0 else 1
  {
    if !eng.isZero(o) {
      log.Fail(c, ExpectedZero);
    }
  }

  method NotZero(c: Is, log: FailureLog, eng: Engine, o: Value)
    requires c.tb != NilTB
    modifies log
    ensures log.failures == old(log.failures) + Report(c, Verdict(eng, Checks.NotZero(o)))
    ensures log.Hits() == old(log.Hits()) + if eng.isZero(o) then 1 else 0
  {
    if eng.isZero(o) {
      log.Fail(c, ExpectedNotZero);
    }
  }

  method Len(c: Is, log: FailureLog, o: Value, l: int)
    requires c.tb != NilTB
    modifies log
    ensures log.failures == old(log.failures) + Report(c, Plain(Checks.Len(o, l)))
    ensures log.Hits() == old(log.Hits()) + if Countable(o) && o.len == l then 0 else 1
  {
    if o == NilInterface || (o.typ.kind != Array && o.typ.kind != Slice && o.typ.kind != Map) {
      log.Fail(c, NotCountable(l));
      return;
    }
    var rLen := o.len;
    if rLen != l {
      log.Fail(c, WrongLength(l, rLen));
    }
  }

  method EqualType(c: Is, log: FailureLog, expected: Value, actual: Value)
    requires c.tb != NilTB
    modifies log
    ensures log.failures == old(log.failures) + Report(c, Plain(Checks.EqualType(expected, actual)))
    ensures log.Hits() == old(log.Hits()) + if TypeOf(expected) == TypeOf(actual) then 0 else 1
  {
    if TypeOf(expected) != TypeOf(actual) {
      log.Fail(c, ExpectedSameType);
    }
  }
}
