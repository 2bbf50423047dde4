/**
  The assertion context `Is` and its chaining operations. Every operation
  builds a new context from the receiver's fields. Here a context is a value
  and its arguments an immutable sequence; the Go slice that `AddMsg` appends
  to may be shared between contexts (see README, "Left out").
 */
module Context {
  import opened Values

  /** The context: host test object, abort-on-failure flag, custom failure message. */
  datatype Is = Is(tb: TB, strict: bool, failFormat: string, failArgs: seq<Value>)

  /** The text `AddMsg` puts between the stored format and the added one. */
  const Separator: string := " - "

  /** Package-level `New`: a strict context with no message; a nil TB is fatal. */
  function New(tb: TB): (r: Is)
    requires tb != NilTB
    ensures r.tb == tb && r.strict
    ensures r.failFormat == "" && r.failArgs == []
  {
    Is(tb, true, "", [])
  }

  /** `(*Is).New`: the same configuration bound to another test object (unchecked). */
  function Rebind(c: Is, tb: TB): (r: Is)
    ensures r.tb == tb
    ensures r.strict == c.strict && r.failFormat == c.failFormat && r.failArgs == c.failArgs
    ensures tb == c.tb ==> r == c
  {
    c.(tb := tb)
  }

  /** `Msg`: replace the failure message, keeping the test object and the policy. */
  function Msg(c: Is, format: string, args: seq<Value>): (r: Is)
    ensures r.failFormat == format && r.failArgs == args
    ensures r.tb == c.tb && r.strict == c.strict
  {
    Is(c.tb, c.strict, format, args)
  }

  /**
    `AddMsg`: with no stored format it is `Msg` (stored arguments are dropped);
    otherwise the formats are joined by `Separator` and the arguments appended.
   */
  function AddMsg(c: Is, format: string, args: seq<Value>): (r: Is)
    ensures r.tb == c.tb && r.strict == c.strict
    ensures c.failFormat == "" ==> r.failFormat == format && r.failArgs == args
    ensures c.failFormat != "" ==>
              r.failFormat == c.failFormat + Separator + format && r.failArgs == c.failArgs + args
    ensures |r.failFormat| >= |format| && r.failFormat[|r.failFormat| - |format|..] == format
    ensures |r.failArgs| >= |args| && r.failArgs[|r.failArgs| - |args|..] == args
  {
    if c.failFormat == "" then
      Msg(c, format, args)
    else
      Is(c.tb, c.strict, c.failFormat + Separator + format, c.failArgs + args)
  }

  /** `Lax`: failures are reported and the test continues. */
  function Lax(c: Is): (r: Is)
    ensures !r.strict
    ensures r.tb == c.tb && r.failFormat == c.failFormat && r.failArgs == c.failArgs
  {
    c.(strict := false)
  }

  /** `Strict`: the first failure aborts the test. */
  function Strict(c: Is): (r: Is)
    ensures r.strict
    ensures r.tb == c.tb && r.failFormat == c.failFormat && r.failArgs == c.failArgs
  {
    c.(strict := true)
  }

  lemma AddMsgOnEmptyIsMsg(c: Is, format: string, args: seq<Value>)
    requires c.failFormat == ""
    ensures AddMsg(c, format, args) == Msg(c, format, args)
  {
  }

  lemma LaxIdempotent(c: Is)
    ensures Lax(Lax(c)) == Lax(c)
  {
  }

  lemma StrictIdempotent(c: Is)
    ensures Strict(Strict(c)) == Strict(c)
  {
  }

  /** `Strict` reverses `Lax` on a strict context, and `Lax` reverses `Strict` on a lax one. */
  lemma StrictUndoesLax(c: Is)
    ensures c.strict ==> Strict(Lax(c)) == c
    ensures !c.strict ==> Lax(Strict(c)) == c
  {
  }

  /** A message part added by `AddMsg`: a format with its arguments. */
  datatype Part = Part(format: string, args: seq<Value>)

  /** The context after adding each part in turn with `AddMsg`. */
  function AddMsgs(c: Is, parts: seq<Part>): Is
    decreases |parts|
  {
    if parts == [] then c else AddMsgs(AddMsg(c, parts[0].format, parts[0].args), parts[1..])
  }

  /** The arguments of all parts, in order. */
  function AllArgs(parts: seq<Part>): seq<Value>
    decreases |parts|
  {
    if parts == [] then [] else parts[0].args + AllArgs(parts[1..])
  }

  /**
    Building a message in steps: once a format is stored, no later `AddMsg`
    drops an argument, and the stored format stays the start of the message.
   */
  lemma {:induction false} AddMsgsKeepsEarlierParts(c: Is, parts: seq<Part>)
    requires c.failFormat != ""
    ensures AddMsgs(c, parts).failArgs == c.failArgs + AllArgs(parts)
    ensures |c.failFormat| <= |AddMsgs(c, parts).failFormat|
    ensures AddMsgs(c, parts).failFormat[..|c.failFormat|] == c.failFormat
    ensures AddMsgs(c, parts).tb == c.tb && AddMsgs(c, parts).strict == c.strict
    decreases |parts|
  {
    if parts != [] {
      var next := AddMsg(c, parts[0].format, parts[0].args);
      AddMsgsKeepsEarlierParts(next, parts[1..]);
      assert next.failFormat[..|c.failFormat|] == c.failFormat;
      calc {
        AddMsgs(c, parts).failArgs;
        next.failArgs + AllArgs(parts[1..]);
        (c.failArgs + parts[0].args) + AllArgs(parts[1..]);
        c.failArgs + AllArgs(parts);
      }
    }
  }

  /** The chain `Msg("something %s", "else").AddMsg("another %s %s", "couple", "things")`. */
  lemma MsgThenAddMsgExample(tb: TB, strict: bool, else_: Value, couple: Value, things: Value)
    ensures var c := AddMsg(Msg(Is(tb, strict, "", []), "something %s", [else_]),
                            "another %s %s", [couple, things]);
            c.failFormat == "something %s - another %s %s" && c.failArgs == [else_, couple, things]
  {
  }
}
