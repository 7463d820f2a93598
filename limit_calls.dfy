/** The class-based limiting decorator: the `_LimitCalls` callable object
    and the `LimitCalls` factory that builds it, either at once or through a
    one-argument builder. */
module LimitCallsDecorator {
  import opened CallModel
  import opened Decoration

  /** `_LimitCalls`: counts every call, rejects every call whose number
      exceeds `maxHits` and forwards the others. */
  class LimitCallsWrapper<A, B> {
    /** The wrapped function. */
    const func: A -> B
    /** The largest call number that is still forwarded. */
    const maxHits: int
    /** Whether forwarded calls are logged. */
    const logCalls: bool
    /** The number of calls so far, rejected ones included. */
    var numCalls: nat

    /** Every argument this wrapper was called with, in order. */
    ghost var Calls: seq<A>
    /** What each of those calls handed back. */
    ghost var Outcomes: seq<Outcome<B>>
    /** Every argument passed on to `func`, in order. */
    ghost var Forwarded: seq<A>
    /** What the wrapper has written to standard output. */
    ghost var Printed: seq<Event<A, B>>

    ghost predicate Valid()
      reads this
    {
      LimiterState(func, maxHits, numCalls, Calls, Outcomes, Forwarded)
    }

    constructor (func: A -> B, maxHits: int, logCalls: bool)
      ensures Valid()
      ensures this.func == func && this.maxHits == maxHits && this.logCalls == logCalls
      ensures numCalls == 0 && Calls == [] && Printed == []
    {
      this.func, this.maxHits, this.logCalls := func, maxHits, logCalls;
      numCalls := 0;
      Calls, Outcomes, Forwarded, Printed := [], [], [], [];
    }

    /** Intercept one call. The counter goes up before the check, so a
        rejected call is counted too; a rejected call never reaches `func`. */
    method Call(x: A) returns (r: Outcome<B>)
      requires Valid()
      modifies this
      ensures Valid()
      ensures var s := LimitedStep(func, maxHits, logCalls, old(numCalls), x);
              numCalls == s.numCalls && r == s.outcome && Printed == old(Printed) + s.printed
      ensures r.Returned? <==> numCalls <= maxHits
      ensures Calls == old(Calls) + [x] && Outcomes == old(Outcomes) + [r]
      ensures Forwarded == old(Forwarded) + if r.Returned? then [x] else []
    {
      LimiterStatePreserved(func, maxHits, numCalls, logCalls, Calls, Outcomes, Forwarded, x);
      numCalls := numCalls + 1;
      Calls := Calls + [x];
      if numCalls > maxHits {
        r := LimitExceeded(maxHits);
        Outcomes := Outcomes + [r];
        return;
      }
      if logCalls {
        Printed := Printed + [Calling(numCalls, x)];
      }
      var value := func(x);
      Forwarded := Forwarded + [x];
      if logCalls {
        Printed := Printed + [ReturnFrom(numCalls, value)];
      }
      r := Returned(value);
      Outcomes := Outcomes + [r];
    }
  }

  /** `LimitCalls`: given the function, build the wrapper at once; without
      it, return the builder that captures `maxHits` and `logCalls`. */
  function LimitCalls<A, B>(func: Option<A -> B> := None, maxHits: int := 3, logCalls: bool := false): (d: Decorated<A, B>)
    ensures d.Wrapper? <==> func.Some?
    ensures func.Some? ==> d.args.func == func.value
    ensures d.Wrapper? ==> d.args.maxHits == maxHits && d.args.logCalls == logCalls
    ensures d.Deferred? ==> d.builder.maxHits == maxHits && d.builder.logCalls == logCalls
  {
    if func.Some? then Wrapper(WrapperArgs(func.value, maxHits, logCalls))
    else
      var wrapper := Builder(maxHits, logCalls);
      Deferred(wrapper)
  }

  /** Decorating directly and decorating through the builder give the same
      wrapper. */
  lemma LimitCallsDirectIsDeferred<A, B>(f: A -> B, maxHits: int, logCalls: bool)
    ensures LimitCalls<A, B>(None, maxHits, logCalls).Deferred?
    ensures LimitCalls(Some(f), maxHits, logCalls) == Wrapper(LimitCalls<A, B>(None, maxHits, logCalls).builder.Apply(f))
  {
  }

  /** Without decorator arguments the limit is 3 and nothing is logged. */
  lemma LimitCallsDefaults<A, B>(f: A -> B)
    ensures LimitCalls(Some(f)) == Wrapper(WrapperArgs(f, 3, false))
    ensures LimitCalls<A, B>() == Deferred(Builder(3, false))
  {
  }

  function SquareMe(argNum: int): int { argNum * argNum }

  function CubeMe(argNum: int): int { argNum * argNum * argNum }

  /** `@LimitCalls` on `square_me`, called for idx = 1, 2, 3 with idx + 1, as
      written: all three calls are within the default limit of 3, and the
      loop ends before the `idx == 4` check, so that check is never made
      (`checked` stays false). */
  method SquareMeScript() returns (outcomes: seq<Outcome<int>>, checked: bool)
    ensures outcomes == [Returned(4), Returned(9), Returned(16)]
    ensures !checked
  {
    var args := LimitCalls(Some(SquareMe)).args;
    var squareMe := new LimitCallsWrapper(args.func, args.maxHits, args.logCalls);
    outcomes, checked := [], false;
    for idx := 1 to 4
      invariant squareMe.Valid() && squareMe.func == SquareMe && squareMe.maxHits == 3
      invariant squareMe.numCalls == idx - 1 == |outcomes|
      invariant forall k :: 0 <= k < |outcomes| ==> outcomes[k] == Returned(SquareMe(k + 2))
      invariant !checked
    {
      var r := squareMe.Call(idx + 1);
      outcomes := outcomes + [r];
      if idx == 4 {
        checked := true;
      }
    }
  }

  /** The same script with the loop running to idx = 4, as the check at its
      end evidently intends: the fourth call raises and the check is made. */
  method SquareMeScriptToFourth() returns (outcomes: seq<Outcome<int>>, checked: bool)
    ensures outcomes == [Returned(4), Returned(9), Returned(16), LimitExceeded(3)]
    ensures checked
  {
    var args := LimitCalls(Some(SquareMe)).args;
    var squareMe := new LimitCallsWrapper(args.func, args.maxHits, args.logCalls);
    outcomes, checked := [], false;
    for idx := 1 to 5
      invariant squareMe.Valid() && squareMe.func == SquareMe && squareMe.maxHits == 3
      invariant squareMe.numCalls == idx - 1 == |outcomes|
      invariant forall k :: 0 <= k < |outcomes| ==>
                  outcomes[k] == if k < 3 then Returned(SquareMe(k + 2)) else LimitExceeded(3)
      invariant checked <==> idx == 5
    {
      var r := squareMe.Call(idx + 1);
      outcomes := outcomes + [r];
      var gotValueError := r.LimitExceeded?;
      if idx == 4 {
        assert gotValueError;
        checked := true;
      }
    }
  }

  /** `@LimitCalls(max_hits=4, log_calls=True)` on `cube_me`, called for
      idx = 1 .. 5 with idx + 1: the fifth call raises. */
  method CubeMeScript() returns (outcomes: seq<Outcome<int>>)
    ensures outcomes == [Returned(8), Returned(27), Returned(64), Returned(125), LimitExceeded(4)]
  {
    var args := LimitCalls<int, int>(maxHits := 4, logCalls := true).builder.Apply(CubeMe);
    var cubeMe := new LimitCallsWrapper(args.func, args.maxHits, args.logCalls);
    outcomes := [];
    for idx := 1 to 6
      invariant cubeMe.Valid() && cubeMe.func == CubeMe && cubeMe.maxHits == 4
      invariant cubeMe.numCalls == idx - 1 == |outcomes|
      invariant forall k :: 0 <= k < |outcomes| ==>
                  outcomes[k] == if k < 4 then Returned(CubeMe(k + 2)) else LimitExceeded(4)
    {
      var r := cubeMe.Call(idx + 1);
      outcomes := outcomes + [r];
    }
  }
}
