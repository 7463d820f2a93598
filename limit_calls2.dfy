/** The closure-based limiting decorator `LimitCalls2`: the inner
    `forward_func_call` builds a `wrapper` function object whose counter
    lives in its own attribute, while the limit and the logging flag are
    captured from the factory call. */
module LimitCallsClosure {
  import opened CallModel
  import opened Decoration
  import LimitCallsDecorator

  /** The `wrapper` function object built by `forward_func_call`. */
  class ClosureWrapper<A, B> {
    /** The captured function to forward to. */
    const func: A -> B
    /** The captured limit. */
    const maxHits: int
    /** The captured logging flag. */
    const logCalls: bool
    /** The `num_calls` attribute of the function object. */
    var numCalls: nat

    ghost var Calls: seq<A>
    ghost var Outcomes: seq<Outcome<B>>
    ghost var Forwarded: seq<A>
    ghost var Printed: seq<Event<A, B>>

    ghost predicate Valid()
      reads this
    {
      LimiterState(func, maxHits, numCalls, Calls, Outcomes, Forwarded)
    }

    /** `forward_func_call(func)`: build the wrapper and set its counter
        attribute to 0. */
    constructor (func: A -> B, maxHits: int, logCalls: bool)
      ensures Valid()
      ensures this.func == func && this.maxHits == maxHits && this.logCalls == logCalls
      ensures numCalls == 0 && Calls == [] && Printed == []
    {
      this.func, this.maxHits, this.logCalls := func, maxHits, logCalls;
      numCalls := 0;
      Calls, Outcomes, Forwarded, Printed := [], [], [], [];
    }

    /** Call the wrapper: bump the attribute, raise past the captured limit,
        otherwise forward and return the value. */
    method Call(x: A) returns (r: Outcome<B>)
      requires Valid()
      modifies this
      ensures Valid()
      ensures var s := LimitedStep(func, maxHits, logCalls, old(numCalls), x);
              numCalls == s.numCalls && r == s.outcome && Printed == old(Printed) + s.printed
      ensures r.Returned? <==> numCalls <= maxHits
      ensures Calls == old(Calls) + [x] && Outcomes == old(Outcomes) + [r]
      ensures Forwarded == old(Forwarded) + if r.Returned? then [x] else []
    {
      LimiterStatePreserved(func, maxHits, numCalls, logCalls, Calls, Outcomes, Forwarded, x);
      numCalls := numCalls + 1;
      Calls := Calls + [x];
      if numCalls > maxHits {
        r := LimitExceeded(maxHits);
        Outcomes := Outcomes + [r];
        return;
      }
      if logCalls {
        Printed := Printed + [Calling(numCalls, x)];
      }
      var value := func(x);
      Forwarded := Forwarded + [x];
      if logCalls {
        Printed := Printed + [ReturnFrom(numCalls, value)];
      }
      r := Returned(value);
      Outcomes := Outcomes + [r];
    }
  }

  /** `LimitCalls2`: without a function return `forward_func_call` itself,
      with one return `forward_func_call(func)`. The limit and the logging
      flag are keyword-only. */
  function LimitCalls2<A, B>(func: Option<A -> B> := None, nameonly maxHits: int := 3,
                             nameonly logCalls: bool := false): (d: Decorated<A, B>)
    ensures d.Deferred? <==> func.None?
    ensures func.Some? ==> d.args == WrapperArgs(func.value, maxHits, logCalls)
    ensures func.None? ==> d.builder == Builder(maxHits, logCalls)
  {
    var forwardFuncCall := Builder(maxHits, logCalls);
    if func.None? then Deferred(forwardFuncCall)
    else Wrapper(forwardFuncCall.Apply(func.value))
  }

  /** The closure factory and the class factory hand back the same
      construction arguments, for every choice of arguments. This holds by
      construction of `Decorated`, which does not record which of the two
      wrapper classes is built; that the two wrappers then behave alike is
      `LimitersAgree`. */
  lemma LimitCalls2AgreesWithLimitCalls<A, B>(func: Option<A -> B>, maxHits: int, logCalls: bool)
    ensures LimitCalls2(func, maxHits := maxHits, logCalls := logCalls)
         == LimitCallsDecorator.LimitCalls(func, maxHits, logCalls)
  {
  }

  /** `LimitCalls2(f)` is `LimitCalls2()(f)`, and the defaults are a limit of
      3 without logging. */
  lemma LimitCalls2DirectIsDeferred<A, B>(f: A -> B)
    ensures LimitCalls2<A, B>().Deferred?
    ensures LimitCalls2(Some(f)) == Wrapper(LimitCalls2<A, B>().builder.Apply(f))
    ensures LimitCalls2(Some(f)) == Wrapper(WrapperArgs(f, 3, false))
  {
  }

  /** A `_LimitCalls` object and a LimitCalls2 `wrapper`, built from the
      same arguments and called with the same arguments, hand back the same
      outcomes, namely those of `Run`. */
  method LimitersAgree<A, B>(func: A -> B, maxHits: int, logCalls: bool, xs: seq<A>)
    returns (classOutcomes: seq<Outcome<B>>, closureOutcomes: seq<Outcome<B>>)
    ensures classOutcomes == closureOutcomes == Run(func, maxHits, xs)
  {
    var byClass := new LimitCallsDecorator.LimitCallsWrapper(func, maxHits, logCalls);
    var byClosure := new ClosureWrapper(func, maxHits, logCalls);
    classOutcomes, closureOutcomes := [], [];
    for i := 0 to |xs|
      invariant byClass.Valid() && byClass.func == func && byClass.maxHits == maxHits
      invariant byClosure.Valid() && byClosure.func == func && byClosure.maxHits == maxHits
      invariant byClass.Calls == byClosure.Calls == xs[..i]
      invariant classOutcomes == byClass.Outcomes && closureOutcomes == byClosure.Outcomes
    {
      var r := byClass.Call(xs[i]);
      var q := byClosure.Call(xs[i]);
      classOutcomes, closureOutcomes := classOutcomes + [r], closureOutcomes + [q];
      assert xs[..i + 1] == xs[..i] + [xs[i]];
    }
    assert xs[..|xs|] == xs;
  }

  function DecThreeFromMe(argNum: int): int { argNum - 1 }

  function DecMe(argNum: int): int { argNum - 1 }

  /** `@LimitCalls2` on `dec_three_from_me`, called for idx = 1 .. 4: the
      default limit of 3 makes the fourth call raise. */
  method DecThreeFromMeScript() returns (outcomes: seq<Outcome<int>>)
    ensures outcomes == [Returned(0), Returned(1), Returned(2), LimitExceeded(3)]
  {
    var args := LimitCalls2(Some(DecThreeFromMe)).args;
    var decThreeFromMe := new ClosureWrapper(args.func, args.maxHits, args.logCalls);
    outcomes := [];
    for idx := 1 to 5
      invariant decThreeFromMe.Valid() && decThreeFromMe.func == DecThreeFromMe && decThreeFromMe.maxHits == 3
      invariant decThreeFromMe.numCalls == idx - 1 == |outcomes|
      invariant forall k :: 0 <= k < |outcomes| ==>
                  outcomes[k] == if k < 3 then Returned(DecThreeFromMe(k + 1)) else LimitExceeded(3)
    {
      var r := decThreeFromMe.Call(idx);
      outcomes := outcomes + [r];
    }
  }

  /** `@LimitCalls2(max_hits=2, log_calls=True)` on `dec_me`, called for
      idx = 1 .. 3: the third call raises. */
  method DecMeScript() returns (outcomes: seq<Outcome<int>>)
    ensures outcomes == [Returned(0), Returned(1), LimitExceeded(2)]
  {
    var args := LimitCalls2<int, int>(maxHits := 2, logCalls := true).builder.Apply(DecMe);
    var decMe := new ClosureWrapper(args.func, args.maxHits, args.logCalls);
    outcomes := [];
    for idx := 1 to 4
      invariant decMe.Valid() && decMe.func == DecMe && decMe.maxHits == 2
      invariant decMe.numCalls == idx - 1 == |outcomes|
      invariant forall k :: 0 <= k < |outcomes| ==>
                  outcomes[k] == if k < 2 then Returned(DecMe(k + 1)) else LimitExceeded(2)
    {
      var r := decMe.Call(idx);
      outcomes := outcomes + [r];
    }
  }
}
