/** The `CountCalls` decorator class: a callable object that counts its
    invocations, logs each one and always forwards to the wrapped function. */
module CountCallsDecorator {
  import opened CallModel

  class CountCalls<A, B> {
    /** The wrapped function. */
    const func: A -> B
    /** The number of calls so far. */
    var numCalls: nat

    /** Every argument this wrapper was called with, in order. */
    ghost var Calls: seq<A>
    /** Every argument passed on to `func`, in order. */
    ghost var Forwarded: seq<A>
    /** What the wrapper has written to standard output. */
    ghost var Printed: seq<Event<A, B>>

    ghost predicate Valid()
      reads this
    {
      numCalls == |Calls| && Forwarded == Calls
    }

    constructor (func: A -> B)
      ensures Valid()
      ensures this.func == func && numCalls == 0
      ensures Calls == [] && Printed == []
    {
      this.func := func;
      numCalls := 0;
      Calls, Forwarded, Printed := [], [], [];
    }

    /** Intercept one call: count it, log it, forward it, log the result and
        hand the result back unchanged. */
    method Call(x: A) returns (r: B)
      requires Valid()
      modifies this
      ensures Valid()
      ensures r == func(x)
      ensures numCalls == old(numCalls) + 1
      ensures Calls == old(Calls) + [x] && Forwarded == old(Forwarded) + [x]
      ensures Printed == old(Printed) + CountingStep(func, old(numCalls), x).printed
    {
      numCalls := numCalls + 1;
      Calls := Calls + [x];
      Printed := Printed + [Calling(numCalls, x)];
      var retVal := func(x);
      Forwarded := Forwarded + [x];
      Printed := Printed + [ReturnFrom(numCalls, retVal)];
      r := retVal;
    }
  }

  function IncMe(numberArgument: int): int { numberArgument + 1 }

  /** `inc_me(inc_me(1))` on a counted `inc_me`: the nested calls give 3 and
      leave the counter at 2. */
  method IncMeScript() returns (value: int, numCalls: nat)
    ensures value == 3 && numCalls == 2
  {
    var incMe := new CountCalls(IncMe);
    var inner := incMe.Call(1);
    value := incMe.Call(inner);
    numCalls := incMe.numCalls;
  }
}
