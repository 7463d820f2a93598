/** The behaviour shared by the call-counting and call-limiting decorators,
    stated on values: what one intercepted call does to the counter, what it
    returns or raises and what it logs, and what a whole sequence of calls
    on a freshly built wrapper produces. The classes in the other modules are
    proved against these definitions. */
module CallModel {

  datatype Option<T> = None | Some(value: T)

  /** What an intercepted call hands back to its caller: the wrapped
      function's value, or the ValueError that reports the exceeded limit. */
  datatype Outcome<B> = Returned(value: B) | LimitExceeded(limit: int)

  /** One line a wrapper writes to standard output. */
  datatype Event<A, B> = Calling(callNo: nat, arg: A) | ReturnFrom(callNo: nat, result: B)

  /** The effect of one intercepted call: the new counter, the outcome and
      the lines printed along the way. */
  datatype Step<A, B> = Step(numCalls: nat, outcome: Outcome<B>, printed: seq<Event<A, B>>)

  /** One call of a limiting wrapper whose counter stood at `numCalls`: the
      counter goes up first, a call whose new number exceeds `maxHits` is
      rejected without reaching `f`, and `logCalls` only guards the prints. */
  function LimitedStep<A, B>(f: A -> B, maxHits: int, logCalls: bool, numCalls: nat, x: A): (s: Step<A, B>)
    ensures s.numCalls == numCalls + 1
    ensures s.outcome.Returned? <==> s.numCalls <= maxHits
    ensures s.outcome.Returned? ==> s.outcome.value == f(x)
    ensures s.outcome.LimitExceeded? ==> s.outcome.limit == maxHits && s.printed == []
    ensures !logCalls ==> s.printed == []
  {
    var n := numCalls + 1;
    if n > maxHits then
      Step(n, LimitExceeded(maxHits), [])
    else
      var value := f(x);
      Step(n, Returned(value), if logCalls then [Calling(n, x), ReturnFrom(n, value)] else [])
  }

  /** One call of the counting wrapper: always forwarded, always logged. */
  function CountingStep<A, B>(f: A -> B, numCalls: nat, x: A): (s: Step<A, B>)
    ensures s.numCalls == numCalls + 1 && s.outcome == Returned(f(x))
    ensures s.printed == [Calling(s.numCalls, x), ReturnFrom(s.numCalls, f(x))]
  {
    var n := numCalls + 1;
    var value := f(x);
    Step(n, Returned(value), [Calling(n, x), ReturnFrom(n, value)])
  }

  /** The outcomes of calling a freshly built limiting wrapper (counter 0)
      with the arguments `xs`, one call per argument, in order. */
  function Run<A, B>(f: A -> B, maxHits: int, xs: seq<A>): (outs: seq<Outcome<B>>)
    ensures |outs| == |xs|
    decreases |xs|
  {
    if xs == [] then []
    else
      var n := |xs| - 1;
      Run(f, maxHits, xs[..n]) + [LimitedStep(f, maxHits, false, n, xs[n]).outcome]
  }

  /** How many of the first `n` calls of a wrapper limited to `maxHits` are
      forwarded to the wrapped function. */
  function Accepted(maxHits: int, n: nat): (k: nat)
    ensures k <= n
    ensures k < n ==> k == maxHits || (k == 0 && maxHits <= 0)
    ensures k == n <==> n <= maxHits || n == 0
  {
    if maxHits <= 0 then 0 else if n <= maxHits then n else maxHits
  }

  function Returns<A, B>(f: A -> B, xs: seq<A>): (outs: seq<Outcome<B>>)
    ensures |outs| == |xs|
    ensures forall i :: 0 <= i < |xs| ==> outs[i] == Returned(f(xs[i]))
  {
    seq(|xs|, i requires 0 <= i < |xs| => Returned(f(xs[i])))
  }

  function Rejections<B>(maxHits: int, n: nat): (outs: seq<Outcome<B>>)
    ensures |outs| == n
    ensures forall i :: 0 <= i < n ==> outs[i] == LimitExceeded(maxHits)
  {
    seq(n, i => LimitExceeded(maxHits))
  }

  /** The i-th call (numbered i + 1) returns `f(xs[i])` exactly when its
      number does not exceed the limit, and raises otherwise. */
  lemma {:induction false} RunAt<A, B>(f: A -> B, maxHits: int, xs: seq<A>, i: nat)
    requires i < |xs|
    ensures Run(f, maxHits, xs)[i] == if i + 1 <= maxHits then Returned(f(xs[i])) else LimitExceeded(maxHits)
  {
    var n := |xs| - 1;
    if i < n {
      RunAt(f, maxHits, xs[..n], i);
      assert xs[..n][i] == xs[i];
    }
  }

  /** A rejected call is followed only by rejected calls. */
  lemma RejectionIsPermanent<A, B>(f: A -> B, maxHits: int, xs: seq<A>, i: nat, j: nat)
    requires i <= j < |xs|
    requires Run(f, maxHits, xs)[i].LimitExceeded?
    ensures Run(f, maxHits, xs)[j].LimitExceeded?
  {
    RunAt(f, maxHits, xs, i);
    RunAt(f, maxHits, xs, j);
  }

  /** Every run is a block of forwarded calls followed by a block of
      rejections, and the forwarded block is as long as the limit allows. */
  lemma RunShape<A, B>(f: A -> B, maxHits: int, xs: seq<A>)
    ensures var k := Accepted(maxHits, |xs|);
            Run(f, maxHits, xs) == Returns(f, xs[..k]) + Rejections(maxHits, |xs| - k)
  {
    var k := Accepted(maxHits, |xs|);
    var lhs := Run(f, maxHits, xs);
    var rhs := Returns(f, xs[..k]) + Rejections<B>(maxHits, |xs| - k);
    forall i | 0 <= i < |xs| ensures lhs[i] == rhs[i] {
      RunAt(f, maxHits, xs, i);
      if i < k {
        assert xs[..k][i] == xs[i];
      }
    }
  }

  /** `logCalls` changes neither the counter nor the outcome, and without it
      nothing is printed. */
  lemma LogCallsOnlyPrints<A, B>(f: A -> B, maxHits: int, numCalls: nat, x: A)
    ensures LimitedStep(f, maxHits, true, numCalls, x).numCalls == LimitedStep(f, maxHits, false, numCalls, x).numCalls
    ensures LimitedStep(f, maxHits, true, numCalls, x).outcome == LimitedStep(f, maxHits, false, numCalls, x).outcome
    ensures LimitedStep(f, maxHits, false, numCalls, x).printed == []
  {
  }

  /** Below its limit, a logging limiter behaves exactly like the counting
      wrapper. */
  lemma CountingIsUnlimited<A, B>(f: A -> B, maxHits: int, numCalls: nat, x: A)
    requires numCalls < maxHits
    ensures LimitedStep(f, maxHits, true, numCalls, x) == CountingStep(f, numCalls, x)
  {
  }

  /** The history a limiting wrapper keeps consistent: the counter is the
      number of calls made, the outcomes are those of `Run`, and the wrapped
      function has seen exactly the arguments of the accepted calls. */
  ghost predicate LimiterState<A, B>(f: A -> B, maxHits: int, numCalls: nat,
                                      calls: seq<A>, outcomes: seq<Outcome<B>>, forwarded: seq<A>)
  {
    numCalls == |calls| &&
    outcomes == Run(f, maxHits, calls) &&
    forwarded == calls[..Accepted(maxHits, |calls|)]
  }

  /** One more call keeps the history consistent. */
  lemma LimiterStatePreserved<A, B>(f: A -> B, maxHits: int, numCalls: nat, logCalls: bool,
                                    calls: seq<A>, outcomes: seq<Outcome<B>>, forwarded: seq<A>, x: A)
    requires LimiterState(f, maxHits, numCalls, calls, outcomes, forwarded)
    ensures var s := LimitedStep(f, maxHits, logCalls, numCalls, x);
            LimiterState(f, maxHits, s.numCalls, calls + [x], outcomes + [s.outcome],
                         forwarded + if s.outcome.Returned? then [x] else [])
  {
  }
}
