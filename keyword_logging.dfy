/** What the logging wrappers do, as written, with a call that carries
    keyword arguments. The log line before a forwarded call passes the
    call's keyword arguments on to `print` as `print`'s own keyword
    arguments. `print` accepts only `sep`, `end`, `file` and `flush`, so any
    other keyword makes it raise TypeError. By then the counter has already
    gone up, and the call is never forwarded. The rest of the model follows
    the evidently intended behaviour (every call logged and forwarded with
    all its arguments); this module states the behaviour as written and
    how it departs from that. */
module KeywordLogging {
  import opened CallModel
  import CountCallsDecorator

  /** The keyword parameters of Python's built-in `print`. */
  const PrintKeywords: set<string> := {"sep", "end", "file", "flush"}

  /** The logging `print` raises when it receives a keyword it does not have. */
  predicate PrintRejects(keywords: set<string>)
  {
    exists k :: k in keywords && k !in PrintKeywords
  }

  /** A call's outcome once the logging `print` can raise too. */
  datatype KeywordOutcome<B> = Completed(outcome: Outcome<B>) | PrintTypeError

  /** The new counter, the outcome, and whether the wrapped function ran. */
  datatype KeywordStep<B> = KeywordStep(numCalls: nat, outcome: KeywordOutcome<B>, forwarded: bool)

  /** One call of `_LimitCalls` or of LimitCalls2's `wrapper`, as written,
      whose arguments `x` carry keyword arguments named `keywords`. */
  function LimitedStepAsWritten<A, B>(f: A -> B, maxHits: int, logCalls: bool, numCalls: nat,
                                      x: A, keywords: set<string>): (s: KeywordStep<B>)
    ensures s.numCalls == numCalls + 1
    ensures s.forwarded <==> s.outcome == Completed(Returned(f(x)))
    ensures s.outcome == PrintTypeError <==> numCalls + 1 <= maxHits && logCalls && PrintRejects(keywords)
    ensures s.outcome == Completed(LimitExceeded(maxHits)) <==> numCalls + 1 > maxHits
  {
    var n := numCalls + 1;
    if n > maxHits then KeywordStep(n, Completed(LimitExceeded(maxHits)), false)
    else if logCalls && PrintRejects(keywords) then KeywordStep(n, PrintTypeError, false)
    else KeywordStep(n, Completed(Returned(f(x))), true)
  }

  /** One call of `CountCalls`, as written: its first log line is
      unconditional, so a stray keyword always makes the call raise. */
  function CountingStepAsWritten<A, B>(f: A -> B, numCalls: nat, x: A, keywords: set<string>): (s: KeywordStep<B>)
    ensures s.numCalls == numCalls + 1
    ensures s.forwarded <==> !PrintRejects(keywords)
    ensures s.forwarded ==> s.outcome == Completed(Returned(f(x)))
    ensures !s.forwarded ==> s.outcome == PrintTypeError
  {
    var n := numCalls + 1;
    if PrintRejects(keywords) then KeywordStep(n, PrintTypeError, false)
    else KeywordStep(n, Completed(Returned(f(x))), true)
  }

  /** Without a stray keyword, the behaviour as written is the intended one. */
  lemma AsWrittenAgreesWithoutStrayKeywords<A, B>(f: A -> B, maxHits: int, logCalls: bool, numCalls: nat,
                                                  x: A, keywords: set<string>)
    requires !PrintRejects(keywords)
    ensures LimitedStepAsWritten(f, maxHits, logCalls, numCalls, x, keywords).outcome
         == Completed(LimitedStep(f, maxHits, logCalls, numCalls, x).outcome)
    ensures CountingStepAsWritten(f, numCalls, x, keywords).outcome
         == Completed(CountingStep(f, numCalls, x).outcome)
  {
  }

  /** As written, `logCalls` does decide a call with a stray keyword: without
      logging it is forwarded, with logging it raises TypeError unforwarded,
      although both count it. */
  lemma LogCallsDecidesKeywordCall<A, B>(f: A -> B, maxHits: int, numCalls: nat, x: A, keywords: set<string>)
    requires numCalls + 1 <= maxHits && PrintRejects(keywords)
    ensures LimitedStepAsWritten(f, maxHits, false, numCalls, x, keywords) == KeywordStep(numCalls + 1, Completed(Returned(f(x))), true)
    ensures LimitedStepAsWritten(f, maxHits, true, numCalls, x, keywords) == KeywordStep(numCalls + 1, PrintTypeError, false)
    ensures LimitedStep(f, maxHits, true, numCalls, x).outcome == Returned(f(x))
  {
  }

  /** `inc_me(number_argument=1)` on a fresh counted `inc_me`: as written the
      call is counted and raises TypeError without reaching `inc_me`, where
      the intended result is 2. */
  lemma IncMeKeywordCallRaises()
    ensures CountingStepAsWritten(CountCallsDecorator.IncMe, 0, 1, {"number_argument"})
         == KeywordStep(1, PrintTypeError, false)
    ensures CountingStep(CountCallsDecorator.IncMe, 0, 1).outcome == Returned(2)
  {
    assert "number_argument" !in PrintKeywords;
  }
}
