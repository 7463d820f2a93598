/** What the decorator factories hand back. A factory either builds the
    limiting wrapper at once (it was given the function) or returns a
    one-argument builder that has captured the limit and the logging flag
    and builds the wrapper once it receives the function. Because a function
    cannot allocate, a wrapper is represented here by the arguments it is
    constructed from; the classes' constructors fix everything else. */
module Decoration {

  /** The construction arguments of a fresh limiting wrapper; its counter
      always starts at 0. */
  datatype WrapperArgs<!A, B> = WrapperArgs(func: A -> B, maxHits: int, logCalls: bool)

  /** The captured decorator arguments, waiting for the function to wrap. */
  datatype Builder = Builder(maxHits: int, logCalls: bool)
  {
    /** Give the builder the function to wrap. */
    function Apply<A, B>(func: A -> B): (w: WrapperArgs<A, B>)
      ensures w.func == func
      ensures w.maxHits == maxHits && w.logCalls == logCalls
    {
      WrapperArgs(func, maxHits, logCalls)
    }
  }

  /** The result of calling a decorator factory. */
  datatype Decorated<!A, B> = Wrapper(args: WrapperArgs<A, B>) | Deferred(builder: Builder)
}
