# Call-counting and call-limiting decorators

This project models the decorators that the tutorial script `decorator.py` evaluates:

- `CountCalls` is a callable object. It counts its invocations, logs each one, and forwards to the wrapped function. The wrapped function's value is returned unchanged. (A call with a keyword argument that `print` does not know breaks this; see "## Findings".)
- `_LimitCalls` is a callable object with the same counter plus a limit `max_hits`. The counter goes up before the check, so a rejected call is counted too. A call whose new number exceeds the limit raises `ValueError` without reaching the wrapped function.
- `LimitCalls` is a factory. With a function it builds `_LimitCalls` at once. Without one it returns a one-argument builder that has captured `max_hits` (default 3) and `log_calls` (default false).
- `LimitCalls2` is the closure version of the same factory. Its inner `forward_func_call` builds a `wrapper` function object that keeps its counter in the attribute `num_calls`. The limit and the logging flag are captured, keyword-only arguments.

Layout:

- `call_model.dfy` (module `CallModel`) states one intercepted call on values:
  - `LimitedStep` is one call of a limiting wrapper; `CountingStep` is one call of the counting wrapper.
  - `Run` gives the outcomes of a sequence of calls on a fresh wrapper.
  - `LimiterState` is the consistency invariant both limiting classes keep.
- `keyword_logging.dfy` (module `KeywordLogging`) states, as written, what the logging wrappers do with a call that carries keyword arguments. See "## Findings".
- `decoration.dfy` (module `Decoration`) holds what the factories return. A function cannot allocate, so a wrapper built by a factory is represented by its construction arguments (`WrapperArgs`). A builder is `Builder`.
- `count_calls.dfy`, `limit_calls.dfy` and `limit_calls2.dfy` hold the classes, the factories and the tutorial's scripted loops.

The wrapped function is a pure Dafny function `A -> B`; `A` stands for the whole argument list. `function` is a Dafny keyword, so the source's attributes `func` and `function` are both called `func` here. `_LimitCalls` is the class `LimitCallsWrapper`, and LimitCalls2's inner `wrapper` function object is the class `ClosureWrapper`. Raising `ValueError` is the outcome `LimitExceeded(maxHits)`. A printed line is an `Event` appended to the ghost field `Printed`, which stands for standard output. The ghost fields `Calls`, `Outcomes` and `Forwarded` record the history of each object, so its state can be tied to `Run`.

`LimitCalls` tests `if function:`, while `LimitCalls2` tests `_func is None`. A Python function object is always truthy, so both tests come down to "a function was given", which is modelled as `Option.Some`.

## Model

| member | source | states |
|---|---|---|
| `CallModel.LimitedStep` | decorator.py:204-220 | one call: the counter rises by exactly 1; the result is `f(x)` iff the new count is at most `max_hits`, else the limit error; a rejected call prints nothing; without `log_calls` nothing is printed |
| `CallModel.CountingStep` | decorator.py:91-106 | one counting call: the counter rises by 1, the result is `f(x)`, and both log lines carry the new call number |
| `CallModel.Run` | decorator.py:202-215 | the outcomes of successive calls on a freshly built limiter (counter starting at 0), one per call, in order |
| `CallModel.LimiterState` | decorator.py:202-209 | the invariant of a limiting wrapper: the counter is the number of calls, rejected ones included; the outcomes are those of `Run`; the wrapped function has seen exactly the accepted calls' arguments |
| `CallModel.RunAt` | decorator.py:206-215 | the k-th call (k from 1) on a fresh limiter returns `f(x_k)` iff `k <= max_hits`, and otherwise raises the error carrying `max_hits` |
| `CallModel.RejectionIsPermanent` | decorator.py:198-209 | once a call is rejected, every later call is rejected |
| `CallModel.RunShape` | decorator.py:202-215 | any run is the forwarded calls (as many as the limit allows, capped at the number of calls) followed only by rejections |
| `CallModel.LogCallsOnlyPrints` | decorator.py:211-218 | `log_calls` changes neither the counter nor the outcome, and without it nothing is printed |
| `CallModel.CountingIsUnlimited` | decorator.py:91-106 | below its limit, a logging limiter behaves exactly like `CountCalls` |
| `CallModel.LimiterStatePreserved` | decorator.py:204-220 | one more call keeps the history consistent: counter equals number of calls, outcomes equal `Run`, the wrapped function saw exactly the accepted calls' arguments |
| `Decoration.Builder.Apply` | decorator.py:228-229 | the builder wraps the given function with the captured limit and logging flag |
| `CountCallsDecorator.CountCalls.constructor` | decorator.py:76-87 | a fresh counting wrapper holds the function and has counted 0 calls |
| `CountCallsDecorator.CountCalls.Call` | decorator.py:91-106 | the counter rises by 1, the call is forwarded, the result is returned unchanged, and both log lines are printed |
| `CountCallsDecorator.IncMe` | decorator.py:167-168 | the function `inc_me` that the script decorates: its argument plus one |
| `CountCallsDecorator.IncMeScript` | decorator.py:165-173 | `inc_me(inc_me(1))` gives 3 and leaves `num_calls` at 2 |
| `LimitCallsDecorator.LimitCallsWrapper.constructor` | decorator.py:189-202 | a fresh `_LimitCalls` holds the function, limit and flag, and has counted 0 calls |
| `LimitCallsDecorator.LimitCallsWrapper.Call` | decorator.py:204-220 | the counter rises even on rejection; the call is forwarded and returns `f(x)` iff the new count is at most `max_hits`; the rejected argument never reaches the function; the history stays consistent with `Run` |
| `LimitCallsDecorator.LimitCalls` | decorator.py:223-231 | a wrapper iff a function is given, built with the given limit and flag; otherwise a builder that captured them |
| `LimitCallsDecorator.LimitCallsDirectIsDeferred` | decorator.py:223-231 | `LimitCalls(f, m, l)` is the same wrapper as `LimitCalls(None, m, l)(f)` |
| `LimitCallsDecorator.LimitCallsDefaults` | decorator.py:223 | the defaults are `max_hits=3` and `log_calls=False` |
| `LimitCallsDecorator.SquareMe` | decorator.py:242-244 | the function `square_me`: its argument squared |
| `LimitCallsDecorator.CubeMe` | decorator.py:269-271 | the function `cube_me`: its argument cubed |
| `LimitCallsDecorator.SquareMeScript` | decorator.py:239-257 | as written: three accepted calls returning 4, 9 and 16; the `idx == 4` check is never reached |
| `LimitCallsDecorator.SquareMeScriptToFourth` | decorator.py:239-257 | with the loop reaching idx 4: the fourth call raises, and the check is made and holds |
| `LimitCallsDecorator.CubeMeScript` | decorator.py:267-290 | with `max_hits=4`, the first four calls return cubes and the fifth raises |
| `LimitCallsClosure.ClosureWrapper.constructor` | decorator.py:354-387 | `forward_func_call(func)` yields a wrapper with the captured function, limit and flag, and `num_calls == 0` |
| `LimitCallsClosure.ClosureWrapper.Call` | decorator.py:363-381 | the same check-and-raise as `_LimitCalls`: the counter always rises; forward iff within the captured limit |
| `LimitCallsClosure.LimitCalls2` | decorator.py:348-393 | `forward_func_call` itself iff no function is given; otherwise `forward_func_call(func)` with the captured limit and flag |
| `LimitCallsClosure.LimitCalls2AgreesWithLimitCalls` | decorator.py:348-393 | for all arguments, the closure factory hands back the same construction arguments as `LimitCalls` (that the two wrapper classes then behave alike is `LimitersAgree`) |
| `LimitCallsClosure.LimitCalls2DirectIsDeferred` | decorator.py:390-393 | `LimitCalls2(f)` equals `LimitCalls2()(f)`, with a limit of 3 and no logging |
| `LimitCallsClosure.LimitersAgree` | decorator.py:363-381 | a `_LimitCalls` object and a LimitCalls2 `wrapper` built from the same arguments and called with the same arguments return the same outcomes, those of `Run` |
| `LimitCallsClosure.DecThreeFromMe` | decorator.py:404-405 | the function `dec_three_from_me`: its argument minus one |
| `LimitCallsClosure.DecMe` | decorator.py:432-433 | the function `dec_me`: its argument minus one |
| `LimitCallsClosure.DecThreeFromMeScript` | decorator.py:402-420 | with the default limit of 3, calls 1 to 3 return `idx - 1` and the fourth raises |
| `LimitCallsClosure.DecMeScript` | decorator.py:430-444 | with `max_hits=2`, calls 1 and 2 return `idx - 1` and the third raises |
| `KeywordLogging.LimitedStepAsWritten` | decorator.py:204-215 | as written, with keyword arguments: counted first; past the limit, the limit error; otherwise, with logging on and a keyword `print` does not accept, TypeError and no forwarding; else forwarded |
| `KeywordLogging.CountingStepAsWritten` | decorator.py:91-100 | as written, with keyword arguments: counted first; forwarded iff every keyword is one `print` accepts; otherwise TypeError and no forwarding |
| `KeywordLogging.AsWrittenAgreesWithoutStrayKeywords` | decorator.py:91-100 | without a keyword that `print` rejects, the behaviour as written equals the intended `LimitedStep` and `CountingStep` |
| `KeywordLogging.LogCallsDecidesKeywordCall` | decorator.py:211-215 | as written, a counted call within the limit with a stray keyword is forwarded without logging and raises TypeError with logging |
| `KeywordLogging.IncMeKeywordCallRaises` | decorator.py:97 | `inc_me(number_argument=1)` on a fresh counted `inc_me` is counted and raises TypeError as written, where the intended result is 2 |

## Findings

| source | as written | input that shows it | evidently intended | confidence | as-written member | corrected member |
|---|---|---|---|---|---|---|
| decorator.py:249-257 | the loop `for idx in range(1, 4)` stops at idx 3, so the guarded check `if idx == 4: assert got_value_error` never runs | `square_me` decorated with the default limit of 3, called for idx = 1, 2, 3 | the loop runs to idx 4, so the check confirms that the fourth call raises | not executed | `LimitCallsDecorator.SquareMeScript` | `LimitCallsDecorator.SquareMeScriptToFourth` |
| decorator.py:97 | the log line passes the call's `**kwargs` to `print` as `print`'s own keyword arguments, so a keyword other than `sep`, `end`, `file` or `flush` makes `print` raise TypeError; the counter has already risen and the call is not forwarded | `inc_me(number_argument=1)` on the counted `inc_me` | every call is logged and forwarded with all its arguments, as the comment at decorator.py:90 says | not executed | `KeywordLogging.IncMeKeywordCallRaises` | `CallModel.CountingStep` |
| decorator.py:212 | the same `**kwargs` into `print` when `log_calls` is set (also decorator.py:374 in LimitCalls2's `wrapper`), so for such a call `log_calls` decides between forwarding and TypeError | a call within the limit with keyword `x` on a wrapper with `log_calls=True` | `log_calls` only guards printing | not executed | `KeywordLogging.LogCallsDecidesKeywordCall` | `CallModel.LimitedStep` |

## Left out

- `functools.update_wrapper` and `functools.wraps` (decorator.py:81, 194, 358) copy the function's name, docstring and attributes onto the wrapper. That belongs to a library that is not part of this model.
- The text of the log lines and the wording of the `ValueError` message are left out. A log line is an `Event` carrying the call number and the argument or value. The error carries only `max_hits`.
- The prints made by the factories themselves (decorator.py:224, 350, 355) are left out. They affect neither the result nor any counter.
- Forwarding through `*args`/`**kwargs` is left out. The argument list is one value of type `A`.
- CallModel.LogCallsOnlyPrints: holds for calls whose keyword arguments `print` accepts. As written, a call with any other keyword raises TypeError from the logging `print` when `log_calls` is set, and is forwarded when it is not. This is recorded under "## Findings" and stated in `KeywordLogging.LogCallsDecidesKeywordCall`.
- CountCallsDecorator.CountCalls.Call: `A` stands for an argument list without keyword arguments that `print` rejects. As written, a call with such a keyword raises TypeError from the log line at decorator.py:97, after the counter has risen and without being forwarded. This is recorded under "## Findings" and stated in `KeywordLogging.CountingStepAsWritten`.
- The values passed under `print`'s own keywords (`sep`, `end`, `file`, `flush`) are not modelled. As written, they reach `print` as well as the wrapped function. They change the log's formatting, and a bad value (a non-string `sep`, a `file` without `write`) also makes `print` raise.
- The wrapped function is pure and total. A wrapped function that raises, or that has side effects, is not modelled. (In the source, a call that raises inside the wrapped function has already been counted.)
- `num_calls`, `function`, `max_hits` and `log_calls` are public Python attributes (decorator.py:197-202). Writes to them from outside the wrapper are not modelled. Here the function, the limit and the flag are `const`, and `CallModel.RejectionIsPermanent` relies on `max_hits` staying fixed.
- Re-entry is not modelled, because the wrapped function is pure. As written, a decorated recursive function calls itself through the wrapper. Its inner calls then count against the limit. The log lines after the forwarded call (decorator.py:103, 218, 380) re-read the counter, so they show a later call number than the call's own.
- Decorating a class (`Foo`, `Foo3`), a method (`Foo4`) and the commented-out `Foo2` (decorator.py:298-332, 450-483) depend on Python's method-binding protocol, which this file does not implement. The `CallableObject` examples and the `say_miau`/`say_woof` demos only print.
- The Markdown helpers `header_md`, `print_md` and `eval_and_quote` are output plumbing from a module that is not part of this model.
