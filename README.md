# Circuit breaker of the scraper, in Dafny

This project models the `CircuitBreaker` helper of the scraper
(`scraper/circuit_breaker.py`) and proves what its routing and counting promise.

A breaker wraps a primary callable `on` and an optional fallback callable `off`.
It keeps a mode flag (`is_on`), a decaying error counter (`error_count`) and a
counter of calls sent to the off path (`off_count`).
- While ON, every call goes to `on`. A success lowers a positive error count by one.
  A failure (an `Exception`, the kind the `except` clause catches) raises it by one; when the count
  reaches `trigger_count` the breaker turns OFF and the count resets to 0.
  An error that is only a `BaseException` (`KeyboardInterrupt`, `SystemExit`) changes no counter.
  The value or the error of `on` always reaches the caller unchanged.
- While OFF, every call first increments `off_count`. While it stays within `release_count`, the call goes to the
  off path: `off` runs if there is one, otherwise the call is rejected with
  `CircuitBreakerOffException(name)`.
- The call that pushes `off_count` past `release_count` turns the breaker ON and resets `off_count`.
  That same call is then served by `on` under the ON rules.

Layout:
- `circuit_breaker.dfy`, module `CircuitBreakers`. It holds the state machine as pure functions:
  `CallOn` (the ON path), `CallOff` (`call_off`) and `Step` (one `call`). It also holds the class
  `CircuitBreaker`, whose fields are the source's attributes and whose `Call` method updates them in place.
  `Call` is proved to agree with `Step` and to keep the object invariant `Valid()`.
  `Create` models `__init__`, including its error path.
- `breaker_runs.dfy`, module `BreakerRuns`. `Run` applies `Step` to a sequence of calls, as made on one breaker.
  The lemmas there state what the breaker does over many calls.

The wrapped callables cannot be seen, so each call receives what `on` and what `off`
would do if invoked (`Outcome`: `Ok(value)`, `Err(error)` for an `Exception`, or
`Uncaught(error)` for a `BaseException` that is not an `Exception`). The `Response` records which callable was invoked
(`Returned(via, value)`, `Raised(via, error)`), or `BreakerOff(name)` when the call was rejected.
The thresholds are unbounded integers, because the source never checks them. The invariants on the
counters are therefore stated for `trigger_count >= 1` and `release_count >= 0`.

Where the header comment of the source file and its code disagree, the model follows the code.
The comment says the breaker turns OFF when the error count *exceeds* `trigger_count`.
The code (line 45) turns it OFF when the count *reaches* `trigger_count`.

## Model

| member | source | states |
|---|---|---|
| `CircuitBreakers.CallOff` | scraper/circuit_breaker.py:50-54 | the off path never invokes `on`; with an `off` callable its value is returned or its error re-raised unchanged; without one the call is rejected with the exception carrying the breaker's name |
| `CircuitBreakers.CallOn` | scraper/circuit_breaker.py:36-48 | `on`'s value or error reaches the caller unchanged; a success keeps the breaker ON and lowers the error count by one only when it is positive; a failure adds one and turns the breaker OFF exactly when the count reaches `trigger_count`, and then the count is 0; an error the `except Exception` clause does not catch changes no counter; `off_count` is untouched |
| `CircuitBreakers.Step` | scraper/circuit_breaker.py:27-48 | `on` is invoked exactly when the breaker is ON or this call pushes `off_count` past `release_count`, and then its outcome passes through unchanged; a call made while ON is exactly an ON-path call; otherwise the call is answered by the off path and only `off_count` changes (by one); the probe call is an ON call from a reset `off_count`; every call keeps the invariants (only the live counter is non-zero, no counter is negative, `error_count < trigger_count`, `off_count <= release_count`) |
| `CircuitBreakers.CircuitBreaker.Call` | scraper/circuit_breaker.py:27-48 | updates `is_on`, `off_count` and `error_count` in place exactly as `Step` prescribes, returns `Step`'s response, and keeps the object invariant |
| `CircuitBreakers.CircuitBreaker.Invoke` | scraper/circuit_breaker.py:24-25 | calling the breaker object behaves exactly like `call` |
| `CircuitBreakers.CircuitBreaker.constructor` | scraper/circuit_breaker.py:13-20 | stores the settings and starts ON with `off_count` and `error_count` at 0, satisfying the object invariant |
| `CircuitBreakers.Create` | scraper/circuit_breaker.py:12-22 | construction fails exactly when neither `off` nor `name` is given; otherwise it yields a fresh breaker with the given settings (defaults `trigger_count` 3, `release_count` 10) that is ON with both counters at 0 |
| `CircuitBreakers.FailingOnWithoutOff` | scraper/circuit_breaker.py:27-54 | a breaker named "svc" without `off` and with `trigger_count` 2 whose `on` always fails re-raises `on`'s error on call 1 (error count 1) and call 2 (which turns it OFF with the count at 0), and rejects call 3 with the exception carrying "svc", without invoking `on`, leaving `off_count` at 1 |
| `BreakerRuns.Run` | scraper/circuit_breaker.py:15-48 | over any sequence of calls there is one response per call, and the invariants of the initial state hold after every call |
| `BreakerRuns.RunAppend` | scraper/circuit_breaker.py:27-48 | making calls `a` and then calls `b` on a breaker is the same as making calls `a + b` |
| `BreakerRuns.OffWindowUsesOffPath` | scraper/circuit_breaker.py:28-31 | while `off_count` stays within `release_count`, every call is answered by the off path, `on` is never invoked, and only `off_count` moves, by one per call |
| `BreakerRuns.ProbeEndsOffWindow` | scraper/circuit_breaker.py:28-48 | from any OFF state the remaining `release_count - off_count` calls take the off path, and the next call is served by `on`, with the state it leaves computed by the ON rules from a fresh ON state |
| `BreakerRuns.SuccessesKeepOn` | scraper/circuit_breaker.py:36-41 | successes of `on` never turn the breaker OFF; the error count falls by one per success down to 0 and never below; each value is returned |
| `BreakerRuns.FailuresTrip` | scraper/circuit_breaker.py:43-48 | consecutive failures of `on` are each re-raised and each add one to the error count; the failure that brings it to `trigger_count` turns the breaker OFF with the count reset to 0 |
| `BreakerRuns.OffOutcomeNeverCounts` | scraper/circuit_breaker.py:28-54 | what `off` returns or raises never affects the mode or the counters |
| `BreakerRuns.DefaultTriggerScenarios` | scraper/circuit_breaker.py:12-48 | with the default `trigger_count` 3, three failures turn a new breaker OFF with the count at 0, and two failures followed by a success leave it ON with the count at 1 |
| `BreakerRuns.ReleaseOneScenario` | scraper/circuit_breaker.py:28-41 | with `release_count` 1 and an `off` returning "fb", a breaker that has just turned OFF answers the next call with "fb" and serves the call after that with `on` |

## Left out

- The wrapped callables and the forwarding of `*args`/`**kwargs` to them (lines 24-25, 37, 52). Their behaviour is not visible. Each call takes their outcomes as parameters instead.
- The message text of `CircuitBreakerOffException` and its `RuntimeError` base (lines 56-60). The exception is the `BreakerOff(name)` response, carrying only the name.
- The type and message of the plain `Exception` that `__init__` raises when neither `off` nor `name` is given (line 22). It is the `ConfigurationError` value `NameRequiredWithoutOff`.
- The identity of a re-raised exception object and its traceback. A re-raised error is the same `error` value.
- Concurrent use of one breaker. The source has no locking, and the model is sequential.
- Outside writes to the attributes. Python lets any caller reassign `is_on`, the counters or the thresholds. The model fixes the settings at construction and changes the state only through `Call`.
