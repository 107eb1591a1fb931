/** A model of the circuit breaker helper of the scraper (scraper/circuit_breaker.py).

    The breaker wraps a primary callable `on` and an optional fallback callable `off`.
    While it is ON every call goes to `on`; failures of `on` raise a decaying error
    counter, successes lower it, and when the counter reaches `triggerCount` the
    breaker turns OFF. While it is OFF calls go to `off` (or are rejected with a
    CircuitBreakerOffException when there is no `off`), and the call that pushes the
    off counter past `releaseCount` turns the breaker back ON and is itself served by `on`.

    The wrapped callables are not visible, so each call is given what `on` and what
    `off` would do if invoked (an Outcome); the Response says which one was invoked.
 */
module CircuitBreakers {

  datatype Option<T> = None | Some(value: T)

  datatype Result<T, R> = Success(value: T) | Failure(error: R)

  /** What one invocation of a wrapped callable does: return a value, raise an error that
      is an `Exception` (`Err`, the kind `except Exception` catches), or raise one that is
      only a `BaseException`, such as `KeyboardInterrupt` or `SystemExit` (`Uncaught`). */
  datatype Outcome<V, E> = Ok(value: V) | Err(error: E) | Uncaught(error: E)

  /** The two wrapped callables. */
  datatype Callable = OnFunc | OffFunc

  /** What a call of the breaker hands back to its caller. */
  datatype Response<V, E> =
    | Returned(via: Callable, value: V)   // the invoked callable returned `value`
    | Raised(via: Callable, error: E)     // the invoked callable raised `error`, re-raised as is
    | BreakerOff(name: string)            // CircuitBreakerOffException(name): no callable ran
  {
    /** Whether answering this call invoked callable `c`. */
    predicate Invoked(c: Callable) {
      !BreakerOff? && via == c
    }
  }

  /** The exception `__init__` raises when neither `off` nor `name` is given. */
  datatype ConfigurationError = NameRequiredWithoutOff

  /** The settings fixed at construction; `hasOff` says whether an `off` callable was given. */
  datatype Config = Config(hasOff: bool, triggerCount: int, releaseCount: int, name: Option<string>)
  {
    /** What construction guarantees: a breaker without `off` has a name to report. */
    predicate WellFormed() {
      hasOff || name.Some?
    }
  }

  /** The mutable part of a breaker: `is_on`, `off_count` and `error_count`. */
  datatype State = State(isOn: bool, offCount: int, errorCount: int)

  /** The state `__init__` sets up. */
  const Initial: State := State(true, 0, 0)

  /** The invariants every call keeps: only the counter of the current mode is live,
      neither counter is negative, and each stays below the threshold that would
      make the breaker change mode (for thresholds that can be met at all). */
  predicate Inv(cfg: Config, s: State) {
    && s.offCount >= 0
    && s.errorCount >= 0
    && (s.isOn ==> s.offCount == 0)
    && (!s.isOn ==> s.errorCount == 0)
    && (cfg.triggerCount >= 1 ==> s.errorCount < cfg.triggerCount)
    && (cfg.releaseCount >= 0 ==> s.offCount <= cfg.releaseCount)
  }

  /** The caller's view of invoking callable `c` with outcome `o`: its value is
      returned and its error is re-raised unchanged. */
  function Report<V, E>(c: Callable, o: Outcome<V, E>): Response<V, E> {
    match o
    case Ok(v) => Returned(c, v)
    case Err(e) => Raised(c, e)
    case Uncaught(e) => Raised(c, e)
  }

  /** `call_off`: run `off` if there is one, otherwise reject the call with the
      breaker's name. It changes no counter and never touches `on`. */
  function CallOff<V, E>(cfg: Config, fallback: Outcome<V, E>): (r: Response<V, E>)
    requires cfg.WellFormed()
    ensures !r.Invoked(OnFunc)
    ensures r.BreakerOff? <==> !cfg.hasOff
    ensures cfg.hasOff ==> r == Report(OffFunc, fallback)
    ensures r.BreakerOff? ==> cfg.name == Some(r.name)
  {
    if cfg.hasOff then Report(OffFunc, fallback) else BreakerOff(cfg.name.value)
  }

  /** The ON path of `call`: invoke `on`; a success lowers a positive error count by
      one, a failure raises it by one and turns the breaker OFF (with the count reset)
      once it reaches `triggerCount`, and an error the `except Exception` clause does not
      catch changes nothing. The outcome of `on` reaches the caller unchanged. */
  function CallOn<V, E>(cfg: Config, s: State, primary: Outcome<V, E>): (r: (State, Response<V, E>))
    requires s.isOn
    ensures r.1 == Report(OnFunc, primary)
    ensures r.0.offCount == s.offCount
    ensures primary.Ok? ==> r.0.isOn
    ensures primary.Ok? && s.errorCount > 0 ==> r.0.errorCount == s.errorCount - 1
    ensures primary.Ok? && s.errorCount <= 0 ==> r.0.errorCount == s.errorCount
    ensures primary.Err? ==> (r.0.isOn <==> s.errorCount + 1 < cfg.triggerCount)
    ensures primary.Err? && r.0.isOn ==> r.0.errorCount == s.errorCount + 1
    ensures primary.Uncaught? ==> r.0 == s
    ensures !r.0.isOn ==> r.0.errorCount == 0
  {
    match primary
    case Ok(v) =>
      var errorCount := if s.errorCount > 0 then s.errorCount - 1 else s.errorCount;
      (s.(errorCount := errorCount), Returned(OnFunc, v))
    case Err(e) =>
      var errorCount := s.errorCount + 1;
      if errorCount >= cfg.triggerCount then
        (s.(isOn := false, errorCount := 0), Raised(OnFunc, e))
      else
        (s.(errorCount := errorCount), Raised(OnFunc, e))
    case Uncaught(e) =>
      (s, Raised(OnFunc, e))
  }

  /** One `call` of the breaker in state `s`, where `primary` and `fallback` are what
      `on` and `off` would do if invoked; gives the new state and the response. */
  function Step<V, E>(cfg: Config, s: State, primary: Outcome<V, E>, fallback: Outcome<V, E>): (r: (State, Response<V, E>))
    requires cfg.WellFormed()
    // `on` runs exactly when the breaker is ON or this call exhausts the OFF window,
    // and then its value is returned or its error re-raised unchanged
    ensures r.1.Invoked(OnFunc) <==> s.isOn || s.offCount + 1 > cfg.releaseCount
    ensures r.1.Invoked(OnFunc) ==> r.1 == Report(OnFunc, primary)
    // inside the OFF window only `off_count` moves and the off path answers
    ensures !r.1.Invoked(OnFunc) ==> r.1 == CallOff(cfg, fallback)
    ensures !r.1.Invoked(OnFunc) ==> r.0 == s.(offCount := s.offCount + 1)
    // a call made while ON is an ON call; the call that ends the OFF window is an ON
    // call from a reset off count
    ensures s.isOn ==> r == CallOn(cfg, s, primary)
    ensures !s.isOn && r.1.Invoked(OnFunc) ==> r == CallOn(cfg, State(true, 0, s.errorCount), primary)
    ensures Inv(cfg, s) ==> Inv(cfg, r.0)
  {
    if !s.isOn && s.offCount + 1 <= cfg.releaseCount then
      (s.(offCount := s.offCount + 1), CallOff(cfg, fallback))
    else
      var on := if s.isOn then s else State(true, 0, s.errorCount);
      CallOn(cfg, on, primary)
  }

  /** The breaker object: its settings are fixed at construction, its mode and
      counters change on every call. */
  class CircuitBreaker {
    const hasOff: bool
    const triggerCount: int
    const releaseCount: int
    const name: Option<string>
    var isOn: bool
    var offCount: int
    var errorCount: int

    function Settings(): Config {
      Config(hasOff, triggerCount, releaseCount, name)
    }

    function Current(): State
      reads this
    {
      State(isOn, offCount, errorCount)
    }

    ghost predicate Valid()
      reads this
    {
      Settings().WellFormed() && Inv(Settings(), Current())
    }

    /** The part of `__init__` that runs once the name check has passed. */
    constructor (hasOff: bool, triggerCount: int, releaseCount: int, name: Option<string>)
      requires hasOff || name.Some?
      ensures Valid()
      ensures Settings() == Config(hasOff, triggerCount, releaseCount, name)
      ensures Current() == Initial
    {
      this.hasOff := hasOff;
      this.triggerCount := triggerCount;
      this.releaseCount := releaseCount;
      this.name := name;
      isOn := true;
      offCount := 0;
      errorCount := 0;
    }

    /** `call`: route one call to `on` or to the off path and update mode and counters. */
    method Call<V, E>(primary: Outcome<V, E>, fallback: Outcome<V, E>) returns (r: Response<V, E>)
      requires Valid()
      modifies this
      ensures Valid()
      ensures (Current(), r) == Step(Settings(), old(Current()), primary, fallback)
    {
      if !isOn {
        offCount := offCount + 1;
        if offCount <= releaseCount {
          r := CallOff(Settings(), fallback);
          return;
        } else {
          isOn := true;
          offCount := 0;
        }
      }
      match primary
      case Ok(v) =>
        if errorCount > 0 {
          errorCount := errorCount - 1;
        }
        r := Returned(OnFunc, v);
      case Err(e) =>
        errorCount := errorCount + 1;
        if errorCount >= triggerCount {
          isOn := false;
          errorCount := 0;
        }
        r := Raised(OnFunc, e);
      case Uncaught(e) =>
        r := Raised(OnFunc, e);
    }

    /** `__call__`: calling the breaker object is the same as `call`. */
    method Invoke<V, E>(primary: Outcome<V, E>, fallback: Outcome<V, E>) returns (r: Response<V, E>)
      requires Valid()
      modifies this
      ensures Valid()
      ensures (Current(), r) == Step(Settings(), old(Current()), primary, fallback)
    {
      r := Call(primary, fallback);
    }
  }

  /** `__init__`: fails when neither `off` nor `name` is given; otherwise a fresh
      breaker that is ON with both counters at zero. */
  method Create(hasOff: bool := false, triggerCount: int := 3, releaseCount: int := 10, name: Option<string> := None)
    returns (r: Result<CircuitBreaker, ConfigurationError>)
    ensures r.Failure? <==> !hasOff && name.None?
    ensures r.Failure? ==> r.error == NameRequiredWithoutOff
    ensures r.Success? ==> fresh(r.value) && r.value.Valid()
    ensures r.Success? ==> r.value.Settings() == Config(hasOff, triggerCount, releaseCount, name)
    ensures r.Success? ==> r.value.Current() == Initial
  {
    if name.None? && !hasOff {
      return Failure(NameRequiredWithoutOff);
    }
    var breaker := new CircuitBreaker(hasOff, triggerCount, releaseCount, name);
    r := Success(breaker);
  }

  /** A breaker named "svc" with no `off` and `triggerCount` 2 whose `on` always
      fails: the first call re-raises the error of `on` and leaves an error count of 1,
      the second re-raises it and turns the breaker OFF, and the third is rejected
      without invoking `on`, as the first call of the OFF window. */
  method FailingOnWithoutOff<E>(e: E)
    returns (r1: Response<int, E>, s1: State, r2: Response<int, E>, s2: State, r3: Response<int, E>, s3: State)
    ensures r1 == Raised(OnFunc, e) && s1 == State(true, 0, 1)
    ensures r2 == Raised(OnFunc, e) && s2 == State(false, 0, 0)
    ensures r3 == BreakerOff("svc") && s3 == State(false, 1, 0)
  {
    var created := Create(triggerCount := 2, name := Some("svc"));
    var breaker := created.value;
    r1 := breaker.Call(Err(e), Ok(0));
    s1 := breaker.Current();
    r2 := breaker.Call(Err(e), Ok(0));
    s2 := breaker.Current();
    r3 := breaker.Call(Err(e), Ok(0));
    s3 := breaker.Current();
  }
}
