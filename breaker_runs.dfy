/** Properties of a breaker over a sequence of calls: a breaker is long-lived and
    every `call` on it goes through `Step`, so `Run` folds `Step` over the calls. */
module BreakerRuns {
  import opened CircuitBreakers

  /** What `on` and `off` would do if this call invoked them. */
  datatype Invocation<V, E> = Invocation(primary: Outcome<V, E>, fallback: Outcome<V, E>)

  /** The calls made on one breaker in order, from state `s`: the final state and
      the response to each call. */
  function Run<V, E>(cfg: Config, s: State, calls: seq<Invocation<V, E>>): (r: (State, seq<Response<V, E>>))
    requires cfg.WellFormed()
    ensures |r.1| == |calls|
    ensures Inv(cfg, s) ==> Inv(cfg, r.0)
    decreases |calls|
  {
    if calls == [] then (s, [])
    else
      var first := Step(cfg, s, calls[0].primary, calls[0].fallback);
      var rest := Run(cfg, first.0, calls[1..]);
      (rest.0, [first.1] + rest.1)
  }

  /** Running `a` then `b` is running `a + b`. */
  lemma {:induction false} RunAppend<V, E>(cfg: Config, s: State, a: seq<Invocation<V, E>>, b: seq<Invocation<V, E>>)
    requires cfg.WellFormed()
    ensures Run(cfg, s, a + b).0 == Run(cfg, Run(cfg, s, a).0, b).0
    ensures Run(cfg, s, a + b).1 == Run(cfg, s, a).1 + Run(cfg, Run(cfg, s, a).0, b).1
    decreases |a|
  {
    if a == [] {
      assert a + b == b;
    } else {
      var first := Step(cfg, s, a[0].primary, a[0].fallback);
      assert (a + b)[1..] == a[1..] + b;
      RunAppend(cfg, first.0, a[1..], b);
    }
  }

  /** While the OFF window lasts, every call is answered by the off path (whatever
      `off` does), `on` is never invoked, and only `off_count` moves. */
  lemma {:induction false} OffWindowUsesOffPath<V, E>(cfg: Config, s: State, calls: seq<Invocation<V, E>>)
    requires cfg.WellFormed()
    requires !s.isOn && s.offCount + |calls| <= cfg.releaseCount
    ensures Run(cfg, s, calls).0 == s.(offCount := s.offCount + |calls|)
    ensures forall i :: 0 <= i < |calls| ==> Run(cfg, s, calls).1[i] == CallOff(cfg, calls[i].fallback)
    decreases |calls|
  {
    if calls != [] {
      var next := s.(offCount := s.offCount + 1);
      OffWindowUsesOffPath(cfg, next, calls[1..]);
      var rs := Run(cfg, s, calls).1;
      assert rs == [CallOff(cfg, calls[0].fallback)] + Run(cfg, next, calls[1..]).1;
      forall i | 0 <= i < |calls|
        ensures rs[i] == CallOff(cfg, calls[i].fallback)
      {
        if i > 0 {
          assert rs[i] == Run(cfg, next, calls[1..]).1[i - 1];
        }
      }
    }
  }

  /** From any OFF state, the first `releaseCount - offCount` calls take the off path and
      the next one is served by `on`, from an ON state with reset counters, and its
      outcome moves the error count by the ON rules. */
  lemma {:induction false} ProbeEndsOffWindow<V, E>(cfg: Config, s: State, calls: seq<Invocation<V, E>>)
    requires cfg.WellFormed() && Inv(cfg, s) && !s.isOn
    requires cfg.releaseCount >= 0
    requires |calls| == cfg.releaseCount - s.offCount + 1
    ensures forall i :: 0 <= i < |calls| - 1 ==> Run(cfg, s, calls).1[i] == CallOff(cfg, calls[i].fallback)
    ensures Run(cfg, s, calls).1[|calls| - 1] == Report(OnFunc, calls[|calls| - 1].primary)
    ensures Run(cfg, s, calls).0 == CallOn(cfg, Initial, calls[|calls| - 1].primary).0
  {
    var n := |calls| - 1;
    var window, last := calls[..n], calls[n..];
    assert calls == window + last;
    OffWindowUsesOffPath(cfg, s, window);
    RunAppend(cfg, s, window, last);
    var mid := Run(cfg, s, window).0;
    assert mid == State(false, cfg.releaseCount, 0);
    assert last == [calls[n]];
  }

  /** While `on` keeps succeeding the breaker stays ON, the error count decays by one
      per call down to zero and never below, and each value is returned to the caller. */
  lemma {:induction false} SuccessesKeepOn<V, E>(cfg: Config, s: State, calls: seq<Invocation<V, E>>)
    requires cfg.WellFormed()
    requires s.isOn && s.errorCount >= 0
    requires forall i :: 0 <= i < |calls| ==> calls[i].primary.Ok?
    ensures Run(cfg, s, calls).0.isOn
    ensures Run(cfg, s, calls).0.offCount == s.offCount
    ensures Run(cfg, s, calls).0.errorCount == if s.errorCount >= |calls| then s.errorCount - |calls| else 0
    ensures forall i :: 0 <= i < |calls| ==> Run(cfg, s, calls).1[i] == Returned(OnFunc, calls[i].primary.value)
    decreases |calls|
  {
    if calls != [] {
      var next := Step(cfg, s, calls[0].primary, calls[0].fallback).0;
      SuccessesKeepOn(cfg, next, calls[1..]);
      var rs := Run(cfg, s, calls).1;
      forall i | 0 <= i < |calls|
        ensures rs[i] == Returned(OnFunc, calls[i].primary.value)
      {
        if i > 0 {
          assert calls[1..][i - 1] == calls[i];
          assert rs[i] == Run(cfg, next, calls[1..]).1[i - 1];
        }
      }
    }
  }

  /** Failures of `on` while ON are re-raised one by one and each adds one to the error
      count; the failure that brings the count to `triggerCount` turns the breaker OFF
      with the count reset to zero. */
  lemma {:induction false} FailuresTrip<V, E>(cfg: Config, s: State, calls: seq<Invocation<V, E>>)
    requires cfg.WellFormed()
    requires s.isOn && s.errorCount < cfg.triggerCount
    requires s.errorCount + |calls| <= cfg.triggerCount
    requires forall i :: 0 <= i < |calls| ==> calls[i].primary.Err?
    ensures s.errorCount + |calls| < cfg.triggerCount ==> Run(cfg, s, calls).0 == s.(errorCount := s.errorCount + |calls|)
    ensures s.errorCount + |calls| == cfg.triggerCount ==> Run(cfg, s, calls).0 == State(false, s.offCount, 0)
    ensures forall i :: 0 <= i < |calls| ==> Run(cfg, s, calls).1[i] == Raised(OnFunc, calls[i].primary.error)
    decreases |calls|
  {
    if calls != [] {
      var next := Step(cfg, s, calls[0].primary, calls[0].fallback).0;
      if |calls| > 1 {
        FailuresTrip(cfg, next, calls[1..]);
      }
      var rs := Run(cfg, s, calls).1;
      forall i | 0 <= i < |calls|
        ensures rs[i] == Raised(OnFunc, calls[i].primary.error)
      {
        if i > 0 {
          assert calls[1..][i - 1] == calls[i];
          assert rs[i] == Run(cfg, next, calls[1..]).1[i - 1];
        }
      }
    }
  }

  /** What `off` does never affects the mode or the counters: two runs in which `on`
      behaves the same end in the same state, however `off` succeeded or failed. */
  lemma {:induction false} OffOutcomeNeverCounts<V, E>(cfg: Config, s: State, calls: seq<Invocation<V, E>>, calls': seq<Invocation<V, E>>)
    requires cfg.WellFormed()
    requires |calls| == |calls'|
    requires forall i :: 0 <= i < |calls| ==> calls[i].primary == calls'[i].primary
    ensures Run(cfg, s, calls).0 == Run(cfg, s, calls').0
    decreases |calls|
  {
    if calls != [] {
      var next := Step(cfg, s, calls[0].primary, calls[0].fallback).0;
      assert next == Step(cfg, s, calls'[0].primary, calls'[0].fallback).0;
      OffOutcomeNeverCounts(cfg, next, calls[1..], calls'[1..]);
    }
  }

  /** With `triggerCount` 3 (the default), three failures of `on` turn a new breaker
      OFF with the count reset, while two failures then a success leave it ON with
      an error count of one. */
  lemma DefaultTriggerScenarios<V, E>(name: string, v: V, e: E)
    ensures var cfg := Config(false, 3, 10, Some(name));
            var fail, ok := Invocation(Err(e), Err(e)), Invocation(Ok(v), Err(e));
            && Run(cfg, Initial, [fail, fail, fail]).0 == State(false, 0, 0)
            && Run(cfg, Initial, [fail, fail, ok]).0 == State(true, 0, 1)
  {
    var cfg := Config(false, 3, 10, Some(name));
    var fail, ok := Invocation(Err(e), Err(e)), Invocation(Ok(v), Err(e));
    FailuresTrip(cfg, Initial, [fail, fail, fail]);
    RunAppend(cfg, Initial, [fail, fail], [ok]);
    FailuresTrip(cfg, Initial, [fail, fail]);
    assert [fail, fail] + [ok] == [fail, fail, ok];
  }

  /** With `releaseCount` 1 and an `off` that returns "fb", a breaker that has just
      turned OFF answers the next call with "fb" and serves the call after that with `on`. */
  lemma ReleaseOneScenario<E>(trigger: int, p1: Outcome<string, E>, p2: Outcome<string, E>)
    ensures var cfg := Config(true, trigger, 1, None);
            var rs := Run(cfg, State(false, 0, 0), [Invocation(p1, Ok("fb")), Invocation(p2, Ok("fb"))]).1;
            rs[0] == Returned(OffFunc, "fb") && rs[1] == Report(OnFunc, p2)
  {
    var cfg := Config(true, trigger, 1, None);
    var calls := [Invocation(p1, Ok("fb")), Invocation(p2, Ok("fb"))];
    ProbeEndsOffWindow(cfg, State(false, 0, 0), calls);
  }
}
