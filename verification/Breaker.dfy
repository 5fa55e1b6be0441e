/** The circuit breaker of `resilience/circuit-breaker.ts`: the three fields it keeps, the
    synchronous steps between its awaits, and what those steps guarantee when any number of
    calls are in flight and settle in any order. */
module Breaker {
  import opened Basics

  datatype State = Closed | Open | HalfOpen

  /** The value of the breaker's fields at one instant. */
  datatype Core = Core(state: State, failureCount: nat, lastFailureTime: int)

  datatype Config = Config(threshold: int, timeoutMs: int)

  const FRESH := Core(Closed, 0, 0)

  predicate Admits(cfg: Config, c: Core, now: int) {
    c.state == Closed || (c.state == Open && now - c.lastFailureTime > cfg.timeoutMs)
  }

  function AfterAdmission(c: Core): Core {
    if c.state == Open then c.(state := HalfOpen) else c
  }

  function AfterSuccess(c: Core): Core {
    Core(Closed, 0, c.lastFailureTime)
  }

  function AfterFailure(cfg: Config, c: Core, now: int): Core {
    var n := c.failureCount + 1;
    Core(if n >= cfg.threshold then Open else c.state, n, now)
  }

  /** The object itself. `execute` is split at its await: `Admit` runs before the wrapped
      call, `OnSuccess` or `OnFailure` when that call settles. */
  class CircuitBreaker {
    const cfg: Config
    var state: State
    var failureCount: nat
    var lastFailureTime: int

    constructor (cfg: Config)
      ensures this.cfg == cfg && Value() == FRESH
    {
      this.cfg := cfg;
      state, failureCount, lastFailureTime := Closed, 0, 0;
    }

    function Value(): Core
      reads this
    {
      Core(state, failureCount, lastFailureTime)
    }

    /** False is the source's 'Circuit open' error: the wrapped call is not made. */
    method Admit(now: int) returns (admitted: bool)
      modifies this
      ensures admitted == Admits(cfg, old(Value()), now)
      ensures Value() == if admitted then AfterAdmission(old(Value())) else old(Value())
    {
      if state == HalfOpen {
        return false;
      }
      if state == Open {
        if now - lastFailureTime <= cfg.timeoutMs {
          return false;
        }
        state := HalfOpen;
      }
      return true;
    }

    method OnSuccess()
      modifies this
      ensures Value() == AfterSuccess(old(Value()))
    {
      failureCount := 0;
      state := Closed;
    }

    method OnFailure(now: int)
      modifies this
      ensures Value() == AfterFailure(cfg, old(Value()), now)
    {
      failureCount := failureCount + 1;
      lastFailureTime := now;
      if failureCount >= cfg.threshold && state != Open {
        state := Open;
      }
    }
  }

  // ---------------------------------------------------------------- interleaved calls

  /** How a call settled, and when. */
  datatype Settlement = Settlement(ok: bool, at: int)

  /** The breaker with its callers: who is in flight, who claimed the latest probe, and the
      calls that have settled, in that order. */
  datatype World = World(core: Core, now: int, pending: set<nat>, claim: Option<nat>, history: seq<Settlement>)

  datatype Event =
    | Call(id: nat)
    | Settle(id: nat, ok: bool)
    | Tick(elapsed: nat)

  predicate Enabled(w: World, e: Event) {
    match e
    case Call(id) => id !in w.pending
    case Settle(id, _) => id in w.pending
    case Tick(_) => true
  }

  function Next(cfg: Config, w: World, e: Event): World {
    match e
    case Call(id) =>
      if Admits(cfg, w.core, w.now) then
        w.(core := AfterAdmission(w.core), pending := w.pending + {id},
           claim := if w.core.state == Open then Some(id) else w.claim)
      else w
    case Settle(id, ok) =>
      w.(core := if ok then AfterSuccess(w.core) else AfterFailure(cfg, w.core, w.now),
         pending := w.pending - {id}, history := w.history + [Settlement(ok, w.now)])
    case Tick(elapsed) => w.(now := w.now + elapsed)
  }

  predicate IsRun(cfg: Config, w: World, es: seq<Event>)
    decreases |es|
  {
    es == [] || (Enabled(w, es[0]) && IsRun(cfg, Next(cfg, w, es[0]), es[1..]))
  }

  function After(cfg: Config, w: World, es: seq<Event>): World
    decreases |es|
  {
    if es == [] then w else After(cfg, Next(cfg, w, es[0]), es[1..])
  }

  predicate Initial(w: World) {
    w.core == FRESH && w.now >= 0 && w.pending == {} && w.history == []
  }

  /** Length of the run of failures at the end of a settlement history. */
  function TrailingFailures(history: seq<Settlement>): nat {
    if history == [] || history[|history| - 1].ok then 0
    else 1 + TrailingFailures(history[..|history| - 1])
  }

  /** When the last failure settled; 0 if there has been none. */
  function LastFailure(history: seq<Settlement>): int {
    if history == [] then 0
    else if !history[|history| - 1].ok then history[|history| - 1].at
    else LastFailure(history[..|history| - 1])
  }

  /** The breaker's fields say exactly what its history says, and a half-open breaker is
      waiting for a call that is really still in flight. */
  predicate Faithful(cfg: Config, w: World) {
    && w.core.failureCount == TrailingFailures(w.history)
    && (w.core.state == Closed <==> TrailingFailures(w.history) < cfg.threshold)
    && w.core.lastFailureTime == LastFailure(w.history) <= w.now
    && (w.core.state == HalfOpen ==> w.claim.Some? && w.claim.value in w.pending)
  }

  lemma StepKeepsFaithful(cfg: Config, w: World, e: Event)
    requires cfg.threshold >= 1 && Faithful(cfg, w) && Enabled(w, e)
    ensures Faithful(cfg, Next(cfg, w, e))
  {
    if e.Settle? {
      assert (w.history + [Settlement(e.ok, w.now)])[..|w.history|] == w.history;
    }
  }

  lemma {:induction false} RunKeepsFaithful(cfg: Config, w: World, es: seq<Event>)
    requires cfg.threshold >= 1 && Faithful(cfg, w) && IsRun(cfg, w, es)
    ensures Faithful(cfg, After(cfg, w, es))
    decreases |es|
  {
    if es != [] {
      StepKeepsFaithful(cfg, w, es[0]);
      RunKeepsFaithful(cfg, Next(cfg, w, es[0]), es[1..]);
    }
  }

  /** On every interleaving the breaker is a function of its settlement history, exactly when
      the threshold is positive: with a threshold of zero or less it already starts closed
      although its empty run of failures is not below the threshold. */
  lemma RefinesHistory(cfg: Config)
    ensures cfg.threshold >= 1 <==>
            forall w, es :: Initial(w) && IsRun(cfg, w, es) ==> Faithful(cfg, After(cfg, w, es))
  {
    if cfg.threshold >= 1 {
      forall w, es | Initial(w) && IsRun(cfg, w, es)
        ensures Faithful(cfg, After(cfg, w, es))
      {
        RunKeepsFaithful(cfg, w, es);
      }
    } else {
      var w := World(FRESH, 0, {}, None, []);
      assert Initial(w) && IsRun(cfg, w, []);
      assert !Faithful(cfg, After(cfg, w, []));
      assert TrailingFailures(w.history) == 0 && w.core.state == Closed;
    }
  }

  /** A breaker cannot stick half-open: once every admitted call has settled, it is closed or
      it is open with its timeout running; and no caller gets through while it is half-open. */
  lemma NeverSticksHalfOpen(cfg: Config, w: World, es: seq<Event>, id: nat)
    requires cfg.threshold >= 1 && Initial(w) && IsRun(cfg, w, es)
    ensures var end := After(cfg, w, es);
            && (end.pending == {} ==> end.core.state != HalfOpen)
            && (end.core.state == HalfOpen ==> Next(cfg, end, Call(id)) == end)
            && (end.core.state == Open ==>
                  Next(cfg, end.(now := end.core.lastFailureTime + cfg.timeoutMs + 1), Call(id)).core.state == HalfOpen)
  {
    RunKeepsFaithful(cfg, w, es);
  }

  // ---------------------------------------------------------------- success-free windows

  predicate SuccessFree(es: seq<Event>) {
    forall i :: 0 <= i < |es| ==> !(es[i].Settle? && es[i].ok)
  }

  /** How many calls of a run reach the wrapped function. */
  function Admitted(cfg: Config, w: World, es: seq<Event>): nat
    decreases |es|
  {
    if es == [] then 0
    else (if Probes(cfg, w, es[0]) then 1 else 0) + Admitted(cfg, Next(cfg, w, es[0]), es[1..])
  }

  /** Nobody gets through up to this instant. */
  predicate ShutUntil(cfg: Config, w: World, t: int) {
    w.core.state == Open && w.core.lastFailureTime + cfg.timeoutMs >= t
  }

  lemma {:induction false} StaysShut(cfg: Config, w: World, es: seq<Event>, t: int)
    requires cfg.threshold >= 1 && Faithful(cfg, w) && ShutUntil(cfg, w, t)
    requires IsRun(cfg, w, es) && SuccessFree(es) && After(cfg, w, es).now <= t
    ensures w.now <= After(cfg, w, es).now && After(cfg, w, es).pending <= w.pending
    decreases |es|
  {
    if es != [] {
      ClockGoesOn(cfg, Next(cfg, w, es[0]), es[1..]);
      StepKeepsFaithful(cfg, w, es[0]);
      StaysTripped(cfg, w, es[0]);
      StaysShut(cfg, Next(cfg, w, es[0]), es[1..], t);
    }
  }

  lemma {:induction false} ClockGoesOn(cfg: Config, w: World, es: seq<Event>)
    ensures w.now <= After(cfg, w, es).now
    decreases |es|
  {
    if es != [] {
      ClockGoesOn(cfg, Next(cfg, w, es[0]), es[1..]);
    }
  }

  /** Failing fast: once a failure leaves the breaker open, on whatever run it comes, nobody gets
      through for timeoutMs after it, unless a call that was in flight succeeds. */
  lemma FailsFast(cfg: Config, w: World, before: seq<Event>, id: nat, es: seq<Event>)
    requires cfg.threshold >= 1 && Initial(w) && IsRun(cfg, w, before)
    requires var u := After(cfg, w, before);
             var v := Next(cfg, u, Settle(id, false));
             && id in u.pending && v.core.state == Open
             && IsRun(cfg, v, es) && SuccessFree(es) && After(cfg, v, es).now <= u.now + cfg.timeoutMs
    ensures var v := Next(cfg, After(cfg, w, before), Settle(id, false)); After(cfg, v, es).pending <= v.pending
  {
    RunKeepsFaithful(cfg, w, before);
    var u := After(cfg, w, before);
    StepKeepsFaithful(cfg, u, Settle(id, false));
    var v := Next(cfg, u, Settle(id, false));
    assert v.history[|u.history|] == Settlement(false, u.now);
    StaysShut(cfg, v, es, u.now + cfg.timeoutMs);
  }

  /** What n probes need of the clock, from a breaker in this state until `end`. */
  predicate Spread(w: World, gap: int, n: nat, end: int) {
    && end >= w.now
    && (w.core.state == HalfOpen ==> end >= w.now + n * gap)
    && (w.core.state == Open && n > 0 ==> end >= w.now + (n - 1) * gap && end >= w.core.lastFailureTime + n * gap)
  }

  predicate Probes(cfg: Config, w: World, e: Event) {
    e.Call? && Admits(cfg, w.core, w.now)
  }

  /** The step before a spread-out run: a probe adds one, anything else adds none. */
  lemma ProbeSpreads(cfg: Config, w: World, e: Event, n: nat, end: int)
    requires cfg.threshold >= 1 && cfg.timeoutMs >= 0 && w.core.state != Closed && Probes(cfg, w, e)
    requires Spread(Next(cfg, w, e), cfg.timeoutMs + 1, n, end)
    ensures Spread(w, cfg.timeoutMs + 1, n + 1, end)
  {
    OneMore(n, cfg.timeoutMs + 1);
  }

  lemma SettlingSpreads(cfg: Config, w: World, e: Event, n: nat, end: int)
    requires cfg.threshold >= 1 && cfg.timeoutMs >= 0 && Faithful(cfg, w) && w.core.state != Closed
    requires e.Settle? && !e.ok && Spread(Next(cfg, w, e), cfg.timeoutMs + 1, n, end)
    ensures Spread(w, cfg.timeoutMs + 1, n, end)
  {
    assert Next(cfg, w, e).core.state == Open;
    if n > 0 { OneMore(n - 1, cfg.timeoutMs + 1); }
  }

  lemma WaitingSpreads(cfg: Config, w: World, e: Event, n: nat, end: int)
    requires cfg.timeoutMs >= 0 && w.core.state != Closed && !Probes(cfg, w, e) && !e.Settle?
    requires Spread(Next(cfg, w, e), cfg.timeoutMs + 1, n, end)
    ensures Spread(w, cfg.timeoutMs + 1, n, end)
  {
  }

  /** The clock must advance by more than the timeout for each further probe. */
  lemma {:induction false} ProbesSpreadOut(cfg: Config, w: World, es: seq<Event>)
    requires cfg.threshold >= 1 && cfg.timeoutMs >= 0
    requires Faithful(cfg, w) && w.core.state != Closed
    requires IsRun(cfg, w, es) && SuccessFree(es)
    ensures Spread(w, cfg.timeoutMs + 1, Admitted(cfg, w, es), After(cfg, w, es).now)
    decreases |es|
  {
    if es != [] {
      var e, w' := es[0], Next(cfg, w, es[0]);
      StepKeepsFaithful(cfg, w, e);
      StaysTripped(cfg, w, e);
      ProbesSpreadOut(cfg, w', es[1..]);
      var n, end := Admitted(cfg, w', es[1..]), After(cfg, w', es[1..]).now;
      if Probes(cfg, w, e) { ProbeSpreads(cfg, w, e, n, end); }
      else if e.Settle? { SettlingSpreads(cfg, w, e, n, end); }
      else { WaitingSpreads(cfg, w, e, n, end); }
    }
  }

  /** Only a success closes it. */
  lemma StaysTripped(cfg: Config, w: World, e: Event)
    requires cfg.threshold >= 1 && Faithful(cfg, w) && w.core.state != Closed && !(e.Settle? && e.ok)
    ensures Next(cfg, w, e).core.state != Closed
  {
  }

  /** Rate bound: a window of length L that starts open and sees no success lets through at
      most floor(L / timeoutMs) + 1 calls, however many callers there are and whatever was
      already in flight. The sharper bound divides by timeoutMs + 1. */
  lemma ProbeRateBound(cfg: Config, w: World, es: seq<Event>)
    requires cfg.threshold >= 1 && cfg.timeoutMs >= 1
    requires Faithful(cfg, w) && w.core.state == Open
    requires IsRun(cfg, w, es) && SuccessFree(es)
    ensures var window := After(cfg, w, es).now - w.now;
            && window >= 0
            && Admitted(cfg, w, es) <= window / (cfg.timeoutMs + 1) + 1
            && Admitted(cfg, w, es) <= window / cfg.timeoutMs + 1
  {
    ProbesSpreadOut(cfg, w, es);
    SpreadGivesRate(Admitted(cfg, w, es), cfg.timeoutMs, After(cfg, w, es).now - w.now);
  }

  lemma SpreadGivesRate(n: nat, timeout: nat, window: nat)
    requires timeout >= 1 && (n > 0 ==> (n - 1) * (timeout + 1) <= window)
    ensures n <= window / (timeout + 1) + 1 && n <= window / timeout + 1
  {
    if n > 0 {
      QuotientAtLeast(n - 1, timeout + 1, window);
      assert (n - 1) * (timeout + 1) == (n - 1) * timeout + (n - 1);
      QuotientAtLeast(n - 1, timeout, window);
    }
  }

  lemma QuotientAtLeast(k: nat, d: nat, x: nat)
    requires d > 0 && k * d <= x
    ensures k <= x / d
  {
    var q := x / d;
    assert x < q * d + d;
    MultiplesGrow(q, k, d);
  }

  lemma MultiplesGrow(q: nat, k: nat, d: nat)
    ensures k > q ==> k * d >= q * d + d
  {
    if k > q {
      assert k * d == q * d + (k - q) * d;
      assert (k - q) * d == d + (k - q - 1) * d;
    }
  }

  /** Open with nothing in flight, or half-open with nothing in flight but its own probe. */
  predicate Drained(w: World) {
    match w.core.state
    case Closed => false
    case Open => w.pending == {}
    case HalfOpen => w.claim.Some? && w.pending == {w.claim.value}
  }

  /** Single flight: once an open breaker has nothing in flight, at most one call is in
      flight at any later instant before the next success. */
  lemma {:induction false} SingleFlight(cfg: Config, w: World, es: seq<Event>)
    requires cfg.threshold >= 1 && Faithful(cfg, w) && Drained(w)
    requires IsRun(cfg, w, es) && SuccessFree(es)
    ensures Drained(After(cfg, w, es)) && |After(cfg, w, es).pending| <= 1
    decreases |es|
  {
    if es != [] {
      var w' := Next(cfg, w, es[0]);
      StepKeepsFaithful(cfg, w, es[0]);
      assert Drained(w') by {
        if es[0].Settle? { assert w'.pending == {}; }
        if es[0].Call? { assert w.core.state == Open ==> {} + {es[0].id} == {es[0].id}; }
      }
      SingleFlight(cfg, w', es[1..]);
    }
  }

  /** More than every id in use. */
  lemma {:induction false} UnusedFrom(ids: set<nat>) returns (bound: nat)
    ensures forall id <- ids :: id < bound
    decreases |ids|
  {
    if ids == {} {
      bound := 0;
    } else {
      var id :| id in ids;
      var rest := UnusedFrom(ids - {id});
      bound := if rest > id then rest else id + 1;
      assert forall k <- ids :: k == id || k in ids - {id};
    }
  }

  /** A call that gets through adds to what is in flight. */
  lemma AdmittedCall(cfg: Config, w: World, id: nat)
    requires Admits(cfg, w.core, w.now) && id !in w.pending
    ensures |Next(cfg, w, Call(id)).pending| == |w.pending| + 1
  {
    assert Next(cfg, w, Call(id)).pending == w.pending + {id};
  }

  /** From any state that is not drained a few steps put two calls in flight: two callers while
      closed, or a caller after the timeout while a straggler is still out. */
  lemma TwoInFlight(cfg: Config, w: World) returns (es: seq<Event>)
    requires cfg.threshold >= 1 && Faithful(cfg, w) && !Drained(w)
    ensures IsRun(cfg, w, es) && SuccessFree(es) && |After(cfg, w, es).pending| >= 2
  {
    var id := UnusedFrom(w.pending);
    match w.core.state
    case Closed =>
      var w1 := Next(cfg, w, Call(id));
      AdmittedCall(cfg, w, id);
      AdmittedCall(cfg, w1, id + 1);
      Unfold(cfg, w1, Call(id + 1), []);
      Unfold(cfg, w, Call(id), [Call(id + 1)]);
      es := [Call(id)] + [Call(id + 1)];
    case Open =>
      var wait: nat := if cfg.timeoutMs >= 0 then cfg.timeoutMs + 1 else 0;
      var w1 := Next(cfg, w, Tick(wait));
      AdmittedCall(cfg, w1, id);
      Unfold(cfg, w1, Call(id), []);
      Unfold(cfg, w, Tick(wait), [Call(id)]);
      es := [Tick(wait)] + [Call(id)];
    case HalfOpen =>
      es := [];
      TwoOf(w.pending, w.claim.value);
  }

  lemma TwoOf(ids: set<nat>, id: nat)
    requires id in ids && ids != {id}
    ensures |ids| >= 2
  {
    var other :| other in ids && other != id;
    assert |ids - {id}| >= 1 by { assert other in ids - {id}; }
  }

  /** Exactly when: of all states the breaker gets to, those from which at most one call is in
      flight until the next success are the drained ones. */
  lemma SingleFlightIff(cfg: Config, w: World)
    requires cfg.threshold >= 1 && Faithful(cfg, w)
    ensures Drained(w) <==> forall es :: IsRun(cfg, w, es) && SuccessFree(es) ==> |After(cfg, w, es).pending| <= 1
  {
    if Drained(w) {
      forall es | IsRun(cfg, w, es) && SuccessFree(es)
        ensures |After(cfg, w, es).pending| <= 1
      {
        SingleFlight(cfg, w, es);
      }
    } else {
      var es := TwoInFlight(cfg, w);
      assert |After(cfg, w, es).pending| > 1;
    }
  }

  /** For example: of two calls admitted while closed one may fail and trip the breaker, and
      the other is still out when the probe starts. */
  lemma StragglersBesideProbe()
    ensures exists cfg: Config, w: World, es: seq<Event> :: cfg.threshold >= 1 && Initial(w) && IsRun(cfg, w, es)
              && After(cfg, w, es).core.state == HalfOpen && |After(cfg, w, es).pending| == 2
  {
    var cfg, w := Config(1, 0), World(FRESH, 0, {}, None, []);
    var w1 := Next(cfg, w, Call(0));
    var w2 := Next(cfg, w1, Call(1));
    var w3 := Next(cfg, w2, Settle(0, false));
    var w4 := Next(cfg, w3, Tick(1));
    var w5 := Next(cfg, w4, Call(2));
    Unfold(cfg, w4, Call(2), []);
    Unfold(cfg, w3, Tick(1), [Call(2)]);
    Unfold(cfg, w2, Settle(0, false), [Tick(1), Call(2)]);
    Unfold(cfg, w1, Call(1), [Settle(0, false), Tick(1), Call(2)]);
    Unfold(cfg, w, Call(0), [Call(1), Settle(0, false), Tick(1), Call(2)]);
    assert w5.pending == {1, 2};
    assert After(cfg, w, [Call(0), Call(1), Settle(0, false), Tick(1), Call(2)]) == w5;
  }

  lemma Unfold(cfg: Config, w: World, e: Event, es: seq<Event>)
    ensures IsRun(cfg, w, [e] + es) <==> Enabled(w, e) && IsRun(cfg, Next(cfg, w, e), es)
    ensures After(cfg, w, [e] + es) == After(cfg, Next(cfg, w, e), es)
  {
    assert ([e] + es)[1..] == es;
  }
}
