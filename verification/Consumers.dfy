/** The consumption loop of `messaging/resilient-consumer.ts` as it runs. Each awaited call is
    also noted as the step of the pipeline that it stands for, and what a consumer does is
    shown to be a run of the pipeline. */
module Consumers {
  import opened Basics
  import opened Outbox
  import opened Pipeline

  function Pause(base: int, attempt: nat): int {
    base * attempt
  }

  /** The sleeps of the first n retries: base, twice base, and so on. */
  function Backoff(base: int, n: nat): int {
    if n == 0 then 0 else Backoff(base, n - 1) + Pause(base, n)
  }

  /** The retries among n calls. */
  function Retries(n: nat): nat {
    if n == 0 then 0 else n - 1
  }

  lemma {:induction false} BackoffIs(base: int, n: nat)
    ensures 2 * Backoff(base, n) == base * n * (n + 1)
  {
    if n > 0 {
      BackoffIs(base, n - 1);
      assert 2 * (base * n) == base * n * 2;
      assert base * (n - 1) * n == base * n * (n - 1);
      assert base * n * (n - 1) + base * n * 2 == base * n * (n + 1);
    }
  }

  datatype Reason = PoisonPill | HandlerError

  datatype DeadLetterInput = DeadLetterInput(topic: string, value: Value, reason: Reason, partition: nat, offset: nat)

  /** A call after which there is no other, whatever the budget. */
  predicate Last(handled: bool, call: Call) {
    !handled || call.ok || call.hookThrows
  }

  /** How often the router is called: to the first call that does not throw or whose retry hook
      throws, or to the end of the budget. An event without a handler never throws. */
  function CallsMade(handled: bool, calls: nat -> Call, budget: nat): (n: nat)
    ensures n <= budget && (budget > 0 ==> n > 0)
    ensures forall k :: 0 <= k < n - 1 ==> !Last(handled, calls(k))
    ensures n < budget ==> Last(handled, calls(n - 1))
  {
    CallsFrom(handled, calls, 0, budget)
  }

  function CallsFrom(handled: bool, calls: nat -> Call, a: nat, budget: nat): (n: nat)
    requires a <= budget
    ensures a <= n <= budget && (a < budget ==> a < n)
    ensures forall k :: a <= k < n - 1 ==> !Last(handled, calls(k))
    ensures n < budget ==> Last(handled, calls(n - 1))
    decreases budget - a
  {
    if a == budget then a else if Last(handled, calls(a)) then a + 1 else CallsFrom(handled, calls, a + 1, budget)
  }

  /** The calls from the a-th on, n in all with those before, end in one that does not throw. */
  predicate EndsWell(handled: bool, calls: nat -> Call, a: nat, n: nat) {
    a < n && (!handled || calls(n - 1).ok)
  }

  /** Whether a message that gets as far as its handler, or needs none, ends up dead-lettered,
      and why. */
  function Verdict(cfg: Config, value: Value, calls: nat -> Call): Option<Reason> {
    match value
    case Tombstone => None
    case Poison(_) => Some(PoisonPill)
    case Event(e) => if Routed(cfg, e, calls) then None else Some(HandlerError)
  }

  function Attempts(cfg: Config, e: CloudEvent, calls: nat -> Call): nat {
    CallsMade(e.eventType in cfg.handles, calls, CallBudget(cfg))
  }

  predicate Routed(cfg: Config, e: CloudEvent, calls: nat -> Call) {
    EndsWell(e.eventType in cfg.handles, calls, 0, Attempts(cfg, e, calls))
  }

  /** The a-th call is made: those before it threw, and no retry hook did. */
  predicate Reached(cfg: Config, calls: nat -> Call, a: nat) {
    a <= cfg.maxRetries && forall b: nat :: b < a ==> !calls(b).ok && !calls(b).hookThrows
  }

  /** What ends as a dead letter: a message that is no event, and an event whose handler throws
      on every call that is made. With a negative maxRetries that is every event. */
  ghost predicate GoesWrong(cfg: Config, value: Value, calls: nat -> Call) {
    match value
    case Tombstone => false
    case Poison(_) => true
    case Event(e) =>
      cfg.maxRetries < 0 || (e.eventType in cfg.handles && forall a: nat :: Reached(cfg, calls, a) ==> !calls(a).ok)
  }

  lemma VerdictIff(cfg: Config, value: Value, calls: nat -> Call)
    ensures Verdict(cfg, value, calls).Some? <==> GoesWrong(cfg, value, calls)
    ensures Verdict(cfg, value, calls).Some? ==> (Verdict(cfg, value, calls).value == PoisonPill <==> value.Poison?)
  {
    if value.Event? && cfg.maxRetries >= 0 && value.event.eventType in cfg.handles {
      EndIff(cfg, calls, CallsMade(true, calls, CallBudget(cfg)));
    }
  }

  lemma EndIff(cfg: Config, calls: nat -> Call, n: nat)
    requires cfg.maxRetries >= 0 && n == CallsMade(true, calls, CallBudget(cfg))
    ensures EndsWell(true, calls, 0, n) <==> exists a: nat :: Reached(cfg, calls, a) && calls(a).ok
  {
    assert Reached(cfg, calls, n - 1) by {
      assert forall b: nat :: b < n - 1 ==> !Last(true, calls(b));
    }
    assert n < CallBudget(cfg) ==> Last(true, calls(n - 1));
    forall a: nat
      ensures n <= a ==> !Reached(cfg, calls, a)
      ensures a < n - 1 ==> !calls(a).ok
    {
      assert a < n - 1 ==> !Last(true, calls(a));
    }
  }

  lemma NoCalls(cfg: Config, e: CloudEvent, calls: nat -> Call, base: int)
    requires cfg.maxRetries < 0
    ensures Attempts(cfg, e, calls) == 0 && Backoff(base, Retries(0)) == 0 && HookCalls(cfg, e, calls) == 0 && !Routed(cfg, e, calls)
  {
  }

  /** What comes of the calls, told by the last one that is made: how many there are, how long
      the sleeps between them are, and how often the retry hook is called. */
  lemma LastCallDecides(cfg: Config, e: CloudEvent, calls: nat -> Call, base: int, a: nat)
    requires e.eventType in cfg.handles && Reached(cfg, calls, a) && !Reached(cfg, calls, a + 1)
    ensures Attempts(cfg, e, calls) == a + 1 && (Routed(cfg, e, calls) <==> calls(a).ok)
    ensures 2 * Backoff(base, Retries(Attempts(cfg, e, calls))) == base * a * (a + 1)
    ensures HookCalls(cfg, e, calls) == a + if !calls(a).ok && a < cfg.maxRetries then 1 else 0
  {
    var n := Attempts(cfg, e, calls);
    assert n < CallBudget(cfg) ==> Last(true, calls(n - 1));
    assert Reached(cfg, calls, n - 1) by {
      assert forall b: nat :: b < n - 1 ==> !Last(true, calls(b));
    }
    assert a < n - 1 ==> !Last(true, calls(a));
    assert Reached(cfg, calls, a + 1) <==> a < cfg.maxRetries && !calls(a).ok && !calls(a).hookThrows;
    BackoffIs(base, a);
  }

  /** The letter says where the message was, what it held, and why it is there. */
  predicate IsLetter(l: DeadLetterInput, part: Part, i: nat, value: Value) {
    && l.topic == part.topic && l.partition == part.index && l.offset == i && l.value == value
    && (l.reason == PoisonPill <==> value.Poison?)
  }

  /** The retry hook is called after each call that throws, if another would be left. */
  function HookCalls(cfg: Config, e: CloudEvent, calls: nat -> Call): nat {
    var n := Attempts(cfg, e, calls);
    if n > 0 && !Routed(cfg, e, calls) && n <= cfg.maxRetries then n else Retries(n)
  }

  // ---------------------------------------------------------------- as steps of the pipeline

  function Handles(c: Id, calls: nat -> Call, a: nat, n: nat): seq<Step>
    requires a <= n
    decreases n - a
  {
    if a == n then [] else [Con(Handle(c, calls(a)))] + Handles(c, calls, a + 1, n)
  }

  lemma {:induction false} HandlesSplit(c: Id, calls: nat -> Call, a: nat, n: nat)
    requires a <= n
    ensures Handles(c, calls, a, n + 1) == Handles(c, calls, a, n) + [Con(Handle(c, calls(n)))]
    decreases n - a
  {
    if a < n {
      HandlesSplit(c, calls, a + 1, n);
    }
  }

  lemma OneMoreHandle(before: seq<Step>, trail: seq<Step>, c: Id, calls: nat -> Call, n: nat)
    requires trail == before + Handles(c, calls, 0, n)
    ensures trail + [Con(Handle(c, calls(n)))] == before + Handles(c, calls, 0, n + 1)
  {
    HandlesSplit(c, calls, 0, n);
  }

  function HandleSteps(cfg: Config, c: Id, value: Value, calls: nat -> Call): seq<Step> {
    if value.Event? then Handles(c, calls, 0, Attempts(cfg, value.event, calls)) else []
  }

  function SendSteps(c: Id, dead: Part, verdict: Option<Reason>, io: Io): seq<Step> {
    if verdict.Some? then [Con(Bury(c, dead, io))] else []
  }

  function CommitSteps(c: Id, verdict: Option<Reason>, sendIo: Io, commitIo: Io): seq<Step> {
    if verdict.Some? && sendIo != Done then [] else [Con(Commit(c, commitIo))]
  }

  /** What `eachMessage` does with a message once its trace context is set up. */
  function DealSteps(cfg: Config, c: Id, dead: Part, value: Value, calls: nat -> Call, sendIo: Io, commitIo: Io): seq<Step> {
    var v := Verdict(cfg, value, calls);
    HandleSteps(cfg, c, value, calls) + (SendSteps(c, dead, v, sendIo) + CommitSteps(c, v, sendIo, commitIo))
  }

  /** And everything it does, from the delivery on. */
  function Trail(cfg: Config, c: Id, dead: Part, i: nat, value: Value, calls: nat -> Call, sendIo: Io, commitIo: Io): seq<Step> {
    [Con(Deliver(c, i))] + if Untraceable(value) then [] else DealSteps(cfg, c, dead, value, calls, sendIo, commitIo)
  }

  /** What one turn says about how many there are in all, and about how they end. */
  lemma TurnDecides(cfg: Config, e: CloudEvent, calls: nat -> Call, a: nat)
    requires a < CallBudget(cfg)
    requires var handled := e.eventType in cfg.handles; Attempts(cfg, e, calls) == CallsFrom(handled, calls, a, CallBudget(cfg))
    ensures var handled := e.eventType in cfg.handles;
            if Last(handled, calls(a)) || a == cfg.maxRetries then
              Attempts(cfg, e, calls) == a + 1 && (Routed(cfg, e, calls) <==> !handled || calls(a).ok)
            else Attempts(cfg, e, calls) == CallsFrom(handled, calls, a + 1, CallBudget(cfg))
  {
  }

  class ResilientEventConsumer {
    const cfg: Config
    const retryBackoffMs: int
    const id: Id
    const deadPart: Part
    var called: nat
    var hooks: nat
    var slept: int
    var sent: seq<DeadLetterInput>
    var committed: Option<nat>
    /** The steps of the pipeline that its calls of the outside world stand for. */
    ghost var trail: seq<Step>

    constructor (cfg: Config, retryBackoffMs: int, id: Id, deadPart: Part)
      ensures this.cfg == cfg && this.retryBackoffMs == retryBackoffMs && this.id == id && this.deadPart == deadPart
      ensures called == 0 && hooks == 0 && slept == 0 && sent == [] && committed == None && trail == []
    {
      this.cfg, this.retryBackoffMs, this.id, this.deadPart := cfg, retryBackoffMs, id, deadPart;
      called, hooks, slept, sent, committed, trail := 0, 0, 0, [], None, [];
    }

    /** `router.route`: true unless the handler throws. */
    method Route(event: CloudEvent, call: Call) returns (ok: bool)
      modifies `called, `trail
      ensures ok <==> event.eventType !in cfg.handles || call.ok
      ensures called == old(called) + if event.eventType in cfg.handles then 1 else 0
      ensures trail == old(trail) + [Con(Handle(id, call))]
    {
      trail := trail + [Con(Handle(id, call))];
      if event.eventType !in cfg.handles {
        return true;
      }
      called := called + 1;
      return call.ok;
    }

    /** `deadLetter.send`. */
    method Send(input: DeadLetterInput, io: Io) returns (threw: bool)
      modifies `sent, `trail
      ensures threw <==> io != Done
      ensures sent == old(sent) + if io == FailedClean then [] else [input]
      ensures trail == old(trail) + [Con(Bury(id, deadPart, io))]
    {
      trail := trail + [Con(Bury(id, deadPart, io))];
      if io != FailedClean {
        sent := sent + [input];
      }
      return io != Done;
    }

    /** `commitOffsets` with the offset after the message's. */
    method CommitOffset(i: nat, io: Io) returns (threw: bool)
      modifies `committed, `trail
      ensures threw <==> io != Done
      ensures committed == if io == FailedClean then old(committed) else Some(i + 1)
      ensures trail == old(trail) + [Con(Commit(id, io))]
    {
      trail := trail + [Con(Commit(id, io))];
      if io != FailedClean {
        committed := Some(i + 1);
      }
      return io != Done;
    }

    /** One turn of the loop: the call, and the hook and the sleep if it throws and another is
        to follow. `more` is false if the loop is over, by success or by a hook that throws. */
    method TryOnce(event: CloudEvent, attempt: nat, call: Call) returns (ok: bool, more: bool)
      modifies `called, `hooks, `slept, `trail
      ensures ok <==> event.eventType !in cfg.handles || call.ok
      ensures more <==> !ok && !(attempt < cfg.maxRetries && call.hookThrows)
      ensures called == old(called) + if event.eventType in cfg.handles then 1 else 0
      ensures hooks == old(hooks) + if !ok && attempt < cfg.maxRetries then 1 else 0
      ensures slept == old(slept) + if more && attempt < cfg.maxRetries then Pause(retryBackoffMs, attempt + 1) else 0
      ensures trail == old(trail) + [Con(Handle(id, call))]
    {
      ok := Route(event, call);
      if !ok && attempt < cfg.maxRetries {
        hooks := hooks + 1;
        if call.hookThrows {
          return false, false;
        }
        slept := slept + Pause(retryBackoffMs, attempt + 1);
      }
      more := !ok;
    }

    /** `routeWithRetry`. It calls the handler until that succeeds or the retry hook throws,
        maxRetries + 1 times at the most, and sleeps once between two calls, a little longer
        each time. */
    method RouteWithRetry(event: CloudEvent, calls: nat -> Call) returns (ok: bool)
      modifies `called, `hooks, `slept, `trail
      ensures ok <==> Routed(cfg, event, calls)
      ensures called == old(called) + if event.eventType in cfg.handles then Attempts(cfg, event, calls) else 0
      ensures slept == old(slept) + Backoff(retryBackoffMs, Retries(Attempts(cfg, event, calls)))
      ensures hooks == old(hooks) + HookCalls(cfg, event, calls)
      ensures trail == old(trail) + HandleSteps(cfg, id, Event(event), calls)
    {
      ghost var handled := event.eventType in cfg.handles;
      var attempt := 0;
      while attempt <= cfg.maxRetries
        invariant 0 <= attempt <= CallBudget(cfg) && (attempt > 0 ==> handled)
        invariant Attempts(cfg, event, calls) == CallsFrom(handled, calls, attempt, CallBudget(cfg))
        invariant attempt > cfg.maxRetries ==> Attempts(cfg, event, calls) == attempt && !Routed(cfg, event, calls)
        invariant called == old(called) + attempt
        invariant hooks == old(hooks) + if attempt <= cfg.maxRetries then attempt else Retries(attempt)
        invariant slept == old(slept) + Backoff(retryBackoffMs, if attempt <= cfg.maxRetries then attempt else Retries(attempt))
        invariant trail == old(trail) + Handles(id, calls, 0, attempt)
      {
        OneMoreHandle(old(trail), trail, id, calls, attempt);
        TurnDecides(cfg, event, calls, attempt);
        var more;
        ok, more := TryOnce(event, attempt, calls(attempt));
        if !more {
          return;
        }
        attempt := attempt + 1;
      }
      return false;
    }

    /** The dead-lettering, if any, and then the commit: not when `deadLetter.send` throws. */
    method Finish(value: Value, i: nat, verdict: Option<Reason>, sendIo: Io, commitIo: Io) returns (threw: bool)
      modifies `sent, `committed, `trail
      ensures threw <==> (verdict.Some? && sendIo != Done) || commitIo != Done
      ensures sent == old(sent) + if verdict.Some? && sendIo != FailedClean then [LetterOf(value, i, verdict.value)] else []
      ensures committed == if (verdict.Some? && sendIo != Done) || commitIo == FailedClean then old(committed) else Some(i + 1)
      ensures trail == old(trail) + (SendSteps(id, deadPart, verdict, sendIo) + CommitSteps(id, verdict, sendIo, commitIo))
    {
      if verdict.Some? {
        threw := Send(LetterOf(value, i, verdict.value), sendIo);
        if threw {
          return;
        }
      }
      threw := CommitOffset(i, commitIo);
    }

    function LetterOf(value: Value, i: nat, reason: Reason): DeadLetterInput {
      DeadLetterInput(id.part.topic, value, reason, id.part.index, i)
    }

    /** `eachMessage`. The offset is committed once the message has been handled, skipped or
        dead-lettered. What comes out of here is a throw of `startTraceContext`, of the
        dead-letter producer or of the commit; a handler's, or its hook's, does not. */
    method EachMessage(value: Value, i: nat, calls: nat -> Call, sendIo: Io, commitIo: Io) returns (threw: bool)
      modifies this
      ensures Untraceable(value) ==> threw && sent == old(sent) && committed == old(committed) && called == old(called)
      ensures !Untraceable(value) ==>
                var wrong := GoesWrong(cfg, value, calls);
                && (threw <==> (wrong && sendIo != Done) || commitIo != Done)
                && old(sent) <= sent && |sent| == |old(sent)| + (if wrong && sendIo != FailedClean then 1 else 0)
                && (forall l <- sent[|old(sent)|..] :: IsLetter(l, id.part, i, value))
                && committed == (if (wrong && sendIo != Done) || commitIo == FailedClean then old(committed) else Some(i + 1))
      ensures trail == old(trail) + Trail(cfg, id, deadPart, i, value, calls, sendIo, commitIo)
    {
      trail := trail + [Con(Deliver(id, i))];
      if Untraceable(value) {
        return true;
      }
      VerdictIff(cfg, value, calls);
      threw := Deal(value, i, calls, sendIo, commitIo);
      Regroup(old(trail), [Con(Deliver(id, i))], DealSteps(cfg, id, deadPart, value, calls, sendIo, commitIo));
    }

    /** The rest of `eachMessage`, once its trace context is set up. */
    method Deal(value: Value, i: nat, calls: nat -> Call, sendIo: Io, commitIo: Io) returns (threw: bool)
      modifies this
      ensures var v := Verdict(cfg, value, calls);
              && (threw <==> (v.Some? && sendIo != Done) || commitIo != Done)
              && sent == old(sent) + (if v.Some? && sendIo != FailedClean then [LetterOf(value, i, v.value)] else [])
              && committed == (if (v.Some? && sendIo != Done) || commitIo == FailedClean then old(committed) else Some(i + 1))
      ensures trail == old(trail) + DealSteps(cfg, id, deadPart, value, calls, sendIo, commitIo)
    {
      var verdict: Option<Reason>;
      match value {
        case Tombstone =>
          verdict := None;
        case Poison(_) =>
          verdict := Some(PoisonPill);
        case Event(event) =>
          var ok := RouteWithRetry(event, calls);
          verdict := if ok then None else Some(HandlerError);
      }
      assert verdict == Verdict(cfg, value, calls);
      assert trail == old(trail) + HandleSteps(cfg, id, value, calls);
      ghost var finish := SendSteps(id, deadPart, verdict, sendIo) + CommitSteps(id, verdict, sendIo, commitIo);
      Regroup(old(trail), HandleSteps(cfg, id, value, calls), finish);
      threw := Finish(value, i, verdict, sendIo, commitIo);
    }
  }

  // ---------------------------------------------------------------- and they are a run

  /** All that has changed is the consumer's work, what is handled, and effects. */
  ghost predicate Worked(s: State, t: State, c: Id, w: Work) {
    && c in s.consumers && t.topic == s.topic && t.dlq == s.dlq && t.rows == s.rows && t.committed == s.committed
    && t.consumers == s.consumers[c := Consumer(s.consumers[c].pos, w)]
  }

  lemma DeliverWorks(cfg: Config, s: State, c: Id, i: nat)
    requires EnabledCon(cfg, s, Deliver(c, i)) && !Untraceable(s.topic[i].value)
    ensures var t := NextCon(cfg, s, Deliver(c, i)); Worked(s, t, c, FirstWork(cfg, s.topic[i].value, i)) && t.handled == s.handled
  {
  }

  lemma HandleWorks(cfg: Config, s: State, c: Id, i: nat, a: nat, call: Call)
    requires c in s.consumers && i < |s.topic| && s.topic[i].value.Event? && s.consumers[c].work == Routing(i, a)
    ensures var x, e := Handle(c, call), s.topic[i].value.event;
            && EnabledCon(cfg, s, x) && Worked(s, NextCon(cfg, s, x), c, WorkAfterCall(cfg, e, i, a, call))
            && NextCon(cfg, s, x).handled == s.handled + if e.eventType in cfg.handles && call.ok then {i} else {}
  {
  }

  /** The calls from the a-th on, up to the n-th, are a run that ends in success or not. */
  ghost predicate CallsRun(cfg: Config, s: State, c: Id, i: nat, calls: nat -> Call, a: nat, n: nat, good: bool)
    requires a <= n && i < |s.topic| && s.topic[i].value.Event?
  {
    var es := Handles(c, calls, a, n);
    && IsRun(cfg, s, es)
    && Worked(s, After(cfg, s, es), c, if good then Committing(i) else Burying(i))
    && After(cfg, s, es).handled == s.handled + if good && s.topic[i].value.event.eventType in cfg.handles then {i} else {}
  }

  lemma LastCall(cfg: Config, s: State, c: Id, i: nat, calls: nat -> Call, a: nat)
    requires c in s.consumers && i < |s.topic| && s.topic[i].value.Event? && s.consumers[c].work == Routing(i, a)
    requires a >= cfg.maxRetries || Last(s.topic[i].value.event.eventType in cfg.handles, calls(a))
    ensures CallsRun(cfg, s, c, i, calls, a, a + 1, s.topic[i].value.event.eventType !in cfg.handles || calls(a).ok)
  {
    var step := Con(Handle(c, calls(a)));
    HandleWorks(cfg, s, c, i, a, calls(a));
    StepThen(cfg, s, step, []);
    assert Handles(c, calls, a, a + 1) == [step] + [];
  }

  lemma OneMoreCall(cfg: Config, s: State, t: State, c: Id, i: nat, calls: nat -> Call, a: nat, n: nat, good: bool)
    requires c in s.consumers && a < n && i < |s.topic| && s.topic[i].value.Event? && s.consumers[c].work == Routing(i, a)
    requires !Last(s.topic[i].value.event.eventType in cfg.handles, calls(a)) && a < cfg.maxRetries
    requires t == NextCon(cfg, s, Handle(c, calls(a))) && t.topic == s.topic
    requires CallsRun(cfg, t, c, i, calls, a + 1, n, good)
    ensures CallsRun(cfg, s, c, i, calls, a, n, good)
  {
    HandleWorks(cfg, s, c, i, a, calls(a));
    StepThen(cfg, s, Con(Handle(c, calls(a))), Handles(c, calls, a + 1, n));
  }

  /** Whether there is another call after the a-th. */
  predicate GoesOn(cfg: Config, handled: bool, calls: nat -> Call, a: nat) {
    a < cfg.maxRetries && !Last(handled, calls(a))
  }

  lemma CallsGoOn(cfg: Config, handled: bool, calls: nat -> Call, a: nat)
    requires a < CallBudget(cfg)
    ensures var n := CallsFrom(handled, calls, a, CallBudget(cfg));
            if GoesOn(cfg, handled, calls, a) then n == CallsFrom(handled, calls, a + 1, CallBudget(cfg)) && n > a + 1
            else n == a + 1
  {
  }

  lemma {:induction false} HandlesAreARun(cfg: Config, s: State, c: Id, i: nat, calls: nat -> Call, a: nat)
    requires c in s.consumers && i < |s.topic| && s.topic[i].value.Event?
    requires a <= CallBudget(cfg) && s.consumers[c].work == if a < CallBudget(cfg) then Routing(i, a) else Burying(i)
    ensures var handled := s.topic[i].value.event.eventType in cfg.handles;
            var n := CallsFrom(handled, calls, a, CallBudget(cfg));
            CallsRun(cfg, s, c, i, calls, a, n, EndsWell(handled, calls, a, n))
    decreases CallBudget(cfg) - a
  {
    var handled := s.topic[i].value.event.eventType in cfg.handles;
    if a < CallBudget(cfg) {
      CallsGoOn(cfg, handled, calls, a);
      if GoesOn(cfg, handled, calls, a) {
        HandleWorks(cfg, s, c, i, a, calls(a));
        var t := NextCon(cfg, s, Handle(c, calls(a)));
        HandlesAreARun(cfg, t, c, i, calls, a + 1);
        var n := CallsFrom(handled, calls, a, CallBudget(cfg));
        OneMoreCall(cfg, s, t, c, i, calls, a, n, EndsWell(handled, calls, a, n));
      } else {
        LastCall(cfg, s, c, i, calls, a);
      }
    }
  }

  /** The dead-lettering and the commit, from a consumer that is ready for them. */
  lemma FinishIsARun(cfg: Config, s: State, c: Id, dead: Part, i: nat, v: Option<Reason>, sendIo: Io, commitIo: Io)
    requires c in s.consumers && i < |s.topic| && dead.topic == DeadTopic(c.part.topic)
    requires s.consumers[c].work == if v.Some? then Burying(i) else Committing(i)
    ensures var es := SendSteps(c, dead, v, sendIo) + CommitSteps(c, v, sendIo, commitIo);
            IsRun(cfg, s, es) && Finished(cfg, s, After(cfg, s, es), c, dead, i, v, sendIo, commitIo) && After(cfg, s, es).handled == s.handled
  {
    if v.Some? {
      var bury := Con(Bury(c, dead, sendIo));
      var t := Next(cfg, s, bury);
      if sendIo == Done {
        var commit := Con(Commit(c, commitIo));
        assert t.consumers[c].work == Committing(i);
        StepThen(cfg, t, commit, []);
        StepThen(cfg, s, bury, [commit]);
      } else {
        StepThen(cfg, s, bury, []);
      }
    } else {
      StepThen(cfg, s, Con(Commit(c, commitIo)), []);
    }
  }

  /** What is left once a message has been seen to, in the terms of the pipeline. */
  ghost predicate Finished(cfg: Config, s: State, t: State, c: Id, dead: Part, i: nat, v: Option<Reason>, sendIo: Io, commitIo: Io)
    requires i < |s.topic|
  {
    var m := s.topic[i];
    && t.topic == s.topic && t.rows == s.rows
    && t.dlq == s.dlq + (if v.Some? && sendIo != FailedClean then
                           [Dead(dead, m.value, Some(c.part.topic), if cfg.preserves then m.replays else 0, Buried(i), m.root)] else [])
    && t.committed == (if (v.Some? && sendIo != Done) || commitIo == FailedClean then s.committed else s.committed[c.part := i + 1])
    && (if (v.Some? && sendIo != Done) || commitIo != Done then c !in t.consumers
        else c in t.consumers && t.consumers[c] == Consumer(i + 1, Waiting))
  }

  ghost predicate Succeeds(cfg: Config, value: Value, calls: nat -> Call) {
    value.Event? && value.event.eventType in cfg.handles && Routed(cfg, value.event, calls)
  }

  lemma HandlingIsARun(cfg: Config, s: State, c: Id, i: nat, calls: nat -> Call)
    requires c in s.consumers && i < |s.topic| && s.consumers[c].work == FirstWork(cfg, s.topic[i].value, i)
    ensures var value := s.topic[i].value;
            var es := HandleSteps(cfg, c, value, calls);
            && IsRun(cfg, s, es)
            && Worked(s, After(cfg, s, es), c, if Verdict(cfg, value, calls).Some? then Burying(i) else Committing(i))
            && After(cfg, s, es).handled == s.handled + if Succeeds(cfg, value, calls) then {i} else {}
  {
    if s.topic[i].value.Event? { HandlesAreARun(cfg, s, c, i, calls, 0); }
  }

  lemma SeenToIsARun(cfg: Config, s: State, c: Id, dead: Part, i: nat, calls: nat -> Call, sendIo: Io, commitIo: Io)
    requires c in s.consumers && i < |s.topic| && dead.topic == DeadTopic(c.part.topic)
    requires s.consumers[c].work == FirstWork(cfg, s.topic[i].value, i)
    ensures var value := s.topic[i].value;
            var v := Verdict(cfg, value, calls);
            var es := HandleSteps(cfg, c, value, calls) + (SendSteps(c, dead, v, sendIo) + CommitSteps(c, v, sendIo, commitIo));
            && IsRun(cfg, s, es) && Finished(cfg, s, After(cfg, s, es), c, dead, i, v, sendIo, commitIo)
            && After(cfg, s, es).handled == s.handled + if Succeeds(cfg, value, calls) then {i} else {}
  {
    var v := Verdict(cfg, s.topic[i].value, calls);
    var handles := HandleSteps(cfg, c, s.topic[i].value, calls);
    HandlingIsARun(cfg, s, c, i, calls);
    var t := After(cfg, s, handles);
    FinishIsARun(cfg, t, c, dead, i, v, sendIo, commitIo);
    RunThen(cfg, s, handles, SendSteps(c, dead, v, sendIo) + CommitSteps(c, v, sendIo, commitIo));
  }

  /** A delivery whose trace context throws is all there is to it. */
  lemma ThrownIsARun(cfg: Config, s: State, c: Id, i: nat)
    requires EnabledCon(cfg, s, Deliver(c, i)) && Untraceable(s.topic[i].value)
    ensures var es := [Con(Deliver(c, i))]; IsRun(cfg, s, es) && After(cfg, s, es) == s.(consumers := s.consumers - {c})
  {
    OneStep(cfg, s, Con(Deliver(c, i)));
    assert NextCon(cfg, s, Deliver(c, i)).dlq == s.dlq;
  }

  /** `eachMessage` is a run of the pipeline: from any state in which the message is the next
      one of a waiting consumer, its trail can be taken, and leaves the dead letters and the
      offset that the method leaves. */
  lemma EachMessageIsARun(cfg: Config, s: State, c: Id, dead: Part, i: nat, calls: nat -> Call, sendIo: Io, commitIo: Io)
    requires EnabledCon(cfg, s, Deliver(c, i)) && dead.topic == DeadTopic(c.part.topic)
    ensures var value := s.topic[i].value;
            var es := Trail(cfg, c, dead, i, value, calls, sendIo, commitIo);
            && IsRun(cfg, s, es)
            && (if Untraceable(value) then After(cfg, s, es) == s.(consumers := s.consumers - {c})
                else
                  && Finished(cfg, s, After(cfg, s, es), c, dead, i, Verdict(cfg, value, calls), sendIo, commitIo)
                  && After(cfg, s, es).handled == s.handled + if Succeeds(cfg, value, calls) then {i} else {})
  {
    if Untraceable(s.topic[i].value) {
      ThrownIsARun(cfg, s, c, i);
      assert [Con(Deliver(c, i))] + [] == [Con(Deliver(c, i))];
    } else {
      DealtIsARun(cfg, s, c, dead, i, calls, sendIo, commitIo);
    }
  }

  lemma DealtIsARun(cfg: Config, s: State, c: Id, dead: Part, i: nat, calls: nat -> Call, sendIo: Io, commitIo: Io)
    requires EnabledCon(cfg, s, Deliver(c, i)) && dead.topic == DeadTopic(c.part.topic) && !Untraceable(s.topic[i].value)
    ensures var value := s.topic[i].value;
            var es := [Con(Deliver(c, i))] + DealSteps(cfg, c, dead, value, calls, sendIo, commitIo);
            && IsRun(cfg, s, es)
            && Finished(cfg, s, After(cfg, s, es), c, dead, i, Verdict(cfg, value, calls), sendIo, commitIo)
            && After(cfg, s, es).handled == s.handled + if Succeeds(cfg, value, calls) then {i} else {}
  {
    var deliver := Con(Deliver(c, i));
    DeliverWorks(cfg, s, c, i);
    SeenToIsARun(cfg, Next(cfg, s, deliver), c, dead, i, calls, sendIo, commitIo);
    StepThen(cfg, s, deliver, DealSteps(cfg, c, dead, s.topic[i].value, calls, sendIo, commitIo));
  }

  /** The letter that is sent and the dead letter of the run are the same: value, original
      topic, and the message they come from. */
  lemma LetterIsDead(cfg: Config, s: State, c: Id, dead: Part, i: nat, calls: nat -> Call, sendIo: Io, commitIo: Io, l: DeadLetterInput)
    requires EnabledCon(cfg, s, Deliver(c, i)) && dead.topic == DeadTopic(c.part.topic) && !Untraceable(s.topic[i].value)
    requires GoesWrong(cfg, s.topic[i].value, calls) && sendIo != FailedClean && IsLetter(l, c.part, i, s.topic[i].value)
    ensures var es := Trail(cfg, c, dead, i, s.topic[i].value, calls, sendIo, commitIo);
            && IsRun(cfg, s, es)
            && var t := After(cfg, s, es);
            && |t.dlq| == |s.dlq| + 1 && t.dlq[..|s.dlq|] == s.dlq
            && var d := t.dlq[|s.dlq|];
               d.value == l.value && d.original == Some(l.topic) && d.part.topic == l.topic + ".DLQ" && d.origin == Buried(l.offset)
  {
    VerdictIff(cfg, s.topic[i].value, calls);
    EachMessageIsARun(cfg, s, c, dead, i, calls, sendIo, commitIo);
  }
}
