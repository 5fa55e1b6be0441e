/** `execute`, `runSaga` and `ctx.dispatch`: whole runs of arbitrary handler programs. */
module Sagas {
  import opened Basics
  import opened CommandBus
  import opened Handlers

  // ---------------------------------------------------------------- compensation

  datatype Unwound = Unwound(store: Store, ran: seq<int>, failed: seq<int>, trace: seq<Event>, diverged: bool)

  /** Undo the most recent step first; a failing undo stops nothing. */
  function Unwind(undo: (Compensation, Store) -> BodyRun, comps: seq<Compensation>, w: Store): Unwound {
    if comps == [] then Unwound(w, [], [], [], false)
    else
      var c := comps[|comps| - 1];
      var u := undo(c, w);
      if u.outcome == Diverged then Unwound(u.store, [], [], u.trace, true)
      else
        var rest := Unwind(undo, comps[..|comps| - 1], u.store);
        Unwound(rest.store, [c.action] + rest.ran, (if u.outcome.Threw? then [c.action] else []) + rest.failed,
                u.trace + rest.trace, rest.diverged)
  }

  function Actions(comps: seq<Compensation>): seq<int> {
    seq(|comps|, i requires 0 <= i < |comps| => comps[i].action)
  }

  function Reverse<T>(s: seq<T>): (r: seq<T>)
    ensures |r| == |s|
    ensures forall i :: 0 <= i < |s| ==> r[i] == s[|s| - 1 - i]
  {
    seq(|s|, i requires 0 <= i < |s| => s[|s| - 1 - i])
  }

  /** The world a failed saga cleans up in, and the durable record of what it could not undo. */
  class Compensator {
    const undo: (Compensation, Store) -> BodyRun
    const wired: bool
    var store: Store
    var ran: seq<int>
    var recorded: seq<int>

    constructor (undo: (Compensation, Store) -> BodyRun, store: Store, wired: bool)
      ensures this.undo == undo && this.wired == wired && this.store == store && ran == [] && recorded == []
    {
      this.undo, this.wired, this.store, ran, recorded := undo, wired, store, [], [];
    }

    /** What is still to come completes what the whole is to come to. */
    ghost predicate Completes(whole: Unwound, rest: Unwound, ran0: seq<int>, recorded0: seq<int>)
      reads this
    {
      && rest.store == whole.store && ran + rest.ran == ran0 + whole.ran && rest.diverged == whole.diverged
      && recorded + (if wired then rest.failed else []) == recorded0 + (if wired then whole.failed else [])
    }

    /** One turn of the loop, on the last of the compensations left. False is an undo that has
        not ended. */
    method RunUndo(c: Compensation, ghost left: seq<Compensation>, ghost whole: Unwound, ghost ran0: seq<int>, ghost recorded0: seq<int>)
      returns (ended: bool)
      requires left != [] && c == left[|left| - 1] && Completes(whole, Unwind(undo, left, store), ran0, recorded0)
      modifies this
      ensures ended == (undo(c, old(store)).outcome != Diverged) && store == undo(c, old(store)).store
      ensures if ended then Completes(whole, Unwind(undo, left[..|left| - 1], store), ran0, recorded0)
              else Completes(whole, Unwound(store, [], [], [], true), ran0, recorded0)
    {
      var u := undo(c, store);
      store := u.store;
      if u.outcome == Diverged {
        return false;
      }
      ran := ran + [c.action];
      if u.outcome.Threw? && wired {
        recorded := recorded + [c.action];
      }
      return true;
    }

    /** The catch block of `runSaga`, over a copy of the registrations: what an undo registers
        is not looked at any more. */
    method Compensate(compensations: seq<Compensation>) returns (ended: bool)
      modifies this
      ensures var u := Unwind(undo, compensations, old(store));
              && store == u.store && ran == old(ran) + u.ran && ended == !u.diverged
              && recorded == old(recorded) + if wired then u.failed else []
    {
      var reversed := Reverse(compensations);
      ghost var whole := Unwind(undo, compensations, store);
      ghost var left := compensations;
      for i := 0 to |reversed|
        invariant |left| == |reversed| - i && forall k :: 0 <= k < |left| ==> left[k] == compensations[k]
        invariant Completes(whole, Unwind(undo, left, store), old(ran), old(recorded))
      {
        ended := RunUndo(reversed[i], left, whole, old(ran), old(recorded));
        if !ended {
          return;
        }
        left := left[..|left| - 1];
      }
      return true;
    }
  }

  /** Every registered undo runs once, in reverse order, whatever the others do. */
  lemma {:induction false} UnwindRunsAllInReverse(undo: (Compensation, Store) -> BodyRun, comps: seq<Compensation>, w: Store)
    ensures var u := Unwind(undo, comps, w); if u.diverged then u.ran <= Reverse(Actions(comps)) else u.ran == Reverse(Actions(comps))
  {
    if comps != [] {
      var n := |comps| - 1;
      UnwindRunsAllInReverse(undo, comps[..n], undo(comps[n], w).store);
      assert Reverse(Actions(comps)) == [comps[n].action] + Reverse(Actions(comps[..n]));
    }
  }

  /** The world in which the i-th undo runs: all later ones have run. */
  function WorldAt(undo: (Compensation, Store) -> BodyRun, comps: seq<Compensation>, w: Store, i: nat): Store
    requires i < |comps|
  {
    Unwind(undo, comps[i + 1..], w).store
  }

  ghost predicate Fails(undo: (Compensation, Store) -> BodyRun, comps: seq<Compensation>, w: Store, i: nat)
    requires i < |comps|
  {
    undo(comps[i], WorldAt(undo, comps, w, i)).outcome.Threw?
  }

  lemma EarlierWorlds(undo: (Compensation, Store) -> BodyRun, comps: seq<Compensation>, w: Store, i: nat)
    requires i + 1 < |comps| && undo(comps[|comps| - 1], w).outcome != Diverged
    ensures WorldAt(undo, comps, w, i) == WorldAt(undo, comps[..|comps| - 1], undo(comps[|comps| - 1], w).store, i)
  {
    var n := |comps| - 1;
    assert comps[i + 1..][..n - i - 1] == comps[..n][i + 1..];
  }

  /** What is on record as failed are the actions whose undo threw, where it ran. */
  lemma {:induction false} FailuresRecorded(undo: (Compensation, Store) -> BodyRun, comps: seq<Compensation>, w: Store)
    requires !Unwind(undo, comps, w).diverged
    ensures forall x :: x in Unwind(undo, comps, w).failed <==> exists i: nat :: i < |comps| && comps[i].action == x && Fails(undo, comps, w, i)
  {
    if comps != [] {
      var n := |comps| - 1;
      var u := undo(comps[n], w);
      FailuresRecorded(undo, comps[..n], u.store);
      assert WorldAt(undo, comps, w, n) == w;
      forall i: nat | i < n
        ensures Fails(undo, comps, w, i) <==> Fails(undo, comps[..n], u.store, i)
      {
        EarlierWorlds(undo, comps, w, i);
      }
      OneMoreFailure(undo, comps, w);
    }
  }

  lemma OneMoreFailure(undo: (Compensation, Store) -> BodyRun, comps: seq<Compensation>, w: Store)
    requires comps != [] && !Unwind(undo, comps, w).diverged
    requires var n := |comps| - 1;
             var u := undo(comps[n], w);
             && (forall i: nat :: i < n ==> (Fails(undo, comps, w, i) <==> Fails(undo, comps[..n], u.store, i)))
             && (forall x :: x in Unwind(undo, comps[..n], u.store).failed <==>
                   exists i: nat :: i < n && comps[..n][i].action == x && Fails(undo, comps[..n], u.store, i))
             && WorldAt(undo, comps, w, n) == w
    ensures forall x :: x in Unwind(undo, comps, w).failed <==> exists i: nat :: i < |comps| && comps[i].action == x && Fails(undo, comps, w, i)
  {
    var n := |comps| - 1;
    var u := undo(comps[n], w);
    var rest := Unwind(undo, comps[..n], u.store).failed;
    assert Fails(undo, comps, w, n) <==> u.outcome.Threw?;
    assert Unwind(undo, comps, w).failed == (if u.outcome.Threw? then [comps[n].action] else []) + rest;
    forall x
      ensures x in Unwind(undo, comps, w).failed <==> exists i: nat :: i < |comps| && comps[i].action == x && Fails(undo, comps, w, i)
    {
      if x in rest {
        var i: nat :| i < n && comps[..n][i].action == x && Fails(undo, comps[..n], u.store, i);
        assert comps[i].action == x && Fails(undo, comps, w, i);
      }
      if i: nat :| i < |comps| && comps[i].action == x && Fails(undo, comps, w, i) {
        if i < n { assert comps[..n][i].action == x; }
      }
    }
  }

  // ---------------------------------------------------------------- running handlers

  datatype Env = Env(reg: Registry, maxRetries: nat)

  /** What one handler body did, step by step, as its own saga sees it. */
  datatype StepLog =
    | Stepped(to: Store)
    | Registered(comp: Compensation)

  datatype FlowRun = FlowRun(outcome: Outcome, store: Store, comps: seq<Compensation>, log: seq<StepLog>, trace: seq<Event>)

  /** Runs a handler body. `saga` names the saga whose context the body holds, and `inTx`
      says whether its async context is inside an open transaction. Each command, attempt and
      step costs fuel, so a run of any length, finished or not, is met at some fuel. */
  function RunFlow(env: Env, p: Prog, saga: Option<string>, inTx: bool, w: Store, fuel: nat): FlowRun
    decreases fuel, 0
  {
    if fuel == 0 then FlowRun(Diverged, w, [], [], [])
    else match p
      case Done(o) => FlowRun(o, w, [], [], [])
      case Act(act, next) =>
        var (o, w') := act(w);
        var r := RunFlow(env, next(o), saga, inTx, w', fuel - 1);
        r.(log := [Stepped(w')] + r.log)
      case Call(via, command, commit, next) =>
        var c := Called(env, p, saga, inTx, w, fuel);
        if c.outcome == Diverged then FlowRun(Diverged, c.store, [], [Stepped(c.store)], c.trace)
        else
          var r := RunFlow(env, next(c.outcome), saga, inTx, c.store, fuel - 1);
          r.(log := [Stepped(c.store)] + r.log, trace := c.trace + r.trace)
      case OnCompensate(comp, rest) =>
        if saga == None then FlowRun(Threw(NoSagaContext), w, [], [], [])
        else
          var r := RunFlow(env, rest, saga, inTx, w, fuel - 1);
          r.(comps := [comp] + r.comps, log := [Registered(comp)] + r.log)
  }

  /** A call through the saga's context, or through a bus that was captured. */
  function Called(env: Env, p: Prog, saga: Option<string>, inTx: bool, w: Store, fuel: nat): BodyRun
    requires p.Call? && fuel > 0
    decreases fuel - 1, 2
  {
    if p.via == ViaContext then Dispatch(env, saga, p.command, p.commit, inTx, w, fuel - 1)
    else Execute(env, p.command, false, p.commit, inTx, w, fuel - 1)
  }

  /** `ctx.dispatch` */
  function Dispatch(env: Env, saga: Option<string>, command: string, commit: nat -> Option<Error>, inTx: bool, w: Store, fuel: nat): BodyRun
    decreases fuel, 1
  {
    match saga
    case None => BodyRun(Threw(NoSagaContext), w, [])
    case Some(outer) =>
      if IsSaga(env.reg, command) then BodyRun(Threw(NestedSaga(outer, command)), w, [])
      else Execute(env, command, true, commit, inTx, w, fuel)
  }

  /** `CommandBus.execute` */
  function Execute(env: Env, command: string, dispatched: bool, commit: nat -> Option<Error>, inTx: bool, w: Store, fuel: nat): BodyRun
    decreases fuel, 0
  {
    if fuel == 0 then BodyRun(Diverged, w, [])
    else match Lookup(env.reg, command)
      case None => BodyRun(Threw(HandlerNotFound(command)), w, [])
      case Some(Unknown(_)) => BodyRun(Threw(UnknownKind(command)), w, [])
      case Some(Transactional(body)) =>
        var r := Retry(env.maxRetries, inTx, Attempts(env, body, commit, fuel - 1), 0, w);
        BodyRun(r.outcome, r.store, r.trace)
      case Some(Saga(_, flow)) =>
        var f := RunFlow(env, flow, Some(command), inTx, w, fuel - 1);
        var trace := [SagaStarted(command, dispatched)] + f.trace;
        if f.outcome.Threw? then
          var u := Unwind(Undo(env, command, inTx, fuel - 1), f.comps, f.store);
          BodyRun(if u.diverged then Diverged else f.outcome, u.store, trace + u.trace)
        else BodyRun(f.outcome, f.store, trace)
  }

  /** How an undo runs: as more of its saga's body. */
  function Undo(env: Env, saga: string, inTx: bool, fuel: nat): (Compensation, Store) -> BodyRun
    decreases fuel, 1
  {
    (c: Compensation, s: Store) => var f := RunFlow(env, c.undo, Some(saga), inTx, s, fuel); BodyRun(f.outcome, f.store, f.trace)
  }

  /** The attempts of a transactional handler when nobody else writes. */
  function Attempts(env: Env, body: nat -> Prog, commit: nat -> Option<Error>, fuel: nat): nat -> Attempt
    decreases fuel, 1
  {
    (k: nat) => Attempt((s: Store) => s,
                        (s: Store) => var f := RunFlow(env, body(k), None, true, s, fuel); BodyRun(f.outcome, f.store, f.trace),
                        commit(k))
  }

  // ---------------------------------------------------------------- no nesting

  /** Reads a trace on one async context; None once a second transaction opens inside one. */
  function Scan(open: bool, trace: seq<Event>): Option<bool>
    decreases |trace|
  {
    if trace == [] then Some(open)
    else match trace[0]
      case TxOpened => if open then None else Scan(true, trace[1..])
      case TxClosed => if open then Scan(false, trace[1..]) else None
      case SagaStarted(_, _) => Scan(open, trace[1..])
  }

  predicate Flat(open: bool, outcome: Outcome, trace: seq<Event>) {
    match Scan(open, trace)
    case None => false
    case Some(o) => (outcome == Diverged || o == open) && forall e <- trace :: !(e.SagaStarted? && e.dispatched)
  }

  lemma {:induction false} ScanConcat(open: bool, a: seq<Event>, b: seq<Event>)
    ensures Scan(open, a + b) == match Scan(open, a) case None => None case Some(o) => Scan(o, b)
    decreases |a|
  {
    if a == [] {
      assert a + b == b;
    } else {
      assert (a + b)[1..] == a[1..] + b;
      if a[0].TxOpened? && !open { ScanConcat(true, a[1..], b); }
      if a[0].TxClosed? && open { ScanConcat(false, a[1..], b); }
      if a[0].SagaStarted? { ScanConcat(open, a[1..], b); }
    }
  }

  lemma TransactionIsFlat(inTx: bool, s: Store, a: Attempt)
    requires !inTx ==> Flat(true, a.body(s).outcome, a.body(s).trace)
    ensures var t := RunTx(inTx, s, a); Flat(inTx, t.outcome, t.trace)
  {
    if !inTx {
      var b := a.body(s);
      ScanConcat(false, [TxOpened], b.trace);
      ScanConcat(false, [TxOpened] + b.trace, [TxClosed]);
    }
  }

  lemma {:induction false} RetryIsFlat(maxRetries: nat, inTx: bool, attempts: nat -> Attempt, k: nat, w: Store)
    requires k <= maxRetries
    requires !inTx ==> forall i: nat, s :: Flat(true, attempts(i).body(s).outcome, attempts(i).body(s).trace)
    ensures var r := Retry(maxRetries, inTx, attempts, k, w); Flat(inTx, r.outcome, r.trace)
    decreases maxRetries - k
  {
    var t := RunTx(inTx, attempts(k).others(w), attempts(k));
    TransactionIsFlat(inTx, attempts(k).others(w), attempts(k));
    if t.outcome.Threw? && IsTransient(t.outcome.error) && k + 1 <= maxRetries {
      RetryIsFlat(maxRetries, inTx, attempts, k + 1, t.store);
      ScanConcat(inTx, t.trace, Retry(maxRetries, inTx, attempts, k + 1, t.store).trace);
    }
  }

  lemma {:induction false} FlowIsFlat(env: Env, p: Prog, saga: Option<string>, inTx: bool, w: Store, fuel: nat)
    ensures var r := RunFlow(env, p, saga, inTx, w, fuel); Flat(inTx, r.outcome, r.trace)
    decreases fuel, 2
  {
    if fuel > 0 {
      match p
      case Done(o) =>
      case Act(act, next) =>
        var (o, w') := act(w);
        FlowIsFlat(env, next(o), saga, inTx, w', fuel - 1);
      case Call(via, command, commit, next) =>
        CalledIsFlat(env, p, saga, inTx, w, fuel);
        var c := Called(env, p, saga, inTx, w, fuel);
        if c.outcome != Diverged {
          FlowIsFlat(env, next(c.outcome), saga, inTx, c.store, fuel - 1);
          ScanConcat(inTx, c.trace, RunFlow(env, next(c.outcome), saga, inTx, c.store, fuel - 1).trace);
        }
      case OnCompensate(comp, rest) =>
        FlowIsFlat(env, rest, saga, inTx, w, fuel - 1);
    }
  }

  lemma {:induction false} CalledIsFlat(env: Env, p: Prog, saga: Option<string>, inTx: bool, w: Store, fuel: nat)
    requires p.Call? && fuel > 0
    ensures var c := Called(env, p, saga, inTx, w, fuel); Flat(inTx, c.outcome, c.trace)
    decreases fuel, 1
  {
    if p.via == ViaCapturedBus || !IsSaga(env.reg, p.command) {
      ExecuteIsFlat(env, p.command, p.via == ViaContext, p.commit, inTx, w, fuel - 1);
    }
  }

  /** Compensating is as flat as its undos. */
  lemma {:induction false} UnwindIsFlat(undo: (Compensation, Store) -> BodyRun, inTx: bool, comps: seq<Compensation>, w: Store)
    requires forall c, s :: Flat(inTx, undo(c, s).outcome, undo(c, s).trace)
    ensures var u := Unwind(undo, comps, w); Flat(inTx, if u.diverged then Diverged else Returned(0), u.trace)
  {
    if comps != [] {
      var n := |comps| - 1;
      var u := undo(comps[n], w);
      if u.outcome != Diverged {
        UnwindIsFlat(undo, inTx, comps[..n], u.store);
        ScanConcat(inTx, u.trace, Unwind(undo, comps[..n], u.store).trace);
      }
    }
  }

  /** A saga's body and, if it fails, its compensation. */
  lemma {:induction false} SagaIsFlat(env: Env, command: string, flow: Prog, inTx: bool, w: Store, fuel: nat)
    ensures var f := RunFlow(env, flow, Some(command), inTx, w, fuel);
            var u := Unwind(Undo(env, command, inTx, fuel), f.comps, f.store);
            && Flat(inTx, f.outcome, [SagaStarted(command, false)] + f.trace)
            && (f.outcome.Threw? ==>
                  Flat(inTx, if u.diverged then Diverged else f.outcome, [SagaStarted(command, false)] + f.trace + u.trace))
    decreases fuel, 3
  {
    var f := RunFlow(env, flow, Some(command), inTx, w, fuel);
    FlowIsFlat(env, flow, Some(command), inTx, w, fuel);
    ScanConcat(inTx, [SagaStarted(command, false)], f.trace);
    if f.outcome.Threw? {
      var undo := Undo(env, command, inTx, fuel);
      forall c, s
        ensures Flat(inTx, undo(c, s).outcome, undo(c, s).trace)
      {
        FlowIsFlat(env, c.undo, Some(command), inTx, s, fuel);
      }
      UnwindIsFlat(undo, inTx, f.comps, f.store);
      ScanConcat(inTx, [SagaStarted(command, false)] + f.trace, Unwind(undo, f.comps, f.store).trace);
    }
  }

  lemma ExecuteSaga(env: Env, command: string, commit: nat -> Option<Error>, inTx: bool, w: Store, fuel: nat)
    requires fuel > 0 && IsSaga(env.reg, command)
    ensures var f := RunFlow(env, Lookup(env.reg, command).value.flow, Some(command), inTx, w, fuel - 1);
            var u := Unwind(Undo(env, command, inTx, fuel - 1), f.comps, f.store);
            var trace := [SagaStarted(command, false)] + f.trace;
            Execute(env, command, false, commit, inTx, w, fuel)
            == if f.outcome.Threw? then BodyRun(if u.diverged then Diverged else f.outcome, u.store, trace + u.trace)
               else BodyRun(f.outcome, f.store, trace)
  {
  }

  lemma ExecuteHandler(env: Env, command: string, dispatched: bool, commit: nat -> Option<Error>, inTx: bool, w: Store, fuel: nat)
    requires fuel > 0 && IsHandler(env.reg, command)
    ensures var r := Retry(env.maxRetries, inTx, Attempts(env, Lookup(env.reg, command).value.body, commit, fuel - 1), 0, w);
            Execute(env, command, dispatched, commit, inTx, w, fuel) == BodyRun(r.outcome, r.store, r.trace)
  {
  }

  lemma ExecuteNothing(env: Env, command: string, dispatched: bool, commit: nat -> Option<Error>, inTx: bool, w: Store, fuel: nat)
    requires fuel == 0 || (!IsSaga(env.reg, command) && !IsHandler(env.reg, command))
    ensures var r := Execute(env, command, dispatched, commit, inTx, w, fuel); r.trace == [] && !r.outcome.Returned? && r.store == w
  {
  }

  lemma {:induction false} ExecuteSagaIsFlat(env: Env, command: string, commit: nat -> Option<Error>, inTx: bool, w: Store, fuel: nat)
    requires fuel > 0 && IsSaga(env.reg, command)
    ensures var r := Execute(env, command, false, commit, inTx, w, fuel); Flat(inTx, r.outcome, r.trace)
    decreases fuel, 0
  {
    ExecuteSaga(env, command, commit, inTx, w, fuel);
    SagaIsFlat(env, command, Lookup(env.reg, command).value.flow, inTx, w, fuel - 1);
  }

  lemma {:induction false} ExecuteHandlerIsFlat(env: Env, command: string, dispatched: bool, commit: nat -> Option<Error>, inTx: bool, w: Store, fuel: nat)
    requires fuel > 0 && IsHandler(env.reg, command)
    ensures var r := Execute(env, command, dispatched, commit, inTx, w, fuel); Flat(inTx, r.outcome, r.trace)
    decreases fuel, 0
  {
    var body := Lookup(env.reg, command).value.body;
    var attempts := Attempts(env, body, commit, fuel - 1);
    forall i: nat, s
      ensures Flat(true, attempts(i).body(s).outcome, attempts(i).body(s).trace)
    {
      FlowIsFlat(env, body(i), None, true, s, fuel - 1);
    }
    var r := Retry(env.maxRetries, inTx, attempts, 0, w);
    assert Flat(inTx, r.outcome, r.trace) by { RetryIsFlat(env.maxRetries, inTx, attempts, 0, w); }
    ExecuteHandler(env, command, dispatched, commit, inTx, w, fuel);
  }

  lemma ExecuteNothingIsFlat(env: Env, command: string, dispatched: bool, commit: nat -> Option<Error>, inTx: bool, w: Store, fuel: nat)
    requires fuel == 0 || (!IsSaga(env.reg, command) && !IsHandler(env.reg, command))
    ensures var r := Execute(env, command, dispatched, commit, inTx, w, fuel); Flat(inTx, r.outcome, r.trace)
  {
    ExecuteNothing(env, command, dispatched, commit, inTx, w, fuel);
  }

  lemma {:induction false} ExecuteIsFlat(env: Env, command: string, dispatched: bool, commit: nat -> Option<Error>, inTx: bool, w: Store, fuel: nat)
    requires !(dispatched && IsSaga(env.reg, command))
    ensures var r := Execute(env, command, dispatched, commit, inTx, w, fuel); Flat(inTx, r.outcome, r.trace)
    decreases fuel, 1
  {
    if fuel > 0 && IsSaga(env.reg, command) {
      ExecuteSagaIsFlat(env, command, commit, inTx, w, fuel);
    } else if fuel > 0 && IsHandler(env.reg, command) {
      ExecuteHandlerIsFlat(env, command, dispatched, commit, inTx, w, fuel);
    } else {
      ExecuteNothingIsFlat(env, command, dispatched, commit, inTx, w, fuel);
    }
  }

  /** Whatever handlers are registered and whatever they and their compensations do, captured
      bus references included: no async context ever has two open transactions, a finished
      command leaves none open, and `ctx.dispatch` never starts a saga. */
  lemma NoNesting(env: Env, command: string, commit: nat -> Option<Error>, w: Store, fuel: nat)
    ensures var r := Execute(env, command, false, commit, false, w, fuel); Flat(false, r.outcome, r.trace)
  {
    ExecuteIsFlat(env, command, false, commit, false, w, fuel);
  }

  /** What is refused outright, with which error, and that nothing happens then: a command
      nobody handles, a saga inside a saga, and a transaction inside a transaction, whatever its
      handler would do and however transient errors are treated. */
  lemma Refusals(env: Env, saga: string, command: string, dispatched: bool, commit: nat -> Option<Error>, inTx: bool, w: Store, fuel: nat)
    requires fuel > 0
    ensures Lookup(env.reg, command) == None ==> Execute(env, command, dispatched, commit, inTx, w, fuel) == BodyRun(Threw(HandlerNotFound(command)), w, [])
    ensures IsSaga(env.reg, command) ==> Dispatch(env, Some(saga), command, commit, inTx, w, fuel) == BodyRun(Threw(NestedSaga(saga, command)), w, [])
    ensures IsHandler(env.reg, command) ==> Execute(env, command, dispatched, commit, true, w, fuel) == BodyRun(Threw(NestedTransaction), w, [])
  {
    if IsHandler(env.reg, command) {
      ExecuteHandler(env, command, dispatched, commit, true, w, fuel);
      NestedIsRefused(env.maxRetries, Attempts(env, Lookup(env.reg, command).value.body, commit, fuel - 1), w);
    }
  }

  /** A saga body that sends the same command n times. */
  function Repeatedly(command: string, n: nat): Prog {
    if n == 0 then Done(Returned(0)) else Call(ViaContext, command, (k: nat) => None, (o: Outcome) => Repeatedly(command, n - 1))
  }

  function Transactions(n: nat): seq<Event> {
    if n == 0 then [] else [TxOpened, TxClosed] + Transactions(n - 1)
  }

  /** Nothing is missing from a trace: a saga that sends n commands shows n transactions, one
      after the other. */
  lemma EverythingShows(env: Env, saga: string, command: string, n: nat, commit: nat -> Option<Error>, w: Store, fuel: nat)
    requires IsSaga(env.reg, saga) && Lookup(env.reg, saga).value.flow == Repeatedly(command, n)
    requires IsHandler(env.reg, command) && forall k: nat :: Lookup(env.reg, command).value.body(k) == Done(Returned(0))
    requires fuel >= n + 4
    ensures Execute(env, saga, false, commit, false, w, fuel).trace == [SagaStarted(saga, false)] + Transactions(n)
    ensures Execute(env, saga, false, commit, false, w, fuel).outcome == Returned(0)
  {
    ExecuteSaga(env, saga, commit, false, w, fuel);
    RepeatedlyShows(env, saga, command, n, w, fuel - 1);
  }

  lemma CallRuns(env: Env, p: Prog, saga: Option<string>, inTx: bool, w: Store, fuel: nat)
    requires p.Call? && fuel > 0 && Called(env, p, saga, inTx, w, fuel).outcome != Diverged
    ensures var c := Called(env, p, saga, inTx, w, fuel);
            var r, r1 := RunFlow(env, p, saga, inTx, w, fuel), RunFlow(env, p.next(c.outcome), saga, inTx, c.store, fuel - 1);
            r.outcome == r1.outcome && r.store == r1.store && r.trace == c.trace + r1.trace
  {
  }

  lemma {:induction false} RepeatedlyShows(env: Env, saga: string, command: string, n: nat, w: Store, fuel: nat)
    requires IsHandler(env.reg, command) && forall k: nat :: Lookup(env.reg, command).value.body(k) == Done(Returned(0))
    requires fuel >= n + 3
    ensures var r := RunFlow(env, Repeatedly(command, n), Some(saga), false, w, fuel); r.trace == Transactions(n) && r.outcome == Returned(0)
    decreases n
  {
    if n > 0 {
      var p := Repeatedly(command, n);
      assert Called(env, p, Some(saga), false, w, fuel) == BodyRun(Returned(0), w, [TxOpened, TxClosed]) by {
        OneShows(env, saga, command, p.commit, w, fuel - 1);
      }
      assert p.next(Returned(0)) == Repeatedly(command, n - 1);
      CallRuns(env, p, Some(saga), false, w, fuel);
      RepeatedlyShows(env, saga, command, n - 1, w, fuel - 1);
    }
  }

  lemma OneShows(env: Env, saga: string, command: string, commit: nat -> Option<Error>, w: Store, fuel: nat)
    requires IsHandler(env.reg, command) && forall k: nat :: Lookup(env.reg, command).value.body(k) == Done(Returned(0))
    requires fuel >= 2 && commit(0) == None
    ensures Dispatch(env, Some(saga), command, commit, false, w, fuel) == BodyRun(Returned(0), w, [TxOpened, TxClosed])
  {
    var body := Lookup(env.reg, command).value.body;
    var attempts := Attempts(env, body, commit, fuel - 1);
    ExecuteHandler(env, command, true, commit, false, w, fuel);
    assert body(0) == Done(Returned(0));
    assert attempts(0).others(w) == w && attempts(0).body(w) == BodyRun(Returned(0), w, []) && attempts(0).commit == None;
    assert [TxOpened] + [] + [TxClosed] == [TxOpened, TxClosed];
  }

  // ---------------------------------------------------------------- restoration

  lemma {:induction false} FailedRetryLeavesDatabase(maxRetries: nat, inTx: bool, attempts: nat -> Attempt, k: nat, w: Store)
    requires k <= maxRetries
    requires forall i: nat, s :: attempts(i).others(s) == s
    ensures var r := Retry(maxRetries, inTx, attempts, k, w); !r.outcome.Returned? ==> r.store.db == w.db
    decreases maxRetries - k
  {
    var t := RunTx(inTx, attempts(k).others(w), attempts(k));
    if t.outcome.Threw? && IsTransient(t.outcome.error) && k + 1 <= maxRetries {
      FailedRetryLeavesDatabase(maxRetries, inTx, attempts, k + 1, t.store);
    }
  }

  lemma {:induction false} ContainedRetryLeavesOutside(maxRetries: nat, inTx: bool, attempts: nat -> Attempt, k: nat, w: Store)
    requires k <= maxRetries
    requires forall i: nat, s :: attempts(i).others(s) == s && attempts(i).body(s).store.outside == s.outside
    ensures Retry(maxRetries, inTx, attempts, k, w).store.outside == w.outside
    decreases maxRetries - k
  {
    var t := RunTx(inTx, attempts(k).others(w), attempts(k));
    assert attempts(k).body(w).store.outside == w.outside;
    if t.outcome.Threw? && IsTransient(t.outcome.error) && k + 1 <= maxRetries {
      ContainedRetryLeavesOutside(maxRetries, inTx, attempts, k + 1, t.store);
    }
  }

  /** The command's handler works on its database only: no attempt changes anything outside. */
  ghost predicate Contained(env: Env, command: string, fuel: nat) {
    IsHandler(env.reg, command) ==>
      forall k: nat, s :: RunFlow(env, Lookup(env.reg, command).value.body(k), None, true, s, fuel).store.outside == s.outside
  }

  lemma ContainedLeavesOutside(env: Env, command: string, commit: nat -> Option<Error>, inTx: bool, w: Store, fuel: nat)
    requires IsHandler(env.reg, command) && Contained(env, command, fuel)
    ensures var body := Lookup(env.reg, command).value.body;
            Retry(env.maxRetries, inTx, Attempts(env, body, commit, fuel), 0, w).store.outside == w.outside
  {
    var body := Lookup(env.reg, command).value.body;
    var attempts := Attempts(env, body, commit, fuel);
    forall k: nat, s
      ensures attempts(k).others(s) == s && attempts(k).body(s).store.outside == s.outside
    {
      assert attempts(k).body(s).store == RunFlow(env, body(k), None, true, s, fuel).store;
    }
    ContainedRetryLeavesOutside(env.maxRetries, inTx, attempts, 0, w);
  }

  /** A dispatch is its handler's retry loop, or else leaves everything alone and throws. */
  lemma DispatchIs(env: Env, saga: Option<string>, command: string, commit: nat -> Option<Error>, inTx: bool, w: Store, fuel: nat)
    ensures var d := Dispatch(env, saga, command, commit, inTx, w, fuel);
            if saga.Some? && fuel > 0 && IsHandler(env.reg, command) then
              var r := Retry(env.maxRetries, inTx, Attempts(env, Lookup(env.reg, command).value.body, commit, fuel - 1), 0, w);
              d.outcome == r.outcome && d.store == r.store
            else !d.outcome.Returned? && d.store == w
  {
    if fuel > 0 && IsHandler(env.reg, command) {
      ExecuteHandler(env, command, true, commit, inTx, w, fuel);
    } else if !IsSaga(env.reg, command) {
      ExecuteNothing(env, command, true, commit, inTx, w, fuel);
    }
  }

  /** A dispatch that fails for any reason leaves the database as it was. */
  lemma FailedDispatchLeavesDatabase(env: Env, saga: Option<string>, command: string, commit: nat -> Option<Error>, inTx: bool, w: Store, fuel: nat)
    ensures var d := Dispatch(env, saga, command, commit, inTx, w, fuel); !d.outcome.Returned? ==> d.store.db == w.db
  {
    DispatchIs(env, saga, command, commit, inTx, w, fuel);
    if saga.Some? && fuel > 0 && IsHandler(env.reg, command) {
      FailedRetryLeavesDatabase(env.maxRetries, inTx, Attempts(env, Lookup(env.reg, command).value.body, commit, fuel - 1), 0, w);
    }
  }

  lemma DispatchIsOutside(env: Env, saga: Option<string>, command: string, commit: nat -> Option<Error>, inTx: bool, w: Store, fuel: nat)
    requires fuel > 0
    requires IsHandler(env.reg, command) ==>
               Retry(env.maxRetries, inTx, Attempts(env, Lookup(env.reg, command).value.body, commit, fuel - 1), 0, w).store.outside == w.outside
    ensures Dispatch(env, saga, command, commit, inTx, w, fuel).store.outside == w.outside
  {
    DispatchIs(env, saga, command, commit, inTx, w, fuel);
  }

  lemma DispatchLeavesOutside(env: Env, saga: Option<string>, command: string, commit: nat -> Option<Error>, inTx: bool, w: Store, fuel: nat)
    requires fuel > 0 && Contained(env, command, fuel - 1)
    ensures Dispatch(env, saga, command, commit, inTx, w, fuel).store.outside == w.outside
  {
    if IsHandler(env.reg, command) { ContainedLeavesOutside(env, command, commit, inTx, w, fuel - 1); }
    DispatchIsOutside(env, saga, command, commit, inTx, w, fuel);
  }

  /** And it leaves nothing at all, if its handler makes no call to the outside. */
  lemma FailedDispatchLeavesNothing(env: Env, saga: Option<string>, command: string, commit: nat -> Option<Error>, inTx: bool, w: Store, fuel: nat)
    requires fuel > 0 && Contained(env, command, fuel - 1)
    ensures var d := Dispatch(env, saga, command, commit, inTx, w, fuel); !d.outcome.Returned? ==> d.store == w
  {
    FailedDispatchLeavesDatabase(env, saga, command, commit, inTx, w, fuel);
    DispatchLeavesOutside(env, saga, command, commit, inTx, w, fuel);
  }

  /** A handler that writes, sends a mail and then throws. */
  const MAILS: Prog := Act((s: Store) => (Returned(0), Store(s.db["row" := 1], s.outside["mail" := 1])),
                           (o: Outcome) => Done(Threw(Raised(1, false))))
  const MAILER := Env([("mail", Transactional((k: nat) => MAILS))], 0)

  lemma MailerRuns(s: Store, fuel: nat)
    requires fuel >= 2
    ensures RunFlow(MAILER, MAILS, None, true, s, fuel).outcome == Threw(Raised(1, false))
    ensures RunFlow(MAILER, MAILS, None, true, s, fuel).store == Store(s.db["row" := 1], s.outside["mail" := 1])
  {
    assert RunFlow(MAILER, Done(Threw(Raised(1, false))), None, true, Store(s.db["row" := 1], s.outside["mail" := 1]), fuel - 1).outcome
        == Threw(Raised(1, false));
  }

  /** That condition is needed: what a failed handler did outside stays done. */
  lemma OutsideIsNotRolledBack(commit: nat -> Option<Error>)
    ensures var d := Dispatch(MAILER, Some("saga"), "mail", commit, false, Store(map[], map[]), 3);
            d.outcome == Threw(Raised(1, false)) && d.store == Store(map[], map["mail" := 1])
  {
    var w := Store(map[], map[]);
    var attempts := Attempts(MAILER, (k: nat) => MAILS, commit, 2);
    MailerRuns(w, 2);
    assert Lookup(MAILER.reg, "mail") == Some(Transactional((k: nat) => MAILS));
    assert attempts(0).body(w).outcome == Threw(Raised(1, false));
    assert attempts(0).body(w).store == Store(map["row" := 1], map["mail" := 1]);
  }

  /** Running the undo of `c` from one world leads back to the other. */
  predicate Undoes(undo: (Compensation, Store) -> BodyRun, c: Compensation, after: Store, before: Store) {
    undo(c, after).outcome.Returned? && undo(c, after).store == before
  }

  /** The author's part of the bargain, checked along one run: unwinding what is registered so
      far leads back from `base`, and each undo that is registered takes the world as it then is
      back to there; in the end nothing that was done since is without its undo. A step that
      changes nothing, like a read or a dispatch that fails and has done nothing outside, asks
      for nothing. */
  predicate Disciplined(undo: (Compensation, Store) -> BodyRun, base: Store, w: Store, log: seq<StepLog>)
    decreases |log|
  {
    if log == [] then w == base
    else if log[0].Registered? then Undoes(undo, log[0].comp, w, base) && Disciplined(undo, w, w, log[1..])
    else Disciplined(undo, base, log[0].to, log[1..])
  }

  predicate Restores(undo: (Compensation, Store) -> BodyRun, comps: seq<Compensation>, w: Store, w0: Store) {
    Unwind(undo, comps, w).store == w0 && Unwind(undo, comps, w).failed == [] && !Unwind(undo, comps, w).diverged
  }

  lemma RestoresOneMore(undo: (Compensation, Store) -> BodyRun, comps: seq<Compensation>, c: Compensation, before: Store, after: Store, w0: Store)
    requires Restores(undo, comps, before, w0) && Undoes(undo, c, after, before)
    ensures Restores(undo, comps + [c], after, w0)
  {
    assert (comps + [c])[..|comps|] == comps;
  }

  lemma {:induction false} LogRestores(undo: (Compensation, Store) -> BodyRun, done: seq<Compensation>, base: Store, w: Store, log: seq<StepLog>, w0: Store)
    requires Restores(undo, done, base, w0) && Disciplined(undo, base, w, log)
    ensures Restores(undo, done + CompsOf(log), EndOf(w, log), w0)
    decreases |log|
  {
    if log == [] {
      assert done + [] == done;
    } else if log[0].Registered? {
      RestoresOneMore(undo, done, log[0].comp, base, w, w0);
      LogRestores(undo, done + [log[0].comp], w, w, log[1..], w0);
      Regroup(done, [log[0].comp], CompsOf(log[1..]));
    } else {
      LogRestores(undo, done, base, log[0].to, log[1..], w0);
      assert CompsOf(log) == CompsOf(log[1..]);
    }
  }

  /** What was registered, and where the run has got to, as its log says. */
  function CompsOf(log: seq<StepLog>): seq<Compensation> {
    if log == [] then [] else (if log[0].Registered? then [log[0].comp] else []) + CompsOf(log[1..])
  }

  function EndOf(w: Store, log: seq<StepLog>): Store
    decreases |log|
  {
    if log == [] then w else EndOf(if log[0].Registered? then w else log[0].to, log[1..])
  }

  ghost predicate Says(w: Store, r: FlowRun) {
    r.comps == CompsOf(r.log) && r.store == EndOf(w, r.log)
  }

  lemma SaysMore(w: Store, e: StepLog, r1: FlowRun, r: FlowRun)
    requires Says(if e.Registered? then w else e.to, r1)
    requires r.log == [e] + r1.log && r.store == r1.store && r.comps == (if e.Registered? then [e.comp] else []) + r1.comps
    ensures Says(w, r)
  {
    assert r.log[1..] == r1.log;
  }

  lemma {:induction false} LogSaysAll(env: Env, p: Prog, saga: string, inTx: bool, w: Store, fuel: nat)
    ensures Says(w, RunFlow(env, p, Some(saga), inTx, w, fuel))
    decreases fuel, 0
  {
    var r := RunFlow(env, p, Some(saga), inTx, w, fuel);
    if fuel > 0 {
      match p
      case Done(_) =>
      case Act(act, next) =>
        var (o, w') := act(w);
        LogSaysAll(env, next(o), saga, inTx, w', fuel - 1);
        SaysMore(w, Stepped(w'), RunFlow(env, next(o), Some(saga), inTx, w', fuel - 1), r);
      case Call(_, _, _, _) =>
        CallSaysAll(env, p, saga, inTx, w, fuel);
      case OnCompensate(comp, rest) =>
        LogSaysAll(env, rest, saga, inTx, w, fuel - 1);
        SaysMore(w, Registered(comp), RunFlow(env, rest, Some(saga), inTx, w, fuel - 1), r);
    }
  }

  lemma {:induction false} CallSaysAll(env: Env, p: Prog, saga: string, inTx: bool, w: Store, fuel: nat)
    requires p.Call? && fuel > 0
    ensures Says(w, RunFlow(env, p, Some(saga), inTx, w, fuel))
    decreases fuel - 1, 1
  {
    var r := RunFlow(env, p, Some(saga), inTx, w, fuel);
    var c := Called(env, p, Some(saga), inTx, w, fuel);
    if c.outcome == Diverged {
      SaysMore(w, Stepped(c.store), FlowRun(Diverged, c.store, [], [], []), r);
    } else {
      var q := p.next(c.outcome);
      LogSaysAll(env, q, saga, inTx, c.store, fuel - 1);
      SaysMore(w, Stepped(c.store), RunFlow(env, q, Some(saga), inTx, c.store, fuel - 1), r);
    }
  }

  /** At every point of a disciplined run, unwinding what is registered so far leads back to
      where the saga started. */
  lemma DisciplinedFlowRestores(env: Env, p: Prog, saga: string, inTx: bool, w: Store, fuel: nat, undo: (Compensation, Store) -> BodyRun,
                                done: seq<Compensation>, base: Store, w0: Store)
    requires Restores(undo, done, base, w0) && Disciplined(undo, base, w, RunFlow(env, p, Some(saga), inTx, w, fuel).log)
    ensures var r := RunFlow(env, p, Some(saga), inTx, w, fuel); Restores(undo, done + r.comps, r.store, w0)
  {
    LogSaysAll(env, p, saga, inTx, w, fuel);
    LogRestores(undo, done, base, w, RunFlow(env, p, Some(saga), inTx, w, fuel).log, w0);
  }

  /** Saga restoration: when a saga fails and its undos run to an end, the error the caller sees
      is the one its body threw, and if its author registered an inverse for every step that
      completed, every undo succeeds and the world is as it was before the saga started. */
  lemma FailedSagaRestores(env: Env, command: string, commit: nat -> Option<Error>, inTx: bool, w: Store, fuel: nat)
    requires fuel > 0 && IsSaga(env.reg, command)
    ensures var f := RunFlow(env, Lookup(env.reg, command).value.flow, Some(command), inTx, w, fuel - 1);
            var u := Unwind(Undo(env, command, inTx, fuel - 1), f.comps, f.store);
            var r := Execute(env, command, false, commit, inTx, w, fuel);
            && ((f.outcome.Threw? && u.diverged) || r.outcome == f.outcome)
            && (f.outcome.Threw? && Disciplined(Undo(env, command, inTx, fuel - 1), w, w, f.log) ==>
                  r.outcome == f.outcome && r.store == w && u.failed == [])
  {
    var flow := Lookup(env.reg, command).value.flow;
    var f := RunFlow(env, flow, Some(command), inTx, w, fuel - 1);
    if f.outcome.Threw? && Disciplined(Undo(env, command, inTx, fuel - 1), w, w, f.log) {
      DisciplinedFlowRestores(env, flow, command, inTx, w, fuel - 1, Undo(env, command, inTx, fuel - 1), [], w, w);
      assert [] + f.comps == f.comps;
    }
  }
}
