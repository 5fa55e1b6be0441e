/** What one original message can cost in handler calls, from the moment it is appended, and
    what all of them can cost together. */
module Originals {
  import opened Basics
  import opened Outbox
  import opened Pipeline
  import opened NoLoss
  import opened Provenance
  import opened Drain

  // ---------------------------------------------------------------- originals and their copies

  /** Whatever descends from message r came after it. */
  predicate RootsOk(s: State) {
    && (forall k :: 0 <= k < |s.topic| && s.topic[k].root.Some? ==> s.topic[k].root.value <= k)
    && (forall j :: 0 <= j < |s.dlq| && s.dlq[j].root.Some? ==> s.dlq[j].root.value < |s.topic|)
  }

  lemma RootsAfter(s: State, t: State)
    requires RootsOk(s) && Grows(s, t)
    requires forall k :: |s.topic| <= k < |t.topic| && t.topic[k].root.Some? ==> t.topic[k].root.value <= k
    requires forall j :: |s.dlq| <= j < |t.dlq| && t.dlq[j].root.Some? ==> t.dlq[j].root.value < |t.topic|
    ensures RootsOk(t)
  {
    assert forall k :: 0 <= k < |s.topic| ==> t.topic[k] == s.topic[k];
    assert forall j :: 0 <= j < |s.dlq| ==> t.dlq[j] == s.dlq[j];
  }

  lemma ConKeepsRoots(cfg: Config, s: State, x: ConStep)
    requires RootsOk(s) && EnabledCon(cfg, s, x) && Grows(s, NextCon(cfg, s, x))
    ensures RootsOk(NextCon(cfg, s, x))
  {
    RootsAfter(s, NextCon(cfg, s, x));
  }

  lemma RepKeepsRoots(cfg: Config, s: State, x: RepStep)
    requires RootsOk(s) && EnabledRep(cfg, s, x) && Grows(s, NextRep(cfg, s, x))
    ensures RootsOk(NextRep(cfg, s, x))
  {
    RootsAfter(s, NextRep(cfg, s, x));
  }

  lemma EnvKeepsRoots(cfg: Config, s: State, x: EnvStep)
    requires RootsOk(s) && EnabledEnv(cfg, s, x) && Grows(s, NextEnv(s, x))
    ensures RootsOk(NextEnv(s, x))
  {
    RootsAfter(s, NextEnv(s, x));
  }

  lemma PubKeepsRoots(cfg: Config, s: State, x: PubStep)
    requires RootsOk(s) && EnabledPub(cfg, s, x) && Grows(s, NextPub(cfg, s, x))
    ensures RootsOk(NextPub(cfg, s, x))
  {
    RootsAfter(s, NextPub(cfg, s, x));
  }

  lemma StepKeepsRoots(cfg: Config, s: State, e: Step)
    requires RootsOk(s) && Enabled(cfg, s, e)
    ensures RootsOk(Next(cfg, s, e))
  {
    StepGrows(cfg, s, e);
    match e
    case Env(x) => EnvKeepsRoots(cfg, s, x);
    case Pub(x) => PubKeepsRoots(cfg, s, x);
    case Con(x) => ConKeepsRoots(cfg, s, x);
    case Rep(x) => RepKeepsRoots(cfg, s, x);
  }

  lemma {:induction false} RunKeepsRoots(cfg: Config, s: State, es: seq<Step>)
    requires RootsOk(s) && IsRun(cfg, s, es)
    ensures RootsOk(After(cfg, s, es))
    decreases |es|
  {
    if es != [] {
      StepKeepsRoots(cfg, s, es[0]);
      RunKeepsRoots(cfg, Next(cfg, s, es[0]), es[1..]);
    }
  }

  /** A step of somebody who is neither a consumer nor a replay consumer. */
  predicate Brings(e: Step) {
    e.Env? || e.Pub?
  }

  /** One new message, an original, and nothing else on either log. */
  predicate BroughtOne(s: State, t: State) {
    var i := |s.topic|;
    |t.topic| == i + 1 && t.topic[i].root == Some(i) && IsPrefix(s.topic, t.topic) && t.dlq == s.dlq
  }

  lemma EnvBringsOne(s: State, e: EnvStep)
    requires |NextEnv(s, e).topic| > |s.topic|
    ensures BroughtOne(s, NextEnv(s, e))
  {
  }

  lemma PubBringsOne(cfg: Config, s: State, e: PubStep)
    requires EnabledPub(cfg, s, e) && |NextPub(cfg, s, e).topic| > |s.topic|
    ensures BroughtOne(s, NextPub(cfg, s, e))
  {
  }

  lemma BringsOne(cfg: Config, s: State, e: Step)
    requires Enabled(cfg, s, e) && Brings(e) && |Next(cfg, s, e).topic| > |s.topic|
    ensures BroughtOne(s, Next(cfg, s, e))
  {
    if e.Env? { EnvBringsOne(s, e.env); } else { PubBringsOne(cfg, s, e.pub); }
  }

  lemma NewestIsOnlyCopy(s: State, t: State)
    requires RootsOk(s) && BroughtOne(s, t)
    ensures OnlyCopy(t, |s.topic|)
  {
    assert forall k: nat :: k < |s.topic| ==> t.topic[k] == s.topic[k] && t.topic[k].root != Some(|s.topic|);
    assert forall j: nat :: j < |s.dlq| ==> t.dlq[j].root != Some(|s.topic|);
  }

  lemma BroughtIsOriginal(cfg: Config, s: State, e: Step)
    requires RootsOk(s) && Enabled(cfg, s, e) && Brings(e) && |Next(cfg, s, e).topic| > |s.topic|
    ensures var t, i := Next(cfg, s, e), |s.topic|; |t.topic| == i + 1 && t.topic[i].root == Some(i) && OnlyCopy(t, i)
  {
    BringsOne(cfg, s, e);
    NewestIsOnlyCopy(s, Next(cfg, s, e));
  }

  /** Every message that is published, or comes from another producer, on any run, costs at most
      (maxReplays + 1) * (maxRetries + 1) handler calls over all its replays, if the run is
      crash-free from then on. */
  lemma EveryOriginalIsBounded(cfg: Config, es: seq<Step>, e: Step, late: seq<Step>)
    requires Finite(cfg) && IsRun(cfg, START, es) && Enabled(cfg, After(cfg, START, es), e) && Brings(e)
    requires |Next(cfg, After(cfg, START, es), e).topic| > |After(cfg, START, es).topic|
    requires IsDrain(cfg, Next(cfg, After(cfg, START, es), e), late)
    ensures TotalCost(cfg, CallsFor(|After(cfg, START, es).topic|), Next(cfg, After(cfg, START, es), e), late) <= Allowed(cfg, 0)
  {
    RunKeepsRoots(cfg, START, es);
    Reachable(cfg, START, es);
    OriginalIsBounded(cfg, After(cfg, START, es), e, late);
  }

  lemma OriginalIsBounded(cfg: Config, s: State, e: Step, late: seq<Step>)
    requires Finite(cfg) && RootsOk(s) && Traced(cfg, s) && Inv(cfg, s) && Enabled(cfg, s, e) && Brings(e)
    requires |Next(cfg, s, e).topic| > |s.topic| && IsDrain(cfg, Next(cfg, s, e), late)
    ensures TotalCost(cfg, CallsFor(|s.topic|), Next(cfg, s, e), late) <= Allowed(cfg, 0)
  {
    var i := |s.topic|;
    BroughtIsOriginal(cfg, s, e);
    StepKeepsTraced(cfg, s, e);
    StepKeepsInv(cfg, s, e);
    assert MsgOk(cfg, Next(cfg, s, e), i);
    OnlyCopyIsBounded(cfg, Next(cfg, s, e), i, late);
  }

  lemma OnlyCopyIsBounded(cfg: Config, t: State, i: nat, late: seq<Step>)
    requires Finite(cfg) && Inv(cfg, t) && IsDrain(cfg, t, late)
    requires i < |t.topic| && t.topic[i].root == Some(i) && OnlyCopy(t, i) && t.topic[i].replays <= Cap(cfg.maxReplays)
    ensures TotalCost(cfg, CallsFor(i), t, late) <= Allowed(cfg, 0)
  {
    CallsPerOriginal(cfg, t, i, late);
    FewerReplays(cfg, t.topic[i].replays);
  }

  lemma FewerReplays(cfg: Config, k: nat)
    requires k <= Cap(cfg.maxReplays)
    ensures Allowed(cfg, k) <= Allowed(cfg, 0) && CallBudget(cfg) <= Allowed(cfg, k)
  {
    var cap, budget := Cap(cfg.maxReplays), CallBudget(cfg);
    assert (cap + 1) * budget == (cap - k + 1) * budget + k * budget;
    assert (cap - k + 1) * budget == (cap - k) * budget + budget;
  }

  // ---------------------------------------------------------------- all of them

  /** So much for each of n. */
  function Each(n: nat, most: nat): nat {
    n * most
  }

  function One(b: bool): nat {
    if b then 1 else 0
  }

  ghost function WaitsAt(s: State): nat -> nat {
    i => One(Waits(s, i))
  }

  ghost function WaitsDeadAt(s: State): nat -> nat {
    j => One(WaitsDead(s, j))
  }

  /** How many messages and dead letters are still to be dealt with. */
  ghost function Waiting(s: State): nat {
    Sum(WaitsAt(s), |s.topic|) + Sum(WaitsDeadAt(s), |s.dlq|)
  }

  lemma {:induction false} SumTimes(f: nat -> nat, g: nat -> nat, n: nat, most: nat)
    requires forall k: nat :: k < n ==> f(k) <= g(k) * most
    ensures Sum(f, n) <= Sum(g, n) * most
  {
    if n > 0 {
      SumTimes(f, g, n - 1, most);
      Distribute(Sum(g, n - 1), g(n - 1), most);
    }
  }

  lemma Distribute(a: nat, b: nat, c: nat)
    ensures (a + b) * c == a * c + b * c
  {
  }

  /** Whatever its count, a message costs no more than a fresh one. */
  lemma NoneCostsMore(cfg: Config, k: nat)
    ensures MsgCost(cfg, 0, 1, k) <= Allowed(cfg, 0)
    ensures DeadCost(cfg, 0, 1, k) <= MsgCost(cfg, 0, 1, k)
  {
    TimesOne(CallBudget(cfg));
    if k <= Cap(cfg.maxReplays) {
      CallsPerMessage(cfg, k);
      FewerReplays(cfg, k);
    } else {
      FewerReplays(cfg, Cap(cfg.maxReplays));
    }
  }

  lemma LeftOfAny(cfg: Config, s: State, i: nat)
    requires Inv(cfg, s) && i < |s.topic|
    ensures Drain.Left(cfg, AllCalls, s, i) <= if Waits(s, i) then Allowed(cfg, 0) else 0
  {
    TimesOne(CallBudget(cfg));
    NoneCostsMore(cfg, s.topic[i].replays);
    if Waits(s, i) && Server(s.topic[i].part) in s.consumers {
      var w := s.consumers[Server(s.topic[i].part)].work;
      if w.Routing? && w.attempt < CallBudget(cfg) { TimesOne(CallBudget(cfg) - w.attempt); }
    }
  }

  lemma LeftOfAnyDead(cfg: Config, s: State, j: nat)
    requires Inv(cfg, s) && j < |s.dlq|
    ensures LeftDead(cfg, AllCalls, s, j) <= if WaitsDead(s, j) then Allowed(cfg, 0) else 0
  {
    NoneCostsMore(cfg, s.dlq[j].replays);
    NoneCostsMore(cfg, s.dlq[j].replays + 1);
  }

  lemma MessagesBounded(cfg: Config, s: State, most: nat)
    requires Inv(cfg, s) && most == Allowed(cfg, 0)
    ensures Sum(LeftAt(cfg, AllCalls, s), |s.topic|) <= Each(Sum(WaitsAt(s), |s.topic|), most)
  {
    forall i: nat | i < |s.topic|
      ensures LeftAt(cfg, AllCalls, s)(i) <= WaitsAt(s)(i) * most
    {
      LeftOfAny(cfg, s, i);
    }
    SumTimes(LeftAt(cfg, AllCalls, s), WaitsAt(s), |s.topic|, most);
  }

  lemma DeadBounded(cfg: Config, s: State, most: nat)
    requires Inv(cfg, s) && most == Allowed(cfg, 0)
    ensures Sum(LeftDeadAt(cfg, AllCalls, s), |s.dlq|) <= Each(Sum(WaitsDeadAt(s), |s.dlq|), most)
  {
    forall j: nat | j < |s.dlq|
      ensures LeftDeadAt(cfg, AllCalls, s)(j) <= WaitsDeadAt(s)(j) * most
    {
      LeftOfAnyDead(cfg, s, j);
    }
    SumTimes(LeftDeadAt(cfg, AllCalls, s), WaitsDeadAt(s), |s.dlq|, most);
  }

  lemma PotentialBounded(cfg: Config, s: State, most: nat)
    requires Inv(cfg, s) && most == Allowed(cfg, 0)
    ensures Potential(cfg, AllCalls, s) <= Each(Waiting(s), most)
  {
    MessagesBounded(cfg, s, most);
    DeadBounded(cfg, s, most);
    AddUp(Sum(LeftAt(cfg, AllCalls, s), |s.topic|), Sum(LeftDeadAt(cfg, AllCalls, s), |s.dlq|),
          Sum(WaitsAt(s), |s.topic|), Sum(WaitsDeadAt(s), |s.dlq|), most);
  }

  lemma AddUp(a: nat, b: nat, m: nat, n: nat, most: nat)
    requires a <= Each(m, most) && b <= Each(n, most)
    ensures a + b <= Each(m + n, most)
  {
    Distribute(m, n, most);
  }

  /** All the handler calls of a crash-free run, whatever it starts from: at most
      (maxReplays + 1) * (maxRetries + 1) for each message or dead letter still waiting. */
  lemma AllCallsBounded(cfg: Config, s: State, es: seq<Step>)
    requires Finite(cfg) && Inv(cfg, s) && IsDrain(cfg, s, es)
    ensures TotalCost(cfg, AllCalls, s, es) <= Each(Waiting(s), Allowed(cfg, 0))
  {
    PotentialBounded(cfg, s, Allowed(cfg, 0));
    DrainIsBounded(cfg, AllCalls, s, es);
  }
}
