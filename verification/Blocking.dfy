/** What an event does whose trace context throws: its partition gets no further than that, on
    any run, and nothing else keeps a drain from dealing with a message. */
module Blocking {
  import opened Basics
  import opened Outbox
  import opened Pipeline
  import opened NoLoss
  import opened Drain

  /** The message is such an event, or comes after one in its partition. */
  ghost predicate Behind(s: State, i: nat) {
    i < |s.topic| && exists k :: 0 <= k <= i && s.topic[k].part == s.topic[i].part && Untraceable(s.topic[k].value)
  }

  /** There is no such event among the first n messages of the partition. */
  ghost predicate Clear(s: State, part: Part, n: nat) {
    n <= |s.topic| && forall k :: 0 <= k < n && s.topic[k].part == part ==> !Untraceable(s.topic[k].value)
  }

  // ---------------------------------------------------------------- the invariant

  ghost predicate ConsumerClear(s: State, part: Part, c: Consumer) {
    Clear(s, part, c.pos) && (!c.work.Waiting? ==> Clear(s, part, c.work.msg + 1))
  }

  /** Whatever the message has come to is something that it can come to. */
  ghost predicate Passed(s: State, i: nat) {
    i < |s.topic| && Clear(s, s.topic[i].part, i + 1)
  }

  ghost predicate Halted(s: State) {
    && (forall p <- s.committed :: Clear(s, p, s.committed[p]))
    && (forall c <- s.consumers :: ConsumerClear(s, c.part, s.consumers[c]))
    && (forall i <- s.handled :: Passed(s, i))
    && (forall j :: 0 <= j < |s.dlq| && s.dlq[j].origin.Buried? ==> Passed(s, s.dlq[j].origin.msg))
  }

  lemma ClearStays(s: State, t: State, part: Part, n: nat)
    requires IsPrefix(s.topic, t.topic) && Clear(s, part, n)
    ensures Clear(t, part, n)
  {
  }

  lemma PassedStays(s: State, t: State, i: nat)
    requires IsPrefix(s.topic, t.topic) && Passed(s, i)
    ensures Passed(t, i)
  {
    ClearStays(s, t, s.topic[i].part, i + 1);
  }

  /** The messages, the offsets, and what is handled and buried, apart from what is new. */
  lemma HaltedStays(s: State, t: State)
    requires Halted(s) && IsPrefix(s.topic, t.topic) && IsPrefix(s.dlq, t.dlq)
    requires forall p <- t.committed :: (p in s.committed && t.committed[p] == s.committed[p]) || Clear(t, p, t.committed[p])
    requires forall d <- t.consumers :: (d in s.consumers && t.consumers[d] == s.consumers[d]) || ConsumerClear(t, d.part, t.consumers[d])
    requires forall i <- t.handled :: i in s.handled || Passed(t, i)
    requires forall j :: |s.dlq| <= j < |t.dlq| && t.dlq[j].origin.Buried? ==> Passed(t, t.dlq[j].origin.msg)
    ensures Halted(t)
  {
    forall p <- t.committed
      ensures Clear(t, p, t.committed[p])
    {
      if p in s.committed && t.committed[p] == s.committed[p] { ClearStays(s, t, p, s.committed[p]); }
    }
    forall d <- t.consumers
      ensures ConsumerClear(t, d.part, t.consumers[d])
    {
      if d in s.consumers && t.consumers[d] == s.consumers[d] {
        var k := s.consumers[d];
        ClearStays(s, t, d.part, k.pos);
        if !k.work.Waiting? { ClearStays(s, t, d.part, k.work.msg + 1); }
      }
    }
    forall i <- t.handled
      ensures Passed(t, i)
    {
      if i in s.handled { PassedStays(s, t, i); }
    }
    forall j | 0 <= j < |t.dlq| && t.dlq[j].origin.Buried?
      ensures Passed(t, t.dlq[j].origin.msg)
    {
      if j < |s.dlq| { PassedStays(s, t, s.dlq[j].origin.msg); }
    }
  }

  lemma OthersKeepHalted(s: State, t: State)
    requires Halted(s) && IsPrefix(s.topic, t.topic) && IsPrefix(s.dlq, t.dlq)
    requires t.committed == s.committed && t.consumers == s.consumers && t.handled == s.handled
    requires forall j :: |s.dlq| <= j < |t.dlq| ==> t.dlq[j].origin.ForeignDead?
    ensures Halted(t)
  {
    HaltedStays(s, t);
  }

  /** Nothing of the partition lies between a consumer's position and its next message. */
  lemma ClearUpTo(s: State, part: Part, pos: nat, i: nat)
    requires Clear(s, part, pos) && NextFor(s.topic, part, pos, i) && !Untraceable(s.topic[i].value)
    ensures Clear(s, part, i + 1)
  {
  }

  lemma WorkerClear(cfg: Config, s: State, x: ConStep)
    requires Halted(s) && ConsumersOk(cfg, s) && EnabledCon(cfg, s, x) && x.c in NextCon(cfg, s, x).consumers
    ensures ConsumerClear(s, x.c.part, NextCon(cfg, s, x).consumers[x.c])
  {
    if x.c in s.consumers {
      assert ConsumerOk(cfg, s, x.c.part, s.consumers[x.c]) && ConsumerClear(s, x.c.part, s.consumers[x.c]);
    }
    if x.Deliver? { ClearUpTo(s, x.c.part, s.consumers[x.c].pos, x.msg); }
  }

  lemma WorkIsPassed(cfg: Config, s: State, c: Id)
    requires Halted(s) && ConsumersOk(cfg, s) && c in s.consumers && !s.consumers[c].work.Waiting?
    ensures Passed(s, s.consumers[c].work.msg)
  {
    assert ConsumerOk(cfg, s, c.part, s.consumers[c]) && ConsumerClear(s, c.part, s.consumers[c]);
  }

  lemma ConKeepsHalted(cfg: Config, s: State, x: ConStep)
    requires Halted(s) && ConsumersOk(cfg, s) && EnabledCon(cfg, s, x)
    ensures Halted(NextCon(cfg, s, x))
  {
    var t := NextCon(cfg, s, x);
    ConGrows(cfg, s, x);
    if x.c in t.consumers {
      WorkerClear(cfg, s, x);
      assert ConsumerClear(t, x.c.part, t.consumers[x.c]);
    }
    if x.Handle? || x.Bury? || x.Commit? {
      WorkIsPassed(cfg, s, x.c);
      PassedStays(s, t, s.consumers[x.c].work.msg);
      assert ConsumerOk(cfg, s, x.c.part, s.consumers[x.c]);
    }
    HaltedStays(s, t);
  }

  lemma EnvKeepsHalted(cfg: Config, s: State, x: EnvStep)
    requires Halted(s) && EnabledEnv(cfg, s, x)
    ensures Halted(NextEnv(s, x))
  {
    EnvGrows(cfg, s, x);
    OthersKeepHalted(s, NextEnv(s, x));
  }

  lemma PubKeepsHalted(cfg: Config, s: State, x: PubStep)
    requires Halted(s) && EnabledPub(cfg, s, x)
    ensures Halted(NextPub(cfg, s, x))
  {
    OthersKeepHalted(s, NextPub(cfg, s, x));
  }

  lemma RepKeepsHalted(cfg: Config, s: State, x: RepStep)
    requires Halted(s) && EnabledRep(cfg, s, x)
    ensures Halted(NextRep(cfg, s, x))
  {
    OthersKeepHalted(s, NextRep(cfg, s, x));
  }

  lemma StepKeepsHalted(cfg: Config, s: State, e: Step)
    requires Halted(s) && ConsumersOk(cfg, s) && Enabled(cfg, s, e)
    ensures Halted(Next(cfg, s, e))
  {
    match e
    case Env(x) => EnvKeepsHalted(cfg, s, x);
    case Pub(x) => PubKeepsHalted(cfg, s, x);
    case Con(x) => ConKeepsHalted(cfg, s, x);
    case Rep(x) => RepKeepsHalted(cfg, s, x);
  }

  lemma {:induction false} RunKeepsHalted(cfg: Config, s: State, es: seq<Step>)
    requires Halted(s) && Inv(cfg, s) && IsRun(cfg, s, es)
    ensures Halted(After(cfg, s, es)) && Inv(cfg, After(cfg, s, es))
    decreases |es|
  {
    if es != [] {
      StepKeepsHalted(cfg, s, es[0]);
      StepKeepsInv(cfg, s, es[0]);
      RunKeepsHalted(cfg, Next(cfg, s, es[0]), es[1..]);
    }
  }

  // ---------------------------------------------------------------- what follows

  /** On every run, whoever joins, crashes or is replaced: such an event, and whatever comes
      after it in its partition, is never handled and never dead-lettered, and no offset is
      committed past it. */
  lemma UntraceableBlocks(cfg: Config, es: seq<Step>)
    requires IsRun(cfg, START, es)
    ensures var t := After(cfg, START, es);
            && (forall i: nat :: Behind(t, i) ==> i !in t.handled && !InDlq(t, i))
            && (forall k: nat :: k < |t.topic| && Untraceable(t.topic[k].value) ==> Offset(t.committed, t.topic[k].part) <= k)
  {
    RunKeepsHalted(cfg, START, es);
    HaltedBlocks(After(cfg, START, es));
  }

  lemma HaltedBlocks(t: State)
    requires Halted(t)
    ensures forall i: nat :: Behind(t, i) ==> i !in t.handled && !InDlq(t, i)
    ensures forall k: nat :: k < |t.topic| && Untraceable(t.topic[k].value) ==> Offset(t.committed, t.topic[k].part) <= k
  {
    forall i: nat | Behind(t, i)
      ensures i !in t.handled && !InDlq(t, i)
    {
      assert !Passed(t, i);
    }
  }

  /** Every restart meets it again, and leaves everything as it was. */
  lemma ComesAgain(cfg: Config, s: State, c: Id, k: nat)
    requires c !in s.consumers && NextFor(s.topic, c.part, Offset(s.committed, c.part), k) && Untraceable(s.topic[k].value)
    ensures var es := [Con(Join(c)), Con(Deliver(c, k))]; IsRun(cfg, s, es) && After(cfg, s, es) == s
  {
    var t := NextCon(cfg, s, Join(c));
    assert t == s.(consumers := s.consumers[c := Consumer(Offset(s.committed, c.part), Waiting)]);
    OneStep(cfg, t, Con(Deliver(c, k)));
    StepThen(cfg, s, Con(Join(c)), [Con(Deliver(c, k))]);
    assert [Con(Join(c))] + [Con(Deliver(c, k))] == [Con(Join(c)), Con(Deliver(c, k))];
    assert t.consumers - {c} == s.consumers;
    assert NextCon(cfg, t, Deliver(c, k)) == s;
  }

  /** Nothing is to be done with it: a tombstone, or an event that no handler is for. */
  predicate NeedsNothing(cfg: Config, v: Value) {
    v.Tombstone? || (v.Event? && v.event.eventType !in cfg.handles)
  }

  /** And nothing else stands in the way: when a crash-free run from any state the pipeline gets
      to cannot go on, a message has been dealt with if and only if it is not behind such an
      event, or needs nothing done. */
  lemma DrainedIff(cfg: Config, es: seq<Step>, late: seq<Step>)
    requires IsRun(cfg, START, es) && IsDrain(cfg, After(cfg, START, es), late)
    requires !CanGoOn(cfg, AfterDrain(cfg, After(cfg, START, es), late))
    ensures var t := AfterDrain(cfg, After(cfg, START, es), late);
            forall i: nat :: i < |t.topic| ==> (Dealt(cfg, t, i) <==> !Behind(t, i) || NeedsNothing(cfg, t.topic[i].value))
  {
    var s := After(cfg, START, es);
    var t := AfterDrain(cfg, s, late);
    DrainIsRun(cfg, s, late);
    RunKeepsHalted(cfg, START, es);
    RunKeepsHalted(cfg, s, late);
    HaltedBlocks(t);
    forall i: nat | i < |t.topic|
      ensures Dealt(cfg, t, i) <==> !Behind(t, i) || NeedsNothing(cfg, t.topic[i].value)
    {
      if !Behind(t, i) {
        assert !Blocked(t, i);
        WaitingMeansWork(cfg, t, i);
      }
    }
  }
}
