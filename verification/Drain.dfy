/** Without crashes the replay loop comes to an end, and how many handler calls it can cost. */
module Drain {
  import opened Basics
  import opened Outbox
  import opened Pipeline
  import opened NoLoss

  // ---------------------------------------------------------------- crash-free runs

  /** The instance that serves a partition during the drain, and the next offset it will see. */
  function Server(part: Part): Id {
    Id(part, 0)
  }

  function Pos(s: State, part: Part): nat {
    if Server(part) in s.consumers then s.consumers[Server(part)].pos else Offset(s.committed, part)
  }

  function DeadPos(s: State, part: Part): nat {
    if Server(part) in s.replayers then s.replayers[Server(part)].pos else Offset(s.dlqCommitted, part)
  }

  predicate Waits(s: State, i: nat) {
    i < |s.topic| && Pos(s, s.topic[i].part) <= i
  }

  predicate WaitsDead(s: State, j: nat) {
    j < |s.dlq| && DeadPos(s, s.dlq[j].part) <= j
  }

  /** One server per partition, which joins when there is something to do and never crashes,
      awaited calls that all succeed, and no event whose trace context throws. Handlers may fail
      as they like. */
  ghost predicate Drains(cfg: Config, s: State, e: Step) {
    match e
    case Con(x) =>
      && EnabledCon(cfg, s, x) && x.c == Server(x.c.part) && !x.Crash?
      && (x.Bury? || x.Commit? ==> x.io == Done)
      && (x.Deliver? ==> !Untraceable(s.topic[x.msg].value))
      && (x.Join? ==> exists i: nat :: Waits(s, i) && s.topic[i].part == x.c.part)
    case Rep(x) =>
      && EnabledRep(cfg, s, x) && x.c == Server(x.c.part) && !x.CrashReplay?
      && (x.Resend? || x.CommitDead? ==> x.io == Done)
      && (x.JoinReplay? ==> exists j: nat :: WaitsDead(s, j) && s.dlq[j].part == x.c.part)
    case _ => false
  }

  ghost predicate IsDrain(cfg: Config, s: State, es: seq<Step>)
    decreases |es|
  {
    es == [] || (Drains(cfg, s, es[0]) && IsDrain(cfg, Next(cfg, s, es[0]), es[1..]))
  }

  lemma {:induction false} DrainIsRun(cfg: Config, s: State, es: seq<Step>)
    requires IsDrain(cfg, s, es)
    ensures IsRun(cfg, s, es)
    decreases |es|
  {
    if es != [] {
      DrainIsRun(cfg, Next(cfg, s, es[0]), es[1..]);
    }
  }

  ghost function AfterDrain(cfg: Config, s: State, es: seq<Step>): State
    requires IsDrain(cfg, s, es)
  {
    DrainIsRun(cfg, s, es);
    After(cfg, s, es)
  }

  // ---------------------------------------------------------------- what is left to do

  /** What is counted: steps, handler calls, or the calls for one original message and its
      replays. */
  datatype Meter = Steps | AllCalls | CallsFor(root: nat)

  function StepCost(meter: Meter): nat {
    if meter == Steps then 1 else 0
  }

  function CallCost(meter: Meter, root: Option<nat>): nat {
    if meter.CallsFor? && root != Some(meter.root) then 0 else 1
  }

  function Times(n: nat, cost: nat): nat {
    if n == 0 then 0 else cost + Times(n - 1, cost)
  }

  /** The most that a message, or a dead letter, with k replays behind it can still cost. */
  function MsgCost(cfg: Config, u: nat, v: nat, k: nat): nat
    decreases Cap(cfg.maxReplays) - k, 1
  {
    4 * u + Times(CallBudget(cfg), v) + DeadCost(cfg, u, v, k)
  }

  function DeadCost(cfg: Config, u: nat, v: nat, k: nat): nat
    decreases Cap(cfg.maxReplays) - k, 0
  {
    3 * u + if k < cfg.maxReplays then u + MsgCost(cfg, u, v, k + 1) else 0
  }

  /** What message i can still cost, given where its server is. */
  function Left(cfg: Config, meter: Meter, s: State, i: nat): nat {
    if !Waits(s, i) then 0
    else
      var m, c := s.topic[i], Server(s.topic[i].part);
      var u, v := StepCost(meter), CallCost(meter, m.root);
      if c !in s.consumers then MsgCost(cfg, u, v, m.replays)
      else if Busy(s.consumers[c], i) then WorkLeft(cfg, u, v, s.consumers[c].work, m.replays)
      else 3 * u + Times(CallBudget(cfg), v) + DeadCost(cfg, u, v, m.replays)
  }

  predicate Busy(c: Consumer, i: nat) {
    !c.work.Waiting? && c.work.msg == i
  }

  function WorkLeft(cfg: Config, u: nat, v: nat, w: Work, k: nat): nat {
    match w
    case Waiting => 0
    case Routing(_, a) => (if a < CallBudget(cfg) then Times(CallBudget(cfg) - a, v) else 0) + 2 * u + DeadCost(cfg, u, v, k)
    case Burying(_) => 2 * u + DeadCost(cfg, u, v, k)
    case Committing(_) => u
  }

  function LeftDead(cfg: Config, meter: Meter, s: State, j: nat): nat {
    if !WaitsDead(s, j) then 0
    else
      var d, c := s.dlq[j], Server(s.dlq[j].part);
      var u, v := StepCost(meter), CallCost(meter, d.root);
      if c !in s.replayers then DeadCost(cfg, u, v, d.replays)
      else if BusyDead(s.replayers[c], j) then
        u + if s.replayers[c].work.Resending? then u + MsgCost(cfg, u, v, d.replays + 1) else 0
      else DeadCost(cfg, u, v, d.replays) - u
  }

  predicate BusyDead(c: Replayer, j: nat) {
    !c.work.Resting? && c.work.dead == j
  }

  ghost function LeftAt(cfg: Config, meter: Meter, s: State): nat -> nat {
    i => Left(cfg, meter, s, i)
  }

  ghost function LeftDeadAt(cfg: Config, meter: Meter, s: State): nat -> nat {
    j => LeftDead(cfg, meter, s, j)
  }

  /** What the whole state can still cost. */
  ghost function Potential(cfg: Config, meter: Meter, s: State): nat {
    Sum(LeftAt(cfg, meter, s), |s.topic|) + Sum(LeftDeadAt(cfg, meter, s), |s.dlq|)
  }

  /** What a step costs: one step, or one call if it runs a handler on a message counted. */
  function Cost(cfg: Config, meter: Meter, s: State, e: Step): nat
    requires Enabled(cfg, s, e)
  {
    if meter == Steps then 1
    else if e.Con? && Runs(cfg, s, e.con) then CallCost(meter, s.topic[s.consumers[e.con.c].work.msg].root)
    else 0
  }

  ghost function TotalCost(cfg: Config, meter: Meter, s: State, es: seq<Step>): nat
    requires IsDrain(cfg, s, es)
    decreases |es|
  {
    if es == [] then 0 else Cost(cfg, meter, s, es[0]) + TotalCost(cfg, meter, Next(cfg, s, es[0]), es[1..])
  }

  // ---------------------------------------------------------------- every step pays

  /** Dead letters carry on the count, or are never replayed. */
  predicate Finite(cfg: Config) {
    cfg.preserves || cfg.maxReplays <= 0
  }

  // A consumer's step: only the message it works on, or has joined for, is touched.

  lemma JoinPays(cfg: Config, meter: Meter, s: State, x: ConStep, i: nat)
    requires Inv(cfg, s) && Drains(cfg, s, Con(x)) && x.Join? && i < |s.topic|
    ensures var t := NextCon(cfg, s, x);
            && Left(cfg, meter, t, i) <= Left(cfg, meter, s, i)
            && (Waits(s, i) && s.topic[i].part == x.c.part ==> Left(cfg, meter, t, i) + StepCost(meter) <= Left(cfg, meter, s, i))
  {
    var t := NextCon(cfg, s, x);
    assert t.topic == s.topic && t.committed == s.committed;
    if s.topic[i].part == x.c.part {
      assert t.consumers[x.c] == Consumer(Offset(s.committed, x.c.part), Waiting);
    } else {
      assert Server(s.topic[i].part) != x.c;
    }
  }

  /** The message that a step of a consumer at work is about. */
  function Current(s: State, x: ConStep): nat
    requires x.Deliver? || (x.c in s.consumers && !s.consumers[x.c].work.Waiting?)
  {
    if x.Deliver? then x.msg else s.consumers[x.c].work.msg
  }

  lemma OthersUnchanged(cfg: Config, meter: Meter, s: State, x: ConStep, i: nat)
    requires Inv(cfg, s) && Drains(cfg, s, Con(x)) && !x.Join? && i < |s.topic| && i != Current(s, x)
    ensures Left(cfg, meter, NextCon(cfg, s, x), i) <= Left(cfg, meter, s, i)
  {
    if s.topic[i].part == x.c.part {
      OthersOfPart(cfg, meter, s, x, i);
    } else {
      OtherParts(cfg, meter, s, x, i);
    }
  }

  lemma OthersOfPart(cfg: Config, meter: Meter, s: State, x: ConStep, i: nat)
    requires Inv(cfg, s) && Drains(cfg, s, Con(x)) && !x.Join? && i < |s.topic| && i != Current(s, x) && s.topic[i].part == x.c.part
    ensures Left(cfg, meter, NextCon(cfg, s, x), i) <= Left(cfg, meter, s, i)
  {
    assert ConsumerOk(cfg, s, x.c.part, s.consumers[x.c]);
    assert NextCon(cfg, s, x).topic == s.topic;
  }

  lemma OtherParts(cfg: Config, meter: Meter, s: State, x: ConStep, i: nat)
    requires Drains(cfg, s, Con(x)) && i < |s.topic| && s.topic[i].part != x.c.part
    ensures Left(cfg, meter, NextCon(cfg, s, x), i) == Left(cfg, meter, s, i)
  {
    var t, part := NextCon(cfg, s, x), s.topic[i].part;
    assert t.topic == s.topic && Server(part) != x.c && Pos(t, part) == Pos(s, part);
  }

  lemma DeliverPays(cfg: Config, meter: Meter, s: State, x: ConStep)
    requires Inv(cfg, s) && Drains(cfg, s, Con(x)) && x.Deliver?
    ensures x.msg < |s.topic| && Left(cfg, meter, NextCon(cfg, s, x), x.msg) + StepCost(meter) <= Left(cfg, meter, s, x.msg)
  {
    var t, i, k := NextCon(cfg, s, x), x.msg, s.consumers[x.c];
    assert Waits(s, i) && t.topic == s.topic && t.consumers[x.c] == Consumer(k.pos, FirstWork(cfg, s.topic[i].value, i));
  }

  lemma HandlePays(cfg: Config, meter: Meter, s: State, x: ConStep)
    requires Inv(cfg, s) && Drains(cfg, s, Con(x)) && x.Handle?
    ensures var i := Current(s, x);
            i < |s.topic| && Left(cfg, meter, NextCon(cfg, s, x), i) + Cost(cfg, meter, s, Con(x)) <= Left(cfg, meter, s, i)
  {
    var t, i, k := NextCon(cfg, s, x), Current(s, x), s.consumers[x.c];
    assert ConsumerOk(cfg, s, x.c.part, k);
    assert Waits(s, i) && t.topic == s.topic;
    assert t.consumers[x.c] == Consumer(k.pos, WorkAfterCall(cfg, s.topic[i].value.event, i, k.work.attempt, x.call));
  }

  lemma CommitPays(cfg: Config, meter: Meter, s: State, x: ConStep)
    requires Inv(cfg, s) && Drains(cfg, s, Con(x)) && x.Commit?
    ensures var i := Current(s, x);
            i < |s.topic| && Left(cfg, meter, NextCon(cfg, s, x), i) + StepCost(meter) <= Left(cfg, meter, s, i)
  {
    var t, i, k := NextCon(cfg, s, x), Current(s, x), s.consumers[x.c];
    assert ConsumerOk(cfg, s, x.c.part, k);
    assert Waits(s, i) && t.topic == s.topic && t.consumers[x.c] == Consumer(i + 1, Waiting);
  }

  lemma CurrentPays(cfg: Config, meter: Meter, s: State, x: ConStep)
    requires Inv(cfg, s) && Drains(cfg, s, Con(x)) && !x.Join? && !x.Bury?
    ensures var i := Current(s, x);
            i < |s.topic| && Left(cfg, meter, NextCon(cfg, s, x), i) + Cost(cfg, meter, s, Con(x)) <= Left(cfg, meter, s, i)
  {
    match x
    case Deliver(_, _) => DeliverPays(cfg, meter, s, x);
    case Handle(_, _) => HandlePays(cfg, meter, s, x);
    case Commit(_, _) => CommitPays(cfg, meter, s, x);
    case _ =>
  }

  lemma BuryPays(cfg: Config, meter: Meter, s: State, x: ConStep)
    requires Finite(cfg) && Inv(cfg, s) && Drains(cfg, s, Con(x)) && x.Bury?
    ensures var i, t := Current(s, x), NextCon(cfg, s, x);
            && i < |s.topic| && |t.dlq| == |s.dlq| + 1
            && Left(cfg, meter, t, i) + LeftDead(cfg, meter, t, |s.dlq|) + Cost(cfg, meter, s, Con(x)) <= Left(cfg, meter, s, i)
  {
    var t := NextCon(cfg, s, x);
    var k := s.consumers[x.c];
    var i := k.work.msg;
    assert ConsumerOk(cfg, s, x.c.part, k);
    assert t.topic == s.topic && Waits(s, i) && t.consumers[x.c] == Consumer(k.pos, Committing(i));
    var u, v := StepCost(meter), CallCost(meter, s.topic[i].root);
    assert DeadCost(cfg, u, v, t.dlq[|s.dlq|].replays) <= DeadCost(cfg, u, v, s.topic[i].replays);
    NewDeadCost(cfg, meter, s, t);
  }

  /** A dead letter nobody has got to costs at most what its count says. */
  lemma NewDeadCost(cfg: Config, meter: Meter, s: State, t: State)
    requires Inv(cfg, s) && t.replayers == s.replayers && t.dlqCommitted == s.dlqCommitted && |t.dlq| == |s.dlq| + 1
    ensures var d := t.dlq[|s.dlq|];
            LeftDead(cfg, meter, t, |s.dlq|) <= DeadCost(cfg, StepCost(meter), CallCost(meter, d.root), d.replays)
  {
    var c := Server(t.dlq[|s.dlq|].part);
    if c in s.replayers {
      assert ReplayerOk(cfg, s, c.part, s.replayers[c]);
    }
  }

  lemma DeadUntouched(cfg: Config, meter: Meter, s: State, t: State, j: nat)
    requires t.replayers == s.replayers && t.dlqCommitted == s.dlqCommitted && IsPrefix(s.dlq, t.dlq) && j < |s.dlq|
    ensures LeftDead(cfg, meter, t, j) == LeftDead(cfg, meter, s, j)
  {
    assert t.dlq[j] == s.dlq[j];
  }

  lemma DeadSumUntouched(cfg: Config, meter: Meter, s: State, t: State)
    requires t.replayers == s.replayers && t.dlqCommitted == s.dlqCommitted && IsPrefix(s.dlq, t.dlq)
    ensures Sum(LeftDeadAt(cfg, meter, t), |s.dlq|) <= Sum(LeftDeadAt(cfg, meter, s), |s.dlq|)
  {
    var f, g := LeftDeadAt(cfg, meter, s), LeftDeadAt(cfg, meter, t);
    forall j: nat | j < |s.dlq|
      ensures g(j) <= f(j)
    {
      DeadUntouched(cfg, meter, s, t, j);
    }
    SumNoMore(f, g, |s.dlq|);
  }

  lemma JoinShrinks(cfg: Config, meter: Meter, s: State, x: ConStep)
    requires Inv(cfg, s) && Drains(cfg, s, Con(x)) && x.Join?
    ensures Sum(LeftAt(cfg, meter, NextCon(cfg, s, x)), |s.topic|) + StepCost(meter) <= Sum(LeftAt(cfg, meter, s), |s.topic|)
  {
    var f, g := LeftAt(cfg, meter, s), LeftAt(cfg, meter, NextCon(cfg, s, x));
    var i: nat :| Waits(s, i) && s.topic[i].part == x.c.part;
    forall k: nat | k < |s.topic|
      ensures g(k) <= f(k)
    {
      JoinPays(cfg, meter, s, x, k);
    }
    JoinPays(cfg, meter, s, x, i);
    SumDrops(f, g, |s.topic|, i, StepCost(meter));
  }

  lemma WorkShrinks(cfg: Config, meter: Meter, s: State, x: ConStep, d: nat)
    requires Inv(cfg, s) && Drains(cfg, s, Con(x)) && !x.Join? && Current(s, x) < |s.topic|
    requires Left(cfg, meter, NextCon(cfg, s, x), Current(s, x)) + d <= Left(cfg, meter, s, Current(s, x))
    ensures Sum(LeftAt(cfg, meter, NextCon(cfg, s, x)), |s.topic|) + d <= Sum(LeftAt(cfg, meter, s), |s.topic|)
  {
    var f, g := LeftAt(cfg, meter, s), LeftAt(cfg, meter, NextCon(cfg, s, x));
    var i := Current(s, x);
    forall k: nat | k < |s.topic|
      ensures g(k) <= f(k)
    {
      if k != i { OthersUnchanged(cfg, meter, s, x, k); }
    }
    SumDrops(f, g, |s.topic|, i, d);
  }

  /** A log that has grown by at most one entry costs at most that entry more. */
  lemma SumOfGrown(f: nat -> nat, n: nat, m: nat, most: nat)
    requires n <= m <= n + 1 && Sum(f, n) + (if m > n then f(n) else 0) <= most
    ensures Sum(f, m) <= most
  {
  }

  lemma BuryShrinks(cfg: Config, meter: Meter, s: State, x: ConStep)
    requires Finite(cfg) && Inv(cfg, s) && Drains(cfg, s, Con(x)) && x.Bury?
    ensures Potential(cfg, meter, NextCon(cfg, s, x)) + Cost(cfg, meter, s, Con(x)) <= Potential(cfg, meter, s)
  {
    var t := NextCon(cfg, s, x);
    ConGrows(cfg, s, x);
    DeadSumUntouched(cfg, meter, s, t);
    BuryPays(cfg, meter, s, x);
    var more := LeftDead(cfg, meter, t, |s.dlq|);
    WorkShrinks(cfg, meter, s, x, Cost(cfg, meter, s, Con(x)) + more);
    SumOfGrown(LeftDeadAt(cfg, meter, t), |s.dlq|, |t.dlq|, Sum(LeftDeadAt(cfg, meter, s), |s.dlq|) + more);
  }

  lemma ConPays(cfg: Config, meter: Meter, s: State, x: ConStep)
    requires Finite(cfg) && Inv(cfg, s) && Drains(cfg, s, Con(x))
    ensures Potential(cfg, meter, NextCon(cfg, s, x)) + Cost(cfg, meter, s, Con(x)) <= Potential(cfg, meter, s)
  {
    if x.Bury? {
      BuryShrinks(cfg, meter, s, x);
    } else {
      var t := NextCon(cfg, s, x);
      DeadSumUntouched(cfg, meter, s, t);
      if x.Join? {
        JoinShrinks(cfg, meter, s, x);
      } else {
        CurrentPays(cfg, meter, s, x);
        WorkShrinks(cfg, meter, s, x, Cost(cfg, meter, s, Con(x)));
      }
    }
  }

  // A replay consumer's step, likewise.

  lemma JoinReplayPays(cfg: Config, meter: Meter, s: State, x: RepStep, j: nat)
    requires Inv(cfg, s) && Drains(cfg, s, Rep(x)) && x.JoinReplay? && j < |s.dlq|
    ensures var t := NextRep(cfg, s, x);
            && LeftDead(cfg, meter, t, j) <= LeftDead(cfg, meter, s, j)
            && (WaitsDead(s, j) && s.dlq[j].part == x.c.part ==> LeftDead(cfg, meter, t, j) + StepCost(meter) <= LeftDead(cfg, meter, s, j))
  {
    var t := NextRep(cfg, s, x);
    assert t.dlq == s.dlq && t.dlqCommitted == s.dlqCommitted;
    if s.dlq[j].part == x.c.part {
      assert t.replayers[x.c] == Replayer(Offset(s.dlqCommitted, x.c.part), Resting);
    } else {
      assert Server(s.dlq[j].part) != x.c;
    }
  }

  function CurrentDead(s: State, x: RepStep): nat
    requires x.DeliverDead? || (x.c in s.replayers && !s.replayers[x.c].work.Resting?)
  {
    if x.DeliverDead? then x.dead else s.replayers[x.c].work.dead
  }

  lemma OtherDeadUnchanged(cfg: Config, meter: Meter, s: State, x: RepStep, j: nat)
    requires Inv(cfg, s) && Drains(cfg, s, Rep(x)) && !x.JoinReplay? && j < |s.dlq| && j != CurrentDead(s, x)
    ensures LeftDead(cfg, meter, NextRep(cfg, s, x), j) <= LeftDead(cfg, meter, s, j)
  {
    if s.dlq[j].part == x.c.part {
      OtherDeadOfPart(cfg, meter, s, x, j);
    } else {
      OtherDeadParts(cfg, meter, s, x, j);
    }
  }

  lemma OtherDeadOfPart(cfg: Config, meter: Meter, s: State, x: RepStep, j: nat)
    requires Inv(cfg, s) && Drains(cfg, s, Rep(x)) && !x.JoinReplay? && j < |s.dlq| && j != CurrentDead(s, x) && s.dlq[j].part == x.c.part
    ensures LeftDead(cfg, meter, NextRep(cfg, s, x), j) <= LeftDead(cfg, meter, s, j)
  {
    assert ReplayerOk(cfg, s, x.c.part, s.replayers[x.c]);
    assert NextRep(cfg, s, x).dlq == s.dlq;
  }

  lemma OtherDeadParts(cfg: Config, meter: Meter, s: State, x: RepStep, j: nat)
    requires Drains(cfg, s, Rep(x)) && j < |s.dlq| && s.dlq[j].part != x.c.part
    ensures LeftDead(cfg, meter, NextRep(cfg, s, x), j) == LeftDead(cfg, meter, s, j)
  {
    var t, part := NextRep(cfg, s, x), s.dlq[j].part;
    assert t.dlq == s.dlq && Server(part) != x.c && DeadPos(t, part) == DeadPos(s, part);
  }

  lemma CurrentDeadPays(cfg: Config, meter: Meter, s: State, x: RepStep)
    requires Inv(cfg, s) && Drains(cfg, s, Rep(x)) && !x.JoinReplay? && !x.Resend?
    ensures var j := CurrentDead(s, x);
            j < |s.dlq| && LeftDead(cfg, meter, NextRep(cfg, s, x), j) + StepCost(meter) <= LeftDead(cfg, meter, s, j)
  {
    var t := NextRep(cfg, s, x);
    var k := s.replayers[x.c];
    assert ReplayerOk(cfg, s, x.c.part, k);
    assert t.dlq == s.dlq;
    match x
    case DeliverDead(c, j) =>
      assert WaitsDead(s, j) && t.replayers[c].pos == k.pos;
    case CommitDead(c, _) =>
      assert WaitsDead(s, k.work.dead) && t.replayers[c] == Replayer(k.work.dead + 1, Resting);
    case _ =>
  }

  lemma ResendPays(cfg: Config, meter: Meter, s: State, x: RepStep)
    requires Inv(cfg, s) && Drains(cfg, s, Rep(x)) && x.Resend?
    ensures var j, t := CurrentDead(s, x), NextRep(cfg, s, x);
            && j < |s.dlq| && |t.topic| == |s.topic| + 1
            && LeftDead(cfg, meter, t, j) + Left(cfg, meter, t, |s.topic|) + StepCost(meter) <= LeftDead(cfg, meter, s, j)
  {
    var t := NextRep(cfg, s, x);
    var k := s.replayers[x.c];
    var j := k.work.dead;
    assert ReplayerOk(cfg, s, x.c.part, k);
    assert t.dlq == s.dlq && WaitsDead(s, j) && t.replayers[x.c] == Replayer(k.pos, Finishing(j));
    NewMsgCost(cfg, meter, s, t);
  }

  lemma NewMsgCost(cfg: Config, meter: Meter, s: State, t: State)
    requires Inv(cfg, s) && t.consumers == s.consumers && t.committed == s.committed && |t.topic| == |s.topic| + 1
    ensures var m := t.topic[|s.topic|];
            Left(cfg, meter, t, |s.topic|) <= MsgCost(cfg, StepCost(meter), CallCost(meter, m.root), m.replays)
  {
    var c := Server(t.topic[|s.topic|].part);
    if c in s.consumers {
      assert ConsumerOk(cfg, s, c.part, s.consumers[c]);
    }
  }

  lemma MsgsUntouched(cfg: Config, meter: Meter, s: State, t: State)
    requires t.consumers == s.consumers && t.committed == s.committed && IsPrefix(s.topic, t.topic)
    ensures Sum(LeftAt(cfg, meter, t), |s.topic|) <= Sum(LeftAt(cfg, meter, s), |s.topic|)
  {
    var f, g := LeftAt(cfg, meter, s), LeftAt(cfg, meter, t);
    forall i: nat | i < |s.topic|
      ensures g(i) <= f(i)
    {
      assert t.topic[i] == s.topic[i];
    }
    SumNoMore(f, g, |s.topic|);
  }

  lemma JoinReplayShrinks(cfg: Config, meter: Meter, s: State, x: RepStep)
    requires Inv(cfg, s) && Drains(cfg, s, Rep(x)) && x.JoinReplay?
    ensures Sum(LeftDeadAt(cfg, meter, NextRep(cfg, s, x)), |s.dlq|) + StepCost(meter) <= Sum(LeftDeadAt(cfg, meter, s), |s.dlq|)
  {
    var f, g := LeftDeadAt(cfg, meter, s), LeftDeadAt(cfg, meter, NextRep(cfg, s, x));
    var j: nat :| WaitsDead(s, j) && s.dlq[j].part == x.c.part;
    forall k: nat | k < |s.dlq|
      ensures g(k) <= f(k)
    {
      JoinReplayPays(cfg, meter, s, x, k);
    }
    JoinReplayPays(cfg, meter, s, x, j);
    SumDrops(f, g, |s.dlq|, j, StepCost(meter));
  }

  lemma ReplayWorkShrinks(cfg: Config, meter: Meter, s: State, x: RepStep, d: nat)
    requires Inv(cfg, s) && Drains(cfg, s, Rep(x)) && !x.JoinReplay? && CurrentDead(s, x) < |s.dlq|
    requires LeftDead(cfg, meter, NextRep(cfg, s, x), CurrentDead(s, x)) + d <= LeftDead(cfg, meter, s, CurrentDead(s, x))
    ensures Sum(LeftDeadAt(cfg, meter, NextRep(cfg, s, x)), |s.dlq|) + d <= Sum(LeftDeadAt(cfg, meter, s), |s.dlq|)
  {
    var f, g := LeftDeadAt(cfg, meter, s), LeftDeadAt(cfg, meter, NextRep(cfg, s, x));
    var j := CurrentDead(s, x);
    forall k: nat | k < |s.dlq|
      ensures g(k) <= f(k)
    {
      if k != j { OtherDeadUnchanged(cfg, meter, s, x, k); }
    }
    SumDrops(f, g, |s.dlq|, j, d);
  }

  lemma ResendShrinks(cfg: Config, meter: Meter, s: State, x: RepStep)
    requires Inv(cfg, s) && Drains(cfg, s, Rep(x)) && x.Resend?
    ensures Potential(cfg, meter, NextRep(cfg, s, x)) + StepCost(meter) <= Potential(cfg, meter, s)
  {
    var t := NextRep(cfg, s, x);
    RepGrows(cfg, s, x);
    MsgsUntouched(cfg, meter, s, t);
    ResendPays(cfg, meter, s, x);
    var more := Left(cfg, meter, t, |s.topic|);
    ReplayWorkShrinks(cfg, meter, s, x, StepCost(meter) + more);
    SumOfGrown(LeftAt(cfg, meter, t), |s.topic|, |t.topic|, Sum(LeftAt(cfg, meter, s), |s.topic|) + more);
  }

  lemma RepPays(cfg: Config, meter: Meter, s: State, x: RepStep)
    requires Inv(cfg, s) && Drains(cfg, s, Rep(x))
    ensures Potential(cfg, meter, NextRep(cfg, s, x)) + StepCost(meter) <= Potential(cfg, meter, s)
  {
    if x.Resend? {
      ResendShrinks(cfg, meter, s, x);
    } else {
      var t := NextRep(cfg, s, x);
      MsgsUntouched(cfg, meter, s, t);
      if x.JoinReplay? {
        JoinReplayShrinks(cfg, meter, s, x);
      } else {
        CurrentDeadPays(cfg, meter, s, x);
        ReplayWorkShrinks(cfg, meter, s, x, StepCost(meter));
      }
    }
  }

  // ---------------------------------------------------------------- the bounds

  /** A crash-free run costs no more than the potential it starts from: that many steps in all,
      and that many handler calls for any one original message. */
  lemma {:induction false} DrainIsBounded(cfg: Config, meter: Meter, s: State, es: seq<Step>)
    requires Finite(cfg) && Inv(cfg, s) && IsDrain(cfg, s, es)
    ensures TotalCost(cfg, meter, s, es) <= Potential(cfg, meter, s)
    ensures meter == Steps ==> |es| <= Potential(cfg, meter, s)
    decreases |es|
  {
    if es != [] {
      var t := Next(cfg, s, es[0]);
      StepKeepsInv(cfg, s, es[0]);
      if es[0].Con? { ConPays(cfg, meter, s, es[0].con); } else { RepPays(cfg, meter, s, es[0].rep); }
      DrainIsBounded(cfg, meter, t, es[1..]);
    }
  }

  /** CallBudget calls for each life of a message that has k replays behind it. */
  function Allowed(cfg: Config, k: nat): nat
    requires k <= Cap(cfg.maxReplays)
  {
    (Cap(cfg.maxReplays) - k + 1) * CallBudget(cfg)
  }

  /** The call part of a message's cost, solved: every life of the message is one delivery. */
  lemma {:induction false} CallsPerMessage(cfg: Config, k: nat)
    requires k <= Cap(cfg.maxReplays)
    ensures MsgCost(cfg, 0, 1, k) == Allowed(cfg, k)
    decreases Cap(cfg.maxReplays) - k
  {
    TimesOne(CallBudget(cfg));
    if k < cfg.maxReplays {
      CallsPerMessage(cfg, k + 1);
      OneMore(Cap(cfg.maxReplays) - k, CallBudget(cfg));
    }
  }

  lemma {:induction false} TimesOne(n: nat)
    ensures Times(n, 1) == n && Times(n, 0) == 0
  {
    if n > 0 {
      TimesOne(n - 1);
    }
  }

  lemma {:induction false} FreeOfCharge(cfg: Config, k: nat)
    ensures MsgCost(cfg, 0, 0, k) == 0
    decreases Cap(cfg.maxReplays) - k
  {
    TimesOne(CallBudget(cfg));
    if k < cfg.maxReplays {
      FreeOfCharge(cfg, k + 1);
    }
  }

  lemma {:induction false} SumOfOne(f: nat -> nat, n: nat, i: nat, most: nat)
    requires forall k: nat :: k < n && k != i ==> f(k) == 0
    requires i < n ==> f(i) <= most
    ensures Sum(f, n) <= if i < n then most else 0
  {
    if n > 0 {
      SumOfOne(f, n - 1, i, most);
    }
  }

  /** Message i is the one copy of its original that is still to be dealt with. */
  predicate OnlyCopy(s: State, i: nat)
    requires i < |s.topic|
  {
    && (forall k: nat :: k < |s.topic| && k != i && s.topic[k].root == s.topic[i].root ==> !Waits(s, k))
    && (forall j: nat :: j < |s.dlq| && s.dlq[j].root == s.topic[i].root ==> !WaitsDead(s, j))
  }

  lemma LeftOfOthers(cfg: Config, s: State, i: nat, k: nat)
    requires Inv(cfg, s) && i < |s.topic| && s.topic[i].root.Some? && OnlyCopy(s, i) && k < |s.topic| && k != i
    ensures Left(cfg, CallsFor(s.topic[i].root.value), s, k) == 0
  {
    FreeOfCharge(cfg, s.topic[k].replays);
    TimesOne(CallBudget(cfg));
    if Waits(s, k) && Server(s.topic[k].part) in s.consumers {
      var w := s.consumers[Server(s.topic[k].part)].work;
      if w.Routing? && w.attempt < CallBudget(cfg) { TimesOne(CallBudget(cfg) - w.attempt); }
    }
  }

  lemma LeftOfOtherDead(cfg: Config, s: State, i: nat, j: nat)
    requires Inv(cfg, s) && i < |s.topic| && s.topic[i].root.Some? && OnlyCopy(s, i) && j < |s.dlq|
    ensures LeftDead(cfg, CallsFor(s.topic[i].root.value), s, j) == 0
  {
    FreeOfCharge(cfg, s.dlq[j].replays);
    FreeOfCharge(cfg, s.dlq[j].replays + 1);
  }

  lemma LeftOfOnly(cfg: Config, s: State, i: nat)
    requires Inv(cfg, s) && i < |s.topic| && s.topic[i].root.Some?
    ensures Left(cfg, CallsFor(s.topic[i].root.value), s, i) <= MsgCost(cfg, 0, 1, s.topic[i].replays)
  {
    TimesOne(CallBudget(cfg));
    if Waits(s, i) && Server(s.topic[i].part) in s.consumers {
      var w := s.consumers[Server(s.topic[i].part)].work;
      if w.Routing? && w.attempt < CallBudget(cfg) { TimesOne(CallBudget(cfg) - w.attempt); }
    }
  }

  /** At most (maxReplays + 1) * (maxRetries + 1) handler calls per original message: what is
      left for a message, over all its replays, on any crash-free run. */
  lemma CallsPerOriginal(cfg: Config, s: State, i: nat, es: seq<Step>)
    requires Finite(cfg) && Inv(cfg, s) && IsDrain(cfg, s, es)
    requires i < |s.topic| && s.topic[i].root.Some? && OnlyCopy(s, i) && s.topic[i].replays <= Cap(cfg.maxReplays)
    ensures TotalCost(cfg, CallsFor(s.topic[i].root.value), s, es) <= Allowed(cfg, s.topic[i].replays)
  {
    var meter := CallsFor(s.topic[i].root.value);
    forall k: nat | k < |s.topic| && k != i
      ensures LeftAt(cfg, meter, s)(k) == 0
    {
      LeftOfOthers(cfg, s, i, k);
    }
    forall j: nat | j < |s.dlq|
      ensures LeftDeadAt(cfg, meter, s)(j) == 0
    {
      LeftOfOtherDead(cfg, s, i, j);
    }
    LeftOfOnly(cfg, s, i);
    CallsPerMessage(cfg, s.topic[i].replays);
    SumOfOne(LeftAt(cfg, meter, s), |s.topic|, i, MsgCost(cfg, 0, 1, s.topic[i].replays));
    SumOfOne(LeftDeadAt(cfg, meter, s), |s.dlq|, |s.dlq|, 0);
    DrainIsBounded(cfg, meter, s, es);
  }

  // ---------------------------------------------------------------- the end of a drain

  lemma {:induction false} FirstOf(topic: seq<Msg>, part: Part, pos: nat, i: nat) returns (f: nat)
    requires pos <= i < |topic| && topic[i].part == part
    ensures NextFor(topic, part, pos, f) && f <= i
    decreases i
  {
    if k :| pos <= k < i && topic[k].part == part {
      f := FirstOf(topic, part, pos, k);
    } else {
      f := i;
    }
  }

  lemma {:induction false} FirstDeadOf(dlq: seq<Dead>, part: Part, pos: nat, j: nat) returns (f: nat)
    requires pos <= j < |dlq| && dlq[j].part == part
    ensures NextDeadFor(dlq, part, pos, f)
    decreases j
  {
    if k :| pos <= k < j && dlq[k].part == part {
      f := FirstDeadOf(dlq, part, pos, k);
    } else {
      f := j;
    }
  }

  /** At or before message i there waits, in its partition, one whose trace context throws. */
  ghost predicate Blocked(s: State, i: nat)
    requires i < |s.topic|
  {
    exists k: nat :: k <= i && s.topic[k].part == s.topic[i].part && Waits(s, k) && Untraceable(s.topic[k].value)
  }

  /** While a message waits, and is not blocked, its server can do something. */
  lemma SomethingToDo(cfg: Config, s: State, i: nat) returns (x: ConStep)
    requires Inv(cfg, s) && Waits(s, i) && !Blocked(s, i)
    ensures Drains(cfg, s, Con(x))
  {
    var part := s.topic[i].part;
    var c := Server(part);
    if c !in s.consumers { return Join(c); }
    var k := s.consumers[c];
    assert ConsumerOk(cfg, s, part, k);
    match k.work
    case Waiting =>
      var f := FirstOf(s.topic, part, k.pos, i);
      assert Waits(s, f);
      x := Deliver(c, f);
    case Routing(_, _) => x := Handle(c, Call(true, true, false));
    case Burying(_) => x := Bury(c, Part(DeadTopic(part.topic), 0), Done);
    case Committing(_) => x := Commit(c, Done);
  }

  lemma SomethingToReplay(cfg: Config, s: State, j: nat) returns (x: RepStep)
    requires Inv(cfg, s) && WaitsDead(s, j)
    ensures Drains(cfg, s, Rep(x))
  {
    var part := s.dlq[j].part;
    var c := Server(part);
    if c !in s.replayers { return JoinReplay(c); }
    var k := s.replayers[c];
    assert ReplayerOk(cfg, s, part, k);
    match k.work
    case Resting =>
      var f := FirstDeadOf(s.dlq, part, k.pos, j);
      x := DeliverDead(c, f);
    case Resending(d) => x := Resend(c, Part(s.dlq[d].original.value, 0), Done);
    case Finishing(_) => x := CommitDead(c, Done);
  }

  ghost predicate CanGoOn(cfg: Config, s: State) {
    exists e :: Drains(cfg, s, e)
  }

  lemma WaitingMeansWork(cfg: Config, s: State, i: nat)
    requires Inv(cfg, s) && i < |s.topic| && !CanGoOn(cfg, s) && !Blocked(s, i)
    ensures Dealt(cfg, s, i)
  {
    var part := s.topic[i].part;
    assert Waits(s, i) ==> CanGoOn(cfg, s) by {
      if Waits(s, i) {
        var x := SomethingToDo(cfg, s, i);
        assert Drains(cfg, s, Con(x)) ==> CanGoOn(cfg, s);
      }
    }
    assert Server(part) in s.consumers ==> ConsumerOk(cfg, s, part, s.consumers[Server(part)]);
  }

  lemma WaitingDeadMeansWork(cfg: Config, s: State, j: nat)
    requires Inv(cfg, s) && j < |s.dlq| && !CanGoOn(cfg, s)
    ensures DeadDealt(cfg, s, j)
  {
    var part := s.dlq[j].part;
    assert WaitsDead(s, j) ==> CanGoOn(cfg, s) by {
      if WaitsDead(s, j) {
        var x := SomethingToReplay(cfg, s, j);
        assert Drains(cfg, s, Rep(x)) ==> CanGoOn(cfg, s);
      }
    }
    assert Server(part) in s.replayers ==> ReplayerOk(cfg, s, part, s.replayers[Server(part)]);
  }

  ghost predicate AllDealt(cfg: Config, s: State) {
    && (forall i :: 0 <= i < |s.topic| ==> Dealt(cfg, s, i) || Blocked(s, i))
    && (forall j :: 0 <= j < |s.dlq| ==> DeadDealt(cfg, s, j))
  }

  /** A crash-free run that cannot go on has dealt with everything that is not blocked: each
      message was handled, skipped or dead-lettered, each dead letter republished, given up or
      dropped. */
  lemma DrainsDry(cfg: Config, s: State, es: seq<Step>)
    requires Inv(cfg, s) && IsDrain(cfg, s, es) && !CanGoOn(cfg, AfterDrain(cfg, s, es))
    ensures AllDealt(cfg, AfterDrain(cfg, s, es))
  {
    var t := AfterDrain(cfg, s, es);
    DrainIsRun(cfg, s, es);
    RunKeepsInv(cfg, s, es);
    forall i: nat | i < |t.topic|
      ensures Dealt(cfg, t, i) || Blocked(t, i)
    {
      if !Blocked(t, i) { WaitingMeansWork(cfg, t, i); }
    }
    forall j: nat | j < |t.dlq|
      ensures DeadDealt(cfg, t, j)
    {
      WaitingDeadMeansWork(cfg, t, j);
    }
  }

  // ---------------------------------------------------------------- when it terminates

  ghost predicate Within(cfg: Config, s: State, n: nat) {
    forall es :: IsDrain(cfg, s, es) ==> |es| <= n
  }

  /** From every state the pipeline can get to there is a bound on crash-free runs. */
  ghost predicate Terminates(cfg: Config) {
    forall es :: IsRun(cfg, START, es) ==> Bounded(cfg, After(cfg, START, es))
  }

  ghost predicate Bounded(cfg: Config, s: State) {
    exists n: nat :: Within(cfg, s, n)
  }

  lemma FiniteIsBounded(cfg: Config, s: State)
    requires Finite(cfg) && Inv(cfg, s)
    ensures Bounded(cfg, s)
  {
    forall es | IsDrain(cfg, s, es)
      ensures |es| <= Potential(cfg, Steps, s)
    {
      DrainIsBounded(cfg, Steps, s, es);
    }
    assert Within(cfg, s, Potential(cfg, Steps, s));
  }

  lemma FiniteTerminates(cfg: Config)
    requires Finite(cfg)
    ensures Terminates(cfg)
  {
    forall es | IsRun(cfg, START, es)
      ensures Bounded(cfg, After(cfg, START, es))
    {
      RunKeepsInv(cfg, START, es);
      FiniteIsBounded(cfg, After(cfg, START, es));
    }
  }

  const HOME := Part("t", 0)
  const GRAVE := Part(DeadTopic("t"), 0)

  /** A poison pill as the last message, its consumer about to get to it, and the replay
      consumer at the end of the dead-letter topic. */
  predicate Lonely(s: State) {
    && s.topic != [] && s.topic[|s.topic| - 1].part == HOME && s.topic[|s.topic| - 1].value.Poison?
    && Server(HOME) in s.consumers && s.consumers[Server(HOME)] == Consumer(|s.topic| - 1, Waiting)
    && Server(GRAVE) in s.replayers && s.replayers[Server(GRAVE)] == Replayer(|s.dlq|, Resting)
  }

  /** Its way onto the dead-letter topic. */
  function ToGrave(s: State): seq<Step>
    requires Lonely(s)
  {
    var c := Server(HOME);
    [Con(Deliver(c, |s.topic| - 1)), Con(Bury(c, GRAVE, Done)), Con(Commit(c, Done))]
  }

  /** The pill is dead, and the consumer is past it. */
  predicate Interred(s: State, dead: nat, msgs: nat) {
    && |s.topic| == msgs && |s.dlq| == dead + 1
    && s.dlq[dead].part == GRAVE && s.dlq[dead].value.Poison? && s.dlq[dead].original == Some("t") && s.dlq[dead].replays == 0
    && Server(HOME) in s.consumers && s.consumers[Server(HOME)] == Consumer(msgs, Waiting)
    && Server(GRAVE) in s.replayers && s.replayers[Server(GRAVE)] == Replayer(dead, Resting)
  }

  ghost predicate Goes(cfg: Config, s: State, e: Step, t: State) {
    Drains(cfg, s, e) && t == Next(cfg, s, e)
  }

  lemma Prepend(cfg: Config, s: State, e: Step, t: State, es: seq<Step>)
    requires Goes(cfg, s, e, t) && IsDrain(cfg, t, es)
    ensures IsDrain(cfg, s, [e] + es)
  {
    assert ([e] + es)[1..] == es;
  }

  lemma ThreeSteps(cfg: Config, s: State, s1: State, s2: State, t: State, a: Step, b: Step, c: Step)
    requires Goes(cfg, s, a, s1) && Goes(cfg, s1, b, s2) && Goes(cfg, s2, c, t)
    ensures forall es :: IsDrain(cfg, t, es) ==> IsDrain(cfg, s, [a, b, c] + es)
  {
    forall es | IsDrain(cfg, t, es)
      ensures IsDrain(cfg, s, [a, b, c] + es)
    {
      Prepend(cfg, s2, c, t, es);
      Prepend(cfg, s1, b, s2, [c] + es);
      Prepend(cfg, s, a, s1, [b] + ([c] + es));
      assert [a, b, c] + es == [a] + ([b] + ([c] + es));
    }
  }

  lemma PillDelivered(cfg: Config, s: State)
    requires Lonely(s)
    ensures var c, last := Server(HOME), |s.topic| - 1;
            Goes(cfg, s, Con(Deliver(c, last)), s.(consumers := s.consumers[c := Consumer(last, Burying(last))]))
  {
  }

  lemma PillBuried(cfg: Config, s: State, last: nat)
    requires Server(HOME) in s.consumers && s.consumers[Server(HOME)] == Consumer(last, Burying(last)) && last < |s.topic| && !cfg.preserves
    ensures var c, d := Server(HOME), Dead(GRAVE, s.topic[last].value, Some("t"), 0, Buried(last), s.topic[last].root);
            Goes(cfg, s, Con(Bury(c, GRAVE, Done)), s.(dlq := s.dlq + [d], consumers := s.consumers[c := Consumer(last, Committing(last))]))
  {
  }

  lemma GoesToGrave(cfg: Config, s: State) returns (t: State)
    requires Lonely(s) && !cfg.preserves
    ensures Interred(t, |s.dlq|, |s.topic|)
    ensures forall es :: IsDrain(cfg, t, es) ==> IsDrain(cfg, s, ToGrave(s) + es)
  {
    var c, last := Server(HOME), |s.topic| - 1;
    var deliver, bury, commit := Con(Deliver(c, last)), Con(Bury(c, GRAVE, Done)), Con(Commit(c, Done));
    PillDelivered(cfg, s);
    var s1 := Next(cfg, s, deliver);
    PillBuried(cfg, s1, last);
    var s2 := Next(cfg, s1, bury);
    t := Next(cfg, s2, commit);
    ThreeSteps(cfg, s, s1, s2, t, deliver, bury, commit);
  }

  lemma PillTaken(cfg: Config, s: State, dead: nat, msgs: nat)
    requires Interred(s, dead, msgs) && cfg.maxReplays > 0
    ensures var c := Server(GRAVE);
            Goes(cfg, s, Rep(DeliverDead(c, dead)), s.(replayers := s.replayers[c := Replayer(dead, Resending(dead))]))
  {
  }

  lemma PillResent(cfg: Config, s: State, dead: nat)
    requires Server(GRAVE) in s.replayers && s.replayers[Server(GRAVE)] == Replayer(dead, Resending(dead))
    requires dead < |s.dlq| && s.dlq[dead].original == Some("t")
    ensures var c, d := Server(GRAVE), s.dlq[dead];
            Goes(cfg, s, Rep(Resend(c, HOME, Done)),
                 s.(topic := s.topic + [Msg(HOME, d.value, d.replays + 1, Replayed(dead), d.root)],
                    replayers := s.replayers[c := Replayer(dead, Finishing(dead))]))
  {
  }

  lemma ComesBack(cfg: Config, s: State, dead: nat, msgs: nat) returns (t: State, steps: seq<Step>)
    requires Interred(s, dead, msgs) && cfg.maxReplays > 0
    ensures Lonely(t) && |steps| == 3
    ensures forall es :: IsDrain(cfg, t, es) ==> IsDrain(cfg, s, steps + es)
  {
    var c := Server(GRAVE);
    var deliver, resend, commit := Rep(DeliverDead(c, dead)), Rep(Resend(c, HOME, Done)), Rep(CommitDead(c, Done));
    PillTaken(cfg, s, dead, msgs);
    var s1 := Next(cfg, s, deliver);
    PillResent(cfg, s1, dead);
    var s2 := Next(cfg, s1, resend);
    t := Next(cfg, s2, commit);
    steps := [deliver, resend, commit];
    ThreeSteps(cfg, s, s1, s2, t, deliver, resend, commit);
  }

  lemma {:induction false} PingPong(cfg: Config, s: State, n: nat) returns (es: seq<Step>)
    requires Lonely(s) && !cfg.preserves && cfg.maxReplays > 0
    ensures IsDrain(cfg, s, es) && |es| == 6 * n
    decreases n
  {
    if n == 0 {
      es := [];
    } else {
      var t := GoesToGrave(cfg, s);
      var u, back := ComesBack(cfg, t, |s.dlq|, |s.topic|);
      var rest := PingPong(cfg, u, n - 1);
      es := ToGrave(s) + (back + rest);
    }
  }

  const LONELY := State([], [Msg(HOME, Poison("x"), 0, Foreign, Some(0))], [], map[], map[], map[],
                        map[Server(HOME) := Consumer(0, Waiting)], map[Server(GRAVE) := Replayer(0, Resting)], {}, map[])

  /** That state is one the pipeline gets to: the pill arrives, and the two consumers join. */
  lemma LonelyIsReachable(cfg: Config) returns (es: seq<Step>)
    ensures IsRun(cfg, START, es) && After(cfg, START, es) == LONELY
  {
    var inject, join, rejoin := Env(Inject(HOME, Poison("x"), 0)), Con(Join(Server(HOME))), Rep(JoinReplay(Server(GRAVE)));
    var s1 := Next(cfg, START, inject);
    var s2 := Next(cfg, s1, join);
    OneStep(cfg, s2, rejoin);
    StepThen(cfg, s1, join, [rejoin]);
    StepThen(cfg, START, inject, [join] + [rejoin]);
    es := [inject] + ([join] + [rejoin]);
  }

  lemma NotFiniteDoesNot(cfg: Config)
    requires !Finite(cfg)
    ensures !Terminates(cfg)
  {
    assert Lonely(LONELY);
    forall n: nat
      ensures !Within(cfg, LONELY, n)
    {
      var es := PingPong(cfg, LONELY, n + 1);
      assert IsDrain(cfg, LONELY, es) && |es| > n;
    }
    var way := LonelyIsReachable(cfg);
    assert !Bounded(cfg, After(cfg, START, way));
  }

  /** Crash-free runs come to an end if and only if dead-lettering carries the replay count on,
      or nothing is ever replayed; else one poison pill goes round for ever. */
  lemma TerminatesIff(cfg: Config)
    ensures Terminates(cfg) <==> Finite(cfg)
  {
    if Finite(cfg) { FiniteTerminates(cfg); } else { NotFiniteDoesNot(cfg); }
  }

  /** So a terminating configuration can always be drained, of everything that is not blocked. */
  lemma {:induction false} DrainOut(cfg: Config, s: State) returns (es: seq<Step>)
    requires Finite(cfg) && Inv(cfg, s)
    ensures IsDrain(cfg, s, es) && !CanGoOn(cfg, AfterDrain(cfg, s, es)) && AllDealt(cfg, AfterDrain(cfg, s, es))
    decreases Potential(cfg, Steps, s)
  {
    if CanGoOn(cfg, s) {
      var e :| Drains(cfg, s, e);
      var t := Next(cfg, s, e);
      StepKeepsInv(cfg, s, e);
      if e.Con? { ConPays(cfg, Steps, s, e.con); } else { RepPays(cfg, Steps, s, e.rep); }
      var rest := DrainOut(cfg, t);
      es := [e] + rest;
      assert es[1..] == rest;
    } else {
      es := [];
      DrainsDry(cfg, s, es);
    }
  }
}
