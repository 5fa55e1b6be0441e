/** Publisher replicas side by side: when each row has one owner, and when a settled row stays
    settled. Both need more than the publisher itself provides. */
module Replicas {
  import opened Basics
  import opened Outbox
  import opened Pipeline
  import opened Polls
  import NoLoss

  function Batch(j: Job): seq<Claimed> {
    if j.Idle? then [] else j.batch
  }

  predicate Holds(s: State, p: nat, i: nat, id: nat) {
    p in s.publishers && i < |Batch(s.publishers[p])| && Batch(s.publishers[p])[i].id == id
  }

  /** Every row in a replica's hands is INFLIGHT, and in one pair of hands once. */
  ghost predicate Owned(s: State) {
    && (forall p: nat, i: nat, id: nat :: Holds(s, p, i, id) ==> id < |s.rows| && s.rows[id].status == Inflight)
    && (forall p: nat, i: nat, q: nat, k: nat, id: nat :: Holds(s, p, i, id) && Holds(s, q, k, id) ==> p == q && i == k)
  }

  /** What a deployment has to reckon with: a reaper, and marks that work but are reported as
      failed. */
  datatype Policy = Policy(reaping: bool, lateMarks: bool)

  predicate Reaps(e: Step) {
    e.Env? && e.env.ReapRow?
  }

  predicate MarksLate(e: Step) {
    e.Pub? && e.pub.MarkDone? && e.pub.io == FailedAfter
  }

  predicate Obeys(p: Policy, e: Step) {
    (Reaps(e) ==> p.reaping) && (MarksLate(e) ==> p.lateMarks)
  }

  predicate Calm(e: Step) {
    !Reaps(e) && !MarksLate(e)
  }

  predicate Settled(r: Row) {
    r.status == Processed || r.status == FailedDlq
  }

  ghost predicate SettledStay(a: Rows, b: Rows) {
    |a| <= |b| && forall id: nat :: id < |a| && Settled(a[id]) ==> b[id] == a[id]
  }

  // ---------------------------------------------------------------- one step

  /** A replica that goes on with what it has, or with less of it. */
  lemma OwnedStays(s: State, t: State, p: nat, j: Job)
    requires Owned(s) && t.publishers == s.publishers[p := j]
    requires Batch(j) == Batch(JobOf(s, p)) || Batch(j) == []
    requires |s.rows| <= |t.rows| && forall id: nat :: id < |s.rows| && s.rows[id].status == Inflight ==> t.rows[id].status == Inflight
    ensures Owned(t)
  {
    forall q: nat, i: nat, id: nat | Holds(t, q, i, id)
      ensures Holds(s, q, i, id)
    {
    }
  }

  lemma ClaimKeepsOwned(cfg: Config, s: State, x: PubStep)
    requires Owned(s) && EnabledPub(cfg, s, x) && x.ClaimBatch?
    ensures Owned(NextPub(cfg, s, x)) && SettledStay(s.rows, NextPub(cfg, s, x).rows)
  {
    var t := NextPub(cfg, s, x);
    if x.io == Done {
      var ids := x.ids;
      forall q: nat, i: nat, id: nat | Holds(t, q, i, id)
        ensures if q == x.p then i < |ids| && ids[i] == id && id in ids else Holds(s, q, i, id)
        ensures id < |t.rows| && t.rows[id].status == Inflight
        ensures q != x.p ==> id !in ids
      {
        if q != x.p { assert Holds(s, q, i, id); }
      }
    } else {
      OwnedStays(s, t, x.p, Idle);
    }
  }

  /** The replica is done with its first row, whatever has become of it. */
  lemma HeadLeaves(s: State, t: State, p: nat, batch: seq<Claimed>)
    requires Owned(s) && batch != [] && p in s.publishers && Batch(s.publishers[p]) == batch
    requires p in t.publishers && t.publishers == s.publishers[p := t.publishers[p]]
    requires Batch(t.publishers[p]) == batch[1..] || Batch(t.publishers[p]) == []
    requires |t.rows| == |s.rows| && forall id: nat :: id < |s.rows| && id != batch[0].id ==> t.rows[id] == s.rows[id]
    ensures Owned(t)
  {
    assert Holds(s, p, 0, batch[0].id);
    forall q: nat, i: nat, id: nat | Holds(t, q, i, id)
      ensures Holds(s, q, if q == p then i + 1 else i, id) && id != batch[0].id
    {
      if q == p { assert batch[1..][i] == batch[i + 1]; }
      assert Holds(s, q, if q == p then i + 1 else i, id);
    }
  }

  lemma MarkKeepsOwned(cfg: Config, s: State, x: PubStep)
    requires Owned(s) && EnabledPub(cfg, s, x) && (x.MarkDone? || x.MarkFail?) && Calm(Pub(x))
    ensures Owned(NextPub(cfg, s, x)) && SettledStay(s.rows, NextPub(cfg, s, x).rows)
  {
    var t := NextPub(cfg, s, x);
    var batch := JobOf(s, x.p).batch;
    assert Holds(s, x.p, 0, batch[0].id);
    if x.io == FailedClean {
      OwnedStays(s, t, x.p, t.publishers[x.p]);
    } else {
      HeadLeaves(s, t, x.p, batch);
    }
  }

  lemma PubKeepsOwned(cfg: Config, s: State, x: PubStep)
    requires Owned(s) && EnabledPub(cfg, s, x) && Calm(Pub(x))
    ensures Owned(NextPub(cfg, s, x)) && SettledStay(s.rows, NextPub(cfg, s, x).rows)
  {
    match x
    case ClaimBatch(_, _, _) => ClaimKeepsOwned(cfg, s, x);
    case Publish(p, _, _) => OwnedStays(s, NextPub(cfg, s, x), p, JobAfter(cfg, s, x));
    case MarkDone(_, _) => MarkKeepsOwned(cfg, s, x);
    case MarkFail(_, _) => MarkKeepsOwned(cfg, s, x);
    case CrashPublisher(p) => OwnedStays(s, NextPub(cfg, s, x), p, Idle);
  }

  lemma StepKeepsOwned(cfg: Config, s: State, e: Step)
    requires Owned(s) && Enabled(cfg, s, e) && Calm(e)
    ensures Owned(Next(cfg, s, e)) && SettledStay(s.rows, Next(cfg, s, e).rows)
  {
    if e.Pub? {
      PubKeepsOwned(cfg, s, e.pub);
    } else {
      OthersLeaveRows(cfg, s, e);
      SameHands(s, Next(cfg, s, e));
    }
  }

  // Nobody else marks a row, apart from the reaper.

  predicate LeavesRows(s: State, t: State) {
    && t.publishers == s.publishers && |s.rows| <= |t.rows|
    && (forall id: nat :: id < |s.rows| ==> t.rows[id] == s.rows[id])
    && (forall id: nat :: |s.rows| <= id < |t.rows| ==> t.rows[id].status == Pending)
  }

  lemma EnvLeavesRows(cfg: Config, s: State, x: EnvStep)
    requires EnabledEnv(cfg, s, x) && !x.ReapRow?
    ensures LeavesRows(s, NextEnv(s, x))
  {
  }

  lemma ConLeavesRows(cfg: Config, s: State, x: ConStep)
    requires EnabledCon(cfg, s, x)
    ensures LeavesRows(s, NextCon(cfg, s, x))
  {
  }

  lemma RepLeavesRows(cfg: Config, s: State, x: RepStep)
    requires EnabledRep(cfg, s, x)
    ensures LeavesRows(s, NextRep(cfg, s, x))
  {
  }

  lemma OthersLeaveRows(cfg: Config, s: State, e: Step)
    requires Enabled(cfg, s, e) && !e.Pub? && !Reaps(e)
    ensures LeavesRows(s, Next(cfg, s, e))
  {
    match e
    case Env(x) => EnvLeavesRows(cfg, s, x);
    case Con(x) => ConLeavesRows(cfg, s, x);
    case Rep(x) => RepLeavesRows(cfg, s, x);
  }

  lemma SameHands(s: State, t: State)
    requires Owned(s) && LeavesRows(s, t)
    ensures Owned(t) && SettledStay(s.rows, t.rows)
  {
    forall q: nat, i: nat, id: nat
      ensures Holds(t, q, i, id) <==> Holds(s, q, i, id)
    {
    }
  }

  // ---------------------------------------------------------------- every run

  predicate CalmRun(es: seq<Step>) {
    forall e <- es :: Calm(e)
  }

  lemma {:induction false} RunKeepsOwned(cfg: Config, s: State, es: seq<Step>)
    requires Owned(s) && IsRun(cfg, s, es) && CalmRun(es)
    ensures Owned(After(cfg, s, es)) && SettledStay(s.rows, After(cfg, s, es).rows)
    decreases |es|
  {
    if es != [] {
      StepKeepsOwned(cfg, s, es[0]);
      RunKeepsOwned(cfg, Next(cfg, s, es[0]), es[1..]);
    }
  }

  /** While nobody reaps and no mark fails after it worked, two replicas never hold the same
      row, however their polls and crashes interleave, and a row that is PROCESSED or
      FAILED_DLQ stays as it is. */
  lemma OneOwnerAndSettledForGood(cfg: Config, es: seq<Step>, late: seq<Step>)
    requires IsRun(cfg, START, es) && CalmRun(es)
    requires IsRun(cfg, After(cfg, START, es), late) && CalmRun(late)
    ensures Owned(After(cfg, START, es))
    ensures SettledStay(After(cfg, START, es).rows, After(cfg, After(cfg, START, es), late).rows)
  {
    RunKeepsOwned(cfg, START, es);
    RunKeepsOwned(cfg, After(cfg, START, es), late);
  }

  // ---------------------------------------------------------------- and two ways to lose that

  /** One row, and two replicas at it. */
  predicate Pair(s: State, r: Row, j0: Job, j1: Job) {
    s.rows == [r] && JobOf(s, 0) == j0 && JobOf(s, 1) == j1
  }

  lemma Claims(cfg: Config, s: State, p: nat, r: Row)
    requires cfg.batchSize >= 1 && s.rows == [r] && r.status == Pending && JobOf(s, p) == Idle
    ensures EnabledPub(cfg, s, ClaimBatch(p, [0], Done))
    ensures var t := NextPub(cfg, s, ClaimBatch(p, [0], Done));
            t.rows == [r.(status := Inflight)] && t.publishers == s.publishers[p := Publishing([Claimed(0, r)])]
  {
    assert Snapshot(s.rows, [0]) == [Claimed(0, r)];
    assert Claim(s.rows, [0]) == [r.(status := Inflight)] by {
      assert 0 in [0];
    }
  }

  lemma OwnClaim(cfg: Config, r: Row) returns (es: seq<Step>)
    requires cfg.batchSize >= 1 && r.status == Pending
    ensures IsRun(cfg, START, es) && Pair(After(cfg, START, es), r.(status := Inflight), Publishing([Claimed(0, r)]), Idle)
    ensures forall e <- es :: Calm(e)
  {
    var append, claim := Env(Append(r)), Pub(ClaimBatch(0, [0], Done));
    var s1 := Next(cfg, START, append);
    Claims(cfg, s1, 0, r);
    OneStep(cfg, s1, claim);
    StepThen(cfg, START, append, [claim]);
    es := [append] + [claim];
  }

  /** The slow replica claims and publishes, and then the reaper finds the row stale. */
  lemma SlowReplica(cfg: Config, r: Row, part: Part) returns (es: seq<Step>)
    requires cfg.batchSize >= 1 && r.status == Pending && part.topic == cfg.topicOf(r.eventType)
    ensures IsRun(cfg, START, es) && Pair(After(cfg, START, es), r, Marking([Claimed(0, r)]), Idle)
    ensures forall e <- es :: !MarksLate(e)
  {
    var claim := OwnClaim(cfg, r);
    var publish, reap := Pub(Publish(0, part, Done)), Env(ReapRow(0));
    var s := After(cfg, START, claim);
    PublishGoesOn(cfg, s, 0, [Claimed(0, r)], part, Done);
    var t := Next(cfg, s, publish);
    assert JobOf(t, 1) == Idle;
    OneStep(cfg, t, reap);
    StepThen(cfg, s, publish, [reap]);
    RunThen(cfg, START, claim, [publish] + [reap]);
    es := claim + ([publish] + [reap]);
  }

  /** The other replica takes the row over from start to end. */
  lemma FastReplica(cfg: Config, s: State, r: Row, part: Part) returns (es: seq<Step>)
    requires cfg.batchSize >= 1 && r.status == Pending && part.topic == cfg.topicOf(r.eventType)
    requires Pair(s, r, Marking([Claimed(0, r)]), Idle)
    ensures IsRun(cfg, s, es) && Pair(After(cfg, s, es), r.(status := Processed), Marking([Claimed(0, r)]), Idle)
    ensures forall e <- es :: !MarksLate(e)
  {
    var batch := [Claimed(0, r)];
    var claim, publish, mark := Pub(ClaimBatch(1, [0], Done)), Pub(Publish(1, part, Done)), Pub(MarkDone(1, Done));
    Claims(cfg, s, 1, r);
    var s1 := Next(cfg, s, claim);
    PublishGoesOn(cfg, s1, 1, batch, part, Done);
    var s2 := Next(cfg, s1, publish);
    MarkGoesOn(cfg, s2, 1, batch, Done);
    assert batch[1..] == [];
    assert JobOf(s2, 0) == Marking(batch);
    OneStep(cfg, s2, mark);
    StepThen(cfg, s1, publish, [mark]);
    StepThen(cfg, s, claim, [publish] + [mark]);
    es := [claim] + ([publish] + [mark]);
  }

  /** The slow replica's mark times out, so it reports its row as failed. */
  lemma LateFailure(cfg: Config, s: State, r: Row) returns (es: seq<Step>)
    requires Pair(s, r.(status := Processed), Marking([Claimed(0, r)]), Idle)
    ensures IsRun(cfg, s, es) && After(cfg, s, es).rows == MarkFailed([r.(status := Processed)], 0, r.attempts, cfg.maxAttempts)
    ensures forall e <- es :: !MarksLate(e)
  {
    var batch := [Claimed(0, r)];
    var mark, fail := Pub(MarkDone(0, FailedClean)), Pub(MarkFail(0, Done));
    MarkGoesOn(cfg, s, 0, batch, FailedClean);
    var s1 := Next(cfg, s, mark);
    FailGoesOn(cfg, s1, 0, batch, Done);
    OneStep(cfg, s1, fail);
    StepThen(cfg, s, mark, [fail]);
    es := [mark] + [fail];
  }

  /** With a reaper and nothing else PROCESSED is not terminal: for every row and every
      configuration that can claim at all, some run marks the row PROCESSED and then takes that
      back. */
  lemma ProcessedIsNotTerminal(cfg: Config, r: Row, part: Part) returns (es: seq<Step>, late: seq<Step>)
    requires cfg.batchSize >= 1 && r.status == Pending && part.topic == cfg.topicOf(r.eventType)
    ensures IsRun(cfg, START, es) && After(cfg, START, es).rows == [r.(status := Processed)]
    ensures forall e <- es + late :: !MarksLate(e)
    ensures IsRun(cfg, After(cfg, START, es), late)
    ensures var rows := After(cfg, After(cfg, START, es), late).rows; |rows| == 1 && rows[0].status != Processed
  {
    var slow := SlowReplica(cfg, r, part);
    var s1 := After(cfg, START, slow);
    var fast := FastReplica(cfg, s1, r, part);
    var s2 := After(cfg, s1, fast);
    RunThen(cfg, START, slow, fast);
    es := slow + fast;
    late := LateFailure(cfg, s2, r);
  }

  lemma OwnMarkWorks(cfg: Config, s: State, r: Row, part: Part) returns (es: seq<Step>)
    requires Pair(s, r.(status := Inflight), Publishing([Claimed(0, r)]), Idle)
    requires part.topic == cfg.topicOf(r.eventType)
    ensures IsRun(cfg, s, es) && Pair(After(cfg, s, es), r.(status := Processed), Failing([Claimed(0, r)]), Idle)
    ensures forall e <- es :: e.Pub?
  {
    var batch := [Claimed(0, r)];
    var publish, mark := Pub(Publish(0, part, Done)), Pub(MarkDone(0, FailedAfter));
    PublishGoesOn(cfg, s, 0, batch, part, Done);
    var s1 := Next(cfg, s, publish);
    MarkGoesOn(cfg, s1, 0, batch, FailedAfter);
    OneStep(cfg, s1, mark);
    StepThen(cfg, s, publish, [mark]);
    es := [publish] + [mark];
  }

  /** Nor is a second replica needed: if the one mark of a row works but is reported as failed,
      the row is handed back as a failure of publishing. */
  lemma UnsettledByItsOwnMark(cfg: Config, r: Row, part: Part) returns (es: seq<Step>, late: seq<Step>)
    requires cfg.batchSize >= 1 && r.status == Pending && part.topic == cfg.topicOf(r.eventType)
    ensures IsRun(cfg, START, es) && After(cfg, START, es).rows == [r.(status := Processed)]
    ensures forall e <- es + late :: !Reaps(e)
    ensures IsRun(cfg, After(cfg, START, es), late)
    ensures var rows := After(cfg, After(cfg, START, es), late).rows; |rows| == 1 && rows[0].status != Processed
  {
    var claim := OwnClaim(cfg, r);
    var s1 := After(cfg, START, claim);
    var mark := OwnMarkWorks(cfg, s1, r, part);
    RunThen(cfg, START, claim, mark);
    es := claim + mark;
    var s2 := After(cfg, START, es);
    FailGoesOn(cfg, s2, 0, [Claimed(0, r)], Done);
    late := [Pub(MarkFail(0, Done))];
    OneStep(cfg, s2, late[0]);
  }

  // ---------------------------------------------------------------- exactly when

  /** On every run that obeys the policy, a row that is PROCESSED or FAILED_DLQ stays so. */
  ghost predicate SettledForGood(cfg: Config, p: Policy) {
    forall es, late :: IsRun(cfg, START, es) && IsRun(cfg, After(cfg, START, es), late) && AllObey(p, es) && AllObey(p, late) ==>
      SettledStay(After(cfg, START, es).rows, After(cfg, After(cfg, START, es), late).rows)
  }

  predicate AllObey(p: Policy, es: seq<Step>) {
    forall e <- es :: Obeys(p, e)
  }

  lemma Refutes(cfg: Config, p: Policy, r: Row, es: seq<Step>, late: seq<Step>)
    requires IsRun(cfg, START, es) && AllObey(p, es) && IsRun(cfg, After(cfg, START, es), late) && AllObey(p, late)
    requires After(cfg, START, es).rows == [r.(status := Processed)]
    requires var rows := After(cfg, After(cfg, START, es), late).rows; |rows| == 1 && rows[0].status != Processed
    ensures !SettledForGood(cfg, p)
  {
    assert Settled(After(cfg, START, es).rows[0]);
  }

  const ANY_ROW := Row("type", "aggregate", "id", "org", "{}", 0, None, Pending, 0)

  // With a batch size of zero nothing is ever claimed, or settled.

  predicate Unclaimed(s: State) {
    && (forall p <- s.publishers :: s.publishers[p].Idle?)
    && (forall id: nat :: id < |s.rows| ==> s.rows[id].status == Pending)
  }

  lemma PubKeepsUnclaimed(cfg: Config, s: State, x: PubStep)
    requires cfg.batchSize == 0 && Unclaimed(s) && EnabledPub(cfg, s, x)
    ensures Unclaimed(NextPub(cfg, s, x))
  {
    assert x.ClaimBatch? ==> x.ids == [];
    assert JobOf(s, x.p).Idle?;
  }

  lemma EnvKeepsUnclaimed(cfg: Config, s: State, x: EnvStep)
    requires Unclaimed(s) && EnabledEnv(cfg, s, x)
    ensures Unclaimed(NextEnv(s, x))
  {
  }

  lemma StepKeepsUnclaimed(cfg: Config, s: State, e: Step)
    requires cfg.batchSize == 0 && Unclaimed(s) && Enabled(cfg, s, e)
    ensures Unclaimed(Next(cfg, s, e))
  {
    match e
    case Env(x) => EnvKeepsUnclaimed(cfg, s, x);
    case Pub(x) => PubKeepsUnclaimed(cfg, s, x);
    case Con(x) => assert NextCon(cfg, s, x).rows == s.rows && NextCon(cfg, s, x).publishers == s.publishers;
    case Rep(x) => assert NextRep(cfg, s, x).rows == s.rows && NextRep(cfg, s, x).publishers == s.publishers;
  }

  lemma {:induction false} RunKeepsUnclaimed(cfg: Config, s: State, es: seq<Step>)
    requires cfg.batchSize == 0 && Unclaimed(s) && IsRun(cfg, s, es)
    ensures Unclaimed(After(cfg, s, es))
    decreases |es|
  {
    if es != [] {
      StepKeepsUnclaimed(cfg, s, es[0]);
      RunKeepsUnclaimed(cfg, Next(cfg, s, es[0]), es[1..]);
    }
  }

  lemma NothingToUnsettle(cfg: Config, p: Policy)
    requires cfg.batchSize == 0
    ensures SettledForGood(cfg, p)
  {
    forall es, late | IsRun(cfg, START, es) && IsRun(cfg, After(cfg, START, es), late)
      ensures SettledStay(After(cfg, START, es).rows, After(cfg, After(cfg, START, es), late).rows)
    {
      RunKeepsUnclaimed(cfg, START, es);
      RunsGrow(cfg, After(cfg, START, es), late);
    }
  }

  lemma {:induction false} RunsGrow(cfg: Config, s: State, es: seq<Step>)
    requires IsRun(cfg, s, es)
    ensures |s.rows| <= |After(cfg, s, es).rows|
    decreases |es|
  {
    if es != [] {
      NoLoss.StepGrows(cfg, s, es[0]);
      RunsGrow(cfg, Next(cfg, s, es[0]), es[1..]);
    }
  }

  /** The reaper itself touches no settled row: what undoes one is the slow replica that it
      takes a row from. */
  lemma ReapLeavesSettled(rows: Rows, id: nat)
    ensures SettledStay(rows, Reap(rows, id))
    ensures forall k: nat :: k < |rows| && rows[k] != Reap(rows, id)[k] ==>
              k == id && rows[k].status == Inflight && Reap(rows, id)[k] == rows[k].(status := Pending)
  {
  }

  /** Settled rows are settled for good if and only if nobody reaps and no mark that works is
      reported as failed, or nothing is ever claimed; each of the two alone is enough to undo
      one. */
  lemma SettledForGoodIff(cfg: Config, p: Policy)
    ensures SettledForGood(cfg, p) <==> cfg.batchSize == 0 || (!p.reaping && !p.lateMarks)
  {
    if cfg.batchSize == 0 { NothingToUnsettle(cfg, p); } else { SettledForGoodWhen(cfg, p); }
  }

  lemma SettledForGoodWhen(cfg: Config, p: Policy)
    requires cfg.batchSize >= 1
    ensures SettledForGood(cfg, p) <==> !p.reaping && !p.lateMarks
  {
    var part := Part(cfg.topicOf(ANY_ROW.eventType), 0);
    if p.reaping {
      var es, late := ProcessedIsNotTerminal(cfg, ANY_ROW, part);
      assert AllObey(p, es) && AllObey(p, late) by { ObeyByParts(p, es, late); }
      Refutes(cfg, p, ANY_ROW, es, late);
    } else if p.lateMarks {
      var es, late := UnsettledByItsOwnMark(cfg, ANY_ROW, part);
      assert AllObey(p, es) && AllObey(p, late) by { ObeyByParts(p, es, late); }
      Refutes(cfg, p, ANY_ROW, es, late);
    } else {
      forall es, late | IsRun(cfg, START, es) && IsRun(cfg, After(cfg, START, es), late) && AllObey(p, es) && AllObey(p, late)
        ensures SettledStay(After(cfg, START, es).rows, After(cfg, After(cfg, START, es), late).rows)
      {
        OneOwnerAndSettledForGood(cfg, es, late);
      }
    }
  }

  lemma ObeyByParts(p: Policy, es: seq<Step>, late: seq<Step>)
    requires forall e <- es + late :: Obeys(p, e)
    ensures AllObey(p, es) && AllObey(p, late)
  {
    forall e | e in es || e in late
      ensures Obeys(p, e)
    {
      assert e in es + late;
    }
  }
}
