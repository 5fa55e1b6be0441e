/** Publisher replicas at work together until the outbox is empty: however their polls
    interleave, every row is published or given up within the attempts it has. */
module Publishing {
  import opened Basics
  import opened Outbox
  import opened Pipeline
  import opened NoLoss
  import opened Replicas

  // ---------------------------------------------------------------- undisturbed work

  /** A step of some replica that has something to do, with marks that keep their word. Publishing
      may fail as it likes. */
  predicate Proceeds(cfg: Config, s: State, e: Step) {
    && e.Pub? && EnabledPub(cfg, s, e.pub)
    && match e.pub
       case ClaimBatch(_, ids, io) => ids != [] && io == Done
       case Publish(_, _, _) => true
       case MarkDone(_, io) => io != FailedAfter
       case MarkFail(_, io) => io == Done
       case CrashPublisher(_) => false
  }

  predicate IsWork(cfg: Config, s: State, es: seq<Step>)
    decreases |es|
  {
    es == [] || (Proceeds(cfg, s, es[0]) && IsWork(cfg, Next(cfg, s, es[0]), es[1..]))
  }

  /** The copy of a row that its owner works from has the row's attempts. */
  ghost predicate UpToDate(s: State) {
    forall p: nat, i: nat, id: nat :: Holds(s, p, i, id) ==> id < |s.rows| && s.rows[id].attempts == Batch(s.publishers[p])[i].row.attempts
  }

  ghost predicate Held(s: State, id: nat) {
    exists p: nat, i: nat :: Holds(s, p, i, id)
  }

  /** No row was left INFLIGHT by a replica that is gone. */
  ghost predicate NoneStuck(s: State) {
    forall id: nat :: id < |s.rows| && s.rows[id].status == Inflight ==> Held(s, id)
  }

  /** A replica with a job has a row to work on. */
  ghost predicate JobsHaveRows(s: State) {
    forall p :: p in s.publishers && !s.publishers[p].Idle? ==> s.publishers[p].batch != []
  }

  ghost predicate Orderly(s: State) {
    Owned(s) && UpToDate(s) && JobsHaveRows(s)
  }

  // ---------------------------------------------------------------- what is left to do

  /** The attempts a row still has; the last one is always made. */
  function Tries(r: Row, maxAttempts: int): nat {
    if maxAttempts - r.attempts >= 1 then maxAttempts - r.attempts else 1
  }

  ghost predicate HeadIs(s: State, p: nat, id: nat) {
    Holds(s, p, 0, id)
  }

  /** How far the row's owner is with it: claimed, published, or failed. */
  ghost function Stage(s: State, id: nat): nat {
    if exists p: nat :: HeadIs(s, p, id) && s.publishers[p].Failing? then 3
    else if exists p: nat :: HeadIs(s, p, id) && s.publishers[p].Marking? then 2
    else 1
  }

  /** Four steps for each attempt: claim, publish and one or two marks. */
  ghost function RowLeft(cfg: Config, s: State, id: nat): nat {
    if id >= |s.rows| then 0
    else if s.rows[id].status == Pending then 4 * Tries(s.rows[id], cfg.maxAttempts)
    else if s.rows[id].status == Inflight && Held(s, id) then 4 * Tries(s.rows[id], cfg.maxAttempts) - Stage(s, id)
    else 0
  }

  ghost function RowLeftAt(cfg: Config, s: State): nat -> nat {
    id => RowLeft(cfg, s, id)
  }

  ghost function WorkLeft(cfg: Config, s: State): nat {
    Sum(RowLeftAt(cfg, s), |s.rows|)
  }

  // ---------------------------------------------------------------- where a row is

  /** With one owner per row, its owner says it all. */
  lemma HeadStage(s: State, p: nat, id: nat)
    requires Owned(s) && HeadIs(s, p, id)
    ensures Held(s, id)
    ensures Stage(s, id) == if s.publishers[p].Failing? then 3 else if s.publishers[p].Marking? then 2 else 1
  {
    assert forall q: nat :: HeadIs(s, q, id) ==> q == p;
  }

  /** Nothing has changed for the row: whether it is held, and how far its owner is. */
  ghost predicate Alike(s: State, t: State, id: nat) {
    && (Held(s, id) <==> Held(t, id))
    && (forall p: nat :: HeadIs(s, p, id) && (s.publishers[p].Failing? || s.publishers[p].Marking?) ==>
          HeadIs(t, p, id) && t.publishers[p] == s.publishers[p])
    && (forall p: nat :: HeadIs(t, p, id) && (t.publishers[p].Failing? || t.publishers[p].Marking?) ==>
          HeadIs(s, p, id) && t.publishers[p] == s.publishers[p])
  }

  lemma AlikeCostsTheSame(cfg: Config, s: State, t: State, id: nat)
    requires id < |s.rows| && id < |t.rows| && t.rows[id] == s.rows[id] && Alike(s, t, id)
    ensures RowLeft(cfg, t, id) == RowLeft(cfg, s, id)
  {
    assert Stage(s, id) == Stage(t, id);
  }

  /** The row that a replica's step is about. */
  function Head(s: State, x: PubStep): nat
    requires JobOf(s, x.p) != Idle && Batch(JobOf(s, x.p)) != []
  {
    Batch(JobOf(s, x.p))[0].id
  }

  predicate OnHead(x: PubStep) {
    x.Publish? || x.MarkDone? || x.MarkFail?
  }

  /** A step on its first row leaves a replica with the same batch, or with the rest of it to
      be published. */
  lemma BatchAfter(cfg: Config, s: State, x: PubStep)
    requires Proceeds(cfg, s, Pub(x)) && OnHead(x)
    ensures JobOf(s, x.p) != Idle && Batch(JobOf(s, x.p)) != []
    ensures var b, t := Batch(JobOf(s, x.p)), NextPub(cfg, s, x);
            && t.publishers == s.publishers[x.p := JobAfter(cfg, s, x)]
            && (Batch(JobAfter(cfg, s, x)) == b || JobAfter(cfg, s, x) == Resume(b[1..]))
  {
  }

  lemma OthersHeld(s: State, t: State, p: nat, id: nat)
    requires p in s.publishers && !s.publishers[p].Idle? && s.publishers[p].batch != [] && id != s.publishers[p].batch[0].id
    requires p in t.publishers && t.publishers == s.publishers[p := t.publishers[p]]
    requires Batch(t.publishers[p]) == Batch(s.publishers[p]) || t.publishers[p] == Resume(Batch(s.publishers[p])[1..])
    ensures Held(s, id) <==> Held(t, id)
  {
    var b, b' := Batch(s.publishers[p]), Batch(t.publishers[p]);
    if q: nat, i: nat :| Holds(s, q, i, id) {
      if q == p && b' != b { assert b'[i - 1] == b[i] && Holds(t, q, i - 1, id); } else { assert Holds(t, q, i, id); }
    }
    if q: nat, i: nat :| Holds(t, q, i, id) {
      if q == p && b' != b { assert b'[i] == b[i + 1] && Holds(s, q, i + 1, id); } else { assert Holds(s, q, i, id); }
    }
  }

  lemma OthersAlike(s: State, t: State, p: nat, id: nat)
    requires p in s.publishers && !s.publishers[p].Idle? && s.publishers[p].batch != [] && id != s.publishers[p].batch[0].id
    requires p in t.publishers && t.publishers == s.publishers[p := t.publishers[p]]
    requires Batch(t.publishers[p]) == Batch(s.publishers[p]) || t.publishers[p] == Resume(Batch(s.publishers[p])[1..])
    ensures Alike(s, t, id)
  {
    OthersHeld(s, t, p, id);
  }

  lemma OtherRowsSame(cfg: Config, s: State, x: PubStep, id: nat)
    requires Proceeds(cfg, s, Pub(x)) && OnHead(x)
    requires JobOf(s, x.p) != Idle && Batch(JobOf(s, x.p)) != [] && id != Head(s, x) && id < |s.rows|
    ensures |NextPub(cfg, s, x).rows| == |s.rows| && NextPub(cfg, s, x).rows[id] == s.rows[id]
  {
  }

  /** The row itself is a step further, done with, or back with one attempt fewer. */
  lemma HeadPays(cfg: Config, s: State, x: PubStep)
    requires Orderly(s) && Proceeds(cfg, s, Pub(x)) && OnHead(x)
    requires Owned(NextPub(cfg, s, x))
    requires JobOf(s, x.p) != Idle && Batch(JobOf(s, x.p)) != []
    ensures Head(s, x) < |s.rows| && RowLeft(cfg, NextPub(cfg, s, x), Head(s, x)) < RowLeft(cfg, s, Head(s, x))
  {
    var t := NextPub(cfg, s, x);
    var h := Head(s, x);
    assert HeadIs(s, x.p, h);
    HeadStage(s, x.p, h);
    assert s.rows[h].status == Inflight && s.rows[h].attempts == Batch(s.publishers[x.p])[0].row.attempts;
    if x.Publish? || (x.MarkDone? && x.io == FailedClean) {
      assert HeadIs(t, x.p, h);
      HeadStage(t, x.p, h);
    }
  }

  lemma HeadShrinks(cfg: Config, s: State, x: PubStep)
    requires Orderly(s) && Proceeds(cfg, s, Pub(x)) && OnHead(x) && Owned(NextPub(cfg, s, x))
    ensures WorkLeft(cfg, NextPub(cfg, s, x)) < WorkLeft(cfg, s)
  {
    var t := NextPub(cfg, s, x);
    BatchAfter(cfg, s, x);
    var h := Head(s, x);
    var f, g := RowLeftAt(cfg, s), RowLeftAt(cfg, t);
    HeadPays(cfg, s, x);
    forall id: nat | id < |s.rows|
      ensures g(id) <= f(id)
    {
      if id != h {
        OtherRowsSame(cfg, s, x, id);
        OthersAlike(s, t, x.p, id);
        AlikeCostsTheSame(cfg, s, t, id);
      }
    }
    SumDrops(f, g, |s.rows|, h, 1);
    assert |t.rows| == |s.rows|;
  }

  // ---------------------------------------------------------------- a claim

  lemma ClaimedHeld(cfg: Config, s: State, x: PubStep, i: nat)
    requires Proceeds(cfg, s, Pub(x)) && x.ClaimBatch? && i < |x.ids|
    ensures Holds(NextPub(cfg, s, x), x.p, i, x.ids[i])
  {
  }

  lemma ClaimedPays(cfg: Config, s: State, x: PubStep, i: nat)
    requires Proceeds(cfg, s, Pub(x)) && x.ClaimBatch? && i < |x.ids|
    ensures x.ids[i] < |s.rows| && RowLeft(cfg, NextPub(cfg, s, x), x.ids[i]) < RowLeft(cfg, s, x.ids[i])
  {
    var t, id := NextPub(cfg, s, x), x.ids[i];
    ClaimedHeld(cfg, s, x, i);
    assert id in x.ids && t.rows[id] == s.rows[id].(status := Inflight);
    HeldPays(cfg, s, t, id);
  }

  lemma HeldPays(cfg: Config, s: State, t: State, id: nat)
    requires id < |s.rows| && id < |t.rows| && s.rows[id].status == Pending && t.rows[id] == s.rows[id].(status := Inflight) && Held(t, id)
    ensures RowLeft(cfg, t, id) < RowLeft(cfg, s, id)
  {
    assert 1 <= Stage(t, id) <= 3 && Tries(s.rows[id], cfg.maxAttempts) == Tries(t.rows[id], cfg.maxAttempts);
  }

  lemma UnclaimedHeld(cfg: Config, s: State, x: PubStep, id: nat, q: nat, i: nat)
    requires Proceeds(cfg, s, Pub(x)) && x.ClaimBatch? && id !in x.ids
    ensures Holds(NextPub(cfg, s, x), q, i, id) <==> Holds(s, q, i, id)
  {
    assert q == x.p && i < |x.ids| ==> x.ids[i] in x.ids;
  }

  lemma UnclaimedAlike(cfg: Config, s: State, x: PubStep, id: nat)
    requires Proceeds(cfg, s, Pub(x)) && x.ClaimBatch? && id !in x.ids
    ensures Alike(s, NextPub(cfg, s, x), id)
  {
    var t := NextPub(cfg, s, x);
    assert t.publishers == s.publishers[x.p := Resume(Snapshot(s.rows, x.ids))] && JobOf(s, x.p).Idle?;
    forall q: nat, i: nat
      ensures Holds(t, q, i, id) <==> Holds(s, q, i, id)
    {
      UnclaimedHeld(cfg, s, x, id, q, i);
    }
    SameHoldsAlike(s, t, x.p, id);
  }

  lemma SameHoldsAlike(s: State, t: State, p: nat, id: nat)
    requires forall q: nat, i: nat :: Holds(t, q, i, id) <==> Holds(s, q, i, id)
    requires JobOf(s, p).Idle? && p in t.publishers && !t.publishers[p].Failing? && !t.publishers[p].Marking?
    requires t.publishers == s.publishers[p := t.publishers[p]]
    ensures Alike(s, t, id)
  {
  }

  lemma ClaimShrinks(cfg: Config, s: State, x: PubStep)
    requires Proceeds(cfg, s, Pub(x)) && x.ClaimBatch?
    ensures WorkLeft(cfg, NextPub(cfg, s, x)) < WorkLeft(cfg, s)
  {
    var t := NextPub(cfg, s, x);
    var f, g := RowLeftAt(cfg, s), RowLeftAt(cfg, t);
    forall id: nat | id < |s.rows|
      ensures g(id) <= f(id)
    {
      if id in x.ids {
        var i :| 0 <= i < |x.ids| && x.ids[i] == id;
        ClaimedPays(cfg, s, x, i);
      } else {
        UnclaimedAlike(cfg, s, x, id);
        AlikeCostsTheSame(cfg, s, t, id);
      }
    }
    ClaimedPays(cfg, s, x, 0);
    SumDrops(f, g, |s.rows|, x.ids[0], 1);
  }

  // ---------------------------------------------------------------- what work keeps

  lemma KeepsUpToDate(cfg: Config, s: State, x: PubStep)
    requires Orderly(s) && Proceeds(cfg, s, Pub(x)) && Owned(NextPub(cfg, s, x))
    ensures UpToDate(NextPub(cfg, s, x))
  {
    var t := NextPub(cfg, s, x);
    forall p: nat, i: nat, id: nat | Holds(t, p, i, id)
      ensures id < |t.rows| && t.rows[id].attempts == Batch(t.publishers[p])[i].row.attempts
    {
      if p != x.p {
        assert Holds(s, p, i, id);
        if OnHead(x) {
          BatchAfter(cfg, s, x);
          assert HeadIs(s, x.p, Head(s, x)) && id != Head(s, x);
          OtherRowsSame(cfg, s, x, id);
        }
      } else if OnHead(x) {
        OwnUpToDate(cfg, s, x, i, id);
      }
    }
  }

  lemma OwnUpToDate(cfg: Config, s: State, x: PubStep, i: nat, id: nat)
    requires Orderly(s) && Proceeds(cfg, s, Pub(x)) && OnHead(x) && Owned(NextPub(cfg, s, x)) && Holds(NextPub(cfg, s, x), x.p, i, id)
    ensures var t := NextPub(cfg, s, x); id < |t.rows| && t.rows[id].attempts == Batch(t.publishers[x.p])[i].row.attempts
  {
    BatchAfter(cfg, s, x);
    var b, b' := Batch(JobOf(s, x.p)), Batch(JobAfter(cfg, s, x));
    assert HeadIs(s, x.p, Head(s, x));
    var k := if b' == b then i else i + 1;
    assert b'[i] == b[k] && Holds(s, x.p, k, id);
    if k > 0 { OtherRowsSame(cfg, s, x, id); }
  }

  lemma KeepsJobs(cfg: Config, s: State, x: PubStep)
    requires JobsHaveRows(s) && Proceeds(cfg, s, Pub(x))
    ensures JobsHaveRows(NextPub(cfg, s, x))
  {
  }

  lemma KeepsOrderly(cfg: Config, s: State, x: PubStep)
    requires Orderly(s) && Proceeds(cfg, s, Pub(x))
    ensures Orderly(NextPub(cfg, s, x))
  {
    PubKeepsOwned(cfg, s, x);
    KeepsUpToDate(cfg, s, x);
    KeepsJobs(cfg, s, x);
  }

  /** A row that becomes INFLIGHT gets an owner, and one that loses its owner is not. */
  lemma KeepsNoneStuck(cfg: Config, s: State, x: PubStep)
    requires Orderly(s) && NoneStuck(s) && Proceeds(cfg, s, Pub(x))
    ensures NoneStuck(NextPub(cfg, s, x))
  {
    var t := NextPub(cfg, s, x);
    forall id: nat | id < |t.rows| && t.rows[id].status == Inflight
      ensures Held(t, id)
    {
      if x.ClaimBatch? {
        if id in x.ids {
          var i :| 0 <= i < |x.ids| && x.ids[i] == id;
          ClaimedHeld(cfg, s, x, i);
        } else {
          UnclaimedAlike(cfg, s, x, id);
        }
      } else {
        BatchAfter(cfg, s, x);
        if id == Head(s, x) {
          assert HeadIs(s, x.p, id);
          HeadStays(cfg, s, x);
        } else {
          OtherRowsSame(cfg, s, x, id);
          OthersAlike(s, t, x.p, id);
        }
      }
    }
  }

  lemma HeadStays(cfg: Config, s: State, x: PubStep)
    requires Orderly(s) && Proceeds(cfg, s, Pub(x)) && OnHead(x)
    requires JobOf(s, x.p) != Idle && Batch(JobOf(s, x.p)) != [] && Head(s, x) < |NextPub(cfg, s, x).rows|
    ensures NextPub(cfg, s, x).rows[Head(s, x)].status == Inflight ==> Held(NextPub(cfg, s, x), Head(s, x))
  {
    var t := NextPub(cfg, s, x);
    if Batch(JobAfter(cfg, s, x)) == Batch(JobOf(s, x.p)) {
      assert Holds(t, x.p, 0, Head(s, x));
    }
  }

  // ---------------------------------------------------------------- the theorem

  /** Replicas at work together take no more steps than the rows have attempts for. */
  lemma {:induction false} WorkIsBounded(cfg: Config, s: State, es: seq<Step>)
    requires Orderly(s) && IsWork(cfg, s, es)
    ensures |es| + WorkLeft(cfg, AfterWork(cfg, s, es)) <= WorkLeft(cfg, s)
    ensures Orderly(AfterWork(cfg, s, es)) && (NoneStuck(s) ==> NoneStuck(AfterWork(cfg, s, es)))
    decreases |es|
  {
    if es != [] {
      var x := es[0].pub;
      KeepsOrderly(cfg, s, x);
      if x.ClaimBatch? { ClaimShrinks(cfg, s, x); } else { HeadShrinks(cfg, s, x); }
      if NoneStuck(s) { KeepsNoneStuck(cfg, s, x); }
      WorkIsBounded(cfg, NextPub(cfg, s, x), es[1..]);
    }
  }

  function AfterWork(cfg: Config, s: State, es: seq<Step>): State
    requires IsWork(cfg, s, es)
    decreases |es|
  {
    if es == [] then s else AfterWork(cfg, Next(cfg, s, es[0]), es[1..])
  }

  ghost predicate CanProceed(cfg: Config, s: State) {
    exists e :: Proceeds(cfg, s, e)
  }

  /** A replica with a job can go on with it. */
  lemma BusyMeansWork(cfg: Config, s: State, p: nat)
    requires JobsHaveRows(s) && !JobOf(s, p).Idle?
    ensures CanProceed(cfg, s)
  {
    var x := match JobOf(s, p)
             case Marking(_) => MarkDone(p, Done)
             case Failing(_) => MarkFail(p, Done)
             case Publishing(b) => Publish(p, Part(cfg.topicOf(b[0].row.eventType), 0), Done)
             case Idle => CrashPublisher(p);
    assert Proceeds(cfg, s, Pub(x));
  }

  lemma PendingMeansWork(cfg: Config, s: State, id: nat)
    requires JobsHaveRows(s) && cfg.batchSize >= 1 && id < |s.rows| && s.rows[id].status == Pending
    ensures CanProceed(cfg, s)
  {
    if JobOf(s, 0).Idle? {
      assert Proceeds(cfg, s, Pub(ClaimBatch(0, [id], Done)));
    } else {
      BusyMeansWork(cfg, s, 0);
    }
  }

  lemma HeldMeansWork(cfg: Config, s: State, id: nat)
    requires JobsHaveRows(s) && Held(s, id)
    ensures CanProceed(cfg, s)
  {
    var p: nat, i: nat :| Holds(s, p, i, id);
    BusyMeansWork(cfg, s, p);
  }

  // ---------------------------------------------------------------- how the outbox gets there

  /** What may leave claimed rows without an owner: a crash of a replica, a claim that works but
      is reported as failed, and a `markFailed` that throws and so ends the poll. */
  predicate Strands(e: Step) {
    e.Pub? && match e.pub
              case ClaimBatch(_, _, io) => io == FailedAfter
              case MarkFail(_, io) => io != Done
              case CrashPublisher(_) => true
              case _ => false
  }

  /** A replica that drops what it has. */
  lemma DropKeepsUpToDate(s: State, t: State, p: nat)
    requires UpToDate(s) && t.publishers == s.publishers[p := Idle] && |t.rows| == |s.rows|
    requires forall q: nat, i: nat, id: nat :: Holds(s, q, i, id) && q != p && id < |s.rows| ==> t.rows[id].attempts == s.rows[id].attempts
    ensures UpToDate(t)
  {
    forall q: nat, i: nat, id: nat | Holds(t, q, i, id)
      ensures id < |t.rows| && t.rows[id].attempts == Batch(t.publishers[q])[i].row.attempts
    {
      assert Holds(s, q, i, id);
    }
  }

  lemma DroppingKeepsOrderly(cfg: Config, s: State, x: PubStep)
    requires Orderly(s) && EnabledPub(cfg, s, x) && JobAfter(cfg, s, x) == Idle && (x.ClaimBatch? || x.MarkFail? || x.CrashPublisher?)
    ensures Orderly(NextPub(cfg, s, x))
  {
    var t := NextPub(cfg, s, x);
    PubKeepsOwned(cfg, s, x);
    if x.MarkFail? { assert HeadIs(s, x.p, JobOf(s, x.p).batch[0].id); }
    DropKeepsUpToDate(s, t, x.p);
  }

  lemma PubStaysOrderly(cfg: Config, s: State, x: PubStep)
    requires Orderly(s) && EnabledPub(cfg, s, x) && Calm(Pub(x))
    ensures Orderly(NextPub(cfg, s, x))
  {
    if Proceeds(cfg, s, Pub(x)) { KeepsOrderly(cfg, s, x); } else { DroppingKeepsOrderly(cfg, s, x); }
  }

  lemma PubStrandsNone(cfg: Config, s: State, x: PubStep)
    requires Orderly(s) && NoneStuck(s) && EnabledPub(cfg, s, x) && Calm(Pub(x)) && !Strands(Pub(x))
    ensures NoneStuck(NextPub(cfg, s, x))
  {
    if Proceeds(cfg, s, Pub(x)) {
      KeepsNoneStuck(cfg, s, x);
    } else {
      var t := NextPub(cfg, s, x);
      assert t.rows == s.rows by { EmptyClaim(cfg, s, x); }
      forall id: nat | id < |t.rows| && t.rows[id].status == Inflight
        ensures Held(t, id)
      {
        var p: nat, i: nat :| Holds(s, p, i, id);
        assert Holds(t, p, i, id);
      }
    }
  }

  lemma EmptyClaim(cfg: Config, s: State, x: PubStep)
    requires EnabledPub(cfg, s, x) && Calm(Pub(x)) && !Strands(Pub(x)) && !Proceeds(cfg, s, Pub(x))
    ensures x.ClaimBatch? && NextPub(cfg, s, x).rows == s.rows && JobOf(s, x.p).Idle?
  {
  }

  /** The others only append. */
  lemma OthersKeepOrder(s: State, t: State)
    requires Orderly(s) && LeavesRows(s, t)
    ensures Orderly(t) && (NoneStuck(s) ==> NoneStuck(t))
  {
    SameHands(s, t);
    forall p: nat, i: nat, id: nat
      ensures Holds(t, p, i, id) <==> Holds(s, p, i, id)
    {
    }
    assert forall id: nat :: Held(s, id) ==> Held(t, id);
  }

  lemma StepStaysOrderly(cfg: Config, s: State, e: Step)
    requires Orderly(s) && Enabled(cfg, s, e) && Calm(e)
    ensures Orderly(Next(cfg, s, e)) && (NoneStuck(s) && !Strands(e) ==> NoneStuck(Next(cfg, s, e)))
  {
    if e.Pub? {
      PubStaysOrderly(cfg, s, e.pub);
      if NoneStuck(s) && !Strands(e) { PubStrandsNone(cfg, s, e.pub); }
    } else {
      OthersLeaveRows(cfg, s, e);
      OthersKeepOrder(s, Next(cfg, s, e));
    }
  }

  /** Every run on which nobody reaps and marks keep their word is orderly, crashes included; and
      none of its rows is stuck if nothing strands one. */
  lemma {:induction false} RunStaysOrderly(cfg: Config, s: State, es: seq<Step>)
    requires Orderly(s) && IsRun(cfg, s, es) && forall e <- es :: Calm(e)
    ensures Orderly(After(cfg, s, es))
    ensures NoneStuck(s) && (forall e <- es :: !Strands(e)) ==> NoneStuck(After(cfg, s, es))
    decreases |es|
  {
    if es != [] {
      StepStaysOrderly(cfg, s, es[0]);
      RunStaysOrderly(cfg, Next(cfg, s, es[0]), es[1..]);
    }
  }

  /** However the polls of any number of replicas interleave and however often publishing fails,
      with marks that keep their word they come to an end within four steps for each attempt
      that is left, and when they cannot go on every row is terminal. */
  lemma ReplicasDrainTheOutbox(cfg: Config, s: State, es: seq<Step>)
    requires cfg.batchSize >= 1 && Orderly(s) && NoneStuck(s) && IsWork(cfg, s, es)
    ensures |es| <= WorkLeft(cfg, s)
    ensures !CanProceed(cfg, AfterWork(cfg, s, es)) ==> AllTerminal(AfterWork(cfg, s, es).rows)
  {
    var t := AfterWork(cfg, s, es);
    WorkIsBounded(cfg, s, es);
    forall id: nat | id < |t.rows| && !CanProceed(cfg, t)
      ensures t.rows[id].status == Processed || t.rows[id].status == FailedDlq
    {
      if t.rows[id].status == Pending { PendingMeansWork(cfg, t, id); }
      if t.rows[id].status == Inflight { HeldMeansWork(cfg, t, id); }
    }
  }

  /** So it is from every state that such a run leads to: whatever was appended, published,
      consumed and replayed on the way. */
  lemma ReachedOutboxDrains(cfg: Config, es: seq<Step>, work: seq<Step>)
    requires cfg.batchSize >= 1 && IsRun(cfg, START, es) && forall e <- es :: Calm(e) && !Strands(e)
    requires IsWork(cfg, After(cfg, START, es), work)
    ensures |work| <= WorkLeft(cfg, After(cfg, START, es))
    ensures var t := AfterWork(cfg, After(cfg, START, es), work); !CanProceed(cfg, t) ==> AllTerminal(t.rows)
  {
    RunStaysOrderly(cfg, START, es);
    ReplicasDrainTheOutbox(cfg, After(cfg, START, es), work);
  }
}
