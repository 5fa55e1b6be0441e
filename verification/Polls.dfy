/** A whole `pollOnce` as a run of the pipeline: the tick that one replica makes undisturbed is
    one of the interleavings that the step system allows, and comes to what it should. */
module Polls {
  import opened Basics
  import opened Outbox
  import opened Pipeline

  function PublishIo(fate: Fate): Io {
    match fate
    case PublishThrows(delivered) => if delivered then FailedAfter else FailedClean
    case _ => Done
  }

  function MarkIo(fate: Fate): Io {
    match fate
    case ProcessedThrows(marked) => if marked then FailedAfter else FailedClean
    case _ => Done
  }

  /** A hook that throws comes after a mark that has worked. */
  function FailIo(c: Claimed, fate: Fate, h: Handling, maxAttempts: int): Io {
    if h.mark == Done && h.hookThrows && Dies(c, fate, maxAttempts) then FailedAfter else h.mark
  }

  /** What the replica does with one claimed row. */
  function RowSteps(p: nat, part: Part, c: Claimed, fate: Fate, h: Handling, maxAttempts: int): seq<Step> {
    [Pub(Publish(p, part, PublishIo(fate)))] + MarkSteps(p, c, fate, h, maxAttempts)
  }

  function MarkSteps(p: nat, c: Claimed, fate: Fate, h: Handling, maxAttempts: int): seq<Step> {
    (if fate.PublishThrows? then [] else [Pub(MarkDone(p, MarkIo(fate)))])
    + (if fate == Works then [] else [Pub(MarkFail(p, FailIo(c, fate, h, maxAttempts)))])
  }

  /** The loop, up to an exception that escapes it. */
  function LoopSteps(p: nat, parts: nat -> Part, batch: seq<Claimed>, fates: nat -> Fate, hs: nat -> Handling, maxAttempts: int, k: nat): seq<Step>
    requires k <= |batch|
    decreases |batch| - k
  {
    if k == |batch| then []
    else
      RowSteps(p, parts(k), batch[k], fates(k), hs(k), maxAttempts)
      + if Escapes(batch[k], fates(k), hs(k), maxAttempts) then [] else LoopSteps(p, parts, batch, fates, hs, maxAttempts, k + 1)
  }

  /** The replica has `batch` still to do and the rows are as the loop has them. */
  ghost predicate Stands(s: State, p: nat, batch: seq<Claimed>, rows: Rows) {
    s.rows == rows && p in s.publishers && s.publishers[p] == Resume(batch)
  }

  lemma PublishGoesOn(cfg: Config, s: State, p: nat, batch: seq<Claimed>, part: Part, io: Io)
    requires batch != [] && Stands(s, p, batch, s.rows) && part.topic == cfg.topicOf(batch[0].row.eventType)
    ensures EnabledPub(cfg, s, Publish(p, part, io))
    ensures var t := NextPub(cfg, s, Publish(p, part, io));
            t.rows == s.rows && p in t.publishers && t.publishers[p] == if io == Done then Marking(batch) else Failing(batch)
  {
  }

  lemma MarkGoesOn(cfg: Config, s: State, p: nat, batch: seq<Claimed>, io: Io)
    requires batch != [] && p in s.publishers && s.publishers[p] == Marking(batch)
    ensures EnabledPub(cfg, s, MarkDone(p, io))
    ensures var t := NextPub(cfg, s, MarkDone(p, io));
            && t.rows == (if io == FailedClean then s.rows else MarkProcessed(s.rows, batch[0].id))
            && p in t.publishers && t.publishers[p] == if io == Done then Resume(batch[1..]) else Failing(batch)
  {
  }

  lemma FailGoesOn(cfg: Config, s: State, p: nat, batch: seq<Claimed>, io: Io)
    requires batch != [] && p in s.publishers && s.publishers[p] == Failing(batch)
    ensures EnabledPub(cfg, s, MarkFail(p, io))
    ensures Stands(NextPub(cfg, s, MarkFail(p, io)), p, if io == Done then batch[1..] else [],
                   if io == FailedClean then s.rows else MarkFailed(s.rows, batch[0].id, batch[0].row.attempts, cfg.maxAttempts))
  {
  }

  ghost predicate RunsTo(cfg: Config, s: State, es: seq<Step>, p: nat, batch: seq<Claimed>, rows: Rows) {
    IsRun(cfg, s, es) && Stands(After(cfg, s, es), p, batch, rows)
  }

  lemma FirstStep(cfg: Config, s: State, x: PubStep, es: seq<Step>, p: nat, batch: seq<Claimed>, rows: Rows)
    requires EnabledPub(cfg, s, x) && RunsTo(cfg, NextPub(cfg, s, x), es, p, batch, rows)
    ensures RunsTo(cfg, s, [Pub(x)] + es, p, batch, rows)
  {
    StepThen(cfg, s, Pub(x), es);
  }

  /** What is left of a batch, and the rows, when the turn of its first row is over. */
  function RestOf(batch: seq<Claimed>, fate: Fate, h: Handling, maxAttempts: int): seq<Claimed>
    requires batch != []
  {
    if Escapes(batch[0], fate, h, maxAttempts) then [] else batch[1..]
  }

  function RowsOf(rows: Rows, c: Claimed, fate: Fate, h: Handling, maxAttempts: int): Rows {
    if Escapes(c, fate, h, maxAttempts) then LeftBehind(rows, c, fate, h, maxAttempts) else Settle(rows, c, fate, maxAttempts)
  }

  /** `markFailed` ends the row's turn. `rows` are those before the turn. */
  lemma FailRuns(cfg: Config, s: State, p: nat, batch: seq<Claimed>, fate: Fate, h: Handling, rows: Rows)
    requires batch != [] && p in s.publishers && s.publishers[p] == Failing(batch) && fate != Works
    requires s.rows == if fate == ProcessedThrows(true) then MarkProcessed(rows, batch[0].id) else rows
    ensures RunsTo(cfg, s, [Pub(MarkFail(p, FailIo(batch[0], fate, h, cfg.maxAttempts)))], p, RestOf(batch, fate, h, cfg.maxAttempts),
                   RowsOf(rows, batch[0], fate, h, cfg.maxAttempts))
  {
    var x := MarkFail(p, FailIo(batch[0], fate, h, cfg.maxAttempts));
    MarkTwice(rows, batch[0], cfg.maxAttempts);
    FailGoesOn(cfg, s, p, batch, x.io);
    OneStep(cfg, s, Pub(x));
  }

  lemma MarkRuns(cfg: Config, s: State, p: nat, batch: seq<Claimed>, fate: Fate, h: Handling)
    requires batch != [] && p in s.publishers && s.publishers[p] == Marking(batch) && !fate.PublishThrows?
    ensures RunsTo(cfg, s, MarkSteps(p, batch[0], fate, h, cfg.maxAttempts), p, RestOf(batch, fate, h, cfg.maxAttempts),
                   RowsOf(s.rows, batch[0], fate, h, cfg.maxAttempts))
  {
    var x := MarkDone(p, MarkIo(fate));
    MarkGoesOn(cfg, s, p, batch, MarkIo(fate));
    var t := NextPub(cfg, s, x);
    if fate == Works {
      FirstStep(cfg, s, x, [], p, batch[1..], t.rows);
    } else {
      FailRuns(cfg, t, p, batch, fate, h, s.rows);
      FirstStep(cfg, s, x, [Pub(MarkFail(p, FailIo(batch[0], fate, h, cfg.maxAttempts)))], p, RestOf(batch, fate, h, cfg.maxAttempts),
                RowsOf(s.rows, batch[0], fate, h, cfg.maxAttempts));
    }
  }

  lemma RowRuns(cfg: Config, s: State, p: nat, batch: seq<Claimed>, part: Part, fate: Fate, h: Handling)
    requires batch != [] && Stands(s, p, batch, s.rows) && part.topic == cfg.topicOf(batch[0].row.eventType)
    ensures RunsTo(cfg, s, RowSteps(p, part, batch[0], fate, h, cfg.maxAttempts), p, RestOf(batch, fate, h, cfg.maxAttempts),
                   RowsOf(s.rows, batch[0], fate, h, cfg.maxAttempts))
  {
    var x := Publish(p, part, PublishIo(fate));
    PublishGoesOn(cfg, s, p, batch, part, PublishIo(fate));
    var t := NextPub(cfg, s, x);
    var marks := MarkSteps(p, batch[0], fate, h, cfg.maxAttempts);
    if fate.PublishThrows? {
      FailRuns(cfg, t, p, batch, fate, h, s.rows);
      assert marks == [Pub(MarkFail(p, FailIo(batch[0], fate, h, cfg.maxAttempts)))];
    } else {
      MarkRuns(cfg, t, p, batch, fate, h);
    }
    FirstStep(cfg, s, x, marks, p, RestOf(batch, fate, h, cfg.maxAttempts), RowsOf(s.rows, batch[0], fate, h, cfg.maxAttempts));
  }

  /** The rows from the k-th turn on. */
  function RowsFrom(k: nat, rows: Rows, batch: seq<Claimed>, fates: nat -> Fate, hs: nat -> Handling, maxAttempts: int): Rows
    requires k <= |batch|
  {
    var n := FirstEscape(k, batch, fates, hs, maxAttempts);
    if n == |batch| then SettleFirst(n, rows, batch, fates, maxAttempts)
    else LeftBehind(SettleFirst(n, rows, batch, fates, maxAttempts), batch[n], fates(n), hs(n), maxAttempts)
  }

  lemma TurnThen(cfg: Config, s: State, steps: seq<Step>, rest: seq<Step>, p: nat, rows: Rows)
    requires IsRun(cfg, s, steps) && RunsTo(cfg, After(cfg, s, steps), rest, p, [], rows)
    ensures RunsTo(cfg, s, steps + rest, p, [], rows)
  {
    RunThen(cfg, s, steps, rest);
  }

  lemma TurnRuns(cfg: Config, s: State, p: nat, batch: seq<Claimed>, part: Part, fate: Fate, h: Handling, k: nat)
    requires k < |batch| && Stands(s, p, batch[k..], s.rows) && part.topic == cfg.topicOf(batch[k].row.eventType)
    ensures RunsTo(cfg, s, RowSteps(p, part, batch[k], fate, h, cfg.maxAttempts), p,
                   if Escapes(batch[k], fate, h, cfg.maxAttempts) then [] else batch[k + 1..], RowsOf(s.rows, batch[k], fate, h, cfg.maxAttempts))
  {
    assert batch[k..][0] == batch[k] && batch[k..][1..] == batch[k + 1..];
    RowRuns(cfg, s, p, batch[k..], part, fate, h);
  }

  lemma {:induction false} LoopRuns(cfg: Config, s: State, p: nat, batch: seq<Claimed>, parts: nat -> Part, fates: nat -> Fate, hs: nat -> Handling,
                                    k: nat, rows: Rows)
    requires k <= |batch| && Stands(s, p, batch[k..], SettleFirst(k, rows, batch, fates, cfg.maxAttempts))
    requires forall i: nat :: i < |batch| ==> parts(i).topic == cfg.topicOf(batch[i].row.eventType)
    ensures RunsTo(cfg, s, LoopSteps(p, parts, batch, fates, hs, cfg.maxAttempts, k), p, [], RowsFrom(k, rows, batch, fates, hs, cfg.maxAttempts))
    decreases |batch| - k
  {
    if k < |batch| {
      var steps := RowSteps(p, parts(k), batch[k], fates(k), hs(k), cfg.maxAttempts);
      TurnRuns(cfg, s, p, batch, parts(k), fates(k), hs(k), k);
      if Escapes(batch[k], fates(k), hs(k), cfg.maxAttempts) {
        assert steps + [] == steps;
      } else {
        LoopRuns(cfg, After(cfg, s, steps), p, batch, parts, fates, hs, k + 1, rows);
        TurnThen(cfg, s, steps, LoopSteps(p, parts, batch, fates, hs, cfg.maxAttempts, k + 1), p, RowsFrom(k + 1, rows, batch, fates, hs, cfg.maxAttempts));
      }
    }
  }

  /** All of one tick. */
  function PollSteps(p: nat, ids: seq<nat>, claim: Io, parts: nat -> Part, batch: seq<Claimed>, fates: nat -> Fate, hs: nat -> Handling, maxAttempts: int): seq<Step> {
    [Pub(ClaimBatch(p, ids, claim))] + if claim == Done then LoopSteps(p, parts, batch, fates, hs, maxAttempts, 0) else []
  }

  /** Any tick of one replica, exceptions of the claim and out of the loop included, is a run of
      the pipeline if nobody interferes, and what that run leaves is what the tick leaves:
      `OutboxPublisher.PollOnce` and the step system agree. */
  lemma PollIsARun(cfg: Config, s: State, p: nat, ids: seq<nat>, claim: Io, fates: nat -> Fate, hs: nat -> Handling, parts: nat -> Part)
    requires JobOf(s, p).Idle? && CanClaim(s.rows, ids, cfg.batchSize)
    requires forall i: nat :: i < |ids| ==> parts(i).topic == cfg.topicOf(s.rows[ids[i]].eventType)
    ensures RunsTo(cfg, s, PollSteps(p, ids, claim, parts, Snapshot(s.rows, ids), fates, hs, cfg.maxAttempts), p, [],
                   if claim == FailedClean then s.rows else if claim == FailedAfter then Claim(s.rows, ids)
                   else LoopRows(Claim(s.rows, ids), Snapshot(s.rows, ids), fates, hs, cfg.maxAttempts))
  {
    var x := ClaimBatch(p, ids, claim);
    var batch := Snapshot(s.rows, ids);
    if claim == Done {
      var t := NextPub(cfg, s, x);
      assert batch[0..] == batch;
      assert forall i: nat :: i < |batch| ==> batch[i].row == s.rows[ids[i]];
      LoopRuns(cfg, t, p, batch, parts, fates, hs, 0, Claim(s.rows, ids));
      FirstStep(cfg, s, x, LoopSteps(p, parts, batch, fates, hs, cfg.maxAttempts, 0), p, [], LoopRows(Claim(s.rows, ids), batch, fates, hs, cfg.maxAttempts));
    } else {
      OneStep(cfg, s, Pub(x));
      assert [Pub(x)] + [] == [Pub(x)];
    }
  }
}
