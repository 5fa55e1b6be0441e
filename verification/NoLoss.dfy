/** Nothing is lost: what holds in every state the pipeline can reach. */
module NoLoss {
  import opened Outbox
  import opened Pipeline

  // ---------------------------------------------------------------- what it is to be dealt with

  /** Row `id` is on its topic, as the CloudEvent made from it. */
  ghost predicate OnTopic(cfg: Config, s: State, id: nat) {
    exists i :: 0 <= i < |s.topic| && IsRowMessage(cfg, s, id, i)
  }

  predicate IsRowMessage(cfg: Config, s: State, id: nat, i: nat)
    requires i < |s.topic|
  {
    && id < |s.rows| && s.topic[i].origin == Published(id)
    && s.topic[i].part.topic == cfg.topicOf(s.rows[id].eventType)
    && s.topic[i].value == Event(ToCloudEvent(cfg.sourcePrefix, id, s.rows[id]))
  }

  ghost predicate InDlq(s: State, i: nat) {
    exists j :: 0 <= j < |s.dlq| && s.dlq[j].origin == Buried(i)
  }

  /** Handled, skipped because no handler is registered, a tombstone, or dead-lettered. */
  ghost predicate Dealt(cfg: Config, s: State, i: nat)
    requires i < |s.topic|
  {
    || i in s.handled
    || s.topic[i].value.Tombstone?
    || (s.topic[i].value.Event? && s.topic[i].value.event.eventType !in cfg.handles)
    || InDlq(s, i)
  }

  ghost predicate Resent(s: State, j: nat) {
    exists k :: 0 <= k < |s.topic| && s.topic[k].origin == Replayed(j)
  }

  /** Republished, given up, or dropped for want of the original-topic header. */
  ghost predicate DeadDealt(cfg: Config, s: State, j: nat)
    requires j < |s.dlq|
  {
    !Replays(cfg, s.dlq[j]) || Resent(s, j)
  }

  // ---------------------------------------------------------------- the invariant

  /** PROCESSED implies published; a replica about to mark has published. */
  ghost predicate RowsOk(cfg: Config, s: State) {
    && (forall id :: 0 <= id < |s.rows| && s.rows[id].status == Processed ==> OnTopic(cfg, s, id))
    && (forall p :: p in s.publishers ==> JobOk(cfg, s, s.publishers[p]))
  }

  ghost predicate JobOk(cfg: Config, s: State, j: Job) {
    j.Idle? || (j.batch != [] && HoldsRows(s, j.batch) && (j.Marking? ==> OnTopic(cfg, s, j.batch[0].id)))
  }

  ghost predicate HoldsRows(s: State, batch: seq<Claimed>) {
    forall c <- batch :: c.id < |s.rows| && SameContent(c.row, s.rows[c.id])
  }

  predicate SameContent(a: Row, b: Row) {
    a == b.(status := a.status, attempts := a.attempts)
  }

  /** Below a consumer's position, and below its partition's committed offset, every message
      of the partition is dealt with. */
  ghost predicate DealtBelow(cfg: Config, s: State, part: Part, pos: nat) {
    pos <= |s.topic| && forall i :: 0 <= i < pos && s.topic[i].part == part ==> Dealt(cfg, s, i)
  }

  ghost predicate ConsumersOk(cfg: Config, s: State) {
    && (forall p :: p in s.committed ==> DealtBelow(cfg, s, p, s.committed[p]))
    && (forall c :: c in s.consumers ==> ConsumerOk(cfg, s, c.part, s.consumers[c]))
  }

  ghost predicate ConsumerOk(cfg: Config, s: State, part: Part, c: Consumer) {
    && DealtBelow(cfg, s, part, c.pos)
    && (!c.work.Waiting? ==> NextFor(s.topic, part, c.pos, c.work.msg))
    && (c.work.Committing? ==> Dealt(cfg, s, c.work.msg))
    && (c.work.Routing? ==> s.topic[c.work.msg].value.Event? && c.work.attempt <= cfg.maxRetries)
  }

  ghost predicate DeadDealtBelow(cfg: Config, s: State, part: Part, pos: nat) {
    pos <= |s.dlq| && forall j :: 0 <= j < pos && s.dlq[j].part == part ==> DeadDealt(cfg, s, j)
  }

  ghost predicate ReplayersOk(cfg: Config, s: State) {
    && (forall p :: p in s.dlqCommitted ==> DeadDealtBelow(cfg, s, p, s.dlqCommitted[p]))
    && (forall c :: c in s.replayers ==> ReplayerOk(cfg, s, c.part, s.replayers[c]))
  }

  ghost predicate ReplayerOk(cfg: Config, s: State, part: Part, c: Replayer) {
    && DeadDealtBelow(cfg, s, part, c.pos)
    && (!c.work.Resting? ==> NextDeadFor(s.dlq, part, c.pos, c.work.dead))
    && (c.work.Finishing? ==> DeadDealt(cfg, s, c.work.dead))
    && (c.work.Resending? ==> Replays(cfg, s.dlq[c.work.dead]))
  }

  ghost predicate Inv(cfg: Config, s: State) {
    RowsOk(cfg, s) && ConsumersOk(cfg, s) && ReplayersOk(cfg, s)
  }

  // ---------------------------------------------------------------- growth

  predicate IsPrefix<T(==)>(a: seq<T>, b: seq<T>) {
    |a| <= |b| && forall k :: 0 <= k < |a| ==> b[k] == a[k]
  }

  ghost predicate RowsGrow(a: Rows, b: Rows) {
    |a| <= |b| && forall k :: 0 <= k < |a| ==> SameContent(a[k], b[k])
  }

  /** Logs are only appended to, rows keep their content, and what is handled stays handled. */
  ghost predicate Grows(s: State, t: State) {
    IsPrefix(s.topic, t.topic) && IsPrefix(s.dlq, t.dlq) && RowsGrow(s.rows, t.rows) && s.handled <= t.handled
  }

  lemma MarksKeepContent(rows: Rows, id: nat, status: Status, ids: seq<nat>, attempts: nat, maxAttempts: int)
    ensures RowsGrow(rows, SetStatus(rows, id, status)) && RowsGrow(rows, Claim(rows, ids))
    ensures RowsGrow(rows, MarkFailed(rows, id, attempts, maxAttempts)) && RowsGrow(rows, Reap(rows, id))
  {
  }

  lemma EnvGrows(cfg: Config, s: State, x: EnvStep)
    requires EnabledEnv(cfg, s, x)
    ensures Grows(s, NextEnv(s, x))
  {
    if x.ReapRow? { MarksKeepContent(s.rows, x.id, Pending, [], 0, 0); }
  }

  lemma PubRowsGrow(cfg: Config, s: State, x: PubStep)
    requires EnabledPub(cfg, s, x)
    ensures RowsGrow(s.rows, NextPub(cfg, s, x).rows)
  {
    match x
    case ClaimBatch(p, ids, _) => MarksKeepContent(s.rows, 0, Pending, ids, 0, 0);
    case Publish(p, _, _) =>
    case MarkDone(p, _) =>
      MarksKeepContent(s.rows, JobOf(s, p).batch[0].id, Processed, [], 0, 0);
    case MarkFail(p, _) =>
      var c := JobOf(s, p).batch[0];
      MarksKeepContent(s.rows, c.id, Pending, [], c.row.attempts, cfg.maxAttempts);
    case CrashPublisher(_) =>
  }

  lemma PubGrows(cfg: Config, s: State, x: PubStep)
    requires EnabledPub(cfg, s, x)
    ensures Grows(s, NextPub(cfg, s, x))
  {
    PubRowsGrow(cfg, s, x);
  }

  lemma ConGrows(cfg: Config, s: State, x: ConStep)
    requires EnabledCon(cfg, s, x)
    ensures Grows(s, NextCon(cfg, s, x))
  {
  }

  lemma RepGrows(cfg: Config, s: State, x: RepStep)
    requires EnabledRep(cfg, s, x)
    ensures Grows(s, NextRep(cfg, s, x))
  {
  }

  lemma StepGrows(cfg: Config, s: State, e: Step)
    requires Enabled(cfg, s, e)
    ensures Grows(s, Next(cfg, s, e))
  {
    match e
    case Env(x) => EnvGrows(cfg, s, x);
    case Pub(x) => PubGrows(cfg, s, x);
    case Con(x) => ConGrows(cfg, s, x);
    case Rep(x) => RepGrows(cfg, s, x);
  }

  lemma OnTopicStays(cfg: Config, s: State, t: State, id: nat)
    requires Grows(s, t) && OnTopic(cfg, s, id)
    ensures OnTopic(cfg, t, id)
  {
    var i :| 0 <= i < |s.topic| && IsRowMessage(cfg, s, id, i);
    assert t.topic[i] == s.topic[i] && SameContent(s.rows[id], t.rows[id]);
    assert IsRowMessage(cfg, t, id, i);
  }

  lemma DealtStays(cfg: Config, s: State, t: State, i: nat)
    requires Grows(s, t) && i < |s.topic| && Dealt(cfg, s, i)
    ensures Dealt(cfg, t, i)
  {
    assert t.topic[i] == s.topic[i];
    if InDlq(s, i) {
      var j :| 0 <= j < |s.dlq| && s.dlq[j].origin == Buried(i);
      assert t.dlq[j] == s.dlq[j];
    }
  }

  lemma DeadDealtStays(cfg: Config, s: State, t: State, j: nat)
    requires Grows(s, t) && j < |s.dlq| && DeadDealt(cfg, s, j)
    ensures DeadDealt(cfg, t, j)
  {
    assert t.dlq[j] == s.dlq[j];
    if Resent(s, j) {
      var k :| 0 <= k < |s.topic| && s.topic[k].origin == Replayed(j);
      assert t.topic[k] == s.topic[k];
    }
  }

  lemma JobStays(cfg: Config, s: State, t: State, j: Job)
    requires Grows(s, t) && JobOk(cfg, s, j)
    ensures JobOk(cfg, t, j)
  {
    if !j.Idle? {
      forall c | c in j.batch
        ensures c.id < |t.rows| && SameContent(c.row, t.rows[c.id])
      {
        assert SameContent(c.row, s.rows[c.id]) && SameContent(s.rows[c.id], t.rows[c.id]);
      }
      if j.Marking? { OnTopicStays(cfg, s, t, j.batch[0].id); }
    }
  }

  lemma DealtBelowStays(cfg: Config, s: State, t: State, part: Part, pos: nat)
    requires Grows(s, t) && DealtBelow(cfg, s, part, pos)
    ensures DealtBelow(cfg, t, part, pos)
  {
    forall i | 0 <= i < pos && t.topic[i].part == part
      ensures Dealt(cfg, t, i)
    {
      assert t.topic[i] == s.topic[i];
      DealtStays(cfg, s, t, i);
    }
  }

  lemma ConsumerStays(cfg: Config, s: State, t: State, part: Part, c: Consumer)
    requires Grows(s, t) && ConsumerOk(cfg, s, part, c)
    ensures ConsumerOk(cfg, t, part, c)
  {
    DealtBelowStays(cfg, s, t, part, c.pos);
    if !c.work.Waiting? {
      assert t.topic[c.work.msg] == s.topic[c.work.msg];
    }
    if c.work.Committing? { DealtStays(cfg, s, t, c.work.msg); }
  }

  lemma DeadDealtBelowStays(cfg: Config, s: State, t: State, part: Part, pos: nat)
    requires Grows(s, t) && DeadDealtBelow(cfg, s, part, pos)
    ensures DeadDealtBelow(cfg, t, part, pos)
  {
    forall j | 0 <= j < pos && t.dlq[j].part == part
      ensures DeadDealt(cfg, t, j)
    {
      assert t.dlq[j] == s.dlq[j];
      DeadDealtStays(cfg, s, t, j);
    }
  }

  lemma ReplayerStays(cfg: Config, s: State, t: State, part: Part, c: Replayer)
    requires Grows(s, t) && ReplayerOk(cfg, s, part, c)
    ensures ReplayerOk(cfg, t, part, c)
  {
    DeadDealtBelowStays(cfg, s, t, part, c.pos);
    if !c.work.Resting? {
      assert t.dlq[c.work.dead] == s.dlq[c.work.dead];
    }
    if c.work.Finishing? { DeadDealtStays(cfg, s, t, c.work.dead); }
  }

  // ---------------------------------------------------------------- every step keeps it

  lemma RowsUntouched(cfg: Config, s: State, t: State)
    requires Grows(s, t) && RowsOk(cfg, s) && t.publishers == s.publishers
    requires forall id :: 0 <= id < |t.rows| && t.rows[id].status == Processed ==> id < |s.rows| && s.rows[id].status == Processed
    ensures RowsOk(cfg, t)
  {
    forall id | 0 <= id < |t.rows| && t.rows[id].status == Processed
      ensures OnTopic(cfg, t, id)
    {
      OnTopicStays(cfg, s, t, id);
    }
    forall p | p in t.publishers
      ensures JobOk(cfg, t, t.publishers[p])
    {
      JobStays(cfg, s, t, s.publishers[p]);
    }
  }

  lemma ConsumersUntouched(cfg: Config, s: State, t: State)
    requires Grows(s, t) && ConsumersOk(cfg, s) && t.committed == s.committed
    requires forall c :: c in t.consumers ==> (c in s.consumers && t.consumers[c] == s.consumers[c]) || ConsumerOk(cfg, t, c.part, t.consumers[c])
    ensures ConsumersOk(cfg, t)
  {
    forall p | p in t.committed
      ensures DealtBelow(cfg, t, p, t.committed[p])
    {
      DealtBelowStays(cfg, s, t, p, s.committed[p]);
    }
    forall c | c in t.consumers
      ensures ConsumerOk(cfg, t, c.part, t.consumers[c])
    {
      if c in s.consumers && t.consumers[c] == s.consumers[c] {
        ConsumerStays(cfg, s, t, c.part, s.consumers[c]);
      }
    }
  }

  lemma ReplayersUntouched(cfg: Config, s: State, t: State)
    requires Grows(s, t) && ReplayersOk(cfg, s) && t.dlqCommitted == s.dlqCommitted
    requires forall c :: c in t.replayers ==> (c in s.replayers && t.replayers[c] == s.replayers[c]) || ReplayerOk(cfg, t, c.part, t.replayers[c])
    ensures ReplayersOk(cfg, t)
  {
    forall p | p in t.dlqCommitted
      ensures DeadDealtBelow(cfg, t, p, t.dlqCommitted[p])
    {
      DeadDealtBelowStays(cfg, s, t, p, s.dlqCommitted[p]);
    }
    forall c | c in t.replayers
      ensures ReplayerOk(cfg, t, c.part, t.replayers[c])
    {
      if c in s.replayers && t.replayers[c] == s.replayers[c] {
        ReplayerStays(cfg, s, t, c.part, s.replayers[c]);
      }
    }
  }

  lemma EnvKeepsInv(cfg: Config, s: State, x: EnvStep)
    requires Inv(cfg, s) && EnabledEnv(cfg, s, x)
    ensures Inv(cfg, NextEnv(s, x))
  {
    var t := NextEnv(s, x);
    EnvGrows(cfg, s, x);
    RowsUntouched(cfg, s, t);
    ConsumersUntouched(cfg, s, t);
    ReplayersUntouched(cfg, s, t);
  }

  lemma PubKeepsInv(cfg: Config, s: State, x: PubStep)
    requires Inv(cfg, s) && EnabledPub(cfg, s, x)
    ensures Inv(cfg, NextPub(cfg, s, x))
  {
    var t := NextPub(cfg, s, x);
    PubGrows(cfg, s, x);
    PubKeepsRows(cfg, s, x);
    ConsumersUntouched(cfg, s, t);
    ReplayersUntouched(cfg, s, t);
  }

  lemma PubKeepsRows(cfg: Config, s: State, x: PubStep)
    requires RowsOk(cfg, s) && EnabledPub(cfg, s, x)
    ensures RowsOk(cfg, NextPub(cfg, s, x))
  {
    var t := NextPub(cfg, s, x);
    PubGrows(cfg, s, x);
    JobStays(cfg, s, t, JobOf(s, x.p));
    forall id | 0 <= id < |t.rows| && t.rows[id].status == Processed
      ensures OnTopic(cfg, t, id)
    {
      NewlyProcessed(cfg, s, x, id);
      OnTopicStays(cfg, s, t, id);
    }
    forall p | p in t.publishers
      ensures JobOk(cfg, t, t.publishers[p])
    {
      if p == x.p { JobAfterOk(cfg, s, x); } else { JobStays(cfg, s, t, s.publishers[p]); }
    }
  }

  /** A row becomes PROCESSED only under a replica that has published it. */
  lemma NewlyProcessed(cfg: Config, s: State, x: PubStep, id: nat)
    requires RowsOk(cfg, s) && EnabledPub(cfg, s, x)
    requires var t := NextPub(cfg, s, x); id < |t.rows| && t.rows[id].status == Processed
    ensures OnTopic(cfg, s, id)
  {
    if x.MarkDone? && id == JobOf(s, x.p).batch[0].id {
      assert JobOk(cfg, s, JobOf(s, x.p));
    } else {
      assert id < |s.rows| && s.rows[id].status == Processed;
    }
  }

  lemma JobAfterOk(cfg: Config, s: State, x: PubStep)
    requires RowsOk(cfg, s) && EnabledPub(cfg, s, x)
    requires var t := NextPub(cfg, s, x); Grows(s, t) && JobOk(cfg, t, JobOf(s, x.p))
    ensures var t := NextPub(cfg, s, x); x.p in t.publishers && JobOk(cfg, t, t.publishers[x.p])
  {
    var t := NextPub(cfg, s, x);
    match x
    case ClaimBatch(p, ids, io) =>
      forall c | c in Snapshot(s.rows, ids)
        ensures c.id < |t.rows| && SameContent(c.row, t.rows[c.id])
      {
        assert c.row == s.rows[c.id] && SameContent(s.rows[c.id], t.rows[c.id]);
      }
    case Publish(p, part, io) =>
      var b := JobOf(s, p).batch;
      assert b[0] in b && SameContent(b[0].row, t.rows[b[0].id]);
      if io == Done { assert IsRowMessage(cfg, t, b[0].id, |s.topic|); }
    case MarkDone(p, io) =>
      var b := JobOf(s, p).batch;
      assert forall c <- b[1..] :: c in b;
    case MarkFail(p, io) =>
      var b := JobOf(s, p).batch;
      assert forall c <- b[1..] :: c in b;
    case CrashPublisher(p) =>
  }

  lemma ConKeepsInv(cfg: Config, s: State, x: ConStep)
    requires Inv(cfg, s) && EnabledCon(cfg, s, x)
    ensures Inv(cfg, NextCon(cfg, s, x))
  {
    var t := NextCon(cfg, s, x);
    ConGrows(cfg, s, x);
    RowsUntouched(cfg, s, t);
    ReplayersUntouched(cfg, s, t);
    ConKeepsConsumers(cfg, s, x);
  }

  lemma ConKeepsConsumers(cfg: Config, s: State, x: ConStep)
    requires ConsumersOk(cfg, s) && EnabledCon(cfg, s, x)
    ensures ConsumersOk(cfg, NextCon(cfg, s, x))
  {
    if x.Commit? { CommitKeepsConsumers(cfg, s, x); }
    else {
      ConGrows(cfg, s, x);
      if x.c in NextCon(cfg, s, x).consumers { ConsumerAfterOk(cfg, s, x); }
      ConsumersUntouched(cfg, s, NextCon(cfg, s, x));
    }
  }

  lemma ConsumerAfterOk(cfg: Config, s: State, x: ConStep)
    requires ConsumersOk(cfg, s) && EnabledCon(cfg, s, x) && !x.Commit?
    requires var t := NextCon(cfg, s, x); Grows(s, t) && x.c in t.consumers
    ensures var t := NextCon(cfg, s, x); ConsumerOk(cfg, t, x.c.part, t.consumers[x.c])
  {
    var t := NextCon(cfg, s, x);
    var part := x.c.part;
    match x
    case Join(c) =>
      DealtBelowStays(cfg, s, t, part, Offset(s.committed, part));
    case Deliver(c, i) =>
      DealtBelowStays(cfg, s, t, part, s.consumers[c].pos);
    case Handle(c, _) =>
      HandledAfterOk(cfg, s, x);
    case Bury(c, _, io) =>
      ConsumerStays(cfg, s, t, part, s.consumers[c]);
      assert t.dlq[|s.dlq|].origin == Buried(s.consumers[c].work.msg);
    case _ =>
  }

  lemma HandledAfterOk(cfg: Config, s: State, x: ConStep)
    requires ConsumersOk(cfg, s) && EnabledCon(cfg, s, x) && x.Handle?
    requires Grows(s, NextCon(cfg, s, x))
    ensures var t := NextCon(cfg, s, x); ConsumerOk(cfg, t, x.c.part, t.consumers[x.c])
  {
    var t := NextCon(cfg, s, x);
    var k := s.consumers[x.c];
    ConsumerStays(cfg, s, t, x.c.part, k);
    assert t.consumers[x.c].pos == k.pos && t.topic == s.topic;
  }

  lemma CommitKeepsConsumers(cfg: Config, s: State, x: ConStep)
    requires ConsumersOk(cfg, s) && EnabledCon(cfg, s, x) && x.Commit?
    ensures ConsumersOk(cfg, NextCon(cfg, s, x))
  {
    var t := NextCon(cfg, s, x);
    var part, i := x.c.part, s.consumers[x.c].work.msg;
    ConGrows(cfg, s, x);
    DealtUpTo(cfg, s, part, s.consumers[x.c].pos, i);
    DealtBelowStays(cfg, s, t, part, i + 1);
    forall p | p in t.committed
      ensures DealtBelow(cfg, t, p, t.committed[p])
    {
      if t.committed[p] != i + 1 || p != part { DealtBelowStays(cfg, s, t, p, s.committed[p]); }
    }
    forall c | c in t.consumers
      ensures ConsumerOk(cfg, t, c.part, t.consumers[c])
    {
      if c != x.c { ConsumerStays(cfg, s, t, c.part, s.consumers[c]); }
    }
  }

  /** Nothing of the partition lies between a consumer's position and its current message. */
  lemma DealtUpTo(cfg: Config, s: State, part: Part, pos: nat, i: nat)
    requires DealtBelow(cfg, s, part, pos) && NextFor(s.topic, part, pos, i) && Dealt(cfg, s, i)
    ensures DealtBelow(cfg, s, part, i + 1)
  {
  }

  lemma RepKeepsInv(cfg: Config, s: State, x: RepStep)
    requires Inv(cfg, s) && EnabledRep(cfg, s, x)
    ensures Inv(cfg, NextRep(cfg, s, x))
  {
    var t := NextRep(cfg, s, x);
    RepGrows(cfg, s, x);
    RowsUntouched(cfg, s, t);
    ConsumersUntouched(cfg, s, t);
    RepKeepsReplayers(cfg, s, x);
  }

  lemma RepKeepsReplayers(cfg: Config, s: State, x: RepStep)
    requires ReplayersOk(cfg, s) && EnabledRep(cfg, s, x)
    ensures ReplayersOk(cfg, NextRep(cfg, s, x))
  {
    if x.CommitDead? { CommitKeepsReplayers(cfg, s, x); }
    else {
      RepGrows(cfg, s, x);
      if x.c in NextRep(cfg, s, x).replayers { ReplayerAfterOk(cfg, s, x); }
      ReplayersUntouched(cfg, s, NextRep(cfg, s, x));
    }
  }

  lemma ReplayerAfterOk(cfg: Config, s: State, x: RepStep)
    requires ReplayersOk(cfg, s) && EnabledRep(cfg, s, x) && !x.CommitDead?
    requires var t := NextRep(cfg, s, x); Grows(s, t) && x.c in t.replayers
    ensures var t := NextRep(cfg, s, x); ReplayerOk(cfg, t, x.c.part, t.replayers[x.c])
  {
    var t := NextRep(cfg, s, x);
    var part := x.c.part;
    match x
    case JoinReplay(c) =>
      DeadDealtBelowStays(cfg, s, t, part, Offset(s.dlqCommitted, part));
    case DeliverDead(c, j) =>
      DeadDealtBelowStays(cfg, s, t, part, s.replayers[c].pos);
    case Resend(c, _, io) =>
      ReplayerStays(cfg, s, t, part, s.replayers[c]);
      assert t.topic[|s.topic|].origin == Replayed(s.replayers[c].work.dead);
    case _ =>
  }

  lemma CommitKeepsReplayers(cfg: Config, s: State, x: RepStep)
    requires ReplayersOk(cfg, s) && EnabledRep(cfg, s, x) && x.CommitDead?
    ensures ReplayersOk(cfg, NextRep(cfg, s, x))
  {
    var t := NextRep(cfg, s, x);
    var part, j := x.c.part, s.replayers[x.c].work.dead;
    RepGrows(cfg, s, x);
    DeadDealtUpTo(cfg, s, part, s.replayers[x.c].pos, j);
    DeadDealtBelowStays(cfg, s, t, part, j + 1);
    forall p | p in t.dlqCommitted
      ensures DeadDealtBelow(cfg, t, p, t.dlqCommitted[p])
    {
      if t.dlqCommitted[p] != j + 1 || p != part { DeadDealtBelowStays(cfg, s, t, p, s.dlqCommitted[p]); }
    }
    forall c | c in t.replayers
      ensures ReplayerOk(cfg, t, c.part, t.replayers[c])
    {
      if c != x.c { ReplayerStays(cfg, s, t, c.part, s.replayers[c]); }
    }
  }

  lemma DeadDealtUpTo(cfg: Config, s: State, part: Part, pos: nat, j: nat)
    requires DeadDealtBelow(cfg, s, part, pos) && NextDeadFor(s.dlq, part, pos, j) && DeadDealt(cfg, s, j)
    ensures DeadDealtBelow(cfg, s, part, j + 1)
  {
  }

  lemma StepKeepsInv(cfg: Config, s: State, e: Step)
    requires Inv(cfg, s) && Enabled(cfg, s, e)
    ensures Inv(cfg, Next(cfg, s, e))
  {
    match e
    case Env(x) => EnvKeepsInv(cfg, s, x);
    case Pub(x) => PubKeepsInv(cfg, s, x);
    case Con(x) => ConKeepsInv(cfg, s, x);
    case Rep(x) => RepKeepsInv(cfg, s, x);
  }

  lemma {:induction false} RunKeepsInv(cfg: Config, s: State, es: seq<Step>)
    requires Inv(cfg, s) && IsRun(cfg, s, es)
    ensures Inv(cfg, After(cfg, s, es))
    decreases |es|
  {
    if es != [] {
      StepKeepsInv(cfg, s, es[0]);
      RunKeepsInv(cfg, Next(cfg, s, es[0]), es[1..]);
    }
  }
}
