/** Where every copy of an event comes from: the links between topics and dead-letter topics,
    what the copies say, and what handlers make of them. */
module Provenance {
  import opened Basics
  import opened Outbox
  import opened Pipeline
  import opened NoLoss

  // ---------------------------------------------------------------- the links

  /** An event that names a row is the one made from that row. */
  predicate Genuine(cfg: Config, s: State, v: Value) {
    v.Event? && v.event.id.RowId? ==>
      v.event.id.row < |s.rows| && v.event == ToCloudEvent(cfg.sourcePrefix, v.event.id.row, s.rows[v.event.id.row])
  }

  /** A buried message's dead letter: its value, its topic, and what it descends from. */
  predicate Buries(cfg: Config, s: State, j: nat, i: nat)
    requires j < |s.dlq|
  {
    && i < |s.topic|
    && s.dlq[j].value == s.topic[i].value && s.dlq[j].root == s.topic[i].root
    && s.dlq[j].original == Some(s.topic[i].part.topic)
    && s.dlq[j].part.topic == DeadTopic(s.topic[i].part.topic)
    && s.dlq[j].replays == (if cfg.preserves then s.topic[i].replays else 0)
  }

  /** A replay of a dead letter: the same value on the topic it died on, one replay later. */
  predicate Resurrects(cfg: Config, s: State, k: nat, j: nat)
    requires k < |s.topic|
  {
    && j < |s.dlq| && Replays(cfg, s.dlq[j])
    && s.topic[k].value == s.dlq[j].value && s.topic[k].root == s.dlq[j].root
    && s.dlq[j].original == Some(s.topic[k].part.topic)
    && s.topic[k].replays == s.dlq[j].replays + 1
    && (s.dlq[j].origin.Buried? ==> s.dlq[j].origin.msg < k)
  }

  predicate DeadOk(cfg: Config, s: State, j: nat)
    requires j < |s.dlq|
  {
    && Genuine(cfg, s, s.dlq[j].value)
    && (s.dlq[j].origin.Buried? ==> Buries(cfg, s, j, s.dlq[j].origin.msg))
  }

  predicate MsgOk(cfg: Config, s: State, k: nat)
    requires k < |s.topic|
  {
    && Genuine(cfg, s, s.topic[k].value) && s.topic[k].replays <= Cap(cfg.maxReplays)
    && match s.topic[k].origin
       case Published(id) => IsRowMessage(cfg, s, id, k) && s.topic[k].replays == 0
       case Replayed(j) => Resurrects(cfg, s, k, j)
       case Foreign => true
  }

  /** An effect is that of an event some message carries, under its own id. */
  ghost predicate EffectOk(cfg: Config, s: State, id: EventId)
    requires id in s.effects
  {
    && s.effects[id].id == id && s.effects[id].eventType in cfg.handles
    && exists i :: 0 <= i < |s.topic| && s.topic[i].value == Event(s.effects[id])
  }

  predicate HandledOk(s: State, i: nat) {
    i < |s.topic| && s.topic[i].value.Event? && s.topic[i].value.event.id in s.effects
  }

  ghost predicate LogsOk(cfg: Config, s: State) {
    && (forall j :: 0 <= j < |s.dlq| ==> DeadOk(cfg, s, j))
    && (forall k :: 0 <= k < |s.topic| ==> MsgOk(cfg, s, k))
  }

  ghost predicate EffectsOk(cfg: Config, s: State) {
    && (forall id <- s.effects :: EffectOk(cfg, s, id))
    && (forall i <- s.handled :: HandledOk(s, i))
  }

  ghost predicate Traced(cfg: Config, s: State) {
    Inv(cfg, s) && LogsOk(cfg, s) && EffectsOk(cfg, s)
  }

  // ---------------------------------------------------------------- growth keeps them

  lemma DeadOkStays(cfg: Config, s: State, t: State, j: nat)
    requires Grows(s, t) && j < |s.dlq| && DeadOk(cfg, s, j)
    ensures DeadOk(cfg, t, j)
  {
    assert t.dlq[j] == s.dlq[j];
    GenuineStays(cfg, s, t, s.dlq[j].value);
    if s.dlq[j].origin.Buried? {
      assert t.topic[s.dlq[j].origin.msg] == s.topic[s.dlq[j].origin.msg];
    }
  }

  lemma GenuineStays(cfg: Config, s: State, t: State, v: Value)
    requires Grows(s, t) && Genuine(cfg, s, v)
    ensures Genuine(cfg, t, v)
  {
    if v.Event? && v.event.id.RowId? {
      assert SameContent(s.rows[v.event.id.row], t.rows[v.event.id.row]);
    }
  }

  lemma MsgOkStays(cfg: Config, s: State, t: State, k: nat)
    requires Grows(s, t) && k < |s.topic| && MsgOk(cfg, s, k)
    ensures MsgOk(cfg, t, k)
  {
    assert t.topic[k] == s.topic[k];
    GenuineStays(cfg, s, t, s.topic[k].value);
    match s.topic[k].origin
    case Published(id) => assert SameContent(s.rows[id], t.rows[id]);
    case Replayed(j) => assert t.dlq[j] == s.dlq[j];
    case Foreign =>
  }

  /** What a step appends is all there is to check. */
  lemma LogsOkAfter(cfg: Config, s: State, t: State)
    requires LogsOk(cfg, s) && Grows(s, t)
    requires forall j :: |s.dlq| <= j < |t.dlq| ==> DeadOk(cfg, t, j)
    requires forall k :: |s.topic| <= k < |t.topic| ==> MsgOk(cfg, t, k)
    ensures LogsOk(cfg, t)
  {
    forall j | 0 <= j < |t.dlq|
      ensures DeadOk(cfg, t, j)
    {
      if j < |s.dlq| { DeadOkStays(cfg, s, t, j); }
    }
    forall k | 0 <= k < |t.topic|
      ensures MsgOk(cfg, t, k)
    {
      if k < |s.topic| { MsgOkStays(cfg, s, t, k); }
    }
  }

  lemma EffectsOkAfter(cfg: Config, s: State, t: State)
    requires EffectsOk(cfg, s) && Grows(s, t) && t.effects == s.effects && t.handled == s.handled
    ensures EffectsOk(cfg, t)
  {
    forall id <- t.effects
      ensures EffectOk(cfg, t, id)
    {
      EffectStays(cfg, s, t, id);
    }
    forall i <- t.handled
      ensures HandledOk(t, i)
    {
      assert HandledOk(s, i) && t.topic[i] == s.topic[i];
    }
  }

  lemma EffectStays(cfg: Config, s: State, t: State, id: EventId)
    requires IsPrefix(s.topic, t.topic) && id in s.effects && EffectOk(cfg, s, id)
    requires id in t.effects && t.effects[id] == s.effects[id]
    ensures EffectOk(cfg, t, id)
  {
    var i :| 0 <= i < |s.topic| && s.topic[i].value == Event(s.effects[id]);
    assert t.topic[i] == s.topic[i];
  }

  // ---------------------------------------------------------------- every step keeps them

  lemma EnvKeepsTraced(cfg: Config, s: State, x: EnvStep)
    requires Traced(cfg, s) && EnabledEnv(cfg, s, x)
    ensures Traced(cfg, NextEnv(s, x))
  {
    var t := NextEnv(s, x);
    EnvGrows(cfg, s, x);
    EnvKeepsInv(cfg, s, x);
    LogsOkAfter(cfg, s, t);
    EffectsOkAfter(cfg, s, t);
  }

  lemma PubKeepsTraced(cfg: Config, s: State, x: PubStep)
    requires Traced(cfg, s) && EnabledPub(cfg, s, x)
    ensures Traced(cfg, NextPub(cfg, s, x))
  {
    var t := NextPub(cfg, s, x);
    PubGrows(cfg, s, x);
    PubKeepsInv(cfg, s, x);
    if x.Publish? { PublishedOk(cfg, s, x); }
    LogsOkAfter(cfg, s, t);
    EffectsOkAfter(cfg, s, t);
  }

  lemma PublishedOk(cfg: Config, s: State, x: PubStep)
    requires Traced(cfg, s) && EnabledPub(cfg, s, x) && x.Publish?
    ensures var t := NextPub(cfg, s, x); |s.topic| < |t.topic| ==> |t.topic| == |s.topic| + 1 && MsgOk(cfg, t, |s.topic|)
  {
    var c := JobOf(s, x.p).batch[0];
    assert c in JobOf(s, x.p).batch && SameContent(c.row, s.rows[c.id]);
  }

  lemma ConKeepsTraced(cfg: Config, s: State, x: ConStep)
    requires Traced(cfg, s) && EnabledCon(cfg, s, x)
    ensures Traced(cfg, NextCon(cfg, s, x))
  {
    var t := NextCon(cfg, s, x);
    ConGrows(cfg, s, x);
    ConKeepsInv(cfg, s, x);
    if x.Bury? { BuriedOk(cfg, s, x); }
    LogsOkAfter(cfg, s, t);
    if x.Handle? { HandleKeepsEffects(cfg, s, x); } else { EffectsOkAfter(cfg, s, t); }
  }

  lemma BuriedOk(cfg: Config, s: State, x: ConStep)
    requires Traced(cfg, s) && EnabledCon(cfg, s, x) && x.Bury?
    ensures var t := NextCon(cfg, s, x); |s.dlq| < |t.dlq| ==> |t.dlq| == |s.dlq| + 1 && DeadOk(cfg, t, |s.dlq|)
  {
    var k := s.consumers[x.c];
    assert ConsumerOk(cfg, s, x.c.part, k) && MsgOk(cfg, s, k.work.msg);
  }

  lemma HandleKeepsEffects(cfg: Config, s: State, x: ConStep)
    requires EffectsOk(cfg, s) && EnabledCon(cfg, s, x) && x.Handle?
    ensures EffectsOk(cfg, NextCon(cfg, s, x))
  {
    var t := NextCon(cfg, s, x);
    var i := s.consumers[x.c].work.msg;
    var e := s.topic[i].value.event;
    assert t.topic == s.topic && t.topic[i].value == Event(e);
    forall id <- t.effects
      ensures EffectOk(cfg, t, id)
    {
      if id in s.effects { EffectStays(cfg, s, t, id); }
    }
  }

  lemma RepKeepsTraced(cfg: Config, s: State, x: RepStep)
    requires Traced(cfg, s) && EnabledRep(cfg, s, x)
    ensures Traced(cfg, NextRep(cfg, s, x))
  {
    var t := NextRep(cfg, s, x);
    RepGrows(cfg, s, x);
    RepKeepsInv(cfg, s, x);
    if x.Resend? { ResentOk(cfg, s, x); }
    LogsOkAfter(cfg, s, t);
    EffectsOkAfter(cfg, s, t);
  }

  lemma ResentOk(cfg: Config, s: State, x: RepStep)
    requires Traced(cfg, s) && EnabledRep(cfg, s, x) && x.Resend?
    ensures var t := NextRep(cfg, s, x); |s.topic| < |t.topic| ==> |t.topic| == |s.topic| + 1 && MsgOk(cfg, t, |s.topic|)
  {
    var k := s.replayers[x.c];
    assert ReplayerOk(cfg, s, x.c.part, k) && DeadOk(cfg, s, k.work.dead);
  }

  lemma StepKeepsTraced(cfg: Config, s: State, e: Step)
    requires Traced(cfg, s) && Enabled(cfg, s, e)
    ensures Traced(cfg, Next(cfg, s, e))
  {
    match e
    case Env(x) => EnvKeepsTraced(cfg, s, x);
    case Pub(x) => PubKeepsTraced(cfg, s, x);
    case Con(x) => ConKeepsTraced(cfg, s, x);
    case Rep(x) => RepKeepsTraced(cfg, s, x);
  }

  lemma {:induction false} RunKeepsTraced(cfg: Config, s: State, es: seq<Step>)
    requires Traced(cfg, s) && IsRun(cfg, s, es)
    ensures Traced(cfg, After(cfg, s, es))
    decreases |es|
  {
    if es != [] {
      StepKeepsTraced(cfg, s, es[0]);
      RunKeepsTraced(cfg, Next(cfg, s, es[0]), es[1..]);
    }
  }

  lemma Reachable(cfg: Config, s: State, es: seq<Step>)
    requires Initial(s) && IsRun(cfg, s, es)
    ensures Traced(cfg, After(cfg, s, es))
  {
    RunKeepsTraced(cfg, s, es);
  }

  // ---------------------------------------------------------------- the theorems

  /** Nothing is lost, on any run: PROCESSED means published, and below every committed offset
      each message and each dead letter has been dealt with. */
  lemma NothingLost(cfg: Config, s: State, es: seq<Step>)
    requires Initial(s) && IsRun(cfg, s, es)
    ensures var t := After(cfg, s, es);
            && (forall id :: 0 <= id < |t.rows| && t.rows[id].status == Processed ==> OnTopic(cfg, t, id))
            && (forall i :: 0 <= i < |t.topic| && i < Offset(t.committed, t.topic[i].part) ==> Dealt(cfg, t, i))
            && (forall j :: 0 <= j < |t.dlq| && j < Offset(t.dlqCommitted, t.dlq[j].part) ==> DeadDealt(cfg, t, j))
  {
    var t := After(cfg, s, es);
    Reachable(cfg, s, es);
    forall i | 0 <= i < |t.topic| && i < Offset(t.committed, t.topic[i].part)
      ensures Dealt(cfg, t, i)
    {
      assert DealtBelow(cfg, t, t.topic[i].part, t.committed[t.topic[i].part]);
    }
    forall j | 0 <= j < |t.dlq| && j < Offset(t.dlqCommitted, t.dlq[j].part)
      ensures DeadDealt(cfg, t, j)
    {
      assert DeadDealtBelow(cfg, t, t.dlq[j].part, t.dlqCommitted[t.dlq[j].part]);
    }
  }

  /** A copy of the value that is still to be delivered, or at rest for good: handled, skipped,
      a tombstone, given up, or dropped for want of a header. */
  predicate Held(cfg: Config, s: State, i: nat)
    requires i < |s.topic|
  {
    || Offset(s.committed, s.topic[i].part) <= i
    || i in s.handled
    || s.topic[i].value.Tombstone?
    || (s.topic[i].value.Event? && s.topic[i].value.event.eventType !in cfg.handles)
  }

  predicate HeldDead(cfg: Config, s: State, j: nat)
    requires j < |s.dlq|
  {
    Offset(s.dlqCommitted, s.dlq[j].part) <= j || !Replays(cfg, s.dlq[j])
  }

  ghost predicate SomewhereHeld(cfg: Config, s: State, topic: string, v: Value) {
    || (exists i :: 0 <= i < |s.topic| && s.topic[i].part.topic == topic && s.topic[i].value == v && Held(cfg, s, i))
    || (exists j :: 0 <= j < |s.dlq| && s.dlq[j].original == Some(topic) && s.dlq[j].value == v && HeldDead(cfg, s, j))
  }

  /** An event that says what the row says is held on the row's topic. */
  ghost predicate RowHeld(cfg: Config, s: State, id: nat)
    requires id < |s.rows|
  {
    exists e :: Carries(e, cfg.sourcePrefix, id, s.rows[id]) && SomewhereHeld(cfg, s, cfg.topicOf(s.rows[id].eventType), Event(e))
  }

  /** Following a message through dead-letterings and replays ends at a copy that is held. */
  lemma {:induction false} TrailEnds(cfg: Config, s: State, i: nat)
    requires Traced(cfg, s) && i < |s.topic|
    ensures SomewhereHeld(cfg, s, s.topic[i].part.topic, s.topic[i].value)
    decreases |s.topic| - i
  {
    if !Held(cfg, s, i) {
      assert DealtBelow(cfg, s, s.topic[i].part, s.committed[s.topic[i].part]);
      assert InDlq(s, i);
      var j :| 0 <= j < |s.dlq| && s.dlq[j].origin == Buried(i);
      assert DeadOk(cfg, s, j) && Buries(cfg, s, j, i);
      if !HeldDead(cfg, s, j) {
        assert DeadDealtBelow(cfg, s, s.dlq[j].part, s.dlqCommitted[s.dlq[j].part]);
        assert Resent(s, j);
        var k :| 0 <= k < |s.topic| && s.topic[k].origin == Replayed(j);
        assert MsgOk(cfg, s, k) && Resurrects(cfg, s, k, j);
        TrailEnds(cfg, s, k);
      }
    }
  }

  /** End to end: however publishing, retries, crashes, dead-lettering and replays interleave,
      the event of every published row is held somewhere on its own topic or as a dead letter
      of that topic, and so is the value of every message. */
  lemma EndToEnd(cfg: Config, s: State, es: seq<Step>)
    requires Initial(s) && IsRun(cfg, s, es)
    ensures var t := After(cfg, s, es);
            && (forall id :: 0 <= id < |t.rows| && t.rows[id].status == Processed ==>
                  RowHeld(cfg, t, id))
            && (forall i :: 0 <= i < |t.topic| ==> SomewhereHeld(cfg, t, t.topic[i].part.topic, t.topic[i].value))
  {
    var t := After(cfg, s, es);
    Reachable(cfg, s, es);
    forall i | 0 <= i < |t.topic|
      ensures SomewhereHeld(cfg, t, t.topic[i].part.topic, t.topic[i].value)
    {
      TrailEnds(cfg, t, i);
    }
    forall id | 0 <= id < |t.rows| && t.rows[id].status == Processed
      ensures RowHeld(cfg, t, id)
    {
      var i :| 0 <= i < |t.topic| && IsRowMessage(cfg, t, id, i);
      TrailEnds(cfg, t, i);
      EventCarriesRow(cfg.sourcePrefix, id, t.rows[id]);
      assert SomewhereHeld(cfg, t, cfg.topicOf(t.rows[id].eventType), Event(ToCloudEvent(cfg.sourcePrefix, id, t.rows[id])));
    }
  }

  predicate CountsWithin(s: State, most: nat) {
    forall i :: 0 <= i < |s.topic| ==> s.topic[i].replays <= most
  }

  lemma LogsBoundCounts(cfg: Config, s: State)
    requires LogsOk(cfg, s)
    ensures CountsWithin(s, Cap(cfg.maxReplays))
  {
    forall i | 0 <= i < |s.topic|
      ensures s.topic[i].replays <= Cap(cfg.maxReplays)
    {
      assert MsgOk(cfg, s, i);
    }
  }

  /** Replay counts stay within the budget on every run, whatever the dead-letter producer does
      with the header. */
  lemma ReplayCountsBounded(cfg: Config, s: State, es: seq<Step>)
    requires Initial(s) && IsRun(cfg, s, es)
    ensures forall i :: 0 <= i < |After(cfg, s, es).topic| ==> After(cfg, s, es).topic[i].replays <= if cfg.maxReplays > 0 then cfg.maxReplays else 0
  {
    Reachable(cfg, s, es);
    LogsBoundCounts(cfg, After(cfg, s, es));
  }

  /** Messages of a log that carry the same id carry the same event. */
  predicate IdsIdentify(topic: seq<Msg>) {
    forall i, k :: (0 <= i < |topic| && 0 <= k < |topic| && SameId(topic[i].value, topic[k].value)) ==> topic[i].value == topic[k].value
  }

  predicate SameId(a: Value, b: Value) {
    a.Event? && b.Event? && a.event.id == b.event.id
  }

  ghost predicate RowsOnce(cfg: Config, s: State) {
    forall id: nat :: RowId(id) in s.effects ==> id < |s.rows| && Carries(s.effects[RowId(id)], cfg.sourcePrefix, id, s.rows[id])
  }

  predicate EachOnce(s: State) {
    forall i :: 0 <= i < |s.topic| && s.topic[i].value.Event? && s.topic[i].value.event.id in s.effects ==>
      s.effects[s.topic[i].value.event.id] == s.topic[i].value.event
  }

  /** Effects keyed by event id are effects once: whatever was republished, retried, redelivered
      or replayed, the store holds for each row id the event of that row, it holds every
      handled event, and nothing that no message of a handled type carried. With ids that
      identify their events among other producers too, it holds for each id the one event. */
  lemma EffectivelyOnce(cfg: Config, s: State, es: seq<Step>)
    requires Initial(s) && IsRun(cfg, s, es)
    ensures var t := After(cfg, s, es);
            RowsOnce(cfg, t) && EffectsOk(cfg, t) && (IdsIdentify(t.topic) ==> EachOnce(t))
  {
    var t := After(cfg, s, es);
    Reachable(cfg, s, es);
    OnceByRow(cfg, t);
    if IdsIdentify(t.topic) { OnceById(cfg, t); }
  }

  lemma OnceByRow(cfg: Config, s: State)
    requires Traced(cfg, s)
    ensures RowsOnce(cfg, s)
  {
    forall id: nat | RowId(id) in s.effects
      ensures id < |s.rows| && Carries(s.effects[RowId(id)], cfg.sourcePrefix, id, s.rows[id])
    {
      assert EffectOk(cfg, s, RowId(id));
      var i :| 0 <= i < |s.topic| && s.topic[i].value == Event(s.effects[RowId(id)]);
      assert MsgOk(cfg, s, i);
      EventCarriesRow(cfg.sourcePrefix, id, s.rows[id]);
    }
  }

  lemma OnceById(cfg: Config, s: State)
    requires Traced(cfg, s) && IdsIdentify(s.topic)
    ensures EachOnce(s)
  {
    forall i | 0 <= i < |s.topic| && s.topic[i].value.Event? && s.topic[i].value.event.id in s.effects
      ensures s.effects[s.topic[i].value.event.id] == s.topic[i].value.event
    {
      var id := s.topic[i].value.event.id;
      assert EffectOk(cfg, s, id);
      var k :| 0 <= k < |s.topic| && s.topic[k].value == Event(s.effects[id]);
      assert SameId(s.topic[i].value, s.topic[k].value);
    }
  }
}
