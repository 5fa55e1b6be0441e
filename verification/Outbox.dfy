/** The transactional outbox: the store contract of `outbox/outbox.ports.ts` and the polling
    publisher of `outbox/outbox-publisher.ts`. */
module Outbox {
  import opened Basics
  import opened Tracing

  datatype Status = Pending | Inflight | Processed | FailedDlq

  /** Rows are numbered in the order they were appended; the number stands for the row id. */
  datatype Row = Row(eventType: string, aggregateType: string, aggregateId: string, orgId: string, payload: string,
                     createdAt: int, traceparent: Option<string>, status: Status, attempts: nat)

  type Rows = seq<Row>

  /** An event id is the id of the row it came from, or one that another producer made up. */
  datatype EventId = RowId(row: nat) | ForeignId(n: nat)

  datatype CloudEvent = CloudEvent(specversion: string, id: EventId, source: string, eventType: string, time: int, subject: string,
                                   datacontenttype: string, data: string, orgid: string, partitionkey: string, traceparent: Option<Json>)

  function ToCloudEvent(sourcePrefix: string, id: nat, r: Row): CloudEvent {
    CloudEvent("1.0", RowId(id), sourcePrefix + "/" + r.aggregateType, r.eventType, r.createdAt, r.aggregateId,
               "application/json", r.payload, r.orgId, r.aggregateId, if r.traceparent.Some? then Some(String(r.traceparent.value)) else None)
  }

  /** The event says what the row says, field by field. */
  predicate Carries(e: CloudEvent, sourcePrefix: string, id: nat, r: Row) {
    && e.specversion == "1.0" && e.datacontenttype == "application/json"
    && e.id == RowId(id) && e.eventType == r.eventType && e.time == r.createdAt && e.data == r.payload
    && e.source == sourcePrefix + "/" + r.aggregateType
    && e.subject == r.aggregateId && e.partitionkey == r.aggregateId && e.orgid == r.orgId
    && (match r.traceparent
        case None => e.traceparent == None
        case Some(text) => e.traceparent == Some(String(text)))
  }

  lemma EventCarriesRow(sourcePrefix: string, id: nat, r: Row)
    ensures Carries(ToCloudEvent(sourcePrefix, id, r), sourcePrefix, id, r)
  {
  }

  // ---------------------------------------------------------------- the store contract

  /** A claimed row as the publisher holds it: a copy taken at the claim. */
  datatype Claimed = Claimed(id: nat, row: Row)

  /** Up to `limit` distinct PENDING rows, whichever the database picks. */
  predicate CanClaim(rows: Rows, ids: seq<nat>, limit: nat) {
    && |ids| <= limit
    && (forall i :: 0 <= i < |ids| ==> ids[i] < |rows| && rows[ids[i]].status == Pending)
    && (forall i, j :: 0 <= i < j < |ids| ==> ids[i] != ids[j])
  }

  function SetStatus(rows: Rows, id: nat, status: Status): Rows {
    if id < |rows| then rows[id := rows[id].(status := status)] else rows
  }

  function Claim(rows: Rows, ids: seq<nat>): (r: Rows)
    ensures |r| == |rows|
    ensures forall k :: 0 <= k < |rows| ==> r[k] == if k in ids then rows[k].(status := Inflight) else rows[k]
  {
    seq(|rows|, k requires 0 <= k < |rows| => if k in ids then rows[k].(status := Inflight) else rows[k])
  }

  /** A claim is exclusive: what can be claimed after it is what could be before, less what it
      has taken. */
  lemma ClaimIsExclusive(rows: Rows, ids: seq<nat>, limit: nat, ids2: seq<nat>, limit2: nat)
    requires CanClaim(rows, ids, limit)
    ensures CanClaim(Claim(rows, ids), ids2, limit2) <==> CanClaim(rows, ids2, limit2) && forall id <- ids2 :: id !in ids
  {
  }

  function Snapshot(rows: Rows, ids: seq<nat>): seq<Claimed>
    requires forall i :: 0 <= i < |ids| ==> ids[i] < |rows|
  {
    seq(|ids|, i requires 0 <= i < |ids| => Claimed(ids[i], rows[ids[i]]))
  }

  function MarkProcessed(rows: Rows, id: nat): Rows {
    SetStatus(rows, id, Processed)
  }

  /** Bumps the attempts the publisher saw, and gives up once the budget is used up. Like the
      other mark it looks at nothing but the id. */
  function MarkFailed(rows: Rows, id: nat, currentAttempts: nat, maxAttempts: int): Rows {
    if id < |rows| then
      rows[id := rows[id].(status := if currentAttempts + 1 >= maxAttempts then FailedDlq else Pending, attempts := currentAttempts + 1)]
    else rows
  }

  /** `reapStaleInflight`, for one row. */
  function Reap(rows: Rows, id: nat): Rows {
    if id < |rows| && rows[id].status == Inflight then SetStatus(rows, id, Pending) else rows
  }

  // ---------------------------------------------------------------- one poll

  /** How an awaited call ends; one that throws may still have taken effect. */
  datatype Io = Done | FailedClean | FailedAfter

  /** How one row's publish and first mark go. A call that throws may still have taken effect. */
  datatype Fate = Works | PublishThrows(delivered: bool) | ProcessedThrows(marked: bool)

  /** How the handling of a failure goes: `markFailed`, and whether the hook throws if called. */
  datatype Handling = Handling(mark: Io, hookThrows: bool)

  datatype PollResult = PollResult(claimed: nat, published: nat, failed: nat, deadLettered: nat)

  predicate Dies(c: Claimed, fate: Fate, maxAttempts: int) {
    fate != Works && c.row.attempts + 1 >= maxAttempts
  }

  /** The rows after the loop has dealt with a row or with the first rows of a batch, and the
      counters it has then. */
  function Settle(rows: Rows, c: Claimed, fate: Fate, maxAttempts: int): (r: Rows)
    ensures |r| == |rows|
  {
    if fate == Works then MarkProcessed(rows, c.id) else MarkFailed(rows, c.id, c.row.attempts, maxAttempts)
  }

  /** What escapes the loop: a throw of `markFailed`, or of the hook after it. */
  predicate Escapes(c: Claimed, fate: Fate, h: Handling, maxAttempts: int) {
    fate != Works && (h.mark != Done || (h.hookThrows && Dies(c, fate, maxAttempts)))
  }

  /** The rows when that happens. A mark that worked before it stays, unless `markFailed` has
      taken effect over it. */
  function LeftBehind(rows: Rows, c: Claimed, fate: Fate, h: Handling, maxAttempts: int): (r: Rows)
    ensures |r| == |rows|
  {
    if h.mark != FailedClean then Settle(rows, c, fate, maxAttempts)
    else if fate == ProcessedThrows(true) then MarkProcessed(rows, c.id)
    else rows
  }

  lemma MarkTwice(rows: Rows, c: Claimed, maxAttempts: int)
    ensures MarkFailed(MarkProcessed(rows, c.id), c.id, c.row.attempts, maxAttempts) == MarkFailed(rows, c.id, c.row.attempts, maxAttempts)
  {
  }

  /** The first row from the k-th on whose failure escapes, or the end of the batch. */
  function FirstEscape(k: nat, batch: seq<Claimed>, fates: nat -> Fate, hs: nat -> Handling, maxAttempts: int): (n: nat)
    requires k <= |batch|
    ensures k <= n <= |batch| && (n < |batch| ==> Escapes(batch[n], fates(n), hs(n), maxAttempts))
    ensures forall i :: k <= i < n ==> !Escapes(batch[i], fates(i), hs(i), maxAttempts)
    decreases |batch| - k
  {
    if k == |batch| || Escapes(batch[k], fates(k), hs(k), maxAttempts) then k
    else FirstEscape(k + 1, batch, fates, hs, maxAttempts)
  }

  /** The rows when the loop is over, by the end of the batch or by an escape. */
  function LoopRows(rows: Rows, batch: seq<Claimed>, fates: nat -> Fate, hs: nat -> Handling, maxAttempts: int): Rows {
    var n := FirstEscape(0, batch, fates, hs, maxAttempts);
    if n == |batch| then SettleFirst(n, rows, batch, fates, maxAttempts)
    else LeftBehind(SettleFirst(n, rows, batch, fates, maxAttempts), batch[n], fates(n), hs(n), maxAttempts)
  }

  function SettleFirst(n: nat, rows: Rows, batch: seq<Claimed>, fates: nat -> Fate, maxAttempts: int): (r: Rows)
    requires n <= |batch|
    ensures |r| == |rows|
  {
    if n == 0 then rows
    else Settle(SettleFirst(n - 1, rows, batch, fates, maxAttempts), batch[n - 1], fates(n - 1), maxAttempts)
  }

  function CountFirst(n: nat, batch: seq<Claimed>, fates: nat -> Fate, maxAttempts: int): (r: PollResult)
    requires n <= |batch|
    ensures r.claimed == n
  {
    if n == 0 then PollResult(0, 0, 0, 0)
    else
      var r := CountFirst(n - 1, batch, fates, maxAttempts);
      PollResult(n, r.published + (if fates(n - 1) == Works then 1 else 0), r.failed + (if fates(n - 1) != Works then 1 else 0),
                 r.deadLettered + (if Dies(batch[n - 1], fates(n - 1), maxAttempts) then 1 else 0))
  }

  function Envelope(sourcePrefix: string, c: Claimed): CloudEvent {
    ToCloudEvent(sourcePrefix, c.id, c.row)
  }

  /** Whether the publish of a row takes effect. */
  predicate Delivers(fate: Fate) {
    match fate
    case Works => true
    case PublishThrows(delivered) => delivered
    case ProcessedThrows(_) => true
  }

  /** What one publish puts on the wire. */
  function Sent(sourcePrefix: string, c: Claimed, fate: Fate): seq<CloudEvent> {
    if Delivers(fate) then [Envelope(sourcePrefix, c)] else []
  }

  /** The row is among the events, and so on. */
  ghost predicate IsSent(events: seq<CloudEvent>, sourcePrefix: string, c: Claimed) {
    exists e <- events :: Carries(e, sourcePrefix, c.id, c.row)
  }

  ghost predicate IsOf(e: CloudEvent, sourcePrefix: string, n: nat, batch: seq<Claimed>, fates: nat -> Fate)
    requires n <= |batch|
  {
    exists k :: 0 <= k < n && fates(k) != PublishThrows(false) && Carries(e, sourcePrefix, batch[k].id, batch[k].row)
  }

  /** The events are the first n rows of the batch, as far as their publish took effect, each
      saying what its row says, and nothing else. */
  ghost predicate Tells(events: seq<CloudEvent>, sourcePrefix: string, n: nat, batch: seq<Claimed>, fates: nat -> Fate)
    requires n <= |batch|
  {
    && (forall k {:trigger IsSent(events, sourcePrefix, batch[k])} :: 0 <= k < n && fates(k) != PublishThrows(false)
          ==> IsSent(events, sourcePrefix, batch[k]))
    && (forall e {:trigger IsOf(e, sourcePrefix, n, batch, fates)} :: e in events ==> IsOf(e, sourcePrefix, n, batch, fates))
  }

  /** What the first n rows of a batch put on the wire. */
  function WireOf(sourcePrefix: string, n: nat, batch: seq<Claimed>, fates: nat -> Fate): seq<CloudEvent>
    requires n <= |batch|
  {
    if n == 0 then [] else WireOf(sourcePrefix, n - 1, batch, fates) + Sent(sourcePrefix, batch[n - 1], fates(n - 1))
  }

  lemma {:induction false} WireTells(sourcePrefix: string, n: nat, batch: seq<Claimed>, fates: nat -> Fate)
    requires n <= |batch|
    ensures Tells(WireOf(sourcePrefix, n, batch, fates), sourcePrefix, n, batch, fates)
  {
    if n == 0 {
      TellsNothing(sourcePrefix, batch, fates);
    } else {
      WireTells(sourcePrefix, n - 1, batch, fates);
      TellsOneMore(sourcePrefix, n - 1, batch, fates);
    }
  }

  lemma TellsNothing(sourcePrefix: string, batch: seq<Claimed>, fates: nat -> Fate)
    ensures Tells([], sourcePrefix, 0, batch, fates)
  {
  }

  lemma TellsOneMore(sourcePrefix: string, n: nat, batch: seq<Claimed>, fates: nat -> Fate)
    requires n < |batch| && Tells(WireOf(sourcePrefix, n, batch, fates), sourcePrefix, n, batch, fates)
    ensures Tells(WireOf(sourcePrefix, n + 1, batch, fates), sourcePrefix, n + 1, batch, fates)
  {
    var was, now := WireOf(sourcePrefix, n, batch, fates), WireOf(sourcePrefix, n + 1, batch, fates);
    assert now == was + Sent(sourcePrefix, batch[n], fates(n));
    EventCarriesRow(sourcePrefix, batch[n].id, batch[n].row);
    forall k | 0 <= k < n + 1 && fates(k) != PublishThrows(false)
      ensures IsSent(now, sourcePrefix, batch[k])
    {
      if k < n {
        assert IsSent(was, sourcePrefix, batch[k]);
        var e :| e in was && Carries(e, sourcePrefix, batch[k].id, batch[k].row);
        assert e in now;
      } else {
        assert Envelope(sourcePrefix, batch[n]) in now;
      }
    }
    forall e <- now
      ensures IsOf(e, sourcePrefix, n + 1, batch, fates)
    {
      if e in was { assert IsOf(e, sourcePrefix, n, batch, fates); }
    }
  }

  /** How many rows get their turn: all up to the first whose failure escapes, and that one. */
  function Turns(batch: seq<Claimed>, fates: nat -> Fate, hs: nat -> Handling, maxAttempts: int): (n: nat)
    ensures n <= |batch|
  {
    var stop := FirstEscape(0, batch, fates, hs, maxAttempts);
    if stop < |batch| then stop + 1 else stop
  }

  /** A publisher that has dealt with the first k rows of a batch: its rows, wire, counters and
      the hooks called since. */
  ghost predicate DoneWith(k: nat, batch: seq<Claimed>, fates: nat -> Fate, maxAttempts: int, sourcePrefix: string,
                           before: Rows, rows: Rows, oldWire: seq<CloudEvent>, wire: seq<CloudEvent>, tally: PollResult, hooks: int)
    requires k <= |batch|
  {
    && rows == SettleFirst(k, before, batch, fates, maxAttempts)
    && tally == CountFirst(k, batch, fates, maxAttempts).(claimed := |batch|)
    && hooks == tally.deadLettered
    && wire == oldWire + WireOf(sourcePrefix, k, batch, fates)
  }

  lemma DoneWithOneMore(k: nat, batch: seq<Claimed>, fates: nat -> Fate, maxAttempts: int, sourcePrefix: string,
                        before: Rows, rows: Rows, oldWire: seq<CloudEvent>, wire: seq<CloudEvent>, tally: PollResult, hooks: int)
    requires k < |batch| && DoneWith(k, batch, fates, maxAttempts, sourcePrefix, before, rows, oldWire, wire, tally, hooks)
    ensures var c, fate := batch[k], fates(k);
            var dead := if Dies(c, fate, maxAttempts) then 1 else 0;
            DoneWith(k + 1, batch, fates, maxAttempts, sourcePrefix, before, Settle(rows, c, fate, maxAttempts), oldWire, wire + Sent(sourcePrefix, c, fate),
                     Tallied(tally, c, fate, maxAttempts), hooks + dead)
  {
    Regroup(oldWire, WireOf(sourcePrefix, k, batch, fates), Sent(sourcePrefix, batch[k], fates(k)));
  }

  function Tallied(tally: PollResult, c: Claimed, fate: Fate, maxAttempts: int): PollResult {
    tally.(published := tally.published + (if fate == Works then 1 else 0),
           failed := tally.failed + (if fate != Works then 1 else 0),
           deadLettered := tally.deadLettered + (if Dies(c, fate, maxAttempts) then 1 else 0))
  }

  class OutboxPublisher {
    const sourcePrefix: string
    const maxAttempts: int
    const batchSize: nat
    var rows: Rows
    var wire: seq<CloudEvent>
    var deadLetterHooks: nat

    constructor (sourcePrefix: string, maxAttempts: int, batchSize: nat, rows: Rows)
      ensures this.sourcePrefix == sourcePrefix && this.maxAttempts == maxAttempts && this.batchSize == batchSize
      ensures this.rows == rows && wire == [] && deadLetterHooks == 0
    {
      this.sourcePrefix, this.maxAttempts, this.batchSize := sourcePrefix, maxAttempts, batchSize;
      this.rows, wire, deadLetterHooks := rows, [], 0;
    }

    /** The try block: publish, then mark. False is an exception of either. */
    method Attempt(event: Claimed, fate: Fate) returns (ok: bool)
      modifies `rows, `wire
      ensures ok <==> fate == Works
      ensures rows == if fate == Works || fate == ProcessedThrows(true) then MarkProcessed(old(rows), event.id) else old(rows)
      ensures wire == old(wire) + Sent(sourcePrefix, event, fate)
    {
      if Delivers(fate) {
        wire := wire + [Envelope(sourcePrefix, event)];
      }
      if fate == Works || fate == ProcessedThrows(true) {
        rows := MarkProcessed(rows, event.id);
      }
      return fate == Works;
    }

    /** The body of the loop. True is an exception that escapes it: of `markFailed`, whether it
        took effect or not, or of `onDeadLetter` after it. */
    method PublishAndMark(event: Claimed, fate: Fate, h: Handling, tally: PollResult) returns (threw: bool, tally': PollResult)
      modifies this
      ensures threw <==> Escapes(event, fate, h, maxAttempts)
      ensures rows == if threw then LeftBehind(old(rows), event, fate, h, maxAttempts) else Settle(old(rows), event, fate, maxAttempts)
      ensures !threw ==> tally' == Tallied(tally, event, fate, maxAttempts)
      ensures deadLetterHooks == old(deadLetterHooks) + if Dies(event, fate, maxAttempts) && h.mark == Done then 1 else 0
      ensures wire == old(wire) + Sent(sourcePrefix, event, fate)
      ensures fate != PublishThrows(false) ==> |wire| == |old(wire)| + 1 && Carries(wire[|old(wire)|], sourcePrefix, event.id, event.row)
    {
      EventCarriesRow(sourcePrefix, event.id, event.row);
      MarkTwice(rows, event, maxAttempts);
      tally' := tally;
      var ok := Attempt(event, fate);
      if ok {
        tally' := tally.(published := tally.published + 1);
        return false, tally';
      }
      if h.mark != FailedClean {
        rows := MarkFailed(rows, event.id, event.row.attempts, maxAttempts);
      }
      if h.mark != Done {
        return true, tally';
      }
      tally' := tally.(failed := tally.failed + 1);
      if event.row.attempts + 1 >= maxAttempts {
        tally' := tally'.(deadLettered := tally.deadLettered + 1);
        deadLetterHooks := deadLetterHooks + 1;
        if h.hookThrows {
          return true, tally';
        }
      }
      return false, tally';
    }

    /** One tick in which the database picks `ids` and row k goes as `fates(k)` and `hs(k)`
        say. None is an exception: of the claim, or one that escapes the loop. */
    method PollOnce(ids: seq<nat>, claim: Io, fates: nat -> Fate, hs: nat -> Handling) returns (result: Option<PollResult>)
      requires CanClaim(rows, ids, batchSize)
      modifies this
      ensures rows == if claim == FailedClean then old(rows) else if claim == FailedAfter then Claim(old(rows), ids)
                      else LoopRows(Claim(old(rows), ids), Snapshot(old(rows), ids), fates, hs, maxAttempts)
      ensures if claim == Done then
                && old(wire) <= wire
                && Tells(wire[|old(wire)|..], sourcePrefix, Turns(Snapshot(old(rows), ids), fates, hs, maxAttempts), Snapshot(old(rows), ids), fates)
              else wire == old(wire)
      ensures result.Some? <==> claim == Done && FirstEscape(0, Snapshot(old(rows), ids), fates, hs, maxAttempts) == |ids|
      ensures result.Some? ==>
                && result.value == CountFirst(|ids|, Snapshot(old(rows), ids), fates, maxAttempts)
                && deadLetterHooks == old(deadLetterHooks) + result.value.deadLettered
    {
      var events := Snapshot(rows, ids);
      if claim != FailedClean {
        rows := Claim(rows, ids);
      }
      if claim != Done {
        return None;
      }
      WireTells(sourcePrefix, Turns(events, fates, hs, maxAttempts), events, fates);
      if |events| == 0 {
        return Some(PollResult(0, 0, 0, 0));
      }
      result := PublishBatch(events, fates, hs);
      assert wire[|old(wire)|..] == WireOf(sourcePrefix, Turns(events, fates, hs, maxAttempts), events, fates);
    }

    /** The loop of `pollOnce` over the rows it has claimed. */
    method PublishBatch(events: seq<Claimed>, fates: nat -> Fate, hs: nat -> Handling) returns (result: Option<PollResult>)
      modifies this
      ensures rows == LoopRows(old(rows), events, fates, hs, maxAttempts)
      ensures wire == old(wire) + WireOf(sourcePrefix, Turns(events, fates, hs, maxAttempts), events, fates)
      ensures result.Some? <==> FirstEscape(0, events, fates, hs, maxAttempts) == |events|
      ensures result.Some? ==>
                && result.value == CountFirst(|events|, events, fates, maxAttempts)
                && deadLetterHooks == old(deadLetterHooks) + result.value.deadLettered
    {
      var tally := PollResult(|events|, 0, 0, 0);
      ghost var stop := FirstEscape(0, events, fates, hs, maxAttempts);
      for k := 0 to |events|
        invariant k <= stop && FirstEscape(k, events, fates, hs, maxAttempts) == stop
        invariant DoneWith(k, events, fates, maxAttempts, sourcePrefix, old(rows), rows, old(wire), wire, tally, deadLetterHooks - old(deadLetterHooks))
      {
        DoneWithOneMore(k, events, fates, maxAttempts, sourcePrefix, old(rows), rows, old(wire), wire, tally, deadLetterHooks - old(deadLetterHooks));
        var threw;
        threw, tally := PublishAndMark(events[k], fates(k), hs(k), tally);
        if threw {
          return None;
        }
      }
      return Some(tally);
    }
  }

  // ---------------------------------------------------------------- what a poll amounts to

  /** A batch as `claimPendingBatch` hands it out: distinct rows. */
  predicate Distinct(batch: seq<Claimed>) {
    forall i, j :: 0 <= i < j < |batch| ==> batch[i].id != batch[j].id
  }

  /** What the loop makes of one claimed row. */
  function Settled(r: Row, fate: Fate, maxAttempts: int): Row {
    if fate == Works then r.(status := Processed)
    else r.(status := if r.attempts + 1 >= maxAttempts then FailedDlq else Pending, attempts := r.attempts + 1)
  }

  lemma {:induction false} UntouchedBy(n: nat, rows: Rows, batch: seq<Claimed>, fates: nat -> Fate, maxAttempts: int, k: nat)
    requires n <= |batch| && k < |rows| && forall i :: 0 <= i < n ==> batch[i].id != k
    ensures SettleFirst(n, rows, batch, fates, maxAttempts)[k] == rows[k]
  {
    if n > 0 {
      UntouchedBy(n - 1, rows, batch, fates, maxAttempts, k);
    }
  }

  lemma {:induction false} SettledBy(n: nat, rows: Rows, batch: seq<Claimed>, fates: nat -> Fate, maxAttempts: int, i: nat)
    requires i < n <= |batch| && Distinct(batch)
    requires batch[i].id < |rows| && rows[batch[i].id] == batch[i].row.(status := Inflight)
    ensures SettleFirst(n, rows, batch, fates, maxAttempts)[batch[i].id] == Settled(batch[i].row, fates(i), maxAttempts)
  {
    if i < n - 1 {
      SettledBy(n - 1, rows, batch, fates, maxAttempts, i);
      assert batch[i].id != batch[n - 1].id;
    } else {
      UntouchedBy(i, rows, batch, fates, maxAttempts, batch[i].id);
    }
  }

  function CountDead(n: nat, rows: Rows, batch: seq<Claimed>): nat
    requires n <= |batch|
  {
    if n == 0 then 0
    else CountDead(n - 1, rows, batch) + if batch[n - 1].id < |rows| && rows[batch[n - 1].id].status == FailedDlq then 1 else 0
  }

  lemma {:induction false} CountsAddUp(n: nat, after: Rows, batch: seq<Claimed>, fates: nat -> Fate, maxAttempts: int)
    requires n <= |batch|
    requires forall i :: 0 <= i < |batch| ==> batch[i].id < |after| && after[batch[i].id] == Settled(batch[i].row, fates(i), maxAttempts)
    ensures var r := CountFirst(n, batch, fates, maxAttempts);
            r.published + r.failed == r.claimed && r.deadLettered == CountDead(n, after, batch) && r.deadLettered <= r.failed
  {
    if n > 0 {
      CountsAddUp(n - 1, after, batch, fates, maxAttempts);
      assert batch[n - 1].id < |after|;
    }
  }

  datatype Poll = Poll(ids: seq<nat>, fates: nat -> Fate)

  function AfterPoll(rows: Rows, p: Poll, maxAttempts: int): Rows
    requires forall i :: 0 <= i < |p.ids| ==> p.ids[i] < |rows|
  {
    SettleFirst(|p.ids|, Claim(rows, p.ids), Snapshot(rows, p.ids), p.fates, maxAttempts)
  }

  lemma PollSettlesEach(rows: Rows, p: Poll, limit: nat, maxAttempts: int)
    requires CanClaim(rows, p.ids, limit)
    ensures var after := AfterPoll(rows, p, maxAttempts);
            && |after| == |rows|
            && (forall i :: 0 <= i < |p.ids| ==> after[p.ids[i]] == Settled(rows[p.ids[i]], p.fates(i), maxAttempts))
            && (forall k :: 0 <= k < |rows| && k !in p.ids ==> after[k] == rows[k])
  {
    var batch, claimed := Snapshot(rows, p.ids), Claim(rows, p.ids);
    var n := |p.ids|;
    assert Distinct(batch);
    forall i | 0 <= i < n
      ensures AfterPoll(rows, p, maxAttempts)[p.ids[i]] == Settled(rows[p.ids[i]], p.fates(i), maxAttempts)
    {
      assert p.ids[i] in p.ids;
      SettledBy(n, claimed, batch, p.fates, maxAttempts, i);
    }
    forall k | 0 <= k < |rows| && k !in p.ids
      ensures AfterPoll(rows, p, maxAttempts)[k] == rows[k]
    {
      assert forall i :: 0 <= i < n ==> p.ids[i] in p.ids;
      UntouchedBy(n, claimed, batch, p.fates, maxAttempts, k);
    }
  }

  /** What one claimed row has come to. */
  predicate Accounted(before: Row, after: Row, fate: Fate) {
    && after.status != Inflight && (after.status == Processed <==> fate == Works)
    && after.attempts == before.attempts + if fate == Works then 0 else 1
  }

  predicate AddsUp(r: PollResult, n: nat, dead: nat) {
    r.claimed == n && r.published + r.failed == r.claimed && r.deadLettered == dead
  }

  predicate RowsAccounted(rows: Rows, after: Rows, p: Poll)
    requires |after| == |rows| && forall i :: 0 <= i < |p.ids| ==> p.ids[i] < |rows|
  {
    && (forall i :: 0 <= i < |p.ids| ==> Accounted(rows[p.ids[i]], after[p.ids[i]], p.fates(i)))
    && (forall k :: 0 <= k < |rows| && k !in p.ids ==> after[k] == rows[k])
  }

  lemma RowsSettled(rows: Rows, p: Poll, limit: nat, maxAttempts: int)
    requires CanClaim(rows, p.ids, limit)
    ensures |AfterPoll(rows, p, maxAttempts)| == |rows| && RowsAccounted(rows, AfterPoll(rows, p, maxAttempts), p)
  {
    PollSettlesEach(rows, p, limit, maxAttempts);
    var after := AfterPoll(rows, p, maxAttempts);
    forall i | 0 <= i < |p.ids|
      ensures Accounted(rows[p.ids[i]], after[p.ids[i]], p.fates(i))
    {
      assert after[p.ids[i]] == Settled(rows[p.ids[i]], p.fates(i), maxAttempts);
    }
  }

  lemma CountsSettled(rows: Rows, p: Poll, limit: nat, maxAttempts: int)
    requires CanClaim(rows, p.ids, limit)
    ensures AddsUp(CountFirst(|p.ids|, Snapshot(rows, p.ids), p.fates, maxAttempts), |p.ids|,
                   CountDead(|p.ids|, AfterPoll(rows, p, maxAttempts), Snapshot(rows, p.ids)))
  {
    PollSettlesEach(rows, p, limit, maxAttempts);
    CountsAddUp(|p.ids|, AfterPoll(rows, p, maxAttempts), Snapshot(rows, p.ids), p.fates, maxAttempts);
  }

  /** A completed poll accounts for every row it claimed: it published or failed each, left
      none INFLIGHT, and reports as dead-lettered exactly the ones that are now FAILED_DLQ;
      each failure cost its row one attempt; no other row was touched. */
  lemma PollAccounts(rows: Rows, p: Poll, limit: nat, maxAttempts: int)
    requires CanClaim(rows, p.ids, limit)
    ensures |AfterPoll(rows, p, maxAttempts)| == |rows| && RowsAccounted(rows, AfterPoll(rows, p, maxAttempts), p)
    ensures AddsUp(CountFirst(|p.ids|, Snapshot(rows, p.ids), p.fates, maxAttempts), |p.ids|,
                   CountDead(|p.ids|, AfterPoll(rows, p, maxAttempts), Snapshot(rows, p.ids)))
  {
    RowsSettled(rows, p, limit, maxAttempts);
    CountsSettled(rows, p, limit, maxAttempts);
  }

  // ---------------------------------------------------------------- draining

  function Left(r: Row, maxAttempts: int): nat {
    if r.status != Pending then 0 else if maxAttempts - r.attempts >= 1 then maxAttempts - r.attempts else 1
  }

  /** The attempts that pending rows still have. */
  function Budget(rows: Rows, maxAttempts: int): nat {
    if rows == [] then 0 else Left(rows[0], maxAttempts) + Budget(rows[1..], maxAttempts)
  }

  lemma {:induction false} BudgetShrinks(rows: Rows, after: Rows, maxAttempts: int)
    requires |after| == |rows|
    requires forall k :: 0 <= k < |rows| ==> Left(after[k], maxAttempts) <= Left(rows[k], maxAttempts)
    ensures Budget(after, maxAttempts) <= Budget(rows, maxAttempts)
    ensures (exists k :: 0 <= k < |rows| && Left(after[k], maxAttempts) < Left(rows[k], maxAttempts)) ==> Budget(after, maxAttempts) < Budget(rows, maxAttempts)
  {
    if rows != [] {
      assert forall k :: 0 <= k < |rows| - 1 ==> after[1..][k] == after[k + 1] && rows[1..][k] == rows[k + 1];
      BudgetShrinks(rows[1..], after[1..], maxAttempts);
      if k :| 0 <= k < |rows| && Left(after[k], maxAttempts) < Left(rows[k], maxAttempts) {
        assert k > 0 ==> after[1..][k - 1] == after[k] && rows[1..][k - 1] == rows[k];
      }
    }
  }

  lemma {:induction false} NoBudgetNoPending(rows: Rows, maxAttempts: int)
    ensures Budget(rows, maxAttempts) == 0 <==> forall k :: 0 <= k < |rows| ==> rows[k].status != Pending
  {
    if rows != [] {
      NoBudgetNoPending(rows[1..], maxAttempts);
      assert forall k :: 0 <= k < |rows| - 1 ==> rows[1..][k] == rows[k + 1];
      assert rows[0] == rows[0];
    }
  }

  lemma PollSpendsBudget(rows: Rows, p: Poll, limit: nat, maxAttempts: int)
    requires CanClaim(rows, p.ids, limit)
    ensures var after := AfterPoll(rows, p, maxAttempts);
            && |after| == |rows|
            && (forall k :: 0 <= k < |rows| && rows[k].status != Inflight ==> after[k].status != Inflight)
            && Budget(after, maxAttempts) <= Budget(rows, maxAttempts)
            && (p.ids != [] ==> Budget(after, maxAttempts) < Budget(rows, maxAttempts))
  {
    var after := AfterPoll(rows, p, maxAttempts);
    PollSettlesEach(rows, p, limit, maxAttempts);
    forall k | 0 <= k < |rows|
      ensures Left(after[k], maxAttempts) <= Left(rows[k], maxAttempts)
      ensures k in p.ids ==> Left(after[k], maxAttempts) < Left(rows[k], maxAttempts)
      ensures rows[k].status != Inflight ==> after[k].status != Inflight
    {
      if k in p.ids {
        var i :| 0 <= i < |p.ids| && p.ids[i] == k;
        assert after[p.ids[i]] == Settled(rows[p.ids[i]], p.fates(i), maxAttempts);
      }
    }
    BudgetShrinks(rows, after, maxAttempts);
    if p.ids != [] {
      assert p.ids[0] in p.ids;
    }
  }

  /** Polls that all complete, each claiming something. */
  ghost predicate BusyPolls(rows: Rows, polls: seq<Poll>, limit: nat, maxAttempts: int)
    decreases |polls|
  {
    polls == [] ||
    (CanClaim(rows, polls[0].ids, limit) && polls[0].ids != [] && BusyPolls(AfterPoll(rows, polls[0], maxAttempts), polls[1..], limit, maxAttempts))
  }

  function AfterPolls(rows: Rows, polls: seq<Poll>, limit: nat, maxAttempts: int): Rows
    requires BusyPolls(rows, polls, limit, maxAttempts)
    decreases |polls|
  {
    if polls == [] then rows else AfterPolls(AfterPoll(rows, polls[0], maxAttempts), polls[1..], limit, maxAttempts)
  }

  predicate AllTerminal(rows: Rows) {
    forall k :: 0 <= k < |rows| ==> rows[k].status == Processed || rows[k].status == FailedDlq
  }

  predicate NoneInflight(rows: Rows) {
    forall k :: 0 <= k < |rows| ==> rows[k].status != Inflight
  }

  /** A poll would claim nothing, whatever the database picks. */
  ghost predicate NoWork(rows: Rows, limit: nat) {
    limit >= 1 && forall ids :: CanClaim(rows, ids, limit) ==> ids == []
  }

  lemma NoWorkMeansTerminal(rows: Rows, limit: nat, maxAttempts: int)
    requires NoneInflight(rows) && (NoWork(rows, limit) || Budget(rows, maxAttempts) == 0)
    ensures AllTerminal(rows)
  {
    NoBudgetNoPending(rows, maxAttempts);
    forall k | 0 <= k < |rows| && NoWork(rows, limit)
      ensures rows[k].status != Pending
    {
      assert rows[k].status == Pending ==> CanClaim(rows, [k], limit);
    }
  }

  /** With nothing appended, reaped or crashing, only as many polls can find work as pending
      rows have attempts left, and once none finds any every row is terminal. */
  lemma {:induction false} OutboxDrains(rows: Rows, polls: seq<Poll>, limit: nat, maxAttempts: int)
    requires NoneInflight(rows) && BusyPolls(rows, polls, limit, maxAttempts)
    ensures |polls| + Budget(AfterPolls(rows, polls, limit, maxAttempts), maxAttempts) <= Budget(rows, maxAttempts)
    ensures NoWork(AfterPolls(rows, polls, limit, maxAttempts), limit) || |polls| == Budget(rows, maxAttempts) ==>
              AllTerminal(AfterPolls(rows, polls, limit, maxAttempts))
    decreases |polls|
  {
    if polls == [] {
      if NoWork(rows, limit) || Budget(rows, maxAttempts) == 0 { NoWorkMeansTerminal(rows, limit, maxAttempts); }
    } else {
      PollSpendsBudget(rows, polls[0], limit, maxAttempts);
      OutboxDrains(AfterPoll(rows, polls[0], maxAttempts), polls[1..], limit, maxAttempts);
    }
  }
}
