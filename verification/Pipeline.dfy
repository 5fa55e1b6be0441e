/** The delivery pipeline as a step system: outbox rows, publisher replicas, topics,
    consumers with bounded retry, dead-letter topics and replay consumers, with a crash
    possible between any two awaits. Every step is what one participant does up to its next
    await. */
module Pipeline {
  import opened Basics
  import opened Outbox
  import opened Tracing

  datatype Part = Part(topic: string, index: nat)

  /** A message value after `JSON.parse` and the envelope check. */
  datatype Value = Tombstone | Poison(raw: string) | Event(event: CloudEvent)

  datatype MsgOrigin = Published(row: nat) | Replayed(dead: nat) | Foreign

  /** `replays` is the `x-dlq-replay-count` header, 0 when absent; `origin` and `root` are
      history: who produced the message, and which message it is a replay of in the end, if that
      is known. */
  datatype Msg = Msg(part: Part, value: Value, replays: nat, origin: MsgOrigin, root: Option<nat>)

  datatype DeadOrigin = Buried(msg: nat) | ForeignDead

  /** `original` is the `x-original-topic` header. */
  datatype Dead = Dead(part: Part, value: Value, original: Option<string>, replays: nat, origin: DeadOrigin, root: Option<nat>)

  /** `preserves` is whether the dead-letter producer copies the replay count, which its input
      does not carry; `handles` are the event types the router has a handler for. */
  datatype Config = Config(sourcePrefix: string, maxAttempts: int, batchSize: nat, maxRetries: int, maxReplays: int,
                           handles: set<string>, preserves: bool, topicOf: string -> string)

  // ---------------------------------------------------------------- state

  /** Where a publisher is in `pollOnce`; the current row is the first of its batch. */
  datatype Job = Idle | Publishing(batch: seq<Claimed>) | Marking(batch: seq<Claimed>) | Failing(batch: seq<Claimed>)

  /** Where a consumer is in `eachMessage`. */
  datatype Work = Waiting | Routing(msg: nat, attempt: nat) | Burying(msg: nat) | Committing(msg: nat)

  datatype Consumer = Consumer(pos: nat, work: Work)

  datatype ReplayWork = Resting | Resending(dead: nat) | Finishing(dead: nat)

  datatype Replayer = Replayer(pos: nat, work: ReplayWork)

  /** A consumer instance is assigned one partition; another assignment is another instance. */
  datatype Id = Id(part: Part, instance: nat)

  /** `topic` holds the messages of all partitions in the order they were appended, and a
      message's offset is its index there: increasing within a partition, with gaps. */
  datatype State = State(rows: Rows, topic: seq<Msg>, dlq: seq<Dead>, committed: map<Part, nat>, dlqCommitted: map<Part, nat>,
                         publishers: map<nat, Job>, consumers: map<Id, Consumer>, replayers: map<Id, Replayer>,
                         handled: set<nat>, effects: map<EventId, CloudEvent>)

  function Offset(m: map<Part, nat>, p: Part): nat {
    if p in m then m[p] else 0
  }

  function JobOf(s: State, p: nat): Job {
    if p in s.publishers then s.publishers[p] else Idle
  }

  const START := State([], [], [], map[], map[], map[], map[], map[], {}, map[])

  predicate Initial(s: State) {
    s == START
  }

  // ---------------------------------------------------------------- steps

  /** How one call of the router goes: whether the handler throws, and if it does, whether it
      had its effect all the same and whether the retry hook throws after it. */
  datatype Call = Call(ok: bool, effect: bool, hookThrows: bool)

  datatype EnvStep =
    | Append(row: Row)
    | Inject(part: Part, value: Value, replays: nat)
    | InjectDead(part: Part, value: Value, original: Option<string>, replays: nat)
    | ReapRow(id: nat)

  datatype PubStep =
    | ClaimBatch(p: nat, ids: seq<nat>, io: Io)
    | Publish(p: nat, part: Part, io: Io)
    | MarkDone(p: nat, io: Io)
    | MarkFail(p: nat, io: Io)
    | CrashPublisher(p: nat)

  datatype ConStep =
    | Join(c: Id)
    | Crash(c: Id)
    | Deliver(c: Id, msg: nat)
    | Handle(c: Id, call: Call)
    | Bury(c: Id, deadPart: Part, io: Io)
    | Commit(c: Id, io: Io)

  datatype RepStep =
    | JoinReplay(c: Id)
    | CrashReplay(c: Id)
    | DeliverDead(c: Id, dead: nat)
    | Resend(c: Id, part: Part, io: Io)
    | CommitDead(c: Id, io: Io)

  datatype Step = Env(env: EnvStep) | Pub(pub: PubStep) | Con(con: ConStep) | Rep(rep: RepStep)

  function DeadTopic(topic: string): string {
    topic + ".DLQ"
  }

  function Cap(maxReplays: int): nat {
    if maxReplays < 0 then 0 else maxReplays
  }

  // Everyone else: business transactions, other producers, the reaper.

  predicate EnabledEnv(cfg: Config, s: State, e: EnvStep) {
    match e
    case Append(row) => row.status == Pending
    case Inject(_, v, n) => (v.Event? ==> v.event.id.ForeignId?) && n <= Cap(cfg.maxReplays)
    case InjectDead(_, v, _, _) => v.Event? ==> v.event.id.ForeignId?
    case ReapRow(_) => true
  }

  function NextEnv(s: State, e: EnvStep): State {
    match e
    case Append(row) => s.(rows := s.rows + [row])
    case Inject(p, v, n) => s.(topic := s.topic + [Msg(p, v, n, Foreign, Some(|s.topic|))])
    case InjectDead(p, v, t, n) => s.(dlq := s.dlq + [Dead(p, v, t, n, ForeignDead, None)])
    case ReapRow(id) => s.(rows := Reap(s.rows, id))
  }

  // Publisher replicas.

  predicate EnabledPub(cfg: Config, s: State, e: PubStep) {
    match e
    case ClaimBatch(p, ids, _) => JobOf(s, p).Idle? && CanClaim(s.rows, ids, cfg.batchSize)
    case Publish(p, part, _) =>
      JobOf(s, p).Publishing? && JobOf(s, p).batch != [] && part.topic == cfg.topicOf(JobOf(s, p).batch[0].row.eventType)
    case MarkDone(p, _) => JobOf(s, p).Marking? && JobOf(s, p).batch != []
    case MarkFail(p, _) => JobOf(s, p).Failing? && JobOf(s, p).batch != []
    case CrashPublisher(_) => true
  }

  function Resume(batch: seq<Claimed>): Job {
    if batch == [] then Idle else Publishing(batch)
  }

  /** What the step leaves in the table, what it puts on the topic, and where it goes on. */
  function RowsAfter(cfg: Config, s: State, e: PubStep): Rows
    requires EnabledPub(cfg, s, e)
  {
    match e
    case ClaimBatch(_, ids, io) => if io == FailedClean then s.rows else Claim(s.rows, ids)
    case MarkDone(p, io) => if io == FailedClean then s.rows else MarkProcessed(s.rows, JobOf(s, p).batch[0].id)
    case MarkFail(p, io) =>
      var c := JobOf(s, p).batch[0];
      if io == FailedClean then s.rows else MarkFailed(s.rows, c.id, c.row.attempts, cfg.maxAttempts)
    case _ => s.rows
  }

  function Publishes(cfg: Config, s: State, e: PubStep): seq<Msg>
    requires EnabledPub(cfg, s, e)
  {
    if e.Publish? && e.io != FailedClean then
      var c := JobOf(s, e.p).batch[0];
      [Msg(e.part, Event(Envelope(cfg.sourcePrefix, c)), 0, Published(c.id), Some(|s.topic|))]
    else []
  }

  function JobAfter(cfg: Config, s: State, e: PubStep): Job
    requires EnabledPub(cfg, s, e)
  {
    match e
    case ClaimBatch(_, ids, io) => if io == Done then Resume(Snapshot(s.rows, ids)) else Idle
    case Publish(p, _, io) => if io == Done then Marking(JobOf(s, p).batch) else Failing(JobOf(s, p).batch)
    case MarkDone(p, io) => if io == Done then Resume(JobOf(s, p).batch[1..]) else Failing(JobOf(s, p).batch)
    case MarkFail(p, io) => if io == Done then Resume(JobOf(s, p).batch[1..]) else Idle
    case CrashPublisher(_) => Idle
  }

  function NextPub(cfg: Config, s: State, e: PubStep): State
    requires EnabledPub(cfg, s, e)
  {
    s.(rows := RowsAfter(cfg, s, e), topic := s.topic + Publishes(cfg, s, e), publishers := s.publishers[e.p := JobAfter(cfg, s, e)])
  }

  // Consumers.

  predicate NextFor(topic: seq<Msg>, part: Part, pos: nat, i: nat) {
    pos <= i < |topic| && topic[i].part == part && forall k :: pos <= k < i ==> topic[k].part != part
  }

  predicate EnabledCon(cfg: Config, s: State, e: ConStep) {
    match e
    case Join(c) => c !in s.consumers
    case Crash(c) => true
    case Deliver(c, i) => c in s.consumers && s.consumers[c].work == Waiting && NextFor(s.topic, c.part, s.consumers[c].pos, i)
    case Handle(c, call) =>
      && c in s.consumers && s.consumers[c].work.Routing? && s.consumers[c].work.msg < |s.topic|
      && s.topic[s.consumers[c].work.msg].value.Event?
    case Bury(c, d, _) =>
      && c in s.consumers && s.consumers[c].work.Burying? && s.consumers[c].work.msg < |s.topic|
      && d.topic == DeadTopic(c.part.topic)
    case Commit(c, _) => c in s.consumers && s.consumers[c].work.Committing?
  }

  /** `startTraceContext` throws for this event, outside any try block. */
  predicate Untraceable(v: Value) {
    v.Event? && TraceThrows(v.event.traceparent)
  }

  function FirstWork(cfg: Config, v: Value, i: nat): Work {
    match v
    case Tombstone => Committing(i)
    case Poison(_) => Burying(i)
    case Event(_) => if cfg.maxRetries >= 0 then Routing(i, 0) else Burying(i)
  }

  /** How often `routeWithRetry` may call the router. */
  function CallBudget(cfg: Config): nat {
    if cfg.maxRetries < 0 then 0 else cfg.maxRetries + 1
  }

  /** After one call of the router: no handler counts as success, and a retry hook that throws
      ends the retries. */
  function WorkAfterCall(cfg: Config, e: CloudEvent, i: nat, attempt: nat, call: Call): Work {
    if e.eventType !in cfg.handles || call.ok then Committing(i)
    else if attempt < cfg.maxRetries && !call.hookThrows then Routing(i, attempt + 1)
    else Burying(i)
  }

  /** Where the step leaves the consumer. None is an exception out of `eachMessage`, which like
      a crash ends in a restart from the committed offset. */
  function ConsumerAfter(cfg: Config, s: State, e: ConStep): Option<Consumer>
    requires EnabledCon(cfg, s, e)
  {
    match e
    case Join(c) => Some(Consumer(Offset(s.committed, c.part), Waiting))
    case Crash(_) => None
    case Deliver(c, i) => if Untraceable(s.topic[i].value) then None else Some(Consumer(s.consumers[c].pos, FirstWork(cfg, s.topic[i].value, i)))
    case Handle(c, call) =>
      var w := s.consumers[c].work;
      Some(Consumer(s.consumers[c].pos, WorkAfterCall(cfg, s.topic[w.msg].value.event, w.msg, w.attempt, call)))
    case Bury(c, _, io) => if io == Done then Some(Consumer(s.consumers[c].pos, Committing(s.consumers[c].work.msg))) else None
    case Commit(c, io) => if io == Done then Some(Consumer(s.consumers[c].work.msg + 1, Waiting)) else None
  }

  function DeadLetters(cfg: Config, s: State, e: ConStep): seq<Dead>
    requires EnabledCon(cfg, s, e)
  {
    if e.Bury? && e.io != FailedClean then
      var i := s.consumers[e.c].work.msg;
      var m := s.topic[i];
      [Dead(e.deadPart, m.value, Some(e.c.part.topic), if cfg.preserves then m.replays else 0, Buried(i), m.root)]
    else []
  }

  function Committed(cfg: Config, s: State, e: ConStep): map<Part, nat>
    requires EnabledCon(cfg, s, e)
  {
    if e.Commit? && e.io != FailedClean then s.committed[e.c.part := s.consumers[e.c].work.msg + 1] else s.committed
  }

  /** Whether this step runs a handler, to the end or far enough to have its effect. */
  predicate Runs(cfg: Config, s: State, e: ConStep)
    requires EnabledCon(cfg, s, e)
  {
    e.Handle? && s.topic[s.consumers[e.c].work.msg].value.event.eventType in cfg.handles
  }

  /** A handler keyed by event id: the first application of an id is the one that stays. */
  function Apply(effects: map<EventId, CloudEvent>, e: CloudEvent): map<EventId, CloudEvent> {
    if e.id in effects then effects else effects[e.id := e]
  }

  function Effects(cfg: Config, s: State, e: ConStep): map<EventId, CloudEvent>
    requires EnabledCon(cfg, s, e)
  {
    if Runs(cfg, s, e) && (e.call.ok || e.call.effect) then Apply(s.effects, s.topic[s.consumers[e.c].work.msg].value.event) else s.effects
  }

  function Handled(cfg: Config, s: State, e: ConStep): set<nat>
    requires EnabledCon(cfg, s, e)
  {
    if Runs(cfg, s, e) && e.call.ok then s.handled + {s.consumers[e.c].work.msg} else s.handled
  }

  function Put<V>(m: map<Id, V>, c: Id, v: Option<V>): map<Id, V> {
    if v.Some? then m[c := v.value] else m - {c}
  }

  function NextCon(cfg: Config, s: State, e: ConStep): State
    requires EnabledCon(cfg, s, e)
  {
    s.(dlq := s.dlq + DeadLetters(cfg, s, e), committed := Committed(cfg, s, e), handled := Handled(cfg, s, e),
       effects := Effects(cfg, s, e), consumers := Put(s.consumers, e.c, ConsumerAfter(cfg, s, e)))
  }

  // Replay consumers.

  predicate NextDeadFor(dlq: seq<Dead>, part: Part, pos: nat, j: nat) {
    pos <= j < |dlq| && dlq[j].part == part && forall k :: pos <= k < j ==> dlq[k].part != part
  }

  /** Neither skipped for want of a header nor given up. */
  predicate Replays(cfg: Config, d: Dead) {
    d.original.Some? && d.original.value != "" && d.replays < cfg.maxReplays
  }

  predicate EnabledRep(cfg: Config, s: State, e: RepStep) {
    match e
    case JoinReplay(c) => c !in s.replayers
    case CrashReplay(c) => true
    case DeliverDead(c, j) => c in s.replayers && s.replayers[c].work == Resting && NextDeadFor(s.dlq, c.part, s.replayers[c].pos, j)
    case Resend(c, part, _) =>
      && c in s.replayers && s.replayers[c].work.Resending? && s.replayers[c].work.dead < |s.dlq|
      && s.dlq[s.replayers[c].work.dead].original == Some(part.topic)
    case CommitDead(c, _) => c in s.replayers && s.replayers[c].work.Finishing?
  }

  function ReplayerAfter(cfg: Config, s: State, e: RepStep): Option<Replayer>
    requires EnabledRep(cfg, s, e)
  {
    match e
    case JoinReplay(c) => Some(Replayer(Offset(s.dlqCommitted, c.part), Resting))
    case CrashReplay(_) => None
    case DeliverDead(c, j) => Some(Replayer(s.replayers[c].pos, if Replays(cfg, s.dlq[j]) then Resending(j) else Finishing(j)))
    case Resend(c, _, io) => if io == Done then Some(Replayer(s.replayers[c].pos, Finishing(s.replayers[c].work.dead))) else None
    case CommitDead(c, io) => if io == Done then Some(Replayer(s.replayers[c].work.dead + 1, Resting)) else None
  }

  function Resends(cfg: Config, s: State, e: RepStep): seq<Msg>
    requires EnabledRep(cfg, s, e)
  {
    if e.Resend? && e.io != FailedClean then
      var j := s.replayers[e.c].work.dead;
      [Msg(e.part, s.dlq[j].value, s.dlq[j].replays + 1, Replayed(j), s.dlq[j].root)]
    else []
  }

  function DeadCommitted(cfg: Config, s: State, e: RepStep): map<Part, nat>
    requires EnabledRep(cfg, s, e)
  {
    if e.CommitDead? && e.io != FailedClean then s.dlqCommitted[e.c.part := s.replayers[e.c].work.dead + 1] else s.dlqCommitted
  }

  function NextRep(cfg: Config, s: State, e: RepStep): State
    requires EnabledRep(cfg, s, e)
  {
    s.(topic := s.topic + Resends(cfg, s, e), dlqCommitted := DeadCommitted(cfg, s, e),
       replayers := Put(s.replayers, e.c, ReplayerAfter(cfg, s, e)))
  }

  // All of them.

  predicate Enabled(cfg: Config, s: State, e: Step) {
    match e
    case Env(x) => EnabledEnv(cfg, s, x)
    case Pub(x) => EnabledPub(cfg, s, x)
    case Con(x) => EnabledCon(cfg, s, x)
    case Rep(x) => EnabledRep(cfg, s, x)
  }

  function Next(cfg: Config, s: State, e: Step): State
    requires Enabled(cfg, s, e)
  {
    match e
    case Env(x) => NextEnv(s, x)
    case Pub(x) => NextPub(cfg, s, x)
    case Con(x) => NextCon(cfg, s, x)
    case Rep(x) => NextRep(cfg, s, x)
  }

  predicate IsRun(cfg: Config, s: State, es: seq<Step>)
    decreases |es|
  {
    es == [] || (Enabled(cfg, s, es[0]) && IsRun(cfg, Next(cfg, s, es[0]), es[1..]))
  }

  function After(cfg: Config, s: State, es: seq<Step>): State
    requires IsRun(cfg, s, es)
    decreases |es|
  {
    if es == [] then s else After(cfg, Next(cfg, s, es[0]), es[1..])
  }

  lemma StepThen(cfg: Config, s: State, e: Step, es: seq<Step>)
    requires Enabled(cfg, s, e) && IsRun(cfg, Next(cfg, s, e), es)
    ensures IsRun(cfg, s, [e] + es) && After(cfg, s, [e] + es) == After(cfg, Next(cfg, s, e), es)
  {
    assert ([e] + es)[1..] == es;
  }

  lemma {:induction false} RunThen(cfg: Config, s: State, es: seq<Step>, more: seq<Step>)
    requires IsRun(cfg, s, es) && IsRun(cfg, After(cfg, s, es), more)
    ensures IsRun(cfg, s, es + more) && After(cfg, s, es + more) == After(cfg, After(cfg, s, es), more)
    decreases |es|
  {
    if es == [] {
      assert es + more == more;
    } else {
      RunThen(cfg, Next(cfg, s, es[0]), es[1..], more);
      assert (es + more)[1..] == es[1..] + more;
    }
  }

  lemma OneStep(cfg: Config, s: State, e: Step)
    requires Enabled(cfg, s, e)
    ensures IsRun(cfg, s, [e]) && After(cfg, s, [e]) == Next(cfg, s, e)
  {
    StepThen(cfg, s, e, []);
    assert [e] + [] == [e];
  }
}
