# Verification of the shared kernel

A Dafny model of the parts of `packages/shared-kernel` that carry its delivery, consistency and
protection promises, with proofs of those promises. `dafny verify dfyconfig.toml` checks all of it.

| file | what it models |
|---|---|
| `Outbox.dfy` | the outbox store contract and the polling publisher |
| `Pipeline.dfy` | the whole delivery pipeline as a step system: rows, topics, dead-letter topics, offsets, publisher replicas, consumers, replay consumers, the reaper, and a crash between any two awaits |
| `Tracing.dfy`, `Blocking.dfy` | which `traceparent` values make `startTraceContext` throw, and what such an event does to its partition |
| `NoLoss.dfy`, `Provenance.dfy` | invariants of every run of the pipeline and the theorems about them |
| `Drain.dfy`, `Originals.dfy` | termination of the replay loop, with its cost for one message and for all |
| `Replicas.dfy`, `Publishing.dfy` | publisher replicas side by side: ownership of claimed rows, when PROCESSED is final, and how the outbox is emptied |
| `Polls.dfy`, `Consumers.dfy`, `DlqReplay.dfy` | the publisher, the consumer and the replay consumer as they run, each shown to be a run of the pipeline |
| `Wire.dfy`, `MembershipCodec.dfy`, `AiQueryCodec.dfy` | the wire format and the generated codecs |
| `CommandBus.dfy`, `Handlers.dfy`, `Sagas.dfy` | retry around transaction around handler; registration; sagas, and compensations that run as the programs they are |
| `CacheKeys.dfy`, `MembershipCache.dfy` | the two-entry membership cache against the authoritative source |
| `Breaker.dfy` | the circuit breaker under interleaved calls |
| `Redact.dfy` | deep redaction over a graph of objects |
| `Basics.dfy` | what the others share |

## How to read it

Objects whose methods change fields are classes; what their methods do is tied to functions, and the
lemmas are about those functions. A call of the outside world is a parameter that says how it ends.
Where a call may throw *after* it took effect, both ways of throwing are modelled (`Io`, `Fate`).

The pipeline is one state and one step function. Topics of all partitions share one append-only log,
so a message's offset is its index there: increasing within a partition, with gaps, as offsets may
have. A consumer that throws out of `eachMessage`, like one that crashes, restarts from the committed
offset, and two instances may hold the same partition at once. `DeadLetterInput` has no header field,
so whether a dead letter carries on the replay count of the message it buries is the parameter
`preserves`; the safety theorems hold either way, and termination is shown to depend on it.

Results worth a look, because the code does not do the obvious thing:

- `SettledForGoodIff`: marks carry only an id, so a PROCESSED row can go back to PENDING or FAILED_DLQ,
  by a reaper that races a slow publisher, or by a `markProcessed` that works but is reported as a
  failure. Rows stay settled if and only if neither happens; each alone undoes any row
  (`ProcessedIsNotTerminal`, `UnsettledByItsOwnMark`).
- `TerminatesIff`: crash-free runs end if and only if the replay count survives a second
  dead-lettering (or replays are off). Otherwise one unparseable message goes round for ever, and the state
  it does so from is one the pipeline gets to.
- `AlwaysAgreesIff`: with a cache, `checkMembership` is the uncached answer on every run if and only if
  role writes and permission writes both delete their keys. The second lookup files the user's current
  permissions under the cached role, so a stale role reaches other members (`StaleRoleReachesOthers`).
- `OutsideIsNotRolledBack`: a failed dispatch leaves the database as it was, but a transactional handler
  that also calls the outside leaves that behind, and no undo is registered for it.
- `GivenUpIff`: a dead letter that keeps its headers and keeps failing is given up if and only if its replay count is not NaN,
  not minus infinity, and not so far below zero that adding one to it is lost in rounding; otherwise it
  goes round for ever. From a count of n that is a natural number it is replayed exactly
  `maxReplays - n` times (`ReplayedExactly`).
- `UntraceableBlocks`, `DrainedIff`: `startTraceContext` is called outside every `try`. An event whose
  `traceparent` cannot be made a string, an object with a `toString` of its own say, is therefore never
  handled, dead-lettered or committed, and nothing after it in its partition is either; nothing else
  keeps a drain from dealing with a message.
- `RedactsIff`: `deepRedact` marks what it has *entered*, not what it is inside of, so an object
  mentioned twice passes through as it is the second time; and an own key `__proto__` is lost, because
  assigning to it sets the copy's prototype. Its doc comment promises a new graph with every sensitive
  key blanked wherever it appears; that holds exactly when no object is reached by two paths and none
  that is reached has such a key.
- `SingleFlightIff`: at most one call is in flight until the next success exactly from the states with
  nothing in flight but the probe; a straggler admitted before the trip may run beside it.
- `AiQueryCodec.ResponseRoundTrip`: the encoder's `!== 0` drops a score of -0, and nothing else is lost.
- `RefinesHistory`: with a threshold of zero or less the breaker starts closed all the same.
- `Bus.Register`: the handler is in the map before the sagas are validated, so a bus whose
  registration threw there still holds it.

## Model

| member | source | states |
|---|---|---|
| Outbox.OutboxPublisher.PublishAndMark | packages/shared-kernel/src/outbox/outbox-publisher.ts:85-111 | one row: publish then mark processed, any throw of either goes to markFailed; a throw of markFailed, before or after it took effect, or of the dead-letter hook escapes, and a mark that had worked then stays unless markFailed took effect over it; counters and hook as they then are; on the wire, unless the publish failed cleanly, an event that says what the row says, field by field |
| Outbox.OutboxPublisher.PollOnce | packages/shared-kernel/src/outbox/outbox-publisher.ts:73-114 | the rows after a poll, claim that throws included, are those of the specification up to the first row whose failure escapes, if any; onto the wire have come exactly the rows whose turn it was and whose publish took effect, each event saying what its row says: prefix and aggregate type, type, time, subject, data, tenant, partition key and trace; the hook fires once per dead-lettered row |
| Outbox.EventCarriesRow | packages/shared-kernel/src/outbox/outbox-publisher.ts:48-64 | the event made from a row says, field by field, what the row says |
| Outbox.ClaimIsExclusive | packages/shared-kernel/src/outbox/outbox.ports.ts:71-76 | what can be claimed after a claim is exactly what could be before, less the rows it has taken |
| Outbox.PollSettlesEach | packages/shared-kernel/src/outbox/outbox-publisher.ts:84-112 | a completed poll settles each claimed row by its own fate and touches no other |
| Outbox.PollAccounts | packages/shared-kernel/src/outbox/outbox-publisher.ts:73-114 | published + failed = claimed; deadLettered is the number of claimed rows now FAILED_DLQ; no claimed row stays INFLIGHT; a row is PROCESSED exactly when both calls worked; each failure costs one attempt |
| Outbox.PollSpendsBudget | packages/shared-kernel/src/outbox/outbox-publisher.ts:89-97 | every poll that claims something uses up attempts of pending rows |
| Outbox.OutboxDrains | packages/shared-kernel/src/outbox/outbox-publisher.ts:73-114 | without appends, reaping or crashes there are at most as many busy polls as pending rows have attempts left, and when no poll finds work every row is terminal |
| Polls.PollIsARun | packages/shared-kernel/src/outbox/outbox-publisher.ts:73-114 | a poll nobody interferes with, those that throw included, is a run of the pipeline and leaves the rows the poll leaves |
| Replicas.StepKeepsOwned | packages/shared-kernel/src/outbox/outbox.ports.ts:71-82 | every step but a reaping and a mark that fails after it worked keeps one owner per claimed row and leaves settled rows alone |
| Replicas.OneOwnerAndSettledForGood | directives/eventing_patterns.md:145 | on every run without those, crashes included, two replicas never hold the same row, and a row that is PROCESSED or FAILED_DLQ stays as it is |
| Replicas.ProcessedIsNotTerminal | packages/shared-kernel/src/outbox/outbox.ports.ts:78-82 | for every row and configuration some run without a mark that fails after it worked, so by reaping alone, marks the row PROCESSED and later takes that back |
| Replicas.UnsettledByItsOwnMark | packages/shared-kernel/src/outbox/outbox-publisher.ts:85-90 | so does some run without reaping, by one mark that works but is reported as failed |
| Replicas.SettledForGoodIff | packages/shared-kernel/src/outbox/outbox.ports.ts:78-82 | for every policy of what may happen: on all runs settled rows stay settled if and only if neither reaping nor such marks may happen, or nothing is ever claimed |
| Replicas.ReapLeavesSettled | packages/shared-kernel/src/outbox/outbox.ports.ts:78-82 | reaping by itself changes no row but one that is INFLIGHT, and that to PENDING |
| Publishing.WorkIsBounded | packages/shared-kernel/src/outbox/outbox-publisher.ts:73-114 | however the polls of any number of replicas interleave, each step uses up work; each row has one owner whose copy of its attempts is right, throughout, and none is stranded |
| Publishing.ReplicasDrainTheOutbox | packages/shared-kernel/src/outbox/outbox-publisher.ts:73-114 | so they can do at most as many steps as there was work, and when none can go on every row is PROCESSED or FAILED_DLQ |
| Publishing.RunStaysOrderly | packages/shared-kernel/src/outbox/outbox-publisher.ts:73-114 | one owner per claimed row and right copies of its attempts hold on every run without reaping and without marks that fail after they worked, crashes included; no row is stranded if besides no replica crashes and no claim or markFailed throws halfway |
| Publishing.ReachedOutboxDrains | packages/shared-kernel/src/outbox/outbox-publisher.ts:73-114 | so the same bound and the same end hold from every state that such a run reaches from the start |
| NoLoss.StepKeepsInv | packages/shared-kernel/src/messaging/resilient-consumer.ts:62-122 | every step of every participant keeps the invariant: PROCESSED implies published, a marking replica has published, and all below a position or a committed offset is dealt with |
| NoLoss.CommitKeepsConsumers | packages/shared-kernel/src/messaging/resilient-consumer.ts:63-64 | moving a committed offset past a message, even by an instance that has lost its partition, leaves no undealt message below it |
| NoLoss.CommitKeepsReplayers | packages/shared-kernel/src/messaging/dlq-replay-consumer.ts:91-92 | the same for dead-letter offsets |
| NoLoss.RunKeepsInv | packages/shared-kernel/src/messaging/dlq-replay-consumer.ts:90-138 | the invariant holds after any run |
| Provenance.NothingLost | packages/shared-kernel/src/messaging/resilient-consumer.ts:23-40 | on every run: PROCESSED implies published; each message below a committed offset was handled, skipped for want of a handler, a tombstone, or dead-lettered; each dead letter below one was republished, given up, or dropped for want of its original topic |
| Provenance.TrailEnds | packages/shared-kernel/src/messaging/dlq-replay-consumer.ts:90-138 | following a message through dead-letterings and replays ends at a copy that is still to be delivered or at rest for good |
| Provenance.EndToEnd | packages/shared-kernel/src/outbox/outbox-publisher.ts:48-64 | on every run an event that says what the published row says, field by field, is held on the row's own topic or as a dead letter of that topic, and so is the value of every message |
| Provenance.StepKeepsTraced | packages/shared-kernel/src/messaging/dlq-replay-consumer.ts:96-137 | every step keeps what links copies: a dead letter carries the value and topic of the message it buries, a replay the value of its dead letter on that topic with one more replay, and events naming a row are the row's |
| Provenance.ReplayCountsBounded | packages/shared-kernel/src/messaging/dlq-replay-consumer.ts:108-125 | no message ever carries a replay count above maxReplays, or above 0 if that is negative |
| Provenance.EffectivelyOnce | packages/shared-kernel/src/messaging/resilient-consumer.ts:36-39 | handler effects keyed by event id end as one event for each row, saying what the row says, whatever was republished, retried, redelivered or replayed; every handled event is among them, and nothing that no message of a handled type carried; a handler that threw after it took effect may have left its event too |
| Consumers.ResilientEventConsumer.Route | packages/shared-kernel/src/messaging/event-router.ts:39-74 | an event without a handler succeeds without a call; any other is as its handler goes |
| Consumers.ResilientEventConsumer.RouteWithRetry | packages/shared-kernel/src/messaging/resilient-consumer.ts:135-161 | calls until one does not throw or the retry hook does, at most maxRetries + 1 times, none for a negative maxRetries; sleeps between calls only; reports success exactly when the last call did not throw; the retry hook is called after every throw but the last the budget allows |
| Consumers.CallsMade | packages/shared-kernel/src/messaging/resilient-consumer.ts:137-140 | all calls but the last threw and their hooks did not, and stopping short of the budget means success or a hook that threw |
| Consumers.LastCallDecides | packages/shared-kernel/src/messaging/resilient-consumer.ts:135-161 | told by the last call that is made, the a-th: a + 1 calls, sleeps of retryBackoffMs * a * (a + 1) / 2, hook calls, and success exactly if that call did not throw |
| Consumers.NoCalls | packages/shared-kernel/src/messaging/resilient-consumer.ts:135-161 | with a negative maxRetries nothing is called or slept, and that is no success |
| Consumers.BackoffIs | packages/shared-kernel/src/messaging/resilient-consumer.ts:156 | r retries sleep exactly retryBackoffMs * r * (r + 1) / 2 |
| Consumers.ResilientEventConsumer.EachMessage | packages/shared-kernel/src/messaging/resilient-consumer.ts:62-122 | a message that is no event, and an event whose handler throws on every call that is made, is dead-lettered once and then committed, anything else is committed; the letter holds the message's value, topic, partition and offset, and says poison-pill exactly if it is no event; a throwing dead-letter send means no commit; exactly the throws of startTraceContext, of that send and of the commit escape |
| Consumers.VerdictIff | packages/shared-kernel/src/messaging/resilient-consumer.ts:68-122 | which messages end as dead letters, and for which reason |
| Consumers.HandlesAreARun | packages/shared-kernel/src/messaging/resilient-consumer.ts:135-161 | the retry loop is a run of the pipeline that ends ready to commit or to bury |
| Consumers.EachMessageIsARun | packages/shared-kernel/src/messaging/resilient-consumer.ts:62-122 | what eachMessage does, ending in a throw or not, is a run of the pipeline from any state where the message is next, with the dead letter, offset and handled set the method leaves |
| Consumers.LetterIsDead | packages/shared-kernel/src/messaging/resilient-consumer.ts:80-118 | the letter that is sent and the dead letter of the run agree on value, original topic and the message they come from; it is on that topic's .DLQ |
| Tracing.TraceThrowsIff | packages/shared-kernel/src/tracing/trace-context.ts:75-120 | the trace context throws for exactly those headers in which, through arrays alone, there is an object with a toString of its own |
| Blocking.UntraceableBlocks | packages/shared-kernel/src/messaging/resilient-consumer.ts:100 | on every run, whoever joins or crashes: an event whose trace context throws, and every message after it in its partition, is never handled and never dead-lettered, and no offset is committed past it |
| Blocking.ComesAgain | packages/shared-kernel/src/messaging/resilient-consumer.ts:63-100 | every restart meets it again and leaves everything as it was |
| Blocking.DrainedIff | packages/shared-kernel/src/messaging/resilient-consumer.ts:62-122 | when a crash-free run from any reachable state cannot go on, a message has been dealt with if and only if it is not such an event or behind one, or is a tombstone or without a handler |
| DlqReplay.ComputeDelayMs | packages/shared-kernel/src/messaging/dlq-replay-consumer.ts:74-78 | for any count, NaN and fractions included: the random share of its ceiling, rounded down; so below it and not negative when that is positive, else between the ceiling and zero |
| DlqReplay.DelayOfNatural | packages/shared-kernel/src/messaging/dlq-replay-consumer.ts:74-78 | for counts that are natural numbers that ceiling is min(maxReplayDelayMs, base * 2^count) |
| DlqReplay.DlqReplayConsumer.StringHeaders | packages/shared-kernel/src/messaging/dlq-replay-consumer.ts:120-125 | the republished headers say, name by name, just what the old ones say, as strings, buffers or first in a list, with the new count in place of the old, and without one named `__proto__` |
| DlqReplay.LookupIff | packages/shared-kernel/src/messaging/dlq-replay-consumer.ts:6-12 | a header reads as a text exactly if the one entry of its name is that string, that buffer, or a list that starts with one |
| DlqReplay.CourseIff | packages/shared-kernel/src/messaging/dlq-replay-consumer.ts:95-125 | with a topic and a decimal count n, however they are handed over: given up if n has reached maxReplays, else replayed to that topic with n + 1 |
| DlqReplay.SkipIff | packages/shared-kernel/src/messaging/dlq-replay-consumer.ts:98-106 | skipped exactly if no header names an original topic, or only an empty one |
| DlqReplay.DecimalOfNumeral | packages/shared-kernel/src/messaging/dlq-replay-consumer.ts:125 | the decimal numeral of n stands for n |
| DlqReplay.CountLivesOnTheMessage | packages/shared-kernel/src/messaging/dlq-replay-consumer.ts:51-54 | headers that survive a second dead-lettering give back the old count plus one, whatever kind of number it is, and the same original topic |
| DlqReplay.NotANumberIsNeverGivenUp | packages/shared-kernel/src/messaging/dlq-replay-consumer.ts:96-125 | a dead letter whose count is NaN is replayed, and if it comes back it is NaN and is replayed again |
| DlqReplay.GivenUpIff | packages/shared-kernel/src/messaging/dlq-replay-consumer.ts:96-125 | over all chains of a dead letter that is replayed and comes back with its headers: their length is bounded if and only if the count is a number at or above -(2^53 + 2) or positive infinity |
| DlqReplay.ReplayedExactly | packages/shared-kernel/src/messaging/dlq-replay-consumer.ts:108-125 | from a decimal numeral n, or none for 0, such a dead letter carries n + 1, n + 2 and so on, and is given up after exactly max(0, maxReplays - n) replays |
| DlqReplay.DlqReplayConsumer.EachMessage | packages/shared-kernel/src/messaging/dlq-replay-consumer.ts:90-138 | whatever the headers hold, a dead letter is skipped, given up or republished with one more replay; and in the headers' own words, buffers included: its value goes back to the topic they name, with what they say and the next count, its offset is committed exactly if the send and the hook have worked, and without a topic it is only committed; delay and hooks as stated |
| DlqReplay.EachDeadLetterIsARun | packages/shared-kernel/src/messaging/dlq-replay-consumer.ts:90-138 | what the replay consumer does with a dead letter whose count is a natural number, ending in a throw or not, is a run of the pipeline |
| Drain.ConPays | packages/shared-kernel/src/messaging/resilient-consumer.ts:62-161 | where dead-lettering carries the count on or nothing is replayed: every crash-free consumer step lowers the potential by what it costs, a dead-lettering included |
| Drain.RepPays | packages/shared-kernel/src/messaging/dlq-replay-consumer.ts:90-138 | so does every replay step, a republication included |
| Drain.DrainIsBounded | packages/shared-kernel/src/messaging/dlq-replay-consumer.ts:96-137 | where dead-lettering carries the count on or nothing is replayed: a crash-free run has at most as many steps, and as many handler calls per original message, as the potential it starts from |
| Drain.CallsPerMessage | packages/shared-kernel/src/messaging/resilient-consumer.ts:135-161 | the handler calls a message with k replays can still cost are (maxReplays - k + 1) * (maxRetries + 1) |
| Drain.CallsPerOriginal | packages/shared-kernel/src/messaging/dlq-replay-consumer.ts:96-137 | where dead-lettering carries the count on or nothing is replayed: a crash-free run makes at most that many handler calls for a message and all its replays |
| Originals.EveryOriginalIsBounded | packages/shared-kernel/src/messaging/dlq-replay-consumer.ts:96-137 | where dead-lettering carries the count on or nothing is replayed: on any run, whatever came before, a message just appended and all its replays cost at most (maxReplays + 1) * (maxRetries + 1) handler calls of a crash-free run from there |
| Originals.AllCallsBounded | packages/shared-kernel/src/messaging/dlq-replay-consumer.ts:96-137 | where dead-lettering carries the count on or nothing is replayed: a crash-free run makes at most that many handler calls for each message and dead letter that waits, whatever it makes of them |
| Drain.DrainsDry | packages/shared-kernel/src/messaging/resilient-consumer.ts:23-34 | a crash-free run that cannot go on has dealt with every dead letter, and with every message that does not wait behind an event whose trace context throws |
| Drain.DrainOut | packages/shared-kernel/src/messaging/dlq-replay-consumer.ts:90-138 | where dead-lettering carries the count on or nothing is replayed: from every state that keeps the invariant such a run exists |
| Drain.PingPong | packages/shared-kernel/src/messaging/interfaces/dead-letter.interface.ts:7-15 | without the count carried on, one poison pill makes crash-free runs of any length |
| Drain.TerminatesIff | packages/shared-kernel/src/messaging/dlq-replay-consumer.ts:51-54 | from every state the pipeline can reach crash-free runs are bounded, if and only if dead-lettering carries the count on or nothing is replayed |
| Wire.VarintRoundTrip | packages/shared-kernel/src/grpc/ai-query.ts:120-131 | Base 128 Varints: reading a written varint gives it back, whatever follows |
| Wire.VarintBytes | packages/shared-kernel/src/grpc/ai-query.ts:120-131 | Base 128 Varints: groups of seven bits, least significant first, the high bit on all but the last, none left over |
| Wire.Int32RoundTrip | packages/shared-kernel/src/grpc/ai-query.ts:127-129 | negative int32 values survive their ten-byte form |
| Wire.SkipPayload | packages/shared-kernel/src/grpc/ai-query.ts:168 | skipping by wire type passes exactly one field's payload, nested groups included |
| Wire.SkipRefuses | packages/shared-kernel/src/grpc/ai-query.ts:168 | skipping throws on wire types that do not exist, payloads and lengths beyond the input, and field number zero in a group |
| Wire.DecodeLoop | packages/shared-kernel/src/grpc/membership.ts:163-196 | every iteration consumes input, so decoding ends on all inputs and never moves back |
| Wire.DecodeIsFold | packages/shared-kernel/src/grpc/membership.ts:163-196 | decoding a written sequence of fields is folding their meanings, within any window |
| Wire.FoldIgnores | packages/shared-kernel/src/grpc/membership.ts:192-195 | fields without a meaning may be dropped from the fold |
| Wire.Writer.Join | packages/shared-kernel/src/grpc/ai-query.ts:227-232 | joining a fork leaves the outer bytes, the length of the inner ones and the inner ones |
| MembershipCodec.EncodeRequest | packages/shared-kernel/src/grpc/membership.ts:55-63 | writes exactly the non-default fields, in order |
| MembershipCodec.EncodeResponse | packages/shared-kernel/src/grpc/membership.ts:143-157 | writes exactly the non-default fields, one per permission, in order |
| MembershipCodec.RequestBytes | packages/shared-kernel/src/grpc/membership.ts:55-63 | the bytes, under the tags 10 and 18 |
| MembershipCodec.ResponseBytes | packages/shared-kernel/src/grpc/membership.ts:143-157 | the bytes, under the tags 8, 18 and 26 |
| MembershipCodec.DecodeRequest | packages/shared-kernel/src/grpc/membership.ts:65-95 | reads within its window what the specification reads, and throws exactly where it does |
| MembershipCodec.DecodeResponse | packages/shared-kernel/src/grpc/membership.ts:159-197 | the same for responses |
| MembershipCodec.RequestRoundTrip | packages/shared-kernel/src/grpc/membership.ts:54-95 | decoding an encoding gives the request back |
| MembershipCodec.ResponseRoundTrip | packages/shared-kernel/src/grpc/membership.ts:142-197 | decoding an encoding gives the response back |
| MembershipCodec.RequestIgnores | packages/shared-kernel/src/grpc/membership.ts:65-95 | whatever valid fields there are, parsing them succeeds and is parsing those of a known number and the expected wire type |
| MembershipCodec.ResponseIgnores | packages/shared-kernel/src/grpc/membership.ts:159-197 | the same for responses |
| MembershipCodec.RequestMerge | packages/shared-kernel/src/grpc/membership.ts:65-95 | two encodings in a row decode to the last non-default scalars |
| MembershipCodec.ResponseMerge | packages/shared-kernel/src/grpc/membership.ts:159-197 | the same, with permissions concatenated |
| MembershipCodec.RequestTolerantMerge | packages/shared-kernel/src/grpc/membership.ts:69-95 | and any valid fields with unknown numbers or other wire types between them change nothing |
| MembershipCodec.ResponseTolerantMerge | packages/shared-kernel/src/grpc/membership.ts:163-196 | the same for responses |
| AiQueryCodec.EncodeRequest | packages/shared-kernel/src/grpc/ai-query.ts:120-131 | writes exactly the non-default fields, in order |
| AiQueryCodec.EncodeResponse | packages/shared-kernel/src/grpc/ai-query.ts:220-234 | writes the non-default scalars and every source and chunk behind its length |
| AiQueryCodec.RequestBytes | packages/shared-kernel/src/grpc/ai-query.ts:120-131 | the bytes, under the tags 10, 18 and 24, negative numbers as 64-bit ones |
| AiQueryCodec.SourceBytes | packages/shared-kernel/src/grpc/ai-query.ts:332-340 | the bytes, under the tags 10 and 18 |
| AiQueryCodec.ChunkBytes | packages/shared-kernel/src/grpc/ai-query.ts:412-426 | the bytes, under the tags 10, 18, 26 and 33, neither zero written |
| AiQueryCodec.ResponseBytes | packages/shared-kernel/src/grpc/ai-query.ts:220-234 | the bytes, under the tags 8, 18, 26 and 34, each nested message behind its length |
| AiQueryCodec.DecodeRequest | packages/shared-kernel/src/grpc/ai-query.ts:133-171 | reads within its window what the specification reads, and throws exactly where it does |
| AiQueryCodec.DecodeSource | packages/shared-kernel/src/grpc/ai-query.ts:342-372 | the same through a nested window |
| AiQueryCodec.DecodeChunk | packages/shared-kernel/src/grpc/ai-query.ts:428-474 | the same for chunks |
| AiQueryCodec.DecodeResponse | packages/shared-kernel/src/grpc/ai-query.ts:236-282 | the same for responses, whose nested messages are read through their own length |
| AiQueryCodec.NestedWindow | packages/shared-kernel/src/grpc/ai-query.ts:264-272 | a nested message decodes to the same whether it stands alone or in the middle of more input |
| AiQueryCodec.SourceRoundTrip | packages/shared-kernel/src/grpc/ai-query.ts:331-372 | decoding an encoding gives the source back |
| AiQueryCodec.ChunkRoundTrip | packages/shared-kernel/src/grpc/ai-query.ts:411-474 | decoding an encoding gives the chunk back if and only if its score is not -0 |
| AiQueryCodec.RequestRoundTrip | packages/shared-kernel/src/grpc/ai-query.ts:119-171 | decoding an encoding gives the request back, negative topK included |
| AiQueryCodec.ResponseRoundTrip | packages/shared-kernel/src/grpc/ai-query.ts:219-282 | decoding an encoding gives the response back, nested lists and negative outcomes included, if and only if no chunk's score is -0 |
| AiQueryCodec.RequestIgnores | packages/shared-kernel/src/grpc/ai-query.ts:133-171 | whatever valid fields there are, groups included, parsing them succeeds and is parsing those that mean something |
| AiQueryCodec.SourceIgnores | packages/shared-kernel/src/grpc/ai-query.ts:342-372 | the same for a source |
| AiQueryCodec.ChunkIgnores | packages/shared-kernel/src/grpc/ai-query.ts:428-474 | the same for a chunk |
| AiQueryCodec.ResponseIgnores | packages/shared-kernel/src/grpc/ai-query.ts:236-282 | the same for a response at both levels: meaningless fields may also differ inside any nested source or chunk |
| AiQueryCodec.RequestTolerantMerge | packages/shared-kernel/src/grpc/ai-query.ts:133-171 | two encodings with stray fields anywhere between decode to the merge |
| AiQueryCodec.SourceTolerantMerge | packages/shared-kernel/src/grpc/ai-query.ts:342-372 | the same for a source |
| AiQueryCodec.ChunkTolerantMerge | packages/shared-kernel/src/grpc/ai-query.ts:428-474 | the same for a chunk, scores included |
| AiQueryCodec.ResponseTolerantMerge | packages/shared-kernel/src/grpc/ai-query.ts:236-282 | the same at both levels: stray fields may stand between the response's own fields and inside any nested source or chunk; the two decode to the merge, with sources and chunks concatenated |
| AiQueryCodec.ResponseMerge | packages/shared-kernel/src/grpc/ai-query.ts:236-282 | two encodings in a row decode to the merge |
| CommandBus.AtomicUnderRetry | packages/shared-kernel/src/cqrs/command-bus.ts:131-157 | for every handler and failure schedule, COMMIT included: the database is unchanged but for other clients' commits and the last attempt's error is thrown, or it has one attempt's writes on its own fresh snapshot; what attempts did outside the database stays; every earlier attempt failed transiently |
| CommandBus.RetriedIff | packages/shared-kernel/src/cqrs/command-bus.ts:235-250 | an attempt is followed by another if and only if one is left and its error is one the classifier calls transient |
| CommandBus.OrdinaryErrorsAreFinal | packages/shared-kernel/src/cqrs/command-bus.ts:245-250 | a handler that throws anything else has run once, and the caller sees that error |
| CommandBus.NestedIsRefused | packages/shared-kernel/src/database/abstract-tx-runner.ts:24-29 | inside an open transaction nothing runs: NestedTransactionError, no trace, no retry |
| CommandBus.Database.RunTransactional | packages/shared-kernel/src/cqrs/command-bus.ts:131-157 | the transaction, then afterCommit exactly when it committed; what afterCommit throws is swallowed and has no say in the outcome |
| CommandBus.WithRetry | packages/shared-kernel/src/cqrs/command-bus.ts:235-273 | refines the specification of retry, so the error after the loop is never thrown; afterCommit runs once if and only if committed, and its throw is not retried; the time slept is the sum of the jittered delays, at most min(maxRetries * maxDelayMs, baseDelayMs * (2^maxRetries - 1)) |
| CommandBus.Jitter | packages/shared-kernel/src/cqrs/command-bus.ts:256 | the whole number nearest to the random share of the ceiling, the greater of two |
| CommandBus.CeilingDoubles | packages/shared-kernel/src/cqrs/command-bus.ts:252-255 | the ceiling starts at the base delay and doubles until it is capped |
| CommandBus.TotalBackoffBound | packages/shared-kernel/src/cqrs/command-bus.ts:252-256 | both bounds on the sum of the backoff ceilings |
| Handlers.Bus.ValidateSagaDispatches | packages/shared-kernel/src/cqrs/command-bus.ts:104-113 | throws exactly when some registered saga declares a registered saga |
| Handlers.Bus.Register | packages/shared-kernel/src/cqrs/command-bus.ts:86-102 | succeeds exactly for a new name, a known kind and a still flat registry; which error otherwise; what the map then holds |
| Handlers.Bus.RegisterAll | packages/shared-kernel/src/cqrs/command-bus.ts:86-102 | a list registers without a throw exactly when names are distinct, kinds known and no saga declares a saga |
| Handlers.AnyOrder | packages/shared-kernel/src/cqrs/command-bus.ts:94-101 | whether it does is the same for every order of registration |
| Sagas.Compensator.Compensate | packages/shared-kernel/src/cqrs/command-bus.ts:182-199 | runs each undo as the program it is, latest first, and records exactly the undos that failed, when a store is wired |
| Sagas.UnwindRunsAllInReverse | packages/shared-kernel/src/cqrs/command-bus.ts:187 | every registered undo runs once, latest first, whatever the others do; if one never ends, those are a prefix |
| Sagas.FailuresRecorded | packages/shared-kernel/src/cqrs/command-bus.ts:187-197 | on record as failed are exactly the actions whose undo threw, in the world that the later undos left |
| Sagas.NoNesting | packages/shared-kernel/src/cqrs/command-bus.ts:164-174 | over all handlers, all compensations and all runs: no async context has two open transactions, none is left open, and ctx.dispatch starts no saga |
| Sagas.UnwindIsFlat | packages/shared-kernel/src/cqrs/command-bus.ts:182-199 | compensating is flat whenever each undo is |
| Sagas.SagaIsFlat | packages/shared-kernel/src/cqrs/command-bus.ts:159-200 | a saga's body is flat, and so is the body followed by all that its undos dispatch |
| Sagas.EverythingShows | packages/shared-kernel/src/cqrs/command-bus.ts:159-179 | the trace these speak of is whole: a saga that sends n commands shows n transactions, one after the other |
| Sagas.Refusals | packages/shared-kernel/src/cqrs/command-bus.ts:115-170 | a command nobody handles, a saga inside a saga and a transaction inside a transaction are refused with their own error, and nothing happens |
| Sagas.TransactionIsFlat | packages/shared-kernel/src/database/abstract-tx-runner.ts:24-40 | the nesting guard keeps one transaction flat |
| Sagas.FailedDispatchLeavesDatabase | packages/shared-kernel/src/cqrs/command-bus.ts:131-173 | a dispatch that fails for any reason leaves the database as it was |
| Sagas.FailedDispatchLeavesNothing | packages/shared-kernel/src/cqrs/command-bus.ts:131-173 | and the whole world, if its handler changes nothing outside the database |
| Sagas.OutsideIsNotRolledBack | packages/shared-kernel/src/database/abstract-tx-runner.ts:24-40 | that condition is needed: a handler that changes both and throws leaves the outside changed |
| Sagas.DisciplinedFlowRestores | packages/shared-kernel/src/cqrs/command-bus.ts:180-199 | at every point of a saga where nothing done lacks its undo, unwinding what is registered so far leads back to the start, wherever steps that change nothing stand between |
| Sagas.FailedSagaRestores | packages/shared-kernel/src/cqrs/command-bus.ts:159-200 | a failed saga rethrows its own error, and if whatever changed the world was followed by an undo that takes it back, all undos succeed and the world is the initial one |
| CacheKeys.KeysAreDistinct | packages/shared-kernel/src/cache/cache-keys.ts:39-67 | keys of different subjects or kinds differ |
| CacheKeys.KeyTexts | packages/shared-kernel/src/cache/cache-keys.ts:39-67 | the texts of the keys, which all services that share the cache have to build alike |
| MembershipCache.StringsOfStrings | packages/shared-kernel/src/grpc/membership-verifier.ts:89-97 | permissions read back as they were written |
| MembershipCache.MembershipVerifier.CheckMembership | packages/shared-kernel/src/grpc/membership-verifier.ts:175-210 | answer, store and number of RPCs are those of the specification, every store failure included |
| MembershipCache.MembershipVerifier.SeedPermissions | packages/shared-kernel/src/grpc/membership-verifier.ts:217-228 | writes the role's entry unless there is no store, no TTL or no role, and never throws |
| MembershipCache.CheckAgrees | packages/shared-kernel/src/cache/cached-lookup.ts:45-77 | on a truthful store a call answers as the source does, with at most one RPC, throws exactly if that RPC does, and leaves the store truthful |
| MembershipCache.CacheAgreesWithSource | packages/shared-kernel/src/grpc/membership-verifier.ts:163-210 | on every run in which each write deletes its key, a call answers as the uncached one would; failed stores and rejected entries never change that; it throws exactly if it needs an RPC and that fails |
| MembershipCache.RepeatIsFree | packages/shared-kernel/src/grpc/membership-verifier.ts:163-210 | asked again before its entries expire, it answers as it did and asks nobody, whatever has changed by then, unless the role has no name |
| MembershipCache.WithoutStore | packages/shared-kernel/src/cache/cached-lookup.ts:45-77 | a store whose writes all fail stays as it is; with no store, or no TTL, every call asks the source once and touches nothing |
| MembershipCache.AlwaysAgreesIff | packages/shared-kernel/src/grpc/membership-verifier.ts:163-210 | for every configuration and policy: all runs, callers and faults agree with the uncached answer if and only if there is no cache, or role writes and permission writes both delete their keys |
| MembershipCache.StaleByLessThanTtl | packages/shared-kernel/src/cache/cached-lookup.ts:45-77 | with fixed roles and expiry only, the permissions returned were true at some instant within the last ttlMs |
| MembershipCache.StaleRoleReachesOthers | packages/shared-kernel/src/grpc/membership-verifier.ts:199-207 | a run in which one role write leaves its key and another member, whose role and permissions never change, is answered wrongly |
| Breaker.CircuitBreaker.Admit | packages/shared-kernel/src/resilience/circuit-breaker.ts:56-64 | rejects while half-open and while open within the timeout, else admits and claims the probe |
| Breaker.CircuitBreaker.OnSuccess | packages/shared-kernel/src/resilience/circuit-breaker.ts:86-95 | closes with no failures counted |
| Breaker.CircuitBreaker.OnFailure | packages/shared-kernel/src/resilience/circuit-breaker.ts:97-116 | counts, stamps the clock, and opens at the threshold |
| Breaker.RefinesHistory | packages/shared-kernel/src/resilience/circuit-breaker.ts:44-116 | on all interleavings the failure count is the trailing run of failures in settlement order, lastFailureTime is when the last failure settled, closed means that run is below the threshold, and half-open means the claiming call is in flight: if and only if the threshold is at least 1 |
| Breaker.NeverSticksHalfOpen | packages/shared-kernel/src/resilience/circuit-breaker.ts:44-64 | with nothing in flight it is not half-open; half-open admits nobody; open admits a probe after the timeout |
| Breaker.FailsFast | packages/shared-kernel/src/resilience/circuit-breaker.ts:56-116 | once a failure, on whatever run, leaves the breaker open, nobody gets through for timeoutMs after it unless a call in flight succeeds |
| Breaker.ProbesSpreadOut | packages/shared-kernel/src/resilience/circuit-breaker.ts:56-64 | without a success, each further probe needs more than timeoutMs |
| Breaker.ProbeRateBound | packages/shared-kernel/src/resilience/circuit-breaker.ts:56-64 | a success-free window of length L that starts open admits at most floor(L / timeoutMs) + 1 calls |
| Breaker.SingleFlight | packages/shared-kernel/src/resilience/circuit-breaker.ts:45-55 | from an open breaker with nothing in flight, at most one call is in flight until the next success |
| Breaker.SingleFlightIff | packages/shared-kernel/src/resilience/circuit-breaker.ts:45-73 | of all states the breaker gets to, exactly those with nothing in flight but the probe bound the calls in flight by one until the next success |
| Breaker.StragglersBesideProbe | packages/shared-kernel/src/resilience/circuit-breaker.ts:66-73 | for example, a run in which a straggler is in flight beside the probe |
| Redact.Walked | packages/shared-kernel/src/logger/index.ts:59-73 | ends on every finite graph, cycles included, and only adds to the objects entered |
| Redact.Redactor.DeepRedact | packages/shared-kernel/src/logger/index.ts:59-73 | output and visited set are those of the specification, an entry `__proto__` walked and lost as its assignment loses it |
| Redact.CopiesAreRedacted | packages/shared-kernel/src/logger/index.ts:68-72 | on any graph, all that is copied keeps its shape, but for entries named `__proto__`, and has exactly its sensitive keys censored |
| Redact.OnlySecretsAreBlanked | packages/shared-kernel/src/logger/index.ts:6-73 | on any graph, in all that is copied and at every depth, an entry of an object is blanked exactly if its key is one of the eleven listed, whatever its value, and no item of an array is |
| Redact.RedactsIff | packages/shared-kernel/src/logger/index.ts:49-73 | the result is the whole graph so redacted, with no original in it, if and only if no object is reached by two paths and none that is reached has an own key `__proto__` |
| Redact.SharedObjectPassesThrough | packages/shared-kernel/src/logger/index.ts:61 | a graph where one object is mentioned twice and comes out unchanged the second time |
| Redact.ProtoEntryIsLost | packages/shared-kernel/src/logger/index.ts:70 | a graph without sharing whose one entry, named `__proto__`, is missing from the result |

## Left out

- Outbox.OutboxPublisher.PollOnce: `toCloudEvent` reads only the row, so an invalid `createdAt` that makes `toISOString` throw is one of the ways publishing throws; times are numbers.
- Provenance.NothingLost: delivery starts at offset 0 of a fresh group; with `fromBeginning: false` a group that has never committed starts at the end of a topic, and what lies before is not promised to it. Other consumer groups are other copies of the same model.
- Provenance.ReplayCountsBounded: messages of other producers are taken to arrive with a replay count within the budget.
- Provenance.EndToEnd: other producers, and whatever else writes to a dead-letter topic, are taken not to make up events under a row's id.
- Provenance.EffectivelyOnce: a handler's effect is one idempotent write keyed by event id, as its contract asks; handlers that are not idempotent are not covered.
- DlqReplay.EachDeadLetterIsARun: a dead letter whose replay count is not a natural number has no place in the pipeline, whose counts are naturals; what happens to it is `GivenUpIff`.
- Consumers.ResilientEventConsumer.EachMessage: JSON text is what `JSON.parse` makes of it, and arrays in a `traceparent` are not nested deeper than the call stack allows.
- Publishing.ReplicasDrainTheOutbox: marks keep their word, publishing may fail as it likes, and nothing is appended, reaped or crashed meanwhile. A busy replica counts, an empty poll does not.
- Consumers.LetterIsDead: message keys, the error text of a dead letter, and the choice of a partition by key are not modelled.
- Drain.TerminatesIff: crash-free runs of one instance per partition with nothing appended and no delivery of an event whose trace context throws; crashes, such deliveries, and failed sends or commits repeat work without bound, as at-least-once delivery allows.
- DlqReplay.DlqReplayConsumer.EachMessage: what `Number`, `String`, `x + 1` and `**` make of their arguments is a parameter; relied on are decimals and whole numbers up to 2^53 in size, that texts read back, and that addition rounds to nearest, ties to even. `maxReplays` is such a whole number where counts are followed. The rounding and overflow of delays are not modelled. Header bytes are taken as text, and sleeping does not throw.
- MembershipCodec.RequestRoundTrip: strings are byte sequences; UTF-8, and strings or messages of 2^32 bytes and more, are not modelled, and the same holds of all codec members.
- Wire.SkipPayload: the reader and writer library is not part of this model; its primitives follow the Protocol Buffers Encoding guide ("Base 128 Varints", "Message Structure", "Length-Delimited Records", "Optional and Repeated Elements"). Not modelled are its own limits on overlong varints when skipping and its check that an end-group tag names the group it ends.
- AiQueryCodec.ChunkRoundTrip: a double is its 64-bit pattern, so NaN payloads are kept; values the writer refuses (an int32 out of range) are excluded by type.
- CommandBus.AtomicUnderRetry: a failed COMMIT has rolled back, which is the contract of `beginTransaction`; an ambiguous COMMIT is not modelled, nor is isolation below a snapshot, nor a handler that writes to the same database through another connection than its transaction's.
- Sagas.NoNesting: handlers and undos are trees of actions, calls and registrations run with fuel; a run is met at some fuel, and an undo that never ends, like awaits of one handler that overlap, is not followed further. `recordFailed` does not throw, which is its contract.
- Sagas.FailedSagaRestores: stated for a world nobody else writes to while the saga runs.
- MembershipCache.CacheAgreesWithSource: calls are atomic, so a write that lands between a fetch and the store's own write is not covered. `cachedLookup` appears in its two uses, since its closures assign variables of the caller.
- MembershipCache.MembershipVerifier.CheckMembership: JSON text is what `JSON.parse` makes of it; organisation ids come from a header and hold no NUL.
- Breaker.RefinesHistory: the clock never goes back; metrics and logging are left out.
- Redact.RedactsIff: dates, maps and other built-in objects are objects without entries, as `Object.entries` sees them; getters, proxies, frozen prototypes and the depth of the call stack are not modelled, nor is the prototype that an entry `__proto__` gives its copy. The input heap is a value the walk only reads.
- Partition assignment, rebalancing and the broker: any instance may join any partition at any time, which covers every assignment.
- Purging of PROCESSED rows, backlog gauges, and the age test of the reaper: reaping may happen to any INFLIGHT row at any time.
- gRPC channels, metadata, breakers around calls, Kafka, Redis and Prisma clients, loggers and metrics: each is an outcome.
- `fromJSON`, `toJSON`, `fromPartial`, `org-provisioning.ts`, `system-rbac.ts`, `QueryBus`, `EventBus`, `EventRouter.register`, permission catalogues, routing tables and trace headers: only easy members.
- JWT verification, hashing of the shared secret and id generation: cryptography and randomness in libraries.
