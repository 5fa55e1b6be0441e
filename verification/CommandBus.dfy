/** The transactional half of `cqrs/command-bus.ts`: retry around the transaction of
    `database/abstract-tx-runner.ts` around a handler. */
module CommandBus {
  import opened Basics

  /** Everything a command can read or write: the database its transaction runs on, and the
      outside, which no rollback reaches. */
  datatype Store = Store(db: map<string, int>, outside: map<string, int>)

  datatype Error =
    | DuplicateHandler(name: string)
    | UnknownKind(name: string)
    | NestedSaga(outer: string, inner: string)
    | HandlerNotFound(name: string)
    | NestedTransaction
    | NoSagaContext
    | Unreachable
    | Raised(code: int, transient: bool)

  predicate IsTransient(e: Error) {
    e.Raised? && e.transient
  }

  /** Diverged is a run that the fuel of the interpreter below cut short. */
  datatype Outcome = Returned(value: int) | Threw(error: Error) | Diverged

  datatype Event = TxOpened | TxClosed | SagaStarted(name: string, dispatched: bool)

  // ---------------------------------------------------------------- one transaction

  datatype BodyRun = BodyRun(outcome: Outcome, store: Store, trace: seq<Event>)

  /** One attempt as the world makes it happen: what other clients commit before its
      snapshot, what the handler does with that snapshot, and how COMMIT ends. */
  datatype Attempt = Attempt(others: Store -> Store, body: Store -> BodyRun, commit: Option<Error>)

  /** What a rollback to the snapshot `s` leaves of a body that got as far as `end`. */
  function RolledBack(s: Store, end: Store): Store {
    Store(s.db, end.outside)
  }

  /** `AbstractTxRunner.run` on an async context that is or is not inside a transaction. */
  function RunTx(inTx: bool, snapshot: Store, a: Attempt): BodyRun {
    if inTx then BodyRun(Threw(NestedTransaction), snapshot, [])
    else
      var b := a.body(snapshot);
      match b.outcome
      case Returned(v) =>
        (match a.commit
         case None => BodyRun(Returned(v), b.store, [TxOpened] + b.trace + [TxClosed])
         case Some(e) => BodyRun(Threw(e), RolledBack(snapshot, b.store), [TxOpened] + b.trace + [TxClosed]))
      case Threw(e) => BodyRun(Threw(e), RolledBack(snapshot, b.store), [TxOpened] + b.trace + [TxClosed])
      case Diverged => BodyRun(Diverged, RolledBack(snapshot, b.store), [TxOpened] + b.trace)
  }

  // ---------------------------------------------------------------- retry

  datatype RetryRun = RetryRun(outcome: Outcome, store: Store, trace: seq<Event>, attempts: nat)

  /** The retry loop from attempt `k` on. */
  function Retry(maxRetries: nat, inTx: bool, attempts: nat -> Attempt, k: nat, w: Store): (r: RetryRun)
    requires k <= maxRetries
    ensures k < r.attempts <= maxRetries + 1
    decreases maxRetries - k
  {
    var t := RunTx(inTx, attempts(k).others(w), attempts(k));
    if t.outcome.Threw? && IsTransient(t.outcome.error) && k + 1 <= maxRetries then
      var r := Retry(maxRetries, inTx, attempts, k + 1, t.store);
      r.(trace := t.trace + r.trace)
    else RetryRun(t.outcome, t.store, t.trace, k + 1)
  }

  /** What an attempt that does not commit leaves of its snapshot. */
  function LeftBy(a: Attempt, s: Store): Store {
    RolledBack(s, a.body(s).store)
  }

  /** What there is before attempt `i`, and at its snapshot, if none of ours ever commits. */
  function Before(attempts: nat -> Attempt, w: Store, i: nat): Store {
    if i == 0 then w else LeftBy(attempts(i - 1), attempts(i - 1).others(Before(attempts, w, i - 1)))
  }

  function Snapshot(attempts: nat -> Attempt, w: Store, i: nat): Store {
    attempts(i).others(Before(attempts, w, i))
  }

  /** The error that ends attempt `i` when it runs on the snapshot `s`. */
  function AttemptError(a: Attempt, s: Store): Option<Error> {
    match a.body(s).outcome
    case Threw(e) => Some(e)
    case Returned(_) => a.commit
    case Diverged => None
  }

  predicate FailedTransiently(attempts: nat -> Attempt, w: Store, i: nat) {
    var e := AttemptError(attempts(i), Snapshot(attempts, w, i));
    e.Some? && IsTransient(e.value)
  }

  /** A run ended as its attempt `last`, on its own fresh snapshot, ended it: with that
      attempt's committed writes, or with the database of the snapshot and that attempt's
      error. What attempts did outside stays either way. */
  predicate EndedBy(maxRetries: nat, attempts: nat -> Attempt, w: Store, last: nat, outcome: Outcome, store: Store) {
    var a, s := attempts(last), Snapshot(attempts, w, last);
    match outcome
    case Returned(v) => a.body(s).outcome == Returned(v) && a.commit == None && store == a.body(s).store
    case Threw(e) => AttemptError(a, s) == Some(e) && store == LeftBy(a, s) && (!IsTransient(e) || last == maxRetries)
    case Diverged => a.body(s).outcome == Diverged
  }

  /** Whether the loop goes on after attempt k. */
  predicate Retried(maxRetries: nat, attempts: nat -> Attempt, w0: Store, k: nat) {
    k < maxRetries && FailedTransiently(attempts, w0, k)
  }

  /** An attempt after which nothing is retried. */
  lemma LastAttempt(maxRetries: nat, attempts: nat -> Attempt, w0: Store, k: nat)
    requires k <= maxRetries
    ensures var t := RunTx(false, Snapshot(attempts, w0, k), attempts(k));
            !Retried(maxRetries, attempts, w0, k) ==> EndedBy(maxRetries, attempts, w0, k, t.outcome, t.store)
  {
  }

  /** An attempt after which there is another: its database is that of its snapshot. */
  lemma FailedAttempt(attempts: nat -> Attempt, w0: Store, k: nat)
    ensures var t := RunTx(false, Snapshot(attempts, w0, k), attempts(k));
            && (t.outcome.Threw? && IsTransient(t.outcome.error) <==> FailedTransiently(attempts, w0, k))
            && (FailedTransiently(attempts, w0, k) ==> t.store == Before(attempts, w0, k + 1))
  {
  }

  /** Retrying goes on as from the next attempt. */
  lemma RetryGoesOn(maxRetries: nat, inTx: bool, attempts: nat -> Attempt, k: nat, w: Store)
    requires k < maxRetries
    requires var t := RunTx(inTx, attempts(k).others(w), attempts(k)); t.outcome.Threw? && IsTransient(t.outcome.error)
    ensures var t := RunTx(inTx, attempts(k).others(w), attempts(k));
            var r, r1 := Retry(maxRetries, inTx, attempts, k, w), Retry(maxRetries, inTx, attempts, k + 1, t.store);
            r.outcome == r1.outcome && r.store == r1.store && r.attempts == r1.attempts && r.trace == t.trace + r1.trace
  {
  }

  lemma RetryStops(maxRetries: nat, attempts: nat -> Attempt, k: nat, w0: Store)
    requires k <= maxRetries && !Retried(maxRetries, attempts, w0, k)
    ensures var r := Retry(maxRetries, false, attempts, k, Before(attempts, w0, k));
            r.attempts == k + 1 && EndedBy(maxRetries, attempts, w0, k, r.outcome, r.store)
  {
    LastAttempt(maxRetries, attempts, w0, k);
  }

  lemma RetryContinues(maxRetries: nat, attempts: nat -> Attempt, k: nat, w0: Store)
    requires k <= maxRetries && Retried(maxRetries, attempts, w0, k)
    ensures var r, r1 := Retry(maxRetries, false, attempts, k, Before(attempts, w0, k)), Retry(maxRetries, false, attempts, k + 1, Before(attempts, w0, k + 1));
            r.outcome == r1.outcome && r.store == r1.store && r.attempts == r1.attempts
  {
    FailedAttempt(attempts, w0, k);
    RetryGoesOn(maxRetries, false, attempts, k, Before(attempts, w0, k));
  }

  lemma {:induction false} EarlierFailed(maxRetries: nat, attempts: nat -> Attempt, k: nat, w0: Store, i: nat)
    requires k <= maxRetries && k <= i < Retry(maxRetries, false, attempts, k, Before(attempts, w0, k)).attempts - 1
    ensures FailedTransiently(attempts, w0, i)
    decreases maxRetries - k
  {
    if Retried(maxRetries, attempts, w0, k) {
      RetryContinues(maxRetries, attempts, k, w0);
      if k < i { EarlierFailed(maxRetries, attempts, k + 1, w0, i); }
    } else {
      RetryStops(maxRetries, attempts, k, w0);
    }
  }

  /** The loop ends as its last attempt did. */
  lemma {:induction false} EndsAsTheLast(maxRetries: nat, attempts: nat -> Attempt, k: nat, w0: Store, r: RetryRun)
    requires k <= maxRetries && r == Retry(maxRetries, false, attempts, k, Before(attempts, w0, k))
    ensures EndedBy(maxRetries, attempts, w0, r.attempts - 1, r.outcome, r.store)
    decreases maxRetries - k
  {
    if Retried(maxRetries, attempts, w0, k) {
      RetryContinues(maxRetries, attempts, k, w0);
      EndsAsTheLast(maxRetries, attempts, k + 1, w0, Retry(maxRetries, false, attempts, k + 1, Before(attempts, w0, k + 1)));
    } else {
      RetryStops(maxRetries, attempts, k, w0);
    }
  }

  /** The i-th attempt is followed by another exactly if one is left and it failed with an error
      that the classifier calls transient. */
  lemma RetriedIff(maxRetries: nat, attempts: nat -> Attempt, w: Store, i: nat)
    requires i < Retry(maxRetries, false, attempts, 0, w).attempts
    ensures i + 1 < Retry(maxRetries, false, attempts, 0, w).attempts <==>
            i < maxRetries && exists code :: AttemptError(attempts(i), Snapshot(attempts, w, i)) == Some(Raised(code, true))
  {
    var r := Retry(maxRetries, false, attempts, 0, w);
    var e := AttemptError(attempts(i), Snapshot(attempts, w, i));
    if i + 1 < r.attempts {
      EarlierFailed(maxRetries, attempts, 0, w, i);
      assert e == Some(Raised(e.value.code, true));
    } else {
      EndsAsTheLast(maxRetries, attempts, 0, w, r);
    }
  }

  /** So a handler that throws anything else has run once, and that is what the caller sees. */
  lemma OrdinaryErrorsAreFinal(maxRetries: nat, attempts: nat -> Attempt, w: Store, e: Error)
    requires attempts(0).body(attempts(0).others(w)).outcome == Threw(e) && forall code :: e != Raised(code, true)
    ensures var r := Retry(maxRetries, false, attempts, 0, w); r.attempts == 1 && r.outcome == Threw(e)
  {
    RetriedIff(maxRetries, attempts, w, 0);
    EndsAsTheLast(maxRetries, attempts, 0, w, Retry(maxRetries, false, attempts, 0, w));
  }

  /** Inside an open transaction nothing runs: the command is refused, and not retried. */
  lemma NestedIsRefused(maxRetries: nat, attempts: nat -> Attempt, w: Store)
    ensures Retry(maxRetries, true, attempts, 0, w) == RetryRun(Threw(NestedTransaction), attempts(0).others(w), [], 1)
  {
  }

  /** Atomicity under retry, for every handler and every failure schedule, COMMIT included:
      what is left in the database is either other clients' commits alone, with the last
      attempt's error, or one attempt's writes on its own fresh snapshot; every earlier
      attempt failed transiently, and there are at most maxRetries of them. */
  lemma AtomicUnderRetry(maxRetries: nat, attempts: nat -> Attempt, w: Store)
    ensures var r := Retry(maxRetries, false, attempts, 0, w);
            && r.attempts - 1 <= maxRetries
            && (forall i: nat :: i < r.attempts - 1 ==> FailedTransiently(attempts, w, i))
            && EndedBy(maxRetries, attempts, w, r.attempts - 1, r.outcome, r.store)
  {
    var r := Retry(maxRetries, false, attempts, 0, w);
    forall i: nat | i < r.attempts - 1
      ensures FailedTransiently(attempts, w, i)
    {
      EarlierFailed(maxRetries, attempts, 0, w, i);
    }
    EndsAsTheLast(maxRetries, attempts, 0, w, r);
  }

  // ---------------------------------------------------------------- backoff

  datatype RetryPolicy = RetryPolicy(maxRetries: nat, baseDelayMs: nat, maxDelayMs: nat)

  /** `Math.round(Math.random() * ceiling)`: the nearest whole number to that share of the
      ceiling, the greater one of two. */
  function Jitter(random: real, ceiling: nat): (ms: nat)
    requires 0.0 <= random < 1.0
    ensures ms as real - 0.5 <= Product(random, ceiling as real) < ms as real + 0.5
    ensures ms <= ceiling
  {
    var share := Share(random, ceiling as real);
    Rounded(share, ceiling);
    (share + 0.5).Floor
  }

  lemma Rounded(share: real, ceiling: nat)
    requires 0.0 <= share <= ceiling as real
    ensures var ms := (share + 0.5).Floor; 0 <= ms <= ceiling && ms as real - 0.5 <= share < ms as real + 0.5
  {
  }

  function BackoffCeiling(p: RetryPolicy, attempt: nat): nat
    requires attempt >= 1
  {
    Min(p.maxDelayMs, p.baseDelayMs * Pow2(attempt - 1))
  }

  /** The ceiling starts at the base delay and doubles until it is capped. */
  lemma CeilingDoubles(p: RetryPolicy, attempt: nat)
    requires attempt >= 1
    ensures BackoffCeiling(p, 1) == Min(p.baseDelayMs, p.maxDelayMs)
    ensures BackoffCeiling(p, attempt + 1) == Min(2 * BackoffCeiling(p, attempt), p.maxDelayMs)
  {
    var b, x := p.baseDelayMs, Pow2(attempt - 1);
    assert Pow2(attempt) == 2 * x && b * (2 * x) == 2 * (b * x);
    assert b * Pow2(0) == b;
  }

  /** The wait before each retry: that of retry k + 1 at k. */
  function Delays(p: RetryPolicy, random: nat -> real): nat -> nat
    requires forall i :: 0.0 <= random(i) < 1.0
  {
    (k: nat) => Jitter(random(k + 1), BackoffCeiling(p, k + 1))
  }

  /** The longest possible wait over the first `n` retries. */
  function TotalBackoff(p: RetryPolicy, n: nat): nat {
    if n == 0 then 0 else TotalBackoff(p, n - 1) + BackoffCeiling(p, n)
  }

  lemma {:induction false} TotalBackoffBound(p: RetryPolicy, n: nat)
    ensures TotalBackoff(p, n) <= n * p.maxDelayMs
    ensures TotalBackoff(p, n) <= p.baseDelayMs * (Pow2(n) - 1)
  {
    if n > 0 {
      TotalBackoffBound(p, n - 1);
      OneMore(n - 1, p.maxDelayMs);
      Doubling(p.baseDelayMs, Pow2(n - 1));
    }
  }

  lemma {:induction false} TotalBackoffGrows(p: RetryPolicy, n: nat, m: nat)
    requires n <= m
    ensures TotalBackoff(p, n) <= TotalBackoff(p, m)
    decreases m - n
  {
    if n < m {
      TotalBackoffGrows(p, n + 1, m);
    }
  }

  /** The longest a command may spend between attempts. */
  function Patience(p: RetryPolicy): int {
    Min(p.maxRetries * p.maxDelayMs, p.baseDelayMs * (Pow2(p.maxRetries) - 1))
  }

  lemma {:induction false} DelaysWithin(p: RetryPolicy, random: nat -> real, n: nat)
    requires forall i :: 0.0 <= random(i) < 1.0
    ensures Sum(Delays(p, random), n) <= TotalBackoff(p, n)
  {
    if n > 0 {
      DelaysWithin(p, random, n - 1);
    }
  }

  lemma WaitsBounded(p: RetryPolicy, random: nat -> real, n: nat)
    requires n <= p.maxRetries && forall i :: 0.0 <= random(i) < 1.0
    ensures Sum(Delays(p, random), n) <= Patience(p)
  {
    DelaysWithin(p, random, n);
    TotalBackoffGrows(p, n, p.maxRetries);
    TotalBackoffBound(p, p.maxRetries);
  }

  /** A handler's `afterCommit`, if it has one, and how it ends. */
  datatype AfterCommit = NoHook | Hook(error: Option<Error>)

  /** The stores a service works on: `RunTransactional` is the only thing that changes them. */
  class Database {
    var store: Store
    var afterCommits: nat
    var swallowed: seq<Error>

    constructor (store: Store)
      ensures this.store == store && afterCommits == 0 && swallowed == []
    {
      this.store, afterCommits, swallowed := store, 0, [];
    }

    method CallAfterCommit(hook: AfterCommit) returns (thrown: Option<Error>)
      requires hook.Hook?
      modifies `afterCommits
      ensures afterCommits == old(afterCommits) + 1 && thrown == hook.error
    {
      afterCommits := afterCommits + 1;
      return hook.error;
    }

    /** `runTransactional`: the transaction, then `afterCommit` if the handler has one. What
        `afterCommit` throws is swallowed and logged: the outcome is the transaction's. */
    method RunTransactional(inTx: bool, a: Attempt, hook: AfterCommit) returns (outcome: Outcome, ghost trace: seq<Event>)
      modifies this
      ensures var t := RunTx(inTx, a.others(old(store)), a); outcome == t.outcome && store == t.store && trace == t.trace
      ensures var called := outcome.Returned? && hook.Hook?;
              && afterCommits == old(afterCommits) + (if called then 1 else 0)
              && swallowed == old(swallowed) + (if called && hook.error.Some? then [hook.error.value] else [])
    {
      store := a.others(store);
      var t := RunTx(inTx, store, a);
      outcome, trace, store := t.outcome, t.trace, t.store;
      if outcome.Returned? && hook.Hook? {
        var thrown := CallAfterCommit(hook);
        if thrown.Some? {
          swallowed := swallowed + [thrown.value];
        }
      }
    }
  }

  /** What is still to come from attempt `k` on completes what the whole is to come to. */
  predicate OnTrack(maxRetries: nat, inTx: bool, attempts: nat -> Attempt, whole: RetryRun, k: nat, store: Store, trace: seq<Event>)
    requires k <= maxRetries
  {
    var r := Retry(maxRetries, inTx, attempts, k, store);
    whole.outcome == r.outcome && whole.store == r.store && whole.trace == trace + r.trace && whole.attempts == r.attempts
  }

  lemma StaysOnTrack(maxRetries: nat, inTx: bool, attempts: nat -> Attempt, whole: RetryRun, k: nat, store: Store, trace: seq<Event>)
    requires k <= maxRetries && OnTrack(maxRetries, inTx, attempts, whole, k, store, trace)
    ensures var t := RunTx(inTx, attempts(k).others(store), attempts(k));
            if t.outcome.Threw? && IsTransient(t.outcome.error) && k < maxRetries then
              OnTrack(maxRetries, inTx, attempts, whole, k + 1, t.store, trace + t.trace)
            else whole == RetryRun(t.outcome, t.store, trace + t.trace, k + 1)
  {
    var t := RunTx(inTx, attempts(k).others(store), attempts(k));
    if t.outcome.Threw? && IsTransient(t.outcome.error) && k < maxRetries {
      Regroup(trace, t.trace, Retry(maxRetries, inTx, attempts, k + 1, t.store).trace);
    }
  }

  /** One turn of the loop of `withRetry`, up to the decision whether to go on. */
  method OneAttempt(db: Database, maxRetries: nat, inTx: bool, attempts: nat -> Attempt, hook: AfterCommit, attempt: nat,
                    ghost whole: RetryRun, ghost before: seq<Event>)
    returns (outcome: Outcome, again: bool, ghost trace: seq<Event>)
    requires attempt <= maxRetries && OnTrack(maxRetries, inTx, attempts, whole, attempt, db.store, before)
    modifies db
    ensures if again then attempt < maxRetries && OnTrack(maxRetries, inTx, attempts, whole, attempt + 1, db.store, trace)
            else whole == RetryRun(outcome, db.store, trace, attempt + 1)
    ensures db.afterCommits == old(db.afterCommits) + if outcome.Returned? && hook.Hook? then 1 else 0
    ensures again ==> outcome.Threw?
  {
    StaysOnTrack(maxRetries, inTx, attempts, whole, attempt, db.store, before);
    ghost var more;
    outcome, more := db.RunTransactional(inTx, attempts(attempt), hook);
    trace := before + more;
    again := outcome.Threw? && IsTransient(outcome.error) && attempt + 1 <= maxRetries;
  }

  /** The loop of `withRetry`. The error after it is never reached. */
  method RetryLoop(db: Database, maxRetries: nat, inTx: bool, attempts: nat -> Attempt, hook: AfterCommit, delays: nat -> nat, ghost whole: RetryRun)
    returns (outcome: Outcome, slept: nat, ghost trace: seq<Event>)
    requires OnTrack(maxRetries, inTx, attempts, whole, 0, db.store, [])
    modifies db
    ensures whole.attempts >= 1 && whole == RetryRun(outcome, db.store, trace, whole.attempts)
    ensures slept == Sum(delays, whole.attempts - 1)
    ensures db.afterCommits == old(db.afterCommits) + if outcome.Returned? && hook.Hook? then 1 else 0
  {
    var attempt := 0;
    slept, trace := 0, [];
    while attempt <= maxRetries
      invariant 0 <= attempt <= maxRetries
      invariant db.afterCommits == old(db.afterCommits)
      invariant OnTrack(maxRetries, inTx, attempts, whole, attempt, db.store, trace)
      invariant slept == Sum(delays, attempt)
    {
      var again;
      outcome, again, trace := OneAttempt(db, maxRetries, inTx, attempts, hook, attempt, whole, trace);
      attempt := attempt + 1;
      if !again {
        return;
      }
      slept := slept + delays(attempt - 1);
    }
    outcome := Threw(Unreachable);
  }

  /** `withRetry` around `runTransactional`. The error after the loop is never reached; the
      time slept is the jittered backoff of each retry, within both bounds of the policy;
      `afterCommit` runs once exactly when the command succeeds, and nothing it throws is
      retried or seen. */
  method WithRetry(db: Database, p: RetryPolicy, inTx: bool, attempts: nat -> Attempt, hook: AfterCommit, random: nat -> real)
    returns (outcome: Outcome, slept: nat, ghost trace: seq<Event>)
    requires forall i :: 0.0 <= random(i) < 1.0
    modifies db
    ensures var r := Retry(p.maxRetries, inTx, attempts, 0, old(db.store));
            outcome == r.outcome && db.store == r.store && trace == r.trace
    ensures db.afterCommits == old(db.afterCommits) + if outcome.Returned? && hook.Hook? then 1 else 0
    ensures slept == Sum(Delays(p, random), Retry(p.maxRetries, inTx, attempts, 0, old(db.store)).attempts - 1)
    ensures slept <= Patience(p)
  {
    ghost var whole := Retry(p.maxRetries, inTx, attempts, 0, db.store);
    assert OnTrack(p.maxRetries, inTx, attempts, whole, 0, db.store, []) by { assert [] + whole.trace == whole.trace; }
    outcome, slept, trace := RetryLoop(db, p.maxRetries, inTx, attempts, hook, Delays(p, random), whole);
    assert slept <= Patience(p) by { WaitsBounded(p, random, whole.attempts - 1); }
  }
}
