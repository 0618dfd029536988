/** The forward entity, the retry decision and the guarded row updates
    (domain/entities/forward.py, use_cases/forward_decision.py and the
    UPDATE statements of forward_repository.py). */
module Forwards {
  import opened Text

  /** Microseconds since the epoch, the resolution of `datetime`. */
  type Time = int

  const SECOND: Time := 1_000_000

  /** `t.replace(microsecond=0)`. */
  function FloorToSecond(t: Time): (f: Time)
    ensures f <= t < f + SECOND && f % SECOND == 0
  {
    t - t % SECOND
  }

  datatype Status = Pending | InFlight | Succeeded | Failed | Dead | Abandoned

  const RETRY_BACKOFFS: seq<nat> := [30, 120, 600, 3600, 14400]
  const MAX_ATTEMPTS: nat := |RETRY_BACKOFFS|
  const ABANDONED_BY_OWNER := "manually abandoned by owner"
  const NOT_FOUND := "endpoint or request not found (TTL expired?)"
  const SSRF_PREFIX := "SsrfBlockedError: "
  const STUCK_PENDING_SECONDS: nat := 5 * 60
  const STUCK_IN_FLIGHT_SECONDS: nat := 5 * 60

  datatype Forward = Forward(
    id: Uuid,
    requestId: Uuid,
    endpointId: Uuid,
    targetUrl: string,
    status: Status,
    attemptCount: nat,
    lastAttemptAt: Option<Time>,
    nextAttemptAt: Option<Time>,
    finalStatusCode: Option<int>,
    finalError: Option<string>,
    forwardStartedAt: Option<Time>,
    forwardCompletedAt: Option<Time>,
    createdAt: Time,
    manualRetryAt: Option<Time>)

  /** A forward nobody has touched: what a capture stores for `requestId`. */
  predicate Untouched(f: Forward, id: Uuid, requestId: Uuid, endpointId: Uuid, targetUrl: string, now: Time) {
    && f.id == id && f.requestId == requestId && f.endpointId == endpointId && f.targetUrl == targetUrl
    && f.status == Pending && f.attemptCount == 0 && f.createdAt == now && f.nextAttemptAt == Some(now)
    && f.lastAttemptAt == None && f.forwardStartedAt == None && f.forwardCompletedAt == None && f.manualRetryAt == None
    && f.finalStatusCode == None && f.finalError == None
  }

  /** `Forward.create`; the fresh `uuid4` is a parameter. */
  function Create(id: Uuid, requestId: Uuid, endpointId: Uuid, targetUrl: string, now: Time): (f: Forward)
    ensures Untouched(f, id, requestId, endpointId, targetUrl, now)
  {
    Forward(id, requestId, endpointId, targetUrl, Pending, 0,
            None, Some(now), None, None, None, None, now, None)
  }

  // ---------------------------------------------------------------- decision

  const RETRYABLE_STATUS: set<int> := {408, 425, 429, 500, 502, 503, 504, 507, 508}

  datatype Decision = Decision(next: Status, deferSeconds: nat)

  /** `RETRY_BACKOFFS[attempt_count - 1]`; Python reads index -1 as the last entry. */
  function BackoffAfter(attemptCount: nat): nat
    requires attemptCount < MAX_ATTEMPTS
  {
    if attemptCount == 0 then RETRY_BACKOFFS[MAX_ATTEMPTS - 1] else RETRY_BACKOFFS[attemptCount - 1]
  }

  function Decide(attemptCount: nat, httpStatus: Option<int>, networkError: bool): Decision {
    if !networkError && httpStatus.Some? && 200 <= httpStatus.value < 300 then
      Decision(Succeeded, 0)
    else if !(networkError || (httpStatus.Some? && httpStatus.value in RETRYABLE_STATUS)) then
      Decision(Dead, 0)
    else if attemptCount >= MAX_ATTEMPTS then
      Decision(Dead, 0)
    else
      Decision(Failed, BackoffAfter(attemptCount))
  }

  /** The comment above the table promises a retry for every 5xx answer. The table
      keeps that promise for exactly the six codes it lists. */
  lemma ServerErrorsRetried(attemptCount: nat, code: int)
    requires 1 <= attemptCount < MAX_ATTEMPTS && 500 <= code < 600
    ensures Decide(attemptCount, Some(code), false).next == Failed
       <==> code in {500, 502, 503, 504, 507, 508}
    ensures Decide(attemptCount, Some(501), false) == Decision(Dead, 0)
  {
  }

  // ------------------------------------------------------------ row updates
  //
  // Each function is one guarded UPDATE: `None` when the WHERE clause misses.

  predicate Claimable(s: Status) {
    s == Pending || s == Failed
  }

  predicate Terminal(s: Status) {
    s == Succeeded || s == Dead || s == Abandoned
  }

  /** `claim_for_attempt`. */
  function ClaimRow(f: Forward, now: Time): Option<Forward> {
    if Claimable(f.status) then
      Some(f.(status := InFlight, attemptCount := f.attemptCount + 1,
              lastAttemptAt := Some(now), forwardStartedAt := Some(now)))
    else None
  }

  /** What `record_outcome` is told to write. */
  datatype Verdict = Verdict(next: Status, code: Option<int>, error: Option<string>, nextAttemptAt: Option<Time>)

  /** `record_outcome`: no guard on the status. */
  function RecordRow(f: Forward, v: Verdict, now: Time): Forward {
    f.(status := v.next, finalStatusCode := v.code, finalError := v.error,
       nextAttemptAt := v.nextAttemptAt,
       forwardCompletedAt := if v.next == Succeeded || v.next == Dead then Some(now) else None)
  }

  /** `claim_for_manual_retry`. */
  function RetryRow(f: Forward, endpoint: Uuid, now: Time): Option<Forward> {
    if f.endpointId == endpoint && f.status in {Failed, Dead, Abandoned} then
      Some(f.(status := Pending,
              attemptCount := if f.status in {Dead, Abandoned} then MAX_ATTEMPTS - 1 else f.attemptCount,
              manualRetryAt := Some(now), nextAttemptAt := Some(now),
              finalError := None, finalStatusCode := None, forwardCompletedAt := None))
    else None
  }

  /** `abandon`. */
  function AbandonRow(f: Forward, endpoint: Uuid, now: Time): Option<Forward> {
    if f.endpointId == endpoint && !Terminal(f.status) then
      Some(f.(status := Abandoned, forwardCompletedAt := Some(now), finalError := Some(ABANDONED_BY_OWNER)))
    else None
  }

  predicate StuckInFlight(f: Forward, endpoint: Uuid, stuckSeconds: nat, now: Time) {
    f.endpointId == endpoint && f.status == InFlight
    && f.forwardStartedAt.Some? && f.forwardStartedAt.value < now - stuckSeconds * SECOND
  }

  /** `reclaim_stuck_in_flight` on one row. */
  function ReclaimRow(f: Forward, endpoint: Uuid, stuckSeconds: nat, now: Time): Option<Forward> {
    if StuckInFlight(f, endpoint, stuckSeconds, now) then
      Some(f.(status := Failed, nextAttemptAt := Some(now)))
    else None
  }

  /** The WHERE clause of `list_overdue_failed`. */
  predicate OverdueFailed(f: Forward, endpoint: Uuid, now: Time) {
    f.endpointId == endpoint && f.status == Failed && f.nextAttemptAt.Some? && f.nextAttemptAt.value <= now
  }

  /** The WHERE clause of `redrive_stuck_pending`. */
  predicate StuckPending(f: Forward, endpoint: Uuid, stuckSeconds: nat, now: Time) {
    f.endpointId == endpoint && f.status == Pending && f.createdAt < now - stuckSeconds * SECOND
  }

  // ------------------------------------------------------------ one attempt

  /** What the HTTP phase reports back. */
  datatype Outcome =
    | Blocked(message: string)
    | Response(code: int)
    | NetworkError(message: string)

  /** What the worker writes after attempt number `attempt` ended in `o`, and the
      delay of the retry it then schedules (`execute`, lines 116-150). */
  function Judge(attempt: nat, o: Outcome, decidedAt: Time): (Verdict, nat) {
    match o
    case Blocked(m) =>
      (Verdict(Dead, None, Some(SSRF_PREFIX + m), None), 0)
    case Response(code) =>
      var d := Decide(attempt, Some(code), false);
      (Verdict(d.next, Some(code), None, RetryTime(d.next, decidedAt)), d.deferSeconds)
    case NetworkError(m) =>
      var d := Decide(attempt, None, true);
      (Verdict(d.next, None, Some(m), RetryTime(d.next, decidedAt)), d.deferSeconds)
  }

  function RetryTime(next: Status, decidedAt: Time): Option<Time> {
    if next == Failed then Some(FloorToSecond(decidedAt)) else None
  }

  // ------------------------------------------------------ what an outcome means

  /** An answer or a failure that may go away by itself. */
  predicate Transient(o: Outcome) {
    o.NetworkError? || (o.Response? && o.code in {408, 425, 429, 500, 502, 503, 504, 507, 508})
  }

  /** The status an attempt's outcome stands for: delivered by any answer from 200 to 299,
      to be retried after a transient failure of the first four attempts, dead otherwise. */
  predicate StandsFor(next: Status, attempt: nat, o: Outcome) {
    && next in {Succeeded, Failed, Dead}
    && (next == Succeeded <==> o.Response? && 200 <= o.code <= 299)
    && (next == Failed <==> attempt < 5 && Transient(o))
  }

  /** Row `f` is `before` with the outcome stored: the answer's code or the failure's text,
      a retry stamped with the second of the decision, everything else as it was. */
  predicate StoredOutcome(f: Forward, before: Forward, attempt: nat, o: Outcome, decidedAt: Time, at: Time) {
    && StandsFor(f.status, attempt, o)
    && f.finalStatusCode == (if o.Response? then Some(o.code) else None)
    && f.finalError == (match o
                        case Blocked(m) => Some("SsrfBlockedError: " + m)
                        case NetworkError(m) => Some(m)
                        case Response(_) => None)
    && f.forwardCompletedAt == (if f.status == Failed then None else Some(at))
    && (f.nextAttemptAt.Some? <==> f.status == Failed)
    && (f.status == Failed ==>
          f.nextAttemptAt.value % 1_000_000 == 0 && f.nextAttemptAt.value <= decidedAt < f.nextAttemptAt.value + 1_000_000)
    && f == before.(status := f.status, finalStatusCode := f.finalStatusCode, finalError := f.finalError,
                    nextAttemptAt := f.nextAttemptAt, forwardCompletedAt := f.forwardCompletedAt)
  }

  /** The seconds after which the next attempt follows a failed one. */
  predicate RetryDelay(delay: nat, attempt: nat) {
    1 <= attempt <= 4 && delay == [30, 120, 600, 3600][attempt - 1]
  }

  /** `decide` and `record_outcome` store what the outcome stands for. */
  lemma OutcomeStored(f: Forward, attempt: nat, o: Outcome, decidedAt: Time, at: Time)
    ensures var (verdict, delay) := Judge(attempt, o, decidedAt);
            && StandsFor(verdict.next, attempt, o)
            && StoredOutcome(RecordRow(f, verdict, at), f, attempt, o, decidedAt, at)
            && (verdict.next == Failed && attempt >= 1 ==> RetryDelay(delay, attempt))
            && (verdict.next == Failed && attempt == 0 ==> delay == 14400)
  {
  }
}
