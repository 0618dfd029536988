/** The life of one forward: its row, the workers that hold it and a log of what
    happened, under every interleaving of workers, crashes, recovery and operators. */
module Protocol {
  import opened Text
  import opened Forwards

  /** A worker between its claim and its record. It is named by the position its
      claim has in the log. */
  datatype Worker = Worker(attempt: nat, startedAt: Time, sent: bool)

  datatype Event =
    | Claimed(attempt: nat)
    | Expired(attempt: nat)
    | Sent(worker: nat, attempt: nat)
    | Recorded(worker: nat, attempt: nat, was: Status, next: Status)
    | Requeued(worker: nat, attempt: nat, deferSeconds: nat)
    | Crashed(worker: nat, holding: bool)
    | Reclaimed
    | AbandonedFrom(was: Status)
    | RetriedFrom(was: Status)

  /** `holding` maps a worker to its claim; `requeueing` maps a worker that has
      recorded `failed` to the attempt it has still to re-enqueue. */
  datatype Cell = Cell(row: Forward, holding: map<nat, Worker>, requeueing: map<nat, nat>, log: seq<Event>)

  /** The atomic steps. `now` is the clock reading the step carries; it may be stale. */
  datatype Action =
    | Claim(now: Time)
    | ClaimExpired(now: Time, recordNow: Time)
    | Send(worker: nat)
    | Record(worker: nat, outcome: Outcome, decidedAt: Time, now: Time)
    | Requeue(worker: nat)
    | Crash(worker: nat)
    | Reclaim(endpoint: Uuid, now: Time)
    | Abandon(endpoint: Uuid, now: Time)
    | Retry(endpoint: Uuid, now: Time)

  predicate Enabled(c: Cell, a: Action, clock: Time) {
    match a
    case Claim(now) => now <= clock && ClaimRow(c.row, now).Some?
    case ClaimExpired(now, recordNow) => now <= recordNow <= clock && ClaimRow(c.row, now).Some?
    case Send(w) => w in c.holding && !c.holding[w].sent
    case Record(w, outcome, decidedAt, now) =>
      w in c.holding && decidedAt <= now <= clock && (outcome.Response? ==> c.holding[w].sent)
    case Requeue(w) => w in c.requeueing
    case Crash(w) => w in c.holding || w in c.requeueing
    case Reclaim(endpoint, now) => now <= clock && ReclaimRow(c.row, endpoint, STUCK_IN_FLIGHT_SECONDS, now).Some?
    case Abandon(endpoint, now) => now <= clock && AbandonRow(c.row, endpoint, now).Some?
    case Retry(endpoint, now) => now <= clock && RetryRow(c.row, endpoint, now).Some?
  }

  const EXPIRED_VERDICT := Verdict(Dead, None, Some(NOT_FOUND), None)

  /** The log entry of a step. */
  function EventOf(c: Cell, a: Action, clock: Time): Event
    requires Enabled(c, a, clock)
  {
    match a
    case Claim(_) => Claimed(c.row.attemptCount + 1)
    case ClaimExpired(_, _) => Expired(c.row.attemptCount + 1)
    case Send(w) => Sent(w, c.holding[w].attempt)
    case Record(w, outcome, decidedAt, _) =>
      Recorded(w, c.holding[w].attempt, c.row.status, Judge(c.holding[w].attempt, outcome, decidedAt).0.next)
    case Requeue(w) => Requeued(w, c.requeueing[w], RequeueDelay(c, w))
    case Crash(w) => Crashed(w, w in c.holding)
    case Reclaim(_, _) => Reclaimed
    case Abandon(_, _) => AbandonedFrom(c.row.status)
    case Retry(_, _) => RetriedFrom(c.row.status)
  }

  function NextRow(c: Cell, a: Action, clock: Time): Forward
    requires Enabled(c, a, clock)
  {
    match a
    case Claim(now) => ClaimRow(c.row, now).value
    case ClaimExpired(now, recordNow) => RecordRow(ClaimRow(c.row, now).value, EXPIRED_VERDICT, recordNow)
    case Record(w, outcome, decidedAt, now) => RecordRow(c.row, Judge(c.holding[w].attempt, outcome, decidedAt).0, now)
    case Reclaim(endpoint, now) => ReclaimRow(c.row, endpoint, STUCK_IN_FLIGHT_SECONDS, now).value
    case Abandon(endpoint, now) => AbandonRow(c.row, endpoint, now).value
    case Retry(endpoint, now) => RetryRow(c.row, endpoint, now).value
    case _ => c.row
  }

  function NextHolding(c: Cell, a: Action, clock: Time): map<nat, Worker>
    requires Enabled(c, a, clock)
  {
    match a
    case Claim(now) => c.holding[|c.log| := Worker(c.row.attemptCount + 1, now, false)]
    case Send(w) => c.holding[w := c.holding[w].(sent := true)]
    case Record(w, _, _, _) => c.holding - {w}
    case Crash(w) => c.holding - {w}
    case _ => c.holding
  }

  function NextRequeueing(c: Cell, a: Action, clock: Time): map<nat, nat>
    requires Enabled(c, a, clock)
  {
    match a
    case Record(w, outcome, decidedAt, _) =>
      if Judge(c.holding[w].attempt, outcome, decidedAt).0.next == Failed
      then c.requeueing[w := c.holding[w].attempt] else c.requeueing
    case Requeue(w) => c.requeueing - {w}
    case Crash(w) => c.requeueing - {w}
    case _ => c.requeueing
  }

  function Next(c: Cell, a: Action, clock: Time): Cell
    requires Enabled(c, a, clock)
  {
    Cell(NextRow(c, a, clock), NextHolding(c, a, clock), NextRequeueing(c, a, clock), c.log + [EventOf(c, a, clock)])
  }

  /** The delay a requeueing worker hands to the queue: the one `decide` gave it
      when it recorded `failed`. */
  function RequeueDelay(c: Cell, w: nat): nat
    requires w in c.requeueing
  {
    if c.requeueing[w] < MAX_ATTEMPTS then BackoffAfter(c.requeueing[w]) else 0
  }

  function Born(f: Forward): Cell {
    Cell(f, map[], map[], [])
  }

  // ---------------------------------------------------------------- counting

  function Count(log: seq<Event>, p: Event -> bool): nat {
    if log == [] then 0 else Count(log[..|log| - 1], p) + (if p(log[|log| - 1]) then 1 else 0)
  }

  predicate IsClaim(e: Event) { e.Claimed? || e.Expired? }
  predicate IsFailure(e: Event) { e.Recorded? && e.next == Failed }
  predicate IsReclaim(e: Event) { e.Reclaimed? }
  predicate IsTerminalRetry(e: Event) { e.RetriedFrom? && e.was != Failed }
  predicate IsHolderCrash(e: Event) { e.Crashed? && e.holding }
  predicate IsLateRecord(e: Event) { e.Recorded? && e.was != InFlight }
  predicate IsInFlightAbandon(e: Event) { e.AbandonedFrom? && e.was == InFlight }

  lemma CountPush(log: seq<Event>, e: Event, p: Event -> bool)
    ensures Count(log + [e], p) == Count(log, p) + (if p(e) then 1 else 0)
  {
    assert (log + [e])[..|log|] == log;
  }

  /** A kind of event that occurs at one position at most is counted once at most. */
  lemma {:induction false} CountUnique(log: seq<Event>, p: Event -> bool)
    requires forall i, j :: 0 <= i < j < |log| ==> !(p(log[i]) && p(log[j]))
    ensures Count(log, p) <= 1
    ensures (forall i :: 0 <= i < |log| ==> !p(log[i])) ==> Count(log, p) == 0
  {
    if log != [] {
      CountUnique(log[..|log| - 1], p);
    }
  }

  // --------------------------------------------------------------- invariants

  /** What a stored row always satisfies. */
  predicate RowCoherent(f: Forward, clock: Time) {
    && (f.forwardCompletedAt.Some? <==> Terminal(f.status))
    && (f.status == Failed ==> f.nextAttemptAt.Some? && f.nextAttemptAt.value <= clock)
    && (f.status in {InFlight, Succeeded, Failed} ==> f.forwardStartedAt.Some? && f.attemptCount >= 1)
    && f.lastAttemptAt == f.forwardStartedAt
    && (f.status == Succeeded ==> f.finalError == None && f.finalStatusCode.Some? && 200 <= f.finalStatusCode.value < 300)
    && (f.status == Pending ==> f.finalError == None && f.finalStatusCode == None)
    && (f.status == Pending ==> f.nextAttemptAt == if f.manualRetryAt.Some? then f.manualRetryAt else Some(f.createdAt))
    && (f.status == Pending && f.attemptCount > 0 ==> f.manualRetryAt.Some?)
    && (f.status == Dead ==> f.finalError.Some? || f.finalStatusCode.Some?)
    && (f.status == Abandoned ==> f.finalError == Some(ABANDONED_BY_OWNER))
    && (f.status in {Succeeded, Dead} ==> f.nextAttemptAt == None)
  }

  /** Event `i` was caused by the worker whose claim is at position `w`. */
  predicate CausedBy(log: seq<Event>, i: nat, w: nat, attempt: nat)
    requires i < |log|
  {
    w < i && log[w] == Claimed(attempt)
  }

  /** A worker event points back at its claim, and carries what that claim allows. */
  predicate TracedAt(log: seq<Event>, i: nat)
    requires i < |log|
  {
    match log[i]
    case Sent(w, v) => CausedBy(log, i, w, v)
    case Recorded(w, v, _, next) => CausedBy(log, i, w, v) && (next == Failed ==> 1 <= v < MAX_ATTEMPTS)
    case Requeued(w, v, d) => CausedBy(log, i, w, v) && 1 <= v < MAX_ATTEMPTS && d == BackoffAfter(v)
    case _ => true
  }

  ghost predicate Traced(log: seq<Event>) {
    forall i :: 0 <= i < |log| ==> TracedAt(log, i)
  }

  predicate SameWorkerEvent(d: Event, e: Event) {
    || (d.Sent? && e.Sent? && d.worker == e.worker)
    || (d.Recorded? && e.Recorded? && d.worker == e.worker)
    || (d.Requeued? && e.Requeued? && d.worker == e.worker)
  }

  /** A worker sends once, records once and re-enqueues once. */
  ghost predicate OncePerWorker(log: seq<Event>) {
    forall i, j :: 0 <= i < j < |log| ==> !SameWorkerEvent(log[i], log[j])
  }

  /** A live worker is backed by its claim. */
  ghost predicate HoldersBacked(log: seq<Event>, holding: map<nat, Worker>, clock: Time) {
    forall w :: w in holding ==>
      w < |log| && log[w] == Claimed(holding[w].attempt) && holding[w].attempt >= 1 && holding[w].startedAt <= clock
  }

  ghost predicate RequeueersBacked(log: seq<Event>, requeueing: map<nat, nat>) {
    forall w :: w in requeueing ==>
      w < |log| && log[w] == Claimed(requeueing[w]) && 1 <= requeueing[w] < MAX_ATTEMPTS
  }

  /** What event `e` says its worker has done is not still ahead of that worker. */
  predicate Behind(e: Event, holding: map<nat, Worker>, requeueing: map<nat, nat>) {
    && (e.Sent? && e.worker in holding ==> holding[e.worker].sent)
    && (e.Recorded? ==> e.worker !in holding)
    && (e.Requeued? ==> e.worker !in holding && e.worker !in requeueing)
  }

  ghost predicate WorkersBacked(c: Cell, clock: Time) {
    && c.holding.Keys !! c.requeueing.Keys
    && HoldersBacked(c.log, c.holding, clock)
    && RequeueersBacked(c.log, c.requeueing)
    && (forall i :: 0 <= i < |c.log| ==> Behind(c.log[i], c.holding, c.requeueing))
  }

  /** A claimed row has its start time and a positive counter. */
  predicate StartedWhenClaimed(c: Cell) {
    c.holding != map[] ==> c.row.forwardStartedAt.Some? && c.row.attemptCount >= 1
  }

  /** An operator has retried the forward from `dead` or `abandoned` in `log[from..to]`. */
  predicate TerminalRetryIn(log: seq<Event>, from: nat, to: nat) {
    exists k :: from <= k < to <= |log| && IsTerminalRetry(log[k])
  }

  /** The attempt number of a claim against one of a later claim, or against the
      row's counter: it is larger unless a terminal retry came between, and the
      first four numbers are never reached twice. */
  ghost predicate Ahead(log: seq<Event>, i: nat, j: nat, later: nat)
    requires i < |log| && (log[i].Claimed? || log[i].Expired?)
  {
    && (log[i].attempt < MAX_ATTEMPTS ==> log[i].attempt < later)
    && (!TerminalRetryIn(log, i, j) ==> log[i].attempt < later)
  }

  ghost predicate ClaimsOrdered(log: seq<Event>, attemptCount: nat) {
    && (forall i, j :: 0 <= i < j < |log| && IsClaim(log[i]) && IsClaim(log[j]) ==> Ahead(log, i, j, log[j].attempt))
    && (forall i :: 0 <= i < |log| && IsClaim(log[i]) ==> 1 <= log[i].attempt && Ahead(log, i, |log|, attemptCount + 1))
  }

  predicate Free(s: Status) {
    s != InFlight
  }

  function Bit(b: bool): nat {
    if b then 1 else 0
  }

  /** Nobody's work is double-counted: holders, the free row, lost and late workers
      are exactly paid for by the reclaims and the in-flight abandons. */
  predicate Conserved(c: Cell) {
    |c.holding| + Bit(Free(c.row.status)) + Count(c.log, IsHolderCrash) + Count(c.log, IsLateRecord)
    == 1 + Count(c.log, IsReclaim) + Count(c.log, IsInFlightAbandon)
  }

  /** Claims are paid for by what made the row claimable again. */
  predicate Budgeted(c: Cell) {
    Count(c.log, IsClaim) + Bit(Claimable(c.row.status))
    <= 1 + Count(c.log, IsFailure) + Count(c.log, IsReclaim) + Count(c.log, IsTerminalRetry)
  }

  ghost predicate CellInv(c: Cell, clock: Time) {
    && RowCoherent(c.row, clock)
    && Traced(c.log)
    && OncePerWorker(c.log)
    && WorkersBacked(c, clock)
    && StartedWhenClaimed(c)
    && ClaimsOrdered(c.log, c.row.attemptCount)
    && Conserved(c)
    && Budgeted(c)
  }

  lemma BornInv(f: Forward, id: Uuid, requestId: Uuid, endpoint: Uuid, url: string, now: Time, clock: Time)
    requires f == Create(id, requestId, endpoint, url, now) && now <= clock
    ensures CellInv(Born(f), clock)
  {
  }

  lemma ClockForward(c: Cell, clock: Time, later: Time)
    requires CellInv(c, clock) && clock <= later
    ensures CellInv(c, later)
  {
  }

  // -------------------------------------------- every step keeps every invariant

  lemma KeepsCoherent(c: Cell, a: Action, clock: Time)
    requires Enabled(c, a, clock) && RowCoherent(c.row, clock) && StartedWhenClaimed(c)
    ensures RowCoherent(NextRow(c, a, clock), clock)
    ensures StartedWhenClaimed(Next(c, a, clock))
  {
  }

  lemma KeepsTraced(c: Cell, a: Action, clock: Time)
    requires Enabled(c, a, clock) && Traced(c.log) && WorkersBacked(c, clock)
    ensures Traced(Next(c, a, clock).log)
  {
    var log := c.log + [EventOf(c, a, clock)];
    forall i | 0 <= i < |log| ensures TracedAt(log, i) {
      if i < |c.log| {
        assert TracedAt(c.log, i);
      }
    }
  }

  lemma KeepsOnce(c: Cell, a: Action, clock: Time)
    requires Enabled(c, a, clock) && OncePerWorker(c.log) && WorkersBacked(c, clock)
    ensures OncePerWorker(Next(c, a, clock).log)
  {
  }

  lemma KeepsBacked(c: Cell, a: Action, clock: Time)
    requires Enabled(c, a, clock) && Traced(c.log) && WorkersBacked(c, clock)
    ensures WorkersBacked(Next(c, a, clock), clock)
  {
    var n := Next(c, a, clock);
    KeepsRequeueers(c, a, clock);
    KeepsHolders(c, a, clock);
    forall i | 0 <= i < |n.log| ensures Behind(n.log[i], n.holding, n.requeueing) {
      if i < |c.log| {
        assert TracedAt(c.log, i);
        KeepsBehind(c, a, clock, c.log[i]);
      } else {
        NewEventBehind(c, a, clock);
      }
    }
  }

  lemma KeepsHolders(c: Cell, a: Action, clock: Time)
    requires Enabled(c, a, clock) && HoldersBacked(c.log, c.holding, clock)
    ensures HoldersBacked(Next(c, a, clock).log, NextHolding(c, a, clock), clock)
  {
  }

  lemma KeepsBehind(c: Cell, a: Action, clock: Time, e: Event)
    requires Enabled(c, a, clock) && Behind(e, c.holding, c.requeueing)
    requires e.Sent? || e.Recorded? || e.Requeued? ==> e.worker < |c.log|
    ensures Behind(e, NextHolding(c, a, clock), NextRequeueing(c, a, clock))
  {
  }

  lemma NewEventBehind(c: Cell, a: Action, clock: Time)
    requires Enabled(c, a, clock) && WorkersBacked(c, clock)
    ensures Behind(EventOf(c, a, clock), NextHolding(c, a, clock), NextRequeueing(c, a, clock))
  {
  }

  lemma KeepsRequeueers(c: Cell, a: Action, clock: Time)
    requires Enabled(c, a, clock) && WorkersBacked(c, clock)
    ensures RequeueersBacked(Next(c, a, clock).log, NextRequeueing(c, a, clock))
    ensures NextHolding(c, a, clock).Keys !! NextRequeueing(c, a, clock).Keys
  {
  }

  lemma KeepsOrdered(c: Cell, a: Action, clock: Time)
    requires Enabled(c, a, clock) && ClaimsOrdered(c.log, c.row.attemptCount)
    ensures ClaimsOrdered(Next(c, a, clock).log, Next(c, a, clock).row.attemptCount)
  {
    var e := EventOf(c, a, clock);
    var log, row := c.log + [e], NextRow(c, a, clock);
    forall i | 0 <= i < |log| && IsClaim(log[i])
      ensures 1 <= log[i].attempt && Ahead(log, i, |log|, row.attemptCount + 1)
    {
      if i < |c.log| {
        assert Ahead(c.log, i, |c.log|, c.row.attemptCount + 1);
        RetryInLonger(c.log, e, i, |c.log|);
      }
    }
    forall i, j | 0 <= i < j < |log| && IsClaim(log[i]) && IsClaim(log[j])
      ensures Ahead(log, i, j, log[j].attempt)
    {
      RetryInLonger(c.log, e, i, j);
      assert Ahead(c.log, i, j, log[j].attempt);
    }
  }

  lemma RetryInLonger(log: seq<Event>, e: Event, from: nat, to: nat)
    requires from <= to <= |log|
    ensures TerminalRetryIn(log + [e], from, to) == TerminalRetryIn(log, from, to)
    ensures TerminalRetryIn(log + [e], from, |log| + 1) == (TerminalRetryIn(log, from, |log|) || IsTerminalRetry(e))
  {
    var longer := log + [e];
    assert forall k :: 0 <= k < |log| ==> longer[k] == log[k];
    assert longer[|log|] == e;
  }

  lemma KeepsConserved(c: Cell, a: Action, clock: Time)
    requires Enabled(c, a, clock) && WorkersBacked(c, clock) && Conserved(c)
    ensures Conserved(Next(c, a, clock))
  {
    var e := EventOf(c, a, clock);
    CountPush(c.log, e, IsHolderCrash);
    CountPush(c.log, e, IsLateRecord);
    CountPush(c.log, e, IsReclaim);
    CountPush(c.log, e, IsInFlightAbandon);
    ExclusionBalance(c, a, clock, e);
  }

  /** One step, without the log: what it adds to the holders and the free row. */
  lemma ExclusionBalance(c: Cell, a: Action, clock: Time, e: Event)
    requires Enabled(c, a, clock) && |c.log| !in c.holding && e == EventOf(c, a, clock)
    ensures |NextHolding(c, a, clock)| + Bit(Free(NextRow(c, a, clock).status)) + Bit(IsHolderCrash(e)) + Bit(IsLateRecord(e))
         == |c.holding| + Bit(Free(c.row.status)) + Bit(IsReclaim(e)) + Bit(IsInFlightAbandon(e))
  {
    HoldersMove(c, a, clock);
  }

  lemma MapSizes<V>(m: map<nat, V>, k: nat, v: V)
    ensures |m[k := v]| == |m| + Bit(k !in m)
    ensures |m - {k}| + Bit(k in m) == |m|
  {
    assert m[k := v].Keys == m.Keys + {k};
    assert (m - {k}).Keys == m.Keys - {k};
  }

  /** Holders change by one at a claim, a record and a crash of a holder. */
  lemma HoldersMove(c: Cell, a: Action, clock: Time)
    requires Enabled(c, a, clock) && |c.log| !in c.holding
    ensures |NextHolding(c, a, clock)| + Bit(a.Record? || (a.Crash? && a.worker in c.holding)) == |c.holding| + Bit(a.Claim?)
  {
    match a
    case Claim(now) => MapSizes(c.holding, |c.log|, Worker(c.row.attemptCount + 1, now, false));
    case Send(w) => MapSizes(c.holding, w, c.holding[w].(sent := true));
    case Record(w, _, _, _) => MapSizes(c.holding, w, c.holding[w]);
    case Crash(w) =>
      if w in c.holding {
        MapSizes(c.holding, w, c.holding[w]);
      } else {
        assert c.holding - {w} == c.holding;
      }
    case _ =>
  }

  lemma KeepsBudgeted(c: Cell, a: Action, clock: Time)
    requires Enabled(c, a, clock) && Budgeted(c)
    ensures Budgeted(Next(c, a, clock))
  {
    var e := EventOf(c, a, clock);
    CountPush(c.log, e, IsClaim);
    CountPush(c.log, e, IsFailure);
    CountPush(c.log, e, IsReclaim);
    CountPush(c.log, e, IsTerminalRetry);
    BudgetBalance(c, a, clock, e);
  }

  lemma BudgetBalance(c: Cell, a: Action, clock: Time, e: Event)
    requires Enabled(c, a, clock) && e == EventOf(c, a, clock)
    ensures Bit(IsClaim(e)) + Bit(Claimable(NextRow(c, a, clock).status))
         <= Bit(Claimable(c.row.status)) + Bit(IsFailure(e)) + Bit(IsReclaim(e)) + Bit(IsTerminalRetry(e))
  {
  }

  /** The invariant survives every step, whatever the other steps were. */
  lemma StepKeepsInv(c: Cell, a: Action, clock: Time)
    requires CellInv(c, clock) && Enabled(c, a, clock)
    ensures CellInv(Next(c, a, clock), clock)
  {
    KeepsCoherent(c, a, clock);
    KeepsTraced(c, a, clock);
    KeepsOnce(c, a, clock);
    KeepsBacked(c, a, clock);
    KeepsOrdered(c, a, clock);
    KeepsConserved(c, a, clock);
    KeepsBudgeted(c, a, clock);
  }
}
