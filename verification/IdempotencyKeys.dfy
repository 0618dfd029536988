/** The number an attempt gets and the `Idempotency-Key` a send carries: the exact law
    for both, and when two sends share a key. */
module IdempotencyKeys {
  import opened Text
  import opened Forwards
  import opened ForwardQueue
  import opened Protocol
  import opened ForwardLife
  import opened JobRuns
  import opened Runs

  /** The `Idempotency-Key` header. */
  function IdempotencyKey(id: Uuid, attempt: nat): string {
    UuidText(id) + ":" + Decimal(attempt)
  }

  lemma IdempotencyKeyInjective(id: Uuid, attempt: nat, id': Uuid, attempt': nat)
    requires IdempotencyKey(id, attempt) == IdempotencyKey(id', attempt')
    ensures id == id' && attempt == attempt'
  {
    var k := IdempotencyKey(id, attempt);
    assert k[..36] == UuidText(id) && k[..36] == UuidText(id');
    assert k[37..] == Decimal(attempt) && k[37..] == Decimal(attempt');
    UuidTextInjective(id, id');
    DecimalInjective(attempt, attempt');
  }

  /** The header reads back: the forward before the colon, the attempt after it. */
  lemma IdempotencyKeyReads(id: Uuid, attempt: nat)
    ensures var k := IdempotencyKey(id, attempt);
            && |k| > 37 && ParseUuid(k[..36]) == Some(id) && k[36] == ':' && Reads(k[37..]) == attempt
            && (forall i :: 0 <= i < 36 ==> (k[i] == '-' <==> i in {8, 13, 18, 23}))
            && (attempt > 0 ==> k[37] != '0')
  {
    var k := IdempotencyKey(id, attempt);
    assert k[..36] == UuidText(id) && k[37..] == Decimal(attempt);
    ParseUuidText(id);
    UuidLayout(id);
    DecimalReads(attempt);
  }

  // ------------------------------------------------------- the law of numbers

  /** The attempt counter read off the history: one more for each claim, and four again
      at each retry from `dead` or `abandoned`. */
  function CounterAfter(log: seq<Event>): nat {
    if log == [] then 0 else
      var e, before := log[|log| - 1], CounterAfter(log[..|log| - 1]);
      if IsTerminalRetry(e) then MAX_ATTEMPTS - 1 else if IsClaim(e) then before + 1 else before
  }

  predicate NumberedAt(log: seq<Event>, i: nat)
    requires i < |log| && IsClaim(log[i])
  {
    log[i].attempt == CounterAfter(log[..i]) + 1
  }

  ghost predicate Numbered(log: seq<Event>) {
    forall i :: 0 <= i < |log| && IsClaim(log[i]) ==> NumberedAt(log, i)
  }

  lemma NextNumbered(c: Cell, a: Action, clock: Time)
    requires Enabled(c, a, clock) && c.row.attemptCount == CounterAfter(c.log) && Numbered(c.log)
    ensures Next(c, a, clock).row.attemptCount == CounterAfter(Next(c, a, clock).log)
    ensures Numbered(Next(c, a, clock).log)
  {
    var log := c.log + [EventOf(c, a, clock)];
    assert log[..|c.log|] == c.log;
    forall i | 0 <= i < |log| && IsClaim(log[i]) ensures NumberedAt(log, i) {
      assert log[..i] == c.log[..i];
      assert i < |c.log| ==> NumberedAt(c.log, i);
    }
  }

  lemma StepNumbered(s: System, t: Step, id: Uuid)
    requires CanStep(s, t) && id in After(s, t).cells
    requires id in s.cells ==> s.cells[id].row.attemptCount == CounterAfter(s.cells[id].log) && Numbered(s.cells[id].log)
    ensures var c := After(s, t).cells[id];
            c.row.attemptCount == CounterAfter(c.log) && Numbered(c.log)
  {
    match t
    case On(i, a) => if i == id { NextNumbered(s.cells[id], a, s.clock); }
    case Redrive(endpoint, now, _, _) =>
      if Enabled(s.cells[id], Reclaim(endpoint, now), s.clock) {
        NextNumbered(s.cells[id], Reclaim(endpoint, now), s.clock);
      }
    case _ =>
  }

  lemma {:induction false} RunNumbered(run: seq<System>, steps: seq<Step>, i: nat, id: Uuid)
    requires IsRun(run, steps) && i <= |steps| && id in run[i].cells
    ensures run[i].cells[id].row.attemptCount == CounterAfter(run[i].cells[id].log)
    ensures Numbered(run[i].cells[id].log)
  {
    if i > 0 {
      assert Moves(run[i - 1], steps[i - 1], run[i]);
      if id in run[i - 1].cells {
        RunNumbered(run, steps, i - 1, id);
      }
      StepNumbered(run[i - 1], steps[i - 1], id);
    }
  }

  /** In every reachable state the stored counter and the number of every claim are
      those of the history. */
  lemma AttemptsNumbered(s: System, id: Uuid)
    requires Reachable(s) && id in s.cells
    ensures s.cells[id].row.attemptCount == CounterAfter(s.cells[id].log)
    ensures Numbered(s.cells[id].log)
  {
    var run, steps :| IsRun(run, steps) && run[|steps|] == s;
    RunNumbered(run, steps, |steps|, id);
  }

  /** In claim order, numbers grow as long as no operator retries a terminal forward. */
  lemma AttemptsGrow(s: System, id: Uuid, i: nat, j: nat)
    requires Reachable(s) && id in s.cells && i < j < |s.cells[id].log|
    requires IsClaim(s.cells[id].log[i]) && IsClaim(s.cells[id].log[j])
    requires !TerminalRetryIn(s.cells[id].log, i, j)
    ensures s.cells[id].log[i].attempt < s.cells[id].log[j].attempt
  {
    ReachableInv(s);
    assert Ahead(s.cells[id].log, i, j, s.cells[id].log[j].attempt);
  }

  // ------------------------------------------------------------ shared keys

  /** The counter a send's claim found. */
  function CounterAtClaim(log: seq<Event>, i: nat): nat
    requires i < |log| && log[i].Sent? && log[i].worker <= |log|
  {
    CounterAfter(log[..log[i].worker])
  }

  lemma SendTraced(s: System, id: Uuid, i: nat)
    requires Reachable(s) && id in s.cells && i < |s.cells[id].log|
    ensures TracedAt(s.cells[id].log, i)
  {
    ReachableInv(s);
  }

  lemma NumberOfSend(log: seq<Event>, i: nat)
    requires i < |log| && log[i].Sent? && TracedAt(log, i) && Numbered(log)
    ensures log[i].worker < i && log[i].attempt == CounterAtClaim(log, i) + 1
  {
    assert NumberedAt(log, log[i].worker);
  }

  /** A send carries one more than the counter its claim found. */
  lemma SendNumbered(s: System, id: Uuid, i: nat)
    requires Reachable(s) && id in s.cells && i < |s.cells[id].log| && s.cells[id].log[i].Sent?
    ensures s.cells[id].log[i].worker < i
    ensures s.cells[id].log[i].attempt == CounterAtClaim(s.cells[id].log, i) + 1
  {
    SendTraced(s, id, i);
    AttemptsNumbered(s, id);
    NumberOfSend(s.cells[id].log, i);
  }

  /** Two sends, of any forwards, share an idempotency key exactly when they are sends
      of one forward whose claims found the same counter. */
  lemma KeysShared(s: System, id: Uuid, i: nat, id': Uuid, j: nat)
    requires Reachable(s) && id in s.cells && id' in s.cells
    requires i < |s.cells[id].log| && s.cells[id].log[i].Sent?
    requires j < |s.cells[id'].log| && s.cells[id'].log[j].Sent?
    ensures s.cells[id].log[i].worker < i && s.cells[id'].log[j].worker < j
    ensures IdempotencyKey(id, s.cells[id].log[i].attempt) == IdempotencyKey(id', s.cells[id'].log[j].attempt)
       <==> id == id' && CounterAtClaim(s.cells[id].log, i) == CounterAtClaim(s.cells[id'].log, j)
  {
    SendNumbered(s, id, i);
    SendNumbered(s, id', j);
    if IdempotencyKey(id, s.cells[id].log[i].attempt) == IdempotencyKey(id', s.cells[id'].log[j].attempt) {
      IdempotencyKeyInjective(id, s.cells[id].log[i].attempt, id', s.cells[id'].log[j].attempt);
    }
  }

  /** Two different sends with one key come from different workers past the budget, with
      an operator's retry from `dead` or `abandoned` between their claims. */
  lemma KeysSharedAfterRetry(s: System, id: Uuid, i: nat, j: nat)
    requires Reachable(s) && id in s.cells && i < j < |s.cells[id].log|
    requires s.cells[id].log[i].Sent? && s.cells[id].log[j].Sent?
    requires IdempotencyKey(id, s.cells[id].log[i].attempt) == IdempotencyKey(id, s.cells[id].log[j].attempt)
    ensures var log := s.cells[id].log;
            var u, w := log[i].worker, log[j].worker;
            && u != w && log[i].attempt >= MAX_ATTEMPTS
            && (TerminalRetryIn(log, u, w) || TerminalRetryIn(log, w, u))
  {
    ReachableInv(s);
    IdempotencyKeyInjective(id, s.cells[id].log[i].attempt, id, s.cells[id].log[j].attempt);
    SendsShareAttempt(s.cells[id], i, j);
  }

  /** No claim lies in `log[from..to]`. */
  predicate NoClaimIn(log: seq<Event>, from: nat, to: nat) {
    forall k :: from <= k < to <= |log| ==> !IsClaim(log[k])
  }

  lemma {:induction false} CounterAfterRetry(log: seq<Event>, k: nat, to: nat)
    requires k < to <= |log| && IsTerminalRetry(log[k]) && NoClaimIn(log, k, to)
    ensures CounterAfter(log[..to]) == MAX_ATTEMPTS - 1
  {
    assert log[..to][..to - 1] == log[..to - 1];
    if k < to - 1 {
      CounterAfterRetry(log, k, to - 1);
    }
  }

  /** The first claim after a retry from `dead` or `abandoned` is number five, so its
      send repeats a key exactly when attempt five was sent before. */
  lemma RetryRepeatsKey(s: System, id: Uuid, k: nat, j: nat)
    requires Reachable(s) && id in s.cells && k < j < |s.cells[id].log|
    requires IsTerminalRetry(s.cells[id].log[k]) && s.cells[id].log[j].Sent?
    requires k < s.cells[id].log[j].worker < j && NoClaimIn(s.cells[id].log, k, s.cells[id].log[j].worker)
    ensures var log := s.cells[id].log;
            && log[j].attempt == MAX_ATTEMPTS
            && forall i :: 0 <= i < |log| && log[i].Sent? ==>
                 (IdempotencyKey(id, log[i].attempt) == IdempotencyKey(id, log[j].attempt) <==> log[i].attempt == MAX_ATTEMPTS)
  {
    var log := s.cells[id].log;
    SendNumbered(s, id, j);
    CounterAfterRetry(log, k, log[j].worker);
    forall i | 0 <= i < |log| && log[i].Sent? && IdempotencyKey(id, log[i].attempt) == IdempotencyKey(id, log[j].attempt)
      ensures log[i].attempt == MAX_ATTEMPTS
    {
      IdempotencyKeyInjective(id, log[i].attempt, id, log[j].attempt);
    }
  }

  // -------------------------------------------------- a run that shares a key

  /** Attempt five is sent and answered with a server error, which ends the forward. */
  function FinalFails(id: Uuid): seq<Step> {
    [On(id, Send(3 * LAST)), On(id, Record(3 * LAST, Response(500), DueAt(LAST), DueAt(LAST)))]
  }

  lemma SendsAndDies(c: Cell, w: nat, at: Time) returns (d: Cell)
    requires c.row.status == InFlight && w in c.holding && c.holding[w] == Worker(MAX_ATTEMPTS, at, false)
    ensures var record := Record(w, Response(500), at, at);
            && Enabled(c, Send(w), at) && Enabled(Next(c, Send(w), at), record, at)
            && d == Next(Next(c, Send(w), at), record, at)
    ensures |d.log| == |c.log| + 2 && d.log[|c.log|] == Sent(w, MAX_ATTEMPTS)
    ensures d.row.status == Dead && d.row.endpointId == c.row.endpointId
  {
    d := Next(Next(c, Send(w), at), Record(w, Response(500), at, at), at);
  }

  /** The dead forward is retried, claimed and sent again, as attempt five again. */
  lemma SendsAgain(c: Cell, endpoint: Uuid, at: Time) returns (d: Cell)
    requires c.row.status == Dead && c.row.endpointId == endpoint
    ensures Enabled(c, Retry(endpoint, at), at)
    ensures var retried := Next(c, Retry(endpoint, at), at);
            && Enabled(retried, Claim(at), at)
            && var claimed := Next(retried, Claim(at), at);
               && Enabled(claimed, Send(|c.log| + 1), at) && d == Next(claimed, Send(|c.log| + 1), at)
    ensures |d.log| == |c.log| + 3 && d.log[..|c.log|] == c.log && d.log[|c.log| + 2] == Sent(|c.log| + 1, MAX_ATTEMPTS)
  {
    d := Next(Next(Next(c, Retry(endpoint, at), at), Claim(at), at), Send(|c.log| + 1), at);
  }

  /** Five attempts on schedule, the fifth answered; then a retry whose job makes another. */
  function RepeatRun(id: Uuid, requestId: Uuid, endpoint: Uuid, url: string): seq<Step> {
    BegunRun(id, requestId, endpoint, url, LAST) + FinalFails(id)
    + RetriedAgain(id, endpoint, DueAt(LAST)) + TakenAgain(id, DueAt(LAST)) + [On(id, Send(3 * LAST + 4))]
  }

  lemma FinalAttemptDies(id: Uuid, requestId: Uuid, endpoint: Uuid, url: string) returns (s: System)
    ensures Plays(BegunRun(id, requestId, endpoint, url, LAST) + FinalFails(id), s)
    ensures s.clock == DueAt(LAST) && Job(id, 0) in s.kept && id in s.cells
    ensures s.cells[id].row.status == Dead && s.cells[id].row.endpointId == endpoint
    ensures |s.cells[id].log| == 15 && s.cells[id].log[13] == Sent(12, MAX_ATTEMPTS)
  {
    var t := FinalFails(id);
    var held := AttemptBegins(id, requestId, endpoint, url, LAST);
    var dead := SendsAndDies(held.cells[id], 3 * LAST, DueAt(LAST));
    s := TwoStepsLead(held, t[0], t[1]);
    assert s.cells[id] == dead;
    PlaysFurther(BegunRun(id, requestId, endpoint, url, LAST), held, t, s);
  }

  lemma DeadSendsAgain(steps: seq<Step>, s: System, id: Uuid, endpoint: Uuid, at: Time) returns (n: System)
    requires Plays(steps, s) && s.clock == at && Job(id, 0) in s.kept && id in s.cells
    requires s.cells[id].row.status == Dead && s.cells[id].row.endpointId == endpoint
    ensures var log := s.cells[id].log;
            && Plays(steps + RetriedAgain(id, endpoint, at) + TakenAgain(id, at) + [On(id, Send(|log| + 1))], n)
            && id in n.cells && |n.cells[id].log| == |log| + 3 && n.cells[id].log[..|log|] == log
            && n.cells[id].log[|log| + 2] == Sent(|log| + 1, MAX_ATTEMPTS)
  {
    var again := SendsAgain(s.cells[id], endpoint, at);
    var retried := RetryStored(s, id, endpoint, at);
    PlaysFurther(steps, s, RetriedAgain(id, endpoint, at), retried);
    var all := steps + RetriedAgain(id, endpoint, at);
    var claimed := JobTaken(retried, id, at);
    PlaysFurther(all, retried, TakenAgain(id, at), claimed);
    all := all + TakenAgain(id, at);
    var t := On(id, Send(|s.cells[id].log| + 1));
    n := After(claimed, t);
    OneStepLeads(claimed, t, n);
    PlaysFurther(all, claimed, [t], n);
    assert n.cells[id] == again;
  }

  /** Sharing does happen, to every forward, on schedule and one fired job per claim:
      attempt five is sent twice under one key. */
  lemma KeyRepeated(id: Uuid, requestId: Uuid, endpoint: Uuid, url: string)
    ensures exists s :: Plays(RepeatRun(id, requestId, endpoint, url), s) && id in s.cells
              && exists i, j :: 0 <= i < j < |s.cells[id].log| && s.cells[id].log[i].Sent? && s.cells[id].log[j].Sent?
                   && IdempotencyKey(id, s.cells[id].log[i].attempt) == IdempotencyKey(id, s.cells[id].log[j].attempt)
  {
    var dead := FinalAttemptDies(id, requestId, endpoint, url);
    var s := DeadSendsAgain(BegunRun(id, requestId, endpoint, url, LAST) + FinalFails(id), dead, id, endpoint, DueAt(LAST));
    var log := s.cells[id].log;
    assert log[13] == log[..15][13] == Sent(12, MAX_ATTEMPTS);
    assert log[17].Sent? && log[13].Sent?;
  }
}
