/** What the invariant of one forward says about its whole life. */
module ForwardLife {
  import opened Forwards
  import opened Protocol

  /** An attempt number below the budget is claimed at most once. */
  lemma EarlyClaimsDiffer(c: Cell, i: nat, j: nat)
    requires ClaimsOrdered(c.log, c.row.attemptCount)
    requires i < |c.log| && j < |c.log| && i != j && IsClaim(c.log[i]) && IsClaim(c.log[j])
    requires c.log[i].attempt < MAX_ATTEMPTS
    ensures c.log[i].attempt != c.log[j].attempt
  {
    if i < j {
      assert Ahead(c.log, i, j, c.log[j].attempt);
    } else {
      assert Ahead(c.log, j, i, c.log[i].attempt);
    }
  }

  predicate FailureOf(e: Event, attempt: nat) { IsFailure(e) && e.attempt == attempt }

  predicate RequeueOf(e: Event, attempt: nat) { e.Requeued? && e.attempt == attempt }

  function CountFailures(log: seq<Event>, attempt: nat): nat {
    Count(log, e => FailureOf(e, attempt))
  }

  function CountRequeues(log: seq<Event>, attempt: nat): nat {
    Count(log, e => RequeueOf(e, attempt))
  }

  lemma EarlyOutcomesUnique(c: Cell, attempt: nat)
    requires Traced(c.log) && OncePerWorker(c.log) && ClaimsOrdered(c.log, c.row.attemptCount)
    requires attempt < MAX_ATTEMPTS
    ensures CountFailures(c.log, attempt) <= 1
    ensures CountRequeues(c.log, attempt) <= 1
  {
    forall i, j | 0 <= i < j < |c.log|
      ensures !(FailureOf(c.log[i], attempt) && FailureOf(c.log[j], attempt))
      ensures !(RequeueOf(c.log[i], attempt) && RequeueOf(c.log[j], attempt))
    {
      assert TracedAt(c.log, i) && TracedAt(c.log, j);
      assert !SameWorkerEvent(c.log[i], c.log[j]);
      if (IsFailure(c.log[i]) && IsFailure(c.log[j])) || (c.log[i].Requeued? && c.log[j].Requeued?) {
        EarlyClaimsDiffer(c, c.log[i].worker, c.log[j].worker);
      }
    }
    CountUnique(c.log, e => FailureOf(e, attempt));
    CountUnique(c.log, e => RequeueOf(e, attempt));
  }

  lemma {:induction false} FailuresSplit(log: seq<Event>, n: nat)
    requires n <= |log| && Traced(log)
    ensures Count(log[..n], IsFailure)
         == CountFailures(log[..n], 1) + CountFailures(log[..n], 2) + CountFailures(log[..n], 3) + CountFailures(log[..n], 4)
  {
    if n > 0 {
      FailuresSplit(log, n - 1);
      assert log[..n][..n - 1] == log[..n - 1];
      assert TracedAt(log, n - 1);
    }
  }

  /** In all its life a forward is recorded `failed` by a worker at most four times. */
  lemma FailuresBounded(c: Cell)
    requires Traced(c.log) && OncePerWorker(c.log) && ClaimsOrdered(c.log, c.row.attemptCount)
    ensures Count(c.log, IsFailure) <= MAX_ATTEMPTS - 1
  {
    FailuresSplit(c.log, |c.log|);
    assert c.log[..|c.log|] == c.log;
    EarlyOutcomesUnique(c, 1);
    EarlyOutcomesUnique(c, 2);
    EarlyOutcomesUnique(c, 3);
    EarlyOutcomesUnique(c, 4);
  }

  /** The delays handed to the queue over a forward's life, in seconds. */
  function TotalDelay(log: seq<Event>): nat {
    if log == [] then 0 else
      TotalDelay(log[..|log| - 1]) + (if log[|log| - 1].Requeued? then log[|log| - 1].deferSeconds else 0)
  }

  lemma {:induction false} DelaySplit(log: seq<Event>, n: nat)
    requires n <= |log| && Traced(log)
    ensures TotalDelay(log[..n])
         == 30 * CountRequeues(log[..n], 1) + 120 * CountRequeues(log[..n], 2)
          + 600 * CountRequeues(log[..n], 3) + 3600 * CountRequeues(log[..n], 4)
  {
    if n > 0 {
      DelaySplit(log, n - 1);
      assert log[..n][..n - 1] == log[..n - 1];
      assert TracedAt(log, n - 1);
    }
  }

  /** A forward is held back by scheduled retries for 4350 seconds at most. */
  lemma DelayBounded(c: Cell)
    requires Traced(c.log) && OncePerWorker(c.log) && ClaimsOrdered(c.log, c.row.attemptCount)
    ensures TotalDelay(c.log) <= 4350
  {
    DelaySplit(c.log, |c.log|);
    assert c.log[..|c.log|] == c.log;
    EarlyOutcomesUnique(c, 1);
    EarlyOutcomesUnique(c, 2);
    EarlyOutcomesUnique(c, 3);
    EarlyOutcomesUnique(c, 4);
  }

  /** Two scheduled retries of a forward never carry the same delay. */
  lemma DelaysDiffer(c: Cell, i: nat, j: nat)
    requires Traced(c.log) && OncePerWorker(c.log) && ClaimsOrdered(c.log, c.row.attemptCount)
    requires i < j < |c.log| && c.log[i].Requeued? && c.log[j].Requeued?
    ensures c.log[i].deferSeconds != c.log[j].deferSeconds
  {
    assert TracedAt(c.log, i) && TracedAt(c.log, j);
    assert !SameWorkerEvent(c.log[i], c.log[j]);
    EarlyClaimsDiffer(c, c.log[i].worker, c.log[j].worker);
  }

  /** Every scheduled delay is one of the first four backoffs, each used once at most. */
  ghost predicate BackoffsDistinct(log: seq<Event>) {
    && (forall i :: 0 <= i < |log| && log[i].Requeued? ==> log[i].deferSeconds in {30, 120, 600, 3600})
    && (forall i, j :: 0 <= i < j < |log| && log[i].Requeued? && log[j].Requeued? ==>
          log[i].deferSeconds != log[j].deferSeconds)
  }

  lemma DelaysDistinct(c: Cell)
    requires Traced(c.log) && OncePerWorker(c.log) && ClaimsOrdered(c.log, c.row.attemptCount)
    ensures BackoffsDistinct(c.log)
  {
    forall i | 0 <= i < |c.log| && c.log[i].Requeued? ensures c.log[i].deferSeconds in {30, 120, 600, 3600} {
      assert TracedAt(c.log, i);
    }
    forall i, j | 0 <= i < j < |c.log| && c.log[i].Requeued? && c.log[j].Requeued?
      ensures c.log[i].deferSeconds != c.log[j].deferSeconds
    {
      DelaysDiffer(c, i, j);
    }
  }

  lemma PendingDelayPositive(c: Cell, clock: Time, w: nat)
    requires WorkersBacked(c, clock) && w in c.requeueing
    ensures RequeueDelay(c, w) in {30, 120, 600, 3600}
  {
  }

  /** A retry about to be scheduled has a delay no earlier retry had. */
  lemma PendingDelayIsNew(c: Cell, clock: Time, w: nat, i: nat)
    requires Traced(c.log) && WorkersBacked(c, clock) && ClaimsOrdered(c.log, c.row.attemptCount)
    requires w in c.requeueing && i < |c.log| && c.log[i].Requeued?
    ensures c.log[i].deferSeconds != RequeueDelay(c, w)
  {
    assert TracedAt(c.log, i) && Behind(c.log[i], c.holding, c.requeueing);
    EarlyClaimsDiffer(c, c.log[i].worker, w);
  }

  /** Two sends carry the same attempt number only past the budget, and only when an
      operator retried the forward from `dead` or `abandoned` between their claims. */
  lemma SendsShareAttempt(c: Cell, i: nat, j: nat)
    requires Traced(c.log) && OncePerWorker(c.log) && ClaimsOrdered(c.log, c.row.attemptCount)
    requires i < j < |c.log| && c.log[i].Sent? && c.log[j].Sent? && c.log[i].attempt == c.log[j].attempt
    ensures c.log[i].worker != c.log[j].worker
    ensures c.log[i].attempt >= MAX_ATTEMPTS
    ensures TerminalRetryIn(c.log, c.log[i].worker, c.log[j].worker) || TerminalRetryIn(c.log, c.log[j].worker, c.log[i].worker)
  {
    assert TracedAt(c.log, i) && TracedAt(c.log, j);
    var u, w := c.log[i].worker, c.log[j].worker;
    assert !SameWorkerEvent(c.log[i], c.log[j]);
    if u < w {
      assert Ahead(c.log, u, w, c.log[w].attempt);
    } else {
      assert Ahead(c.log, w, u, c.log[u].attempt);
    }
  }
}
