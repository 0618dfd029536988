/** Runs a deployment can go through: every claim is made by a job that was waiting on the
    queue, and every retry waits out its delay. They show that bounds are reached and that
    failures happen. */
module JobRuns {
  import opened Text
  import opened Forwards
  import opened ForwardQueue
  import opened Protocol
  import opened Runs

  predicate IsClaimStep(t: Step) {
    t.On? && (t.action.Claim? || t.action.ClaimExpired?)
  }

  /** Every claim is made by a job of its forward taken from the queue just before: one
      job for each claim. */
  ghost predicate JobDriven(steps: seq<Step>) {
    forall i :: 0 <= i < |steps| && IsClaimStep(steps[i]) ==>
      i > 0 && steps[i - 1].Fire? && steps[i - 1].job.forward == steps[i].id
  }

  /** A run of fired jobs from the empty system to `s`. */
  ghost predicate Plays(steps: seq<Step>, s: System) {
    Leads(Empty(), steps, s) && JobDriven(steps)
  }

  lemma DrivenFurther(steps: seq<Step>, more: seq<Step>)
    requires JobDriven(steps) && JobDriven(more)
    ensures JobDriven(steps + more)
  {
    var all := steps + more;
    forall i | 0 <= i < |all| && IsClaimStep(all[i])
      ensures i > 0 && all[i - 1].Fire? && all[i - 1].job.forward == all[i].id
    {
      if i < |steps| {
        assert all[i] == steps[i];
      } else {
        assert all[i] == more[i - |steps|];
      }
    }
  }

  lemma PlaysFurther(steps: seq<Step>, s: System, more: seq<Step>, n: System)
    requires Plays(steps, s) && Leads(s, more, n) && JobDriven(more)
    ensures Plays(steps + more, n)
  {
    LeadsFurther(Empty(), steps, s, more, n);
    DrivenFurther(steps, more);
  }

  lemma PlaysReachable(steps: seq<Step>, s: System)
    requires Plays(steps, s)
    ensures Reachable(s)
  {
    EmptyReachable();
    LeadsToReachable(Empty(), steps, s);
  }

  lemma TwoStepsLead(s: System, t: Step, u: Step) returns (n: System)
    requires CanStep(s, t) && CanStep(After(s, t), u)
    ensures n == After(After(s, t), u) && Leads(s, [t, u], n)
  {
    n := After(After(s, t), u);
    OneStepLeads(s, t, After(s, t));
    LeadsOn(s, [t], After(s, t), u, n);
    assert [t] + [u] == [t, u];
  }

  // ------------------------------------------------------- failed attempts

  /** The delay of the job that makes attempt `k + 1`, and when that job is due. */
  function DelayBefore(k: nat): nat
    requires k < MAX_ATTEMPTS
  {
    if k == 0 then 0 else BackoffAfter(k)
  }

  function DueAt(k: nat): Time
    requires k < MAX_ATTEMPTS
  {
    if k == 0 then 0 else DueAt(k - 1) + DelayBefore(k) * SECOND
  }

  /** Claims so far, none of them paid for by a reclaim or an operator. */
  ghost predicate Tallied(log: seq<Event>, claims: nat) {
    Count(log, IsClaim) == claims && Count(log, IsReclaim) == 0 && Count(log, IsTerminalRetry) == 0
  }

  lemma TallyPush(log: seq<Event>, claims: nat, e: Event)
    requires Tallied(log, claims) && !IsReclaim(e) && !IsTerminalRetry(e)
    ensures Tallied(log + [e], claims + if IsClaim(e) then 1 else 0)
  {
    CountPush(log, e, IsClaim);
    CountPush(log, e, IsReclaim);
    CountPush(log, e, IsTerminalRetry);
  }

  /** A forward after `k` failed attempts and nothing else. */
  ghost predicate FailedTimes(c: Cell, k: nat) {
    && Claimable(c.row.status) && c.row.attemptCount == k && |c.log| == 3 * k
    && c.holding == map[] && c.requeueing == map[] && Tallied(c.log, k)
  }

  /** The record of a refused connection by the worker of attempt `k + 1`. */
  function Refused(k: nat): Action
    requires k < MAX_ATTEMPTS
  {
    Record(3 * k, NetworkError("refused"), DueAt(k), DueAt(k))
  }

  lemma NextClaims(c: Cell, k: nat, at: Time) returns (d: Cell)
    requires FailedTimes(c, k)
    ensures Enabled(c, Claim(at), at) && d == Next(c, Claim(at), at)
    ensures d.row == ClaimRow(c.row, at).value && d.row.attemptCount == k + 1 && d.row.status == InFlight
    ensures d.holding == map[3 * k := Worker(k + 1, at, false)] && d.requeueing == map[]
    ensures |d.log| == 3 * k + 1 && Tallied(d.log, k + 1)
  {
    d := Next(c, Claim(at), at);
    TallyPush(c.log, k, Claimed(k + 1));
  }

  lemma NextFails(c: Cell, k: nat, at: Time) returns (d: Cell)
    requires k < MAX_ATTEMPTS - 1 && at == DueAt(k)
    requires c.holding == map[3 * k := Worker(k + 1, at, false)] && c.requeueing == map[]
    requires |c.log| == 3 * k + 1 && Tallied(c.log, k + 1) && c.row.attemptCount == k + 1
    ensures Enabled(c, Refused(k), at) && d == Next(c, Refused(k), at)
    ensures d.row.status == Failed && d.row.attemptCount == k + 1 && d.row.endpointId == c.row.endpointId
    ensures d.holding == map[] && d.requeueing == map[3 * k := k + 1]
    ensures |d.log| == 3 * k + 2 && Tallied(d.log, k + 1)
  {
    d := Next(c, Refused(k), at);
    assert d.row.status == Failed;
    TallyPush(c.log, k + 1, Recorded(3 * k, k + 1, c.row.status, Failed));
  }

  lemma NextRequeues(c: Cell, k: nat, at: Time) returns (d: Cell)
    requires k < MAX_ATTEMPTS - 1 && c.row.status == Failed && c.row.attemptCount == k + 1
    requires c.holding == map[] && c.requeueing == map[3 * k := k + 1]
    requires |c.log| == 3 * k + 2 && Tallied(c.log, k + 1)
    ensures Enabled(c, Requeue(3 * k), at) && d == Next(c, Requeue(3 * k), at)
    ensures d.row == c.row && RequeueDelay(c, 3 * k) == DelayBefore(k + 1) && FailedTimes(d, k + 1)
  {
    d := Next(c, Requeue(3 * k), at);
    TallyPush(c.log, k + 1, Requeued(3 * k, k + 1, DelayBefore(k + 1)));
  }

  /** `k` attempts have failed, and the job of the next one is due and alone on the queue;
      the first job is finished and still remembered. */
  ghost predicate NextDue(s: System, id: Uuid, endpoint: Uuid, k: nat)
    requires k < MAX_ATTEMPTS
  {
    && s.clock == DueAt(k) && s.waiting == {Job(id, DelayBefore(k))} && (k > 0 ==> Job(id, 0) in s.kept)
    && s.cells.Keys == {id} && s.cells[id].row.endpointId == endpoint && FailedTimes(s.cells[id], k)
  }

  /** The job of attempt `k + 1` fires on time and its worker claims. */
  function Begins(id: Uuid, k: nat): seq<Step>
    requires k < MAX_ATTEMPTS
  {
    [Fire(Job(id, DelayBefore(k))), On(id, Claim(DueAt(k)))]
  }

  /** The only worker of the forward holds it for attempt `k + 1`; no job waits. */
  ghost predicate AttemptHeld(s: System, id: Uuid, endpoint: Uuid, k: nat)
    requires k < MAX_ATTEMPTS
  {
    && s.clock == DueAt(k) && s.waiting == {} && Job(id, 0) in s.kept && s.cells.Keys == {id}
    && var c := s.cells[id];
       && c.row.endpointId == endpoint && c.row.status == InFlight && c.row.attemptCount == k + 1
       && c.row.forwardStartedAt == Some(DueAt(k))
       && c.holding == map[3 * k := Worker(k + 1, DueAt(k), false)] && c.requeueing == map[]
       && |c.log| == 3 * k + 1 && Tallied(c.log, k + 1)
  }

  lemma JobClaims(s: System, id: Uuid, endpoint: Uuid, k: nat) returns (n: System)
    requires k < MAX_ATTEMPTS && NextDue(s, id, endpoint, k)
    ensures Leads(s, Begins(id, k), n) && AttemptHeld(n, id, endpoint, k)
  {
    var t := Begins(id, k);
    var claimed := NextClaims(s.cells[id], k, DueAt(k));
    n := TwoStepsLead(s, t[0], t[1]);
    assert n.cells == map[id := claimed];
  }

  /** Then it records a refused connection and schedules the retry, whose delay passes. */
  function Waits(id: Uuid, k: nat): seq<Step>
    requires k < MAX_ATTEMPTS - 1
  {
    [On(id, Requeue(3 * k)), Tick(DueAt(k + 1))]
  }

  /** The failure is stored, its retry not yet scheduled. */
  ghost predicate Recording(s: System, id: Uuid, endpoint: Uuid, k: nat)
    requires k < MAX_ATTEMPTS - 1
  {
    && s.clock == DueAt(k) && s.waiting == {} && Job(id, 0) in s.kept && s.cells.Keys == {id}
    && var c := s.cells[id];
       && c.row.endpointId == endpoint && c.row.status == Failed && c.row.attemptCount == k + 1
       && c.holding == map[] && c.requeueing == map[3 * k := k + 1]
       && |c.log| == 3 * k + 2 && Tallied(c.log, k + 1)
  }

  lemma AttemptFails(s: System, id: Uuid, endpoint: Uuid, k: nat) returns (n: System)
    requires k < MAX_ATTEMPTS - 1 && AttemptHeld(s, id, endpoint, k)
    ensures Leads(s, [On(id, Refused(k))], n) && Recording(n, id, endpoint, k)
  {
    var failed := NextFails(s.cells[id], k, DueAt(k));
    n := After(s, On(id, Refused(k)));
    assert n.cells == map[id := failed];
    OneStepLeads(s, On(id, Refused(k)), n);
  }

  lemma RetryWaits(s: System, id: Uuid, endpoint: Uuid, k: nat) returns (n: System)
    requires k < MAX_ATTEMPTS - 1 && Reachable(s) && Recording(s, id, endpoint, k)
    ensures Leads(s, Waits(id, k), n) && NextDue(n, id, endpoint, k + 1)
  {
    var t := Waits(id, k);
    var requeued := NextRequeues(s.cells[id], k, DueAt(k));
    ScheduledRetryAccepted(s, id, 3 * k);
    n := TwoStepsLead(s, t[0], t[1]);
    assert n.cells == map[id := requeued];
  }

  /** A captured forward, enqueued at once, and `k` failed attempts. */
  function FailedRun(id: Uuid, requestId: Uuid, endpoint: Uuid, url: string, k: nat): seq<Step>
    requires k < MAX_ATTEMPTS
  {
    if k == 0 then [Capture(id, requestId, endpoint, url, 0), Offer(id)]
    else FailedRun(id, requestId, endpoint, url, k - 1) + Begins(id, k - 1) + [On(id, Refused(k - 1))] + Waits(id, k - 1)
  }

  lemma FirstDue(id: Uuid, requestId: Uuid, endpoint: Uuid, url: string) returns (s: System)
    ensures Plays(FailedRun(id, requestId, endpoint, url, 0), s) && NextDue(s, id, endpoint, 0)
  {
    s := TwoStepsLead(Empty(), Capture(id, requestId, endpoint, url, 0), Offer(id));
    assert s.cells == map[id := Born(Create(id, requestId, endpoint, url, 0))];
  }

  lemma BeginsNext(before: seq<Step>, s: System, id: Uuid, endpoint: Uuid, k: nat) returns (n: System)
    requires k < MAX_ATTEMPTS && Plays(before, s) && NextDue(s, id, endpoint, k)
    ensures Plays(before + Begins(id, k), n) && AttemptHeld(n, id, endpoint, k)
  {
    n := JobClaims(s, id, endpoint, k);
    PlaysFurther(before, s, Begins(id, k), n);
  }

  lemma FailsAndWaits(before: seq<Step>, s: System, id: Uuid, endpoint: Uuid, k: nat) returns (n: System)
    requires k < MAX_ATTEMPTS - 1 && Plays(before, s) && AttemptHeld(s, id, endpoint, k)
    ensures Plays(before + [On(id, Refused(k))] + Waits(id, k), n) && NextDue(n, id, endpoint, k + 1)
  {
    var recorded := AttemptFails(s, id, endpoint, k);
    var steps := before + [On(id, Refused(k))];
    PlaysFurther(before, s, [On(id, Refused(k))], recorded);
    PlaysReachable(steps, recorded);
    n := RetryWaits(recorded, id, endpoint, k);
    PlaysFurther(steps, recorded, Waits(id, k), n);
  }

  /** Every forward can fail `k` times in a row, each time by the job its last failure
      scheduled. */
  lemma {:induction false} FailsRepeatedly(id: Uuid, requestId: Uuid, endpoint: Uuid, url: string, k: nat) returns (s: System)
    requires k < MAX_ATTEMPTS
    ensures Plays(FailedRun(id, requestId, endpoint, url, k), s) && NextDue(s, id, endpoint, k)
  {
    if k == 0 {
      s := FirstDue(id, requestId, endpoint, url);
    } else {
      s := FailsRepeatedly(id, requestId, endpoint, url, k - 1);
      s := BeginsNext(FailedRun(id, requestId, endpoint, url, k - 1), s, id, endpoint, k - 1);
      s := FailsAndWaits(FailedRun(id, requestId, endpoint, url, k - 1) + Begins(id, k - 1), s, id, endpoint, k - 1);
    }
  }

  /** The same, and attempt `k + 1` has begun. */
  function BegunRun(id: Uuid, requestId: Uuid, endpoint: Uuid, url: string, k: nat): seq<Step>
    requires k < MAX_ATTEMPTS
  {
    FailedRun(id, requestId, endpoint, url, k) + Begins(id, k)
  }

  lemma AttemptBegins(id: Uuid, requestId: Uuid, endpoint: Uuid, url: string, k: nat) returns (n: System)
    requires k < MAX_ATTEMPTS
    ensures Plays(BegunRun(id, requestId, endpoint, url, k), n) && AttemptHeld(n, id, endpoint, k)
  {
    var s := FailsRepeatedly(id, requestId, endpoint, url, k);
    n := BeginsNext(FailedRun(id, requestId, endpoint, url, k), s, id, endpoint, k);
  }

  /** The budget is not generous: every forward can be claimed five times, each time by a
      fired job, without a reclaim or an operator's help. */
  lemma BudgetReached(id: Uuid, requestId: Uuid, endpoint: Uuid, url: string)
    ensures exists s :: Plays(BegunRun(id, requestId, endpoint, url, MAX_ATTEMPTS - 1), s) && id in s.cells
              && Count(s.cells[id].log, IsClaim) == MAX_ATTEMPTS
              && Count(s.cells[id].log, IsReclaim) == 0 && Count(s.cells[id].log, IsTerminalRetry) == 0
  {
    var s := AttemptBegins(id, requestId, endpoint, url, MAX_ATTEMPTS - 1);
    assert Tallied(s.cells[id].log, MAX_ATTEMPTS);
  }

  // ------------------------------------------------------------ a second life

  const LAST: nat := MAX_ATTEMPTS - 1

  /** One second past the age at which a redrive reclaims a row in flight. */
  function PastThreshold(start: Time): Time {
    start + (STUCK_IN_FLIGHT_SECONDS + 1) * SECOND
  }

  /** The queue forgets the forward's first job, which finished long ago, and the operator
      retries the forward, whose immediate job is thus stored again. */
  function RetriedAgain(id: Uuid, endpoint: Uuid, at: Time): seq<Step> {
    [Forget(Job(id, 0)), On(id, Retry(endpoint, at)), Offer(id)]
  }

  lemma RetryStored(s: System, id: Uuid, endpoint: Uuid, at: Time) returns (n: System)
    requires s.clock == at && Job(id, 0) in s.kept && id in s.cells
    requires s.cells[id].row.endpointId == endpoint && s.cells[id].row.status in {Failed, Dead, Abandoned}
    ensures Leads(s, RetriedAgain(id, endpoint, at), n)
    ensures n.clock == at && Job(id, 0) in n.waiting && id in n.cells
    ensures Enabled(s.cells[id], Retry(endpoint, at), at) && n.cells[id] == Next(s.cells[id], Retry(endpoint, at), at)
  {
    var t := RetriedAgain(id, endpoint, at);
    n := ThreeStepsLead(s, t[0], t[1], t[2]);
  }

  /** The stored job fires and its worker claims. */
  function TakenAgain(id: Uuid, at: Time): seq<Step> {
    [Fire(Job(id, 0)), On(id, Claim(at))]
  }

  lemma JobTaken(s: System, id: Uuid, at: Time) returns (n: System)
    requires s.clock == at && Job(id, 0) in s.waiting && id in s.cells && Claimable(s.cells[id].row.status)
    ensures Leads(s, TakenAgain(id, at), n)
    ensures n.clock == at && id in n.cells
    ensures Enabled(s.cells[id], Claim(at), at) && n.cells[id] == Next(s.cells[id], Claim(at), at)
  {
    var t := TakenAgain(id, at);
    n := TwoStepsLead(s, t[0], t[1]);
  }
}
