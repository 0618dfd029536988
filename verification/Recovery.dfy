/** What a redrive run and an operator's retry bring back, and what the queue does with
    the jobs they offer. */
module Recovery {
  import opened Text
  import opened Forwards
  import opened ForwardQueue
  import opened JobRuns
  import opened Protocol
  import opened Runs

  predicate Recoverable(s: Status) {
    s == Pending || s == Failed || s == InFlight
  }

  /** When a redrive run at `now` picks a forward up; 300,000,000 microseconds are five
      minutes. */
  predicate Due(f: Forward, now: Time) {
    match f.status
    case Pending => f.createdAt < now - 300_000_000
    case InFlight => f.forwardStartedAt.Some? && f.forwardStartedAt.value < now - 300_000_000
    case Failed => f.nextAttemptAt.Some? && f.nextAttemptAt.value <= now
    case _ => false
  }

  lemma ReclaimDue(f: Forward, endpoint: Uuid, now: Time, clock: Time)
    requires RowCoherent(f, clock)
    ensures var r := ReclaimRow(f, endpoint, STUCK_IN_FLIGHT_SECONDS, now);
            var g := if r.Some? then r.value else f;
            && (Selected(g, endpoint, now) <==> f.endpointId == endpoint && Due(f, now))
            && (Selected(g, endpoint, now) ==> ClaimRow(g, now).Some?)
            && (f != g <==> f.endpointId == endpoint && f.status == InFlight && Due(f, now))
  {
  }

  /** A redrive run selects exactly the due forwards of its endpoint, leaves every one
      of them claimable and touches no other row. */
  lemma RedriveSelectsDue(s: System, endpoint: Uuid, now: Time, down: set<Uuid>, early: set<Uuid>, id: Uuid)
    requires Reachable(s) && CanStep(s, Redrive(endpoint, now, down, early)) && id in s.cells
    ensures var n := After(s, Redrive(endpoint, now, down, early));
            var f, g := s.cells[id].row, n.cells[id].row;
            && (id in Swept(n.cells, endpoint, now) <==> f.endpointId == endpoint && Due(f, now))
            && (id in Swept(n.cells, endpoint, now) ==> ClaimRow(g, now).Some?)
            && (f != g <==> f.endpointId == endpoint && f.status == InFlight && Due(f, now))
  {
    RowsCoherent(s, id);
    ReclaimDue(s.cells[id].row, endpoint, now, s.clock);
  }

  /** A redrive run stores a job for a forward exactly when the forward is due, its
      enqueue does not raise, and the queue does not know its immediate job, which has
      the same id whether a capture, a retry or an earlier redrive offered it. The job
      waits unless a worker takes it before the run commits. */
  lemma RedriveQueues(s: System, endpoint: Uuid, now: Time, down: set<Uuid>, early: set<Uuid>, id: Uuid)
    requires Reachable(s) && CanStep(s, Redrive(endpoint, now, down, early)) && id in s.cells
    ensures var n := After(s, Redrive(endpoint, now, down, early));
            var stored := && s.cells[id].row.endpointId == endpoint && Due(s.cells[id].row, now)
                          && id !in down && Job(id, 0) !in Known(s);
            && (Job(id, 0) in n.waiting <==> Job(id, 0) in s.waiting || (stored && id !in early))
            && (Job(id, 0) in n.kept <==> Job(id, 0) in s.kept || (stored && id in early))
  {
    RedriveSelectsDue(s, endpoint, now, down, early, id);
  }

  /** A forward the run reclaims is left failed with its job used up exactly when a worker
      takes the new job before the commit: the worker still reads the row in flight and
      skips it, and the queue refuses the forward until it forgets the job. */
  lemma EarlyJobWasted(s: System, endpoint: Uuid, now: Time, down: set<Uuid>, early: set<Uuid>, id: Uuid)
    requires Reachable(s) && CanStep(s, Redrive(endpoint, now, down, early)) && id in s.cells
    requires s.cells[id].row.status == InFlight && Job(id, 0) !in Known(s)
    ensures var n := After(s, Redrive(endpoint, now, down, early));
            && (n.cells[id].row.status == Failed && Job(id, 0) in n.kept
                <==> StuckInFlight(s.cells[id].row, endpoint, STUCK_IN_FLIGHT_SECONDS, now) && id !in down && id in early)
            && (Job(id, 0) in n.kept ==> Job(id, 0) !in n.waiting && ClaimRow(s.cells[id].row, now).None?)
  {
    RedriveSelectsDue(s, endpoint, now, down, early, id);
    RedriveQueues(s, endpoint, now, down, early, id);
  }

  /** No forward is lost: one redrive run five minutes after the endpoint's last
      captures and claims leaves every unfinished forward claimable and selected. It has
      a job waiting exactly when it had one, or its enqueue does not raise, the queue has
      forgotten the immediate job it once handed out, and no worker takes the new job
      before the run commits. */
  lemma NoForwardLost(s: System, endpoint: Uuid, down: set<Uuid>, early: set<Uuid>, id: Uuid)
    requires Reachable(s) && id in s.cells
    requires s.cells[id].row.endpointId == endpoint && Recoverable(s.cells[id].row.status)
    requires s.cells[id].row.createdAt < s.clock - 300_000_000
    requires s.cells[id].row.forwardStartedAt.Some? ==> s.cells[id].row.forwardStartedAt.value < s.clock - 300_000_000
    ensures var n := After(s, Redrive(endpoint, s.clock, down, early));
            && id in Swept(n.cells, endpoint, s.clock)
            && Enabled(n.cells[id], Claim(s.clock), n.clock)
            && (Job(id, 0) in n.waiting <==>
                  Job(id, 0) in s.waiting || (id !in down && Job(id, 0) !in s.kept && id !in early))
  {
    RedriveSelectsDue(s, endpoint, s.clock, down, early, id);
    RedriveQueues(s, endpoint, s.clock, down, early, id);
    RowsCoherent(s, id);
  }

  /** The row remembers when its outcome was recorded, not when its retry is due: a
      redrive run picks every `failed` forward up at once, whatever its backoff. */
  lemma RedriveIgnoresBackoff(s: System, endpoint: Uuid, down: set<Uuid>, early: set<Uuid>, id: Uuid)
    requires Reachable(s) && id in s.cells
    requires s.cells[id].row.endpointId == endpoint && s.cells[id].row.status == Failed
    ensures id in Swept(After(s, Redrive(endpoint, s.clock, down, early)).cells, endpoint, s.clock)
  {
    RowsCoherent(s, id);
    RedriveSelectsDue(s, endpoint, s.clock, down, early, id);
  }

  /** Once the queue has forgotten a forward's immediate job, whether it was waiting or
      taken, the next redrive run stores a job for the forward if it is due. */
  lemma ForgottenStored(s: System, endpoint: Uuid, now: Time, down: set<Uuid>, id: Uuid)
    requires Reachable(s) && CanStep(s, Forget(Job(id, 0))) && now <= s.clock && id in s.cells
    ensures var m := After(s, Forget(Job(id, 0)));
            && Job(id, 0) !in Known(m) && m.cells == s.cells && CanStep(m, Redrive(endpoint, now, down, {}))
            && (Job(id, 0) in After(m, Redrive(endpoint, now, down, {})).waiting
                <==> s.cells[id].row.endpointId == endpoint && Due(s.cells[id].row, now) && id !in down)
  {
    var m := StepReachable(s, Forget(Job(id, 0)));
    RedriveQueues(m, endpoint, now, down, {}, id);
  }

  // -------------------------------------------- a redrive the queue ignores

  lemma StepKeepsKept(s: System, t: Step, job: Job)
    requires CanStep(s, t) && t != Forget(job) && job in s.kept
    ensures job in After(s, t).kept
  {
  }

  /** A job once handed out blocks its id: until the queue forgets it, no redrive and no
      retry puts it on the queue again, however many there are. */
  lemma {:induction false} KeptBlocks(run: seq<System>, steps: seq<Step>, i: nat, j: nat, job: Job)
    requires IsRun(run, steps) && i <= j <= |steps| && job in run[i].kept
    requires forall k :: i <= k < j ==> steps[k] != Forget(job)
    ensures job in run[j].kept && job !in run[j].waiting
    decreases j
  {
    RunKeeps(run, steps, j);
    if i < j {
      KeptBlocks(run, steps, i, j - 1, job);
      assert Moves(run[j - 1], steps[j - 1], run[j]);
      StepKeepsKept(run[j - 1], steps[j - 1], job);
    }
  }

  /** The worker that took a captured forward's job crashes while it holds the claim,
      and the operator redrives while the queue still remembers that job. */
  function CrashThenRedrive(id: Uuid, endpoint: Uuid): seq<Step> {
    [On(id, Crash(0)), Tick(PastThreshold(0)), Redrive(endpoint, PastThreshold(0), {}, {})]
  }

  lemma CrashRedriven(s: System, id: Uuid, endpoint: Uuid) returns (n: System)
    requires AttemptHeld(s, id, endpoint, 0)
    ensures Leads(s, CrashThenRedrive(id, endpoint), n)
    ensures n.waiting == {} && n.cells.Keys == {id} && n.cells[id].holding == map[]
    ensures n.clock == PastThreshold(0) && n.cells[id].row.status == Failed && Selected(n.cells[id].row, endpoint, n.clock)
  {
    var t := CrashThenRedrive(id, endpoint);
    var crashed := Next(s.cells[id], Crash(0), 0);
    assert crashed.holding == map[];
    n := ThreeStepsLead(s, t[0], t[1], t[2]);
    assert n.cells[id].row == crashed.row.(status := Failed, nextAttemptAt := Some(PastThreshold(0)));
    assert Immediate(Swept(n.cells, endpoint, n.clock)) <= s.kept;
  }

  /** So a redrive can leave a forward without a job: this one is selected and
      claimable, no worker holds it, every enqueue succeeds, and the queue stays empty. */
  lemma RedriveCanBeIgnored(id: Uuid, requestId: Uuid, endpoint: Uuid, url: string)
    ensures exists n :: Plays(BegunRun(id, requestId, endpoint, url, 0) + CrashThenRedrive(id, endpoint), n)
              && n.waiting == {} && id in Swept(n.cells, endpoint, n.clock)
              && n.cells[id].holding == map[] && Enabled(n.cells[id], Claim(n.clock), n.clock)
  {
    var s := AttemptBegins(id, requestId, endpoint, url, 0);
    var n := CrashRedriven(s, id, endpoint);
    PlaysFurther(BegunRun(id, requestId, endpoint, url, 0), s, CrashThenRedrive(id, endpoint), n);
  }
}
