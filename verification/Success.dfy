/** When a delivered forward stays delivered: the exact condition, and two runs of fired
    jobs in which it does not. */
module Success {
  import opened Text
  import opened Forwards
  import opened ForwardQueue
  import opened JobRuns
  import opened Protocol
  import opened Runs

  /** `b` continues `a` without a send. */
  ghost predicate Quiet(a: seq<Event>, b: seq<Event>) {
    a <= b && forall k :: |a| <= k < |b| ==> !b[k].Sent?
  }

  lemma QuietTransitive(a: seq<Event>, b: seq<Event>, c: seq<Event>)
    requires Quiet(a, b) && Quiet(b, c)
    ensures Quiet(a, c)
  {
  }

  /** A forward is delivered and no worker holds it. */
  ghost predicate Settled(c: Cell) {
    c.row.status == Succeeded && c.holding == map[]
  }

  lemma NextSettled(c: Cell, a: Action, clock: Time)
    requires Enabled(c, a, clock) && Settled(c)
    ensures Next(c, a, clock).row == c.row && Next(c, a, clock).holding == map[]
    ensures Quiet(c.log, Next(c, a, clock).log)
  {
  }

  lemma StepSettled(s: System, t: Step, id: Uuid)
    requires CanStep(s, t) && id in s.cells && Settled(s.cells[id])
    ensures id in After(s, t).cells
    ensures After(s, t).cells[id].row == s.cells[id].row && After(s, t).cells[id].holding == map[]
    ensures Quiet(s.cells[id].log, After(s, t).cells[id].log)
  {
    if t.On? && t.id == id {
      NextSettled(s.cells[id], t.action, s.clock);
    }
  }

  /** A settled forward's row never changes again and no worker sends it again. */
  lemma {:induction false} StaysSettled(path: seq<System>, steps: seq<Step>, j: nat, id: Uuid)
    requires IsPath(path, steps) && j <= |steps| && id in path[0].cells && Settled(path[0].cells[id])
    ensures id in path[j].cells && path[j].cells[id].row == path[0].cells[id].row && path[j].cells[id].holding == map[]
    ensures Quiet(path[0].cells[id].log, path[j].cells[id].log)
  {
    if j > 0 {
      StaysSettled(path, steps, j - 1, id);
      assert Moves(path[j - 1], steps[j - 1], path[j]);
      StepSettled(path[j - 1], steps[j - 1], id);
      QuietTransitive(path[0].cells[id].log, path[j - 1].cells[id].log, path[j].cells[id].log);
    }
  }

  /** Some run from `s` takes forward `id` out of `succeeded`. */
  ghost predicate CanLeaveSuccess(s: System, id: Uuid) {
    exists steps, n :: Leads(s, steps, n) && id in n.cells && n.cells[id].row.status != Succeeded
  }

  lemma SettledCannotLeave(s: System, id: Uuid)
    requires id in s.cells && Settled(s.cells[id])
    ensures !CanLeaveSuccess(s, id)
  {
    forall steps, n | Leads(s, steps, n) && id in n.cells ensures n.cells[id].row.status == Succeeded {
      var path :| IsPath(path, steps) && path[0] == s && path[|steps|] == n;
      StaysSettled(path, steps, |steps|, id);
    }
  }

  /** A worker's connection breaks. */
  function Breaks(w: nat, now: Time): Action {
    Record(w, NetworkError("reset"), now, now)
  }

  lemma BreakSpoils(c: Cell, w: nat, clock: Time)
    requires w in c.holding
    ensures Enabled(c, Breaks(w, clock), clock)
    ensures Next(c, Breaks(w, clock), clock).row.status in {Failed, Dead}
  {
  }

  /** Success is final exactly when no worker holds the forward any more, and a holder
      is left exactly when the reclaims and in-flight abandons outnumber the crashed and
      the late workers. */
  lemma SuccessFinalExactly(s: System, id: Uuid)
    requires Reachable(s) && id in s.cells && s.cells[id].row.status == Succeeded
    ensures CanLeaveSuccess(s, id) <==> s.cells[id].holding != map[]
    ensures var log := s.cells[id].log;
            CanLeaveSuccess(s, id) <==>
              Count(log, IsReclaim) + Count(log, IsInFlightAbandon) > Count(log, IsHolderCrash) + Count(log, IsLateRecord)
  {
    var c := s.cells[id];
    if c.holding == map[] {
      SettledCannotLeave(s, id);
    } else {
      var w :| w in c.holding;
      BreakSpoils(c, w, s.clock);
      var t := On(id, Breaks(w, s.clock));
      OneStepLeads(s, t, After(s, t));
      assert After(s, t).cells[id].row.status != Succeeded;
    }
    WorkerExclusion(s, id);
  }

  // ------------------------------------------------ two runs that lose a success

  /** A run of fired jobs delivers the forward, and one more step makes it dead. */
  ghost predicate LosesSuccess(steps: seq<Step>, t: Step, id: Uuid) {
    exists s :: Plays(steps, s) && CanStep(s, t)
      && id in s.cells && s.cells[id].row.status == Succeeded
      && id in After(s, t).cells && After(s, t).cells[id].row.status == Dead
  }

  /** Worker `w` still holds the forward for its last attempt; the forward is claimable
      again and has a job waiting. */
  ghost predicate Released(s: System, id: Uuid, now: Time, w: nat, k: nat) {
    && s.clock == now && Job(id, 0) in s.waiting && id in s.cells && w < k
    && var c := s.cells[id];
       && Claimable(c.row.status) && |c.log| == k
       && c.holding.Keys == {w} && c.holding[w].attempt == MAX_ATTEMPTS
  }

  /** A second worker takes the job and delivers. */
  function Delivery(id: Uuid, now: Time, k: nat): seq<Step> {
    [On(id, Send(k)), On(id, Record(k, Response(200), now, now))]
  }

  lemma SecondClaims(c: Cell, w: nat, now: Time) returns (d: Cell)
    requires Claimable(c.row.status) && w < |c.log| && c.holding.Keys == {w}
    ensures Enabled(c, Claim(now), now) && d == Next(c, Claim(now), now)
    ensures |c.log| in d.holding && !d.holding[|c.log|].sent && d.holding - {|c.log|} == c.holding
  {
    d := Next(c, Claim(now), now);
  }

  lemma SecondSucceeds(c: Cell, w: nat, now: Time) returns (d: Cell)
    requires w in c.holding && !c.holding[w].sent
    ensures var record := Record(w, Response(200), now, now);
            && Enabled(c, Send(w), now) && Enabled(Next(c, Send(w), now), record, now)
            && d == Next(Next(c, Send(w), now), record, now)
    ensures d.row.status == Succeeded && d.holding == c.holding - {w}
  {
    d := Next(Next(c, Send(w), now), Record(w, Response(200), now, now), now);
  }

  lemma SecondDelivers(steps: seq<Step>, s: System, id: Uuid, now: Time, w: nat, k: nat) returns (n: System)
    requires Plays(steps, s) && Released(s, id, now, w, k)
    ensures Plays(steps + TakenAgain(id, now) + Delivery(id, now, k), n)
    ensures n.clock == now && id in n.cells && n.cells[id].row.status == Succeeded
    ensures n.cells[id].holding == s.cells[id].holding
  {
    var t := Delivery(id, now, k);
    var second := SecondClaims(s.cells[id], w, now);
    var claimed := JobTaken(s, id, now);
    PlaysFurther(steps, s, TakenAgain(id, now), claimed);
    var delivered := SecondSucceeds(second, k, now);
    n := TwoStepsLead(claimed, t[0], t[1]);
    assert n.cells[id] == delivered;
    PlaysFurther(steps + TakenAgain(id, now), claimed, t, n);
  }

  lemma LastBreakKills(c: Cell, w: nat, now: Time)
    requires w in c.holding && c.holding[w].attempt == MAX_ATTEMPTS
    ensures Enabled(c, Breaks(w, now), now) && Next(c, Breaks(w, now), now).row.status == Dead
  {
  }

  /** Then the first worker's connection breaks. */
  lemma FirstSpoils(steps: seq<Step>, s: System, id: Uuid, now: Time, w: nat, k: nat)
    requires Plays(steps, s) && Released(s, id, now, w, k)
    ensures LosesSuccess(steps + TakenAgain(id, now) + Delivery(id, now, k), On(id, Breaks(w, now)), id)
  {
    var n := SecondDelivers(steps, s, id, now, w, k);
    LastBreakKills(n.cells[id], w, now);
    assert CanStep(n, On(id, Breaks(w, now)));
  }

  // The fifth attempt begins on schedule; the forward's first job has long finished.

  /** Its worker outlives the reclaim threshold, the queue forgets the first job, and the
      operator redrives. */
  function Redriven(id: Uuid, endpoint: Uuid): seq<Step> {
    var late := PastThreshold(DueAt(LAST));
    [Tick(late), Forget(Job(id, 0)), Redrive(endpoint, late, {}, {})]
  }

  lemma RedriveReleases(s: System, id: Uuid, endpoint: Uuid) returns (n: System)
    requires AttemptHeld(s, id, endpoint, LAST)
    ensures Leads(s, Redriven(id, endpoint), n) && Released(n, id, PastThreshold(DueAt(LAST)), 12, 14)
  {
    var t, late := Redriven(id, endpoint), PastThreshold(DueAt(LAST));
    n := ThreeStepsLead(s, t[0], t[1], t[2]);
    assert n.cells[id].row == s.cells[id].row.(status := Failed, nextAttemptAt := Some(late));
    assert Job(id, 0) in Immediate(Swept(n.cells, endpoint, late));
  }

  function AbandonedAndRetried(id: Uuid, endpoint: Uuid): seq<Step> {
    [On(id, Abandon(endpoint, DueAt(LAST)))] + RetriedAgain(id, endpoint, DueAt(LAST))
  }

  lemma AbandonReleases(s: System, id: Uuid, endpoint: Uuid) returns (n: System)
    requires AttemptHeld(s, id, endpoint, LAST)
    ensures Leads(s, AbandonedAndRetried(id, endpoint), n) && Released(n, id, DueAt(LAST), 12, 15)
  {
    var at := DueAt(LAST);
    var t := On(id, Abandon(endpoint, at));
    var abandoned := After(s, t);
    OneStepLeads(s, t, abandoned);
    n := RetryStored(abandoned, id, endpoint, at);
    LeadsFurther(s, [t], abandoned, RetriedAgain(id, endpoint, at), n);
  }

  lemma RedrivenRun(id: Uuid, requestId: Uuid, endpoint: Uuid, url: string) returns (n: System)
    ensures Plays(BegunRun(id, requestId, endpoint, url, LAST) + Redriven(id, endpoint), n)
    ensures Released(n, id, PastThreshold(DueAt(LAST)), 12, 14)
  {
    var s := AttemptBegins(id, requestId, endpoint, url, LAST);
    n := RedriveReleases(s, id, endpoint);
    PlaysFurther(BegunRun(id, requestId, endpoint, url, LAST), s, Redriven(id, endpoint), n);
  }

  lemma AbandonedRun(id: Uuid, requestId: Uuid, endpoint: Uuid, url: string) returns (n: System)
    ensures Plays(BegunRun(id, requestId, endpoint, url, LAST) + AbandonedAndRetried(id, endpoint), n)
    ensures Released(n, id, DueAt(LAST), 12, 15)
  {
    var s := AttemptBegins(id, requestId, endpoint, url, LAST);
    n := AbandonReleases(s, id, endpoint);
    PlaysFurther(BegunRun(id, requestId, endpoint, url, LAST), s, AbandonedAndRetried(id, endpoint), n);
  }

  /** A reclaim under a worker that lives too long loses a success. */
  lemma LostAfterReclaim(id: Uuid, requestId: Uuid, endpoint: Uuid, url: string)
    ensures var late := PastThreshold(DueAt(LAST));
            LosesSuccess(BegunRun(id, requestId, endpoint, url, LAST) + Redriven(id, endpoint)
                         + TakenAgain(id, late) + Delivery(id, late, 14), On(id, Breaks(12, late)), id)
  {
    var n := RedrivenRun(id, requestId, endpoint, url);
    FirstSpoils(BegunRun(id, requestId, endpoint, url, LAST) + Redriven(id, endpoint), n, id, PastThreshold(DueAt(LAST)), 12, 14);
  }

  /** So does an abandon in flight with a retry, every job and every worker on time. */
  lemma LostAfterAbandon(id: Uuid, requestId: Uuid, endpoint: Uuid, url: string)
    ensures var at := DueAt(LAST);
            LosesSuccess(BegunRun(id, requestId, endpoint, url, LAST) + AbandonedAndRetried(id, endpoint)
                         + TakenAgain(id, at) + Delivery(id, at, 15), On(id, Breaks(12, at)), id)
  {
    var n := AbandonedRun(id, requestId, endpoint, url);
    FirstSpoils(BegunRun(id, requestId, endpoint, url, LAST) + AbandonedAndRetried(id, endpoint), n, id, DueAt(LAST), 12, 15);
  }
}
