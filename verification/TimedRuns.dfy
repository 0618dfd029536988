/** Runs in which no worker of a forward outlives its job timeout and its owner does not
    abandon it in flight: there the five-minute reclaim is safe for that forward and its
    success is final. */
module TimedRuns {
  import opened Text
  import opened Forwards
  import opened Protocol
  import opened Runs
  import opened Success

  /** No worker has held the forward for more than its job timeout of 120 seconds. */
  ghost predicate Young(c: Cell, clock: Time) {
    forall w :: w in c.holding ==> clock - c.holding[w].startedAt <= 120_000_000
  }

  /** Every live worker of forward `id` is within its job timeout. */
  ghost predicate Timely(s: System, id: Uuid) {
    id in s.cells ==> Young(s.cells[id], s.clock)
  }

  predicate AbandonsInFlight(s: System, t: Step, id: Uuid) {
    t.On? && t.id == id && t.action.Abandon? && id in s.cells && s.cells[id].row.status == InFlight
  }

  /** The limits hold for forward `id`; nothing is asked of other forwards. */
  ghost predicate IsTimelyRun(run: seq<System>, steps: seq<Step>, id: Uuid) {
    && IsRun(run, steps)
    && (forall i :: 0 <= i < |run| ==> Timely(run[i], id))
    && (forall i :: 0 <= i < |steps| ==> !AbandonsInFlight(run[i], steps[i], id))
  }

  /** A worker that holds the forward is alone, and the row is as its claim left it. */
  ghost predicate Exclusive(c: Cell) {
    forall w :: w in c.holding ==>
      && c.holding.Keys == {w}
      && c.row.status == InFlight
      && c.row.attemptCount == c.holding[w].attempt
      && c.row.forwardStartedAt == Some(c.holding[w].startedAt)
  }

  lemma NoneHold(c: Cell)
    requires Exclusive(c) && c.row.status != InFlight
    ensures c.holding == map[]
  {
  }

  lemma ClaimExclusive(c: Cell, now: Time, clock: Time)
    requires Enabled(c, Claim(now), clock) && Exclusive(c)
    ensures Exclusive(Next(c, Claim(now), clock))
  {
    NoneHold(c);
    assert NextHolding(c, Claim(now), clock).Keys == {|c.log|};
  }

  /** The holder, if there is one, is the worker that leaves. */
  lemma LeaveExclusive(c: Cell, a: Action, clock: Time)
    requires Enabled(c, a, clock) && Exclusive(c) && (a.Record? || a.Crash?)
    ensures Exclusive(Next(c, a, clock))
  {
    if a.worker in c.holding {
      assert c.holding.Keys == {a.worker};
      assert NextHolding(c, a, clock).Keys == {};
    } else {
      assert NextHolding(c, a, clock) == c.holding;
    }
  }

  lemma ReclaimExclusive(c: Cell, endpoint: Uuid, now: Time, clock: Time)
    requires Enabled(c, Reclaim(endpoint, now), clock) && Exclusive(c) && Young(c, clock)
    ensures c.holding == map[] && Exclusive(Next(c, Reclaim(endpoint, now), clock))
  {
  }

  lemma NextExclusive(c: Cell, a: Action, clock: Time)
    requires Enabled(c, a, clock) && Exclusive(c) && Young(c, clock)
    requires !(a.Abandon? && c.row.status == InFlight)
    ensures Exclusive(Next(c, a, clock))
  {
    match a
    case Claim(now) => ClaimExclusive(c, now, clock);
    case Record(_, _, _, _) => LeaveExclusive(c, a, clock);
    case Crash(_) => LeaveExclusive(c, a, clock);
    case Reclaim(endpoint, now) => ReclaimExclusive(c, endpoint, now, clock);
    case Send(_) =>
    case Requeue(_) =>
    case _ => NoneHold(c);
  }

  lemma StepExclusive(s: System, t: Step, id: Uuid)
    requires CanStep(s, t) && Timely(s, id) && !AbandonsInFlight(s, t, id)
    requires id in After(s, t).cells && (id in s.cells ==> Exclusive(s.cells[id]))
    ensures Exclusive(After(s, t).cells[id])
  {
    match t
    case On(i, a) => if id == i { NextExclusive(s.cells[id], a, s.clock); }
    case Redrive(endpoint, now, _, _) =>
      if Enabled(s.cells[id], Reclaim(endpoint, now), s.clock) {
        ReclaimExclusive(s.cells[id], endpoint, now, s.clock);
      }
    case _ =>
  }

  lemma OneHolds(c: Cell)
    requires Exclusive(c)
    ensures |c.holding| <= 1
  {
    if c.holding != map[] {
      var w :| w in c.holding;
      assert |c.holding| == |c.holding.Keys| == |{w}|;
    }
  }

  /** Timed exclusion: at most one worker is live on a forward, and the row still is
      the row it claimed. */
  lemma {:induction false} TimedExclusion(run: seq<System>, steps: seq<Step>, i: nat, id: Uuid)
    requires IsTimelyRun(run, steps, id) && i <= |steps| && id in run[i].cells
    ensures Exclusive(run[i].cells[id])
    ensures |run[i].cells[id].holding| <= 1
  {
    if i > 0 {
      assert Moves(run[i - 1], steps[i - 1], run[i]);
      if id in run[i - 1].cells {
        TimedExclusion(run, steps, i - 1, id);
      }
      StepExclusive(run[i - 1], steps[i - 1], id);
    }
    OneHolds(run[i].cells[id]);
  }

  /** A record lands on the claim it belongs to. */
  lemma RecordsOwnClaim(run: seq<System>, steps: seq<Step>, i: nat, id: Uuid)
    requires IsTimelyRun(run, steps, id) && i < |steps|
    requires steps[i].On? && steps[i].id == id && steps[i].action.Record?
    ensures id in run[i].cells && steps[i].action.worker in run[i].cells[id].holding
    ensures var c := run[i].cells[id];
            && c.row.status == InFlight
            && c.row.attemptCount == c.holding[steps[i].action.worker].attempt
  {
    assert Moves(run[i], steps[i], run[i + 1]);
    TimedExclusion(run, steps, i, id);
  }

  /** A redrive never takes a forward away from a live worker. */
  lemma ReclaimSparesLive(run: seq<System>, steps: seq<Step>, i: nat, id: Uuid)
    requires IsTimelyRun(run, steps, id) && i < |steps| && steps[i].Redrive? && id in run[i].cells
    requires run[i].cells[id].holding != map[]
    ensures run[i + 1].cells[id] == run[i].cells[id]
  {
    assert Moves(run[i], steps[i], run[i + 1]);
    TimedExclusion(run, steps, i, id);
    if Enabled(run[i].cells[id], Reclaim(steps[i].endpoint, steps[i].now), run[i].clock) {
      ReclaimExclusive(run[i].cells[id], steps[i].endpoint, steps[i].now, run[i].clock);
    }
  }

  /** Success is final: once delivered, a forward's row never changes again and no
      worker sends it again. */
  lemma {:induction false} SuccessIsFinal(run: seq<System>, steps: seq<Step>, i: nat, j: nat, id: Uuid)
    requires IsTimelyRun(run, steps, id) && i <= j <= |steps|
    requires id in run[i].cells && run[i].cells[id].row.status == Succeeded
    ensures id in run[j].cells && run[j].cells[id].row == run[i].cells[id].row
    ensures Quiet(run[i].cells[id].log, run[j].cells[id].log)
    decreases j
  {
    if i < j {
      SuccessIsFinal(run, steps, i, j - 1, id);
      TimedExclusion(run, steps, j - 1, id);
      assert run[j - 1].cells[id].holding == map[];
      assert Moves(run[j - 1], steps[j - 1], run[j]);
      StepSettled(run[j - 1], steps[j - 1], id);
      QuietTransitive(run[i].cells[id].log, run[j - 1].cells[id].log, run[j].cells[id].log);
    }
  }
}
