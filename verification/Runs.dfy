/** Whole runs of the delivery system: many forwards, one clock, one job queue. */
module Runs {
  import opened Text
  import opened Forwards
  import opened ForwardQueue
  import opened Protocol
  import opened ForwardLife

  /** The queue has jobs that wait to be taken by a worker and remembers, as `kept`,
      jobs that run or have run; a job it knows either way is not accepted again. A job
      is handed to a worker once, but the claims it leads to are not tied to it: they may
      come late, repeatedly or never, so a claim can start at any time. */
  datatype System = System(clock: Time, cells: map<Uuid, Cell>, waiting: set<Job>, kept: set<Job>)

  /** `Offer` is the immediate enqueue that follows the commit of a capture or of a retry,
      whenever the background task runs. A redrive run enqueues before it commits: `early`
      are the forwards whose new job a worker takes in between. That worker still reads the
      row as it was and skips a row the run reclaims. `Fire` hands a waiting job to a
      worker. `Forget` is the end of a job's retention, or the loss of a job: when it
      happens is left open. */
  datatype Step =
    | Capture(id: Uuid, requestId: Uuid, endpoint: Uuid, url: string, now: Time)
    | On(id: Uuid, action: Action)
    | Offer(id: Uuid)
    | Redrive(endpoint: Uuid, now: Time, down: set<Uuid>, early: set<Uuid>)
    | Fire(job: Job)
    | Forget(job: Job)
    | Tick(to: Time)

  function Known(s: System): set<Job> {
    s.waiting + s.kept
  }

  /** What the queue accepts of the jobs it is offered. */
  function Accepted(s: System, jobs: set<Job>): set<Job> {
    jobs - Known(s)
  }

  predicate CanStep(s: System, t: Step) {
    match t
    case Capture(id, _, _, _, now) => id !in s.cells && now <= s.clock
    case On(id, a) => id in s.cells && !a.Reclaim? && Enabled(s.cells[id], a, s.clock)
    case Offer(id) => id in s.cells
    case Redrive(_, now, _, _) => now <= s.clock
    case Fire(job) => job in s.waiting
    case Forget(job) => job in Known(s)
    case Tick(to) => s.clock <= to
  }

  /** The reclaim of a redrive run, on one forward. */
  function ReclaimCell(c: Cell, endpoint: Uuid, now: Time, clock: Time): Cell {
    var a := Reclaim(endpoint, now);
    if Enabled(c, a, clock) then Next(c, a, clock) else c
  }

  function ReclaimAll(cells: map<Uuid, Cell>, endpoint: Uuid, now: Time, clock: Time): map<Uuid, Cell> {
    map id | id in cells :: ReclaimCell(cells[id], endpoint, now, clock)
  }

  /** What a redrive run selects for the queue. */
  predicate Selected(f: Forward, endpoint: Uuid, now: Time) {
    OverdueFailed(f, endpoint, now) || StuckPending(f, endpoint, STUCK_PENDING_SECONDS, now)
  }

  function Swept(cells: map<Uuid, Cell>, endpoint: Uuid, now: Time): set<Uuid> {
    set id | id in cells && Selected(cells[id].row, endpoint, now)
  }

  function Immediate(ids: set<Uuid>): set<Job> {
    set id | id in ids :: Job(id, 0)
  }

  /** The retry a step on one forward schedules. */
  function Scheduled(s: System, id: Uuid, a: Action): set<Job>
    requires CanStep(s, On(id, a))
  {
    if a.Requeue? then {Job(id, RequeueDelay(s.cells[id], a.worker))} else {}
  }

  function After(s: System, t: Step): System
    requires CanStep(s, t)
  {
    match t
    case Capture(id, requestId, endpoint, url, now) =>
      s.(cells := s.cells[id := Born(Create(id, requestId, endpoint, url, now))])
    case On(id, a) =>
      s.(cells := s.cells[id := Next(s.cells[id], a, s.clock)],
         waiting := s.waiting + Accepted(s, Scheduled(s, id, a)))
    case Offer(id) => s.(waiting := s.waiting + Accepted(s, {Job(id, 0)}))
    case Redrive(endpoint, now, down, early) =>
      var cells := ReclaimAll(s.cells, endpoint, now, s.clock);
      var jobs := Accepted(s, Immediate(Swept(cells, endpoint, now) - down));
      s.(cells := cells, waiting := s.waiting + (jobs - Immediate(early)), kept := s.kept + (jobs * Immediate(early)))
    case Fire(job) => s.(waiting := s.waiting - {job}, kept := s.kept + {job})
    case Forget(job) => s.(waiting := s.waiting - {job}, kept := s.kept - {job})
    case Tick(to) => s.(clock := to)
  }

  predicate Initial(s: System) {
    s.cells == map[] && s.waiting == {} && s.kept == {}
  }

  /** Step `t` can be taken from `s` and leads to `n`. */
  predicate Moves(s: System, t: Step, n: System) {
    CanStep(s, t) && n == After(s, t)
  }

  ghost predicate IsPath(path: seq<System>, steps: seq<Step>) {
    && |path| == |steps| + 1
    && forall i :: 0 <= i < |steps| ==> Moves(path[i], steps[i], path[i + 1])
  }

  lemma PathMore(path: seq<System>, steps: seq<Step>, s: System, t: Step, n: System)
    requires IsPath(path, steps) && path[|steps|] == s && Moves(s, t, n)
    ensures IsPath(path + [n], steps + [t])
  {
    var longer, more := path + [n], steps + [t];
    forall i | 0 <= i < |more| ensures Moves(longer[i], more[i], longer[i + 1]) {
      assert i < |steps| ==> Moves(path[i], steps[i], path[i + 1]);
    }
  }

  ghost predicate IsRun(run: seq<System>, steps: seq<Step>) {
    IsPath(run, steps) && Initial(run[0])
  }

  ghost predicate Reachable(s: System) {
    exists run, steps :: IsRun(run, steps) && run[|steps|] == s
  }

  /** The system before anything happened. */
  function Empty(): System {
    System(0, map[], {}, {})
  }

  /** The steps can be taken one after the other from `s` and lead to `n`. */
  ghost predicate Leads(s: System, steps: seq<Step>, n: System) {
    exists path :: IsPath(path, steps) && path[0] == s && path[|steps|] == n
  }

  lemma LeadsNowhere(s: System)
    ensures Leads(s, [], s)
  {
    assert IsPath([s], []);
  }

  lemma LeadsOn(s: System, steps: seq<Step>, n: System, t: Step, m: System)
    requires Leads(s, steps, n) && Moves(n, t, m)
    ensures Leads(s, steps + [t], m)
  {
    var path :| IsPath(path, steps) && path[0] == s && path[|steps|] == n;
    PathMore(path, steps, n, t, m);
    var longer := path + [m];
    assert longer[0] == s && longer[|steps| + 1] == m;
  }

  lemma OneStepLeads(s: System, t: Step, n: System)
    requires Moves(s, t, n)
    ensures Leads(s, [t], n)
  {
    LeadsNowhere(s);
    LeadsOn(s, [], s, t, n);
    assert [] + [t] == [t];
  }

  lemma ThreeStepsLead(s: System, t: Step, u: Step, v: Step) returns (n: System)
    requires CanStep(s, t) && CanStep(After(s, t), u) && CanStep(After(After(s, t), u), v)
    ensures n == After(After(After(s, t), u), v) && Leads(s, [t, u, v], n)
  {
    var m := After(After(s, t), u);
    n := After(m, v);
    OneStepLeads(s, t, After(s, t));
    LeadsOn(s, [t], After(s, t), u, m);
    LeadsOn(s, [t] + [u], m, v, n);
    assert [t] + [u] + [v] == [t, u, v];
  }

  lemma PathsJoin(first: seq<System>, steps: seq<Step>, after: seq<System>, more: seq<Step>)
    requires IsPath(first, steps) && IsPath(after, more) && first[|steps|] == after[0]
    ensures IsPath(first[..|steps|] + after, steps + more)
  {
    var path, all := first[..|steps|] + after, steps + more;
    forall i | 0 <= i < |all| ensures Moves(path[i], all[i], path[i + 1]) {
      if i >= |steps| {
        var k := i - |steps|;
        assert Moves(after[k], more[k], after[k + 1]);
        assert path[i] == after[k] && path[i + 1] == after[k + 1] && all[i] == more[k];
      } else {
        assert Moves(first[i], steps[i], first[i + 1]);
      }
    }
  }

  lemma LeadsFurther(s: System, steps: seq<Step>, n: System, more: seq<Step>, m: System)
    requires Leads(s, steps, n) && Leads(n, more, m)
    ensures Leads(s, steps + more, m)
  {
    var first :| IsPath(first, steps) && first[0] == s && first[|steps|] == n;
    var after :| IsPath(after, more) && after[0] == n && after[|more|] == m;
    PathsJoin(first, steps, after, more);
  }

  /** Steps taken from a reachable state lead to a reachable state. */
  lemma LeadsToReachable(s: System, steps: seq<Step>, n: System)
    requires Reachable(s) && Leads(s, steps, n)
    ensures Reachable(n)
  {
    var run, taken :| IsRun(run, taken) && run[|taken|] == s;
    var path :| IsPath(path, steps) && path[0] == s && path[|steps|] == n;
    PathsJoin(run, taken, path, steps);
    assert IsRun(run[..|taken|] + path, taken + steps);
  }

  lemma EmptyReachable()
    ensures Reachable(Empty())
  {
    assert IsRun([Empty()], []);
  }

  lemma StepReachable(s: System, t: Step) returns (n: System)
    requires Reachable(s) && CanStep(s, t)
    ensures n == After(s, t) && Reachable(n)
  {
    n := After(s, t);
    OneStepLeads(s, t, n);
    LeadsToReachable(s, [t], n);
  }

  // ---------------------------------------------------------------- invariant

  predicate DeferredBefore(log: seq<Event>, deferSeconds: nat) {
    exists i :: 0 <= i < |log| && log[i].Requeued? && log[i].deferSeconds == deferSeconds
  }

  ghost predicate CellsInv(s: System) {
    forall id :: id in s.cells ==> s.cells[id].row.id == id && CellInv(s.cells[id], s.clock)
  }

  /** A job the queue knows is for a stored forward, and was scheduled by a worker if it
      is deferred; no job both waits and is remembered as taken. */
  ghost predicate KnownInv(s: System) {
    && s.waiting !! s.kept
    && forall job :: job in Known(s) ==>
         job.forward in s.cells && (job.deferSeconds > 0 ==> DeferredBefore(s.cells[job.forward].log, job.deferSeconds))
  }

  ghost predicate Inv(s: System) {
    CellsInv(s) && KnownInv(s)
  }

  /** What a step never takes back from a forward. */
  predicate Continues(c: Cell, d: Cell) {
    && d.row.id == c.row.id && d.row.requestId == c.row.requestId && d.row.endpointId == c.row.endpointId
    && d.row.targetUrl == c.row.targetUrl && d.row.createdAt == c.row.createdAt
    && (c.row.manualRetryAt.Some? ==> d.row.manualRetryAt.Some?)
    && (d.row.attemptCount >= c.row.attemptCount || d.row.attemptCount >= MAX_ATTEMPTS - 1)
    && c.log <= d.log
  }

  lemma NextContinues(c: Cell, a: Action, clock: Time)
    requires Enabled(c, a, clock)
    ensures Continues(c, Next(c, a, clock))
  {
    assert c.log <= Next(c, a, clock).log;
    match a
    case Record(w, outcome, decidedAt, now) =>
      var verdict := Judge(c.holding[w].attempt, outcome, decidedAt).0;
      assert NextRow(c, a, clock) == RecordRow(c.row, verdict, now);
    case _ =>
  }

  lemma StepContinues(s: System, t: Step, id: Uuid)
    requires CanStep(s, t) && id in s.cells
    ensures id in After(s, t).cells && Continues(s.cells[id], After(s, t).cells[id])
  {
    match t
    case On(i, a) => if i == id { NextContinues(s.cells[id], a, s.clock); }
    case Redrive(endpoint, now, _, _) =>
      if Enabled(s.cells[id], Reclaim(endpoint, now), s.clock) {
        NextContinues(s.cells[id], Reclaim(endpoint, now), s.clock);
      }
    case _ =>
  }

  lemma DeferredStays(c: Cell, d: Cell, deferSeconds: nat)
    requires Continues(c, d) && DeferredBefore(c.log, deferSeconds)
    ensures DeferredBefore(d.log, deferSeconds)
  {
    var i :| 0 <= i < |c.log| && c.log[i].Requeued? && c.log[i].deferSeconds == deferSeconds;
    assert d.log[i] == c.log[i];
  }

  lemma ReclaimKeepsInv(c: Cell, endpoint: Uuid, now: Time, clock: Time)
    requires CellInv(c, clock)
    ensures CellInv(ReclaimCell(c, endpoint, now, clock), clock)
  {
    if Enabled(c, Reclaim(endpoint, now), clock) {
      StepKeepsInv(c, Reclaim(endpoint, now), clock);
    }
  }

  lemma StepKeepsCell(s: System, t: Step, id: Uuid)
    requires CanStep(s, t) && id in After(s, t).cells
    requires id in s.cells ==> CellInv(s.cells[id], s.clock)
    ensures CellInv(After(s, t).cells[id], After(s, t).clock)
  {
    match t
    case Capture(i, requestId, endpoint, url, now) =>
      if id == i {
        BornInv(Create(id, requestId, endpoint, url, now), id, requestId, endpoint, url, now, s.clock);
      }
    case On(i, a) =>
      if id == i {
        StepKeepsInv(s.cells[id], a, s.clock);
      }
    case Redrive(endpoint, now, _, _) => ReclaimKeepsInv(s.cells[id], endpoint, now, s.clock);
    case Tick(to) => ClockForward(s.cells[id], s.clock, to);
    case _ =>
  }

  lemma StepKeepsCells(s: System, t: Step)
    requires CellsInv(s) && CanStep(s, t)
    ensures CellsInv(After(s, t))
  {
    var n := After(s, t);
    forall id | id in n.cells ensures n.cells[id].row.id == id && CellInv(n.cells[id], n.clock) {
      StepKeepsCell(s, t, id);
      if id in s.cells {
        StepContinues(s, t, id);
      }
    }
  }

  /** A job a step adds to the queue. */
  lemma NewJobBacked(s: System, t: Step, job: Job)
    requires CanStep(s, t) && job in Known(After(s, t)) && job !in Known(s)
    ensures job.forward in After(s, t).cells
    ensures job.deferSeconds > 0 ==> DeferredBefore(After(s, t).cells[job.forward].log, job.deferSeconds)
  {
    if job.deferSeconds > 0 {
      assert After(s, t).cells[t.id].log[|s.cells[t.id].log|] == EventOf(s.cells[t.id], t.action, s.clock);
    }
  }

  lemma StepKeepsKnown(s: System, t: Step)
    requires KnownInv(s) && CanStep(s, t)
    ensures KnownInv(After(s, t))
  {
    var n := After(s, t);
    forall job | job in Known(n)
      ensures job.forward in n.cells
      ensures job.deferSeconds > 0 ==> DeferredBefore(n.cells[job.forward].log, job.deferSeconds)
    {
      if job !in Known(s) {
        NewJobBacked(s, t, job);
      } else {
        StepContinues(s, t, job.forward);
        if job.deferSeconds > 0 {
          DeferredStays(s.cells[job.forward], n.cells[job.forward], job.deferSeconds);
        }
      }
    }
  }

  lemma StepKeeps(s: System, t: Step)
    requires Inv(s) && CanStep(s, t)
    ensures Inv(After(s, t))
  {
    StepKeepsCells(s, t);
    StepKeepsKnown(s, t);
  }

  lemma {:induction false} RunKeeps(run: seq<System>, steps: seq<Step>, i: nat)
    requires IsRun(run, steps) && i <= |steps|
    ensures Inv(run[i])
  {
    if i > 0 {
      RunKeeps(run, steps, i - 1);
      assert Moves(run[i - 1], steps[i - 1], run[i]);
      StepKeeps(run[i - 1], steps[i - 1]);
    }
  }

  lemma ReachableInv(s: System)
    requires Reachable(s)
    ensures Inv(s)
  {
    var run, steps :| IsRun(run, steps) && run[|steps|] == s;
    RunKeeps(run, steps, |steps|);
  }

  // ------------------------------------------------------------ main theorems

  /** Attempt budget: five claims, one more for each reclaim and one more for each
      retry from `dead` or `abandoned`; and four records of `failed`. */
  lemma AttemptBudget(s: System, id: Uuid)
    requires Reachable(s) && id in s.cells
    ensures var log := s.cells[id].log;
            && Count(log, IsClaim) <= 5 + Count(log, IsReclaim) + Count(log, IsTerminalRetry)
            && Count(log, IsFailure) <= 4
  {
    ReachableInv(s);
    FailuresBounded(s.cells[id]);
  }

  /** Exclusion without any timing assumption: a second worker on a forward is paid
      for by a reclaim or by an abandon that hit it in flight. */
  lemma WorkerExclusion(s: System, id: Uuid)
    requires Reachable(s) && id in s.cells
    ensures var c := s.cells[id];
            && |c.holding| <= 1 + Count(c.log, IsReclaim) + Count(c.log, IsInFlightAbandon)
            && |c.holding| == 1 + Count(c.log, IsReclaim) + Count(c.log, IsInFlightAbandon)
                              - Bit(Free(c.row.status)) - Count(c.log, IsHolderCrash) - Count(c.log, IsLateRecord)
  {
    ReachableInv(s);
  }

  /** Every stored row is coherent, stale records or not. */
  lemma RowsCoherent(s: System, id: Uuid)
    requires Reachable(s) && id in s.cells
    ensures s.cells[id].row.id == id && RowCoherent(s.cells[id].row, s.clock)
  {
    ReachableInv(s);
  }

  /** Backoffs: each scheduled delay is one of the first four, no two are equal, and
      together they are 4350 seconds at most; four hours are never scheduled. */
  lemma BackoffsBounded(s: System, id: Uuid)
    requires Reachable(s) && id in s.cells
    ensures BackoffsDistinct(s.cells[id].log)
    ensures TotalDelay(s.cells[id].log) <= 4350
  {
    ReachableInv(s);
    DelayBounded(s.cells[id]);
    DelaysDistinct(s.cells[id]);
  }

  /** The queue never swallows a scheduled retry: its job id was never used before,
      so the queue accepts it however long it remembers ids. */
  lemma ScheduledRetryAccepted(s: System, id: Uuid, w: nat)
    requires Reachable(s) && id in s.cells && w in s.cells[id].requeueing
    ensures RequeueDelay(s.cells[id], w) in {30, 120, 600, 3600}
    ensures forall job :: job in Known(s) ==> JobId(job) != JobId(Job(id, RequeueDelay(s.cells[id], w)))
  {
    ReachableInv(s);
    var c := s.cells[id];
    var job := Job(id, RequeueDelay(c, w));
    PendingDelayPositive(c, s.clock, w);
    forall i | 0 <= i < |c.log| && c.log[i].Requeued? ensures c.log[i].deferSeconds != job.deferSeconds {
      PendingDelayIsNew(c, s.clock, w, i);
    }
    forall known | known in Known(s) ensures JobId(known) != JobId(job) {
      JobIdInjective(known, job);
    }
  }

  /** No job is known for a forward that is not stored. */
  lemma UncapturedUnknown(s: System, id: Uuid, deferSeconds: nat)
    requires Reachable(s) && id !in s.cells
    ensures Job(id, deferSeconds) !in Known(s)
  {
    ReachableInv(s);
  }

  /** Step `t` puts forward `id` to the queue for an immediate run. */
  predicate OffersNow(s: System, t: Step, id: Uuid) {
    t == Offer(id)
    || (t.Redrive? && id in Swept(ReclaimAll(s.cells, t.endpoint, t.now, s.clock), t.endpoint, t.now))
  }

  lemma RetriesDeferred(s: System, id: Uuid, w: nat)
    requires Inv(s) && id in s.cells && w in s.cells[id].requeueing
    ensures RequeueDelay(s.cells[id], w) > 0
  {
    PendingDelayPositive(s.cells[id], s.clock, w);
  }

  lemma NotOfferedUnknown(s: System, t: Step, id: Uuid)
    requires CanStep(s, t) && !OffersNow(s, t, id) && Job(id, 0) !in Known(s)
    requires t.On? && t.action.Requeue? ==> RequeueDelay(s.cells[t.id], t.action.worker) > 0
    ensures Job(id, 0) !in Known(After(s, t))
  {
  }

  lemma MoveUnoffered(s: System, t: Step, n: System, id: Uuid)
    requires Reachable(s) && Moves(s, t, n) && !OffersNow(s, t, id) && Job(id, 0) !in Known(s)
    ensures Job(id, 0) !in Known(n)
  {
    if t.On? && t.action.Requeue? {
      ReachableInv(s);
      RetriesDeferred(s, t.id, t.action.worker);
    }
    NotOfferedUnknown(s, t, id);
  }

  lemma RunReaches(run: seq<System>, steps: seq<Step>, i: nat)
    requires IsRun(run, steps) && i <= |steps|
    ensures Reachable(run[i])
  {
    assert IsRun(run[..i + 1], steps[..i]);
  }

  /** Nor does the queue swallow a capture: from before the capture until somebody offers
      the forward, its immediate job stays unknown, so the first offer is accepted. */
  lemma {:induction false} FirstOfferAccepted(run: seq<System>, steps: seq<Step>, i: nat, j: nat, id: Uuid)
    requires IsRun(run, steps) && i <= j <= |steps| && id !in run[i].cells
    requires forall k :: i <= k < j ==> !OffersNow(run[k], steps[k], id)
    ensures Job(id, 0) !in Known(run[j])
    decreases j
  {
    if i == j {
      RunReaches(run, steps, i);
      UncapturedUnknown(run[i], id, 0);
    } else {
      FirstOfferAccepted(run, steps, i, j - 1, id);
      RunReaches(run, steps, j - 1);
      assert Moves(run[j - 1], steps[j - 1], run[j]);
      MoveUnoffered(run[j - 1], steps[j - 1], run[j], id);
    }
  }

  lemma ContinuesTransitive(a: Cell, b: Cell, c: Cell)
    requires Continues(a, b) && Continues(b, c)
    ensures Continues(a, c)
  {
  }

  /** Along a run a forward stays, and keeps its identity, its sort key, its history
      and the trace of a manual retry; its counter does not fall below min(old, 4). */
  lemma {:induction false} RunContinues(run: seq<System>, steps: seq<Step>, i: nat, j: nat, id: Uuid)
    requires IsRun(run, steps) && i <= j <= |steps| && id in run[i].cells
    ensures id in run[j].cells && Continues(run[i].cells[id], run[j].cells[id])
    decreases j
  {
    if i < j {
      RunContinues(run, steps, i, j - 1, id);
      assert Moves(run[j - 1], steps[j - 1], run[j]);
      StepContinues(run[j - 1], steps[j - 1], id);
      ContinuesTransitive(run[i].cells[id], run[j - 1].cells[id], run[j].cells[id]);
    }
  }
}
