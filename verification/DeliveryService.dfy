/** The use cases that drive the table and the queue in place: the worker's attempt
    (execute_forward.py under worker.py) phase by phase, the redrive run, and the
    operator's retry and abandon with their routes. Each phase starts from any reachable
    state in which its worker is at that phase, and is proved to be one protocol step, so
    other workers and operators may act between the phases. */
module DeliveryService {
  import opened Text
  import opened Forwards
  import opened ForwardQueue
  import opened ForwardRepository
  import opened Protocol
  import opened Runs

  /** The stored table of a state. */
  ghost function RowsOf(s: System): map<Uuid, Forward> {
    map id | id in s.cells :: s.cells[id].row
  }

  // -------------------------------------------------------------- environment

  /** What the HTTP phase met: an exception the use case does not catch, or a report. */
  datatype Http = Raises(sent: bool) | Reports(outcome: Outcome, sent: bool)

  /** Everything one attempt takes from outside: clock readings, what the lookups
      found, what the target did, and which calls raised. */
  datatype World = World(
    claimAt: Time, decidedAt: Time, recordAt: Time,
    found: bool, loadRaises: bool, http: Http, recordRaises: bool, enqueueRaises: bool)

  predicate InOrder(w: World, clock: Time) {
    && w.claimAt <= w.decidedAt <= w.recordAt <= clock
    && (w.http.Reports? && w.http.outcome.Response? ==> w.http.sent)
  }

  datatype Ending =
    | Skipped          // not claimable: a duplicate fire
    | RolledBack       // the claim transaction raised
    | Expired          // endpoint or request gone
    | Stranded         // claimed, then an exception before the outcome was stored
    | Finished(next: Status)
    | RetryLost        // `failed` was stored but the enqueue raised

  /** How an attempt ends; `attempt` is its number. */
  function EndingOf(claimable: bool, attempt: nat, w: World): Ending {
    if !claimable then Skipped
    else if w.loadRaises then RolledBack
    else if !w.found then Ending.Expired
    else if w.http.Raises? || w.recordRaises then Stranded
    else
      var next := Judge(attempt, w.http.outcome, w.decidedAt).0.next;
      if next == Failed && w.enqueueRaises then RetryLost else Finished(next)
  }

  /** Row `f` is what an attempt that was not cut short makes of the claimable row `before`. */
  predicate Delivered(f: Forward, before: Forward, w: World)
    requires w.http.Reports?
  {
    StoredOutcome(f, before.(status := InFlight, attemptCount := before.attemptCount + 1,
                             lastAttemptAt := Some(w.claimAt), forwardStartedAt := Some(w.claimAt)),
                  before.attemptCount + 1, w.http.outcome, w.decidedAt, w.recordAt)
  }

  function RecordOf(me: nat, w: World): Action
    requires w.http.Reports?
  {
    Record(me, w.http.outcome, w.decidedAt, w.recordAt)
  }

  function SendSteps(id: Uuid, me: nat, w: World): seq<Step> {
    if w.http.sent then [On(id, Send(me))] else []
  }

  function RecordSteps(id: Uuid, me: nat, w: World): seq<Step> {
    if w.http.Reports? then [On(id, RecordOf(me, w))] else []
  }

  function LastSteps(ending: Ending, id: Uuid, me: nat): seq<Step> {
    match ending
    case Finished(next) => if next == Failed then [On(id, Requeue(me))] else []
    case _ => [On(id, Crash(me))]
  }

  /** The protocol steps of an uninterrupted attempt with this ending; `me` is the
      worker's name. */
  function StepsOf(ending: Ending, id: Uuid, me: nat, w: World): seq<Step> {
    var begun := [On(id, Claim(w.claimAt))] + SendSteps(id, me, w);
    match ending
    case Skipped => []
    case RolledBack => []
    case Expired => [On(id, ClaimExpired(w.claimAt, w.recordAt))]
    case Stranded => begun + [On(id, Crash(me))]
    case _ => begun + RecordSteps(id, me, w) + LastSteps(ending, id, me)
  }

  /** In `n` worker `me` holds forward `id` as told. */
  ghost predicate Holds(n: System, id: Uuid, me: nat, attempt: nat, sent: bool) {
    && id in n.cells && me in n.cells[id].holding
    && n.cells[id].holding[me].attempt == attempt && n.cells[id].holding[me].sent == sent
  }

  /** In `n` worker `me` has recorded `failed` and has still to schedule the retry. */
  ghost predicate Requeues(n: System, id: Uuid, me: nat, delay: nat) {
    id in n.cells && me in n.cells[id].requeueing && RequeueDelay(n.cells[id], me) == delay
  }

  /** Worker `me` has nothing more to do. */
  ghost predicate Gone(n: System, id: Uuid, me: nat) {
    id in n.cells && me !in n.cells[id].holding && me !in n.cells[id].requeueing
  }

  /** The queue looks the same in both states, and so does the clock. */
  ghost predicate SameQueue(n: System, m: System) {
    m.clock == n.clock && m.waiting == n.waiting && m.kept == n.kept
  }

  // ---------------------------------------------- what each step does to the classes

  lemma Claims(s: System, id: Uuid, at: Time) returns (n: System)
    requires id in s.cells && at <= s.clock && Claimable(s.cells[id].row.status)
    ensures Moves(s, On(id, Claim(at)), n) && SameQueue(s, n)
    ensures RowsOf(n) == RowsOf(s)[id := ClaimRow(s.cells[id].row, at).value]
    ensures Holds(n, id, |s.cells[id].log|, s.cells[id].row.attemptCount + 1, false)
  {
    n := After(s, On(id, Claim(at)));
  }

  lemma Expires(s: System, id: Uuid, at: Time, recordAt: Time) returns (n: System)
    requires id in s.cells && at <= recordAt <= s.clock && Claimable(s.cells[id].row.status)
    ensures Moves(s, On(id, ClaimExpired(at, recordAt)), n) && SameQueue(s, n)
    ensures RowsOf(n) == RowsOf(s)[id := RecordRow(ClaimRow(s.cells[id].row, at).value, EXPIRED_VERDICT, recordAt)]
  {
    n := After(s, On(id, ClaimExpired(at, recordAt)));
  }

  lemma Sends(n: System, id: Uuid, me: nat, attempt: nat) returns (m: System)
    requires Holds(n, id, me, attempt, false)
    ensures Moves(n, On(id, Send(me)), m) && SameQueue(n, m) && RowsOf(m) == RowsOf(n)
    ensures Holds(m, id, me, attempt, true)
  {
    m := After(n, On(id, Send(me)));
  }

  lemma NotYetRequeueing(n: System, id: Uuid, me: nat)
    requires Reachable(n) && id in n.cells && me in n.cells[id].holding
    ensures me !in n.cells[id].requeueing && n.cells[id].holding[me].attempt >= 1
  {
    ReachableInv(n);
  }

  lemma NotHolding(n: System, id: Uuid, me: nat)
    requires Reachable(n) && id in n.cells && me in n.cells[id].requeueing
    ensures me !in n.cells[id].holding
  {
    ReachableInv(n);
  }

  lemma Records(n: System, id: Uuid, me: nat, attempt: nat, sent: bool, outcome: Outcome, decidedAt: Time, at: Time)
    returns (m: System)
    requires Holds(n, id, me, attempt, sent) && me !in n.cells[id].requeueing
    requires decidedAt <= at <= n.clock && (outcome.Response? ==> sent)
    ensures Moves(n, On(id, Record(me, outcome, decidedAt, at)), m) && SameQueue(n, m)
    ensures var judged := Judge(attempt, outcome, decidedAt);
            && RowsOf(m) == RowsOf(n)[id := RecordRow(n.cells[id].row, judged.0, at)]
            && (judged.0.next == Failed <==> id in m.cells && me in m.cells[id].requeueing)
            && (judged.0.next == Failed ==> Requeues(m, id, me, judged.1))
            && id in m.cells && me !in m.cells[id].holding
  {
    m := After(n, On(id, Record(me, outcome, decidedAt, at)));
  }

  lemma Crashes(n: System, id: Uuid, me: nat) returns (m: System)
    requires id in n.cells && (me in n.cells[id].holding || me in n.cells[id].requeueing)
    ensures Moves(n, On(id, Crash(me)), m) && SameQueue(n, m) && RowsOf(m) == RowsOf(n) && Gone(m, id, me)
  {
    m := After(n, On(id, Crash(me)));
  }

  /** A scheduled retry is new to the queue, so it is stored. */
  lemma Schedules(n: System, id: Uuid, me: nat, delay: nat) returns (m: System)
    requires Reachable(n) && Requeues(n, id, me, delay)
    ensures Job(id, delay) !in Known(n)
    ensures Moves(n, On(id, Requeue(me)), m) && RowsOf(m) == RowsOf(n) && Gone(m, id, me)
    ensures m.clock == n.clock && m.waiting == n.waiting + {Job(id, delay)} && m.kept == n.kept
  {
    ScheduledRetryAccepted(n, id, me);
    NotHolding(n, id, me);
    m := After(n, On(id, Requeue(me)));
  }

  lemma MovesReachable(s: System, t: Step, n: System)
    requires Reachable(s) && Moves(s, t, n)
    ensures Reachable(n)
  {
    var m := StepReachable(s, t);
  }

  class Service {
    const table: ForwardTable
    const queue: ArqForwardQueue

    constructor (table: ForwardTable, queue: ArqForwardQueue)
      ensures this.table == table && this.queue == queue
    {
      this.table, this.queue := table, queue;
    }

    /** Table and queue are those of the protocol state `s`. */
    ghost predicate Shows(s: System)
      reads this, table, queue
    {
      && table.Valid() && queue.Valid()
      && table.rows == RowsOf(s)
      && queue.Waiting() == s.waiting && queue.Kept() == s.kept
    }

    /** Phase 1, one transaction: claim the row, then load the endpoint and the request.
        Without them the forward is dead; an exception rolls the claim back. */
    method ClaimPhase(id: Uuid, claimAt: Time, recordAt: Time, found: bool, raises: bool, ghost s: System)
      returns (held: Option<Forward>, ending: Option<Ending>, ghost n: System)
      requires Shows(s) && claimAt <= recordAt <= s.clock
      modifies table
      ensures Shows(n) && n.clock == s.clock
      ensures ending == if !(id in s.cells && Claimable(s.cells[id].row.status)) then Some(Skipped)
                        else if raises then Some(RolledBack) else if !found then Some(Ending.Expired) else None
      ensures ending == Some(Skipped) || ending == Some(RolledBack) ==> n == s
      ensures ending == Some(Ending.Expired) ==>
                && Moves(s, On(id, ClaimExpired(claimAt, recordAt)), n)
                && id in table.rows && table.rows[id].status == Dead && table.rows[id].finalStatusCode == None
                && table.rows[id].finalError == Some("endpoint or request not found (TTL expired?)")
                && table.rows[id].forwardCompletedAt == Some(recordAt)
      ensures ending == None ==>
                && held.Some? && held.value == ClaimRow(s.cells[id].row, claimAt).value
                && id in table.rows && table.rows[id] == held.value
                && held.value.attemptCount == s.cells[id].row.attemptCount + 1
                && Moves(s, On(id, Claim(claimAt)), n) && Holds(n, id, |s.cells[id].log|, held.value.attemptCount, false)
    {
      n, ending := s, Some(Skipped);
      var before := table.rows;
      held := table.ClaimForAttempt(id, claimAt);
      if held.None? {
        return;
      }
      if raises {
        table.rows := before;
        ending := Some(RolledBack);
      } else if !found {
        n := Expires(s, id, claimAt, recordAt);
        table.RecordOutcome(id, EXPIRED_VERDICT, recordAt);
        assert table.rows == before[id := RecordRow(held.value, EXPIRED_VERDICT, recordAt)];
        ending := Some(Ending.Expired);
      } else {
        n := Claims(s, id, claimAt);
        ending := None;
      }
    }

    /** Phase 2: table and queue are not touched. */
    method HttpPhase(id: Uuid, sends: bool, ghost me: nat, ghost attempt: nat, ghost n: System) returns (ghost m: System)
      requires Shows(n) && Holds(n, id, me, attempt, false)
      ensures Shows(m) && m.clock == n.clock && Holds(m, id, me, attempt, sends)
      ensures if sends then Moves(n, On(id, Send(me)), m) else m == n
    {
      m := n;
      if sends {
        m := Sends(n, id, me, attempt);
      }
    }

    /** Phase 3, one transaction: store the outcome, whatever the row has become. */
    method RecordPhase(id: Uuid, attempt: nat, outcome: Outcome, decidedAt: Time, at: Time,
                       ghost me: nat, ghost sent: bool, ghost n: System)
      returns (next: Status, delay: nat, ghost m: System)
      requires Shows(n) && Reachable(n) && Holds(n, id, me, attempt, sent)
      requires decidedAt <= at <= n.clock && (outcome.Response? ==> sent)
      modifies table
      ensures Shows(m) && m.clock == n.clock && Moves(n, On(id, Record(me, outcome, decidedAt, at)), m)
      ensures next == Judge(attempt, outcome, decidedAt).0.next
      ensures id in old(table.rows) && id in table.rows && table.rows[id].status == next
      ensures StoredOutcome(table.rows[id], old(table.rows)[id], attempt, outcome, decidedAt, at)
      ensures next == Failed ==> Requeues(m, id, me, delay) && RetryDelay(delay, attempt)
      ensures me !in m.cells[id].holding
    {
      var (verdict, seconds) := Judge(attempt, outcome, decidedAt);
      NotYetRequeueing(n, id, me);
      OutcomeStored(table.rows[id], attempt, outcome, decidedAt, at);
      m := Records(n, id, me, attempt, sent, outcome, decidedAt, at);
      table.RecordOutcome(id, verdict, at);
      next, delay := verdict.next, seconds;
    }

    /** Phase 4, after the commit: schedule the retry of a `failed` forward. The queue
        always accepts it; only an exception loses it. */
    method RequeuePhase(id: Uuid, delay: nat, raises: bool, ghost me: nat, ghost n: System)
      returns (accepted: bool, ghost m: System)
      requires Shows(n) && Reachable(n) && Requeues(n, id, me, delay)
      modifies queue
      ensures Shows(m) && Moves(n, On(id, if raises then Crash(me) else Requeue(me)), m) && Gone(m, id, me)
      ensures accepted <==> !raises
    {
      accepted := false;
      if raises {
        m := Crashes(n, id, me);
      } else {
        m := Schedules(n, id, me, delay);
        accepted := queue.Enqueue(id, delay);
      }
    }

    /** Phases 3 and 4 without interruption. */
    method Conclude(id: Uuid, w: World, attempt: nat, ghost me: nat, ghost s: System, ghost steps: seq<Step>, ghost n: System)
      returns (ending: Ending, ghost m: System)
      requires Shows(n) && Reachable(n) && InOrder(w, n.clock) && w.http.Reports? && Holds(n, id, me, attempt, w.http.sent)
      requires Leads(s, steps, n)
      modifies table, queue
      ensures var next := Judge(attempt, w.http.outcome, w.decidedAt).0.next;
              ending == if next == Failed && w.enqueueRaises then RetryLost else Finished(next)
      ensures Shows(m) && Leads(s, steps + [On(id, RecordOf(me, w))] + LastSteps(ending, id, me), m)
      ensures ending.Finished? || ending.RetryLost? ==>
                && id in old(table.rows) && id in table.rows && w.http.Reports?
                && StoredOutcome(table.rows[id], old(table.rows)[id], attempt, w.http.outcome, w.decidedAt, w.recordAt)
                && table.rows[id].status == if ending.Finished? then ending.next else Failed
    {
      var next, delay;
      next, delay, m := RecordPhase(id, attempt, w.http.outcome, w.decidedAt, w.recordAt, me, w.http.sent, n);
      ghost var more := steps + [On(id, RecordOf(me, w))];
      LeadsOn(s, steps, n, On(id, RecordOf(me, w)), m);
      ending := Finished(next);
      if next != Failed {
        assert more + [] == more;
      } else {
        ghost var recorded := m;
        MovesReachable(n, On(id, RecordOf(me, w)), recorded);
        var accepted;
        accepted, m := RequeuePhase(id, delay, w.enqueueRaises, me, recorded);
        LeadsOn(s, more, recorded, On(id, if w.enqueueRaises then Crash(me) else Requeue(me)), m);
        if !accepted {
          ending := RetryLost;
        }
      }
    }

    /** Phase 2 and what follows it without interruption, for a worker that holds its
        claim. */
    method Proceed(id: Uuid, w: World, attempt: nat, ghost me: nat, ghost s: System, ghost n: System)
      returns (ending: Ending, ghost m: System)
      requires Shows(n) && Reachable(n) && InOrder(w, n.clock) && Holds(n, id, me, attempt, false)
      requires Leads(s, [On(id, Claim(w.claimAt))], n)
      modifies table, queue
      ensures ending == EndingOf(true, attempt, w.(loadRaises := false, found := true))
      ensures Shows(m) && Leads(s, StepsOf(ending, id, me, w), m)
      ensures ending.Finished? || ending.RetryLost? ==>
                && id in old(table.rows) && id in table.rows && w.http.Reports?
                && StoredOutcome(table.rows[id], old(table.rows)[id], attempt, w.http.outcome, w.decidedAt, w.recordAt)
                && table.rows[id].status == if ending.Finished? then ending.next else Failed
    {
      ghost var steps := [On(id, Claim(w.claimAt))];
      m := HttpPhase(id, w.http.sent, me, attempt, n);
      if w.http.sent {
        LeadsOn(s, steps, n, On(id, Send(me)), m);
        MovesReachable(n, On(id, Send(me)), m);
      }
      assert !w.http.sent ==> steps + SendSteps(id, me, w) == steps;
      steps := steps + SendSteps(id, me, w);
      if w.http.Raises? || w.recordRaises {
        ghost var held := m;
        m := Crashes(held, id, me);
        LeadsOn(s, steps, held, On(id, Crash(me)), m);
        ending := Stranded;
      } else {
        ending, m := Conclude(id, w, attempt, me, s, steps, m);
      }
    }

    /** One fired job without interruption: the phases of `ExecuteForward.execute` one
        after the other, with the exceptions `execute_forward` swallows. */
    method Attempt(id: Uuid, w: World, ghost s: System) returns (ending: Ending, ghost n: System)
      requires Shows(s) && InOrder(w, s.clock) && Reachable(s)
      modifies table, queue
      ensures ending == if id in s.cells
                        then EndingOf(Claimable(s.cells[id].row.status), s.cells[id].row.attemptCount + 1, w) else Skipped
      ensures Shows(n) && Leads(s, StepsOf(ending, id, if id in s.cells then |s.cells[id].log| else 0, w), n)
      ensures ending.Finished? || ending.RetryLost? ==>
                && id in s.cells && id in table.rows && w.http.Reports?
                && Delivered(table.rows[id], s.cells[id].row, w)
                && table.rows[id].status == if ending.Finished? then ending.next else Failed
    {
      var held, ended;
      held, ended, n := ClaimPhase(id, w.claimAt, w.recordAt, w.found, w.loadRaises, s);
      if ended.Some? {
        ending := ended.value;
        if ending == Ending.Expired {
          OneStepLeads(s, On(id, ClaimExpired(w.claimAt, w.recordAt)), n);
        } else {
          LeadsNowhere(s);
        }
      } else {
        OneStepLeads(s, On(id, Claim(w.claimAt)), n);
        MovesReachable(s, On(id, Claim(w.claimAt)), n);
        ending, n := Proceed(id, w, held.value.attemptCount, |s.cells[id].log|, s, n);
      }
    }

    /** An enqueue for an immediate run whose exception is swallowed; `stored` tells
        whether the queue stored a job, which the source does not look at. */
    method SafeEnqueue(id: Uuid, raises: bool) returns (stored: bool)
      requires queue.Valid()
      modifies queue
      ensures queue.Valid() && queue.Kept() == old(queue.Kept())
      ensures stored <==> !raises && Job(id, 0) !in old(queue.Waiting()) + old(queue.Kept())
      ensures queue.Waiting() == old(queue.Waiting()) + if stored then {Job(id, 0)} else {}
    {
      stored := false;
      if !raises {
        stored := queue.Enqueue(id, 0);
      }
    }

    /** The background task of the capture and the retry routes, from whatever state it
        finds: other steps may have come since the commit. */
    method OfferForward(id: Uuid, raises: bool, ghost s: System) returns (stored: bool, ghost n: System)
      requires Shows(s) && id in s.cells
      modifies queue
      ensures Shows(n) && (if raises then n == s else Moves(s, Offer(id), n))
      ensures stored <==> !raises && Job(id, 0) !in Known(s)
    {
      stored := SafeEnqueue(id, raises);
      n := s;
      if !raises {
        n := OfferStep(s, id);
      }
    }

    /** A captured request's pending forward, up to the commit. */
    method AddForward(id: Uuid, requestId: Uuid, endpointId: Uuid, url: string, now: Time, ghost s: System)
      returns (saved: bool, ghost n: System)
      requires Shows(s) && now <= s.clock
      modifies table
      ensures Shows(n)
      ensures saved <==> id !in s.cells
      ensures if saved then Moves(s, Capture(id, requestId, endpointId, url, now), n) else n == s
      ensures saved ==> id in table.rows && Untouched(table.rows[id], id, requestId, endpointId, url, now)
    {
      n := s;
      saved := table.Save(Create(id, requestId, endpointId, url, now));
      if saved {
        n := CaptureStep(s, id, requestId, endpointId, url, now);
      }
    }

    /** `RedrivePendingForwards.execute`: reclaim, select, enqueue one by one. `down`
        are the forwards whose enqueue raises; the run goes on past them. `tried` are
        the enqueue attempts in order, `accepted` the jobs the queue stored.
        `None` stands for `EndpointNotFoundError`. The run is not interrupted, so no job is
        taken before its commit. */
    method Redrive(endpoint: Option<Uuid>, now: Time, down: set<Uuid>, ghost s: System)
      returns (count: Option<nat>, tried: seq<Uuid>, accepted: set<Job>, ghost n: System)
      requires Shows(s) && now <= s.clock
      modifies table, queue
      ensures Shows(n)
      ensures endpoint == None ==> n == s && tried == [] && accepted == {} && count == None
      ensures endpoint.Some? ==> Moves(s, Step.Redrive(endpoint.value, now, down, {}), n)
      ensures endpoint.Some? ==> OnceEach(tried, Swept(n.cells, endpoint.value, now)) && count == Some(|tried|)
      ensures SweepOrder(tried, table.rows)
      ensures accepted == Accepted(s, Immediate(Elements(tried) - down))
    {
      n, tried, accepted, count := s, [], {}, None;
      if endpoint.Some? {
        n := After(s, Step.Redrive(endpoint.value, now, down, {}));
        RedriveStep(s, endpoint.value, now, down);
        var _ := table.ReclaimStuckInFlight(endpoint.value, STUCK_IN_FLIGHT_SECONDS, now);
        var overdue := table.ListOverdueFailed(endpoint.value, now);
        var pending := table.RedriveStuckPending(endpoint.value, STUCK_PENDING_SECONDS, now);
        SweepListed(table.rows, n, overdue, pending, endpoint.value, now);
        tried, accepted := EnqueueAll(overdue + pending, down);
        assert Elements(tried) == Swept(n.cells, endpoint.value, now);
        count := Some(|overdue| + |pending|);
      }
    }

    /** The loop of a redrive run: an enqueue that raises does not end it, and one the
        queue refuses goes unnoticed. */
    method EnqueueAll(ids: seq<Uuid>, down: set<Uuid>) returns (tried: seq<Uuid>, accepted: set<Job>)
      requires queue.Valid()
      modifies queue
      ensures queue.Valid() && tried == ids
      ensures accepted == Immediate(Elements(ids) - down) - (old(queue.Waiting()) + old(queue.Kept()))
      ensures queue.Waiting() == old(queue.Waiting()) + accepted && queue.Kept() == old(queue.Kept())
    {
      tried, accepted := [], {};
      ghost var waiting, kept := queue.Waiting(), queue.Kept();
      for i := 0 to |ids|
        invariant tried == ids[..i] && queue.Valid()
        invariant accepted == Offered(ids[..i], down) - (waiting + kept)
        invariant queue.Waiting() == waiting + accepted && queue.Kept() == kept
      {
        OfferedMore(ids, i, down);
        tried := tried + [ids[i]];
        var stored := SafeEnqueue(ids[i], ids[i] in down);
        AcceptedMore(waiting, kept, Offered(ids[..i], down), Job(ids[i], 0), ids[i] in down, stored);
        accepted := accepted + if stored then {Job(ids[i], 0)} else {};
      }
      assert ids[..|ids|] == ids;
      OfferedImmediate(ids, down);
    }

    /** `RetryForward.execute`, up to the commit: the row goes back to `pending`. `None` is
        a 404. */
    method RetryForward(id: Uuid, endpoint: Option<Uuid>, now: Time, ghost s: System)
      returns (retried: Option<Forward>, ghost n: System)
      requires Shows(s) && now <= s.clock
      modifies table
      ensures Shows(n)
      ensures retried.Some? <==> endpoint.Some? && id in s.cells && s.cells[id].row.endpointId == endpoint.value
                                 && s.cells[id].row.status in {Failed, Dead, Abandoned}
      ensures retried.None? ==> n == s
      ensures retried.Some? ==>
                && Moves(s, On(id, Retry(endpoint.value, now)), n)
                && id in n.cells && retried.value == n.cells[id].row
                && var before := s.cells[id].row;
                   retried.value == before.(status := Pending, manualRetryAt := Some(now), nextAttemptAt := Some(now),
                                            attemptCount := if before.status == Failed then before.attemptCount else 4,
                                            finalError := None, finalStatusCode := None, forwardCompletedAt := None)
    {
      n, retried := s, None;
      if endpoint.Some? {
        retried := table.ClaimForManualRetry(id, endpoint.value, now);
        if retried.Some? {
          n := RetryStep(s, id, endpoint.value, now);
        }
      }
    }

    /** `AbandonForward.execute`; `None` is a 404. */
    method AbandonForward(id: Uuid, endpoint: Option<Uuid>, now: Time, ghost s: System)
      returns (abandoned: Option<Forward>, ghost n: System)
      requires Shows(s) && now <= s.clock
      modifies table
      ensures Shows(n)
      ensures abandoned.Some? <==> endpoint.Some? && id in s.cells && s.cells[id].row.endpointId == endpoint.value
                                   && s.cells[id].row.status in {Pending, InFlight, Failed}
      ensures abandoned.None? ==> n == s
      ensures abandoned.Some? ==>
                && Moves(s, On(id, Abandon(endpoint.value, now)), n)
                && id in n.cells && abandoned.value == n.cells[id].row
                && abandoned.value == s.cells[id].row.(status := Abandoned, forwardCompletedAt := Some(now),
                                                       finalError := Some("manually abandoned by owner"))
    {
      n, abandoned := s, None;
      if endpoint.Some? {
        abandoned := table.Abandon(id, endpoint.value, now);
        if abandoned.Some? {
          AbandonStep(s, id, endpoint.value, now);
          n := After(s, On(id, Abandon(endpoint.value, now)));
        }
      }
    }
  }

  /** `q` names each element of `ids` once and nothing else. */
  ghost predicate OnceEach(q: seq<Uuid>, ids: set<Uuid>) {
    && (forall id :: id in q <==> id in ids)
    && (forall i, j :: 0 <= i < j < |q| ==> q[i] != q[j])
  }

  /** Failed forwards by the time of their stamp, then pending ones by age. */
  ghost predicate SweepOrder(q: seq<Uuid>, rows: map<Uuid, Forward>) {
    forall i, j :: 0 <= i < j < |q| ==> q[i] in rows && q[j] in rows && Earlier(rows[q[i]], rows[q[j]])
  }

  predicate Earlier(f: Forward, g: Forward) {
    || (f.status == Failed && g.status == Pending)
    || (f.status == g.status == Pending && f.createdAt <= g.createdAt)
    || (f.status == g.status == Failed && f.nextAttemptAt.Some? && g.nextAttemptAt.Some?
        && f.nextAttemptAt.value <= g.nextAttemptAt.value)
  }

  ghost function Elements(q: seq<Uuid>): set<Uuid> {
    set id | id in q
  }

  /** The jobs a loop over `ids` offers to the queue. */
  ghost function Offered(ids: seq<Uuid>, down: set<Uuid>): set<Job> {
    if ids == [] then {} else
      var last := ids[|ids| - 1];
      Offered(ids[..|ids| - 1], down) + if last in down then {} else {Job(last, 0)}
  }

  lemma OfferedMore(ids: seq<Uuid>, i: nat, down: set<Uuid>)
    requires i < |ids|
    ensures ids[..i + 1] == ids[..i] + [ids[i]]
    ensures Offered(ids[..i + 1], down) == Offered(ids[..i], down) + if ids[i] in down then {} else {Job(ids[i], 0)}
  {
    assert ids[..i + 1][..i] == ids[..i];
  }

  /** One more job offered to a queue that has stored what was new before. */
  lemma AcceptedMore(waiting: set<Job>, kept: set<Job>, offered: set<Job>, job: Job, raises: bool, stored: bool)
    requires stored <==> !raises && job !in waiting + (offered - (waiting + kept)) + kept
    ensures var before, more := offered - (waiting + kept), if stored then {job} else {};
            && before + more == offered + (if raises then {} else {job}) - (waiting + kept)
            && waiting + before + more == waiting + (before + more)
  {
  }

  lemma {:induction false} OfferedImmediate(ids: seq<Uuid>, down: set<Uuid>)
    ensures Offered(ids, down) == Immediate(Elements(ids) - down)
  {
    if ids != [] {
      var front, last := ids[..|ids| - 1], ids[|ids| - 1];
      OfferedImmediate(front, down);
      assert ids == front + [last];
      assert Elements(ids) == Elements(front) + {last};
    }
  }

  /** What the redrive step does to the table and the queue when no job is taken early. */
  lemma RedriveStep(s: System, endpoint: Uuid, now: Time, down: set<Uuid>)
    requires now <= s.clock
    ensures var n := After(s, Step.Redrive(endpoint, now, down, {}));
            && n.waiting == s.waiting + Accepted(s, Immediate(Swept(n.cells, endpoint, now) - down)) && n.kept == s.kept
            && RowsOf(n) == map id | id in RowsOf(s) :: ReclaimOne(RowsOf(s)[id], endpoint, STUCK_IN_FLIGHT_SECONDS, now)
  {
    assert Immediate({}) == {};
  }

  lemma OfferStep(s: System, id: Uuid) returns (n: System)
    requires id in s.cells
    ensures Moves(s, Offer(id), n) && RowsOf(n) == RowsOf(s) && n.kept == s.kept && n.clock == s.clock
    ensures n.waiting == s.waiting + if Job(id, 0) !in Known(s) then {Job(id, 0)} else {}
  {
    n := After(s, Offer(id));
  }

  lemma CaptureStep(s: System, id: Uuid, requestId: Uuid, endpointId: Uuid, url: string, now: Time) returns (n: System)
    requires now <= s.clock && id !in s.cells
    ensures Moves(s, Capture(id, requestId, endpointId, url, now), n)
    ensures RowsOf(n) == RowsOf(s)[id := Create(id, requestId, endpointId, url, now)] && SameQueue(s, n)
  {
    n := After(s, Capture(id, requestId, endpointId, url, now));
  }

  lemma RetryStep(s: System, id: Uuid, endpoint: Uuid, now: Time) returns (n: System)
    requires now <= s.clock && id in s.cells && RetryRow(s.cells[id].row, endpoint, now).Some?
    ensures Moves(s, On(id, Retry(endpoint, now)), n)
    ensures RowsOf(n) == RowsOf(s)[id := RetryRow(s.cells[id].row, endpoint, now).value] && SameQueue(s, n)
  {
    n := After(s, On(id, Retry(endpoint, now)));
  }

  lemma AbandonStep(s: System, id: Uuid, endpoint: Uuid, now: Time)
    requires now <= s.clock && id in s.cells && AbandonRow(s.cells[id].row, endpoint, now).Some?
    ensures CanStep(s, On(id, Abandon(endpoint, now)))
    ensures var n := After(s, On(id, Abandon(endpoint, now)));
            RowsOf(n) == RowsOf(s)[id := AbandonRow(s.cells[id].row, endpoint, now).value] && SameQueue(s, n)
  {
  }

  /** The two listings together name what the redrive step sweeps. */
  lemma SweepListed(rows: map<Uuid, Forward>, n: System, overdue: seq<Uuid>, pending: seq<Uuid>, endpoint: Uuid, now: Time)
    requires rows == RowsOf(n)
    requires EarliestFirst(overdue, map id | id in rows && OverdueFailed(rows[id], endpoint, now) :: rows[id].nextAttemptAt.value)
    requires EarliestFirst(pending, map id | id in rows && StuckPending(rows[id], endpoint, STUCK_PENDING_SECONDS, now) :: rows[id].createdAt)
    ensures OnceEach(overdue + pending, Swept(n.cells, endpoint, now))
    ensures SweepOrder(overdue + pending, rows)
  {
    ListedInOrder(rows, overdue, pending, endpoint, now);
    forall i, j | 0 <= i < |overdue| && 0 <= j < |pending| ensures overdue[i] != pending[j] {
      assert overdue[i] in overdue && pending[j] in pending;
    }
  }

  lemma ListedInOrder(rows: map<Uuid, Forward>, overdue: seq<Uuid>, pending: seq<Uuid>, endpoint: Uuid, now: Time)
    requires EarliestFirst(overdue, map id | id in rows && OverdueFailed(rows[id], endpoint, now) :: rows[id].nextAttemptAt.value)
    requires EarliestFirst(pending, map id | id in rows && StuckPending(rows[id], endpoint, STUCK_PENDING_SECONDS, now) :: rows[id].createdAt)
    ensures SweepOrder(overdue + pending, rows)
  {
    var q := overdue + pending;
    forall i, j | 0 <= i < j < |q| ensures q[i] in rows && q[j] in rows && Earlier(rows[q[i]], rows[q[j]]) {
      assert q[i] in overdue || q[i] in pending;
      assert q[j] in overdue || q[j] in pending;
      if j < |overdue| {
        assert q[i] == overdue[i] && q[j] == overdue[j];
      } else if i >= |overdue| {
        assert q[i] == pending[i - |overdue|] && q[j] == pending[j - |overdue|];
      } else {
        assert q[i] in overdue && q[j] in pending;
      }
    }
  }
}
