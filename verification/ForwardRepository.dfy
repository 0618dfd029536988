/** The forwards table (forward_repository.py): each method is one statement. */
module ForwardRepository {
  import opened Text
  import opened Forwards
  import opened Paging

  /** `ids` lists the keys of `at` once each, earliest time first. */
  ghost predicate EarliestFirst(ids: seq<Uuid>, at: map<Uuid, Time>) {
    && (forall id :: id in ids <==> id in at)
    && (forall i, j :: 0 <= i < j < |ids| ==> ids[i] != ids[j] && ids[i] in at && ids[j] in at && at[ids[i]] <= at[ids[j]])
  }

  method Earliest(at: map<Uuid, Time>, ids: set<Uuid>) returns (first: Uuid)
    requires ids != {} && ids <= at.Keys
    ensures first in ids && forall id :: id in ids ==> at[first] <= at[id]
  {
    first :| first in ids;
    var rest := ids - {first};
    while rest != {}
      invariant first in ids && rest <= ids
      invariant forall id :: id in ids && id !in rest ==> at[first] <= at[id]
      decreases |rest|
    {
      var id :| id in rest;
      rest := rest - {id};
      if at[id] < at[first] {
        first := id;
      }
    }
  }

  method OrderByTime(at: map<Uuid, Time>) returns (ids: seq<Uuid>)
    ensures EarliestFirst(ids, at)
    ensures |ids| == |at|
  {
    ids := [];
    var rest := at.Keys;
    while rest != {}
      invariant rest <= at.Keys && |ids| + |rest| == |at|
      invariant forall id :: id in ids <==> id in at && id !in rest
      invariant forall i, j :: 0 <= i < j < |ids| ==> ids[i] != ids[j] && at[ids[i]] <= at[ids[j]]
      invariant forall i, id :: 0 <= i < |ids| && id in rest ==> at[ids[i]] <= at[id]
      decreases |rest|
    {
      var next := Earliest(at, rest);
      ids := ids + [next];
      rest := rest - {next};
    }
  }

  function ReclaimOne(f: Forward, endpoint: Uuid, stuckSeconds: nat, now: Time): Forward {
    var r := ReclaimRow(f, endpoint, stuckSeconds, now);
    if r.Some? then r.value else f
  }

  class ForwardTable {
    var rows: map<Uuid, Forward>

    ghost predicate Valid()
      reads this
    {
      forall id :: id in rows ==> rows[id].id == id
    }

    constructor ()
      ensures Valid() && rows == map[]
    {
      rows := map[];
    }

    /** `save`: inserting a primary key twice raises. */
    method Save(f: Forward) returns (ok: bool)
      requires Valid()
      modifies this
      ensures Valid()
      ensures ok <==> f.id !in old(rows)
      ensures rows == if ok then old(rows)[f.id := f] else old(rows)
    {
      ok := f.id !in rows;
      if ok {
        rows := rows[f.id := f];
      }
    }

    method ClaimForAttempt(id: Uuid, now: Time) returns (claimed: Option<Forward>)
      requires Valid()
      modifies this
      ensures Valid()
      ensures claimed == if id in old(rows) then ClaimRow(old(rows)[id], now) else None
      ensures rows == if claimed.Some? then old(rows)[id := claimed.value] else old(rows)
    {
      if id !in rows || rows[id].status !in {Pending, Failed} {
        return None;
      }
      var row := rows[id];
      row := row.(status := InFlight);
      row := row.(attemptCount := row.attemptCount + 1);
      row := row.(lastAttemptAt := Some(now), forwardStartedAt := Some(now));
      rows := rows[id := row];
      return Some(row);
    }

    method RecordOutcome(id: Uuid, v: Verdict, now: Time)
      requires Valid()
      modifies this
      ensures Valid()
      ensures rows == if id in old(rows) then old(rows)[id := RecordRow(old(rows)[id], v, now)] else old(rows)
    {
      var completedAt := if v.next in {Succeeded, Dead} then Some(now) else None;
      if id in rows {
        rows := rows[id := rows[id].(status := v.next, finalStatusCode := v.code, finalError := v.error,
                                     nextAttemptAt := v.nextAttemptAt, forwardCompletedAt := completedAt)];
      }
    }

    method ClaimForManualRetry(id: Uuid, endpoint: Uuid, now: Time) returns (retried: Option<Forward>)
      requires Valid()
      modifies this
      ensures Valid()
      ensures retried == if id in old(rows) then RetryRow(old(rows)[id], endpoint, now) else None
      ensures rows == if retried.Some? then old(rows)[id := retried.value] else old(rows)
    {
      if id !in rows || rows[id].endpointId != endpoint || rows[id].status !in {Failed, Dead, Abandoned} {
        return None;
      }
      var row := rows[id];
      if row.status == Dead || row.status == Abandoned {
        row := row.(attemptCount := MAX_ATTEMPTS - 1);
      }
      row := row.(status := Pending, manualRetryAt := Some(now), nextAttemptAt := Some(now));
      row := row.(finalError := None, finalStatusCode := None, forwardCompletedAt := None);
      rows := rows[id := row];
      return Some(row);
    }

    method Abandon(id: Uuid, endpoint: Uuid, now: Time) returns (abandoned: Option<Forward>)
      requires Valid()
      modifies this
      ensures Valid()
      ensures abandoned == if id in old(rows) then AbandonRow(old(rows)[id], endpoint, now) else None
      ensures rows == if abandoned.Some? then old(rows)[id := abandoned.value] else old(rows)
    {
      if id !in rows || rows[id].endpointId != endpoint || rows[id].status in {Succeeded, Dead, Status.Abandoned} {
        return None;
      }
      var row := rows[id];
      row := row.(status := Status.Abandoned, forwardCompletedAt := Some(now));
      row := row.(finalError := Some(ABANDONED_BY_OWNER));
      rows := rows[id := row];
      return Some(row);
    }

    method ReclaimStuckInFlight(endpoint: Uuid, stuckSeconds: nat, now: Time) returns (reclaimed: set<Uuid>)
      requires Valid()
      modifies this
      ensures Valid()
      ensures reclaimed == set id | id in old(rows) && StuckInFlight(old(rows)[id], endpoint, stuckSeconds, now)
      ensures rows == map id | id in old(rows) :: ReclaimOne(old(rows)[id], endpoint, stuckSeconds, now)
    {
      reclaimed := set id | id in rows && StuckInFlight(rows[id], endpoint, stuckSeconds, now);
      rows := map id | id in rows ::
        if id in reclaimed then rows[id].(status := Failed, nextAttemptAt := Some(now)) else rows[id];
    }

    method ListOverdueFailed(endpoint: Uuid, now: Time) returns (ids: seq<Uuid>)
      ensures EarliestFirst(ids, map id | id in rows && OverdueFailed(rows[id], endpoint, now) :: rows[id].nextAttemptAt.value)
      ensures |ids| == |set id | id in rows && OverdueFailed(rows[id], endpoint, now)|
    {
      var at := map id | id in rows && OverdueFailed(rows[id], endpoint, now) :: rows[id].nextAttemptAt.value;
      assert at.Keys == set id | id in rows && OverdueFailed(rows[id], endpoint, now);
      ids := OrderByTime(at);
    }

    method RedriveStuckPending(endpoint: Uuid, stuckSeconds: nat, now: Time) returns (ids: seq<Uuid>)
      ensures EarliestFirst(ids, map id | id in rows && StuckPending(rows[id], endpoint, stuckSeconds, now) :: rows[id].createdAt)
      ensures |ids| == |set id | id in rows && StuckPending(rows[id], endpoint, stuckSeconds, now)|
    {
      var at := map id | id in rows && StuckPending(rows[id], endpoint, stuckSeconds, now) :: rows[id].createdAt;
      assert at.Keys == set id | id in rows && StuckPending(rows[id], endpoint, stuckSeconds, now);
      ids := OrderByTime(at);
    }

    /** `list_by_endpoint`: an empty status filter filters nothing. The page names its
        rows by their sort keys. */
    method ListByEndpoint(endpoint: Uuid, statuses: set<Status>, limit: nat, before: Option<Uuid>) returns (page: seq<Key>)
      ensures var all := set id | id in rows :: Key(rows[id].createdAt, id);
              var eligible := set id | id in rows && rows[id].endpointId == endpoint
                                       && (statuses == {} || rows[id].status in statuses) :: Key(rows[id].createdAt, id);
              IsPage(page, PastCursor(all, eligible, before), limit)
      ensures NewestFirst(page)
    {
      var all := set id | id in rows :: Key(rows[id].createdAt, id);
      var eligible := set id | id in rows && rows[id].endpointId == endpoint
                               && (statuses == {} || rows[id].status in statuses) :: Key(rows[id].createdAt, id);
      page := ListPage(all, eligible, before, limit);
    }
  }
}
