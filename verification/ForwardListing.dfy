/** Listing an endpoint's forwards page by page while the delivery system runs. */
module ForwardListing {
  import opened Text
  import opened Forwards
  import opened Paging
  import opened Runs

  /** What the list query selects: an endpoint's forwards in one of some statuses, an
      empty set of statuses filtering nothing. */
  datatype Query = Query(endpoint: Uuid, statuses: set<Status>)

  predicate Passes(q: Query, f: Forward) {
    f.endpointId == q.endpoint && (q.statuses == {} || f.status in q.statuses)
  }

  /** The keys a page query sees: the whole table and the rows that pass. */
  ghost function ViewOf(s: System, q: Query): View {
    View(set id | id in s.cells :: Key(s.cells[id].row.createdAt, id),
         set id | id in s.cells && Passes(q, s.cells[id].row) :: Key(s.cells[id].row.createdAt, id))
  }

  /** The states of a run at which the pages were fetched. */
  ghost predicate FetchTimes(at: seq<nat>, steps: seq<Step>) {
    forall i, j :: 0 <= i <= j < |at| ==> at[i] <= at[j] <= |steps|
  }

  ghost function ViewsOf(run: seq<System>, at: seq<nat>, q: Query): (views: seq<View>)
    requires forall i :: 0 <= i < |at| ==> at[i] < |run|
    ensures |views| == |at| && forall i :: 0 <= i < |at| ==> views[i] == ViewOf(run[at[i]], q)
  {
    seq(|at|, i requires 0 <= i < |at| => ViewOf(run[at[i]], q))
  }

  lemma ViewGrows(run: seq<System>, steps: seq<Step>, i: nat, j: nat, q: Query)
    requires IsRun(run, steps) && i <= j <= |steps|
    ensures ViewOf(run[i], q).all <= ViewOf(run[j], q).all
  {
    forall id | id in run[i].cells
      ensures id in run[j].cells && run[j].cells[id].row.createdAt == run[i].cells[id].row.createdAt
    {
      RunContinues(run, steps, i, j, id);
    }
  }

  lemma ViewsGrow(run: seq<System>, steps: seq<Step>, at: seq<nat>, q: Query)
    requires IsRun(run, steps) && FetchTimes(at, steps)
    ensures Growing(ViewsOf(run, at, q))
  {
    var views := ViewsOf(run, at, q);
    forall i, j | 0 <= i <= j < |views| ensures views[i].all <= views[j].all {
      ViewGrows(run, steps, at[i], at[j], q);
    }
  }

  /** Forward `id` passes the query in this state. */
  ghost predicate PassesIn(s: System, q: Query, id: Uuid) {
    id in s.cells && Passes(q, s.cells[id].row)
  }

  ghost predicate PassesAlways(run: seq<System>, at: seq<nat>, q: Query, id: Uuid)
    requires forall i :: 0 <= i < |at| ==> at[i] < |run|
  {
    forall i :: 0 <= i < |at| ==> PassesIn(run[at[i]], q, id)
  }

  ghost predicate PassesOnce(run: seq<System>, at: seq<nat>, q: Query, id: Uuid)
    requires forall i :: 0 <= i < |at| ==> at[i] < |run|
  {
    exists i :: 0 <= i < |at| && PassesIn(run[at[i]], q, id)
  }

  lemma KeyThroughout(run: seq<System>, steps: seq<Step>, at: seq<nat>, q: Query, id: Uuid)
    requires IsRun(run, steps) && at != [] && FetchTimes(at, steps) && PassesAlways(run, at, q, id)
    ensures id in run[at[0]].cells
    ensures Throughout(ViewsOf(run, at, q), {Key(run[at[0]].cells[id].row.createdAt, id)})
  {
    assert PassesIn(run[at[0]], q, id);
    forall i | 0 <= i < |at| ensures Key(run[at[0]].cells[id].row.createdAt, id) in ViewOf(run[at[i]], q).eligible {
      assert PassesIn(run[at[i]], q, id);
      RunContinues(run, steps, at[0], at[i], id);
    }
  }

  lemma ListedIdsDiffer(listed: seq<Key>, all: set<Key>)
    requires NewestFirst(listed) && UniqueIds(all) && forall k :: k in listed ==> k in all
    ensures forall i, j :: 0 <= i < j < |listed| ==> listed[i].id != listed[j].id
  {
    forall i, j | 0 <= i < j < |listed| ensures listed[i].id != listed[j].id {
      assert listed[i] in listed && listed[j] in listed;
    }
  }

  /** Whatever captures, workers, operators and redrives do between the page fetches, a
      completed walk lists no forward twice and none that never passed the filter. */
  lemma ForwardWalkSound(run: seq<System>, steps: seq<Step>, at: seq<nat>, pages: seq<seq<Key>>, q: Query, limit: nat)
    requires IsRun(run, steps) && at != [] && FetchTimes(at, steps) && limit >= 1
    requires IsWalk(ViewsOf(run, at, q), pages, limit)
    ensures NewestFirst(Flatten(pages))
    ensures forall i, j :: 0 <= i < j < |Flatten(pages)| ==> Flatten(pages)[i].id != Flatten(pages)[j].id
    ensures forall k :: k in Flatten(pages) ==> PassesOnce(run, at, q, k.id)
  {
    var views := ViewsOf(run, at, q);
    ViewsGrow(run, steps, at, q);
    WalkComplete(views, pages, limit, {});
    ListedIdsDiffer(Flatten(pages), views[|views| - 1].all);
    forall k | k in Flatten(pages) ensures PassesOnce(run, at, q, k.id) {
      assert Matched(views, |views|, k);
      var i :| 0 <= i < |views| && k in views[i].eligible;
      assert PassesIn(run[at[i]], q, k.id);
    }
  }

  /** And it lists every forward that passes the filter at each fetch. */
  lemma ForwardWalkComplete(run: seq<System>, steps: seq<Step>, at: seq<nat>, pages: seq<seq<Key>>, q: Query, limit: nat, id: Uuid)
    requires IsRun(run, steps) && at != [] && FetchTimes(at, steps) && limit >= 1
    requires IsWalk(ViewsOf(run, at, q), pages, limit) && PassesAlways(run, at, q, id)
    ensures id in run[at[0]].cells && Key(run[at[0]].cells[id].row.createdAt, id) in Flatten(pages)
  {
    ViewsGrow(run, steps, at, q);
    KeyThroughout(run, steps, at, q, id);
    WalkComplete(ViewsOf(run, at, q), pages, limit, {Key(run[at[0]].cells[id].row.createdAt, id)});
  }

  /** The views are what `list_by_endpoint` selects from on the stored table. */
  lemma ViewIsQuery(s: System, rows: map<Uuid, Forward>, q: Query)
    requires rows == map id | id in s.cells :: s.cells[id].row
    ensures ViewOf(s, q).all == set id | id in rows :: Key(rows[id].createdAt, id)
    ensures ViewOf(s, q).eligible == set id | id in rows && rows[id].endpointId == q.endpoint
                                              && (q.statuses == {} || rows[id].status in q.statuses) :: Key(rows[id].createdAt, id)
  {
    assert forall id :: id in s.cells <==> id in rows;
    forall k ensures k in ViewOf(s, q).all <==> k.id in rows && k == Key(rows[k.id].createdAt, k.id) {
      if k.id in s.cells && k == Key(s.cells[k.id].row.createdAt, k.id) {
        assert k in ViewOf(s, q).all;
      }
    }
    forall k ensures k in ViewOf(s, q).eligible <==> k.id in rows && Passes(q, rows[k.id]) && k == Key(rows[k.id].createdAt, k.id) {
      if k.id in s.cells && Passes(q, s.cells[k.id].row) && k == Key(s.cells[k.id].row.createdAt, k.id) {
        assert k in ViewOf(s, q).eligible;
      }
    }
  }

  /** Without a status filter these are all forwards the endpoint had at the first fetch. */
  lemma UnfilteredPasses(run: seq<System>, steps: seq<Step>, at: seq<nat>, q: Query, id: Uuid)
    requires IsRun(run, steps) && at != [] && FetchTimes(at, steps) && q.statuses == {}
    ensures PassesAlways(run, at, q, id) <==> id in run[at[0]].cells && run[at[0]].cells[id].row.endpointId == q.endpoint
  {
    if PassesIn(run[at[0]], q, id) {
      forall i | 0 <= i < |at| ensures PassesIn(run[at[i]], q, id) {
        RunContinues(run, steps, at[0], at[i], id);
      }
    }
  }
}
