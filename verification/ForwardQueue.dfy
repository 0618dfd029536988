/** The job queue as forwards use it: a job is stored under an id made of the forward
    and its delay, and an id the queue already holds is not stored again. */
module ForwardQueue {
  import opened Text

  datatype Job = Job(forward: Uuid, deferSeconds: nat)

  const JOB_PREFIX := "forward:"

  /** `f"forward:{forward_id}:{defer_seconds}"`. */
  function JobId(job: Job): string {
    JOB_PREFIX + UuidText(job.forward) + ":" + Decimal(job.deferSeconds)
  }

  /** A job's id reads back: the forward between the colons, the delay after them. */
  lemma JobIdReads(job: Job)
    ensures var s := JobId(job);
            && |s| > 45 && s[..8] == "forward:" && ParseUuid(s[8..44]) == Some(job.forward)
            && s[44] == ':' && Reads(s[45..]) == job.deferSeconds
  {
    var s := JobId(job);
    assert s[8..44] == UuidText(job.forward) && s[45..] == Decimal(job.deferSeconds);
    ParseUuidText(job.forward);
    DecimalReads(job.deferSeconds);
  }

  /** Two jobs share an id exactly when they are for the same forward and delay. */
  lemma JobIdInjective(j: Job, k: Job)
    ensures JobId(j) == JobId(k) <==> j == k
  {
    if JobId(j) == JobId(k) {
      var s := JobId(j);
      var n := |JOB_PREFIX|;
      assert s[n..n + 36] == UuidText(j.forward) && s[n..n + 36] == UuidText(k.forward);
      assert s[n + 37..] == Decimal(j.deferSeconds) && s[n + 37..] == Decimal(k.deferSeconds);
      UuidTextInjective(j.forward, k.forward);
      DecimalInjective(j.deferSeconds, k.deferSeconds);
    }
  }

  /** Jobs stored under their ids. */
  ghost predicate ById(jobs: map<string, Job>) {
    forall id :: id in jobs ==> id == JobId(jobs[id])
  }

  ghost function JobsOf(jobs: map<string, Job>): set<Job> {
    set id | id in jobs :: jobs[id]
  }

  /** Looking up, storing and dropping an id is looking up, storing and dropping the job. */
  lemma StoredById(jobs: map<string, Job>, job: Job)
    requires ById(jobs)
    ensures JobId(job) in jobs <==> job in JobsOf(jobs)
    ensures JobsOf(jobs[JobId(job) := job]) == JobsOf(jobs) + {job}
    ensures JobsOf(jobs - {JobId(job)}) == JobsOf(jobs) - {job}
  {
    var id := JobId(job);
    forall k | k in jobs ensures jobs[k] == job <==> k == id {
      JobIdInjective(jobs[k], job);
    }
    var more, less := jobs[id := job], jobs - {id};
    forall j ensures j in JobsOf(more) <==> j in JobsOf(jobs) + {job} {
      assert id in more && more[id] == job;
      if j in JobsOf(jobs) {
        var k :| k in jobs && jobs[k] == j;
        assert k in more && more[k] == j;
      }
    }
    forall j | j in JobsOf(jobs) && j != job ensures j in JobsOf(less) {
      var k :| k in jobs && jobs[k] == j;
      assert k in less && less[k] == j;
    }
  }

  class ArqForwardQueue {
    /** Jobs not yet taken, and jobs that run or whose result is still stored. */
    var waiting: map<string, Job>
    var kept: map<string, Job>

    ghost predicate Valid()
      reads this
    {
      ById(waiting) && ById(kept)
    }

    ghost function Waiting(): set<Job>
      reads this
    {
      JobsOf(waiting)
    }

    ghost function Kept(): set<Job>
      reads this
    {
      JobsOf(kept)
    }

    constructor ()
      ensures Valid() && Waiting() == {} && Kept() == {}
    {
      waiting, kept := map[], map[];
    }

    /** `enqueue`: refused by id only when this very job waits or is remembered. */
    method Enqueue(forward: Uuid, deferSeconds: nat) returns (accepted: bool)
      requires Valid()
      modifies this
      ensures Valid() && Kept() == old(Kept())
      ensures accepted <==> Job(forward, deferSeconds) !in old(Waiting()) + old(Kept())
      ensures Waiting() == old(Waiting()) + if accepted then {Job(forward, deferSeconds)} else {}
    {
      var job := Job(forward, deferSeconds);
      StoredById(waiting, job);
      StoredById(kept, job);
      accepted := JobId(job) !in waiting && JobId(job) !in kept;
      if accepted {
        waiting := waiting[JobId(job) := job];
      }
    }

    /** arq hands a waiting job to a worker and remembers it. */
    method Fire(job: Job)
      requires Valid() && job in Waiting()
      modifies this
      ensures Valid() && Waiting() == old(Waiting()) - {job} && Kept() == old(Kept()) + {job}
    {
      StoredById(waiting, job);
      StoredById(kept, job);
      waiting, kept := waiting - {JobId(job)}, kept[JobId(job) := job];
    }

    /** The job's result expires, or the job is lost. */
    method Forget(job: Job)
      requires Valid()
      modifies this
      ensures Valid() && Waiting() == old(Waiting()) - {job} && Kept() == old(Kept()) - {job}
    {
      StoredById(waiting, job);
      StoredById(kept, job);
      waiting, kept := waiting - {JobId(job)}, kept - {JobId(job)};
    }
  }
}
