/** The SQL job store (infrastructure/job_repository.py). Every transaction is a function from one
    database value to the next; the class performs the same transactions on its own tables. */
module JobRepository {
  import opened Wrappers
  import opened JobModels

  datatype Db = Db(jobs: map<Id, Job>, outbox: map<Id, Outbox>, keys: map<Id, Idempotency>)

  datatype ClaimResult =
    | Missing
    | Terminal(done: Job)
    | Busy
    | Claimed(job: Job, token: Id)
    | Raised(error: JobError)

  // ---- create_with_outbox: a lookup, an insert, and a second look after a failed insert ----

  function ResolveExisting(db: Db, existing: Idempotency, idempotency: Idempotency): Result<Job, JobError> {
    if existing.payloadHash != idempotency.payloadHash then Failure(IdempotencyConflict)
    else if existing.jobId !in db.jobs then Failure(IdempotencyOrphan)
    else Success(db.jobs[existing.jobId])
  }

  /** The first read of the creating transaction: None when the key is not taken yet. */
  function FindExisting(db: Db, idempotency: Idempotency): Option<Result<Job, JobError>> {
    if idempotency.keyHash in db.keys then
      Some(ResolveExisting(db, db.keys[idempotency.keyHash], idempotency))
    else None
  }

  /** The primary keys, unique columns and foreign keys that an insert of the three rows must meet. */
  ghost predicate InsertAllowed(db: Db, job: Job, outbox: Outbox, idempotency: Idempotency) {
    && job.jobId !in db.jobs
    && outbox.eventId !in db.outbox
    && outbox.jobId == job.jobId
    && (forall e :: e in db.outbox ==>
          !(db.outbox[e].jobId == outbox.jobId && db.outbox[e].topic == outbox.topic &&
            db.outbox[e].eventVersion == outbox.eventVersion))
    && idempotency.keyHash !in db.keys
    && idempotency.jobId == job.jobId
    && (forall k :: k in db.keys ==> db.keys[k].jobId != idempotency.jobId)
  }

  function Inserted(db: Db, job: Job, outbox: Outbox, idempotency: Idempotency): Db {
    Db(db.jobs[job.jobId := job],
       db.outbox[outbox.eventId := outbox],
       db.keys[idempotency.keyHash := idempotency])
  }

  /** The read that follows an integrity error; a key that is still absent re-raises it. */
  function ReadAfterRace(db: Db, idempotency: Idempotency): Result<Job, JobError> {
    match FindExisting(db, idempotency)
    case None => Failure(IntegrityError)
    case Some(result) => result
  }

  // ---- the worker's two transactions ----

  function ClaimForWork(db: Db, jobId: Id, now: Time, leaseDuration: int, token: Id): (Db, ClaimResult) {
    if jobId !in db.jobs then (db, Missing)
    else
      var job := db.jobs[jobId];
      if job.status.IsTerminal() then (db, Terminal(job))
      else if job.status == Accepted then (db, Busy)
      else if job.status == Running && job.leaseExpiresAt.Some? && job.leaseExpiresAt.value > now then (db, Busy)
      else
        match Claim(job, now, leaseDuration, token)
        case Failure(error) => (db, Raised(error))
        case Success(claimed) => (db.(jobs := db.jobs[jobId := claimed]), Claimed(claimed, token))
  }

  function Finish(db: Db, jobId: Id, target: JobStatus, now: Time, token: Id, failureCode: Option<Code>)
    : (Db, Result<Job, JobError>)
  {
    if jobId !in db.jobs then (db, Failure(JobMissing))
    else
      match FinishClaim(db.jobs[jobId], target, now, token, failureCode)
      case Failure(error) => (db, Failure(error))
      case Success(finished) => (db.(jobs := db.jobs[jobId := finished]), Success(finished))
  }

  // ---- the dispatcher's transaction ----

  /** `mark_published`; a raise rolls the whole transaction back. */
  function MarkPublished(db: Db, eventId: Id, now: Time): (Db, Result<bool, JobError>) {
    if eventId !in db.outbox || db.outbox[eventId].publishedAt.Some? then (db, Success(false))
    else
      var event := db.outbox[eventId];
      if event.jobId !in db.jobs then (db, Failure(OutboxOrphan))
      else
        var outbox := db.outbox[eventId := event.(publishedAt := Some(now))];
        var job := db.jobs[event.jobId];
        if job.status == Accepted then
          match Transition(job, Queued, now, None)
          case Failure(error) => (db, Failure(error))
          case Success(queued) =>
            (db.(outbox := outbox, jobs := db.jobs[event.jobId := queued]), Success(true))
        else (db.(outbox := outbox), Success(true))
  }

  /** An accepted record becomes queued, with its payload; any other record stays as it is. */
  predicate IsQueued(before: Job, after: Job, now: Time) {
    after == if before.status == Accepted
             then before.(status := Queued, updatedAt := now, failureCode := None, leaseToken := None,
                          leaseExpiresAt := None, version := before.version + 1)
             else before
  }

  // ---- listing ----

  predicate Unpublished(db: Db, e: Id) {
    e in db.outbox && db.outbox[e].publishedAt == None
  }

  predicate ListedBefore(a: Outbox, b: Outbox) {
    a.createdAt < b.createdAt || (a.createdAt == b.createdAt && a.eventId < b.eventId)
  }

  /** `batch` is what `list_unpublished(limit)` returns: the oldest unpublished rows in order, and
      fewer than `limit` of them only when there are no more. */
  ghost predicate IsListing(db: Db, limit: nat, batch: seq<Outbox>) {
    && |batch| <= limit
    && (forall i :: 0 <= i < |batch| ==> Unpublished(db, batch[i].eventId) && db.outbox[batch[i].eventId] == batch[i])
    && (forall i, j :: 0 <= i < j < |batch| ==> ListedBefore(batch[i], batch[j]))
    && (forall e :: Unpublished(db, e) && (forall i :: 0 <= i < |batch| ==> batch[i].eventId != e) ==>
          |batch| == limit && forall i :: 0 <= i < |batch| ==> ListedBefore(batch[i], db.outbox[e]))
  }

  // ---- deletions by the retention worker and by subject erasure, with their cascades ----

  function DeleteJobs(db: Db, ids: set<Id>): Db {
    Db(db.jobs - ids,
       map e | e in db.outbox && db.outbox[e].jobId !in ids :: db.outbox[e],
       map k | k in db.keys && db.keys[k].jobId !in ids :: db.keys[k])
  }

  function DeleteKeys(db: Db, keyHashes: set<Id>): Db {
    db.(keys := db.keys - keyHashes)
  }

  /** The repository object: three tables and the lease duration it hands out. */
  class SqlJobRepository {
    var jobs: map<Id, Job>
    var outbox: map<Id, Outbox>
    var keys: map<Id, Idempotency>
    const leaseDuration: int

    constructor (leaseDuration: int)
      ensures Tables() == Db(map[], map[], map[]) && this.leaseDuration == leaseDuration
    {
      this.leaseDuration := leaseDuration;
      jobs, outbox, keys := map[], map[], map[];
    }

    function Tables(): Db
      reads this
    {
      Db(jobs, outbox, keys)
    }

    /** One call without a racing creator: an existing key decides, otherwise all three rows appear
        together or none does. */
    method CreateWithOutbox(job: Job, event: Outbox, idempotency: Idempotency) returns (r: Result<Job, JobError>)
      modifies this
      ensures idempotency.keyHash in old(keys) ==>
                var existing := old(keys)[idempotency.keyHash];
                r == if existing.payloadHash != idempotency.payloadHash then Failure(IdempotencyConflict)
                     else if existing.jobId !in old(jobs) then Failure(IdempotencyOrphan)
                     else Success(old(jobs)[existing.jobId])
      ensures idempotency.keyHash !in old(keys) ==>
                (r.Failure? <==>
                  || job.jobId in old(jobs) || event.eventId in old(outbox)
                  || event.jobId != job.jobId || idempotency.jobId != job.jobId
                  || (exists e :: e in old(outbox) && old(outbox)[e].jobId == event.jobId
                        && old(outbox)[e].topic == event.topic && old(outbox)[e].eventVersion == event.eventVersion)
                  || (exists k :: k in old(keys) && old(keys)[k].jobId == idempotency.jobId))
      ensures idempotency.keyHash !in old(keys) && r.Failure? ==>
                r.error == IntegrityError && Tables() == old(Tables())
      ensures idempotency.keyHash !in old(keys) && r.Success? ==>
                && r.value == job && jobs == old(jobs)[job.jobId := job]
                && outbox == old(outbox)[event.eventId := event]
                && keys == old(keys)[idempotency.keyHash := idempotency]
      ensures FindExisting(old(Tables()), idempotency).Some? ==>
                r == FindExisting(old(Tables()), idempotency).value && Tables() == old(Tables())
      ensures FindExisting(old(Tables()), idempotency).None? ==>
                if InsertAllowed(old(Tables()), job, event, idempotency)
                then r == Success(job) && Tables() == Inserted(old(Tables()), job, event, idempotency)
                else r == Failure(IntegrityError) && Tables() == old(Tables())
    {
      if idempotency.keyHash in keys {
        var existing := keys[idempotency.keyHash];
        if existing.payloadHash != idempotency.payloadHash {
          return Failure(IdempotencyConflict);
        }
        if existing.jobId !in jobs {
          return Failure(IdempotencyOrphan);
        }
        return Success(jobs[existing.jobId]);
      }
      if job.jobId in jobs || event.eventId in outbox || event.jobId != job.jobId || idempotency.jobId != job.jobId
        || (exists e :: e in outbox && outbox[e].jobId == event.jobId && outbox[e].topic == event.topic &&
              outbox[e].eventVersion == event.eventVersion)
        || (exists k :: k in keys && keys[k].jobId == idempotency.jobId)
      {
        return Failure(IntegrityError);
      }
      jobs := jobs[job.jobId := job];
      outbox := outbox[event.eventId := event];
      keys := keys[idempotency.keyHash := idempotency];
      return Success(job);
    }

    method ClaimJob(jobId: Id, now: Time, token: Id) returns (r: ClaimResult)
      modifies this`jobs
      ensures (Tables(), r) == ClaimForWork(old(Tables()), jobId, now, leaseDuration, token)
    {
      if jobId !in jobs {
        return Missing;
      }
      var job := jobs[jobId];
      if job.status.IsTerminal() {
        return Terminal(job);
      }
      if job.status == Accepted {
        return Busy;
      }
      if job.status == Running && job.leaseExpiresAt.Some? && job.leaseExpiresAt.value > now {
        return Busy;
      }
      var claimed := Claim(job, now, leaseDuration, token);
      if claimed.Failure? {
        return Raised(claimed.error);
      }
      jobs := jobs[jobId := claimed.value];
      return Claimed(claimed.value, token);
    }

    method FinishJob(jobId: Id, target: JobStatus, now: Time, token: Id, failureCode: Option<Code>)
      returns (r: Result<Job, JobError>)
      modifies this`jobs
      ensures (Tables(), r) == Finish(old(Tables()), jobId, target, now, token, failureCode)
      ensures jobId !in old(jobs) ==> r == Failure(JobMissing)
      ensures jobId in old(jobs) ==>
                var job := old(jobs)[jobId];
                job.status != Running || job.leaseToken != Some(token) ==> r == Failure(LeaseLost)
      ensures jobs == if r.Success? then old(jobs)[jobId := r.value] else old(jobs)
    {
      if jobId !in jobs {
        return Failure(JobMissing);
      }
      r := FinishClaim(jobs[jobId], target, now, token, failureCode);
      if r.Success? {
        jobs := jobs[jobId := r.value];
      }
    }

    method Mark(eventId: Id, now: Time) returns (r: Result<bool, JobError>)
      modifies this`jobs, this`outbox
      ensures (Tables(), r) == MarkPublished(old(Tables()), eventId, now)
      ensures eventId !in old(outbox) || old(outbox)[eventId].publishedAt.Some? ==>
                r == Success(false) && Tables() == old(Tables())
      ensures eventId in old(outbox) && old(outbox)[eventId].publishedAt.None? ==>
                var id := old(outbox)[eventId].jobId;
                if id !in old(jobs) then r == Failure(OutboxOrphan) && Tables() == old(Tables())
                else
                  && r == Success(true)
                  && outbox == old(outbox)[eventId := old(outbox)[eventId].(publishedAt := Some(now))]
                  && IsQueued(old(jobs)[id], jobs[id], now) && jobs == old(jobs)[id := jobs[id]]
    {
      if eventId !in outbox || outbox[eventId].publishedAt.Some? {
        return Success(false);
      }
      var event := outbox[eventId];
      if event.jobId !in jobs {
        return Failure(OutboxOrphan);
      }
      var job := jobs[event.jobId];
      if job.status == Accepted {
        var queued := Transition(job, Queued, now, None);
        jobs := jobs[event.jobId := queued.value];
      }
      outbox := outbox[eventId := event.(publishedAt := Some(now))];
      return Success(true);
    }

    /** Repeatedly picks the oldest unpublished row that is not listed yet. */
    method ListUnpublished(limit: nat) returns (batch: seq<Outbox>)
      requires forall e :: e in outbox ==> outbox[e].eventId == e
      ensures IsListing(Tables(), limit, batch)
      ensures forall i, j :: 0 <= i < j < |batch| ==>
                || batch[i].createdAt < batch[j].createdAt
                || (batch[i].createdAt == batch[j].createdAt && batch[i].eventId < batch[j].eventId)
      ensures forall i, e :: 0 <= i < |batch| && e in outbox && outbox[e].publishedAt.None? && outbox[e] !in batch ==>
                |batch| == limit && batch[i].createdAt <= outbox[e].createdAt
    {
      batch := [];
      var rest := set e | e in outbox && outbox[e].publishedAt == None;
      while |batch| < limit && rest != {}
        invariant |batch| <= limit
        invariant forall i :: 0 <= i < |batch| ==>
          Unpublished(Tables(), batch[i].eventId) && outbox[batch[i].eventId] == batch[i]
        invariant forall i, j :: 0 <= i < j < |batch| ==> ListedBefore(batch[i], batch[j])
        invariant forall e :: e in rest ==> Unpublished(Tables(), e)
        invariant forall e :: Unpublished(Tables(), e) && (forall i :: 0 <= i < |batch| ==> batch[i].eventId != e) ==>
          e in rest
        invariant forall e, i :: e in rest && 0 <= i < |batch| ==> ListedBefore(batch[i], outbox[e])
        decreases rest
      {
        var oldest := Oldest(rest);
        ghost var before := batch;
        batch := batch + [outbox[oldest]];
        rest := rest - {oldest};
        forall e | Unpublished(Tables(), e) && (forall i :: 0 <= i < |batch| ==> batch[i].eventId != e)
          ensures e in rest
        {
          assert batch[|before|].eventId == oldest;
          assert forall i :: 0 <= i < |before| ==> before[i] == batch[i];
        }
      }
    }

    method Oldest(ids: set<Id>) returns (oldest: Id)
      requires ids != {}
      requires forall e :: e in ids ==> e in outbox && outbox[e].eventId == e
      ensures oldest in ids
      ensures forall e :: e in ids && e != oldest ==> ListedBefore(outbox[oldest], outbox[e])
    {
      oldest :| oldest in ids;
      var rest := ids - {oldest};
      while rest != {}
        invariant rest <= ids && oldest in ids && oldest !in rest
        invariant forall e :: e in ids - rest && e != oldest ==> ListedBefore(outbox[oldest], outbox[e])
        decreases rest
      {
        var e :| e in rest;
        rest := rest - {e};
        if ListedBefore(outbox[e], outbox[oldest]) {
          oldest := e;
        }
      }
    }
  }
}
