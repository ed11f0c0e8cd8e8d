/** The frozen job records and their status machine (jobs/models.py). */
module JobModels {
  import opened Wrappers

  type Time = int
  type Id = nat          // ULIDs and SHA-256 digests, known only by equality
  type Code = string
  type Payload = map<string, string>

  datatype JobKind = Coach | Forecast | Receipt | ModelTraining | BillingVerification | Retention

  datatype JobStatus = Accepted | Queued | Running | RetryWait | Succeeded | Failed {
    predicate IsTerminal() {
      Succeeded? || Failed?
    }
  }

  datatype Job = Job(
    jobId: Id,
    kind: JobKind,
    status: JobStatus,
    ownerHash: Id,
    payload: Payload,
    payloadHash: Id,
    createdAt: Time,
    updatedAt: Time,
    startedAt: Option<Time>,
    completedAt: Option<Time>,
    failureCode: Option<Code>,
    leaseToken: Option<Id>,
    leaseExpiresAt: Option<Time>,
    attempt: nat,
    version: nat)

  datatype Outbox = Outbox(
    eventId: Id,
    jobId: Id,
    topic: JobKind,
    eventVersion: nat,
    createdAt: Time,
    publishedAt: Option<Time>)

  datatype Idempotency = Idempotency(keyHash: Id, payloadHash: Id, jobId: Id, createdAt: Time)

  /** The exceptions the job core raises. */
  datatype JobError =
    | InvalidTransition
    | InvalidLease
    | HeldElsewhere
    | NotClaimable
    | LeaseLost
    | JobMissing
    | OutboxOrphan
    | IdempotencyConflict
    | IdempotencyOrphan
    | IntegrityError

  function NewJob(jobId: Id, kind: JobKind, ownerHash: Id, payload: Payload, payloadHash: Id, now: Time): Job {
    Job(jobId, kind, Accepted, ownerHash, payload, payloadHash, now, now, None, None, None, None, None, 0, 0)
  }

  function Targets(status: JobStatus): set<JobStatus> {
    match status
    case Accepted => {Queued, Failed}
    case Queued => {Running, Failed}
    case Running => {Succeeded, Failed, RetryWait}
    case RetryWait => {Queued, Failed}
    case Succeeded => {}
    case Failed => {}
  }

  function Transition(job: Job, target: JobStatus, now: Time, failureCode: Option<Code>): Result<Job, JobError> {
    if target !in Targets(job.status) then
      Failure(InvalidTransition)
    else
      Success(job.(
        status := target,
        updatedAt := now,
        startedAt := if target == Running && job.startedAt == None then Some(now) else job.startedAt,
        completedAt := if target.IsTerminal() then Some(now) else job.completedAt,
        failureCode := failureCode,
        payload := if target.IsTerminal() then map[] else job.payload,
        leaseToken := if target != Running then None else job.leaseToken,
        leaseExpiresAt := if target != Running then None else job.leaseExpiresAt,
        attempt := if target == Running then job.attempt + 1 else job.attempt,
        version := job.version + 1))
  }

  /** `token` is the fresh identifier the source draws for the new lease. */
  function Claim(job: Job, now: Time, leaseDuration: int, token: Id): Result<Job, JobError> {
    if leaseDuration <= 0 then
      Failure(InvalidLease)
    else
      var queued :=
        if job.status == RetryWait then Transition(job, Queued, now, None) else Success(job);
      if queued.Failure? then queued
      else
        var current := queued.value;
        if current.status == Queued then
          var running := Transition(current, Running, now, None);
          if running.Failure? then running
          else Success(running.value.(leaseToken := Some(token), leaseExpiresAt := Some(now + leaseDuration)))
        else if current.status == Running then
          if current.leaseExpiresAt == None || current.leaseExpiresAt.value > now then
            Failure(HeldElsewhere)
          else
            Success(current.(
              updatedAt := now,
              failureCode := None,
              attempt := current.attempt + 1,
              version := current.version + 1,
              leaseToken := Some(token),
              leaseExpiresAt := Some(now + leaseDuration)))
        else
          Failure(NotClaimable)
  }

  function FinishClaim(job: Job, target: JobStatus, now: Time, token: Id, failureCode: Option<Code>)
    : Result<Job, JobError>
  {
    if job.status != Running || job.leaseToken != Some(token) then
      Failure(LeaseLost)
    else
      Transition(job, target, now, failureCode)
  }

  /** What every stored record satisfies: the lease fields are set exactly while it runs, the
      completion time exactly when it is terminal, a terminal record has lost its payload, and a
      record that runs has a start time. */
  ghost predicate RecordOk(job: Job) {
    && (job.status == Running <==> job.leaseToken.Some?)
    && (job.status == Running <==> job.leaseExpiresAt.Some?)
    && (job.status.IsTerminal() <==> job.completedAt.Some?)
    && (job.status.IsTerminal() ==> job.payload == map[])
    && (job.status == Accepted || job.status == Queued ==> job.attempt == 0)
    && (job.status == Running || job.status == RetryWait ==> job.attempt > 0)
    && (job.status == Running ==> job.startedAt.Some?)
  }

  /** A changed record has a larger version, has lost no attempt and keeps the time of its first start. */
  ghost predicate Newer(a: Job, b: Job) {
    a.version < b.version && a.attempt <= b.attempt && (a.startedAt.Some? ==> b.startedAt == a.startedAt)
  }

  /** Fields no transition touches. */
  ghost predicate SameIdentity(a: Job, b: Job) {
    a.jobId == b.jobId && a.kind == b.kind && a.ownerHash == b.ownerHash &&
    a.payloadHash == b.payloadHash && a.createdAt == b.createdAt
  }

  lemma {:induction false} NewJobIsOk(jobId: Id, kind: JobKind, ownerHash: Id, payload: Payload,
                                      payloadHash: Id, now: Time)
    ensures RecordOk(NewJob(jobId, kind, ownerHash, payload, payloadHash, now))
  {}

  /** An unfinished record can always fail; otherwise the status moves along one path, on which a retry goes back
      to the queue. A finished record never moves. */
  lemma {:induction false} TransitionsAllowed(job: Job, target: JobStatus, now: Time, code: Option<Code>)
    ensures Transition(job, target, now, code).Success? <==>
      && job.status != Succeeded && job.status != Failed
      && (|| target == Failed
          || (job.status == Accepted && target == Queued) || (job.status == Queued && target == Running)
          || (job.status == Running && (target == Succeeded || target == RetryWait))
          || (job.status == RetryWait && target == Queued))
    ensures var r := Transition(job, target, now, code); r.Failure? ==> r.error == InvalidTransition
  {}

  /** On a well-formed record a claim succeeds exactly when the lease duration is positive and the
      record is queued, waiting for a retry, or running with a lapsed lease; it then counts one
      more attempt and hands over a running record under the new token, with everything else kept. */
  lemma {:induction false} ClaimMeaning(job: Job, now: Time, leaseDuration: int, token: Id)
    requires RecordOk(job)
    ensures var r := Claim(job, now, leaseDuration, token);
      && (r.Success? <==>
            && leaseDuration > 0
            && (job.status == Queued || job.status == RetryWait ||
                (job.status == Running && job.leaseExpiresAt.value <= now)))
      && (r.Failure? ==>
            r.error == if leaseDuration <= 0 then InvalidLease
                       else if job.status == Running then HeldElsewhere else NotClaimable)
      && (r.Success? ==>
            && RecordOk(r.value)
            && SameIdentity(job, r.value) && Newer(job, r.value)
            && r.value.status == Running
            && r.value.leaseToken == Some(token)
            && r.value.leaseExpiresAt == Some(now + leaseDuration)
            && r.value.attempt == job.attempt + 1
            && r.value.payload == job.payload
            && r.value.updatedAt == now && r.value.failureCode == None && r.value.completedAt == None
            && r.value.startedAt == if job.startedAt.Some? then job.startedAt else Some(now))
  {}

  /** A finish succeeds exactly for the holder of the current lease and a target the running state
      allows, and gives the lease up. */
  lemma {:induction false} FinishMeaning(job: Job, target: JobStatus, now: Time, token: Id, failureCode: Option<Code>)
    requires RecordOk(job)
    ensures var r := FinishClaim(job, target, now, token, failureCode);
      && (r.Success? <==>
            && job.leaseToken == Some(token)
            && (target == Succeeded || target == Failed || target == RetryWait))
      && (r.Failure? ==> r.error == if job.leaseToken != Some(token) then LeaseLost else InvalidTransition)
      && (r.Success? ==>
            && RecordOk(r.value)
            && SameIdentity(job, r.value) && Newer(job, r.value)
            && r.value.status == target
            && r.value.failureCode == failureCode
            && r.value.attempt == job.attempt
            && r.value.startedAt == job.startedAt && r.value.updatedAt == now
            && r.value.completedAt == (if target == RetryWait then None else Some(now))
            && r.value.payload == if target == RetryWait then job.payload else map[])
  {}
}
