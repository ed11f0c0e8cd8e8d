/** The worker's loop in its own form: `WorkerRuntime.run_once` (workers/runtime.py) is proved to
    perform, effect by effect, the steps its program counter takes in the protocol. */
module JobRuntime {
  import opened Wrappers
  import opened JobModels
  import opened JobRepository
  import opened RedisQueue
  import opened WorkerSteps
  import opened JobProtocol

  /** How a registered handler ends. */
  type Ending = o: Outcome | o != NoHandler witness Completed

  /** What one run draws from outside: clock readings, a fresh token, the registered handlers and the
      ending of the one that is called. */
  datatype Inputs = Inputs(claimedAt: Time, token: Id, handlers: set<JobKind>, ending: Ending, finishedAt: Time) {
    function OutcomeFor(kind: JobKind): Outcome {
      if kind in handlers then ending else NoHandler
    }
  }

  function Rank(proc: Proc): nat {
    if !proc.Working? || proc.pc.Waiting? then 0
    else if proc.pc.Claiming? then 4
    else if proc.pc.Executing? then 3
    else if proc.pc.Finishing? then 2
    else 1
  }

  predicate TokenReady(w: World, p: Id, inputs: Inputs) {
    ProcOf(w, p).Working? && ProcOf(w, p).pc.Claiming? ==> inputs.token !in w.used
  }

  /** The only protocol action, other than a crash, that process `p` can take next. */
  function NextAction(pc: WorkerPc, inputs: Inputs): Action {
    if pc.Claiming? then TryClaim(inputs.claimedAt, inputs.token)
    else if pc.Executing? then Handle(inputs.OutcomeFor(pc.job.kind))
    else if pc.Finishing? then TryFinish(inputs.finishedAt)
    else Settle
  }

  /** The protocol left to process `p` alone until its run is over. */
  ghost function Drive(c: Config, w: World, p: Id, inputs: Inputs): World
    requires TokenReady(w, p, inputs)
    decreases Rank(ProcOf(w, p))
  {
    if Rank(ProcOf(w, p)) == 0 then w
    else Drive(c, Next(c, w, p, NextAction(ProcOf(w, p).pc, inputs)).value, p, inputs)
  }

  /** So a run is a schedule of the protocol without a crash, and it brings the process to rest. */
  lemma {:induction false} DriveIsARun(c: Config, w: World, p: Id, inputs: Inputs) returns (schedule: seq<Step>)
    requires TokenReady(w, p, inputs)
    ensures Run(c, w, schedule) == Some(Drive(c, w, p, inputs))
    ensures Rank(ProcOf(Drive(c, w, p, inputs), p)) == 0
    ensures forall i :: 0 <= i < |schedule| ==> schedule[i].p == p && !schedule[i].a.Crash?
    decreases Rank(ProcOf(w, p))
  {
    if Rank(ProcOf(w, p)) == 0 {
      return [];
    }
    var a := NextAction(ProcOf(w, p).pc, inputs);
    var rest := DriveIsARun(c, Next(c, w, p, a).value, p, inputs);
    schedule := [Step(p, a)] + rest;
    assert schedule[1..] == rest;
  }

  datatype RuntimeError = TooFewAttempts

  ghost predicate WellStored(db: Db, id: Id) {
    id in db.jobs ==> db.jobs[id].jobId == id && RecordOk(db.jobs[id])
  }

  /** The job waits for a worker, or the lease of the last one has lapsed. */
  ghost predicate UpForWork(db: Db, id: Id, now: Time) {
    && id in db.jobs
    && var job := db.jobs[id];
       || job.status == Queued || job.status == RetryWait
       || (job.status == Running && job.leaseExpiresAt.Some? && job.leaseExpiresAt.value <= now)
  }

  /** A run is over when its finish was accepted; without the lease, or without the job, it raises. */
  function Answer(db: Db, job: Job, token: Id): Result<bool, JobError> {
    if job.jobId !in db.jobs then Failure(JobMissing)
    else if db.jobs[job.jobId].status != Running || db.jobs[job.jobId].leaseToken != Some(token)
    then Failure(LeaseLost)
    else Success(true)
  }

  class WorkerRuntime {
    const queue: RedisJobQueue
    const repository: SqlJobRepository
    const handlers: set<JobKind>
    const maxAttempts: nat

    constructor (queue: RedisJobQueue, repository: SqlJobRepository, handlers: set<JobKind>, maxAttempts: nat)
      requires maxAttempts >= 1
      ensures this.queue == queue && this.repository == repository
      ensures this.handlers == handlers && this.maxAttempts == maxAttempts
    {
      this.queue := queue;
      this.repository := repository;
      this.handlers := handlers;
      this.maxAttempts := maxAttempts;
    }

    static method Create(queue: RedisJobQueue, repository: SqlJobRepository, handlers: set<JobKind>, maxAttempts: int)
      returns (r: Result<WorkerRuntime, RuntimeError>)
      ensures r.Success? <==> maxAttempts >= 1
      ensures r.Success? ==> r.value.queue == queue && r.value.repository == repository
      ensures r.Success? ==> r.value.handlers == handlers && r.value.maxAttempts == maxAttempts
    {
      if maxAttempts < 1 {
        return Failure(TooFewAttempts);
      }
      var worker := new WorkerRuntime(queue, repository, handlers, maxAttempts);
      return Success(worker);
    }

    ghost function Settings(): Config {
      Config(repository.leaseDuration, maxAttempts)
    }

    /** `w` shows the tables and the stream as they are now. */
    ghost predicate Sees(w: World)
      reads queue, repository
    {
      w.db == repository.Tables() && StreamOf(w, queue.kind) == queue.State()
    }

    ghost predicate At(w: World, p: Id, pc: WorkerPc)
      reads queue, repository
    {
      Sees(w) && ProcOf(w, p) == Working(pc)
    }

    /** One undisturbed run of process `p` from protocol state `w`: it consumes, and if something
        arrived the tables and the stream end as the protocol says. */
    method RunOnce(idle: Option<nat>, inputs: Inputs, ghost w: World, ghost p: Id) returns (r: Result<bool, JobError>)
      requires idle.Some? ==> idle.value in queue.pending && idle.value < |queue.entries|
      requires inputs.handlers == handlers && inputs.token !in w.used
      requires Sees(w) && ProcOf(w, p) == Resting
      modifies queue, repository
      ensures var intake := if idle.Some? then Reclaim(idle.value)
                            else if old(queue.cursor) < |old(queue.entries)| then ReadNew else Nothing;
        && DoConsume(w, p, queue.kind, intake).Some?
        && Sees(Drive(Settings(), DoConsume(w, p, queue.kind, intake).value, p, inputs))
        && (intake == Nothing <==> r == Success(false))
        && ((forall id :: WellStored(w.db, id)) && repository.leaseDuration > 0 ==> r.Success?)
    {
      var delivery, intake := queue.Consume(idle);
      ghost var begun := DoConsume(w, p, queue.kind, intake).value;
      assert Sees(begun) && begun.used == w.used;
      if delivery == None {
        return Success(false);
      }
      ghost var id := delivery.value.message.jobId;
      r := Process(delivery.value, inputs, begun, p);
    }

    method Process(d: Delivery, inputs: Inputs, ghost w: World, ghost p: Id) returns (r: Result<bool, JobError>)
      requires At(w, p, Claiming(d)) && d.stream == queue.kind
      requires inputs.handlers == handlers && inputs.token !in w.used
      modifies queue, repository
      ensures Sees(Drive(Settings(), w, p, inputs))
      ensures r.Success? ==> r.value
      ensures WellStored(w.db, d.message.jobId) ==>
                r == if repository.leaseDuration <= 0 && UpForWork(w.db, d.message.jobId, inputs.claimedAt)
                     then Failure(InvalidLease) else Success(true)
    {
      var claim := repository.ClaimJob(d.message.jobId, inputs.claimedAt, inputs.token);
      ghost var claimed := DoClaim(Settings(), w, p, inputs.claimedAt, inputs.token).value;
      assert Sees(claimed) && Drive(Settings(), w, p, inputs) == Drive(Settings(), claimed, p, inputs);
      if claim.Terminal? {
        queue.Ack(d);
        Settles(claimed, p, Acking(d), inputs);
        return Success(true);
      }
      if claim.Busy? {
        queue.Release(d);
        return Success(true);
      }
      if claim.Missing? {
        queue.DeadLetter(d, MISSING_CODE);
        Settles(claimed, p, DeadLettering(d, MISSING_CODE), inputs);
        return Success(true);
      }
      if claim.Raised? {
        return Failure(claim.error);
      }
      r := Execute(d, claim.job, claim.token, inputs, claimed, p);
    }

    method Execute(d: Delivery, job: Job, token: Id, inputs: Inputs, ghost w: World, ghost p: Id)
      returns (r: Result<bool, JobError>)
      requires At(w, p, Executing(d, job, token)) && d.stream == queue.kind && inputs.handlers == handlers
      modifies queue, repository
      ensures Sees(Drive(Settings(), w, p, inputs))
      ensures r == Answer(w.db, job, token)
    {
      ghost var handled := DoHandle(Settings(), w, p, inputs.OutcomeFor(job.kind)).value;
      assert Sees(handled) && Drive(Settings(), w, p, inputs) == Drive(Settings(), handled, p, inputs);
      if job.kind !in handlers {
        r := FailPermanently(d, job, token, NO_HANDLER_CODE, inputs, handled, p);
        return;
      }
      match inputs.ending
      case PermanentError(code) =>
        r := FailPermanently(d, job, token, code, inputs, handled, p);
      case TransientError(code) =>
        r := RetryOrFailJob(d, job, token, code, inputs, handled, p);
      case UnexpectedError =>
        r := RetryOrFailJob(d, job, token, UNEXPECTED_CODE, inputs, handled, p);
      case Completed =>
        var finished := repository.FinishJob(job.jobId, Succeeded, inputs.finishedAt, token, None);
        ghost var done := FinishedWorld(handled, p, inputs);
        if finished.Failure? {
          return Failure(finished.error);
        }
        queue.Ack(d);
        Settles(done, p, Acking(d), inputs);
        r := Success(true);
    }

    method RetryOrFailJob(d: Delivery, job: Job, token: Id, code: Code, inputs: Inputs, ghost w: World, ghost p: Id)
      returns (r: Result<bool, JobError>)
      requires At(w, p, RetryOrFail(maxAttempts, d, job, token, code)) && d.stream == queue.kind
      modifies queue, repository
      ensures Sees(Drive(Settings(), w, p, inputs))
      ensures r == Answer(w.db, job, token)
    {
      if job.attempt >= maxAttempts {
        r := FailPermanently(d, job, token, code, inputs, w, p);
        return;
      }
      var finished := repository.FinishJob(job.jobId, RetryWait, inputs.finishedAt, token, Some(code));
      ghost var done := FinishedWorld(w, p, inputs);
      if finished.Failure? {
        return Failure(finished.error);
      }
      queue.Retry(d);
      Settles(done, p, Retrying(d), inputs);
      r := Success(true);
    }

    method FailPermanently(d: Delivery, job: Job, token: Id, code: Code, inputs: Inputs, ghost w: World, ghost p: Id)
      returns (r: Result<bool, JobError>)
      requires At(w, p, Finishing(d, job, token, Failed, Some(code))) && d.stream == queue.kind
      modifies queue, repository
      ensures Sees(Drive(Settings(), w, p, inputs))
      ensures r == Answer(w.db, job, token)
    {
      var finished := repository.FinishJob(job.jobId, Failed, inputs.finishedAt, token, Some(code));
      ghost var done := FinishedWorld(w, p, inputs);
      if finished.Failure? {
        return Failure(finished.error);
      }
      queue.DeadLetter(d, code);
      Settles(done, p, DeadLettering(d, code), inputs);
      r := Success(true);
    }

    /** The protocol state after the finish of process `p`. */
    ghost function FinishedWorld(w: World, p: Id, inputs: Inputs): (done: World)
      requires ProcOf(w, p).Working? && ProcOf(w, p).pc.Finishing?
      ensures Next(Settings(), w, p, TryFinish(inputs.finishedAt)) == Some(done)
      ensures Drive(Settings(), w, p, inputs) == Drive(Settings(), done, p, inputs)
    {
      DoFinish(w, p, inputs.finishedAt).value
    }

    /** The last queue effect of a run is the protocol's Settle step. */
    lemma {:induction false} Settles(w: World, p: Id, pc: WorkerPc, inputs: Inputs)
      requires ProcOf(w, p) == Working(pc) && (pc.Acking? || pc.Retrying? || pc.DeadLettering?)
      requires pc.d.stream == queue.kind
      ensures var w' := Drive(Settings(), w, p, inputs);
        w'.db == w.db && StreamOf(w', queue.kind) == Settled(StreamOf(w, queue.kind), pc)
    {
      assert Drive(Settings(), w, p, inputs) == Drive(Settings(), DoSettle(w, p).value, p, inputs);
    }
  }
}
