/** The control flow of `WorkerRuntime` between two awaits (workers/runtime.py): a program counter
    names the effect a worker is about to perform, and the functions below choose the next one. */
module WorkerSteps {
  import opened Wrappers
  import opened JobModels
  import opened JobRepository
  import opened RedisQueue

  const MISSING_CODE: Code := "IS_BULUNAMADI"
  const NO_HANDLER_CODE: Code := "ISLEYICI_BULUNAMADI"
  const UNEXPECTED_CODE: Code := "BEKLENMEYEN_ISCI_HATASI"

  /** How a handler ends; NoHandler means that none is registered for the job's kind. */
  datatype Outcome =
    | Completed
    | PermanentError(code: Code)
    | TransientError(code: Code)
    | UnexpectedError
    | NoHandler

  datatype WorkerPc =
    | Waiting
    | Claiming(d: Delivery)
    | Executing(d: Delivery, job: Job, token: Id)
    | Finishing(d: Delivery, job: Job, token: Id, target: JobStatus, code: Option<Code>)
    | Acking(d: Delivery)
    | Retrying(d: Delivery)
    | DeadLettering(d: Delivery, deadCode: Code)

  function AfterClaim(d: Delivery, r: ClaimResult): WorkerPc {
    match r
    case Terminal(_) => Acking(d)
    case Busy => Waiting
    case Missing => DeadLettering(d, MISSING_CODE)
    case Claimed(job, token) => Executing(d, job, token)
    case Raised(_) => Waiting
  }

  function AfterHandler(maxAttempts: nat, d: Delivery, job: Job, token: Id, outcome: Outcome): WorkerPc {
    match outcome
    case Completed => Finishing(d, job, token, Succeeded, None)
    case PermanentError(code) => Finishing(d, job, token, Failed, Some(code))
    case TransientError(code) => RetryOrFail(maxAttempts, d, job, token, code)
    case UnexpectedError => RetryOrFail(maxAttempts, d, job, token, UNEXPECTED_CODE)
    case NoHandler => Finishing(d, job, token, Failed, Some(NO_HANDLER_CODE))
  }

  function RetryOrFail(maxAttempts: nat, d: Delivery, job: Job, token: Id, code: Code): WorkerPc {
    Finishing(d, job, token, if job.attempt >= maxAttempts then Failed else RetryWait, Some(code))
  }

  /** A raise leaves `run_once`, so the delivery stays pending. */
  function AfterFinish(d: Delivery, target: JobStatus, code: Option<Code>, r: Result<Job, JobError>): WorkerPc {
    if r.Failure? then Waiting
    else if target == RetryWait then Retrying(d)
    else if target == Failed && code.Some? then DeadLettering(d, code.value)
    else Acking(d)
  }

  /** The queue effect of the last step of a run. */
  function Settled(s: Stream, pc: WorkerPc): Stream {
    match pc
    case Acking(d) => Acked(s, d)
    case Retrying(d) => Retried(s, d)
    case DeadLettering(d, code) => DeadLettered(s, d, code)
    case _ => s
  }
}
