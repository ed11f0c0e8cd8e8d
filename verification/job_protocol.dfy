/** The whole job system as a step relation: any number of creators, dispatchers, workers and purgers
    over one database and one stream per job kind. Each database transaction and each Redis call is
    one step, steps of different processes interleave freely, and a process may crash before any of
    them. Clocks are not synchronised: every step brings its own `now`. */
module JobProtocol {
  import opened Wrappers
  import opened JobModels
  import opened JobRepository
  import opened RedisQueue
  import opened WorkerSteps

  datatype Config = Config(leaseDuration: int, maxAttempts: nat)

  datatype Phase = LookingUp | Inserting | Racing

  /** What a process does next; a crash or the end of a run returns it to Resting. */
  datatype Proc =
    | Resting
    | Creating(phase: Phase, job: Job, event: Outbox, key: Idempotency)
    | Publishing(batch: seq<Outbox>)
    | Marking(batch: seq<Outbox>)
    | Working(pc: WorkerPc)

  datatype ClaimEvent = ClaimEvent(jobId: Id, token: Id, takeover: bool)
  datatype FinishEvent = FinishEvent(jobId: Id, token: Id, target: JobStatus, code: Option<Code>)
  datatype Reply = Reply(keyHash: Id, payloadHash: Id, outcome: Result<Id, JobError>)

  /** What has happened so far; no step reads it. `accepted` keeps every request under the identifier of
      its job, `eventOf` maps every job ever stored to its outbox event, `purgedKeys` holds the
      idempotency keys deleted so far. */
  datatype History = History(
    accepted: map<Id, Action>,
    eventOf: map<Id, Id>,
    claims: seq<ClaimEvent>,
    finishes: seq<FinishEvent>,
    replies: seq<Reply>,
    purgedKeys: set<Id>)

  datatype World = World(
    db: Db,
    streams: map<JobKind, Stream>,
    procs: map<Id, Proc>,
    used: set<Id>,      // identifiers drawn so far
    hist: History)

  datatype Action =
    | Accept(kind: JobKind, ownerHash: Id, payload: Payload, payloadHash: Id, keyHash: Id,
             now: Time, jobId: Id, eventId: Id)
    | LookUp
    | Insert
    | ReadBack
    | List(rows: seq<Outbox>)
    | Publish
    | Mark(markedAt: Time)
    | Consume(stream: JobKind, intake: Intake)
    | TryClaim(claimedAt: Time, token: Id)
    | Handle(outcome: Outcome)
    | TryFinish(finishedAt: Time)
    | Settle
    | Crash
    | PurgeJobs(ids: set<Id>)
    | PurgeKeys(keyHashes: set<Id>)
    | EraseOwner(owner: Id)

  function StreamOf(w: World, kind: JobKind): Stream {
    if kind in w.streams then w.streams[kind] else EMPTY_STREAM
  }

  function ProcOf(w: World, p: Id): Proc {
    if p in w.procs then w.procs[p] else Resting
  }

  function Goto(w: World, p: Id, proc: Proc): World {
    w.(procs := w.procs[p := proc])
  }

  function Init(): World {
    World(Db(map[], map[], map[]), map[], map[], {}, History(map[], map[], [], [], [], {}))
  }

  function AddReply(w: World, key: Idempotency, r: Result<Job, JobError>): World {
    var outcome := match r case Success(job) => Success(job.jobId) case Failure(error) => Failure(error);
    w.(hist := w.hist.(replies := w.hist.replies + [Reply(key.keyHash, key.payloadHash, outcome)]))
  }

  // ---- creators ----

  function DoAccept(w: World, p: Id, a: Action): Option<World>
    requires a.Accept?
  {
    if ProcOf(w, p) != Resting || a.jobId in w.used || a.eventId in w.used || a.jobId == a.eventId then None
    else
      var job := NewJob(a.jobId, a.kind, a.ownerHash, a.payload, a.payloadHash, a.now);
      var event := Outbox(a.eventId, a.jobId, a.kind, 1, a.now, None);
      var key := Idempotency(a.keyHash, a.payloadHash, a.jobId, a.now);
      Some(Goto(w, p, Creating(LookingUp, job, event, key)).(
        used := w.used + {a.jobId, a.eventId}, hist := w.hist.(accepted := w.hist.accepted[a.jobId := a])))
  }

  function DoLookUp(w: World, p: Id): Option<World> {
    match ProcOf(w, p)
    case Creating(LookingUp, job, event, key) =>
      (match FindExisting(w.db, key)
       case Some(r) => Some(Goto(AddReply(w, key, r), p, Resting))
       case None => Some(Goto(w, p, Creating(Inserting, job, event, key))))
    case _ => None
  }

  ghost function DoInsert(w: World, p: Id): Option<World> {
    match ProcOf(w, p)
    case Creating(Inserting, job, event, key) =>
      if InsertAllowed(w.db, job, event, key) then
        var w1 := Goto(AddReply(w, key, Success(job)), p, Resting);
        Some(w1.(db := Inserted(w.db, job, event, key),
                 hist := w1.hist.(eventOf := w.hist.eventOf[job.jobId := event.eventId])))
      else Some(Goto(w, p, Creating(Racing, job, event, key)))
    case _ => None
  }

  function DoReadBack(w: World, p: Id): Option<World> {
    match ProcOf(w, p)
    case Creating(Racing, job, event, key) =>
      Some(Goto(AddReply(w, key, ReadAfterRace(w.db, key)), p, Resting))
    case _ => None
  }

  // ---- dispatchers ----

  /** The loop head of the dispatcher: publish the next row or end the run. */
  function Dispatch(batch: seq<Outbox>): Proc {
    if batch == [] then Resting else Publishing(batch)
  }

  /** Any sequence of unpublished rows: whatever `list_unpublished` returns is one. */
  function DoList(w: World, p: Id, rows: seq<Outbox>): Option<World> {
    if ProcOf(w, p) == Resting &&
      forall i | 0 <= i < |rows| :: Unpublished(w.db, rows[i].eventId) && w.db.outbox[rows[i].eventId] == rows[i]
    then Some(Goto(w, p, Dispatch(rows)))
    else None
  }

  function MessageOf(row: Outbox): Message {
    Message(row.eventId, row.jobId, row.topic, row.eventVersion)
  }

  function DoPublish(w: World, p: Id): Option<World> {
    match ProcOf(w, p)
    case Publishing(batch) =>
      if batch == [] then None
      else
        var k := batch[0].topic;
        Some(Goto(w, p, Marking(batch)).(
          streams := w.streams[k := Published(StreamOf(w, k), MessageOf(batch[0]))]))
    case _ => None
  }

  function DoMark(w: World, p: Id, now: Time): Option<World> {
    match ProcOf(w, p)
    case Marking(batch) =>
      if batch == [] then None
      else
        var (db, r) := MarkPublished(w.db, batch[0].eventId, now);
        Some(Goto(w, p, if r.Failure? then Resting else Dispatch(batch[1..])).(db := db))
    case _ => None
  }

  // ---- workers ----

  function WorkerGoto(w: World, p: Id, pc: WorkerPc): World {
    Goto(w, p, if pc == Waiting then Resting else Working(pc))
  }

  function DoConsume(w: World, p: Id, k: JobKind, intake: Intake): Option<World> {
    if ProcOf(w, p) != Resting || !CanConsume(StreamOf(w, k), intake) then None
    else
      var (s, d) := Consumed(k, StreamOf(w, k), intake);
      Some(WorkerGoto(w, p, if d.Some? then Claiming(d.value) else Waiting).(streams := w.streams[k := s]))
  }

  function DoClaim(c: Config, w: World, p: Id, now: Time, token: Id): Option<World> {
    match ProcOf(w, p)
    case Working(Claiming(d)) =>
      if token in w.used then None
      else
        var id := d.message.jobId;
        var (db, r) := ClaimForWork(w.db, id, now, c.leaseDuration, token);
        var w1 := WorkerGoto(w, p, AfterClaim(d, r)).(db := db);
        var takeover := id in w.db.jobs && w.db.jobs[id].status == Running;
        Some(if r.Claimed? then
               w1.(used := w.used + {token},
                   hist := w.hist.(claims := w.hist.claims + [ClaimEvent(id, token, takeover)]))
             else w1)
    case _ => None
  }

  function DoHandle(c: Config, w: World, p: Id, outcome: Outcome): Option<World> {
    match ProcOf(w, p)
    case Working(Executing(d, job, token)) =>
      Some(WorkerGoto(w, p, AfterHandler(c.maxAttempts, d, job, token, outcome)))
    case _ => None
  }

  function DoFinish(w: World, p: Id, now: Time): Option<World> {
    match ProcOf(w, p)
    case Working(Finishing(d, job, token, target, code)) =>
      var (db, r) := Finish(w.db, job.jobId, target, now, token, code);
      var w1 := WorkerGoto(w, p, AfterFinish(d, target, code, r)).(db := db);
      Some(if r.Success? then
             w1.(hist := w.hist.(finishes := w.hist.finishes + [FinishEvent(job.jobId, token, target, code)]))
           else w1)
    case _ => None
  }

  function DoSettle(w: World, p: Id): Option<World> {
    match ProcOf(w, p)
    case Working(pc) =>
      if pc.Acking? || pc.Retrying? || pc.DeadLettering? then
        var k := pc.d.stream;
        Some(Goto(w, p, Resting).(streams := w.streams[k := Settled(StreamOf(w, k), pc)]))
      else None
    case _ => None
  }

  // ---- deletions ----

  function Deleted(w: World, db: Db): World {
    w.(db := db, hist := w.hist.(purgedKeys := w.hist.purgedKeys + (w.db.keys.Keys - db.keys.Keys)))
  }

  function DoPurgeJobs(w: World, ids: set<Id>): Option<World> {
    if forall id | id in ids :: id in w.db.jobs && w.db.jobs[id].completedAt.Some?
    then Some(Deleted(w, DeleteJobs(w.db, ids)))
    else None
  }

  function OwnedBy(db: Db, owner: Id): set<Id> {
    set id | id in db.jobs && db.jobs[id].ownerHash == owner
  }

  /** The step of process `p` under `a`, or None when it is not enabled. */
  ghost function Next(c: Config, w: World, p: Id, a: Action): Option<World> {
    match a
    case Accept(_, _, _, _, _, _, _, _) => DoAccept(w, p, a)
    case LookUp => DoLookUp(w, p)
    case Insert => DoInsert(w, p)
    case ReadBack => DoReadBack(w, p)
    case List(rows) => DoList(w, p, rows)
    case Publish => DoPublish(w, p)
    case Mark(now) => DoMark(w, p, now)
    case Consume(k, intake) => DoConsume(w, p, k, intake)
    case TryClaim(now, token) => DoClaim(c, w, p, now, token)
    case Handle(outcome) => DoHandle(c, w, p, outcome)
    case TryFinish(now) => DoFinish(w, p, now)
    case Settle => DoSettle(w, p)
    case Crash => Some(Goto(w, p, Resting))
    case PurgeJobs(ids) => DoPurgeJobs(w, ids)
    case PurgeKeys(keys) => Some(Deleted(w, DeleteKeys(w.db, keys)))
    case EraseOwner(owner) => Some(Deleted(w, DeleteJobs(w.db, OwnedBy(w.db, owner))))
  }

  datatype Step = Step(p: Id, a: Action)

  /** Runs a schedule; None as soon as one of its steps is not enabled. */
  ghost function Run(c: Config, w: World, schedule: seq<Step>): Option<World>
    decreases |schedule|
  {
    if schedule == [] then Some(w)
    else
      match Next(c, w, schedule[0].p, schedule[0].a)
      case None => None
      case Some(w') => Run(c, w', schedule[1..])
  }

  ghost predicate Reachable(c: Config, w: World) {
    exists schedule :: Run(c, Init(), schedule) == Some(w)
  }

  lemma {:induction false} RunConcat(c: Config, w: World, s: seq<Step>, t: seq<Step>)
    requires Run(c, w, s).Some?
    ensures Run(c, w, s + t) == Run(c, Run(c, w, s).value, t)
    decreases |s|
  {
    if s == [] {
      assert s + t == t;
    } else {
      assert (s + t)[0] == s[0] && (s + t)[1..] == s[1..] + t;
      RunConcat(c, Next(c, w, s[0].p, s[0].a).value, s[1..], t);
    }
  }
}
