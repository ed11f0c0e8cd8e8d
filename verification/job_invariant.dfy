/** What holds between any two steps of the job protocol. `Evolves` says what a step of any process
    guarantees to all the others, `ProcOk` what a process may rely on at each program counter. */
module JobInvariant {
  import opened Wrappers
  import opened JobModels
  import opened JobRepository
  import opened RedisQueue
  import opened WorkerSteps
  import opened JobProtocol

  /** Some entry for the job in the stream is not acknowledged. */
  ghost predicate Holds(s: Stream, id: Id) {
    exists i: nat :: Unacked(s, i) && s.entries[i].message.jobId == id
  }

  ghost predicate Done(db: Db, id: Id) {
    id in db.jobs ==> db.jobs[id].status.IsTerminal()
  }

  // ---- the guarantee of every step ----

  ghost predicate JobEvolves(used: set<Id>, j: Job, j': Job) {
    && SameIdentity(j, j')
    && (j' == j || Newer(j, j'))
    && (j.status.IsTerminal() ==> j' == j)
    && (j'.leaseToken.Some? ==> j' == j || j'.leaseToken.value !in used)
    && (j'.status == Accepted ==> j.status == Accepted)
    && (!j'.status.IsTerminal() ==> j'.payload == j.payload)
  }

  ghost predicate StreamEvolves(s: Stream, s': Stream) {
    && s.entries <= s'.entries
    && s.cursor <= s'.cursor
    && s.failed <= s'.failed
  }

  ghost predicate JobsEvolve(w: World, w': World) {
    && w.used <= w'.used
    && (forall id :: id in w.hist.eventOf ==> id in w'.hist.eventOf && w'.hist.eventOf[id] == w.hist.eventOf[id])
    && (forall id :: id in w'.db.jobs ==> id in w.db.jobs || id !in w.hist.eventOf)
    && (forall id :: id in w.db.jobs && id in w'.db.jobs ==> JobEvolves(w.used, w.db.jobs[id], w'.db.jobs[id]))
  }

  ghost predicate StreamsEvolve(w: World, w': World) {
    forall k :: StreamEvolves(StreamOf(w, k), StreamOf(w', k))
  }

  /** No step takes the last open entry away from a job that is still to be worked on. */
  ghost predicate CoverEvolves(w: World, w': World) {
    forall id, k :: id in w'.db.jobs && w'.db.jobs[id].kind == k && !Done(w'.db, id) && Holds(StreamOf(w, k), id) ==>
      Holds(StreamOf(w', k), id)
  }

  ghost predicate HistoryEvolves(w: World, w': World) {
    && w.hist.claims <= w'.hist.claims
    && w.hist.finishes <= w'.hist.finishes
    && w.hist.replies <= w'.hist.replies
    && w.hist.purgedKeys <= w'.hist.purgedKeys
  }

  ghost predicate Evolves(w: World, w': World) {
    JobsEvolve(w, w') && StreamsEvolve(w, w') && CoverEvolves(w, w') && HistoryEvolves(w, w')
  }

  // ---- what each process relies on ----

  ghost predicate RowOk(w: World, row: Outbox) {
    && row.jobId in w.hist.eventOf
    && w.hist.eventOf[row.jobId] == row.eventId
    && (row.jobId in w.db.jobs ==> w.db.jobs[row.jobId].kind == row.topic)
  }

  ghost predicate MessageOk(w: World, k: JobKind, m: Message) {
    && m.kind == k
    && m.jobId in w.hist.eventOf
    && (m.jobId in w.db.jobs ==> w.db.jobs[m.jobId].kind == k)
  }

  ghost predicate DeliveryOk(w: World, d: Delivery) {
    && MessageOk(w, d.stream, d.message)
    && d.id < |StreamOf(w, d.stream).entries|
    && StreamOf(w, d.stream).entries[d.id].message == d.message
  }

  /** The worker's copy is the stored record for as long as its token is the stored one. */
  ghost predicate SnapshotOk(w: World, d: Delivery, job: Job, token: Id) {
    && job.jobId == d.message.jobId
    && token in w.used
    && (job.jobId in w.db.jobs && w.db.jobs[job.jobId].leaseToken == Some(token) ==> w.db.jobs[job.jobId] == job)
  }

  ghost predicate PcOk(c: Config, w: World, pc: WorkerPc) {
    match pc
    case Waiting => true
    case Claiming(d) => DeliveryOk(w, d)
    case Executing(d, job, token) => DeliveryOk(w, d) && SnapshotOk(w, d, job, token)
    case Finishing(d, job, token, target, code) =>
      && DeliveryOk(w, d)
      && SnapshotOk(w, d, job, token)
      && (target == Succeeded || target == Failed || target == RetryWait)
      && (target == RetryWait ==> job.attempt < c.maxAttempts)
      && (target == Failed ==> code.Some?)
    case Acking(d) => DeliveryOk(w, d) && Done(w.db, d.message.jobId)
    case Retrying(d) => DeliveryOk(w, d)
    case DeadLettering(d, code) =>
      && DeliveryOk(w, d)
      && (d.message.jobId in w.db.jobs ==>
            w.db.jobs[d.message.jobId].status == Failed && w.db.jobs[d.message.jobId].failureCode == Some(code))
  }

  ghost predicate IsRequest(w: World, job: Job, event: Outbox, key: Idempotency) {
    && job == NewJob(job.jobId, job.kind, job.ownerHash, job.payload, job.payloadHash, job.createdAt)
    && event == Outbox(event.eventId, job.jobId, job.kind, 1, job.createdAt, None)
    && key == Idempotency(key.keyHash, job.payloadHash, job.jobId, job.createdAt)
    && job.jobId in w.used && event.eventId in w.used
  }

  ghost predicate ProcOk(c: Config, w: World, proc: Proc) {
    match proc
    case Resting => true
    case Creating(_, job, event, key) => IsRequest(w, job, event, key)
    case Publishing(batch) => batch != [] && forall i :: 0 <= i < |batch| ==> RowOk(w, batch[i])
    case Marking(batch) =>
      && batch != []
      && (forall i :: 0 <= i < |batch| ==> RowOk(w, batch[i]))
      && (Done(w.db, batch[0].jobId) || Holds(StreamOf(w, batch[0].topic), batch[0].jobId))
    case Working(pc) => PcOk(c, w, pc)
  }

  // ---- the stored state ----

  ghost predicate JobOk(w: World, id: Id)
    requires id in w.db.jobs
  {
    var job := w.db.jobs[id];
    && job.jobId == id
    && RecordOk(job)
    && id in w.hist.eventOf
    && w.hist.eventOf[id] in w.db.outbox
    && w.db.outbox[w.hist.eventOf[id]].jobId == id
    && (job.status == Accepted <==> w.db.outbox[w.hist.eventOf[id]].publishedAt == None)
  }

  ghost predicate RowStored(w: World, e: Id)
    requires e in w.db.outbox
  {
    var row := w.db.outbox[e];
    && row.eventId == e
    && row.jobId in w.db.jobs
    && row.jobId in w.hist.eventOf && w.hist.eventOf[row.jobId] == e
    && row.topic == w.db.jobs[row.jobId].kind
    && row.eventVersion == 1
  }

  ghost predicate KeyStored(db: Db, k: Id)
    requires k in db.keys
  {
    && db.keys[k].keyHash == k
    && db.keys[k].jobId in db.jobs
    && db.keys[k].payloadHash == db.jobs[db.keys[k].jobId].payloadHash
  }

  ghost predicate DbOk(w: World) {
    && (forall id :: id in w.db.jobs ==> JobOk(w, id))
    && (forall id :: id in w.hist.eventOf ==> id in w.used && w.hist.eventOf[id] in w.used)
    && (forall id, other :: id in w.hist.eventOf && other in w.hist.eventOf ==>
          w.hist.eventOf[id] == w.hist.eventOf[other] ==> id == other)
    && (forall e :: e in w.db.outbox ==> RowStored(w, e))
    && (forall k :: k in w.db.keys ==> KeyStored(w.db, k))
    && (forall k, l :: k in w.db.keys && l in w.db.keys && k != l ==> w.db.keys[k].jobId != w.db.keys[l].jobId)
  }

  ghost predicate StreamsOk(w: World) {
    forall k :: && StreamOk(StreamOf(w, k))
                && forall i :: 0 <= i < |StreamOf(w, k).entries| ==> MessageOk(w, k, StreamOf(w, k).entries[i].message)
  }

  /** No job is lost: a stored job that is neither terminal nor still waiting for its first
      publication has an open entry in the stream of its kind. */
  ghost predicate CoverOk(w: World) {
    forall id :: id in w.db.jobs && w.db.jobs[id].status != Accepted && !Done(w.db, id) ==>
      Holds(StreamOf(w, w.db.jobs[id].kind), id)
  }

  ghost predicate ProcsOk(c: Config, w: World) {
    forall p :: p in w.procs ==> ProcOk(c, w, w.procs[p])
  }

  /** Pending creations carry identifiers that no stored job and no other creation has. */
  ghost predicate CreatorsOk(w: World) {
    && (forall p :: p in w.procs && w.procs[p].Creating? && w.procs[p].phase != Racing ==>
          && w.procs[p].job.jobId !in w.hist.eventOf
          && forall id :: id in w.hist.eventOf ==> w.hist.eventOf[id] != w.procs[p].event.eventId)
    && (forall p, q :: p in w.procs && q in w.procs && p != q && w.procs[p].Creating? && w.procs[q].Creating? ==>
          && w.procs[p].job.jobId != w.procs[q].job.jobId
          && w.procs[p].event.eventId != w.procs[q].event.eventId)
  }

  ghost predicate SharedOk(w: World) {
    DbOk(w) && StreamsOk(w) && CoverOk(w)
  }

  ghost predicate CoreInv(c: Config, w: World) {
    SharedOk(w) && ProcsOk(c, w) && CreatorsOk(w)
  }

  // ---- stability: what a process relies on survives the steps of the others ----

  lemma {:induction false} PcStable(c: Config, w: World, w': World, pc: WorkerPc)
    requires DbOk(w) && JobsEvolve(w, w') && StreamsEvolve(w, w')
    requires PcOk(c, w, pc)
    ensures PcOk(c, w', pc)
  {
    if pc != Waiting {
      assert StreamEvolves(StreamOf(w, pc.d.stream), StreamOf(w', pc.d.stream));
    }
  }

  lemma {:induction false} ProcStable(c: Config, w: World, w': World, proc: Proc)
    requires DbOk(w) && Evolves(w, w')
    requires ProcOk(c, w, proc)
    ensures ProcOk(c, w', proc)
  {
    match proc
    case Working(pc) => PcStable(c, w, w', pc);
    case Marking(batch) =>
      assert forall i :: 0 <= i < |batch| ==> RowOk(w', batch[i]);
    case _ =>
  }

  lemma {:induction false} MessagesStable(w: World, w': World)
    requires DbOk(w) && JobsEvolve(w, w')
    ensures forall k, m :: MessageOk(w, k, m) ==> MessageOk(w', k, m)
  {}

  // ---- streams: what the queue operations do to open entries ----

  lemma {:induction false} PublishedHolds(s: Stream, m: Message)
    requires StreamOk(s)
    ensures StreamOk(Published(s, m)) && StreamEvolves(s, Published(s, m))
    ensures Holds(Published(s, m), m.jobId)
    ensures forall id :: Holds(s, id) ==> Holds(Published(s, m), id)
  {
    var s' := Published(s, m);
    assert Unacked(s', |s.entries|) && s'.entries[|s.entries|].message == m;
    forall id | Holds(s, id) ensures Holds(s', id) {
      var i: nat :| Unacked(s, i) && s.entries[i].message.jobId == id;
      assert Unacked(s', i) && s'.entries[i] == s.entries[i];
    }
  }

  lemma {:induction false} ConsumedHolds(k: JobKind, s: Stream, intake: Intake)
    requires StreamOk(s) && CanConsume(s, intake)
    ensures var (s', d) := Consumed(k, s, intake);
      && StreamOk(s') && StreamEvolves(s, s')
      && (forall id :: Holds(s, id) ==> Holds(s', id))
      && (d.Some? ==>
            d.value.stream == k && d.value.id < |s'.entries| && s'.entries[d.value.id].message == d.value.message)
  {
    var (s', d) := Consumed(k, s, intake);
    forall id | Holds(s, id) ensures Holds(s', id) {
      var i: nat :| Unacked(s, i) && s.entries[i].message.jobId == id;
      assert Unacked(s', i);
    }
  }

  /** Closing a delivery leaves every other job's open entries open; a retry re-opens its own job. */
  lemma {:induction false} SettledHolds(s: Stream, pc: WorkerPc)
    requires pc.Acking? || pc.Retrying? || pc.DeadLettering?
    requires StreamOk(s) && pc.d.id < |s.entries| && s.entries[pc.d.id].message == pc.d.message
    ensures StreamOk(Settled(s, pc)) && StreamEvolves(s, Settled(s, pc))
    ensures forall id :: Holds(s, id) && id != pc.d.message.jobId ==> Holds(Settled(s, pc), id)
    ensures pc.Retrying? ==> Holds(Settled(s, pc), pc.d.message.jobId)
  {
    var s' := Settled(s, pc);
    if pc.Retrying? {
      assert Unacked(s', |s.entries|) && s'.entries[|s.entries|].message == pc.d.message;
    }
    forall id | Holds(s, id) && id != pc.d.message.jobId ensures Holds(s', id) {
      var i: nat :| Unacked(s, i) && s.entries[i].message.jobId == id;
      assert Unacked(s', i) && s'.entries[i] == s.entries[i];
    }
  }
}
