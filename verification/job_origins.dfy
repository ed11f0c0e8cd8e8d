/** Whatever is stored was asked for: records, outbox rows, keys and the copies that workers hold go back to an
    accepted request, whose payload they carry until the job is finished. */
module JobOrigins {
  import opened JobModels
  import opened JobRepository
  import opened WorkerSteps
  import opened JobProtocol
  import opened JobInvariant
  import opened JobSteps

  ghost predicate AsksFor(a: Action, job: Job) {
    && a.Accept? && job.jobId == a.jobId && job.kind == a.kind && job.ownerHash == a.ownerHash
    && job.payloadHash == a.payloadHash && job.createdAt == a.now
    && (!job.status.IsTerminal() ==> job.payload == a.payload)
  }

  ghost predicate AsksForRow(a: Action, row: Outbox) {
    && a.Accept? && row.jobId == a.jobId && row.eventId == a.eventId && row.topic == a.kind && row.eventVersion == 1
    && row.createdAt == a.now
  }

  ghost predicate AsksForKey(a: Action, key: Idempotency) {
    && a.Accept? && key.jobId == a.jobId && key.keyHash == a.keyHash && key.payloadHash == a.payloadHash
    && key.createdAt == a.now
  }

  ghost predicate JobAsked(w: World, job: Job) {
    job.jobId in w.hist.accepted && AsksFor(w.hist.accepted[job.jobId], job)
  }

  ghost predicate RowAsked(w: World, row: Outbox) {
    row.jobId in w.hist.accepted && AsksForRow(w.hist.accepted[row.jobId], row)
  }

  ghost predicate KeyAsked(w: World, key: Idempotency) {
    key.jobId in w.hist.accepted && AsksForKey(w.hist.accepted[key.jobId], key)
  }

  ghost predicate ProcAsked(w: World, proc: Proc) {
    match proc
    case Creating(_, job, event, key) =>
      JobAsked(w, job) && RowAsked(w, event) && KeyAsked(w, key) && job.status == Accepted
    case Working(Executing(_, job, _)) => JobAsked(w, job) && job.status == Running
    case Working(Finishing(_, job, _, _, _)) => JobAsked(w, job) && job.status == Running
    case _ => true
  }

  ghost predicate OriginInv(w: World) {
    && (forall id :: id in w.hist.accepted ==> id in w.used)
    && (forall id :: id in w.db.jobs ==> w.db.jobs[id].jobId == id && JobAsked(w, w.db.jobs[id]))
    && (forall e :: e in w.db.outbox ==> RowAsked(w, w.db.outbox[e]))
    && (forall k :: k in w.db.keys ==> KeyAsked(w, w.db.keys[k]))
    && (forall p :: p in w.procs ==> ProcAsked(w, w.procs[p]))
  }

  /** Nothing appears that was not there: rows may only be stamped, records only move forward. */
  ghost predicate OnlyKeeps(w: World, w': World) {
    && w'.hist.accepted == w.hist.accepted && w.used <= w'.used
    && w'.db.jobs.Keys <= w.db.jobs.Keys
    && (forall e :: e in w'.db.outbox ==>
          e in w.db.outbox && w'.db.outbox[e] == w.db.outbox[e].(publishedAt := w'.db.outbox[e].publishedAt))
    && (forall k :: k in w'.db.keys ==> k in w.db.keys && w'.db.keys[k] == w.db.keys[k])
  }

  lemma {:induction false} OthersOnlyKeep(c: Config, w: World, p: Id, a: Action)
    requires Next(c, w, p, a).Some? && !a.Accept? && !a.Insert?
    ensures OnlyKeeps(w, Next(c, w, p, a).value)
  {
    hide Claim, FinishClaim, Transition, Settled, InsertAllowed, MarkPublished;
    if a.Mark? {
      MarkOnlyKeeps(w, p, a.markedAt);
    }
  }

  lemma {:induction false} MarkOnlyKeeps(w: World, p: Id, now: Time)
    requires DoMark(w, p, now).Some?
    ensures OnlyKeeps(w, DoMark(w, p, now).value)
  {}

  lemma {:induction false} StoredRecord(w: World, id: Id)
    requires DbOk(w) && id in w.db.jobs
    ensures w.db.jobs[id].jobId == id && RecordOk(w.db.jobs[id])
  {
    assert JobOk(w, id);
  }

  /** The worker's copy is the record it has just claimed. */
  lemma {:induction false} ClaimOrigin(c: Config, w: World, p: Id, now: Time, token: Id)
    requires DbOk(w) && OriginInv(w) && DoClaim(c, w, p, now, token).Some?
    ensures ProcAsked(DoClaim(c, w, p, now, token).value, ProcOf(DoClaim(c, w, p, now, token).value, p))
  {
    hide DbOk, Claim;
    var id := w.procs[p].pc.d.message.jobId;
    if id in w.db.jobs {
      StoredRecord(w, id);
      assert JobAsked(w, w.db.jobs[id]);
      ClaimMeaning(w.db.jobs[id], now, c.leaseDuration, token);
    }
  }

  lemma {:induction false} OwnOrigin(c: Config, w: World, p: Id, a: Action)
    requires OriginInv(w) && Next(c, w, p, a).Some? && !a.TryClaim?
    ensures ProcAsked(Next(c, w, p, a).value, ProcOf(Next(c, w, p, a).value, p))
  {
    hide InsertAllowed, MarkPublished, Finish, Settled, FindExisting, DeleteJobs, DeleteKeys;
    assert p in w.procs ==> ProcAsked(w, w.procs[p]);
  }

  lemma {:induction false} KeptOrigins(w: World, w': World, p: Id)
    requires OriginInv(w) && OnlyKeeps(w, w') && JobsEvolve(w, w')
    requires ProcAsked(w', ProcOf(w', p))
    requires forall q :: q in w'.procs && q != p ==> q in w.procs && w'.procs[q] == w.procs[q]
    ensures OriginInv(w')
  {
    forall id | id in w'.db.jobs ensures w'.db.jobs[id].jobId == id && JobAsked(w', w'.db.jobs[id]) {
      assert JobAsked(w, w.db.jobs[id]) && JobEvolves(w.used, w.db.jobs[id], w'.db.jobs[id]);
    }
    forall q | q in w'.procs ensures ProcAsked(w', w'.procs[q]) {
      assert q != p ==> ProcAsked(w, w.procs[q]);
    }
  }

  lemma {:induction false} AcceptOrigins(c: Config, w: World, p: Id, a: Action)
    requires OriginInv(w) && a.Accept? && Next(c, w, p, a).Some?
    ensures OriginInv(Next(c, w, p, a).value)
  {
    var w' := Next(c, w, p, a).value;
    OwnOrigin(c, w, p, a);
    assert a.jobId !in w.hist.accepted;
    forall q | q in w'.procs && q != p ensures ProcAsked(w', w'.procs[q]) {
      assert ProcAsked(w, w.procs[q]);
    }
  }

  lemma {:induction false} InsertOrigins(w: World, p: Id)
    requires OriginInv(w) && DoInsert(w, p).Some?
    ensures OriginInv(DoInsert(w, p).value)
  {
    hide InsertAllowed;
    var w' := DoInsert(w, p).value;
    assert ProcAsked(w, w.procs[p]);
    forall q | q in w'.procs ensures ProcAsked(w', w'.procs[q]) {
      assert q != p ==> ProcAsked(w, w.procs[q]);
    }
  }

  lemma {:induction false} StepKeepsOrigins(c: Config, w: World, p: Id, a: Action)
    requires CoreInv(c, w) && OriginInv(w) && Next(c, w, p, a).Some?
    ensures OriginInv(Next(c, w, p, a).value)
  {
    hide DbOk, StreamsOk, CoverOk, ProcsOk, CreatorsOk, OriginInv;
    if a.Accept? {
      AcceptOrigins(c, w, p, a);
    } else if a.Insert? {
      InsertOrigins(w, p);
    } else {
      StepAdvances(c, w, p, a);
      StepFrame(c, w, p, a);
      OthersOnlyKeep(c, w, p, a);
      if a.TryClaim? {
        ClaimOrigin(c, w, p, a.claimedAt, a.token);
      } else {
        OwnOrigin(c, w, p, a);
      }
      KeptOrigins(w, Next(c, w, p, a).value, p);
    }
  }
}
