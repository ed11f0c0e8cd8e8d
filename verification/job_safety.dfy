/** What the job protocol guarantees in every reachable state and along every run. */
module JobSafety {
  import opened Wrappers
  import opened JobModels
  import opened JobRepository
  import opened RedisQueue
  import opened WorkerSteps
  import opened JobProtocol
  import opened JobInvariant
  import opened JobSteps
  import opened JobHistory
  import opened JobLetters
  import opened JobReplies
  import opened JobOrigins

  ghost predicate Inv(c: Config, w: World) {
    && CoreInv(c, w) && LeaseInv(w) && FinishInv(w) && FinalInv(w) && BudgetInv(c, w)
    && LetterInv(w) && ReplyInv(w) && OriginInv(w)
  }

  lemma {:induction false} InitInv(c: Config)
    ensures Inv(c, Init())
  {
    assert LetterInv(Init());
  }

  lemma {:induction false} StepKeepsInv(c: Config, w: World, p: Id, a: Action)
    requires c.maxAttempts >= 1 && Inv(c, w) && Next(c, w, p, a).Some?
    ensures Inv(c, Next(c, w, p, a).value)
  {
    StepKeepsCore(c, w, p, a);
    StepKeepsHistory(c, w, p, a);
    StepKeepsLetters(c, w, p, a);
    StepKeepsReplies(c, w, p, a);
    StepKeepsOrigins(c, w, p, a);
  }

  /** Along any run stored jobs only move forward, and keys stay until they are purged. */
  lemma {:induction false} RunKeepsInv(c: Config, w: World, schedule: seq<Step>)
    requires c.maxAttempts >= 1 && Inv(c, w) && Run(c, w, schedule).Some?
    ensures Inv(c, Run(c, w, schedule).value)
    ensures JobsEvolve(w, Run(c, w, schedule).value) && KeysEvolve(w, Run(c, w, schedule).value)
    decreases |schedule|
  {
    if schedule != [] {
      var w1 := Next(c, w, schedule[0].p, schedule[0].a).value;
      StepKeepsInv(c, w, schedule[0].p, schedule[0].a);
      StepAdvances(c, w, schedule[0].p, schedule[0].a);
      StepKeys(c, w, schedule[0].p, schedule[0].a);
      RunKeepsInv(c, w1, schedule[1..]);
      JobsEvolveOn(w, w1, Run(c, w, schedule).value);
    }
  }

  lemma {:induction false} JobsEvolveOn(w: World, w1: World, w2: World)
    requires DbOk(w) && JobsEvolve(w, w1) && JobsEvolve(w1, w2)
    ensures JobsEvolve(w, w2)
  {
    assert forall id :: id in w.db.jobs ==> JobOk(w, id);
    forall id | id in w.db.jobs && id in w2.db.jobs
      ensures JobEvolves(w.used, w.db.jobs[id], w2.db.jobs[id])
    {
      assert id in w1.db.jobs;
      assert JobEvolves(w.used, w.db.jobs[id], w1.db.jobs[id]) && JobEvolves(w1.used, w1.db.jobs[id], w2.db.jobs[id]);
    }
  }

  lemma {:induction false} ReachableInv(c: Config, w: World)
    requires c.maxAttempts >= 1 && Reachable(c, w)
    ensures Inv(c, w) && CoreInv(c, w)
  {
    var schedule :| Run(c, Init(), schedule) == Some(w);
    InitInv(c);
    RunKeepsInv(c, Init(), schedule);
  }

  // ---- no job is lost ----

  /** Between any two effects, crashes included, a stored job that is not finished is either still
      in the outbox or has an entry in its stream that nobody has acknowledged. */
  lemma {:induction false} NoJobIsLost(c: Config, w: World, id: Id)
    requires c.maxAttempts >= 1 && Reachable(c, w)
    requires id in w.db.jobs && !w.db.jobs[id].status.IsTerminal()
    ensures || (exists e :: Unpublished(w.db, e) && w.db.outbox[e].jobId == id)
            || (exists i: nat :: Unacked(StreamOf(w, w.db.jobs[id].kind), i) &&
                  StreamOf(w, w.db.jobs[id].kind).entries[i].message.jobId == id)
  {
    ReachableInv(c, w);
    assert JobOk(w, id);
    if w.db.jobs[id].status == Accepted {
      assert Unpublished(w.db, w.hist.eventOf[id]);
    } else {
      assert Holds(StreamOf(w, w.db.jobs[id].kind), id);
    }
  }

  /** Conversely an acknowledgement is only ever about to be sent for a job that is finished or gone. */
  lemma {:induction false} AcksOnlyFinishedJobs(c: Config, w: World, p: Id)
    requires c.maxAttempts >= 1 && Reachable(c, w)
    requires ProcOf(w, p).Working? && (ProcOf(w, p).pc.Acking? || ProcOf(w, p).pc.DeadLettering?)
    ensures var id := ProcOf(w, p).pc.d.message.jobId; id in w.db.jobs ==> w.db.jobs[id].status.IsTerminal()
  {
    hide Run, DbOk, StreamsOk, CoverOk, CreatorsOk, LeaseInv, FinishInv, FinalInv, BudgetInv, LetterInv, ReplyInv;
    hide OriginInv;
    ReachableInv(c, w);
    assert ProcOk(c, w, w.procs[p]);
  }

  // ---- stored records ----

  lemma {:induction false} StoredRecords(c: Config, w: World, id: Id)
    requires c.maxAttempts >= 1 && Reachable(c, w) && id in w.db.jobs
    ensures var job := w.db.jobs[id];
      && job.jobId == id
      && (job.status == Running <==> job.leaseToken.Some?)
      && (job.status == Running <==> job.leaseExpiresAt.Some?)
      && (job.status.IsTerminal() <==> job.completedAt.Some?)
      && (job.status.IsTerminal() ==> job.payload == map[])
    ensures exists e :: e in w.db.outbox && w.db.outbox[e].jobId == id &&
              (w.db.outbox[e].publishedAt == None <==> w.db.jobs[id].status == Accepted) &&
              forall f :: f in w.db.outbox && w.db.outbox[f].jobId == id ==> f == e
  {
    hide Run, StreamsOk, CoverOk, ProcsOk, CreatorsOk, LeaseInv, FinishInv, FinalInv, BudgetInv, LetterInv;
    hide ReplyInv, OriginInv;
    ReachableInv(c, w);
    assert JobOk(w, id);
    assert forall f :: f in w.db.outbox ==> RowStored(w, f);
    var e := w.hist.eventOf[id];
    assert e in w.db.outbox && w.db.outbox[e].jobId == id;
  }

  /** A stored job, its outbox row and its key are those of one accepted request, and until the job is finished
      it carries the payload that was asked for. */
  lemma {:induction false} StoredAsRequested(c: Config, w: World, id: Id)
    requires c.maxAttempts >= 1 && Reachable(c, w) && id in w.db.jobs
    ensures id in w.hist.accepted && w.hist.accepted[id].Accept?
    ensures var a, job := w.hist.accepted[id], w.db.jobs[id];
      && job.jobId == a.jobId == id && job.kind == a.kind && job.ownerHash == a.ownerHash
      && job.payloadHash == a.payloadHash && job.createdAt == a.now
      && (!job.status.IsTerminal() ==> job.payload == a.payload)
      && (forall e :: e in w.db.outbox && w.db.outbox[e].jobId == id ==>
            && w.db.outbox[e].eventId == a.eventId && w.db.outbox[e].topic == a.kind
            && w.db.outbox[e].eventVersion == 1 && w.db.outbox[e].createdAt == a.now)
      && (forall k :: k in w.db.keys && w.db.keys[k].jobId == id ==> w.db.keys[k] == Idempotency(a.keyHash,
            a.payloadHash, id, a.now))
  {
    ReachableInv(c, w);
    hide Run, StreamsOk, CoverOk, ProcsOk, CreatorsOk, LeaseInv, FinishInv, FinalInv, BudgetInv, LetterInv, ReplyInv;
    assert JobAsked(w, w.db.jobs[id]);
    assert forall e :: e in w.db.outbox ==> RowAsked(w, w.db.outbox[e]);
    assert forall k :: k in w.db.keys ==> KeyAsked(w, w.db.keys[k]);
  }

  /** So is the copy a worker holds, even after its lease was taken over. */
  lemma {:induction false} WorkersHoldThePayload(c: Config, w: World, p: Id)
    requires c.maxAttempts >= 1 && Reachable(c, w)
    requires ProcOf(w, p).Working? && (ProcOf(w, p).pc.Executing? || ProcOf(w, p).pc.Finishing?)
    ensures var job := ProcOf(w, p).pc.job;
      && job.jobId in w.hist.accepted && w.hist.accepted[job.jobId].Accept?
      && job.jobId == w.hist.accepted[job.jobId].jobId && job.kind == w.hist.accepted[job.jobId].kind
      && job.payload == w.hist.accepted[job.jobId].payload
  {
    ReachableInv(c, w);
    hide Run, DbOk, StreamsOk, CoverOk, ProcsOk, CreatorsOk, LeaseInv, FinishInv, FinalInv, BudgetInv, LetterInv;
    hide ReplyInv;
    assert ProcAsked(w, w.procs[p]);
  }

  /** The two defensive branches: a claim raises exactly when the repository was configured with a
      lease that is not positive and the job is up for work, and marking never finds an orphan. */
  lemma {:induction false} TransactionsNeverRaise(c: Config, w: World, id: Id, e: Id, now: Time, token: Id)
    requires c.maxAttempts >= 1 && Reachable(c, w)
    ensures ClaimForWork(w.db, id, now, c.leaseDuration, token).1.Raised? <==>
              && c.leaseDuration <= 0
              && id in w.db.jobs
              && (w.db.jobs[id].status == Queued || w.db.jobs[id].status == RetryWait ||
                  (w.db.jobs[id].status == Running && w.db.jobs[id].leaseExpiresAt.Some? &&
                   w.db.jobs[id].leaseExpiresAt.value <= now))
    ensures MarkPublished(w.db, e, now).1.Success?
  {
    hide Run, StreamsOk, CoverOk, ProcsOk, CreatorsOk, LeaseInv, FinishInv, FinalInv, BudgetInv, LetterInv;
    hide ReplyInv, OriginInv;
    ReachableInv(c, w);
    if id in w.db.jobs {
      assert JobOk(w, id);
      ClaimMeaning(w.db.jobs[id], now, c.leaseDuration, token);
    }
    if e in w.db.outbox {
      assert RowStored(w, e);
    }
  }

  /** Once terminal a record never changes again, and a deleted job never comes back. */
  lemma {:induction false} TerminalRecordsAreFinal(c: Config, w: World, schedule: seq<Step>, id: Id)
    requires c.maxAttempts >= 1 && Reachable(c, w) && Run(c, w, schedule).Some?
    ensures var w' := Run(c, w, schedule).value;
      && (id in w.db.jobs && w.db.jobs[id].status.IsTerminal() && id in w'.db.jobs ==> w'.db.jobs[id] == w.db.jobs[id])
      && (id in w.hist.eventOf && id !in w.db.jobs ==> id !in w'.db.jobs)
  {
    hide Run, DbOk, StreamsOk, CoverOk, ProcsOk, CreatorsOk, LeaseInv, FinishInv, FinalInv, BudgetInv, LetterInv;
    hide ReplyInv, OriginInv;
    ReachableInv(c, w);
    RunKeepsInv(c, w, schedule);
  }

  /** Between two points of any run a job's version never falls, and the same version means the same record,
      in every field. */
  lemma {:induction false} VersionsIdentifyRecords(c: Config, w: World, schedule: seq<Step>, id: Id)
    requires c.maxAttempts >= 1 && Reachable(c, w) && Run(c, w, schedule).Some?
    requires id in w.db.jobs && id in Run(c, w, schedule).value.db.jobs
    ensures var j, j' := w.db.jobs[id], Run(c, w, schedule).value.db.jobs[id];
      && j.version <= j'.version && j.attempt <= j'.attempt
      && (j.version == j'.version ==> j == j')
      && (j.startedAt.Some? ==> j'.startedAt == j.startedAt)
      && (j'.status == Running ==> j'.startedAt.Some?)
  {
    var w' := Run(c, w, schedule).value;
    ReachableInv(c, w);
    RunKeepsInv(c, w, schedule);
    assert JobEvolves(w.used, w.db.jobs[id], w'.db.jobs[id]) && JobOk(w', id);
  }

  ghost predicate OnlyOwnerErased(db: Db, db': Db, owner: Id) {
    && (forall id :: id in db'.jobs <==> id in db.jobs && db.jobs[id].ownerHash != owner)
    && (forall id :: id in db'.jobs ==> db'.jobs[id] == db.jobs[id])
    && (forall e :: e in db'.outbox <==> e in db.outbox && db.outbox[e].jobId in db'.jobs)
    && (forall e :: e in db'.outbox ==> db'.outbox[e] == db.outbox[e])
    && (forall k :: k in db'.keys <==> k in db.keys && db.keys[k].jobId in db'.jobs)
    && (forall k :: k in db'.keys ==> db'.keys[k] == db.keys[k])
  }

  /** An erasure removes exactly the subject's jobs, and with each job its outbox rows and its keys. */
  lemma {:induction false} ErasureIsExact(c: Config, w: World, p: Id, owner: Id)
    requires c.maxAttempts >= 1 && Reachable(c, w)
    ensures Next(c, w, p, EraseOwner(owner)).Some?
    ensures OnlyOwnerErased(w.db, Next(c, w, p, EraseOwner(owner)).value.db, owner)
  {
    ReachableInv(c, w);
    hide OnlyOwnerErased, DbOk, StreamsOk, CoverOk, ProcsOk, CreatorsOk, Reachable, Inv, Next;
    ErasureInDb(c, w, p, owner);
  }

  lemma {:induction false} ErasureInDb(c: Config, w: World, p: Id, owner: Id)
    requires DbOk(w)
    ensures Next(c, w, p, EraseOwner(owner)).Some?
    ensures OnlyOwnerErased(w.db, Next(c, w, p, EraseOwner(owner)).value.db, owner)
  {
    hide OnlyOwnerErased, DeleteJobs, DbOk;
    StoredTogether(w);
    ErasedTogether(w, owner);
  }

  lemma {:induction false} StoredTogether(w: World)
    requires DbOk(w)
    ensures forall e :: e in w.db.outbox ==> w.db.outbox[e].jobId in w.db.jobs
    ensures forall k :: k in w.db.keys ==> w.db.keys[k].jobId in w.db.jobs
  {
    assert forall e :: e in w.db.outbox ==> RowStored(w, e);
    assert forall k :: k in w.db.keys ==> KeyStored(w.db, k);
  }

  lemma {:induction false} ErasedTogether(w: World, owner: Id)
    requires forall e :: e in w.db.outbox ==> w.db.outbox[e].jobId in w.db.jobs
    requires forall k :: k in w.db.keys ==> w.db.keys[k].jobId in w.db.jobs
    ensures OnlyOwnerErased(w.db, DeleteJobs(w.db, OwnedBy(w.db, owner)), owner)
  {}

  // ---- lease fencing ----

  /** A finish changes the database only with the token of the job's latest claim, and only if no
      finish used that token before. */
  lemma {:induction false} FinishNeedsLatestClaim(c: Config, w: World, p: Id, now: Time)
    requires c.maxAttempts >= 1 && Reachable(c, w) && DoFinish(w, p, now).Some?
    ensures var pc := w.procs[p].pc;
      DoFinish(w, p, now).value.db != w.db ==>
        && LastToken(w.hist.claims, pc.job.jobId) == Some(pc.token)
        && forall i :: 0 <= i < |w.hist.finishes| ==> w.hist.finishes[i].token != pc.token
  {
    hide Run, StreamsOk, CoverOk, CreatorsOk, FinalInv, BudgetInv, LetterInv, ReplyInv, OriginInv, Transition;
    ReachableInv(c, w);
    var id := w.procs[p].pc.job.jobId;
    if id in w.db.jobs {
      assert JobOk(w, id);
    }
  }

  /** A worker whose lease was taken over changes nothing and leaves its delivery open. */
  lemma {:induction false} StaleFinishIsRefused(c: Config, w: World, p: Id, now: Time)
    requires c.maxAttempts >= 1 && Reachable(c, w) && DoFinish(w, p, now).Some?
    requires LastToken(w.hist.claims, w.procs[p].pc.job.jobId) != Some(w.procs[p].pc.token)
    ensures var w' := DoFinish(w, p, now).value;
      w'.db == w.db && w'.streams == w.streams && w'.hist == w.hist && ProcOf(w', p) == Resting
  {
    hide Run, StreamsOk, CoverOk, CreatorsOk, FinishInv, FinalInv, BudgetInv, LetterInv, ReplyInv, OriginInv;
    hide Transition;
    ReachableInv(c, w);
    var id := w.procs[p].pc.job.jobId;
    if id in w.db.jobs {
      assert JobOk(w, id);
    }
  }

  /** Over a whole run each claim has at most one effective finish, each job at most one terminal
      finish, and a stored job shows exactly the status and code of its terminal finish. */
  lemma {:induction false} FinishesAreFenced(c: Config, w: World)
    requires c.maxAttempts >= 1 && Reachable(c, w)
    ensures forall i :: 0 <= i < |w.hist.finishes| ==>
              WasClaimed(w.hist.claims, w.hist.finishes[i].jobId, w.hist.finishes[i].token)
    ensures forall i, j :: 0 <= i < j < |w.hist.claims| ==> w.hist.claims[i].token != w.hist.claims[j].token
    ensures forall i, j :: 0 <= i < j < |w.hist.finishes| ==>
              && w.hist.finishes[i].token != w.hist.finishes[j].token
              && (w.hist.finishes[i].target.IsTerminal() && w.hist.finishes[j].target.IsTerminal() ==>
                    w.hist.finishes[i].jobId != w.hist.finishes[j].jobId)
    ensures forall i :: 0 <= i < |w.hist.finishes| && w.hist.finishes[i].target.IsTerminal() ==>
              var f := w.hist.finishes[i];
              f.jobId in w.db.jobs ==> w.db.jobs[f.jobId].status == f.target && w.db.jobs[f.jobId].failureCode == f.code
  {
    ReachableInv(c, w);
  }

  /** A stored job has at most one entry in the failed streams, only in that of its kind, and the
      entry carries the failure code of the record. */
  lemma {:induction false} DeadLettersMatchRecords(c: Config, w: World, k: JobKind, i: nat)
    requires c.maxAttempts >= 1 && Reachable(c, w)
    requires i < |StreamOf(w, k).failed| && StreamOf(w, k).failed[i].message.jobId in w.db.jobs
    ensures var f := StreamOf(w, k).failed[i]; var job := w.db.jobs[f.message.jobId];
      && job.kind == k && job.status == Failed && job.failureCode == Some(f.failureCode)
      && forall l, j :: 0 <= j < |StreamOf(w, l).failed| ==>
           StreamOf(w, l).failed[j].message.jobId == f.message.jobId ==> l == k && j == i
  {
    ReachableInv(c, w);
    var f := StreamOf(w, k).failed[i];
    assert EntryOk(w, k, f);
    StoredIsFailed(w, f.message.jobId, f.failureCode);
    forall l, j: nat | j < |StreamOf(w, l).failed| && StreamOf(w, l).failed[j].message.jobId == f.message.jobId
      ensures l == k && j == i
    {
      assert Twice(w, f, StreamOf(w, l).failed[j]);
    }
  }

  /** Every dead letter, whether or not its job is still stored, carries the code of a finish that failed its
      job, or says that a job was missing which had been stored and is gone. */
  lemma {:induction false} LettersAreExplained(c: Config, w: World, k: JobKind, i: nat)
    requires c.maxAttempts >= 1 && Reachable(c, w) && i < |StreamOf(w, k).failed|
    ensures var f := StreamOf(w, k).failed[i]; var id := f.message.jobId;
      || (exists n :: 0 <= n < |w.hist.finishes| && w.hist.finishes[n].jobId == id
            && w.hist.finishes[n].target == Failed && w.hist.finishes[n].code == Some(f.failureCode))
      || (f.failureCode == MISSING_CODE && id in w.hist.eventOf && id !in w.db.jobs)
  {
    ReachableInv(c, w);
    assert EntryOk(w, k, StreamOf(w, k).failed[i]);
  }

  /** Over a whole run, erasures and purges included, a job has at most one dead letter that does not say it
      was missing. */
  lemma {:induction false} OneLetterPerJob(c: Config, w: World, k: JobKind, i: nat, l: JobKind, j: nat)
    requires c.maxAttempts >= 1 && Reachable(c, w)
    requires i < |StreamOf(w, k).failed| && j < |StreamOf(w, l).failed|
    requires StreamOf(w, k).failed[i].message.jobId == StreamOf(w, l).failed[j].message.jobId
    requires StreamOf(w, k).failed[i].failureCode != MISSING_CODE
      && StreamOf(w, l).failed[j].failureCode != MISSING_CODE
    ensures k == l && i == j
  {
    ReachableInv(c, w);
    assert Twice(w, StreamOf(w, k).failed[i], StreamOf(w, l).failed[j]);
  }

  // ---- the retry budget ----

  /** The attempt count is the number of claims, a job waits for a retry only within the budget, and
      lapsed leases are the only way past it. */
  lemma {:induction false} RetryBudget(c: Config, w: World, id: Id)
    requires c.maxAttempts >= 1 && Reachable(c, w) && id in w.db.jobs
    ensures var job := w.db.jobs[id];
      && job.attempt == Claims(w.hist.claims, id)
      && (job.status == RetryWait ==> job.attempt < c.maxAttempts)
      && job.attempt <= c.maxAttempts + Takeovers(w.hist.claims, id)
  {
    ReachableInv(c, w);
    assert JobOk(w, id) && BudgetOk(c, w.hist.claims, w.db.jobs[id]);
  }

  // ---- idempotent creation ----

  /** However creators interleave, two answers under one unpurged key agree: the same payload gets the
      same job, a different payload is refused as a conflict. */
  lemma {:induction false} CreationIsIdempotent(c: Config, w: World, i: nat, j: nat)
    requires c.maxAttempts >= 1 && Reachable(c, w)
    requires i < |w.hist.replies| && j < |w.hist.replies|
    requires w.hist.replies[i].keyHash == w.hist.replies[j].keyHash && w.hist.replies[i].keyHash !in w.hist.purgedKeys
    requires w.hist.replies[i].outcome.Success?
    ensures w.hist.replies[j].outcome ==
              if w.hist.replies[j].payloadHash == w.hist.replies[i].payloadHash then w.hist.replies[i].outcome
              else Failure(IdempotencyConflict)
  {
    ReachableInv(c, w);
    assert ReplyOk(w, w.hist.replies[i]) && ReplyOk(w, w.hist.replies[j]);
  }

  /** Every answer is a job or a conflict, except that a creator whose key was purged while it raced is told
      of the integrity error; a key without a job is never met. */
  lemma {:induction false} AnswersAreJobsOrConflicts(c: Config, w: World, i: nat)
    requires c.maxAttempts >= 1 && Reachable(c, w) && i < |w.hist.replies|
    ensures var r := w.hist.replies[i];
      || r.outcome.Success?
      || r.outcome.error == IdempotencyConflict
      || (r.outcome.error == IntegrityError && r.keyHash in w.hist.purgedKeys)
  {
    ReachableInv(c, w);
    assert ReplyOk(w, w.hist.replies[i]);
  }

  /** Every key names one stored job with the key's payload, and no job has two keys. */
  lemma {:induction false} KeysNameJobs(c: Config, w: World, k: Id)
    requires c.maxAttempts >= 1 && Reachable(c, w) && k in w.db.keys
    ensures w.db.keys[k].jobId in w.db.jobs
    ensures w.db.jobs[w.db.keys[k].jobId].payloadHash == w.db.keys[k].payloadHash
    ensures forall l :: l in w.db.keys && w.db.keys[l].jobId == w.db.keys[k].jobId ==> l == k
  {
    ReachableInv(c, w);
    assert KeyStored(w.db, k);
  }
}
