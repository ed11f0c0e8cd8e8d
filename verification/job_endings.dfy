/** How one undisturbed delivery ends, field by field, for every record it may find and every way its handler ends. */
module JobEndings {
  import opened Wrappers
  import opened JobModels
  import opened JobRepository
  import opened RedisQueue
  import opened WorkerSteps
  import opened JobProtocol
  import opened JobRuntime

  /** The record after its claim was finished: a retry keeps the payload, an end drops it. */
  ghost predicate Finished(before: Job, after: Job, status: JobStatus, code: Option<Code>, now: Time) {
    after == before.(
      status := status, failureCode := code, updatedAt := now, version := before.version + 1,
      completedAt := if status == RetryWait then before.completedAt else Some(now),
      payload := if status == RetryWait then before.payload else map[],
      leaseToken := None, leaseExpiresAt := None)
  }

  /** The delivery is closed and nothing else happened to the stream. */
  ghost predicate OnlyClosed(s: Stream, s': Stream, d: Delivery) {
    s'.entries == s.entries && s'.cursor == s.cursor && s'.pending == s.pending - {d.id} && s'.failed == s.failed
  }

  /** The delivery is closed and its message appended once more. */
  ghost predicate SentAgain(s: Stream, s': Stream, d: Delivery) {
    && s'.entries == s.entries + [Entry(d.message, d.attempt + 1)]
    && s'.cursor == s.cursor && s'.pending == s.pending - {d.id} && s'.failed == s.failed
  }

  /** The delivery is closed and its message appended to the failed stream. */
  ghost predicate Buried(s: Stream, s': Stream, d: Delivery, code: Code) {
    && s'.failed == s.failed + [FailedEntry(d.message, d.attempt, code, d.id)]
    && s'.entries == s.entries && s'.cursor == s.cursor && s'.pending == s.pending - {d.id}
  }

  /** What the ending of its handler calls for: success, failure at once, or another try as long as there are
      attempts left. */
  ghost predicate CallsFor(maxAttempts: nat, inputs: Inputs, job: Job, status: JobStatus, code: Option<Code>) {
    if job.kind !in inputs.handlers then status == Failed && code == Some("ISLEYICI_BULUNAMADI")
    else if inputs.ending == Completed then status == Succeeded && code == None
    else if inputs.ending.PermanentError? then status == Failed && code == Some(inputs.ending.code)
    else
      && code == Some(if inputs.ending.TransientError? then inputs.ending.code else "BEKLENMEYEN_ISCI_HATASI")
      && status == if job.attempt < maxAttempts then RetryWait else Failed
  }

  /** A claimed job ends as its handler calls for, in the table and in the stream. */
  ghost predicate EndsAs(maxAttempts: nat, inputs: Inputs, d: Delivery, job: Job, after: Job, s: Stream, s': Stream) {
    exists status, code :: CallsFor(maxAttempts, inputs, job, status, code)
      && Finished(job, after, status, code, inputs.finishedAt)
      && (status == Succeeded ==> OnlyClosed(s, s', d))
      && (status == RetryWait ==> SentAgain(s, s', d))
      && (status == Failed ==> code.Some? && Buried(s, s', d, code.value))
  }

  /** No table and no stream has changed, apart from one record and the delivery's stream. */
  ghost predicate OnlyTouches(w: World, w': World, id: Id, k: JobKind) {
    && id in w.db.jobs && id in w'.db.jobs && w'.db.jobs == w.db.jobs[id := w'.db.jobs[id]]
    && w'.db.outbox == w.db.outbox && w'.db.keys == w.db.keys
    && forall l :: l != k ==> StreamOf(w', l) == StreamOf(w, l)
  }

  ghost predicate NothingChanged(w: World, w': World) {
    w'.db == w.db && forall k :: StreamOf(w', k) == StreamOf(w, k)
  }

  lemma {:induction false} Driven(c: Config, w: World, p: Id, inputs: Inputs)
    requires TokenReady(w, p, inputs) && Rank(ProcOf(w, p)) > 0
    ensures Drive(c, w, p, inputs) == Drive(c, Next(c, w, p, NextAction(ProcOf(w, p).pc, inputs)).value, p, inputs)
  {}

  lemma {:induction false} AtRest(c: Config, w: World, p: Id, inputs: Inputs)
    requires Rank(ProcOf(w, p)) == 0
    ensures Drive(c, w, p, inputs) == w
  {}

  lemma {:induction false} SettlesTo(c: Config, w: World, p: Id, inputs: Inputs)
    requires ProcOf(w, p).Working?
    requires ProcOf(w, p).pc.Acking? || ProcOf(w, p).pc.Retrying? || ProcOf(w, p).pc.DeadLettering?
    ensures var w', pc := Drive(c, w, p, inputs), ProcOf(w, p).pc;
      var s, s' := StreamOf(w, pc.d.stream), StreamOf(w', pc.d.stream);
      && w'.db == w.db && (forall k :: k != pc.d.stream ==> StreamOf(w', k) == StreamOf(w, k))
      && (pc.Acking? ==> OnlyClosed(s, s', pc.d))
      && (pc.Retrying? ==> SentAgain(s, s', pc.d))
      && (pc.DeadLettering? ==> Buried(s, s', pc.d, pc.deadCode))
  {
    hide Drive;
    Driven(c, w, p, inputs);
    AtRest(c, DoSettle(w, p).value, p, inputs);
  }

  ghost predicate Holds(w: World, job: Job, token: Id) {
    job.jobId in w.db.jobs && w.db.jobs[job.jobId] == job && job.status == Running && job.leaseToken == Some(token)
  }

  lemma {:induction false} FinishWrites(w: World, p: Id, now: Time)
    requires ProcOf(w, p).Working? && ProcOf(w, p).pc.Finishing?
    requires Holds(w, ProcOf(w, p).pc.job, ProcOf(w, p).pc.token)
    requires var pc := ProcOf(w, p).pc;
      pc.target == Succeeded || (pc.code.Some? && (pc.target == Failed || pc.target == RetryWait))
    ensures var w', pc := DoFinish(w, p, now).value, ProcOf(w, p).pc;
      && OnlyTouches(w, w', pc.job.jobId, pc.d.stream) && StreamOf(w', pc.d.stream) == StreamOf(w, pc.d.stream)
      && Finished(pc.job, w'.db.jobs[pc.job.jobId], pc.target, pc.code, now)
      && ProcOf(w', p) == Working(
           if pc.target == Succeeded then Acking(pc.d) else if pc.target == RetryWait then Retrying(pc.d)
           else DeadLettering(pc.d, pc.code.value))
  {}

  lemma {:induction false} HandlerCalls(c: Config, w: World, p: Id, inputs: Inputs)
    requires ProcOf(w, p).Working? && ProcOf(w, p).pc.Executing?
    ensures var pc := ProcOf(w, p).pc;
      var w' := DoHandle(c, w, p, inputs.OutcomeFor(pc.job.kind)).value;
      && w'.db == w.db && w'.streams == w.streams && ProcOf(w', p).Working? && ProcOf(w', p).pc.Finishing?
      && var pc' := ProcOf(w', p).pc;
         && pc'.d == pc.d && pc'.job == pc.job && pc'.token == pc.token
         && CallsFor(c.maxAttempts, inputs, pc.job, pc'.target, pc'.code)
  {}

  /** A worker whose lease is the stored one ends its job as the handler ended. */
  lemma {:induction false} HandlerEndsTheJob(c: Config, w: World, p: Id, inputs: Inputs)
    requires ProcOf(w, p).Working? && ProcOf(w, p).pc.Executing?
    requires Holds(w, ProcOf(w, p).pc.job, ProcOf(w, p).pc.token)
    ensures var w', d, job := Drive(c, w, p, inputs), ProcOf(w, p).pc.d, ProcOf(w, p).pc.job;
      && OnlyTouches(w, w', job.jobId, d.stream)
      && EndsAs(c.maxAttempts, inputs, d, job, w'.db.jobs[job.jobId], StreamOf(w, d.stream), StreamOf(w', d.stream))
  {
    hide Drive, Finish, AfterHandler, Finished, OnlyClosed, SentAgain, Buried;
    var w1 := DoHandle(c, w, p, inputs.OutcomeFor(ProcOf(w, p).pc.job.kind)).value;
    HandlerCalls(c, w, p, inputs);
    var w2 := DoFinish(w1, p, inputs.finishedAt).value;
    Driven(c, w, p, inputs);
    Driven(c, w1, p, inputs);
    FinishWrites(w1, p, inputs.finishedAt);
    SettlesTo(c, w2, p, inputs);
  }

  /** A worker that lost its lease changes nothing. */
  lemma {:induction false} StaleHandlerEndsNothing(c: Config, w: World, p: Id, inputs: Inputs)
    requires ProcOf(w, p).Working? && ProcOf(w, p).pc.Executing?
    requires var pc := ProcOf(w, p).pc; pc.job.jobId in w.db.jobs ==>
      w.db.jobs[pc.job.jobId].status != Running || w.db.jobs[pc.job.jobId].leaseToken != Some(pc.token)
    ensures NothingChanged(w, Drive(c, w, p, inputs))
  {
    hide Drive, Transition, AfterHandler;
    var w1 := DoHandle(c, w, p, inputs.OutcomeFor(ProcOf(w, p).pc.job.kind)).value;
    HandlerCalls(c, w, p, inputs);
    Driven(c, w, p, inputs);
    Driven(c, w1, p, inputs);
    AtRest(c, DoFinish(w1, p, inputs.finishedAt).value, p, inputs);
  }

  /** The record a claim hands to the handler. */
  ghost predicate ClaimedFrom(before: Job, job: Job, now: Time, leaseDuration: int, token: Id) {
    && job.version > before.version
    && job == before.(
      status := Running, updatedAt := now, failureCode := None, attempt := before.attempt + 1,
      startedAt := if before.startedAt.Some? then before.startedAt else Some(now),
      leaseToken := Some(token), leaseExpiresAt := Some(now + leaseDuration), version := job.version)
  }

  ghost predicate LeaseRuns(job: Job, now: Time) {
    job.status == Running && job.leaseExpiresAt.Some? && job.leaseExpiresAt.value > now
  }

  lemma {:induction false} ClaimHandsOut(c: Config, w: World, p: Id, inputs: Inputs)
    requires ProcOf(w, p).Working? && ProcOf(w, p).pc.Claiming? && inputs.token !in w.used
    requires var id := ProcOf(w, p).pc.d.message.jobId;
      && id in w.db.jobs && w.db.jobs[id].jobId == id && RecordOk(w.db.jobs[id])
      && !w.db.jobs[id].status.IsTerminal() && w.db.jobs[id].status != Accepted
      && !LeaseRuns(w.db.jobs[id], inputs.claimedAt) && c.leaseDuration > 0
    ensures var w', d := DoClaim(c, w, p, inputs.claimedAt, inputs.token).value, ProcOf(w, p).pc.d;
      && OnlyTouches(w, w', d.message.jobId, d.stream) && StreamOf(w', d.stream) == StreamOf(w, d.stream)
      && ClaimedFrom(w.db.jobs[d.message.jobId], w'.db.jobs[d.message.jobId], inputs.claimedAt, c.leaseDuration,
                     inputs.token)
      && ProcOf(w', p) == Working(Executing(d, w'.db.jobs[d.message.jobId], inputs.token))
  {}

  /** One delivery, from the claim to the end of the run. */
  lemma {:induction false} DeliveryEnds(c: Config, w: World, p: Id, inputs: Inputs)
    requires ProcOf(w, p).Working? && ProcOf(w, p).pc.Claiming? && inputs.token !in w.used
    requires var id := ProcOf(w, p).pc.d.message.jobId;
      id in w.db.jobs ==> w.db.jobs[id].jobId == id && RecordOk(w.db.jobs[id])
    ensures var w', d := Drive(c, w, p, inputs), ProcOf(w, p).pc.d;
      var id, s, s' := d.message.jobId, StreamOf(w, d.stream), StreamOf(w', d.stream);
      if id !in w.db.jobs then
        w'.db == w.db && Buried(s, s', d, "IS_BULUNAMADI")
      else if w.db.jobs[id].status == Succeeded || w.db.jobs[id].status == Failed then
        w'.db == w.db && OnlyClosed(s, s', d)
      else if
        w.db.jobs[id].status == Accepted || LeaseRuns(w.db.jobs[id], inputs.claimedAt) || c.leaseDuration <= 0
      then
        NothingChanged(w, w')
      else
        && OnlyTouches(w, w', id, d.stream)
        && exists job :: ClaimedFrom(w.db.jobs[id], job, inputs.claimedAt, c.leaseDuration, inputs.token)
             && EndsAs(c.maxAttempts, inputs, d, job, w'.db.jobs[id], s, s')
  {
    hide Drive, EndsAs, Transition;
    var d, id := ProcOf(w, p).pc.d, ProcOf(w, p).pc.d.message.jobId;
    var w1 := DoClaim(c, w, p, inputs.claimedAt, inputs.token).value;
    Driven(c, w, p, inputs);
    if id !in w.db.jobs || w.db.jobs[id].status.IsTerminal() {
      SettlesTo(c, w1, p, inputs);
    } else if w.db.jobs[id].status == Accepted || LeaseRuns(w.db.jobs[id], inputs.claimedAt) {
      AtRest(c, w1, p, inputs);
    } else if c.leaseDuration <= 0 {
      ClaimMeaning(w.db.jobs[id], inputs.claimedAt, c.leaseDuration, inputs.token);
      AtRest(c, w1, p, inputs);
    } else {
      ClaimHandsOut(c, w, p, inputs);
      HandlerEndsTheJob(c, w1, p, inputs);
    }
  }
}
