/** Every step of the job protocol keeps the core invariant and the guarantee of `Evolves`. The lemma of an action
    relies on the shared state and on its own process alone: it shows that the tables, the streams and the
    cover of unfinished jobs stay sound, and that the process arrives at a sound program counter.
    `StepAdvances` collects the actions, `StepKeepsProcs` adds the other processes, which the guarantee leaves
    sound, and `StepKeepsCreators` the identifiers of pending creations. */
module JobSteps {
  import opened Wrappers
  import opened JobModels
  import opened JobRepository
  import opened RedisQueue
  import opened WorkerSteps
  import opened JobProtocol
  import opened JobInvariant

  /** What the lemma of each action shows about the shared state. */
  ghost predicate Advanced(w: World, w': World) {
    Evolves(w, w') && SharedOk(w')
  }

  lemma {:induction false} StreamsKept(w: World, w': World)
    requires DbOk(w) && StreamsOk(w) && JobsEvolve(w, w')
    requires forall k :: StreamOf(w', k) == StreamOf(w, k)
    ensures StreamsOk(w') && StreamsEvolve(w, w') && CoverEvolves(w, w')
  {
    forall k ensures StreamOk(StreamOf(w', k)) &&
                     forall i :: 0 <= i < |StreamOf(w', k).entries| ==>
                       MessageOk(w', k, StreamOf(w', k).entries[i].message)
    {
      assert StreamOf(w', k) == StreamOf(w, k);
    }
  }

  /** Steps that touch neither the database nor the streams. */
  lemma {:induction false} LocalStep(w: World, w': World)
    requires SharedOk(w)
    requires w'.db == w.db && w'.streams == w.streams && w.used <= w'.used
    requires w'.hist.eventOf == w.hist.eventOf && HistoryEvolves(w, w')
    ensures Advanced(w, w')
  {
    assert JobsEvolve(w, w');
    StreamsKept(w, w');
    DbKept(w, w');
  }

  lemma {:induction false} DbKept(w: World, w': World)
    requires DbOk(w) && w'.db == w.db && w.used <= w'.used && w'.hist.eventOf == w.hist.eventOf
    ensures DbOk(w')
  {
    forall id | id in w'.db.jobs ensures JobOk(w', id) {
      assert JobOk(w, id);
    }
    forall e | e in w'.db.outbox ensures RowStored(w', e) {
      assert RowStored(w, e);
    }
  }

  /** The stored records before and after a transaction that replaced the record `id` and perhaps
      stamped its outbox row. */
  ghost predicate Replaces(w: World, w': World, id: Id, job: Job, published: Option<Time>)
    requires id in w.db.jobs && id in w.hist.eventOf && w.hist.eventOf[id] in w.db.outbox
  {
    var e := w.hist.eventOf[id];
    && w'.db.jobs == w.db.jobs[id := job]
    && w'.db.outbox == w.db.outbox[e := w.db.outbox[e].(publishedAt := published)]
    && w'.db.keys == w.db.keys
    && w.used <= w'.used && w'.hist.eventOf == w.hist.eventOf
    && (job.status == Accepted <==> published == None)
    && JobEvolves(w.used, w.db.jobs[id], job)
    && RecordOk(job)
  }

  lemma {:induction false} ReplacedJobs(w: World, w': World, id: Id, job: Job, published: Option<Time>)
    requires DbOk(w) && id in w.db.jobs && JobOk(w, id) && Replaces(w, w', id, job, published)
    ensures forall j :: j in w'.db.jobs ==> JobOk(w', j)
    ensures JobsEvolve(w, w')
  {
    forall j | j in w'.db.jobs ensures JobOk(w', j) {
      assert JobOk(w, j);
      assert RowStored(w, w.hist.eventOf[j]);
      assert RowStored(w, w.hist.eventOf[id]);
    }
  }

  lemma {:induction false} ReplacedDb(w: World, w': World, id: Id, job: Job, published: Option<Time>)
    requires DbOk(w) && id in w.db.jobs && JobOk(w, id) && Replaces(w, w', id, job, published)
    ensures DbOk(w')
  {
    ReplacedJobs(w, w', id, job, published);
    ReplacedRows(w, w', id, job, published);
    hide JobOk, RowStored, KeyStored, JobsEvolve, RecordOk, JobEvolves;
  }

  lemma {:induction false} ReplacedRows(w: World, w': World, id: Id, job: Job, published: Option<Time>)
    requires DbOk(w) && id in w.db.jobs && JobOk(w, id) && Replaces(w, w', id, job, published)
    ensures forall e :: e in w'.db.outbox ==> RowStored(w', e)
    ensures forall k :: k in w'.db.keys ==> KeyStored(w'.db, k)
  {
    forall e | e in w'.db.outbox ensures RowStored(w', e) {
      assert RowStored(w, e);
    }
    forall k | k in w'.db.keys ensures KeyStored(w'.db, k) {
      assert KeyStored(w.db, k);
    }
  }

  lemma {:induction false} ReplacedCover(w: World, w': World, id: Id, job: Job)
    requires CoverOk(w) && w'.db.jobs == w.db.jobs[id := job] && w'.streams == w.streams
    requires job.status == Accepted || job.status.IsTerminal() || Holds(StreamOf(w, job.kind), id)
    ensures CoverOk(w')
  {
    forall j | j in w'.db.jobs && w'.db.jobs[j].status != Accepted && !Done(w'.db, j)
      ensures Holds(StreamOf(w', w'.db.jobs[j].kind), j)
    {
      if j == id {
        assert w'.db.jobs[j] == job;
      } else {
        assert w'.db.jobs[j] == w.db.jobs[j] && !Done(w.db, j);
      }
    }
  }

  lemma {:induction false} JobReplaced(w: World, w': World, id: Id, job: Job, published: Option<Time>)
    requires SharedOk(w) && id in w.db.jobs && JobOk(w, id) && Replaces(w, w', id, job, published)
    requires w'.streams == w.streams && HistoryEvolves(w, w')
    requires job.status == Accepted || job.status.IsTerminal() || Holds(StreamOf(w, job.kind), id)
    ensures Advanced(w, w')
  {
    ReplacedJobs(w, w', id, job, published);
    ReplacedDb(w, w', id, job, published);
    ReplacedCover(w, w', id, job);
    StreamsKept(w, w');
  }

  /** A queue operation changed one stream. */
  ghost predicate Requeues(w: World, w': World, k: JobKind) {
    && w'.db == w.db && w'.used == w.used && w'.hist == w.hist
    && (forall l :: l != k ==> StreamOf(w', l) == StreamOf(w, l))
    && StreamEvolves(StreamOf(w, k), StreamOf(w', k)) && StreamOk(StreamOf(w', k))
    && (forall i :: |StreamOf(w, k).entries| <= i < |StreamOf(w', k).entries| ==>
          MessageOk(w, k, StreamOf(w', k).entries[i].message))
    && (forall id :: Holds(StreamOf(w, k), id) && !Done(w.db, id) ==> Holds(StreamOf(w', k), id))
  }

  lemma {:induction false} RequeuedStreams(w: World, w': World, k: JobKind)
    requires StreamsOk(w) && Requeues(w, w', k)
    ensures StreamsOk(w') && StreamsEvolve(w, w')
  {
    forall l ensures StreamOk(StreamOf(w', l)) && StreamEvolves(StreamOf(w, l), StreamOf(w', l)) &&
                     forall i :: 0 <= i < |StreamOf(w', l).entries| ==>
                       MessageOk(w', l, StreamOf(w', l).entries[i].message)
    {
      assert StreamOk(StreamOf(w, l));
      if l == k {
        forall i | 0 <= i < |StreamOf(w', l).entries| ensures MessageOk(w', l, StreamOf(w', l).entries[i].message) {
          if i < |StreamOf(w, l).entries| {
            assert StreamOf(w', l).entries[i] == StreamOf(w, l).entries[i];
            assert MessageOk(w, l, StreamOf(w, l).entries[i].message);
          }
        }
      }
    }
  }

  lemma {:induction false} StreamReplaced(w: World, w': World, k: JobKind)
    requires SharedOk(w) && Requeues(w, w', k)
    ensures Advanced(w, w')
  {
    RequeuedStreams(w, w', k);
    DbKept(w, w');
    forall id, l | id in w'.db.jobs && !Done(w'.db, id) && Holds(StreamOf(w, l), id)
      ensures Holds(StreamOf(w', l), id)
    {
      assert l != k ==> StreamOf(w', l) == StreamOf(w, l);
    }
  }

  lemma {:induction false} AcceptStep(c: Config, w: World, p: Id, a: Action)
    requires SharedOk(w) && a.Accept? && Next(c, w, p, a).Some?
    ensures Advanced(w, Next(c, w, p, a).value)
      && ProcOk(c, Next(c, w, p, a).value, ProcOf(Next(c, w, p, a).value, p))
  {
    var w' := Next(c, w, p, a).value;
    assert ProcOk(c, w', w'.procs[p]);
    LocalStep(w, w');
  }

  lemma {:induction false} ReplyStep(c: Config, w: World, p: Id, w': World)
    requires SharedOk(w) && ProcOk(c, w, ProcOf(w, p))
    requires DoLookUp(w, p) == Some(w') || DoReadBack(w, p) == Some(w')
    ensures Advanced(w, w') && ProcOk(c, w', ProcOf(w', p))
  {
    assert ProcOk(c, w', w'.procs[p]);
    LocalStep(w, w');
  }

  lemma {:induction false} ListStep(c: Config, w: World, p: Id, rows: seq<Outbox>)
    requires SharedOk(w) && DoList(w, p, rows).Some?
    ensures Advanced(w, DoList(w, p, rows).value)
      && ProcOk(c, DoList(w, p, rows).value, ProcOf(DoList(w, p, rows).value, p))
  {
    var w' := DoList(w, p, rows).value;
    forall i | 0 <= i < |rows| ensures RowOk(w', rows[i]) {
      assert Unpublished(w.db, rows[i].eventId) && w.db.outbox[rows[i].eventId] == rows[i];
      assert RowStored(w, rows[i].eventId);
    }
    assert ProcOk(c, w', w'.procs[p]);
    LocalStep(w, w');
  }

  lemma {:induction false} HandleStep(c: Config, w: World, p: Id, outcome: Outcome)
    requires SharedOk(w) && ProcOk(c, w, ProcOf(w, p)) && DoHandle(c, w, p, outcome).Some?
    ensures Advanced(w, DoHandle(c, w, p, outcome).value)
      && ProcOk(c, DoHandle(c, w, p, outcome).value, ProcOf(DoHandle(c, w, p, outcome).value, p))
  {
    var w' := DoHandle(c, w, p, outcome).value;
    assert ProcOk(c, w', w'.procs[p]);
    LocalStep(w, w');
  }

  lemma {:induction false} CrashStep(c: Config, w: World, p: Id)
    requires SharedOk(w)
    ensures Advanced(w, Goto(w, p, Resting)) && ProcOk(c, Goto(w, p, Resting), ProcOf(Goto(w, p, Resting), p))
  {
    var w' := Goto(w, p, Resting);
    assert ProcOk(c, w', w'.procs[p]);
    LocalStep(w, w');
  }

  lemma {:induction false} PublishStep(c: Config, w: World, p: Id)
    requires SharedOk(w) && ProcOk(c, w, ProcOf(w, p)) && DoPublish(w, p).Some?
    ensures Advanced(w, DoPublish(w, p).value) && ProcOk(c, DoPublish(w, p).value, ProcOf(DoPublish(w, p).value, p))
  {
    var w' := DoPublish(w, p).value;
    var batch := w.procs[p].batch;
    var k := batch[0].topic;
    assert RowOk(w, batch[0]);
    assert StreamOf(w', k) == Published(StreamOf(w, k), MessageOf(batch[0]));
    PublishedHolds(StreamOf(w, k), MessageOf(batch[0]));
    assert forall i :: 0 <= i < |batch| ==> RowOk(w', batch[i]);
    assert ProcOk(c, w', w'.procs[p]);
    StreamReplaced(w, w', k);
  }

  lemma {:induction false} ConsumeStep(c: Config, w: World, p: Id, k: JobKind, intake: Intake)
    requires SharedOk(w) && DoConsume(w, p, k, intake).Some?
    ensures Advanced(w, DoConsume(w, p, k, intake).value)
      && ProcOk(c, DoConsume(w, p, k, intake).value, ProcOf(DoConsume(w, p, k, intake).value, p))
  {
    hide DbOk, CoverOk;
    var w' := DoConsume(w, p, k, intake).value;
    assert StreamOf(w', k) == Consumed(k, StreamOf(w, k), intake).0;
    ConsumedHolds(k, StreamOf(w, k), intake);
    assert ProcOk(c, w', w'.procs[p]);
    StreamReplaced(w, w', k);
  }

  lemma {:induction false} SettleStep(c: Config, w: World, p: Id)
    requires SharedOk(w) && ProcOk(c, w, ProcOf(w, p)) && DoSettle(w, p).Some?
    ensures Advanced(w, DoSettle(w, p).value) && ProcOk(c, DoSettle(w, p).value, ProcOf(DoSettle(w, p).value, p))
  {
    var w' := DoSettle(w, p).value;
    var pc := w.procs[p].pc;
    var k := pc.d.stream;
    assert StreamOf(w', k) == Settled(StreamOf(w, k), pc);
    SettledHolds(StreamOf(w, k), pc);
    assert ProcOk(c, w', w'.procs[p]);
    StreamReplaced(w, w', k);
  }

  lemma {:induction false} ClaimAdvances(c: Config, w: World, p: Id, now: Time, token: Id)
    requires SharedOk(w) && DoClaim(c, w, p, now, token).Some?
    ensures Advanced(w, DoClaim(c, w, p, now, token).value)
  {
    var w' := DoClaim(c, w, p, now, token).value;
    var id := w.procs[p].pc.d.message.jobId;
    var r := ClaimForWork(w.db, id, now, c.leaseDuration, token).1;
    if r.Claimed? {
      assert JobOk(w, id);
      ClaimMeaning(w.db.jobs[id], now, c.leaseDuration, token);
      JobReplaced(w, w', id, r.job, w.db.outbox[w.hist.eventOf[id]].publishedAt);
    } else {
      LocalStep(w, w');
    }
  }

  lemma {:induction false} ClaimPc(c: Config, w: World, p: Id, now: Time, token: Id)
    requires SharedOk(w) && ProcOk(c, w, ProcOf(w, p)) && DoClaim(c, w, p, now, token).Some?
    ensures ProcOk(c, DoClaim(c, w, p, now, token).value, ProcOf(DoClaim(c, w, p, now, token).value, p))
  {
    var w' := DoClaim(c, w, p, now, token).value;
    var d := w.procs[p].pc.d;
    assert DeliveryOk(w', d) by {
      ClaimAdvances(c, w, p, now, token);
      PcStable(c, w, w', Claiming(d));
    }
    assert d.message.jobId in w.db.jobs ==> JobOk(w, d.message.jobId);
    ClaimedPc(c, w.db, w', d, now, token);
  }

  lemma {:induction false} ClaimedPc(c: Config, db: Db, w': World, d: Delivery, now: Time, token: Id)
    requires d.message.jobId in db.jobs ==>
      RecordOk(db.jobs[d.message.jobId]) && db.jobs[d.message.jobId].jobId == d.message.jobId
    requires var (db', r) := ClaimForWork(db, d.message.jobId, now, c.leaseDuration, token);
      w'.db == db' && (r.Claimed? ==> token in w'.used)
    requires DeliveryOk(w', d)
    ensures PcOk(c, w', AfterClaim(d, ClaimForWork(db, d.message.jobId, now, c.leaseDuration, token).1))
  {
    if d.message.jobId in db.jobs {
      ClaimMeaning(db.jobs[d.message.jobId], now, c.leaseDuration, token);
    }
  }

  lemma {:induction false} FinishStep(c: Config, w: World, p: Id, now: Time)
    requires SharedOk(w) && ProcOk(c, w, ProcOf(w, p)) && DoFinish(w, p, now).Some?
    ensures Advanced(w, DoFinish(w, p, now).value)
      && ProcOk(c, DoFinish(w, p, now).value, ProcOf(DoFinish(w, p, now).value, p))
  {
    var w' := DoFinish(w, p, now).value;
    var pc := w.procs[p].pc;
    var id := pc.job.jobId;
    var r := Finish(w.db, id, pc.target, now, pc.token, pc.code).1;
    if r.Success? {
      assert JobOk(w, id);
      FinishMeaning(w.db.jobs[id], pc.target, now, pc.token, pc.code);
      var e := w.hist.eventOf[id];
      assert Holds(StreamOf(w, w.db.jobs[id].kind), id);
      JobReplaced(w, w', id, r.value, w.db.outbox[e].publishedAt);
      assert ProcOk(c, w', ProcOf(w', p)) by {
        MessagesStable(w, w');
      }
    } else {
      LocalStep(w, w');
    }
  }

  lemma {:induction false} MarkAdvances(w: World, p: Id, now: Time)
    requires SharedOk(w) && DoMark(w, p, now).Some? && RowOk(w, w.procs[p].batch[0])
    requires var row := w.procs[p].batch[0]; Done(w.db, row.jobId) || Holds(StreamOf(w, row.topic), row.jobId)
    ensures Advanced(w, DoMark(w, p, now).value)
  {
    var w' := DoMark(w, p, now).value;
    var batch := w.procs[p].batch;
    var e := batch[0].eventId;
    if Unpublished(w.db, e) {
      assert RowStored(w, e);
      var id := w.db.outbox[e].jobId;
      assert JobOk(w, id) && w.hist.eventOf[batch[0].jobId] == e;
      assert batch[0].jobId == id;
      var queued := Transition(w.db.jobs[id], Queued, now, None).value;
      assert w'.db.jobs == w.db.jobs[id := queued];
      JobReplaced(w, w', id, queued, Some(now));
    } else {
      LocalStep(w, w');
    }
  }

  lemma {:induction false} MarkStep(c: Config, w: World, p: Id, now: Time)
    requires SharedOk(w) && ProcOk(c, w, ProcOf(w, p)) && DoMark(w, p, now).Some?
    ensures Advanced(w, DoMark(w, p, now).value)
      && ProcOk(c, DoMark(w, p, now).value, ProcOf(DoMark(w, p, now).value, p))
  {
    hide DbOk, StreamsOk, CoverOk, MarkPublished;
    var w', batch := DoMark(w, p, now).value, w.procs[p].batch;
    assert RowOk(w, batch[0]);
    MarkAdvances(w, p, now);
    forall i | 0 <= i < |batch[1..]| ensures RowOk(w', batch[1..][i]) {
      assert RowOk(w, batch[i + 1]);
      RowStable(w, w', batch[i + 1]);
    }
  }

  lemma {:induction false} RowStable(w: World, w': World, row: Outbox)
    requires DbOk(w) && JobsEvolve(w, w') && RowOk(w, row)
    ensures RowOk(w', row)
  {}

  // ---- creation ----

  /** The database after an insert by a creator whose identifiers are its own. */
  ghost predicate Inserts(w: World, w': World, job: Job, event: Outbox, key: Idempotency) {
    && IsRequest(w, job, event, key) && InsertAllowed(w.db, job, event, key)
    && job.jobId !in w.hist.eventOf && (forall id :: id in w.hist.eventOf ==> w.hist.eventOf[id] != event.eventId)
    && w'.db == Inserted(w.db, job, event, key) && w'.used == w.used
    && w'.hist.eventOf == w.hist.eventOf[job.jobId := event.eventId]
  }

  lemma {:induction false} InsertionEvolves(w: World, w': World, job: Job, event: Outbox, key: Idempotency)
    requires Inserts(w, w', job, event, key)
    ensures JobsEvolve(w, w')
  {}

  lemma {:induction false} InsertedJobs(w: World, w': World, job: Job, event: Outbox, key: Idempotency)
    requires DbOk(w) && Inserts(w, w', job, event, key)
    ensures forall id :: id in w'.db.jobs ==> JobOk(w', id)
  {
    hide RowStored, KeyStored;
    forall id | id in w'.db.jobs ensures JobOk(w', id) {
      if id != job.jobId {
        assert JobOk(w, id);
      }
    }
  }

  lemma {:induction false} InsertedRows(w: World, w': World, job: Job, event: Outbox, key: Idempotency)
    requires DbOk(w) && Inserts(w, w', job, event, key)
    ensures forall e :: e in w'.db.outbox ==> RowStored(w', e)
  {
    forall e | e in w'.db.outbox ensures RowStored(w', e) {
      if e != event.eventId {
        assert RowStored(w, e);
      }
    }
  }

  lemma {:induction false} InsertedKeys(w: World, w': World, job: Job, event: Outbox, key: Idempotency)
    requires DbOk(w) && Inserts(w, w', job, event, key)
    ensures forall k :: k in w'.db.keys ==> KeyStored(w'.db, k)
  {
    forall k | k in w'.db.keys ensures KeyStored(w'.db, k) {
      if k != key.keyHash {
        assert KeyStored(w.db, k);
      }
    }
  }

  lemma {:induction false} InsertedDb(w: World, w': World, job: Job, event: Outbox, key: Idempotency)
    requires DbOk(w) && Inserts(w, w', job, event, key)
    ensures DbOk(w') && JobsEvolve(w, w')
  {
    InsertionEvolves(w, w', job, event, key);
    InsertedJobs(w, w', job, event, key);
    InsertedRows(w, w', job, event, key);
    InsertedKeys(w, w', job, event, key);
  }

  lemma {:induction false} InsertStep(c: Config, w: World, p: Id)
    requires SharedOk(w) && ProcOk(c, w, ProcOf(w, p)) && CreatorsOk(w) && DoInsert(w, p).Some?
    ensures Advanced(w, DoInsert(w, p).value) && ProcOk(c, DoInsert(w, p).value, ProcOf(DoInsert(w, p).value, p))
  {
    hide DbOk, StreamsOk, CoverOk;
    var w' := DoInsert(w, p).value;
    var proc := w.procs[p];
    assert ProcOk(c, w, proc);
    if InsertAllowed(w.db, proc.job, proc.event, proc.key) {
      InsertedDb(w, w', proc.job, proc.event, proc.key);
      StreamsKept(w, w');
      InsertedCover(w, w', proc.job);
    } else {
      LocalStep(w, w');
    }
  }

  lemma {:induction false} InsertedCover(w: World, w': World, job: Job)
    requires CoverOk(w) && w'.db.jobs == w.db.jobs[job.jobId := job] && w'.streams == w.streams
    requires job.status == Accepted
    ensures CoverOk(w')
  {
    forall j | j in w'.db.jobs && w'.db.jobs[j].status != Accepted && !Done(w'.db, j)
      ensures Holds(StreamOf(w', w'.db.jobs[j].kind), j)
    {
      assert w'.db.jobs[j] == w.db.jobs[j] && !Done(w.db, j);
    }
  }

  // ---- deletions ----

  lemma {:induction false} DeletedDb(w: World, ids: set<Id>)
    requires DbOk(w)
    ensures DbOk(Deleted(w, DeleteJobs(w.db, ids)))
  {
    var w' := Deleted(w, DeleteJobs(w.db, ids));
    forall id | id in w'.db.jobs ensures JobOk(w', id) {
      assert JobOk(w, id);
    }
    forall e | e in w'.db.outbox ensures RowStored(w', e) {
      assert RowStored(w, e);
    }
    forall k | k in w'.db.keys ensures KeyStored(w'.db, k) {
      assert KeyStored(w.db, k);
    }
  }

  /** Steps that only remove rows. */
  ghost predicate OnlyRemoves(w: World, w': World) {
    && w'.db.jobs.Keys <= w.db.jobs.Keys && (forall j :: j in w'.db.jobs ==> w'.db.jobs[j] == w.db.jobs[j])
    && w'.streams == w.streams && w'.used == w.used && w'.hist.eventOf == w.hist.eventOf
  }

  lemma {:induction false} RemovalEvolves(w: World, w': World)
    requires OnlyRemoves(w, w')
    ensures JobsEvolve(w, w')
  {}

  lemma {:induction false} RemovalKeepsCover(w: World, w': World)
    requires OnlyRemoves(w, w') && CoverOk(w)
    ensures CoverOk(w')
  {
    forall j | j in w'.db.jobs && w'.db.jobs[j].status != Accepted && !Done(w'.db, j)
      ensures Holds(StreamOf(w', w'.db.jobs[j].kind), j)
    {
      assert w'.db.jobs[j] == w.db.jobs[j] && !Done(w.db, j);
    }
  }

  lemma {:induction false} RowsRemoved(w: World, w': World)
    requires OnlyRemoves(w, w') && DbOk(w) && DbOk(w') && StreamsOk(w) && CoverOk(w) && HistoryEvolves(w, w')
    ensures Advanced(w, w')
  {
    RemovalEvolves(w, w');
    RemovalKeepsCover(w, w');
    hide DbOk, StreamsOk, CoverOk, JobsEvolve, Holds, StreamsEvolve, CoverEvolves;
    StreamsKept(w, w');
  }

  lemma {:induction false} JobsDeleted(w: World, ids: set<Id>)
    requires SharedOk(w)
    ensures Advanced(w, Deleted(w, DeleteJobs(w.db, ids)))
  {
    hide DbOk, StreamsOk, CoverOk, Advanced;
    DeletedDb(w, ids);
    RowsRemoved(w, Deleted(w, DeleteJobs(w.db, ids)));
  }

  lemma {:induction false} DeletedKeysDb(w: World, keyHashes: set<Id>)
    requires DbOk(w)
    ensures DbOk(Deleted(w, DeleteKeys(w.db, keyHashes)))
  {
    var w' := Deleted(w, DeleteKeys(w.db, keyHashes));
    forall id | id in w'.db.jobs ensures JobOk(w', id) {
      assert JobOk(w, id);
    }
    forall e | e in w'.db.outbox ensures RowStored(w', e) {
      assert RowStored(w, e);
    }
    forall k | k in w'.db.keys ensures KeyStored(w'.db, k) {
      assert KeyStored(w.db, k);
    }
  }

  lemma {:induction false} KeysDeleted(w: World, keyHashes: set<Id>)
    requires SharedOk(w)
    ensures Advanced(w, Deleted(w, DeleteKeys(w.db, keyHashes)))
  {
    hide DbOk, StreamsOk, CoverOk, Advanced;
    DeletedKeysDb(w, keyHashes);
    RowsRemoved(w, Deleted(w, DeleteKeys(w.db, keyHashes)));
  }

  // ---- all processes ----

  /** Every action advances the shared state and leaves its own process at a sound counter. */
  lemma {:induction false} StepAdvances(c: Config, w: World, p: Id, a: Action)
    requires CoreInv(c, w) && Next(c, w, p, a).Some?
    ensures Advanced(w, Next(c, w, p, a).value)
    ensures ProcOk(c, Next(c, w, p, a).value, ProcOf(Next(c, w, p, a).value, p))
  {
    var w' := Next(c, w, p, a).value;
    hide DbOk, StreamsOk, CoverOk, CreatorsOk, PcOk;
    assert ProcOk(c, w, ProcOf(w, p));
    match a
    case Accept(_, _, _, _, _, _, _, _) => AcceptStep(c, w, p, a);
    case LookUp => ReplyStep(c, w, p, w');
    case Insert => InsertStep(c, w, p);
    case ReadBack => ReplyStep(c, w, p, w');
    case List(rows) => ListStep(c, w, p, rows);
    case Publish => PublishStep(c, w, p);
    case Mark(now) => MarkStep(c, w, p, now);
    case Consume(k, intake) => ConsumeStep(c, w, p, k, intake);
    case TryClaim(now, token) => ClaimAdvances(c, w, p, now, token); ClaimPc(c, w, p, now, token);
    case Handle(outcome) => HandleStep(c, w, p, outcome);
    case TryFinish(now) => FinishStep(c, w, p, now);
    case Settle => SettleStep(c, w, p);
    case Crash => CrashStep(c, w, p);
    case PurgeJobs(ids) => JobsDeleted(w, ids); if p in w.procs { ProcStable(c, w, w', w.procs[p]); }
    case PurgeKeys(keys) => KeysDeleted(w, keys); if p in w.procs { ProcStable(c, w, w', w.procs[p]); }
    case EraseOwner(owner) =>
      JobsDeleted(w, OwnedBy(w.db, owner));
      if p in w.procs { ProcStable(c, w, w', w.procs[p]); }
  }

  /** A step moves no process but its own. */
  lemma {:induction false} StepFrame(c: Config, w: World, p: Id, a: Action)
    requires Next(c, w, p, a).Some?
    ensures var w' := Next(c, w, p, a).value;
      && (forall q :: q != p ==> (q in w'.procs <==> q in w.procs))
      && (forall q :: q in w.procs && q != p ==> w'.procs[q] == w.procs[q])
  {}

  lemma {:induction false} StepKeepsProcs(c: Config, w: World, p: Id, a: Action)
    requires CoreInv(c, w) && Next(c, w, p, a).Some?
    ensures ProcsOk(c, Next(c, w, p, a).value)
  {
    var w' := Next(c, w, p, a).value;
    StepAdvances(c, w, p, a);
    StepFrame(c, w, p, a);
    forall q | q in w'.procs ensures ProcOk(c, w', w'.procs[q]) {
      if q != p {
        ProcStable(c, w, w', w.procs[q]);
      }
    }
  }

  /** Whatever a process creates after a step it was already creating, unless the step accepts, and only an
      insert gives a job its event. */
  lemma {:induction false} StepCreations(c: Config, w: World, p: Id, a: Action)
    requires Next(c, w, p, a).Some? && !a.Accept?
    ensures var w' := Next(c, w, p, a).value;
      forall q :: q in w'.procs && w'.procs[q].Creating? ==>
        && q in w.procs && w.procs[q].Creating?
        && w'.procs[q].job == w.procs[q].job && w'.procs[q].event == w.procs[q].event
        && (w'.procs[q].phase != Racing ==> w.procs[q].phase != Racing)
    ensures !a.Insert? ==> Next(c, w, p, a).value.hist.eventOf == w.hist.eventOf
  {
    StepFrame(c, w, p, a);
  }

  lemma {:induction false} AcceptKeepsCreators(c: Config, w: World, p: Id, a: Action)
    requires DbOk(w) && ProcsOk(c, w) && CreatorsOk(w) && a.Accept? && Next(c, w, p, a).Some?
    ensures CreatorsOk(Next(c, w, p, a).value)
  {
    var w' := Next(c, w, p, a).value;
    forall q | q in w.procs && w.procs[q].Creating? && q != p
      ensures w'.procs[q] == w.procs[q] && w.procs[q].job.jobId in w.used && w.procs[q].event.eventId in w.used
    {
      assert ProcOk(c, w, w.procs[q]);
    }
  }

  lemma {:induction false} InsertKeepsCreators(c: Config, w: World, p: Id)
    requires CreatorsOk(w) && DoInsert(w, p).Some?
    ensures CreatorsOk(DoInsert(w, p).value)
  {
    hide InsertAllowed, Inserted;
    var w' := DoInsert(w, p).value;
    var job, event := w.procs[p].job, w.procs[p].event;
    assert forall q :: q in w'.procs && q != p ==> w'.procs[q] == w.procs[q];
    forall q | q in w'.procs && w'.procs[q].Creating? && w'.procs[q].phase != Racing
      ensures w'.procs[q].job.jobId !in w'.hist.eventOf
      ensures forall id :: id in w'.hist.eventOf ==> w'.hist.eventOf[id] != w'.procs[q].event.eventId
    {
      assert q != p;
      assert w.procs[q].job.jobId != job.jobId && w.procs[q].event.eventId != event.eventId;
    }
  }

  lemma {:induction false} OthersKeepCreators(c: Config, w: World, p: Id, a: Action)
    requires CreatorsOk(w) && Next(c, w, p, a).Some? && !a.Accept? && !a.Insert?
    ensures CreatorsOk(Next(c, w, p, a).value)
  {
    hide Next;
    StepCreations(c, w, p, a);
  }

  lemma {:induction false} StepKeepsCreators(c: Config, w: World, p: Id, a: Action)
    requires CoreInv(c, w) && Next(c, w, p, a).Some?
    ensures CreatorsOk(Next(c, w, p, a).value)
  {
    hide DbOk, StreamsOk, CoverOk, ProcsOk, CreatorsOk;
    if a.Accept? {
      AcceptKeepsCreators(c, w, p, a);
    } else if a.Insert? {
      InsertKeepsCreators(c, w, p);
    } else {
      OthersKeepCreators(c, w, p, a);
    }
  }

  lemma {:induction false} StepKeepsCore(c: Config, w: World, p: Id, a: Action)
    requires CoreInv(c, w) && Next(c, w, p, a).Some?
    ensures CoreInv(c, Next(c, w, p, a).value) && Evolves(w, Next(c, w, p, a).value)
  {
    StepAdvances(c, w, p, a);
    StepKeepsProcs(c, w, p, a);
    StepKeepsCreators(c, w, p, a);
  }
}
