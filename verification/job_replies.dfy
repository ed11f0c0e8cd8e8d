/** What creators are told: an invariant of the replies and the stored idempotency keys. */
module JobReplies {
  import opened Wrappers
  import opened JobModels
  import opened JobRepository
  import opened JobProtocol
  import opened JobInvariant
  import opened JobSteps

  /** A reply is a job, a conflict or an integrity error. As long as its key has not been purged, a
      successful reply names the job stored under the key and the payload stored with it, and the
      only refusal is a differing payload. */
  ghost predicate ReplyOk(w: World, r: Reply) {
    && (r.outcome.Success? || r.outcome.error == IdempotencyConflict || r.outcome.error == IntegrityError)
    && (r.keyHash !in w.hist.purgedKeys ==>
          && r.keyHash in w.db.keys
          && match r.outcome
             case Success(id) => w.db.keys[r.keyHash].jobId == id && w.db.keys[r.keyHash].payloadHash == r.payloadHash
             case Failure(error) => error == IdempotencyConflict && w.db.keys[r.keyHash].payloadHash != r.payloadHash)
  }

  ghost predicate RacersOk(w: World) {
    forall p :: p in w.procs && w.procs[p].Creating? && w.procs[p].phase == Racing ==>
      w.procs[p].key.keyHash in w.db.keys || w.procs[p].key.keyHash in w.hist.purgedKeys
  }

  ghost predicate ReplyInv(w: World) {
    (forall i :: 0 <= i < |w.hist.replies| ==> ReplyOk(w, w.hist.replies[i])) && RacersOk(w)
  }

  /** Stored keys stay as they are until they are purged. */
  ghost predicate KeysEvolve(w: World, w': World) {
    && w.hist.purgedKeys <= w'.hist.purgedKeys
    && (forall k :: k in w.db.keys ==> k in w'.hist.purgedKeys || (k in w'.db.keys && w'.db.keys[k] == w.db.keys[k]))
  }

  lemma {:induction false} InsertKeys(c: Config, w: World, p: Id)
    requires DoInsert(w, p).Some?
    ensures KeysEvolve(w, DoInsert(w, p).value)
  {}

  lemma {:induction false} MarkKeys(w: World, p: Id, now: Time)
    requires DoMark(w, p, now).Some?
    ensures DoMark(w, p, now).value.db.keys == w.db.keys && DoMark(w, p, now).value.hist == w.hist
  {}

  lemma {:induction false} StepKeys(c: Config, w: World, p: Id, a: Action)
    requires Next(c, w, p, a).Some?
    ensures KeysEvolve(w, Next(c, w, p, a).value)
  {
    var w' := Next(c, w, p, a).value;
    match a
    case Insert => InsertKeys(c, w, p);
    case Mark(now) => MarkKeys(w, p, now);
    case PurgeJobs(_) => assert w' == Deleted(w, w'.db);
    case PurgeKeys(_) => assert w' == Deleted(w, w'.db);
    case EraseOwner(_) => assert w' == Deleted(w, w'.db);
    case _ => assert w'.db.keys == w.db.keys;
  }

  /** What a found key answers. */
  lemma {:induction false} FoundReply(w: World, key: Idempotency)
    requires DbOk(w) && key.keyHash in w.db.keys
    ensures var r := FindExisting(w.db, key).value;
      if w.db.keys[key.keyHash].payloadHash == key.payloadHash
      then r.Success? && r.value.jobId == w.db.keys[key.keyHash].jobId
      else r == Failure(IdempotencyConflict)
  {
    assert KeyStored(w.db, key.keyHash);
    assert JobOk(w, w.db.keys[key.keyHash].jobId);
  }

  /** An identifier without an event belongs to no stored row. */
  lemma {:induction false} UnknownIds(w: World, jobId: Id, eventId: Id)
    requires DbOk(w) && jobId !in w.hist.eventOf && forall id :: id in w.hist.eventOf ==> w.hist.eventOf[id] != eventId
    ensures jobId !in w.db.jobs && eventId !in w.db.outbox
    ensures forall e :: e in w.db.outbox ==> w.db.outbox[e].jobId != jobId
    ensures forall k :: k in w.db.keys ==> w.db.keys[k].jobId != jobId
  {
    assert jobId in w.db.jobs ==> JobOk(w, jobId);
    assert forall e :: e in w.db.outbox ==> RowStored(w, e);
    assert forall k :: k in w.db.keys ==> KeyStored(w.db, k);
  }

  /** A creator whose identifiers are its own is refused only because the key is taken. */
  lemma {:induction false} OnlyTheKeyCollides(c: Config, w: World, p: Id)
    requires DbOk(w) && CreatorsOk(w) && ProcOk(c, w, ProcOf(w, p))
    requires p in w.procs && w.procs[p].Creating? && w.procs[p].phase == Inserting
    ensures InsertAllowed(w.db, w.procs[p].job, w.procs[p].event, w.procs[p].key) <==>
      w.procs[p].key.keyHash !in w.db.keys
  {
    hide DbOk;
    var proc := w.procs[p];
    UnknownIds(w, proc.job.jobId, proc.event.eventId);
  }

  ghost predicate OneReply(w: World, w': World, key: Idempotency) {
    exists outcome ::
      && w'.hist.replies == w.hist.replies + [Reply(key.keyHash, key.payloadHash, outcome)]
      && ReplyOk(w', Reply(key.keyHash, key.payloadHash, outcome))
  }

  lemma {:induction false} StepReplies(c: Config, w: World, p: Id, a: Action)
    requires DbOk(w) && CreatorsOk(w) && ProcOk(c, w, ProcOf(w, p)) && RacersOk(w) && Next(c, w, p, a).Some?
    ensures var w' := Next(c, w, p, a).value;
      || w'.hist.replies == w.hist.replies
      || (p in w.procs && w.procs[p].Creating? && OneReply(w, w', w.procs[p].key))
  {
    var w' := Next(c, w, p, a).value;
    if (a.LookUp? || a.Insert? || a.ReadBack?) && w'.hist.replies != w.hist.replies {
      var key := w.procs[p].key;
      if key.keyHash in w.db.keys {
        FoundReply(w, key);
      }
      if a.Insert? {
        OnlyTheKeyCollides(c, w, p);
      }
      var reply := w'.hist.replies[|w.hist.replies|];
      assert w'.hist.replies == w.hist.replies + [reply];
      assert reply == Reply(key.keyHash, key.payloadHash, reply.outcome);
      assert ReplyOk(w', reply);
    }
  }

  lemma {:induction false} StepRacers(c: Config, w: World, p: Id, a: Action)
    requires DbOk(w) && CreatorsOk(w) && ProcOk(c, w, ProcOf(w, p)) && RacersOk(w) && Next(c, w, p, a).Some?
    ensures RacersOk(Next(c, w, p, a).value)
  {
    hide DbOk, CreatorsOk, InsertAllowed;
    var w' := Next(c, w, p, a).value;
    StepKeys(c, w, p, a);
    StepFrame(c, w, p, a);
    if a.Insert? {
      OnlyTheKeyCollides(c, w, p);
    }
  }

  /** What a creator that reads the key is told, at its first look or after a refused insert: the stored job for the
      same payload, a conflict for another one; without the key it goes on to insert, or the error of its
      refused insert stands. */
  lemma {:induction false} ReadersAreAnswered(w: World, p: Id)
    requires DbOk(w) && p in w.procs && w.procs[p].Creating? && w.procs[p].phase != Inserting
    ensures var proc := w.procs[p];
      var w' := (if proc.phase == LookingUp then DoLookUp(w, p) else DoReadBack(w, p)).value;
      var stored, asked := w.db.keys, proc.key;
      if asked.keyHash in stored then
        && ProcOf(w', p) == Resting
        && w'.hist.replies == w.hist.replies + [Reply(asked.keyHash, asked.payloadHash,
             if stored[asked.keyHash].payloadHash == asked.payloadHash then Success(stored[asked.keyHash].jobId)
             else Failure(IdempotencyConflict))]
      else if proc.phase == Racing then
        && ProcOf(w', p) == Resting
        && w'.hist.replies == w.hist.replies + [Reply(asked.keyHash, asked.payloadHash, Failure(IntegrityError))]
      else
        ProcOf(w', p) == proc.(phase := Inserting) && w'.hist.replies == w.hist.replies
  {
    if w.procs[p].key.keyHash in w.db.keys {
      FoundReply(w, w.procs[p].key);
    }
  }

  /** A creator that inserts is answered with its own job, which is then stored with its row and its key. */
  lemma {:induction false} InsertersAreAnswered(c: Config, w: World, p: Id)
    requires DbOk(w) && CreatorsOk(w) && ProcOk(c, w, ProcOf(w, p))
    requires p in w.procs && w.procs[p].Creating? && w.procs[p].phase == Inserting
    ensures var w', proc := DoInsert(w, p).value, w.procs[p];
      if proc.key.keyHash in w.db.keys then
        w'.db == w.db && w'.hist.replies == w.hist.replies && ProcOf(w', p) == proc.(phase := Racing)
      else
        && ProcOf(w', p) == Resting
        && w'.hist.replies == w.hist.replies
             + [Reply(proc.key.keyHash, proc.key.payloadHash, Success(proc.job.jobId))]
        && w'.db.jobs == w.db.jobs[proc.job.jobId := proc.job]
        && w'.db.outbox == w.db.outbox[proc.event.eventId := proc.event]
        && w'.db.keys == w.db.keys[proc.key.keyHash := proc.key]
  {
    hide DbOk, CreatorsOk, InsertAllowed;
    OnlyTheKeyCollides(c, w, p);
  }

  lemma {:induction false} StepKeepsReplies(c: Config, w: World, p: Id, a: Action)
    requires CoreInv(c, w) && ReplyInv(w) && Next(c, w, p, a).Some?
    ensures ReplyInv(Next(c, w, p, a).value)
  {
    hide DbOk, StreamsOk, CoverOk, CreatorsOk, PcOk;
    var w' := Next(c, w, p, a).value;
    assert ProcOk(c, w, ProcOf(w, p));
    StepKeys(c, w, p, a);
    StepReplies(c, w, p, a);
    StepRacers(c, w, p, a);
    forall i | 0 <= i < |w'.hist.replies| ensures ReplyOk(w', w'.hist.replies[i]) {
      if i < |w.hist.replies| {
        assert ReplyOk(w, w.hist.replies[i]) && w'.hist.replies[i] == w.hist.replies[i];
      }
    }
  }
}
