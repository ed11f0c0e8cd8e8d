/** No reachable state of the job protocol is a trap: whatever has crashed, some continuation still
    completes any given unfinished job. */
module JobProgress {
  import opened Wrappers
  import opened JobModels
  import opened JobRepository
  import opened RedisQueue
  import opened WorkerSteps
  import opened JobProtocol
  import opened JobInvariant
  import opened JobSafety

  lemma {:induction false} FreshId(ids: set<Id>) returns (unused: Id)
    ensures forall id :: id in ids ==> id < unused
    decreases ids
  {
    if ids == {} {
      unused := 0;
    } else {
      var id :| id in ids;
      var above := FreshId(ids - {id});
      assert ids == (ids - {id}) + {id};
      unused := if above > id then above else id + 1;
    }
  }

  lemma {:induction false} RunOne(c: Config, w: World, p: Id, a: Action)
    ensures Run(c, w, [Step(p, a)]) == Next(c, w, p, a)
  {
    if Next(c, w, p, a).Some? {
      assert Run(c, Next(c, w, p, a).value, []) == Next(c, w, p, a);
    }
  }

  lemma {:induction false} RunThen(c: Config, w: World, s: seq<Step>, p: Id, a: Action)
    requires Run(c, w, s).Some?
    ensures Run(c, w, s + [Step(p, a)]) == Next(c, Run(c, w, s).value, p, a)
  {
    RunConcat(c, w, s, [Step(p, a)]);
    RunOne(c, Run(c, w, s).value, p, a);
  }

  /** The one row of a job that waits for its first publication. */
  lemma {:induction false} AcceptedRow(w: World, id: Id) returns (row: Outbox)
    requires DbOk(w) && id in w.db.jobs && w.db.jobs[id].status == Accepted
    ensures Unpublished(w.db, row.eventId) && w.db.outbox[row.eventId] == row && row.jobId == id
  {
    assert JobOk(w, id);
    row := w.db.outbox[w.hist.eventOf[id]];
    assert RowStored(w, w.hist.eventOf[id]);
  }

  /** A fresh dispatcher publishes the job's row and marks it. */
  lemma {:induction false} PublishJob(c: Config, w: World, p: Id, id: Id) returns (s: seq<Step>)
    requires DbOk(w) && ProcOf(w, p) == Resting
    requires id in w.db.jobs && w.db.jobs[id].status == Accepted
    ensures Run(c, w, s).Some?
    ensures var w' := Run(c, w, s).value;
      ProcOf(w', p) == Resting && id in w'.db.jobs && w'.db.jobs[id].status == Queued
  {
    hide DbOk;
    var row := AcceptedRow(w, id);
    s := [Step(p, List([row]))];
    RunOne(c, w, p, List([row]));
    var w1 := Run(c, w, s).value;
    assert ProcOf(w1, p) == Publishing([row]) && w1.db == w.db;
    RunThen(c, w, s, p, Publish);
    s := s + [Step(p, Publish)];
    var w2 := Run(c, w, s).value;
    assert ProcOf(w2, p) == Marking([row]) && w2.db == w.db;
    RunThen(c, w, s, p, Mark(0));
    s := s + [Step(p, Mark(0))];
  }

  /** A consumer that keeps crashing still moves every entry up to `i` into the pending list. */
  lemma {:induction false} DeliverUpTo(c: Config, w: World, p: Id, k: JobKind, i: nat) returns (s: seq<Step>)
    requires StreamOk(StreamOf(w, k)) && ProcOf(w, p) == Resting && Unacked(StreamOf(w, k), i)
    ensures Run(c, w, s).Some?
    ensures var w' := Run(c, w, s).value;
      && ProcOf(w', p) == Resting && w'.db == w.db && w'.used == w.used
      && StreamOf(w', k).entries == StreamOf(w, k).entries
      && i in StreamOf(w', k).pending
    decreases |StreamOf(w, k).entries| - StreamOf(w, k).cursor
  {
    if i in StreamOf(w, k).pending {
      s := [];
    } else {
      var read := [Step(p, Consume(k, ReadNew))];
      RunOne(c, w, p, Consume(k, ReadNew));
      RunThen(c, w, read, p, Crash);
      read := read + [Step(p, Crash)];
      var w1 := Run(c, w, read).value;
      var rest := DeliverUpTo(c, w1, p, k, i);
      RunConcat(c, w, read, rest);
      s := read + rest;
    }
  }

  /** A worker reclaims the pending entry and claims the job, if need be once the lease has lapsed. */
  lemma {:induction false} ClaimPending(c: Config, w: World, p: Id, id: Id, i: nat) returns (s: seq<Step>)
    requires c.leaseDuration > 0 && ProcOf(w, p) == Resting
    requires id in w.db.jobs && w.db.jobs[id].jobId == id && RecordOk(w.db.jobs[id])
    requires !w.db.jobs[id].status.IsTerminal() && w.db.jobs[id].status != Accepted
    requires var stream := StreamOf(w, w.db.jobs[id].kind);
      i in stream.pending && i < |stream.entries| && stream.entries[i].message.jobId == id
    ensures Run(c, w, s).Some?
    ensures var w' := Run(c, w, s).value;
      && id in w'.db.jobs && w'.db.jobs[id].status == Running && w'.db.jobs[id].jobId == id
      && ProcOf(w', p).Working? && ProcOf(w', p).pc.Executing? && ProcOf(w', p).pc.job == w'.db.jobs[id]
      && w'.db.jobs[id].leaseToken == Some(ProcOf(w', p).pc.token)
  {
    var job := w.db.jobs[id];
    var token := FreshId(w.used);
    var now := if job.leaseExpiresAt.Some? then job.leaseExpiresAt.value else 0;
    ClaimMeaning(job, now, c.leaseDuration, token);
    s := [Step(p, Consume(job.kind, Reclaim(i)))];
    RunOne(c, w, p, Consume(job.kind, Reclaim(i)));
    var w1 := Run(c, w, s).value;
    assert w1.db == w.db && w1.used == w.used && ProcOf(w1, p).pc.d.message.jobId == id;
    RunThen(c, w, s, p, TryClaim(now, token));
    s := s + [Step(p, TryClaim(now, token))];
  }

  /** An executing worker that still holds the lease completes the job. */
  lemma {:induction false} CompleteClaimed(c: Config, w: World, p: Id, id: Id) returns (s: seq<Step>)
    requires id in w.db.jobs && w.db.jobs[id].status == Running && w.db.jobs[id].jobId == id
    requires ProcOf(w, p).Working? && ProcOf(w, p).pc.Executing? && ProcOf(w, p).pc.job == w.db.jobs[id]
    requires w.db.jobs[id].leaseToken == Some(ProcOf(w, p).pc.token)
    ensures Run(c, w, s).Some?
    ensures id in Run(c, w, s).value.db.jobs && Run(c, w, s).value.db.jobs[id].status == Succeeded
  {
    s := [Step(p, Handle(Completed))];
    RunOne(c, w, p, Handle(Completed));
    RunThen(c, w, s, p, TryFinish(0));
    s := s + [Step(p, TryFinish(0))];
  }

  /** What the invariant says of one unfinished job. */
  lemma {:induction false} UnfinishedJob(c: Config, w: World, id: Id)
    requires Inv(c, w) && id in w.db.jobs && !w.db.jobs[id].status.IsTerminal()
    ensures w.db.jobs[id].jobId == id && RecordOk(w.db.jobs[id]) && StreamOk(StreamOf(w, w.db.jobs[id].kind))
    ensures w.db.jobs[id].status != Accepted ==> Holds(StreamOf(w, w.db.jobs[id].kind), id)
  {
    assert JobOk(w, id);
  }

  lemma {:induction false} UnfinishedJobsCanComplete(c: Config, w: World, id: Id) returns (s: seq<Step>)
    requires c.maxAttempts >= 1 && c.leaseDuration > 0 && Reachable(c, w)
    requires id in w.db.jobs && !w.db.jobs[id].status.IsTerminal()
    ensures Run(c, w, s).Some?
    ensures id in Run(c, w, s).value.db.jobs && Run(c, w, s).value.db.jobs[id].status == Succeeded
  {
    hide Inv, Next;
    ReachableInv(c, w);
    var p := FreshId(w.procs.Keys);
    s := [];
    if w.db.jobs[id].status == Accepted {
      s := PublishJob(c, w, p, id);
    }
    RunKeepsInv(c, w, s);
    var w1 := Run(c, w, s).value;
    var k := w1.db.jobs[id].kind;
    UnfinishedJob(c, w1, id);
    var i: nat :| Unacked(StreamOf(w1, k), i) && StreamOf(w1, k).entries[i].message.jobId == id;

    var deliver := DeliverUpTo(c, w1, p, k, i);
    RunKeepsInv(c, w1, deliver);
    var w2 := Run(c, w1, deliver).value;
    UnfinishedJob(c, w2, id);
    var claim := ClaimPending(c, w2, p, id, i);
    var complete := CompleteClaimed(c, Run(c, w2, claim).value, p, id);
    RunConcat(c, w2, claim, complete);
    RunConcat(c, w1, deliver, claim + complete);
    RunConcat(c, w, s, deliver + (claim + complete));
    s := s + (deliver + (claim + complete));
  }

  // ---- a lease that is not positive ----

  /** A creator accepts a request, looks its key up and stores the job. */
  lemma {:induction false} CreateJob(c: Config, p: Id) returns (s: seq<Step>)
    ensures Run(c, Init(), s).Some?
    ensures var w := Run(c, Init(), s).value;
      ProcOf(w, p) == Resting && 0 in w.db.jobs && w.db.jobs[0].status == Accepted
  {
    var w, a := Init(), Accept(Coach, 0, map[], 0, 0, 0, 0, 1);
    s := [Step(p, a)];
    RunOne(c, w, p, a);
    RunThen(c, w, s, p, LookUp);
    s := s + [Step(p, LookUp)];
    var w2 := Run(c, w, s).value;
    assert ProcOf(w2, p).Creating? && w2.db == w.db;
    RunThen(c, w, s, p, Insert);
    s := s + [Step(p, Insert)];
  }

  /** With such a lease duration, and only then, the raise of a claim is met: a job that has just been created,
      published and marked makes the claim of any worker raise. */
  lemma {:induction false} ClaimCanRaise(c: Config, now: Time, token: Id) returns (s: seq<Step>)
    requires c.maxAttempts >= 1 && c.leaseDuration <= 0
    ensures Run(c, Init(), s).Some? && Reachable(c, Run(c, Init(), s).value)
    ensures ClaimForWork(Run(c, Init(), s).value.db, 0, now, c.leaseDuration, token).1 == Raised(InvalidLease)
  {
    hide Next, Inv;
    s := CreateJob(c, 0);
    var w := Run(c, Init(), s).value;
    ReachableInv(c, w);
    var publish := PublishJob(c, w, 0, 0);
    RunConcat(c, Init(), s, publish);
    s := s + publish;
  }
}
