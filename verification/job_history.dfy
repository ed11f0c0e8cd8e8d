/** Invariants that relate the stored records to what has happened: leases and terminal records against claims and
    finishes, attempts against claims. Only two actions matter here. A claim draws a token that was never used,
    counts one attempt and is logged with whether it took a lapsed lease over; a finish gives up the lease whose
    token it carries and is logged with its target and code. Every other action is `Quiet`: it leaves leases,
    attempts and terminal records alone, apart from new records and from records that become queued. */
module JobHistory {
  import opened Wrappers
  import opened JobModels
  import opened JobRepository
  import opened JobProtocol
  import opened JobInvariant

  // ---- reading the claim log ----

  /** The token of the latest claim of the job. */
  function LastToken(claims: seq<ClaimEvent>, id: Id): Option<Id> {
    if claims == [] then None
    else if claims[|claims| - 1].jobId == id then Some(claims[|claims| - 1].token)
    else LastToken(claims[..|claims| - 1], id)
  }

  function Claims(claims: seq<ClaimEvent>, id: Id): nat {
    if claims == [] then 0
    else Claims(claims[..|claims| - 1], id) + if claims[|claims| - 1].jobId == id then 1 else 0
  }

  /** Claims that took a lapsed lease over from another worker. */
  function Takeovers(claims: seq<ClaimEvent>, id: Id): nat {
    if claims == [] then 0
    else Takeovers(claims[..|claims| - 1], id) +
         if claims[|claims| - 1].jobId == id && claims[|claims| - 1].takeover then 1 else 0
  }

  lemma {:induction false} ClaimAppended(claims: seq<ClaimEvent>, e: ClaimEvent, id: Id)
    ensures LastToken(claims + [e], id) == if e.jobId == id then Some(e.token) else LastToken(claims, id)
    ensures Claims(claims + [e], id) == Claims(claims, id) + if e.jobId == id then 1 else 0
    ensures Takeovers(claims + [e], id) == Takeovers(claims, id) + if e.jobId == id && e.takeover then 1 else 0
  {
    assert (claims + [e])[..|claims|] == claims;
  }

  lemma {:induction false} NeverClaimed(claims: seq<ClaimEvent>, id: Id)
    requires forall i :: 0 <= i < |claims| ==> claims[i].jobId != id
    ensures Claims(claims, id) == 0 && LastToken(claims, id) == None && Takeovers(claims, id) == 0
  {
    if claims != [] {
      NeverClaimed(claims[..|claims| - 1], id);
    }
  }

  // ---- the invariants ----

  ghost predicate WasClaimed(claims: seq<ClaimEvent>, id: Id, token: Id) {
    exists i :: 0 <= i < |claims| && claims[i].jobId == id && claims[i].token == token
  }

  ghost predicate LeaseInv(w: World) {
    && (forall i :: 0 <= i < |w.hist.claims| ==>
          w.hist.claims[i].token in w.used && w.hist.claims[i].jobId in w.hist.eventOf)
    && (forall i, j :: 0 <= i < j < |w.hist.claims| ==> w.hist.claims[i].token != w.hist.claims[j].token)
    && (forall id :: id in w.db.jobs && w.db.jobs[id].leaseToken.Some? ==>
          LastToken(w.hist.claims, id) == w.db.jobs[id].leaseToken && w.db.jobs[id].leaseToken.value in w.used)
  }

  ghost predicate FinishInv(w: World) {
    && (forall i :: 0 <= i < |w.hist.finishes| ==>
          && w.hist.finishes[i].token in w.used
          && WasClaimed(w.hist.claims, w.hist.finishes[i].jobId, w.hist.finishes[i].token)
          && forall id :: id in w.db.jobs ==> w.db.jobs[id].leaseToken != Some(w.hist.finishes[i].token))
    && (forall i, j :: 0 <= i < j < |w.hist.finishes| ==> w.hist.finishes[i].token != w.hist.finishes[j].token)
  }

  ghost predicate FinalInv(w: World) {
    && (forall i :: 0 <= i < |w.hist.finishes| && w.hist.finishes[i].target.IsTerminal() ==>
          var f := w.hist.finishes[i];
          && f.jobId in w.hist.eventOf
          && (f.jobId in w.db.jobs ==>
                w.db.jobs[f.jobId].status == f.target && w.db.jobs[f.jobId].failureCode == f.code))
    && (forall i, j :: 0 <= i < j < |w.hist.finishes| ==>
          w.hist.finishes[i].target.IsTerminal() && w.hist.finishes[j].target.IsTerminal() ==>
          w.hist.finishes[i].jobId != w.hist.finishes[j].jobId)
  }

  ghost predicate BudgetOk(c: Config, claims: seq<ClaimEvent>, job: Job) {
    && job.attempt == Claims(claims, job.jobId)
    && (job.status == RetryWait ==> job.attempt < c.maxAttempts)
    && job.attempt <= c.maxAttempts + Takeovers(claims, job.jobId)
  }

  ghost predicate BudgetInv(c: Config, w: World) {
    forall id :: id in w.db.jobs ==> BudgetOk(c, w.hist.claims, w.db.jobs[id])
  }

  /** Nothing but a claim or a finish touches a lease or an attempt count. */
  ghost predicate Quiet(w: World, w': World) {
    && w'.hist.claims == w.hist.claims && w'.hist.finishes == w.hist.finishes
    && w.used <= w'.used
    && (forall id :: id in w.hist.eventOf ==> id in w'.hist.eventOf)
    && (forall id :: id in w'.db.jobs ==>
          var j' := w'.db.jobs[id];
          if id in w.db.jobs then
            var j := w.db.jobs[id];
            || j' == j
            || (&& j.status == Accepted && j'.status == Queued
                && j'.leaseToken == None && j'.attempt == j.attempt && j'.jobId == j.jobId)
          else
            && id !in w.hist.eventOf && j'.status == Accepted
            && j'.leaseToken == None && j'.attempt == 0 && j'.jobId == id)
  }

  lemma {:induction false} QuietMark(c: Config, w: World, p: Id, now: Time)
    requires DbOk(w) && DoMark(w, p, now).Some?
    ensures Quiet(w, DoMark(w, p, now).value)
  {
    var e := w.procs[p].batch[0].eventId;
    if Unpublished(w.db, e) {
      assert RowStored(w, e);
      assert JobOk(w, w.db.outbox[e].jobId);
    }
  }

  lemma {:induction false} QuietInsert(c: Config, w: World, p: Id)
    requires CreatorsOk(w) && ProcOk(c, w, ProcOf(w, p)) && DoInsert(w, p).Some?
    ensures Quiet(w, DoInsert(w, p).value)
  {}

  lemma {:induction false} QuietStep(c: Config, w: World, p: Id, a: Action)
    requires CoreInv(c, w) && Next(c, w, p, a).Some?
    requires !a.TryClaim? && !a.TryFinish?
    ensures Quiet(w, Next(c, w, p, a).value)
  {
    match a
    case Mark(now) => QuietMark(c, w, p, now);
    case Insert =>
      assert ProcOk(c, w, ProcOf(w, p));
      QuietInsert(c, w, p);
    case _ =>
  }

  lemma {:induction false} QuietKeeps(c: Config, w: World, w': World)
    requires DbOk(w) && Quiet(w, w') && LeaseInv(w) && FinishInv(w) && FinalInv(w) && BudgetInv(c, w)
    ensures LeaseInv(w') && FinishInv(w') && FinalInv(w') && BudgetInv(c, w')
  {
    forall id | id in w'.db.jobs ensures BudgetOk(c, w'.hist.claims, w'.db.jobs[id]) {
      if id in w.db.jobs {
        assert BudgetOk(c, w.hist.claims, w.db.jobs[id]);
      } else {
        NeverClaimed(w.hist.claims, id);
      }
    }
  }

  lemma {:induction false} ClaimKeeps(c: Config, w: World, p: Id, now: Time, token: Id)
    requires DbOk(w) && LeaseInv(w) && FinishInv(w) && FinalInv(w) && BudgetInv(c, w) && c.maxAttempts >= 1
    requires DoClaim(c, w, p, now, token).Some?
    ensures var w' := DoClaim(c, w, p, now, token).value;
      LeaseInv(w') && FinishInv(w') && FinalInv(w') && BudgetInv(c, w')
  {
    hide LeaseInv, FinishInv, FinalInv, BudgetOk;
    var w' := DoClaim(c, w, p, now, token).value;
    var id := w.procs[p].pc.d.message.jobId;
    var r := ClaimForWork(w.db, id, now, c.leaseDuration, token).1;
    if !r.Claimed? {
      assert Quiet(w, w');
      QuietKeeps(c, w, w');
    } else {
      var e := ClaimEvent(id, token, w.db.jobs[id].status == Running);
      assert JobOk(w, id) && BudgetOk(c, w.hist.claims, w.db.jobs[id]);
      ClaimMeaning(w.db.jobs[id], now, c.leaseDuration, token);
      ClaimRecorded(c, w, w', id, r.job, e);
    }
  }

  ghost predicate ClaimsOnce(w: World, w': World, id: Id, job: Job, e: ClaimEvent) {
    && id in w.db.jobs && w'.db.jobs == w.db.jobs[id := job]
    && e.jobId == id && e.token !in w.used && e.takeover == (w.db.jobs[id].status == Running)
    && w'.used == w.used + {e.token} && w'.hist.eventOf == w.hist.eventOf
    && w'.hist.claims == w.hist.claims + [e] && w'.hist.finishes == w.hist.finishes
    && job.jobId == id && job.status == Running && job.leaseToken == Some(e.token)
    && job.attempt == w.db.jobs[id].attempt + 1
    && (w.db.jobs[id].status == Queued ==> w.db.jobs[id].attempt == 0)
    && (w.db.jobs[id].status == Queued || w.db.jobs[id].status == RetryWait || w.db.jobs[id].status == Running)
  }

  lemma {:induction false} ClaimedLeases(c: Config, w: World, w': World, id: Id, job: Job, e: ClaimEvent)
    requires DbOk(w) && LeaseInv(w) && FinishInv(w) && ClaimsOnce(w, w', id, job, e)
    ensures LeaseInv(w') && FinishInv(w')
  {
    assert JobOk(w, id);
    hide DbOk;
    forall j | j in w'.db.jobs && w'.db.jobs[j].leaseToken.Some?
      ensures LastToken(w'.hist.claims, j) == w'.db.jobs[j].leaseToken && w'.db.jobs[j].leaseToken.value in w'.used
    {
      ClaimAppended(w.hist.claims, e, j);
    }
    forall i | 0 <= i < |w'.hist.finishes|
      ensures WasClaimed(w'.hist.claims, w'.hist.finishes[i].jobId, w'.hist.finishes[i].token)
    {
      var n :| 0 <= n < |w.hist.claims| && w.hist.claims[n].jobId == w.hist.finishes[i].jobId &&
               w.hist.claims[n].token == w.hist.finishes[i].token;
      assert w'.hist.claims[n] == w.hist.claims[n];
    }
  }

  lemma {:induction false} ClaimedFinals(c: Config, w: World, w': World, id: Id, job: Job, e: ClaimEvent)
    requires FinalInv(w) && ClaimsOnce(w, w', id, job, e)
    ensures FinalInv(w')
  {}

  lemma {:induction false} ClaimedBudget(c: Config, w: World, w': World, id: Id, job: Job, e: ClaimEvent)
    requires DbOk(w) && BudgetInv(c, w) && c.maxAttempts >= 1 && ClaimsOnce(w, w', id, job, e)
    ensures BudgetInv(c, w')
  {
    forall j | j in w'.db.jobs ensures BudgetOk(c, w'.hist.claims, w'.db.jobs[j]) {
      assert JobOk(w, j) && BudgetOk(c, w.hist.claims, w.db.jobs[j]);
      ClaimAppended(w.hist.claims, e, j);
    }
  }

  lemma {:induction false} ClaimRecorded(c: Config, w: World, w': World, id: Id, job: Job, e: ClaimEvent)
    requires DbOk(w) && LeaseInv(w) && FinishInv(w) && FinalInv(w) && BudgetInv(c, w) && c.maxAttempts >= 1
    requires ClaimsOnce(w, w', id, job, e)
    ensures LeaseInv(w') && FinishInv(w') && FinalInv(w') && BudgetInv(c, w')
  {
    hide LeaseInv, FinishInv, FinalInv, BudgetInv, DbOk, ClaimsOnce;
    ClaimedLeases(c, w, w', id, job, e);
    ClaimedFinals(c, w, w', id, job, e);
    ClaimedBudget(c, w, w', id, job, e);
  }

  lemma {:induction false} FinishKeeps(c: Config, w: World, p: Id, now: Time)
    requires DbOk(w) && ProcOk(c, w, ProcOf(w, p))
    requires LeaseInv(w) && FinishInv(w) && FinalInv(w) && BudgetInv(c, w)
    requires DoFinish(w, p, now).Some?
    ensures var w' := DoFinish(w, p, now).value;
      LeaseInv(w') && FinishInv(w') && FinalInv(w') && BudgetInv(c, w')
  {
    var w' := DoFinish(w, p, now).value;
    var pc := w.procs[p].pc;
    var id := pc.job.jobId;
    var r := Finish(w.db, id, pc.target, now, pc.token, pc.code).1;
    if r.Failure? {
      assert Quiet(w, w');
      QuietKeeps(c, w, w');
    } else {
      assert JobOk(w, id);
      FinishMeaning(w.db.jobs[id], pc.target, now, pc.token, pc.code);
      FinishRecorded(c, w, w', id, r.value, FinishEvent(id, pc.token, pc.target, pc.code));
    }
  }

  ghost predicate FinishesOnce(c: Config, w: World, w': World, id: Id, job: Job, f: FinishEvent) {
    && id in w.db.jobs && w'.db.jobs == w.db.jobs[id := job]
    && f.jobId == id && w.db.jobs[id].leaseToken == Some(f.token) && !w.db.jobs[id].status.IsTerminal()
    && w'.used == w.used && w'.hist.eventOf == w.hist.eventOf
    && w'.hist.claims == w.hist.claims && w'.hist.finishes == w.hist.finishes + [f]
    && job.jobId == id && job.status == f.target && job.failureCode == f.code && job.leaseToken == None
    && job.attempt == w.db.jobs[id].attempt
    && (f.target == RetryWait ==> job.attempt < c.maxAttempts)
  }

  lemma {:induction false} LastTokenWasClaimed(claims: seq<ClaimEvent>, id: Id)
    requires LastToken(claims, id).Some?
    ensures WasClaimed(claims, id, LastToken(claims, id).value)
  {
    if claims[|claims| - 1].jobId != id {
      LastTokenWasClaimed(claims[..|claims| - 1], id);
      var i :| 0 <= i < |claims| - 1 && claims[..|claims| - 1][i].jobId == id &&
               claims[..|claims| - 1][i].token == LastToken(claims, id).value;
      assert claims[i].jobId == id;
    }
  }

  /** A token held by one stored job is held by no other. */
  lemma {:induction false} LeasesDiffer(w: World, id: Id, other: Id)
    requires LeaseInv(w) && id in w.db.jobs && other in w.db.jobs && id != other
    requires w.db.jobs[id].leaseToken.Some?
    ensures w.db.jobs[id].leaseToken != w.db.jobs[other].leaseToken
  {
    LastTokenWasClaimed(w.hist.claims, id);
    if w.db.jobs[other].leaseToken.Some? {
      LastTokenWasClaimed(w.hist.claims, other);
    }
  }

  lemma {:induction false} FinishedLeases(c: Config, w: World, w': World, id: Id, job: Job, f: FinishEvent)
    requires DbOk(w) && LeaseInv(w) && FinishInv(w) && FinishesOnce(c, w, w', id, job, f)
    ensures LeaseInv(w') && FinishInv(w')
  {
    hide DbOk;
    LastTokenWasClaimed(w.hist.claims, id);
    forall other | other in w'.db.jobs ensures w'.db.jobs[other].leaseToken != Some(f.token) {
      if other != id {
        LeasesDiffer(w, id, other);
      }
    }
    forall i | 0 <= i < |w'.hist.finishes|
      ensures WasClaimed(w'.hist.claims, w'.hist.finishes[i].jobId, w'.hist.finishes[i].token)
      ensures forall other :: other in w'.db.jobs ==> w'.db.jobs[other].leaseToken != Some(w'.hist.finishes[i].token)
      ensures w'.hist.finishes[i].token in w'.used
    {
      if i < |w.hist.finishes| {
        assert w'.hist.finishes[i] == w.hist.finishes[i];
      }
    }
  }

  lemma {:induction false} FinishedFinals(c: Config, w: World, w': World, id: Id, job: Job, f: FinishEvent)
    requires DbOk(w) && FinalInv(w) && FinishesOnce(c, w, w', id, job, f)
    ensures FinalInv(w')
  {
    assert JobOk(w, id);
  }

  lemma {:induction false} FinishedBudget(c: Config, w: World, w': World, id: Id, job: Job, f: FinishEvent)
    requires DbOk(w) && BudgetInv(c, w) && FinishesOnce(c, w, w', id, job, f)
    ensures BudgetInv(c, w')
  {
    assert JobOk(w, id) && BudgetOk(c, w.hist.claims, w.db.jobs[id]);
    forall j | j in w'.db.jobs ensures BudgetOk(c, w'.hist.claims, w'.db.jobs[j]) {
      assert j != id ==> BudgetOk(c, w.hist.claims, w.db.jobs[j]);
    }
  }

  lemma {:induction false} FinishRecorded(c: Config, w: World, w': World, id: Id, job: Job, f: FinishEvent)
    requires DbOk(w) && LeaseInv(w) && FinishInv(w) && FinalInv(w) && BudgetInv(c, w)
    requires FinishesOnce(c, w, w', id, job, f)
    ensures LeaseInv(w') && FinishInv(w') && FinalInv(w') && BudgetInv(c, w')
  {
    hide LeaseInv, FinishInv, FinalInv, BudgetInv, DbOk, FinishesOnce;
    FinishedLeases(c, w, w', id, job, f);
    FinishedFinals(c, w, w', id, job, f);
    FinishedBudget(c, w, w', id, job, f);
  }

  lemma {:induction false} StepKeepsHistory(c: Config, w: World, p: Id, a: Action)
    requires CoreInv(c, w) && LeaseInv(w) && FinishInv(w) && FinalInv(w) && BudgetInv(c, w) && c.maxAttempts >= 1
    requires Next(c, w, p, a).Some?
    ensures var w' := Next(c, w, p, a).value;
      LeaseInv(w') && FinishInv(w') && FinalInv(w') && BudgetInv(c, w')
  {
    hide StreamsOk, CoverOk, CreatorsOk, PcOk, LeaseInv, FinishInv, FinalInv, BudgetInv;
    assert ProcOk(c, w, ProcOf(w, p));
    match a
    case TryClaim(now, token) => ClaimKeeps(c, w, p, now, token);
    case TryFinish(now) => FinishKeeps(c, w, p, now);
    case _ => QuietStep(c, w, p, a); QuietKeeps(c, w, Next(c, w, p, a).value);
  }
}
