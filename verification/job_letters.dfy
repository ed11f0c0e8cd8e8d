/** Dead letters over whole runs, whether or not their jobs are still stored: each is explained by a failed
    finish or by a job that was gone when its delivery arrived, and no job fails into two of them. */
module JobLetters {
  import opened Wrappers
  import opened JobModels
  import opened RedisQueue
  import opened WorkerSteps
  import opened JobProtocol
  import opened JobInvariant
  import opened JobSteps
  import opened JobHistory

  predicate IsDeadLettering(proc: Proc) {
    proc.Working? && proc.pc.DeadLettering?
  }

  /** Some finish failed the job with this code. */
  ghost predicate FailedBy(w: World, id: Id, code: Code) {
    exists n :: 0 <= n < |w.hist.finishes| && w.hist.finishes[n].jobId == id
      && w.hist.finishes[n].target == Failed && w.hist.finishes[n].code == Some(code)
  }

  /** The job was stored once and is gone. */
  ghost predicate Gone(w: World, id: Id) {
    id in w.hist.eventOf && id !in w.db.jobs
  }

  ghost predicate Explained(w: World, id: Id, code: Code) {
    FailedBy(w, id, code) || (code == MISSING_CODE && Gone(w, id))
  }

  /** A letter that cannot be for a missing job. */
  ghost predicate Failing(w: World, id: Id, code: Code) {
    code != MISSING_CODE || id in w.db.jobs
  }

  /** The letter that process `p` is about to write. */
  function Pending(w: World, p: Id): Option<(Id, Code)> {
    if IsDeadLettering(ProcOf(w, p)) then Some((ProcOf(w, p).pc.d.message.jobId, ProcOf(w, p).pc.deadCode)) else None
  }

  ghost predicate EntryOk(w: World, k: JobKind, f: FailedEntry) {
    MessageOk(w, k, f.message) && Explained(w, f.message.jobId, f.failureCode)
  }

  ghost predicate WrittenExplained(w: World) {
    forall k, i :: 0 <= i < |StreamOf(w, k).failed| ==> EntryOk(w, k, StreamOf(w, k).failed[i])
  }

  ghost predicate PendingExplained(w: World) {
    forall p :: Pending(w, p).Some? ==> Explained(w, Pending(w, p).value.0, Pending(w, p).value.1)
  }

  /** Two written letters of one job, neither for a missing job. */
  ghost predicate Twice(w: World, f: FailedEntry, g: FailedEntry) {
    f.message.jobId == g.message.jobId
      && Failing(w, f.message.jobId, f.failureCode) && Failing(w, g.message.jobId, g.failureCode)
  }

  ghost predicate WrittenOnce(w: World) {
    forall k, i: nat, l, j: nat :: i < |StreamOf(w, k).failed| && j < |StreamOf(w, l).failed| ==>
      Twice(w, StreamOf(w, k).failed[i], StreamOf(w, l).failed[j]) ==> k == l && i == j
  }

  /** A pending letter that is not for a missing job is the first and the only one of its job. */
  ghost predicate PendingFirst(w: World, p: Id) {
    Pending(w, p).Some? && Failing(w, Pending(w, p).value.0, Pending(w, p).value.1) ==>
      forall k, i :: 0 <= i < |StreamOf(w, k).failed| ==>
        StreamOf(w, k).failed[i].message.jobId == Pending(w, p).value.0 ==>
          !Failing(w, Pending(w, p).value.0, StreamOf(w, k).failed[i].failureCode)
  }

  ghost predicate PendingApart(w: World, p: Id, q: Id) {
    p != q && Pending(w, p).Some? && Pending(w, q).Some? && Pending(w, p).value.0 == Pending(w, q).value.0 ==>
      || !Failing(w, Pending(w, p).value.0, Pending(w, p).value.1)
      || !Failing(w, Pending(w, q).value.0, Pending(w, q).value.1)
  }

  ghost predicate PendingOnce(w: World) {
    (forall p :: PendingFirst(w, p)) && (forall p, q :: PendingApart(w, p, q))
  }

  ghost predicate LetterInv(w: World) {
    WrittenExplained(w) && PendingExplained(w) && WrittenOnce(w) && PendingOnce(w)
  }

  /** Steps that write no dead letter keep the failed streams, and only claims and finishes begin one. */
  lemma {:induction false} OthersWrite(c: Config, w: World, p: Id, a: Action)
    requires Next(c, w, p, a).Some?
    ensures var w' := Next(c, w, p, a).value;
      && ((a.Settle? && IsDeadLettering(ProcOf(w, p))) || forall k :: StreamOf(w', k).failed == StreamOf(w, k).failed)
      && (a.TryClaim? || a.TryFinish? || Pending(w', p) == None || Pending(w', p) == Pending(w, p))
  {}

  // ---- explanations last ----

  lemma {:induction false} StillExplained(w: World, w': World, id: Id, code: Code)
    requires Explained(w, id, code) && JobsEvolve(w, w') && HistoryEvolves(w, w')
    ensures Explained(w', id, code)
  {
    if FailedBy(w, id, code) {
      var n :| 0 <= n < |w.hist.finishes| && w.hist.finishes[n].jobId == id
        && w.hist.finishes[n].target == Failed && w.hist.finishes[n].code == Some(code);
      assert w'.hist.finishes[n] == w.hist.finishes[n];
    }
  }

  /** A job that has a letter was stored, so it does not come back. */
  lemma {:induction false} WasFailing(w: World, w': World, id: Id, code: Code, other: Code)
    requires Explained(w, id, code) && FinalInv(w) && JobsEvolve(w, w') && Failing(w', id, other)
    ensures Failing(w, id, other)
  {}

  /** A running job has no letter of its own. */
  lemma {:induction false} RunningIsUnexplained(w: World, id: Id, code: Code)
    requires FinalInv(w) && id in w.db.jobs && w.db.jobs[id].status == Running
    ensures !Explained(w, id, code)
  {}

  /** A letter of a stored job agrees with the record. */
  lemma {:induction false} StoredIsFailed(w: World, id: Id, code: Code)
    requires FinalInv(w) && id in w.db.jobs && Explained(w, id, code)
    ensures w.db.jobs[id].status == Failed && w.db.jobs[id].failureCode == Some(code)
  {}

  /** A step that writes no letter. */
  ghost predicate Unwritten(w: World, w': World) {
    && JobsEvolve(w, w') && HistoryEvolves(w, w')
    && forall k :: StreamOf(w', k).failed == StreamOf(w, k).failed
  }

  lemma {:induction false} WrittenStays(w: World, w': World)
    requires DbOk(w) && FinalInv(w) && WrittenExplained(w) && WrittenOnce(w) && Unwritten(w, w')
    ensures WrittenExplained(w') && WrittenOnce(w')
  {
    hide DbOk, Explained, FinalInv, JobsEvolve, HistoryEvolves, Failing, MessageOk;
    MessagesStable(w, w');
    forall k, i | 0 <= i < |StreamOf(w', k).failed| ensures EntryOk(w', k, StreamOf(w', k).failed[i]) {
      var f := StreamOf(w, k).failed[i];
      assert EntryOk(w, k, f);
      StillExplained(w, w', f.message.jobId, f.failureCode);
    }
    forall k, i: nat, l, j: nat |
      i < |StreamOf(w', k).failed| && j < |StreamOf(w', l).failed|
      && Twice(w', StreamOf(w', k).failed[i], StreamOf(w', l).failed[j])
      ensures k == l && i == j
    {
      var f, g := StreamOf(w, k).failed[i], StreamOf(w, l).failed[j];
      assert EntryOk(w, k, f);
      WasFailing(w, w', f.message.jobId, f.failureCode, f.failureCode);
      WasFailing(w, w', f.message.jobId, f.failureCode, g.failureCode);
      assert Twice(w, f, g);
    }
  }

  // ---- how a letter begins ----

  /** A step starts at most one letter, that of its own process: for a job that is gone, or with the code of a
      finish that has just failed a running job. */
  ghost predicate Begins(w: World, w': World, p: Id) {
    forall q :: Pending(w', q).Some? ==>
      || Pending(w', q) == Pending(w, q)
      || (q == p && Pending(w', q).value.1 == MISSING_CODE && Gone(w', Pending(w', q).value.0))
      || (q == p && FailedBy(w', Pending(w', q).value.0, Pending(w', q).value.1)
          && Pending(w', q).value.0 in w.db.jobs && w.db.jobs[Pending(w', q).value.0].status == Running)
  }

  lemma {:induction false} ClaimBegins(c: Config, w: World, p: Id, now: Time, token: Id)
    requires ProcOk(c, w, ProcOf(w, p)) && DoClaim(c, w, p, now, token).Some?
    ensures var w' := DoClaim(c, w, p, now, token).value;
      Pending(w', p).Some? ==> Pending(w', p).value.1 == MISSING_CODE && Gone(w', Pending(w', p).value.0)
  {}

  lemma {:induction false} FinishBegins(c: Config, w: World, p: Id, now: Time)
    requires ProcOk(c, w, ProcOf(w, p)) && DoFinish(w, p, now).Some?
    ensures var w' := DoFinish(w, p, now).value;
      Pending(w', p).Some? ==>
        && FailedBy(w', Pending(w', p).value.0, Pending(w', p).value.1)
        && Pending(w', p).value.0 in w.db.jobs && w.db.jobs[Pending(w', p).value.0].status == Running
  {
    var w' := DoFinish(w, p, now).value;
    if Pending(w', p).Some? {
      assert w'.hist.finishes[|w.hist.finishes|].jobId == Pending(w', p).value.0;
    }
  }

  lemma {:induction false} StepBegins(c: Config, w: World, p: Id, a: Action)
    requires CoreInv(c, w) && Next(c, w, p, a).Some?
    ensures Begins(w, Next(c, w, p, a).value, p)
  {
    hide DbOk, StreamsOk, CoverOk, CreatorsOk, PcOk, FailedBy, Gone;
    assert ProcOk(c, w, ProcOf(w, p));
    var w' := Next(c, w, p, a).value;
    StepFrame(c, w, p, a);
    match a
    case TryClaim(now, token) => ClaimBegins(c, w, p, now, token);
    case TryFinish(now) => FinishBegins(c, w, p, now);
    case _ => OthersWrite(c, w, p, a);
    forall q | Pending(w', q).Some? && q != p ensures Pending(w', q) == Pending(w, q) {
      assert q in w.procs && w'.procs[q] == w.procs[q];
    }
  }

  lemma {:induction false} PendingStays(w: World, w': World, p: Id)
    requires LetterInv(w) && FinalInv(w) && Begins(w, w', p) && Unwritten(w, w')
    ensures PendingExplained(w') && PendingOnce(w')
  {
    forall q | Pending(w', q).Some? ensures Explained(w', Pending(w', q).value.0, Pending(w', q).value.1) {
      if Pending(w', q) == Pending(w, q) {
        StillExplained(w, w', Pending(w', q).value.0, Pending(w', q).value.1);
      }
    }
    hide Unwritten, FinalInv;
    forall q ensures PendingFirst(w', q) {
      FirstStays(w, w', p, q);
    }
    forall q, r ensures PendingApart(w', q, r) {
      ApartStays(w, w', p, q, r);
    }
  }

  lemma {:induction false} FirstStays(w: World, w': World, p: Id, q: Id)
    requires LetterInv(w) && FinalInv(w) && Begins(w, w', p) && Unwritten(w, w')
    ensures PendingFirst(w', q)
  {
    hide FinalInv, Explained, FailedBy, JobsEvolve, HistoryEvolves, MessageOk;
    if Pending(w', q).Some? && Failing(w', Pending(w', q).value.0, Pending(w', q).value.1) {
      var id, code := Pending(w', q).value.0, Pending(w', q).value.1;
      assert PendingFirst(w, q);
      forall k, i | 0 <= i < |StreamOf(w', k).failed| && StreamOf(w', k).failed[i].message.jobId == id
        ensures !Failing(w', id, StreamOf(w', k).failed[i].failureCode)
      {
        var f := StreamOf(w, k).failed[i];
        assert EntryOk(w, k, f);
        if Failing(w', id, f.failureCode) {
          WasFailing(w, w', id, f.failureCode, f.failureCode);
          WasFailing(w, w', id, f.failureCode, code);
          if Pending(w', q) != Pending(w, q) {
            RunningIsUnexplained(w, id, f.failureCode);
          }
        }
      }
    }
  }

  lemma {:induction false} ApartStays(w: World, w': World, p: Id, q: Id, r: Id)
    requires LetterInv(w) && FinalInv(w) && Begins(w, w', p) && Unwritten(w, w')
    ensures PendingApart(w', q, r)
  {
    hide FinalInv, Explained, FailedBy, JobsEvolve, HistoryEvolves;
    assert PendingApart(w, q, r);
    if q != r && Pending(w', q).Some? && Pending(w', r).Some? && Pending(w', q).value.0 == Pending(w', r).value.0
      && Failing(w', Pending(w', q).value.0, Pending(w', q).value.1)
      && Failing(w', Pending(w', r).value.0, Pending(w', r).value.1)
    {
      var id, code, other := Pending(w', q).value.0, Pending(w', q).value.1, Pending(w', r).value.1;
      if Pending(w', q) != Pending(w, q) {
        RunningIsUnexplained(w, id, other);
      } else if Pending(w', r) != Pending(w, r) {
        RunningIsUnexplained(w, id, code);
      } else {
        WasFailing(w, w', id, code, code);
        WasFailing(w, w', id, code, other);
      }
    }
  }

  // ---- writing a letter ----

  /** The one entry of `w'` that `w` does not have. */
  ghost predicate Added(w: World, w': World, p: Id, k: JobKind, i: int) {
    i == |StreamOf(w, k).failed| && Pending(w, p).Some? && i < |StreamOf(w', k).failed|
      && StreamOf(w', k).failed[i].message.jobId == Pending(w, p).value.0
      && StreamOf(w', k).failed[i].failureCode == Pending(w, p).value.1
      && MessageOk(w, k, StreamOf(w', k).failed[i].message)
  }

  /** `w'` has one entry more, the pending letter of `p`, which is pending no longer. */
  ghost predicate Writes(w: World, w': World, p: Id, at: JobKind) {
    && w'.db == w.db && w'.hist == w.hist && Pending(w', p) == None
    && (forall q :: q != p ==> Pending(w', q) == Pending(w, q))
    && (forall k, i :: 0 <= i < |StreamOf(w', k).failed| ==>
          || (i < |StreamOf(w, k).failed| && StreamOf(w', k).failed[i] == StreamOf(w, k).failed[i])
          || (k == at && Added(w, w', p, k, i)))
  }

  lemma {:induction false} SettleWrites(c: Config, w: World, p: Id)
    requires ProcOk(c, w, ProcOf(w, p)) && DoSettle(w, p).Some? && IsDeadLettering(w.procs[p])
    ensures Writes(w, DoSettle(w, p).value, p, w.procs[p].pc.d.stream)
  {
    var w', pc := DoSettle(w, p).value, w.procs[p].pc;
    assert StreamOf(w', pc.d.stream).failed
      == StreamOf(w, pc.d.stream).failed + [FailedEntry(pc.d.message, pc.d.attempt, pc.deadCode, pc.d.id)];
  }

  lemma {:induction false} SameExplained(w: World, w': World, id: Id, code: Code)
    requires w'.db == w.db && w'.hist == w.hist
    ensures Explained(w', id, code) <==> Explained(w, id, code)
  {}

  lemma {:induction false} WrittenIsExplained(w: World, w': World, p: Id, at: JobKind)
    requires LetterInv(w) && Writes(w, w', p, at)
    ensures WrittenExplained(w') && PendingExplained(w')
  {
    hide Explained, WrittenOnce, PendingOnce;
    forall k, i | 0 <= i < |StreamOf(w', k).failed| ensures EntryOk(w', k, StreamOf(w', k).failed[i]) {
      var f := StreamOf(w', k).failed[i];
      SameExplained(w, w', f.message.jobId, f.failureCode);
      assert Added(w, w', p, k, i) || EntryOk(w, k, f);
    }
    forall q | Pending(w', q).Some? ensures Explained(w', Pending(w', q).value.0, Pending(w', q).value.1) {
      SameExplained(w, w', Pending(w', q).value.0, Pending(w', q).value.1);
    }
  }

  lemma {:induction false} WrittenIsOnce(w: World, w': World, p: Id, at: JobKind)
    requires LetterInv(w) && Writes(w, w', p, at)
    ensures WrittenOnce(w')
  {
    hide WrittenExplained, PendingExplained, MessageOk;
    assert PendingFirst(w, p);
    forall k, i: nat, l, j: nat |
      i < |StreamOf(w', k).failed| && j < |StreamOf(w', l).failed|
      && Twice(w', StreamOf(w', k).failed[i], StreamOf(w', l).failed[j])
      ensures k == l && i == j
    {
      if !Added(w, w', p, k, i) && !Added(w, w', p, l, j) {
        assert Twice(w, StreamOf(w, k).failed[i], StreamOf(w, l).failed[j]);
      }
    }
  }

  lemma {:induction false} WrittenLeavesOthers(w: World, w': World, p: Id, at: JobKind)
    requires LetterInv(w) && Writes(w, w', p, at)
    ensures PendingOnce(w')
  {
    hide WrittenExplained, PendingExplained, WrittenOnce, MessageOk;
    forall q ensures PendingFirst(w', q) {
      assert PendingFirst(w, q) && PendingApart(w, p, q);
    }
    forall q, r ensures PendingApart(w', q, r) {
      assert PendingApart(w, q, r);
    }
  }

  /** Every step keeps every letter explained, and every job within one letter that is not for a missing job. */
  lemma {:induction false} StepKeepsLetters(c: Config, w: World, p: Id, a: Action)
    requires CoreInv(c, w) && FinalInv(w) && LetterInv(w) && Next(c, w, p, a).Some?
    ensures LetterInv(Next(c, w, p, a).value)
  {
    hide DbOk, StreamsOk, CoverOk, CreatorsOk, PcOk, FinalInv;
    hide WrittenExplained, PendingExplained, WrittenOnce, PendingOnce, Begins, Writes;
    var w' := Next(c, w, p, a).value;
    if a.Settle? && IsDeadLettering(ProcOf(w, p)) {
      var at := w.procs[p].pc.d.stream;
      assert ProcOk(c, w, ProcOf(w, p));
      SettleWrites(c, w, p);
      WrittenIsExplained(w, w', p, at);
      WrittenIsOnce(w, w', p, at);
      WrittenLeavesOthers(w, w', p, at);
    } else {
      hide Next;
      StepAdvances(c, w, p, a);
      OthersWrite(c, w, p, a);
      StepBegins(c, w, p, a);
      WrittenStays(w, w');
      PendingStays(w, w', p);
    }
  }
}
