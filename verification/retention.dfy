/** The retention worker (workers/retention.py) over the batched deletes of its SQL backend
    (infrastructure/privacy_repository.py). */
module Retention {
  import opened Basics
  import opened Wrappers
  import opened JobModels
  import opened JobRepository

  datatype DataClass = IdempotencyKeys | JobMetadata | OcrResult | Telemetry

  datatype RetentionError = NotInStore | InvalidCount | InvalidBatchSize

  datatype Policy = Policy(idempotencyTtl: int, jobMetadataTtl: int, ocrResultTtl: int, telemetryTtl: int) {
    function Duration(cls: DataClass): int {
      match cls
      case IdempotencyKeys => idempotencyTtl
      case JobMetadata => jobMetadataTtl
      case OcrResult => ocrResultTtl
      case Telemetry => telemetryTtl
    }

    function Cutoff(cls: DataClass, now: Time): Time {
      now - Duration(cls)
    }
  }

  const ALL_CLASSES := [IdempotencyKeys, JobMetadata, OcrResult, Telemetry]

  /** Every class has a time to live of its own. */
  lemma {:induction false} CutoffByClass(policy: Policy, cls: DataClass, now: Time)
    ensures policy.Cutoff(cls, now) + (
        if cls.OcrResult? then policy.ocrResultTtl else if cls.Telemetry? then policy.telemetryTtl
        else if cls.JobMetadata? then policy.jobMetadataTtl else policy.idempotencyTtl) == now
  {}

  predicate InStore(cls: DataClass) {
    cls.IdempotencyKeys? || cls.JobMetadata?
  }

  /** The rows of a class whose time is at or before the cutoff. */
  function Expired(db: Db, cls: DataClass, cutoff: Time): set<Id> {
    match cls
    case IdempotencyKeys => set k | k in db.keys && db.keys[k].createdAt <= cutoff
    case JobMetadata =>
      set id | id in db.jobs && db.jobs[id].completedAt.Some? && db.jobs[id].completedAt.value <= cutoff
    case OcrResult => {}
    case Telemetry => {}
  }

  /** The time a row is ordered by. */
  function TimeOf(db: Db, cls: DataClass, id: Id): Time {
    if cls.IdempotencyKeys? && id in db.keys then db.keys[id].createdAt
    else if cls.JobMetadata? && id in db.jobs && db.jobs[id].completedAt.Some? then db.jobs[id].completedAt.value
    else 0
  }

  predicate OlderThan(db: Db, cls: DataClass, a: Id, b: Id) {
    TimeOf(db, cls, a) < TimeOf(db, cls, b) || (TimeOf(db, cls, a) == TimeOf(db, cls, b) && a < b)
  }

  /** Deleting jobs takes their outbox and idempotency rows along. */
  function Deleted(db: Db, cls: DataClass, ids: set<Id>): Db {
    match cls
    case IdempotencyKeys => DeleteKeys(db, ids)
    case JobMetadata => DeleteJobs(db, ids)
    case OcrResult => db
    case Telemetry => db
  }

  /** `ids` is the batch of a purge: expired rows, oldest first, as many as the limit allows. */
  ghost predicate IsBatch(db: Db, cls: DataClass, cutoff: Time, limit: nat, ids: set<Id>) {
    && ids <= Expired(db, cls, cutoff)
    && |ids| == Min(limit, |Expired(db, cls, cutoff)|)
    && forall a, b :: a in ids && b in Expired(db, cls, cutoff) - ids ==> OlderThan(db, cls, a, b)
  }

  ghost predicate JobIsDue(jobs: map<Id, Job>, id: Id, cutoff: Time) {
    id in jobs && jobs[id].completedAt.Some? && jobs[id].completedAt.value <= cutoff
  }

  /** The jobs that a batch has removed: due ones, each before all that are due and stay, and such only stay when
      the batch is full. */
  ghost predicate OldestJobsGone(before: map<Id, Job>, gone: set<Id>, cutoff: Time, limit: nat) {
    && |gone| <= limit && (forall a: Id :: a in gone ==> JobIsDue(before, a, cutoff))
    && (forall a: Id, b: Id :: a in gone && b !in gone && JobIsDue(before, b, cutoff) ==>
          || before[a].completedAt.value < before[b].completedAt.value
          || (before[a].completedAt.value == before[b].completedAt.value && a < b))
    && (|gone| < limit ==> forall b: Id :: JobIsDue(before, b, cutoff) ==> b in gone)
  }

  ghost predicate KeyIsDue(keys: map<Id, Idempotency>, k: Id, cutoff: Time) {
    k in keys && keys[k].createdAt <= cutoff
  }

  ghost predicate OldestKeysGone(before: map<Id, Idempotency>, gone: set<Id>, cutoff: Time, limit: nat) {
    && |gone| <= limit && (forall a: Id :: a in gone ==> KeyIsDue(before, a, cutoff))
    && (forall a: Id, b: Id :: a in gone && b !in gone && KeyIsDue(before, b, cutoff) ==>
          || before[a].createdAt < before[b].createdAt
          || (before[a].createdAt == before[b].createdAt && a < b))
    && (|gone| < limit ==> forall b: Id :: KeyIsDue(before, b, cutoff) ==> b in gone)
  }

  lemma {:induction false} JobBatchIsOldest(db: Db, cutoff: Time, limit: nat, ids: set<Id>)
    requires IsBatch(db, JobMetadata, cutoff, limit, ids)
    ensures OldestJobsGone(db.jobs, ids, cutoff, limit)
    ensures db.jobs.Keys - Deleted(db, JobMetadata, ids).jobs.Keys == ids
  {
    var expired := Expired(db, JobMetadata, cutoff);
    assert forall b :: b in expired <==> JobIsDue(db.jobs, b, cutoff);
    if |ids| < limit {
      SubsetOfSameSize(ids, expired);
    }
    hide Expired;
    forall a, b | a in ids && b !in ids && JobIsDue(db.jobs, b, cutoff)
      ensures OlderThan(db, JobMetadata, a, b)
    {
      assert b in expired - ids;
    }
  }

  lemma {:induction false} KeyBatchIsOldest(db: Db, cutoff: Time, limit: nat, ids: set<Id>)
    requires IsBatch(db, IdempotencyKeys, cutoff, limit, ids)
    ensures OldestKeysGone(db.keys, ids, cutoff, limit)
    ensures db.keys.Keys - Deleted(db, IdempotencyKeys, ids).keys.Keys == ids
  {
    var expired := Expired(db, IdempotencyKeys, cutoff);
    assert forall b :: b in expired <==> KeyIsDue(db.keys, b, cutoff);
    if |ids| < limit {
      SubsetOfSameSize(ids, expired);
    }
    hide Expired;
    forall a, b | a in ids && b !in ids && KeyIsDue(db.keys, b, cutoff)
      ensures OlderThan(db, IdempotencyKeys, a, b)
    {
      assert b in expired - ids;
    }
  }

  /** What one call of the store removes, by the rows that are missing afterwards. */
  ghost predicate OldestGone(before: Db, after: Db, cls: DataClass, cutoff: Time, limit: nat,
                             r: Result<int, RetentionError>)
  {
    var jobs, keys := before.jobs.Keys - after.jobs.Keys, before.keys.Keys - after.keys.Keys;
    && (cls.JobMetadata? ==> r == Success(|jobs|) && OldestJobsGone(before.jobs, jobs, cutoff, limit))
    && (cls.IdempotencyKeys? ==> r == Success(|keys|) && OldestKeysGone(before.keys, keys, cutoff, limit))
  }

  lemma {:induction false} BatchIsOldest(db: Db, cls: DataClass, cutoff: Time, limit: nat, ids: set<Id>)
    requires InStore(cls) && IsBatch(db, cls, cutoff, limit, ids)
    ensures OldestGone(db, Deleted(db, cls, ids), cls, cutoff, limit, Success(|ids|))
  {
    hide OldestJobsGone, OldestKeysGone, IsBatch;
    if cls == JobMetadata {
      JobBatchIsOldest(db, cutoff, limit, ids);
    } else {
      KeyBatchIsOldest(db, cutoff, limit, ids);
    }
  }

  lemma {:induction false} NothingGone(db: Db, cls: DataClass, cutoff: Time, limit: nat)
    requires !InStore(cls)
    ensures OldestGone(db, db, cls, cutoff, limit, Failure(NotInStore))
  {}

  class SqlRetentionBackend {
    var jobs: map<Id, Job>
    var outbox: map<Id, Outbox>
    var keys: map<Id, Idempotency>
    ghost var calls: nat

    constructor (db: Db)
      ensures Tables() == db && calls == 0
    {
      jobs, outbox, keys, calls := db.jobs, db.outbox, db.keys, 0;
    }

    function Tables(): Db
      reads this
    {
      Db(jobs, outbox, keys)
    }

    method OldestRow(cls: DataClass, ids: set<Id>) returns (oldest: Id)
      requires ids != {}
      ensures oldest in ids
      ensures forall e :: e in ids && e != oldest ==> OlderThan(Tables(), cls, oldest, e)
    {
      hide TimeOf;
      var db := Tables();
      oldest :| oldest in ids;
      var rest := ids - {oldest};
      while rest != {}
        invariant rest <= ids && oldest in ids && oldest !in rest
        invariant forall e :: e in ids - rest && e != oldest ==> OlderThan(db, cls, oldest, e)
        decreases rest
      {
        var e :| e in rest;
        rest := rest - {e};
        if OlderThan(db, cls, e, oldest) {
          forall x | x in ids - rest && x != e ensures OlderThan(db, cls, e, x) {
            assert x == oldest || OlderThan(db, cls, oldest, x);
          }
          oldest := e;
        }
      }
    }

    /** The subselect: expired rows in order of their time, up to the limit. */
    method Candidates(cls: DataClass, cutoff: Time, limit: nat) returns (ids: set<Id>)
      ensures IsBatch(Tables(), cls, cutoff, limit, ids)
    {
      ids := {};
      var expired := Expired(Tables(), cls, cutoff);
      var rest := expired;
      while |ids| < limit && rest != {}
        invariant ids !! rest && ids + rest == expired && |ids| <= limit
        invariant |ids| + |rest| == |expired|
        invariant forall a, b :: a in ids && b in rest ==> OlderThan(Tables(), cls, a, b)
        decreases rest
      {
        var oldest := OldestRow(cls, rest);
        ids := ids + {oldest};
        rest := rest - {oldest};
      }
      assert rest == expired - ids;
    }

    /** `purge_before`: one delete statement for a batch. */
    method PurgeBefore(cls: DataClass, cutoff: Time, batchSize: nat) returns (r: Result<int, RetentionError>)
      modifies this
      ensures calls == old(calls) + 1
      ensures !InStore(cls) ==> r == Failure(NotInStore) && Tables() == old(Tables())
      ensures InStore(cls) ==> exists ids ::
        && IsBatch(old(Tables()), cls, cutoff, batchSize, ids)
        && Tables() == Deleted(old(Tables()), cls, ids) && r == Success(|ids|)
      ensures OldestGone(old(Tables()), Tables(), cls, cutoff, batchSize, r)
    {
      hide Expired, IsBatch, OldestGone;
      calls := calls + 1;
      if cls != IdempotencyKeys && cls != JobMetadata {
        NothingGone(Tables(), cls, cutoff, batchSize);
        return Failure(NotInStore);
      }
      var ids := Candidates(cls, cutoff, batchSize);
      var after := Deleted(Tables(), cls, ids);
      BatchIsOldest(Tables(), cls, cutoff, batchSize, ids);
      jobs, outbox, keys := after.jobs, after.outbox, after.keys;
      return Success(|ids|);
    }
  }

  // ---- deleting in batches is deleting at once ----

  lemma {:induction false} ExpiredAfter(db: Db, cls: DataClass, cutoff: Time, ids: set<Id>)
    ensures Expired(Deleted(db, cls, ids), cls, cutoff) == Expired(db, cls, cutoff) - ids
  {}

  lemma {:induction false} DeletedTwice(db: Db, cls: DataClass, a: set<Id>, b: set<Id>)
    ensures Deleted(Deleted(db, cls, a), cls, b) == Deleted(db, cls, a + b)
  {}

  lemma {:induction false} DeletedNothing(db: Db, cls: DataClass)
    ensures Deleted(db, cls, {}) == db
  {}

  /** What one class's purge leaves. */
  function Purged(db: Db, cls: DataClass, cutoff: Time): Db {
    Deleted(db, cls, Expired(db, cls, cutoff))
  }

  lemma {:induction false} BatchStep(start: Db, cls: DataClass, cutoff: Time, gone: set<Id>, ids: set<Id>)
    requires gone <= Expired(start, cls, cutoff)
    requires ids <= Expired(Deleted(start, cls, gone), cls, cutoff)
    ensures Deleted(Deleted(start, cls, gone), cls, ids) == Deleted(start, cls, gone + ids)
    ensures gone !! ids && gone + ids <= Expired(start, cls, cutoff) && |gone + ids| == |gone| + |ids|
    ensures |Expired(Deleted(start, cls, gone), cls, cutoff)| == |Expired(start, cls, cutoff)| - |gone|
  {
    DeletedTwice(start, cls, gone, ids);
    ExpiredAfter(start, cls, cutoff, gone);
  }

  lemma {:induction false} FullBatches(total: nat, rounds: nat, batch: nat, last: nat)
    requires batch > 0 && total == rounds * batch + last && last < batch
    ensures rounds == total / batch
  {
    DivUnique(total, batch, rounds, last);
  }

  // ---- the worker ----

  class RetentionWorker {
    const backend: SqlRetentionBackend
    const policy: Policy
    const batchSize: nat
    const classes: seq<DataClass>

    ghost predicate Valid() {
      1 <= batchSize <= 10_000
    }

    /** Without classes of its own a worker runs over all of them. */
    constructor (backend: SqlRetentionBackend, policy: Policy, batchSize: nat, classes: seq<DataClass>)
      requires 1 <= batchSize <= 10_000
      ensures Valid() && this.backend == backend && this.policy == policy
      ensures this.batchSize == batchSize && this.classes == if classes == [] then ALL_CLASSES else classes
    {
      this.backend, this.policy, this.batchSize := backend, policy, batchSize;
      this.classes := if classes == [] then ALL_CLASSES else classes;
    }

    static method Create(backend: SqlRetentionBackend, policy: Policy, batchSize: int, classes: seq<DataClass>)
      returns (r: Result<RetentionWorker, RetentionError>)
      ensures r.Success? <==> 1 <= batchSize <= 10_000
      ensures r.Success? ==> r.value.Valid() && r.value.backend == backend && r.value.batchSize == batchSize
      ensures r.Success? ==> r.value.policy == policy
      ensures r.Success? ==> r.value.classes == if classes == [] then ALL_CLASSES else classes
      ensures r.Failure? ==> r.error == InvalidBatchSize
    {
      if !(1 <= batchSize <= 10_000) {
        return Failure(InvalidBatchSize);
      }
      var worker := new RetentionWorker(backend, policy, batchSize, classes);
      return Success(worker);
    }

    /** `_purge_class`: with no other writer, the number of expired rows, after one call for every full
        batch and a last one, and exactly those rows are gone. */
    method PurgeClass(cls: DataClass, now: Time) returns (r: Result<int, RetentionError>)
      requires Valid()
      modifies backend
      ensures !InStore(cls) ==> r == Failure(NotInStore) && backend.Tables() == old(backend.Tables())
      ensures InStore(cls) ==>
        var expired := Expired(old(backend.Tables()), cls, policy.Cutoff(cls, now));
        && r == Success(|expired|)
        && backend.Tables() == Purged(old(backend.Tables()), cls, policy.Cutoff(cls, now))
        && backend.calls == old(backend.calls) + |expired| / batchSize + 1
    {
      hide Deleted, Expired, OldestGone;
      var total := 0;
      var cutoff := policy.Cutoff(cls, now);
      ghost var start := backend.Tables();
      ghost var gone: set<Id> := {};
      ghost var rounds: nat := 0;
      DeletedNothing(start, cls);
      while true
        invariant gone <= Expired(start, cls, cutoff) && backend.Tables() == Deleted(start, cls, gone)
        invariant total == |gone| == rounds * batchSize
        invariant backend.calls == old(backend.calls) + rounds
        invariant InStore(cls) || (rounds == 0 && backend.Tables() == start)
        decreases |Expired(start, cls, cutoff)| - |gone|
      {
        var answer := backend.PurgeBefore(cls, cutoff, batchSize);
        if answer.Failure? {
          return Failure(answer.error);
        }
        var count := answer.value;
        ghost var ids: set<Id> :|
          && IsBatch(Deleted(start, cls, gone), cls, cutoff, batchSize, ids)
          && backend.Tables() == Deleted(Deleted(start, cls, gone), cls, ids) && count == |ids|;
        BatchStep(start, cls, cutoff, gone, ids);
        if !(0 <= count <= batchSize) {
          return Failure(InvalidCount);
        }
        total := total + count;
        gone := gone + ids;
        if count < batchSize {
          SubsetOfSameSize(gone, Expired(start, cls, cutoff));
          FullBatches(total, rounds, batchSize, count);
          return Success(total);
        }
        rounds := rounds + 1;
      }
    }

    /** `run`, with a count for every class, the last one when it is listed twice. A class that the store does
        not hold ends the run with an error, after the classes before it have been purged. */
    method Run(now: Time) returns (r: Result<map<DataClass, int>, RetentionError>)
      requires Valid()
      modifies backend
      ensures var n := StoredPrefix(classes);
        && backend.Tables() == PurgedAll(old(backend.Tables()), classes[..n], policy, now)
        && OnlyTheOldAreGone(old(backend.Tables()), backend.Tables(), classes[..n], policy, now)
        && if n == |classes|
           then r.Success? && IsReport(r.value, classes, Counts(old(backend.Tables()), classes, policy, now))
           else r == Failure(NotInStore)
    {
      hide OnlyTheOldAreGone, Purged, Counts, PurgedAll, Expired, IsReport;
      assert IsReport(map[], [], []) by {
        NothingReported();
      }
      var counts: map<DataClass, int> := map[];
      NothingCounted(backend.Tables(), policy, now);
      PurgedOnlyTheOld(backend.Tables(), classes[..StoredPrefix(classes)], policy, now);
      for i := 0 to |classes|
        invariant forall j :: 0 <= j < i ==> InStore(classes[j])
        invariant IsReport(counts, classes[..i], Counts(old(backend.Tables()), classes[..i], policy, now))
        invariant backend.Tables() == PurgedAll(old(backend.Tables()), classes[..i], policy, now)
      {
        assert classes[..i + 1][..i] == classes[..i];
        var count := PurgeClass(classes[i], now);
        if count.Failure? {
          return Failure(count.error);
        }
        CountsLast(old(backend.Tables()), classes[..i + 1], policy, now);
        PurgedLast(old(backend.Tables()), classes[..i + 1], policy, now);
        ReportStep(counts, classes[..i], Counts(old(backend.Tables()), classes[..i], policy, now), classes[i],
                   count.value);
        assert classes[..i + 1] == classes[..i] + [classes[i]];
        counts := counts[classes[i] := count.value];
      }
      assert classes[..|classes|] == classes;
      return Success(counts);
    }
  }

  /** How many classes come before the first one that the store does not hold. */
  function StoredPrefix(classes: seq<DataClass>): (n: nat)
    ensures n <= |classes|
    ensures forall j :: 0 <= j < n ==> InStore(classes[j])
    ensures n < |classes| ==> !InStore(classes[n])
  {
    if classes == [] || !InStore(classes[0]) then 0 else 1 + StoredPrefix(classes[1..])
  }

  /** A run over all classes purges two of them and then fails: the SQL store does not hold the others. */
  lemma {:induction false} DefaultRunStopsEarly()
    ensures StoredPrefix(ALL_CLASSES) == 2 && |ALL_CLASSES| == 4
    ensures ALL_CLASSES[..2] == [IdempotencyKeys, JobMetadata]
  {
    assert ALL_CLASSES[1..][0] == JobMetadata && ALL_CLASSES[1..][1..][0] == OcrResult;
  }

  function PurgedAll(db: Db, classes: seq<DataClass>, policy: Policy, now: Time): Db {
    if classes == [] then db
    else
      var n := |classes| - 1;
      Purged(PurgedAll(db, classes[..n], policy, now), classes[n], policy.Cutoff(classes[n], now))
  }

  /** The rows that each class finds to purge, in the order of the run. */
  function Counts(db: Db, classes: seq<DataClass>, policy: Policy, now: Time): (counts: seq<int>)
    ensures |counts| == |classes|
  {
    if classes == [] then []
    else
      var n := |classes| - 1;
      Counts(db, classes[..n], policy, now)
        + [|Expired(PurgedAll(db, classes[..n], policy, now), classes[n], policy.Cutoff(classes[n], now))|]
  }

  /** Every class with its last count. */
  ghost predicate IsReport(report: map<DataClass, int>, classes: seq<DataClass>, counts: seq<int>)
    requires |counts| == |classes|
  {
    && (forall cls :: cls in report <==> cls in classes)
    && (forall j :: 0 <= j < |classes| && (forall m :: j < m < |classes| ==> classes[m] != classes[j]) ==>
          classes[j] in report && report[classes[j]] == counts[j])
  }

  lemma {:induction false} NothingReported()
    ensures IsReport(map[], [], [])
  {}

  lemma {:induction false} ReportStep(report: map<DataClass, int>, classes: seq<DataClass>, counts: seq<int>,
                                      cls: DataClass, count: int)
    requires |counts| == |classes| && IsReport(report, classes, counts)
    ensures IsReport(report[cls := count], classes + [cls], counts + [count])
  {
    var all := classes + [cls];
    forall j | 0 <= j < |all| && (forall m :: j < m < |all| ==> all[m] != all[j])
      ensures all[j] in report[cls := count] && report[cls := count][all[j]] == (counts + [count])[j]
    {
      if j < |classes| {
        assert all[|classes|] != all[j];
        assert forall m :: j < m < |classes| ==> classes[m] == all[m];
      }
    }
  }

  // ---- what a run removes, by the age of the rows ----

  ghost predicate JobIsOld(db: Db, id: Id, policy: Policy, now: Time) {
    && id in db.jobs && db.jobs[id].completedAt.Some?
    && db.jobs[id].completedAt.value + policy.jobMetadataTtl <= now
  }

  ghost predicate KeyIsOld(db: Db, k: Id, policy: Policy, now: Time) {
    k in db.keys && db.keys[k].createdAt + policy.idempotencyTtl <= now
  }

  /** Jobs go when they have been finished for their time to live, keys when they are as old as theirs or when
      their job goes, outbox rows with their job, and everything else stays as it was. */
  ghost predicate OnlyTheOldAreGone(db: Db, after: Db, classes: seq<DataClass>, policy: Policy, now: Time) {
    && (forall id :: id in after.jobs <==>
          id in db.jobs && !(JobMetadata in classes && JobIsOld(db, id, policy, now)))
    && (forall e :: e in after.outbox <==>
          e in db.outbox && !(JobMetadata in classes && JobIsOld(db, db.outbox[e].jobId, policy, now)))
    && (forall k :: k in after.keys <==>
          && k in db.keys
          && !(IdempotencyKeys in classes && KeyIsOld(db, k, policy, now))
          && !(JobMetadata in classes && JobIsOld(db, db.keys[k].jobId, policy, now)))
    && (forall id :: id in after.jobs ==> after.jobs[id] == db.jobs[id])
    && (forall e :: e in after.outbox ==> after.outbox[e] == db.outbox[e])
    && (forall k :: k in after.keys ==> after.keys[k] == db.keys[k])
  }

  lemma {:induction false} PurgedOnlyTheOld(db: Db, classes: seq<DataClass>, policy: Policy, now: Time)
    ensures OnlyTheOldAreGone(db, PurgedAll(db, classes, policy, now), classes, policy, now)
    decreases |classes|
  {
    if classes != [] {
      hide PurgedAll;
      var front, cls := classes[..|classes| - 1], classes[|classes| - 1];
      assert classes == front + [cls];
      PurgedOnlyTheOld(db, front, policy, now);
      PurgedLast(db, classes, policy, now);
      OldGoLast(db, PurgedAll(db, front, policy, now), front, cls, policy, now);
    } else {
      PurgedLast(db, classes, policy, now);
    }
  }

  lemma {:induction false} PurgedLast(db: Db, classes: seq<DataClass>, policy: Policy, now: Time)
    ensures PurgedAll(db, classes, policy, now) ==
      if classes == [] then db
      else Purged(PurgedAll(db, classes[..|classes| - 1], policy, now), classes[|classes| - 1],
                  policy.Cutoff(classes[|classes| - 1], now))
  {}

  lemma {:induction false} OldGoLast(db: Db, before: Db, front: seq<DataClass>, cls: DataClass, policy: Policy,
                                      now: Time)
    requires OnlyTheOldAreGone(db, before, front, policy, now)
    ensures OnlyTheOldAreGone(db, Purged(before, cls, policy.Cutoff(cls, now)), front + [cls], policy, now)
  {}

  ghost function OldJobs(db: Db, policy: Policy, now: Time): set<Id> {
    set id | id in db.jobs && JobIsOld(db, id, policy, now)
  }

  /** The old keys; without those of old jobs when these were purged before. */
  ghost function OldKeys(db: Db, jobsGone: bool, policy: Policy, now: Time): set<Id> {
    set k | k in db.keys && KeyIsOld(db, k, policy, now) && !(jobsGone && JobIsOld(db, db.keys[k].jobId, policy, now))
  }

  /** How many rows each class of a run finds: all that are old, unless an earlier class has already taken them. */
  lemma {:induction false} CountsAreOfTheOld(db: Db, classes: seq<DataClass>, policy: Policy, now: Time, j: nat)
    requires j < |classes|
    ensures classes[j] == JobMetadata ==>
      Counts(db, classes, policy, now)[j]
        == if JobMetadata in classes[..j] then 0 else |OldJobs(db, policy, now)|
    ensures classes[j] == IdempotencyKeys ==>
      Counts(db, classes, policy, now)[j]
        == if IdempotencyKeys in classes[..j] then 0 else |OldKeys(db, JobMetadata in classes[..j], policy, now)|
    decreases |classes|
  {
    var n := |classes| - 1;
    var front := classes[..n];
    CountsLast(db, classes, policy, now);
    hide Counts;
    if j < n {
      CountsAreOfTheOld(db, front, policy, now, j);
      assert front[..j] == classes[..j];
    } else {
      PurgedOnlyTheOld(db, front, policy, now);
      OldAreFound(db, PurgedAll(db, front, policy, now), front, policy, now);
      assert classes[..j] == front;
    }
  }

  lemma {:induction false} NothingCounted(db: Db, policy: Policy, now: Time)
    ensures Counts(db, [], policy, now) == [] && PurgedAll(db, [], policy, now) == db
  {}

  lemma {:induction false} CountsLast(db: Db, classes: seq<DataClass>, policy: Policy, now: Time)
    requires classes != []
    ensures var n := |classes| - 1;
      Counts(db, classes, policy, now) == Counts(db, classes[..n], policy, now)
        + [|Expired(PurgedAll(db, classes[..n], policy, now), classes[n], policy.Cutoff(classes[n], now))|]
  {}

  lemma {:induction false} OldAreFound(db: Db, before: Db, front: seq<DataClass>, policy: Policy, now: Time)
    requires OnlyTheOldAreGone(db, before, front, policy, now)
    ensures Expired(before, JobMetadata, policy.Cutoff(JobMetadata, now)) ==
      if JobMetadata in front then {} else OldJobs(db, policy, now)
    ensures Expired(before, IdempotencyKeys, policy.Cutoff(IdempotencyKeys, now)) ==
      if IdempotencyKeys in front then {} else OldKeys(db, JobMetadata in front, policy, now)
  {}

  // ---- what a purge removes, and what it leaves alone ----

  /** Exactly the expired rows go, and of the other tables only what belongs to a purged job. */
  lemma {:induction false} PurgeIsExact(db: Db, cls: DataClass, cutoff: Time)
    ensures Expired(Purged(db, cls, cutoff), cls, cutoff) == {}
    ensures cls.JobMetadata? ==>
      var after := Purged(db, cls, cutoff);
      && (forall id :: id in after.jobs <==> id in db.jobs && id !in Expired(db, cls, cutoff))
      && (forall id :: id in after.jobs ==> after.jobs[id] == db.jobs[id])
      && (forall e :: e in after.outbox <==> e in db.outbox && db.outbox[e].jobId !in Expired(db, cls, cutoff))
      && (forall e :: e in after.outbox ==> after.outbox[e] == db.outbox[e])
      && (forall k :: k in after.keys <==> k in db.keys && db.keys[k].jobId !in Expired(db, cls, cutoff))
    ensures cls.IdempotencyKeys? ==>
      var after := Purged(db, cls, cutoff);
      && after.jobs == db.jobs && after.outbox == db.outbox
      && (forall k :: k in after.keys <==> k in db.keys && db.keys[k].createdAt > cutoff)
  {
    ExpiredAfter(db, cls, cutoff, Expired(db, cls, cutoff));
  }

  /** Where every record is well formed, no purge touches a job that is not finished: its record, its
      outbox row and, unless keys are purged, its idempotency row all stay. */
  lemma {:induction false} UnfinishedJobsStay(db: Db, cls: DataClass, cutoff: Time, id: Id)
    requires id in db.jobs && RecordOk(db.jobs[id]) && !db.jobs[id].status.IsTerminal()
    ensures var after := Purged(db, cls, cutoff);
      && id in after.jobs && after.jobs[id] == db.jobs[id]
      && (forall e :: e in db.outbox && db.outbox[e].jobId == id ==>
            e in after.outbox && after.outbox[e] == db.outbox[e])
      && (!cls.IdempotencyKeys? ==> forall k :: k in db.keys && db.keys[k].jobId == id ==> k in after.keys)
  {
    assert cls.JobMetadata? ==> id !in Expired(db, cls, cutoff);
  }
}
