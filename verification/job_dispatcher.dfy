/** The dispatcher's loop in its own form: `OutboxDispatcher.run_once` (workers/dispatcher.py), which
    publishes each listed row and only then marks it. */
module JobDispatcher {
  import opened Wrappers
  import opened JobModels
  import opened JobRepository
  import opened RedisQueue
  import opened JobProtocol
  import opened JobInvariant

  type Streams = map<JobKind, Stream>

  /** Publishes to the stream of the message's kind. */
  class RedisJobPublisher {
    var streams: Streams

    constructor ()
      ensures streams == map[]
    {
      streams := map[];
    }

    method Publish(message: Message)
      modifies this
      ensures var s := if message.kind in old(streams) then old(streams)[message.kind] else EMPTY_STREAM;
        streams == old(streams)[message.kind := Published(s, message)]
    {
      var s := if message.kind in streams then streams[message.kind] else EMPTY_STREAM;
      streams := streams[message.kind := Published(s, message)];
    }
  }

  /** The protocol left to dispatcher `p` alone, from the head of its loop to the end of its run. */
  ghost function DriveDispatch(c: Config, w: World, p: Id, clock: nat -> Time, i: nat): World
    requires ProcOf(w, p).Publishing? ==> ProcOf(w, p).batch != []
    decreases if ProcOf(w, p).Publishing? then |ProcOf(w, p).batch| else 0
  {
    if !ProcOf(w, p).Publishing? then w
    else DriveDispatch(c, DoMark(DoPublish(w, p).value, p, clock(i)).value, p, clock, i + 1)
  }

  lemma {:induction false} DriveDispatchIsARun(c: Config, w: World, p: Id, clock: nat -> Time, i: nat)
    returns (schedule: seq<Step>)
    requires ProcOf(w, p).Publishing? ==> ProcOf(w, p).batch != []
    ensures Run(c, w, schedule) == Some(DriveDispatch(c, w, p, clock, i))
    ensures forall n :: 0 <= n < |schedule| ==> schedule[n].p == p && !schedule[n].a.Crash?
    decreases if ProcOf(w, p).Publishing? then |ProcOf(w, p).batch| else 0
  {
    if !ProcOf(w, p).Publishing? {
      return [];
    }
    var w1 := DoPublish(w, p).value;
    var w2 := DoMark(w1, p, clock(i)).value;
    var rest := DriveDispatchIsARun(c, w2, p, clock, i + 1);
    schedule := [Step(p, Publish), Step(p, Mark(clock(i)))] + rest;
    assert schedule[1..][1..] == rest;
    assert Run(c, w1, schedule[1..]) == Run(c, w2, rest);
  }

  /** The remaining rows of a batch are still unpublished, differ from each other, and have a job. */
  ghost predicate Awaiting(db: Db, rows: seq<Outbox>) {
    && (forall n :: 0 <= n < |rows| ==> Unpublished(db, rows[n].eventId) && db.outbox[rows[n].eventId] == rows[n])
    && (forall n, m :: 0 <= n < m < |rows| ==> rows[n].eventId != rows[m].eventId)
    && (forall e :: e in db.outbox ==> db.outbox[e].jobId in db.jobs)
  }

  lemma {:induction false} MarkOne(db: Db, rows: seq<Outbox>, now: Time)
    requires rows != [] && Awaiting(db, rows)
    ensures MarkPublished(db, rows[0].eventId, now).1 == Success(true)
    ensures Awaiting(MarkPublished(db, rows[0].eventId, now).0, rows[1..])
  {
    var db' := MarkPublished(db, rows[0].eventId, now).0;
    assert db'.jobs.Keys == db.jobs.Keys;
    forall n | 0 <= n < |rows[1..]|
      ensures Unpublished(db', rows[1..][n].eventId) && db'.outbox[rows[1..][n].eventId] == rows[1..][n]
    {
      assert rows[1..][n] == rows[n + 1] && Unpublished(db, rows[n + 1].eventId)
        && rows[0].eventId != rows[n + 1].eventId;
    }
  }

  lemma {:induction false} ListedRows(w: World, limit: nat, rows: seq<Outbox>)
    requires DbOk(w) && IsListing(w.db, limit, rows)
    ensures Awaiting(w.db, rows)
  {
    assert forall e :: e in w.db.outbox ==> RowStored(w, e);
  }

  // ---- what a run leaves behind ----

  /** The entries that the rows of one kind become, in their order. */
  function EntriesOf(rows: seq<Outbox>, k: JobKind): seq<Entry> {
    if rows == [] then []
    else if rows[0].topic == k then [EntryOf(rows[0])] + EntriesOf(rows[1..], k)
    else EntriesOf(rows[1..], k)
  }

  function EntryOf(row: Outbox): Entry {
    Entry(Message(row.eventId, row.jobId, row.topic, row.eventVersion), 0)
  }

  ghost predicate SentTo(s: Stream, s': Stream, sent: seq<Entry>) {
    s'.entries == s.entries + sent && s'.cursor == s.cursor && s'.pending == s.pending && s'.failed == s.failed
  }

  /** The n-th row is stamped with the n-th clock reading and no other row has changed. */
  ghost predicate RowsMarked(db: Db, db': Db, rows: seq<Outbox>, clock: nat -> Time, i: nat) {
    && db'.outbox.Keys == db.outbox.Keys
    && (forall n :: 0 <= n < |rows| ==>
          && rows[n].eventId in db'.outbox
          && db'.outbox[rows[n].eventId] == rows[n].(publishedAt := Some(clock(i + n))))
    && (forall e :: e in db.outbox && (forall n :: 0 <= n < |rows| ==> rows[n].eventId != e) ==>
          db'.outbox[e] == db.outbox[e])
  }

  /** A record is as before, or it was accepted and one of the rows has queued it. */
  ghost predicate JobsQueued(db: Db, db': Db, rows: seq<Outbox>, clock: nat -> Time, i: nat) {
    && db'.jobs.Keys == db.jobs.Keys
    && (forall id :: id in db.jobs ==>
          || db'.jobs[id] == db.jobs[id]
          || (db.jobs[id].status == Accepted && exists n ::
                0 <= n < |rows| && rows[n].jobId == id && IsQueued(db.jobs[id], db'.jobs[id], clock(i + n))))
    && (forall n :: 0 <= n < |rows| ==> rows[n].jobId in db'.jobs && db'.jobs[rows[n].jobId].status != Accepted)
  }

  ghost predicate AllSent(w: World, w': World, rows: seq<Outbox>) {
    forall k :: SentTo(StreamOf(w, k), StreamOf(w', k), EntriesOf(rows, k))
  }

  /** The world after the first row was published and marked. */
  ghost function FirstSent(w: World, p: Id, now: Time): (w': World)
    requires ProcOf(w, p).Publishing? && ProcOf(w, p).batch != []
  {
    DoMark(DoPublish(w, p).value, p, now).value
  }

  lemma {:induction false} OneDispatched(w: World, p: Id, rows: seq<Outbox>, now: Time)
    requires ProcOf(w, p) == Publishing(rows) && rows != [] && Awaiting(w.db, rows)
    ensures var w', row := FirstSent(w, p, now), rows[0];
      && ProcOf(w', p) == Dispatch(rows[1..])
      && w'.db.outbox == w.db.outbox[row.eventId := row.(publishedAt := Some(now))] && w'.db.keys == w.db.keys
      && row.jobId in w.db.jobs && row.jobId in w'.db.jobs
      && w'.db.jobs == w.db.jobs[row.jobId := w'.db.jobs[row.jobId]]
      && IsQueued(w.db.jobs[row.jobId], w'.db.jobs[row.jobId], now)
      && SentTo(StreamOf(w, row.topic), StreamOf(w', row.topic), [EntryOf(row)])
      && (forall k :: k != row.topic ==> StreamOf(w', k) == StreamOf(w, k))
  {
    assert Unpublished(w.db, rows[0].eventId);
  }

  lemma {:induction false} FirstRowMarked(db: Db, db1: Db, db2: Db, rows: seq<Outbox>, clock: nat -> Time, i: nat)
    requires rows != [] && Awaiting(db, rows)
    requires db1.outbox == db.outbox[rows[0].eventId := rows[0].(publishedAt := Some(clock(i)))]
    requires RowsMarked(db1, db2, rows[1..], clock, i + 1)
    ensures RowsMarked(db, db2, rows, clock, i)
  {
    assert Unpublished(db, rows[0].eventId);
    var rest := rows[1..];
    forall n | 0 <= n < |rows| ensures rows[n].eventId in db2.outbox &&
        db2.outbox[rows[n].eventId] == rows[n].(publishedAt := Some(clock(i + n)))
    {
      if n == 0 {
        assert forall m :: 0 <= m < |rest| ==> rest[m] == rows[m + 1] && rest[m].eventId != rows[0].eventId;
      } else {
        assert rest[n - 1] == rows[n];
      }
    }
    forall e | e in db.outbox && (forall n :: 0 <= n < |rows| ==> rows[n].eventId != e)
      ensures db2.outbox[e] == db.outbox[e]
    {
      assert rows[0].eventId != e && forall m :: 0 <= m < |rest| ==> rest[m] == rows[m + 1];
    }
  }

  lemma {:induction false} FirstJobQueued(db: Db, db1: Db, db2: Db, rows: seq<Outbox>, clock: nat -> Time, i: nat)
    requires rows != [] && rows[0].jobId in db.jobs && rows[0].jobId in db1.jobs
    requires db1.jobs == db.jobs[rows[0].jobId := db1.jobs[rows[0].jobId]]
    requires IsQueued(db.jobs[rows[0].jobId], db1.jobs[rows[0].jobId], clock(i))
    requires JobsQueued(db1, db2, rows[1..], clock, i + 1)
    ensures JobsQueued(db, db2, rows, clock, i)
  {
    var rest := rows[1..];
    forall id | id in db.jobs && db2.jobs[id] != db.jobs[id]
      ensures db.jobs[id].status == Accepted && exists n ::
        0 <= n < |rows| && rows[n].jobId == id && IsQueued(db.jobs[id], db2.jobs[id], clock(i + n))
    {
      if db2.jobs[id] == db1.jobs[id] {
        assert id == rows[0].jobId && IsQueued(db.jobs[id], db2.jobs[id], clock(i + 0));
      } else {
        var n :| 0 <= n < |rest| && rest[n].jobId == id && IsQueued(db1.jobs[id], db2.jobs[id], clock(i + 1 + n));
        assert rows[n + 1].jobId == id && IsQueued(db.jobs[id], db2.jobs[id], clock(i + (n + 1)));
      }
    }
    forall n | 0 <= n < |rows| ensures rows[n].jobId in db2.jobs && db2.jobs[rows[n].jobId].status != Accepted {
      if n > 0 {
        assert rest[n - 1] == rows[n];
      }
    }
  }

  /** After an undisturbed run every row is stamped with its own clock reading, every accepted job of a row is
      queued with its payload, and every row has become one entry of its stream, in the order of the rows. */
  lemma {:induction false} DispatchEnds(c: Config, w: World, p: Id, rows: seq<Outbox>, clock: nat -> Time, i: nat)
    requires ProcOf(w, p) == Dispatch(rows) && Awaiting(w.db, rows)
    ensures var w' := DriveDispatch(c, w, p, clock, i);
      && RowsMarked(w.db, w'.db, rows, clock, i) && JobsQueued(w.db, w'.db, rows, clock, i)
      && w'.db.keys == w.db.keys && AllSent(w, w', rows)
    decreases |rows|
  {
    hide MarkPublished, DoPublish, DoMark, RowsMarked, JobsQueued, IsQueued, Awaiting, AllSent, EntriesOf, SentTo;
    hide DriveDispatch, FirstSent;
    DispatchDriven(c, w, p, clock, i);
    if rows == [] {
      NothingDispatched(w, clock, i);
    } else {
      var w1, w' := FirstSent(w, p, clock(i)), DriveDispatch(c, w, p, clock, i);
      OneDispatched(w, p, rows, clock(i));
      DispatchedRest(w, p, rows, clock(i));
      DispatchEnds(c, w1, p, rows[1..], clock, i + 1);
      FirstRowMarked(w.db, w1.db, w'.db, rows, clock, i);
      FirstJobQueued(w.db, w1.db, w'.db, rows, clock, i);
      FirstEntrySent(w, w1, w', rows);
    }
  }

  lemma {:induction false} DispatchDriven(c: Config, w: World, p: Id, clock: nat -> Time, i: nat)
    requires ProcOf(w, p).Publishing? ==> ProcOf(w, p).batch != []
    ensures DriveDispatch(c, w, p, clock, i) ==
      if ProcOf(w, p).Publishing? then DriveDispatch(c, FirstSent(w, p, clock(i)), p, clock, i + 1) else w
  {}

  lemma {:induction false} NothingDispatched(w: World, clock: nat -> Time, i: nat)
    ensures RowsMarked(w.db, w.db, [], clock, i) && JobsQueued(w.db, w.db, [], clock, i) && AllSent(w, w, [])
  {}

  lemma {:induction false} FirstEntrySent(w: World, w1: World, w2: World, rows: seq<Outbox>)
    requires rows != [] && AllSent(w1, w2, rows[1..])
    requires forall k :: k != rows[0].topic ==> StreamOf(w1, k) == StreamOf(w, k)
    requires SentTo(StreamOf(w, rows[0].topic), StreamOf(w1, rows[0].topic), [EntryOf(rows[0])])
    ensures AllSent(w, w2, rows)
  {
    hide EntriesOf, SentTo, StreamOf;
    forall k ensures SentTo(StreamOf(w, k), StreamOf(w2, k), EntriesOf(rows, k)) {
      assert SentTo(StreamOf(w1, k), StreamOf(w2, k), EntriesOf(rows[1..], k));
      EntriesStep(rows, k);
      if k == rows[0].topic {
        SentOn(StreamOf(w, k), StreamOf(w1, k), StreamOf(w2, k), [EntryOf(rows[0])], EntriesOf(rows[1..], k));
      } else {
        assert [] + EntriesOf(rows[1..], k) == EntriesOf(rows[1..], k);
      }
    }
  }

  lemma {:induction false} EntriesStep(rows: seq<Outbox>, k: JobKind)
    requires rows != []
    ensures EntriesOf(rows, k) == (if rows[0].topic == k then [EntryOf(rows[0])] else []) + EntriesOf(rows[1..], k)
  {}

  lemma {:induction false} SentOn(s: Stream, s1: Stream, s2: Stream, a: seq<Entry>, b: seq<Entry>)
    requires SentTo(s, s1, a) && SentTo(s1, s2, b)
    ensures SentTo(s, s2, a + b)
  {}

  lemma {:induction false} DispatchedRest(w: World, p: Id, rows: seq<Outbox>, now: Time)
    requires ProcOf(w, p) == Publishing(rows) && rows != [] && Awaiting(w.db, rows)
    ensures Awaiting(FirstSent(w, p, now).db, rows[1..])
  {
    MarkOne(w.db, rows, now);
  }

  datatype DispatcherError = InvalidBatchSize

  class OutboxDispatcher {
    const repository: SqlJobRepository
    const queue: RedisJobPublisher
    const batchSize: nat

    constructor (repository: SqlJobRepository, queue: RedisJobPublisher, batchSize: nat)
      requires 1 <= batchSize <= 1000
      ensures this.repository == repository && this.queue == queue && this.batchSize == batchSize
    {
      this.repository := repository;
      this.queue := queue;
      this.batchSize := batchSize;
    }

    static method Create(repository: SqlJobRepository, queue: RedisJobPublisher, batchSize: int)
      returns (r: Result<OutboxDispatcher, DispatcherError>)
      ensures r.Success? <==> 1 <= batchSize <= 1000
      ensures r.Success? ==> r.value.repository == repository && r.value.queue == queue
      ensures r.Success? ==> r.value.batchSize == batchSize
    {
      if !(1 <= batchSize <= 1000) {
        return Failure(InvalidBatchSize);
      }
      var dispatcher := new OutboxDispatcher(repository, queue, batchSize);
      return Success(dispatcher);
    }

    ghost predicate Sees(w: World)
      reads repository, queue
    {
      w.db == repository.Tables() && w.streams == queue.streams
    }

    /** The body of the loop: publish, then mark. */
    method DispatchOne(record: Outbox, now: Time, ghost rows: seq<Outbox>, ghost w: World, ghost p: Id)
      returns (marked: Result<bool, JobError>, ghost w': World)
      requires Sees(w) && ProcOf(w, p) == Publishing(rows) && rows != [] && rows[0] == record && Awaiting(w.db, rows)
      modifies repository, queue
      ensures marked == Success(true)
      ensures w' == DoMark(DoPublish(w, p).value, p, now).value
      ensures Sees(w') && ProcOf(w', p) == Dispatch(rows[1..]) && Awaiting(w'.db, rows[1..])
    {
      queue.Publish(Message(record.eventId, record.jobId, record.topic, record.eventVersion));
      ghost var w1 := DoPublish(w, p).value;
      assert Sees(w1) && ProcOf(w1, p) == Marking(rows);
      marked := repository.Mark(record.eventId, now);
      w' := DoMark(w1, p, now).value;
      MarkOne(w.db, rows, now);
    }

    /** The loop over the listed rows, from protocol state `w` at its head. */
    method DispatchAll(records: seq<Outbox>, clock: nat -> Time, ghost c: Config, ghost w: World, ghost p: Id)
      returns (published: nat)
      requires Sees(w) && ProcOf(w, p) == Dispatch(records) && Awaiting(w.db, records)
      modifies repository, queue
      ensures Sees(DriveDispatch(c, w, p, clock, 0))
      ensures published == |records|
    {
      ghost var state := w;
      published := 0;
      var i := 0;
      while i < |records|
        invariant 0 <= i <= |records| && published == i
        invariant Sees(state) && ProcOf(state, p) == Dispatch(records[i..]) && Awaiting(state.db, records[i..])
        invariant DriveDispatch(c, w, p, clock, 0) == DriveDispatch(c, state, p, clock, i)
      {
        var marked;
        ghost var next;
        marked, next := DispatchOne(records[i], clock(i), records[i..], state, p);
        assert records[i..][1..] == records[i + 1..];
        if marked.value {
          published := published + 1;
        }
        state := next;
        i := i + 1;
      }
    }

    /** One undisturbed run of process `p`: `clock(i)` is the reading that marks the i-th row. The rows
        are the oldest unpublished ones, the stores end as the protocol says, and every row is marked
        and counted. */
    method RunOnce(clock: nat -> Time, ghost c: Config, ghost w: World, ghost p: Id)
      returns (published: nat, ghost rows: seq<Outbox>)
      requires Sees(w) && DbOk(w) && ProcOf(w, p) == Resting
      modifies repository, queue
      ensures IsListing(old(repository.Tables()), batchSize, rows)
      ensures DoList(w, p, rows).Some?
      ensures Sees(DriveDispatch(c, DoList(w, p, rows).value, p, clock, 0))
      ensures published == |rows|
    {
      assert forall e :: e in repository.outbox ==> RowStored(w, e);
      var records := repository.ListUnpublished(batchSize);
      rows := records;
      ListedRows(w, batchSize, rows);
      published := DispatchAll(records, clock, c, DoList(w, p, rows).value, p);
    }
  }
}
