/** The Redis stream with its consumer group (infrastructure/redis_queue.py). An entry's identifier
    is its position; the group has delivered every entry below `cursor`, and those still awaiting
    acknowledgement are `pending`. */
module RedisQueue {
  import opened Wrappers
  import opened JobModels

  datatype Message = Message(eventId: Id, jobId: Id, kind: JobKind, version: nat)

  datatype Entry = Entry(message: Message, attempt: nat)

  datatype Delivery = Delivery(stream: JobKind, id: nat, message: Message, attempt: nat)

  datatype FailedEntry = FailedEntry(message: Message, attempt: nat, failureCode: Code, sourceDelivery: nat)

  datatype Stream = Stream(entries: seq<Entry>, cursor: nat, pending: set<nat>, failed: seq<FailedEntry>)

  const EMPTY_STREAM := Stream([], 0, {}, [])

  /** How `consume` obtains its delivery: an idle pending entry first, else the next unread one. */
  datatype Intake = Reclaim(id: nat) | ReadNew | Nothing

  ghost predicate StreamOk(s: Stream) {
    s.cursor <= |s.entries| && forall i :: i in s.pending ==> i < s.cursor
  }

  /** Not acknowledged: still to be delivered or delivered and pending. */
  predicate Unacked(s: Stream, i: nat) {
    i < |s.entries| && (s.cursor <= i || i in s.pending)
  }

  function Published(s: Stream, message: Message): Stream {
    s.(entries := s.entries + [Entry(message, 0)])
  }

  function DeliveryOf(kind: JobKind, s: Stream, i: nat): Delivery
    requires i < |s.entries|
  {
    Delivery(kind, i, s.entries[i].message, s.entries[i].attempt)
  }

  predicate CanConsume(s: Stream, intake: Intake) {
    match intake
    case Reclaim(id) => id in s.pending && id < |s.entries|
    case ReadNew => s.cursor < |s.entries|
    case Nothing => s.cursor >= |s.entries|
  }

  function Consumed(kind: JobKind, s: Stream, intake: Intake): (Stream, Option<Delivery>)
    requires CanConsume(s, intake)
  {
    match intake
    case Reclaim(id) => (s, Some(DeliveryOf(kind, s, id)))
    case ReadNew => (s.(cursor := s.cursor + 1, pending := s.pending + {s.cursor}), Some(DeliveryOf(kind, s, s.cursor)))
    case Nothing => (s, None)
  }

  function Acked(s: Stream, d: Delivery): Stream {
    s.(pending := s.pending - {d.id})
  }

  function Retried(s: Stream, d: Delivery): Stream {
    s.(entries := s.entries + [Entry(d.message, d.attempt + 1)], pending := s.pending - {d.id})
  }

  function DeadLettered(s: Stream, d: Delivery, code: Code): Stream {
    s.(failed := s.failed + [FailedEntry(d.message, d.attempt, code, d.id)], pending := s.pending - {d.id})
  }

  /** The queue object of one worker process, bound to the stream of its kind. */
  class RedisJobQueue {
    const kind: JobKind
    var entries: seq<Entry>
    var cursor: nat
    var pending: set<nat>
    var failed: seq<FailedEntry>

    constructor (kind: JobKind)
      ensures this.kind == kind && State() == EMPTY_STREAM
    {
      this.kind := kind;
      entries, cursor, pending, failed := [], 0, {}, [];
    }

    function State(): Stream
      reads this
    {
      Stream(entries, cursor, pending, failed)
    }

    method Publish(message: Message) returns (id: nat)
      modifies this`entries
      ensures State() == Published(old(State()), message) && id == |old(entries)|
      ensures entries == old(entries) + [Entry(message, 0)]
    {
      id := |entries|;
      entries := entries + [Entry(message, 0)];
    }

    /** `idle` is the pending entry Redis reports as past its visibility timeout, if any. */
    method Consume(idle: Option<nat>) returns (d: Option<Delivery>, ghost intake: Intake)
      requires idle.Some? ==> idle.value in pending && idle.value < |entries|
      modifies this`cursor, this`pending
      ensures intake == if idle.Some? then Reclaim(idle.value)
                        else if old(cursor) < |entries| then ReadNew else Nothing
      ensures CanConsume(old(State()), intake) && (State(), d) == Consumed(kind, old(State()), intake)
      ensures intake.Nothing? <==> d == None
      ensures d.Some? ==>
                && d.value.id == (if idle.Some? then idle.value else old(cursor))
                && d.value == Delivery(kind, d.value.id, entries[d.value.id].message, entries[d.value.id].attempt)
      ensures intake.ReadNew? ==> cursor == old(cursor) + 1 && pending == old(pending) + {old(cursor)}
      ensures !intake.ReadNew? ==> cursor == old(cursor) && pending == old(pending)
    {
      if idle.Some? {
        intake := Reclaim(idle.value);
        d := Some(Delivery(kind, idle.value, entries[idle.value].message, entries[idle.value].attempt));
        return;
      }
      if cursor >= |entries| {
        intake := Nothing;
        return None, Nothing;
      }
      intake := ReadNew;
      d := Some(Delivery(kind, cursor, entries[cursor].message, entries[cursor].attempt));
      pending := pending + {cursor};
      cursor := cursor + 1;
    }

    method Ack(d: Delivery)
      modifies this`pending
      ensures State() == Acked(old(State()), d)
      ensures pending == old(pending) - {d.id}
    {
      pending := pending - {d.id};
    }

    method Retry(d: Delivery)
      modifies this`entries, this`pending
      ensures State() == Retried(old(State()), d)
      ensures entries == old(entries) + [Entry(d.message, d.attempt + 1)] && pending == old(pending) - {d.id}
    {
      entries := entries + [Entry(d.message, d.attempt + 1)];
      pending := pending - {d.id};
    }

    method Release(d: Delivery)
      ensures State() == old(State())
    {
    }

    method DeadLetter(d: Delivery, code: Code)
      modifies this`failed, this`pending
      ensures State() == DeadLettered(old(State()), d, code)
      ensures failed == old(failed) + [FailedEntry(d.message, d.attempt, code, d.id)]
      ensures pending == old(pending) - {d.id}
    {
      failed := failed + [FailedEntry(d.message, d.attempt, code, d.id)];
      pending := pending - {d.id};
    }
  }
}
