/** Store purchases (infrastructure/entitlement_repository.py): the latest event wins, in any order of arrival. */
module Entitlements {
  import opened Wrappers

  datatype StoreName = GooglePlay | AppStore

  datatype StoreEvent = Purchased | Renewed | GracePeriod | Canceled | Expired | Revoked | Refunded | Restored

  datatype Status = Active | InGracePeriod | HasExpired | WasRevoked | WasRefunded

  datatype Transaction = Transaction(
    eventId: string, store: StoreName, transactionId: string, originalTransactionId: string, productId: string,
    subject: string, verified: bool, event: StoreEvent, version: nat, occurredAt: int, expiresAt: Option<int>)

  datatype Entitlement = Entitlement(
    subject: string, productId: string, store: StoreName, status: Status, originalTransactionId: string,
    expiresAt: Option<int>, lastEventId: string, lastEvent: StoreEvent, lastVersion: nat, lastAt: int)

  datatype Key = Key(subject: string, productId: string)

  datatype BillingError = Unverified | EventWithoutEntitlement | IntegrityError

  // ---- billing/models.py ----

  function StatusOf(event: StoreEvent): Status {
    match event
    case Purchased => Active
    case Renewed => Active
    case GracePeriod => InGracePeriod
    case Canceled => Active
    case Expired => HasExpired
    case Revoked => WasRevoked
    case Refunded => WasRefunded
    case Restored => Active
  }

  function Priority(event: StoreEvent): int {
    match event
    case Purchased => 10
    case Renewed => 20
    case Restored => 30
    case Canceled => 40
    case GracePeriod => 50
    case Expired => 60
    case Revoked => 70
    case Refunded => 80
  }

  /** The tuple by which events are compared. */
  datatype EventOrder = EventOrder(at: int, version: int, priority: int) {
    predicate Above(other: EventOrder) {
      || at > other.at
      || (at == other.at && version > other.version)
      || (at == other.at && version == other.version && priority > other.priority)
    }
  }

  function OrderOf(t: Transaction): EventOrder {
    EventOrder(t.occurredAt, t.version, Priority(t.event))
  }

  function RowOrder(e: Entitlement): EventOrder {
    EventOrder(e.lastAt, e.lastVersion, Priority(e.lastEvent))
  }

  function FromTransaction(t: Transaction): Entitlement {
    Entitlement(t.subject, t.productId, t.store, StatusOf(t.event), t.originalTransactionId, t.expiresAt,
                t.eventId, t.event, t.version, t.occurredAt)
  }

  // ---- the same order, by position in a list ----

  /** Which event wins when two have the same time and version: the later one here. */
  const EVENTS_BY_RANK := [Purchased, Renewed, Restored, Canceled, GracePeriod, Expired, Revoked, Refunded]

  ghost predicate Outranks(a: StoreEvent, b: StoreEvent) {
    exists i, j :: 0 <= i < j < |EVENTS_BY_RANK| && EVENTS_BY_RANK[i] == b && EVENTS_BY_RANK[j] == a
  }

  ghost predicate Later(at: int, version: int, event: StoreEvent, at': int, version': int, event': StoreEvent) {
    at > at' || (at == at' && version > version') || (at == at' && version == version' && Outranks(event, event'))
  }

  ghost predicate Supersedes(u: Transaction, t: Transaction) {
    Later(u.occurredAt, u.version, u.event, t.occurredAt, t.version, t.event)
  }

  lemma {:induction false} OutranksByPriority(a: StoreEvent, b: StoreEvent)
    ensures Outranks(a, b) <==> Priority(a) > Priority(b)
  {
    hide Priority;
    var i := Place(b);
    var j := Place(a);
    forall n | 0 <= n < |EVENTS_BY_RANK| ensures Priority(EVENTS_BY_RANK[n]) == 10 * (n + 1) {
      PlaceOfPriority(n);
    }
  }

  lemma {:induction false} PlaceOfPriority(n: int)
    requires 0 <= n < |EVENTS_BY_RANK|
    ensures Priority(EVENTS_BY_RANK[n]) == 10 * (n + 1)
  {}

  lemma {:induction false} Place(e: StoreEvent) returns (n: int)
    ensures 0 <= n < |EVENTS_BY_RANK| && EVENTS_BY_RANK[n] == e
  {
    n := match e
      case Purchased => 0
      case Renewed => 1
      case Restored => 2
      case Canceled => 3
      case GracePeriod => 4
      case Expired => 5
      case Revoked => 6
      case Refunded => 7;
  }

  lemma {:induction false} SupersedesIsAbove(u: Transaction, t: Transaction)
    ensures Supersedes(u, t) <==> OrderOf(u).Above(OrderOf(t))
  {
    OutranksByPriority(u.event, t.event);
  }

  function KeyOf(t: Transaction): Key {
    Key(t.subject, t.productId)
  }

  // ---- infrastructure/entitlement_repository.py ----

  /** The two tables: recorded events by id, entitlement rows by subject and product. */
  datatype Ledger = Ledger(events: map<string, Transaction>, rows: map<Key, Entitlement>)

  function Record(l: Ledger, t: Transaction): Ledger {
    var proposed := FromTransaction(t);
    var wins := KeyOf(t) !in l.rows || RowOrder(proposed).Above(RowOrder(l.rows[KeyOf(t)]));
    Ledger(l.events[t.eventId := t], if wins then l.rows[KeyOf(t) := proposed] else l.rows)
  }

  function Applied(l: Ledger, t: Transaction): Ledger {
    if !t.verified || t.eventId in l.events then l else Record(l, t)
  }

  function Answer(l: Ledger, t: Transaction): Result<Entitlement, BillingError> {
    if !t.verified then Failure(Unverified)
    else if KeyOf(t) !in Applied(l, t).rows then Failure(EventWithoutEntitlement)
    else Success(Applied(l, t).rows[KeyOf(t)])
  }

  function RowKey(e: Entitlement): Key {
    Key(e.subject, e.productId)
  }

  /** The foreign key and the unique column of an entitlement row stored under `key`. */
  predicate RowAllowed(l: Ledger, key: Key, e: Entitlement) {
    e.lastEventId in l.events && forall k :: k in l.rows && k != key ==> l.rows[k].lastEventId != e.lastEventId
  }

  /** What the tables always satisfy: their primary keys and the constraints above. */
  ghost predicate LedgerOk(l: Ledger) {
    forall k :: k in l.rows ==> k == RowKey(l.rows[k]) && RowAllowed(l, k, l.rows[k])
  }

  /** The fields that `_apply_entitlement` takes over; a row keeps its subject and product. */
  function Overwritten(row: Entitlement, proposed: Entitlement): Entitlement {
    proposed.(subject := row.subject, productId := row.productId)
  }

  /** The repository's transaction for any proposal; a violated constraint rolls everything back. */
  function Proposed(l: Ledger, t: Transaction, proposed: Entitlement): (Ledger, Result<Entitlement, BillingError>) {
    var key := KeyOf(t);
    if t.eventId in l.events then
      (l, if key in l.rows then Success(l.rows[key]) else Failure(EventWithoutEntitlement))
    else
      var recorded := l.(events := l.events[t.eventId := t]);
      if key !in l.rows then
        if RowKey(proposed) in l.rows || !RowAllowed(recorded, RowKey(proposed), proposed) then
          (l, Failure(IntegrityError))
        else (recorded.(rows := l.rows[RowKey(proposed) := proposed]), Success(proposed))
      else if !RowOrder(proposed).Above(RowOrder(l.rows[key])) then (recorded, Success(l.rows[key]))
      else if !RowAllowed(recorded, key, Overwritten(l.rows[key], proposed)) then (l, Failure(IntegrityError))
      else (recorded.(rows := l.rows[key := Overwritten(l.rows[key], proposed)]), Success(proposed))
  }

  /** With the entitlement made from a verified transaction no constraint is ever violated. */
  lemma {:induction false} ProposalFits(l: Ledger, t: Transaction)
    requires LedgerOk(l) && t.verified
    ensures Proposed(l, t, FromTransaction(t)) == (Applied(l, t), Answer(l, t))
  {
    var key := KeyOf(t);
    if t.eventId !in l.events {
      var recorded := l.(events := l.events[t.eventId := t]);
      assert RowAllowed(recorded, key, FromTransaction(t));
      assert key in l.rows ==> Overwritten(l.rows[key], FromTransaction(t)) == FromTransaction(t);
    }
  }

  lemma {:induction false} ProposedKeepsLedger(l: Ledger, t: Transaction, proposed: Entitlement)
    requires LedgerOk(l)
    ensures LedgerOk(Proposed(l, t, proposed).0)
  {
    hide RowOrder, EventOrder.Above;
  }

  /** The last event of the row is recorded and belongs to no other row. */
  ghost predicate Linkable(rows: map<Key, Entitlement>, ids: set<string>, key: Key, e: Entitlement) {
    e.lastEventId in ids && forall k :: k in rows && k != key ==> rows[k].lastEventId != e.lastEventId
  }

  ghost predicate IsNewer(e: Entitlement, row: Entitlement) {
    Later(e.lastAt, e.lastVersion, e.lastEvent, row.lastAt, row.lastVersion, row.lastEvent)
  }

  class SqlEntitlementRepository {
    var events: map<string, Transaction>
    var rows: map<Key, Entitlement>

    ghost predicate Valid()
      reads this
    {
      LedgerOk(Contents())
    }

    constructor ()
      ensures Valid() && Contents() == Ledger(map[], map[])
    {
      events, rows := map[], map[];
    }

    function Contents(): Ledger
      reads this
    {
      Ledger(events, rows)
    }

    /** `apply`, one transaction under the subject's lock. */
    method Apply(t: Transaction, proposed: Entitlement) returns (r: Result<Entitlement, BillingError>)
      requires Valid()
      modifies this
      ensures Valid() && (Contents(), r) == Proposed(old(Contents()), t, proposed)
      ensures r.Failure? ==> Contents() == old(Contents())
      ensures t.eventId in old(events) ==>
                && Contents() == old(Contents())
                && r == if Key(t.subject, t.productId) in rows then Success(rows[Key(t.subject, t.productId)])
                        else Failure(EventWithoutEntitlement)
      ensures t.eventId !in old(events) ==>
                && (r.Success? ==> events == old(events)[t.eventId := t])
                && var key, at := Key(t.subject, t.productId), Key(proposed.subject, proposed.productId);
                   if key !in old(rows) then
                     if at !in old(rows) && Linkable(old(rows), old(events).Keys + {t.eventId}, at, proposed)
                     then r == Success(proposed) && rows == old(rows)[at := proposed]
                     else r == Failure(IntegrityError)
                   else if !IsNewer(proposed, old(rows)[key]) then
                     r == Success(old(rows)[key]) && rows == old(rows)
                   else if Linkable(old(rows), old(events).Keys + {t.eventId}, key, proposed) then
                     && r == Success(proposed)
                     && rows == old(rows)[key := proposed.(subject := old(rows)[key].subject,
                                                           productId := old(rows)[key].productId)]
                   else
                     r == Failure(IntegrityError)
    {
      ProposedKeepsLedger(Contents(), t, proposed);
      if Key(t.subject, t.productId) in rows {
        OutranksByPriority(proposed.lastEvent, rows[Key(t.subject, t.productId)].lastEvent);
      }
      var before, key := Contents(), Key(t.subject, t.productId);
      if t.eventId in events {
        if key !in rows {
          return Failure(EventWithoutEntitlement);
        }
        return Success(rows[key]);
      }
      events := events[t.eventId := t];
      if key !in rows {
        if RowKey(proposed) in rows || !RowAllowed(Contents(), RowKey(proposed), proposed) {
          events := before.events;
          return Failure(IntegrityError);
        }
        rows := rows[RowKey(proposed) := proposed];
        return Success(proposed);
      }
      var current := rows[key];
      if RowOrder(proposed).Above(RowOrder(current)) {
        var updated := current.(
          store := proposed.store, status := proposed.status, originalTransactionId := proposed.originalTransactionId,
          expiresAt := proposed.expiresAt, lastEventId := proposed.lastEventId, lastEvent := proposed.lastEvent,
          lastVersion := proposed.lastVersion, lastAt := proposed.lastAt);
        assert updated == Overwritten(current, proposed);
        if !RowAllowed(Contents(), key, updated) {
          events := before.events;
          return Failure(IntegrityError);
        }
        rows := rows[key := updated];
        return Success(proposed);
      }
      return Success(current);
    }
  }

  class BillingService {
    const repository: SqlEntitlementRepository

    constructor (repository: SqlEntitlementRepository)
      ensures this.repository == repository
    {
      this.repository := repository;
    }

    method Apply(t: Transaction) returns (r: Result<Entitlement, BillingError>)
      requires repository.Valid()
      modifies repository
      ensures repository.Valid() && repository.Contents() == Applied(old(repository.Contents()), t)
      ensures r == Answer(old(repository.Contents()), t)
      ensures !t.verified ==> r == Failure(Unverified) && repository.Contents() == old(repository.Contents())
      ensures t.verified ==> repository.events.Keys == old(repository.events.Keys) + {t.eventId}
    {
      if !t.verified {
        return Failure(Unverified);
      }
      ProposalFits(repository.Contents(), t);
      r := repository.Apply(t, FromTransaction(t));
    }
  }

  // ---- runs ----

  function After(ts: seq<Transaction>): Ledger {
    if ts == [] then Ledger(map[], map[]) else Applied(After(ts[..|ts| - 1]), ts[|ts| - 1])
  }

  /** The transactions of a run that were recorded: the first verified one of every event id. */
  function Recorded(ts: seq<Transaction>): seq<Transaction> {
    if ts == [] then []
    else
      var front, t := ts[..|ts| - 1], ts[|ts| - 1];
      if t.verified && t.eventId !in After(front).events then Recorded(front) + [t] else Recorded(front)
  }

  /** The first of the transactions for `k` with the highest order. */
  function Best(ts: seq<Transaction>, k: Key): Option<Transaction> {
    if ts == [] then None
    else
      var best, t := Best(ts[..|ts| - 1], k), ts[|ts| - 1];
      if KeyOf(t) == k && (best.None? || OrderOf(t).Above(OrderOf(best.value))) then Some(t) else best
  }

  lemma {:induction false} BestStep(ts: seq<Transaction>, t: Transaction, k: Key)
    ensures var best := Best(ts, k);
      Best(ts + [t], k) ==
        if KeyOf(t) == k && (best.None? || OrderOf(t).Above(OrderOf(best.value))) then Some(t) else best
  {
    assert (ts + [t])[..|ts|] == ts;
  }

  /** `ts[i]` is for `k`, none for `k` is above it, and all earlier ones for `k` are below. */
  ghost predicate FirstMaximumAt(ts: seq<Transaction>, k: Key, i: int) {
    && 0 <= i < |ts| && KeyOf(ts[i]) == k
    && (forall j :: 0 <= j < |ts| && KeyOf(ts[j]) == k ==> !OrderOf(ts[j]).Above(OrderOf(ts[i])))
    && (forall j :: 0 <= j < i && KeyOf(ts[j]) == k ==> OrderOf(ts[i]).Above(OrderOf(ts[j])))
  }

  lemma {:induction false} MaximumStays(ts: seq<Transaction>, t: Transaction, k: Key, i: int)
    requires FirstMaximumAt(ts, k, i) && !(KeyOf(t) == k && OrderOf(t).Above(OrderOf(ts[i])))
    ensures FirstMaximumAt(ts + [t], k, i)
  {}

  lemma {:induction false} MaximumMoves(ts: seq<Transaction>, t: Transaction, k: Key, i: int)
    requires FirstMaximumAt(ts, k, i) && KeyOf(t) == k && OrderOf(t).Above(OrderOf(ts[i]))
    ensures FirstMaximumAt(ts + [t], k, |ts|)
  {
    var all := ts + [t];
    forall j | 0 <= j < |ts| && KeyOf(all[j]) == k ensures OrderOf(t).Above(OrderOf(all[j])) {
      assert all[j] == ts[j] && !OrderOf(ts[j]).Above(OrderOf(ts[i]));
    }
  }

  lemma {:induction false} FirstOfKey(ts: seq<Transaction>, t: Transaction, k: Key)
    requires KeyOf(t) == k && forall i :: 0 <= i < |ts| ==> KeyOf(ts[i]) != k
    ensures FirstMaximumAt(ts + [t], k, |ts|)
  {}

  lemma {:induction false} BestIsFirstMaximum(ts: seq<Transaction>, k: Key)
    ensures Best(ts, k).None? <==> forall i :: 0 <= i < |ts| ==> KeyOf(ts[i]) != k
    ensures Best(ts, k).Some? ==> exists i :: FirstMaximumAt(ts, k, i) && ts[i] == Best(ts, k).value
    decreases |ts|
  {
    if ts != [] {
      hide FirstMaximumAt, EventOrder.Above;
      var front, t := ts[..|ts| - 1], ts[|ts| - 1];
      assert front + [t] == ts;
      BestIsFirstMaximum(front, k);
      if Best(front, k).Some? {
        var i :| FirstMaximumAt(front, k, i) && front[i] == Best(front, k).value;
        assert KeyOf(front[i]) == k && front[i] == ts[i] by {
          InRange(front, k, i);
        }
        if KeyOf(t) == k && OrderOf(t).Above(OrderOf(front[i])) {
          MaximumMoves(front, t, k, i);
        } else {
          MaximumStays(front, t, k, i);
        }
      } else if KeyOf(t) == k {
        FirstOfKey(front, t, k);
      }
    }
  }

  lemma {:induction false} InRange(ts: seq<Transaction>, k: Key, i: int)
    requires FirstMaximumAt(ts, k, i)
    ensures 0 <= i < |ts| && KeyOf(ts[i]) == k
  {}

  lemma {:induction false} NoBest()
    ensures forall k :: Best([], k) == None
  {}

  lemma {:induction false} EventsAreRecorded(ts: seq<Transaction>)
    ensures forall t :: t in Recorded(ts) ==> t.verified && t in ts
    ensures forall id :: id in After(ts).events <==> exists t: Transaction :: t in Recorded(ts) && t.eventId == id
    decreases |ts|
  {
    if ts != [] {
      var front, t := ts[..|ts| - 1], ts[|ts| - 1];
      EventsAreRecorded(front);
      if t.verified && t.eventId !in After(front).events {
        forall id ensures id in After(ts).events <==> exists t: Transaction :: t in Recorded(ts) && t.eventId == id {
          assert t in Recorded(ts);
          if id in After(front).events {
            var r :| r in Recorded(front) && r.eventId == id;
            assert r in Recorded(ts);
          }
        }
      }
    }
  }

  /** What the tables hold after any run: every recorded event, and for every subject and product the
      entitlement of the first recorded transaction with the highest order. */
  lemma {:induction false} RowsAreBest(ts: seq<Transaction>)
    ensures forall t :: t in Recorded(ts) ==> t.verified && t in ts
    ensures forall id :: id in After(ts).events <==> exists t: Transaction :: t in Recorded(ts) && t.eventId == id
    ensures forall k :: k in After(ts).rows <==> Best(Recorded(ts), k).Some?
    ensures forall k :: k in After(ts).rows ==> After(ts).rows[k] == FromTransaction(Best(Recorded(ts), k).value)
    decreases |ts|
  {
    hide Best, EventOrder.Above;
    EventsAreRecorded(ts);
    if ts == [] {
      NoBest();
    } else {
      var front, t := ts[..|ts| - 1], ts[|ts| - 1];
      RowsAreBest(front);
      if t.verified && t.eventId !in After(front).events {
        var recorded := Recorded(front);
        forall k ensures Best(recorded + [t], k) ==
          if KeyOf(t) == k && (Best(recorded, k).None? || OrderOf(t).Above(OrderOf(Best(recorded, k).value)))
          then Some(t) else Best(recorded, k)
        {
          BestStep(recorded, t, k);
        }
      }
    }
  }

  // ---- convergence ----

  /** An event id determines its transaction. */
  ghost predicate Consistent(ts: seq<Transaction>) {
    forall i, j :: 0 <= i < |ts| && 0 <= j < |ts| && ts[i].eventId == ts[j].eventId ==> ts[i] == ts[j]
  }

  ghost predicate SameTransactions(a: seq<Transaction>, b: seq<Transaction>) {
    forall t :: t in a <==> t in b
  }

  lemma {:induction false} VerifiedAreRecorded(ts: seq<Transaction>)
    requires Consistent(ts)
    ensures forall t :: t in Recorded(ts) <==> t in ts && t.verified
    decreases |ts|
  {
    if ts != [] {
      var front, t := ts[..|ts| - 1], ts[|ts| - 1];
      assert forall i :: 0 <= i < |front| ==> front[i] == ts[i];
      VerifiedAreRecorded(front);
      RowsAreBest(front);
      if t.verified && t.eventId in After(front).events {
        var r :| r in Recorded(front) && r.eventId == t.eventId;
        assert r in front;
        var i :| 0 <= i < |front| && front[i] == r;
        assert ts[i].eventId == ts[|ts| - 1].eventId;
      }
      assert ts == front + [t];
    }
  }

  lemma {:induction false} HighestOrder(a: seq<Transaction>, b: seq<Transaction>, k: Key)
    requires SameTransactions(a, b)
    ensures Best(a, k).None? <==> Best(b, k).None?
    ensures Best(a, k).Some? ==> OrderOf(Best(a, k).value) == OrderOf(Best(b, k).value)
  {
    BestIsFirstMaximum(a, k);
    BestIsFirstMaximum(b, k);
    forall i | 0 <= i < |a| ensures exists j :: 0 <= j < |b| && b[j] == a[i] {
      assert a[i] in b;
    }
    forall j | 0 <= j < |b| ensures exists i :: 0 <= i < |a| && a[i] == b[j] {
      assert b[j] in a;
    }
  }

  lemma {:induction false} PriorityNamesEvent(a: StoreEvent, b: StoreEvent)
    requires Priority(a) == Priority(b)
    ensures a == b
  {}

  /** Any order and any repetition of the same transactions leave the same rows, with the same event
      order, the same event and the same status. */
  lemma {:induction false} Convergence(a: seq<Transaction>, b: seq<Transaction>, k: Key)
    requires Consistent(a) && Consistent(b) && SameTransactions(a, b)
    ensures k in After(a).rows <==> k in After(b).rows
    ensures k in After(a).rows ==>
      var x, y := After(a).rows[k], After(b).rows[k];
      RowOrder(x) == RowOrder(y) && x.lastEvent == y.lastEvent && x.status == y.status
  {
    VerifiedAreRecorded(a);
    VerifiedAreRecorded(b);
    RowsAreBest(a);
    RowsAreBest(b);
    HighestOrder(Recorded(a), Recorded(b), k);
    if k in After(a).rows {
      PriorityNamesEvent(After(a).rows[k].lastEvent, After(b).rows[k].lastEvent);
    }
  }

  /** A verified transaction for `k` that no other verified one for `k` is above. */
  ghost predicate Maximal(ts: seq<Transaction>, k: Key, t: Transaction) {
    && t in ts && t.verified && KeyOf(t) == k
    && forall u: Transaction :: u in ts && u.verified && KeyOf(u) == k ==> !OrderOf(u).Above(OrderOf(t))
  }

  /** The highest order for `k` belongs to at most one transaction. */
  ghost predicate UniqueBest(ts: seq<Transaction>, k: Key) {
    forall t, u :: Maximal(ts, k, t) && Maximal(ts, k, u) ==> t == u
  }

  /** Every order and repetition of the same transactions ends with the same row, or with none. */
  ghost predicate OrderIndependent(ts: seq<Transaction>, k: Key) {
    forall other :: Consistent(other) && SameTransactions(ts, other) ==>
      && (k in After(other).rows <==> k in After(ts).rows)
      && (k in After(ts).rows ==> After(other).rows[k] == After(ts).rows[k])
  }

  lemma {:induction false} RecordedFirst(ts: seq<Transaction>)
    requires ts != [] && ts[0].verified
    ensures Recorded(ts) != [] && Recorded(ts)[0] == ts[0]
    decreases |ts|
  {
    if |ts| > 1 {
      RecordedFirst(ts[..|ts| - 1]);
    } else {
      assert ts[..0] == [];
    }
  }

  /** The row comes from a verified transaction of the run, and no other for the key is above it. */
  lemma {:induction false} RowSource(ts: seq<Transaction>, k: Key)
    requires Consistent(ts)
    ensures k in After(ts).rows <==> exists t: Transaction :: t in ts && t.verified && KeyOf(t) == k
    ensures k in After(ts).rows ==>
      && (exists t: Transaction :: t in ts && t.verified && KeyOf(t) == k && FromTransaction(t) == After(ts).rows[k])
      && forall t: Transaction :: t in ts && t.verified && KeyOf(t) == k ==>
        !OrderOf(t).Above(RowOrder(After(ts).rows[k]))
  {
    hide EventOrder.Above;
    VerifiedAreRecorded(ts);
    RowsAreBest(ts);
    var recorded := Recorded(ts);
    BestIsFirstMaximum(recorded, k);
    if Best(recorded, k).Some? {
      var i :| FirstMaximumAt(recorded, k, i) && recorded[i] == Best(recorded, k).value;
      assert recorded[i] in recorded;
    }
    forall t: Transaction | t in ts && t.verified && KeyOf(t) == k
      ensures k in After(ts).rows && !OrderOf(t).Above(RowOrder(After(ts).rows[k]))
    {
      assert t in recorded;
      var j :| 0 <= j < |recorded| && recorded[j] == t;
    }
  }

  lemma {:induction false} EarlierTie(ts: seq<Transaction>, k: Key, i: int)
    requires FirstMaximumAt(ts, k, i) && KeyOf(ts[0]) == k && OrderOf(ts[0]) == OrderOf(ts[i])
    ensures i == 0
  {}

  /** Sent first, a transaction with the highest order is the one that stays. */
  lemma {:induction false} FirstWins(ts: seq<Transaction>, t: Transaction, k: Key)
    requires Consistent(ts) && t in ts && t.verified && KeyOf(t) == k
    requires k in After(ts).rows && OrderOf(t) == RowOrder(After(ts).rows[k])
    ensures Consistent([t] + ts) && SameTransactions(ts, [t] + ts)
    ensures k in After([t] + ts).rows && After([t] + ts).rows[k] == FromTransaction(t)
  {
    var other := [t] + ts;
    assert forall i :: 0 < i < |other| ==> other[i] in ts;
    assert forall i :: 0 <= i < |other| ==> other[i] in ts;
    MembersAreConsistent(ts, other);
    assert forall x: Transaction :: x in ts ==> x in other;
    Convergence(ts, other, k);
    RowsAreBest(other);
    RecordedFirst(other);
    var recorded := Recorded(other);
    BestIsFirstMaximum(recorded, k);
    var i :| FirstMaximumAt(recorded, k, i) && recorded[i] == Best(recorded, k).value;
    EarlierTie(recorded, k, i);
  }

  lemma {:induction false} MembersAreConsistent(a: seq<Transaction>, b: seq<Transaction>)
    requires Consistent(a) && forall i :: 0 <= i < |b| ==> b[i] in a
    ensures Consistent(b)
  {
    forall i, j | 0 <= i < |b| && 0 <= j < |b| && b[i].eventId == b[j].eventId ensures b[i] == b[j] {
      var x :| 0 <= x < |a| && a[x] == b[i];
      var y :| 0 <= y < |a| && a[y] == b[j];
    }
  }

  /** The row is made from a maximal transaction, and the maximal ones are those with its order. */
  lemma {:induction false} RowIsMaximal(ts: seq<Transaction>, k: Key)
    requires Consistent(ts) && k in After(ts).rows
    ensures exists t :: Maximal(ts, k, t) && FromTransaction(t) == After(ts).rows[k]
    ensures forall t :: Maximal(ts, k, t) ==> OrderOf(t) == RowOrder(After(ts).rows[k])
  {
    RowSource(ts, k);
    var t: Transaction :| t in ts && t.verified && KeyOf(t) == k && FromTransaction(t) == After(ts).rows[k];
    assert OrderOf(t) == RowOrder(After(ts).rows[k]);
    assert Maximal(ts, k, t);
  }

  lemma {:induction false} SameMaximal(a: seq<Transaction>, b: seq<Transaction>, k: Key, t: Transaction)
    requires SameTransactions(a, b) && Maximal(a, k, t)
    ensures Maximal(b, k, t)
  {}

  /** The whole row is the same for every order of arrival exactly when the highest order belongs to one
      transaction only. */
  lemma {:induction false} WholeRowConverges(ts: seq<Transaction>, k: Key)
    requires Consistent(ts)
    ensures OrderIndependent(ts, k) <==> UniqueBest(ts, k)
  {
    if OrderIndependent(ts, k) {
      forall t, u | Maximal(ts, k, t) && Maximal(ts, k, u) ensures t == u {
        RowSource(ts, k);
        RowIsMaximal(ts, k);
        FirstWins(ts, t, k);
        FirstWins(ts, u, k);
        assert t.eventId == u.eventId;
      }
    }
    if UniqueBest(ts, k) {
      forall other | Consistent(other) && SameTransactions(ts, other)
        ensures k in After(other).rows <==> k in After(ts).rows
        ensures k in After(ts).rows ==> After(other).rows[k] == After(ts).rows[k]
      {
        Convergence(ts, other, k);
        if k in After(ts).rows {
          RowIsMaximal(ts, k);
          RowIsMaximal(other, k);
          var t :| Maximal(ts, k, t) && FromTransaction(t) == After(ts).rows[k];
          var u :| Maximal(other, k, u) && FromTransaction(u) == After(other).rows[k];
          SameMaximal(other, ts, k, u);
        }
      }
    }
  }

  /** A purchase at time zero. */
  function Purchase(eventId: string): Transaction {
    Transaction(eventId, AppStore, eventId, eventId, "pro", "s", true, Purchased, 0, 0, Some(1))
  }

  lemma {:induction false} OneMore(ts: seq<Transaction>, t: Transaction)
    ensures After(ts + [t]) == Applied(After(ts), t)
  {
    assert (ts + [t])[..|ts|] == ts;
  }

  /** Two purchases of the same time and version: whichever arrives first stays in the row. */
  lemma {:induction false} TiesDependOnArrival()
    ensures var a, b, k := Purchase("a"), Purchase("b"), Key("s", "pro");
      && Consistent([a, b]) && SameTransactions([a, b], [b, a])
      && k in After([a, b]).rows && After([a, b]).rows[k] == FromTransaction(a)
      && k in After([b, a]).rows && After([b, a]).rows[k] == FromTransaction(b)
      && FromTransaction(a) != FromTransaction(b)
  {
    var a, b := Purchase("a"), Purchase("b");
    OneMore([], a);
    OneMore([], b);
    OneMore([a], b);
    OneMore([b], a);
    assert [] + [a] == [a] && [] + [b] == [b] && [a] + [b] == [a, b] && [b] + [a] == [b, a];
  }

  // ---- single steps of a run ----

  /** The order of a row never falls, and rows never disappear. */
  lemma {:induction false} OrderNeverFalls(ts: seq<Transaction>, more: seq<Transaction>, k: Key)
    requires k in After(ts).rows
    ensures k in After(ts + more).rows && !RowOrder(After(ts).rows[k]).Above(RowOrder(After(ts + more).rows[k]))
    decreases |more|
  {
    if more == [] {
      assert ts + more == ts;
    } else {
      OrderNeverFalls(ts, more[..|more| - 1], k);
      assert (ts + more)[..|ts + more| - 1] == ts + more[..|more| - 1];
    }
  }

  /** The event-without-entitlement error needs an event id that was recorded for another subject or
      product while none was recorded for this one. */
  lemma {:induction false} WhenApplyRaises(ts: seq<Transaction>, t: Transaction)
    ensures Answer(After(ts), t) == Failure(EventWithoutEntitlement) <==>
      && t.verified
      && (exists r: Transaction :: r in Recorded(ts) && r.eventId == t.eventId)
      && (forall r: Transaction :: r in Recorded(ts) ==> KeyOf(r) != KeyOf(t))
  {
    RowsAreBest(ts);
    BestIsFirstMaximum(Recorded(ts), KeyOf(t));
    var recorded := Recorded(ts);
    if Best(recorded, KeyOf(t)).Some? {
      var i :| FirstMaximumAt(recorded, KeyOf(t), i) && recorded[i] == Best(recorded, KeyOf(t)).value;
      assert recorded[i] in recorded;
    }
  }

  /** While event ids determine their transactions every verified one is answered with the row as it is
      afterwards, and a repeated one changes nothing. */
  lemma {:induction false} ApplyAnswersWithTheRow(ts: seq<Transaction>, t: Transaction)
    requires Consistent(ts + [t]) && t.verified
    ensures KeyOf(t) in After(ts + [t]).rows && Answer(After(ts), t) == Success(After(ts + [t]).rows[KeyOf(t)])
    ensures t in ts ==> After(ts + [t]) == After(ts)
  {
    var all := ts + [t];
    assert all[..|ts|] == ts && all[|ts|] == t;
    RowSource(all, KeyOf(t));
    assert t in all;
    MembersAreConsistent(all, ts);
    VerifiedAreRecorded(ts);
    RowsAreBest(ts);
  }

  // ---- access ----

  /** The events that must carry an expiry time. */
  predicate Expiring(event: StoreEvent) {
    event in {Purchased, Renewed, Canceled, GracePeriod, Restored}
  }

  /** The validation of a transaction record. */
  ghost predicate ValidTransaction(t: Transaction) {
    Expiring(t.event) ==> t.expiresAt.Some?
  }

  predicate GrantsAccess(status: Status) {
    status == Active || status == InGracePeriod
  }

  /** A verified transaction of the subject and product that no other one supersedes. */
  ghost predicate IsLatest(ts: seq<Transaction>, k: Key, t: Transaction) {
    && t in ts && t.verified && t.subject == k.subject && t.productId == k.productId
    && forall u: Transaction :: u in ts && u.verified && u.subject == k.subject && u.productId == k.productId ==>
         !Supersedes(u, t)
  }

  lemma {:induction false} LatestIsMaximal(ts: seq<Transaction>, k: Key, t: Transaction)
    ensures IsLatest(ts, k, t) <==> Maximal(ts, k, t)
  {
    hide Supersedes, EventOrder.Above;
    forall u: Transaction ensures Supersedes(u, t) <==> OrderOf(u).Above(OrderOf(t)) {
      SupersedesIsAbove(u, t);
    }
  }

  /** After any run there is a row exactly for what was bought, and it says what a latest transaction says:
      access after a purchase, a renewal, a cancellation, a restoration or in a grace period, and none after
      an expiry, a revocation or a refund. */
  lemma {:induction false} RowSaysTheLatest(ts: seq<Transaction>, k: Key)
    requires Consistent(ts)
    ensures k in After(ts).rows <==>
      exists t: Transaction :: t in ts && t.verified && t.subject == k.subject && t.productId == k.productId
    ensures k in After(ts).rows ==> var row := After(ts).rows[k];
      && row.subject == k.subject && row.productId == k.productId
      && (exists t :: IsLatest(ts, k, t) && row.store == t.store && row.expiresAt == t.expiresAt
            && row.originalTransactionId == t.originalTransactionId && row.lastEventId == t.eventId
            && row.lastEvent == t.event && row.lastVersion == t.version && row.lastAt == t.occurredAt)
      && forall t :: IsLatest(ts, k, t) ==>
           && (row.status == Active <==> t.event in {Purchased, Renewed, Canceled, Restored})
           && (row.status == InGracePeriod <==> t.event == GracePeriod)
           && (row.status == HasExpired <==> t.event == Expired)
           && (row.status == WasRevoked <==> t.event == Revoked)
           && (row.status == WasRefunded <==> t.event == Refunded)
  {
    hide Consistent, IsLatest, Maximal, Later;
    RowSource(ts, k);
    if k in After(ts).rows {
      RowIsMaximal(ts, k);
      var source :| Maximal(ts, k, source) && FromTransaction(source) == After(ts).rows[k];
      RowKeyOf(ts, k, source);
      LatestIsMaximal(ts, k, source);
      forall t | IsLatest(ts, k, t) ensures t.event == source.event {
        LatestIsMaximal(ts, k, t);
        PriorityNamesEvent(t.event, source.event);
      }
    }
  }

  lemma {:induction false} RowKeyOf(ts: seq<Transaction>, k: Key, t: Transaction)
    requires Maximal(ts, k, t)
    ensures t.subject == k.subject && t.productId == k.productId
  {}

  /** The validation of a record asks for an expiry time unless the event ends the purchase. */
  lemma {:induction false} EndingsNeedNoExpiry(t: Transaction)
    ensures ValidTransaction(t) <==>
      t.expiresAt.Some? || t.event == Expired || t.event == Revoked || t.event == Refunded
  {}

  /** Whatever arrived in whatever order, a row that grants access has an expiry time, and every event that
      ended the purchase is strictly older than the row by time and version. */
  lemma {:induction false} AccessIsJustified(ts: seq<Transaction>, k: Key)
    requires Consistent(ts) && k in After(ts).rows && GrantsAccess(After(ts).rows[k].status)
    requires forall t: Transaction :: t in ts ==> ValidTransaction(t)
    ensures After(ts).rows[k].expiresAt.Some?
    ensures forall t: Transaction ::
      t in ts && t.verified && KeyOf(t) == k && t.event in {Expired, Revoked, Refunded} ==>
      || t.occurredAt < After(ts).rows[k].lastAt
      || (t.occurredAt == After(ts).rows[k].lastAt && t.version < After(ts).rows[k].lastVersion)
  {
    hide Consistent;
    RowSource(ts, k);
  }

  // ---- erasure of a subject (infrastructure/privacy_repository.py) ----

  /** The placeholder digests of an anonymized event, one for every namespace and event id. */
  function Digest(namespace: string, eventId: string): string {
    "deleted:" + namespace + ":" + eventId
  }

  function Anonymized(t: Transaction): Transaction {
    t.(subject := Digest("subject", t.eventId), transactionId := Digest("transaction", t.eventId),
       originalTransactionId := Digest("original", t.eventId))
  }

  /** The billing part of `delete_subject`: the subject's rows go, its events stay without their names. */
  function Erased(l: Ledger, subject: string): Ledger {
    Ledger(map id | id in l.events ::
             if l.events[id].subject == subject then Anonymized(l.events[id]) else l.events[id],
           map k | k in l.rows && k.subject != subject :: l.rows[k])
  }

  /** A SHA-256 digest in hexadecimal. Placeholders are kept as the text that is hashed, so that they never
      collide with one another or with a subject. */
  predicate IsHash(s: string) {
    |s| == 64 && forall i :: 0 <= i < |s| ==> '0' <= s[i] <= '9' || 'a' <= s[i] <= 'f'
  }

  lemma {:induction false} DigestIsNoHash(namespace: string, eventId: string)
    ensures !IsHash(Digest(namespace, eventId))
  {
    assert Digest(namespace, eventId)[7] == ':';
  }

  /** The service never leaves tables that violate their constraints. */
  lemma {:induction false} RunKeepsLedger(ts: seq<Transaction>)
    ensures LedgerOk(After(ts))
    decreases |ts|
  {
    if ts != [] {
      var front, t := After(ts[..|ts| - 1]), ts[|ts| - 1];
      RunKeepsLedger(ts[..|ts| - 1]);
      if t.verified {
        ProposalFits(front, t);
        ProposedKeepsLedger(front, t, FromTransaction(t));
      }
    }
  }

  /** After an erasure neither table knows the subject, nobody else's rows or events have changed, no event id
      is forgotten and the constraints of the tables still hold. */
  lemma {:induction false} ErasureForgetsTheSubject(l: Ledger, subject: string)
    requires IsHash(subject)
    ensures var e := Erased(l, subject);
      && (forall id :: id in e.events ==> e.events[id].subject != subject)
      && (forall k :: k in e.rows <==> k in l.rows && k.subject != subject)
      && (forall id :: id in l.events && l.events[id].subject == subject ==>
            e.events[id] == l.events[id].(
              subject := "deleted:" + "subject" + ":" + l.events[id].eventId,
              transactionId := "deleted:" + "transaction" + ":" + l.events[id].eventId,
              originalTransactionId := "deleted:" + "original" + ":" + l.events[id].eventId))
      && e.events.Keys == l.events.Keys
      && (forall id :: id in l.events && l.events[id].subject != subject ==> e.events[id] == l.events[id])
      && (forall k :: k in l.rows && k.subject != subject ==> k in e.rows && e.rows[k] == l.rows[k])
      && (LedgerOk(l) ==> LedgerOk(e))
  {
    forall id | id in l.events ensures Erased(l, subject).events[id].subject != subject {
      DigestIsNoHash("subject", l.events[id].eventId);
    }
  }

  /** When the store sends an erased subject's events again, an event that was already recorded is
      answered with an error and restores nothing; only an event that is new is granted. */
  lemma {:induction false} ReplayAfterErasure(l: Ledger, t: Transaction)
    requires t.verified
    ensures var e := Erased(l, t.subject);
      && (t.eventId in l.events ==> Answer(e, t) == Failure(EventWithoutEntitlement) && Applied(e, t) == e)
      && (t.eventId !in l.events ==> Answer(e, t) == Success(FromTransaction(t)))
  {
    assert KeyOf(t) !in Erased(l, t.subject).rows;
  }
}
