/** The tables of the Event Gateway and the values stored in them. */
module GatewayModels {
  import opened Types

  /** JSON metadata of an event, its values kept as text. */
  type Metadata = map<string, string>

  datatype Status = PENDING | QUEUED | APPLIED | FAILED

  /** The body of POST /events. */
  datatype EventCreate = EventCreate(
    eventId: EventId, accountId: AccountId, kind: Kind, amount: Amount, currency: Currency, at: int,
    metadata: Option<Metadata>)

  /** A row of the events table, whose key is the event id. */
  datatype Event = Event(
    accountId: AccountId, kind: Kind, amount: Amount, currency: Currency, at: int,
    metadata: Option<Metadata>, status: Status)

  /** A row of pending_deliveries, whose key is the event id. */
  datatype Delivery = Delivery(
    accountId: AccountId, payload: Command, traceId: string, attempts: nat, nextAttemptAt: real)

  type Rows = map<EventId, Delivery>

  datatype AuditAction =
    | EventStored
    | EventReplayed
    | EventConflictRejected
    | EventApplied
    | EventProcessingFailed
    | EventQueued
    | EventQueueRetryScheduled(attempt: nat, nextAttemptAt: real)
    | EventQueueRejected
    | EventAppliedFromQueue(attempts: nat)

  datatype AuditRecord = AuditRecord(action: AuditAction, eventId: EventId)

  datatype Tables = Tables(events: map<EventId, Event>, deliveries: Rows, audit: seq<AuditRecord>)

  /** What others commit during a suspension: rows written, delivery rows removed, records added. */
  datatype Commits = Commits(events: map<EventId, Event>, deliveries: Rows, removed: set<EventId>, audit: seq<AuditRecord>)
  {
    /** None of the commits touches the rows of `id`. */
    predicate Spare(id: EventId) {
      id !in events && id !in deliveries && id !in removed
    }
  }

  function Merged(t: Tables, others: Commits): Tables {
    Tables(t.events + others.events, t.deliveries - others.removed + others.deliveries, t.audit + others.audit)
  }

  const NOTHING := Commits(map[], map[], {}, [])

  lemma MergedNothing(t: Tables)
    ensures Merged(t, NOTHING) == t
  {
    assert t.events + NOTHING.events == t.events && t.deliveries - NOTHING.removed + NOTHING.deliveries == t.deliveries;
    assert t.audit + NOTHING.audit == t.audit;
  }

  /** The Gateway's database; a method that returns has committed. */
  class Database {
    var events: map<EventId, Event>
    var deliveries: Rows
    var audit: seq<AuditRecord>

    ghost function Content(): Tables
      reads this
    {
      Tables(events, deliveries, audit)
    }

    constructor ()
      ensures Content() == Tables(map[], map[], [])
    {
      events, deliveries, audit := map[], map[], [];
    }

    method Record(action: AuditAction, id: EventId)
      modifies this
      ensures Content() == old(Content()).(audit := old(audit) + [AuditRecord(action, id)])
    {
      audit := audit + [AuditRecord(action, id)];
    }

    /** Other coroutines commit while this one is suspended. */
    method Yield(others: Commits)
      modifies this
      ensures Content() == Merged(old(Content()), others)
    {
      events := events + others.events;
      deliveries := deliveries - others.removed + others.deliveries;
      audit := audit + others.audit;
    }
  }

  /** The process-local counters of the fallback queue. */
  datatype Counters = Counters(queued: nat, processed: nat, retried: nat, failed: nat)

  const ZERO := Counters(0, 0, 0, 0)

  class Metrics {
    var counts: Counters

    constructor ()
      ensures counts == ZERO
    {
      counts := ZERO;
    }
  }
}
