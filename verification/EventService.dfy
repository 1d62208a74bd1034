/** The Gateway's intake of events. */
module EventService {
  import opened Types
  import opened GatewayModels
  import opened AccountClient
  import opened DeliveryQueue

  function PayloadFrom(c: EventCreate): Command {
    Command(c.eventId, c.accountId, c.kind, c.amount, c.currency, c.at)
  }

  function EventFrom(c: EventCreate): Event {
    Event(c.accountId, c.kind, c.amount, c.currency, c.at, c.metadata, PENDING)
  }

  /** The payload built from a stored event. */
  function PayloadOf(id: EventId, e: Event): Command {
    Command(id, e.accountId, e.kind, e.amount, e.currency, e.at)
  }

  /** An empty dictionary counts as no metadata, as Python's `or` makes it. */
  function Normal(m: Option<Metadata>): Option<Metadata> {
    if m == Some(map[]) then None else m
  }

  predicate SameEvent(e: Event, c: EventCreate) {
    && e.accountId == c.accountId
    && e.kind == c.kind
    && e.amount == c.amount
    && e.currency == c.currency
    && e.at == c.at
    && Normal(e.metadata) == c.metadata
  }

  /** Resubmitting a stored event is recognised as a replay iff the data match up to an empty dictionary and
      the submitted metadata is not itself the empty dictionary. */
  lemma ReplayRecognised(e: Event, c: EventCreate)
    ensures SameEvent(e, c) <==>
            && PayloadOf(c.eventId, e) == PayloadFrom(c)
            && Normal(e.metadata) == Normal(c.metadata)
            && c.metadata != Some(map[])
  {
  }

  /** An identical resubmission is recognised exactly when its metadata is not the empty dictionary. */
  lemma IdenticalReplay(c: EventCreate)
    ensures SameEvent(EventFrom(c), c) <==> c.metadata != Some(map[])
  {
    ReplayRecognised(EventFrom(c), c);
  }

  datatype Answer =
    | Accepted(event: Event, isNew: bool)
    | Refused(status: int)
    | Crashed  // an exception nobody handles

  /** How the insert of a new event goes: through, onto a row that another transaction committed since the lookup,
      or against a constraint of the database without such a row. */
  datatype Insertion = Fine | Taken(rival: Event) | Broken

  function Noted(t: Tables, action: AuditAction, id: EventId): Tables {
    t.(audit := t.audit + [AuditRecord(action, id)])
  }

  function WithStatus(t: Tables, id: EventId, status: Status): Tables
    requires id in t.events
  {
    t.(events := t.events[id := t.events[id].(status := status)])
  }

  /** A known event id: only an audit record is written. */
  function Recognised(t: Tables, c: EventCreate): (Tables, Answer)
    requires c.eventId in t.events
  {
    var e := t.events[c.eventId];
    if SameEvent(e, c) then (Noted(t, EventReplayed, c.eventId), Accepted(e, false))
    else (Noted(t, EventConflictRejected, c.eventId), Refused(409))
  }

  /** The first commit of a new event. */
  function Stored(t: Tables, c: EventCreate): Tables {
    t.(events := t.events[c.eventId := EventFrom(c)])
  }

  /** The status an outcome leads to; `None` leaves the row as it is. */
  function Verdict(outcome: Outcome, fallback: bool): Option<Status> {
    match outcome
    case Response(status) => Some(if status >= 400 then FAILED else APPLIED)
    case Unavailable => Some(if fallback then QUEUED else FAILED)
    case Uncaught => None
  }

  /** The commit that follows the call: the status, and for a queued event also its row and audit record. */
  function Settled(t: Tables, id: EventId, payload: Command, outcome: Outcome, fallback: bool, traceId: string, now: real): (r: Tables)
    requires id in t.events
    ensures id in r.events
  {
    match Verdict(outcome, fallback)
    case None => t
    case Some(QUEUED) =>
      var queued := t.(deliveries := Enqueued(t.deliveries, id, payload.accountId, payload, traceId, now));
      Noted(WithStatus(queued, id, QUEUED), EventQueued, id)
    case Some(status) => WithStatus(t, id, status)
  }

  /** The audit record of the last commit of a submission, which a queued or crashed one does not make. */
  function FinalAction(outcome: Outcome, fallback: bool): Option<AuditAction> {
    match Verdict(outcome, fallback)
    case Some(APPLIED) => Some(EventApplied)
    case Some(FAILED) => Some(EventProcessingFailed)
    case _ => None
  }

  function Closed(t: Tables, id: EventId, outcome: Outcome, fallback: bool): Tables {
    var last := FinalAction(outcome, fallback);
    if last.Some? then Noted(t, last.value, id) else t
  }

  /** What the submitter of a new event is told. */
  function Told(t: Tables, id: EventId, outcome: Outcome, fallback: bool): Answer
    requires id in t.events
  {
    match Verdict(outcome, fallback)
    case None => Crashed
    case Some(FAILED) => Refused(if outcome.Response? then outcome.status else 503)
    case Some(_) => Accepted(t.events[id], true)
  }

  /** A new event from its first commit to its last: the tables, and what the submitter is told. `others` are the
      commits made during the call. */
  function Completed(t: Tables, c: EventCreate, outcome: Outcome, others: Commits, fallback: bool, traceId: string, now: real):
    (Tables, Answer)
  {
    var id, resumed := c.eventId, Merged(Noted(Stored(t, c), EventStored, c.eventId), others);
    var settled := Settled(resumed, id, PayloadFrom(c), outcome, fallback, traceId, now);
    (Closed(settled, id, outcome, fallback), Told(settled, id, outcome, fallback))
  }

  /** The tables `u` hold the new event with status `status`, its record of storage and, if there are any, its
      delivery row `row` and last record `last`; otherwise they are `t` with the commits of others. */
  ghost predicate CameTo(t: Tables, c: EventCreate, others: Commits, u: Tables, status: Status, row: Option<Delivery>, last: Option<AuditAction>) {
    var id, v := c.eventId, Merged(t.(audit := t.audit + [AuditRecord(EventStored, c.eventId)]), others);
    && u.events == v.events[id := Event(c.accountId, c.kind, c.amount, c.currency, c.at, c.metadata, status)]
    && u.deliveries == (if row.Some? then v.deliveries[id := row.value] else v.deliveries)
    && u.audit == v.audit + (if last.Some? then [AuditRecord(last.value, id)] else [])
  }

  lemma StoredMerged(t: Tables, c: EventCreate, others: Commits)
    requires others.Spare(c.eventId)
    ensures var v, w := Merged(t.(audit := t.audit + [AuditRecord(EventStored, c.eventId)]), others),
                        Merged(Noted(Stored(t, c), EventStored, c.eventId), others);
            w == v.(events := v.events[c.eventId := Event(c.accountId, c.kind, c.amount, c.currency, c.at, c.metadata, PENDING)])
    ensures c.eventId in Merged(t, others).deliveries <==> c.eventId in t.deliveries
    ensures c.eventId in t.deliveries ==> Merged(t, others).deliveries[c.eventId] == t.deliveries[c.eventId]
  {
    var v, w := Merged(t.(audit := t.audit + [AuditRecord(EventStored, c.eventId)]), others),
                Merged(Noted(Stored(t, c), EventStored, c.eventId), others);
    assert w.events == v.events[c.eventId := EventFrom(c)];
  }

  /** What a submission comes to, by the outcome of its call: a refusal is passed on and the event FAILED; another
      response makes it APPLIED; an unavailable service makes it QUEUED with a row due at once, or FAILED and refused
      with 503; an uncaught exception leaves it PENDING. A row that is already there is refreshed. */
  lemma SubmissionEnds(t: Tables, c: EventCreate, outcome: Outcome, others: Commits, fallback: bool, traceId: string, now: real)
    requires others.Spare(c.eventId)
    ensures var (u, answer) := Completed(t, c, outcome, others, fallback, traceId, now);
            var e := Event(c.accountId, c.kind, c.amount, c.currency, c.at, c.metadata, PENDING);
            var payload := Command(c.eventId, c.accountId, c.kind, c.amount, c.currency, c.at);
            var row := if c.eventId in t.deliveries
                       then t.deliveries[c.eventId].(payload := payload, traceId := traceId, nextAttemptAt := now)
                       else Delivery(c.accountId, payload, traceId, 0, now);
            match outcome {
              case Response(status) =>
                if status >= 400
                then answer == Refused(status) && CameTo(t, c, others, u, FAILED, None, Some(EventProcessingFailed))
                else answer == Accepted(e.(status := APPLIED), true) && CameTo(t, c, others, u, APPLIED, None, Some(EventApplied))
              case Unavailable =>
                if fallback
                then answer == Accepted(e.(status := QUEUED), true) && CameTo(t, c, others, u, QUEUED, Some(row), Some(EventQueued))
                else answer == Refused(503) && CameTo(t, c, others, u, FAILED, None, Some(EventProcessingFailed))
              case Uncaught => answer == Crashed && CameTo(t, c, others, u, PENDING, None, None)
            }
  {
    StoredMerged(t, c, others);
  }

  class Service {
    const db: Database
    const queue: DeliveryQueueRepository
    const client: Client
    const metrics: Metrics
    const fallbackEnabled: bool

    ghost predicate Valid() {
      queue.db == db && client.Valid()
    }

    constructor (db: Database, client: Client, metrics: Metrics, fallbackEnabled: bool)
      requires client.Valid()
      ensures Valid() && this.db == db && this.client == client
      ensures this.metrics == metrics && this.fallbackEnabled == fallbackEnabled
    {
      this.db, this.client, this.metrics, this.fallbackEnabled := db, client, metrics, fallbackEnabled;
      queue := new DeliveryQueueRepository(db);
    }

    method Recognise(c: EventCreate) returns (answer: Answer)
      requires c.eventId in db.events
      modifies db
      ensures (db.Content(), answer) == Recognised(old(db.Content()), c)
    {
      var e := db.events[c.eventId];
      if !SameEvent(e, c) {
        db.Record(EventConflictRejected, c.eventId);
        return Refused(409);
      }
      db.Record(EventReplayed, c.eventId);
      return Accepted(e, false);
    }

    /** `insertion` tells how the insert goes, `asked` is the time of the breaker check, `others` are the commits
        made during the call, `now` is the time of the settlement. */
    method Submit(c: EventCreate, insertion: Insertion, asked: real, transport: nat -> Attempt,
                  others: Commits, traceId: string, now: real)
      returns (answer: Answer, calls: nat)
      requires Valid()
      requires others.Spare(c.eventId)
      modifies db, client.breaker, metrics
      ensures old(c.eventId in db.events) || !insertion.Fine? ==>
                calls == 0 && client.breaker.State() == old(client.breaker.State()) && metrics.counts == old(metrics.counts)
      ensures old(c.eventId in db.events) ==> (db.Content(), answer) == Recognised(old(db.Content()), c)
      ensures old(c.eventId !in db.events) && insertion.Taken? ==>
                (db.Content(), answer) ==
                  Recognised(old(db.Content()).(events := old(db.events)[c.eventId := insertion.rival]), c)
      ensures old(c.eventId !in db.events) && insertion.Broken? ==>
                db.Content() == Noted(old(db.Content()), EventConflictRejected, c.eventId) && answer == Refused(409)
      ensures old(c.eventId !in db.events) && insertion.Fine? ==>
                var call := Requested(client.limits, old(client.breaker.State()), asked, transport);
                && calls == call.calls
                && client.breaker.State() == Replay(client.limits, old(client.breaker.State()), call.notes)
                && (db.Content(), answer) ==
                     Completed(old(db.Content()), c, call.outcome, others, fallbackEnabled, traceId, now)
                && metrics.counts == (if call.outcome.Unavailable? && fallbackEnabled
                     then old(metrics.counts).(queued := old(metrics.counts.queued) + 1) else old(metrics.counts))
    {
      if c.eventId in db.events {
        answer := Recognise(c);
        return answer, 0;
      }
      if insertion.Taken? {
        db.events := db.events[c.eventId := insertion.rival];
      }
      if !insertion.Fine? {
        // The session is rolled back, and the event looked up again.
        if c.eventId in db.events {
          answer := Recognise(c);
          return answer, 0;
        }
        db.Record(EventConflictRejected, c.eventId);
        return Refused(409), 0;
      }
      db.events := db.events[c.eventId := EventFrom(c)];
      db.Record(EventStored, c.eventId);
      var payload := PayloadFrom(c);
      var outcome;
      outcome, calls := client.Request(asked, transport);
      db.Yield(others);
      var event := db.events[c.eventId];
      match outcome {
        case Uncaught =>
          return Crashed, calls;
        case Response(status) =>
          if status >= 400 {
            db.events := db.events[c.eventId := event.(status := FAILED)];
            db.Record(EventProcessingFailed, c.eventId);
            return Refused(status), calls;
          }
          event := event.(status := APPLIED);
        case Unavailable =>
          if fallbackEnabled {
            queue.Enqueue(c.eventId, c.accountId, payload, traceId, now);
            event := event.(status := QUEUED);
            db.events := db.events[c.eventId := event];
            db.Record(EventQueued, c.eventId);
            metrics.counts := metrics.counts.(queued := metrics.counts.queued + 1);
            return Accepted(event, true), calls;
          }
          db.events := db.events[c.eventId := event.(status := FAILED)];
          db.Record(EventProcessingFailed, c.eventId);
          return Refused(503), calls;
      }
      db.events := db.events[c.eventId := event];
      db.Record(EventApplied, c.eventId);
      return Accepted(event, true), calls;
    }
  }
}
