/** What each step of the protocol does to queue, statuses, counters and audit trail, in one relation that the
    results about whole runs build on. */
module StepEffects {
  import opened Types
  import opened GatewayModels
  import opened AccountClient
  import opened DeliveryQueue
  import opened EventService
  import opened AsyncFallback
  import opened Protocol
  import opened Agreement

  predicate IsRetry(r: AuditRecord) {
    r.action.EventQueueRetryScheduled?
  }

  /** The audit trail grows by at most one record, and by a retry of `id` iff `retry` holds. */
  ghost predicate Trail(t: Tables, u: Tables, id: EventId, retry: bool) {
    || (u.audit == t.audit && !retry)
    || (|u.audit| == |t.audit| + 1 && u.audit == t.audit + [u.audit[|t.audit|]]
        && (IsRetry(u.audit[|t.audit|]) <==> retry) && (retry ==> u.audit[|t.audit|].eventId == id))
  }

  /** What steps other than settlements can write to the Gateway's tables. */
  ghost predicate Quiet(t: Tables, u: Tables) {
    && u.deliveries == t.deliveries
    && (forall id :: id in t.events ==> id in u.events && u.events[id] == t.events[id])
    && (forall id :: id in u.events && id !in t.events ==> u.events[id].status == PENDING)
    && Trail(t, u, "", false)
  }

  /** A submission leaves PENDING; queued, it gains a fresh row that is due at once. */
  ghost predicate SettleEffect(cfg: Config, t: Tables, u: Tables, id: EventId, outcome: Outcome, now: real) {
    var verdict := Verdict(outcome, cfg.fallback);
    && OnlyTouches(t, u, id)
    && StatusOf(t, id) == Some(PENDING) && id !in t.deliveries
    && StatusOf(u, id) == (if verdict.Some? then verdict else Some(PENDING))
    && (id in u.deliveries <==> verdict == Some(QUEUED))
    && (id in u.deliveries ==> u.deliveries[id].attempts == 0 && u.deliveries[id].nextAttemptAt == now)
    && Trail(t, u, id, false)
  }

  /** A delivery attempt settles its event and removes the row, or reschedules the row. */
  ghost predicate DeliveryEffect(cfg: Config, t: Tables, u: Tables, id: EventId, d: Delivery, outcome: Outcome, jitter: real, now: real)
    requires cfg.settings.Valid() && 0.0 <= jitter <= cfg.settings.jitter
  {
    && OnlyTouches(t, u, id)
    && StatusOf(t, id) == Some(QUEUED) && id in t.deliveries && t.deliveries[id] == d
    && StatusOf(u, id) == Some(if !outcome.Response? then QUEUED else if outcome.status >= 400 then FAILED else APPLIED)
    && (id in u.deliveries <==> !outcome.Response?)
    && (outcome.Uncaught? ==> u.deliveries[id] == d)
    && (outcome.Unavailable? ==>
          && u.deliveries[id].attempts == d.attempts + 1
          && u.deliveries[id].nextAttemptAt == now + Backoff(cfg.settings, d.attempts + 1, jitter))
    && Trail(t, u, id, outcome.Unavailable?)
  }

  ghost predicate Effect(cfg: Config, s: System, step: Step, r: System) {
    var t, u, w := s.gateway, r.gateway, s.worker;
    && r.clock == step.at
    && match step.action
       case Settle(id, outcome, _) =>
         && SettleEffect(cfg, t, u, id, outcome, step.at)
         && r.worker == w && r.starts == s.starts
         && r.counters == (if Verdict(outcome, cfg.fallback) == Some(QUEUED)
                           then s.counters.(queued := s.counters.queued + 1) else s.counters)
       case SettleDelivery(outcome, jitter) =>
         && w.batch != [] && w.current.Some?
         && cfg.settings.Valid() && 0.0 <= jitter <= cfg.settings.jitter
         && DeliveryEffect(cfg, t, u, w.batch[0], w.current.value, outcome, jitter, step.at)
         && r.worker == (if outcome.Uncaught? then IDLE else WorkerState(w.batch[1..], None)) && r.starts == s.starts
         && r.counters == Tallied(s.counters, outcome)
       case StartDelivery =>
         && w.batch != [] && w.current.None? && w.batch[0] in t.deliveries
         && u == t && r.worker == WorkerState(w.batch, Some(t.deliveries[w.batch[0]]))
         && r.starts == s.starts[w.batch[0] := StartsOf(s, w.batch[0]) + [Start(step.at, t.deliveries[w.batch[0]].attempts)]]
         && r.counters == s.counters
       case Fetch =>
         && u == t && w == IDLE
         && r.worker == WorkerState(Pick(t.deliveries, DueSet(t.deliveries, step.at), cfg.settings.batch), None)
         && r.starts == s.starts && r.counters == s.counters
       case Crash =>
         u == t && r.worker == IDLE && r.starts == s.starts
       case _ =>
         Quiet(t, u) && r.worker == w && r.starts == s.starts && r.counters == s.counters
  }

  lemma SettledTrail(t: Tables, id: EventId, payload: Command, outcome: Outcome, fallback: bool, traceId: string, now: real)
    requires StatusOf(t, id) == Some(PENDING) && id !in t.deliveries
    ensures var u := Settled(t, id, payload, outcome, fallback, traceId, now);
            && (id in u.deliveries ==> u.deliveries[id].attempts == 0 && u.deliveries[id].nextAttemptAt == now)
            && Trail(t, u, id, false)
  {
  }

  lemma SettlingEffect(cfg: Config, s: System, id: EventId, outcome: Outcome, traceId: string, now: real)
    requires Inv(cfg, s) && id in s.active && s.active[id].phase == Calling
    ensures var r := Settling(cfg, s, id, outcome, traceId, now);
            && SettleEffect(cfg, s.gateway, r.gateway, id, outcome, now)
            && r.worker == s.worker && r.starts == s.starts && r.clock == s.clock
            && r.counters == (if Verdict(outcome, cfg.fallback) == Some(QUEUED)
                              then s.counters.(queued := s.counters.queued + 1) else s.counters)
  {
    assert Submits(s.gateway, id, s.active[id]);
    assert StatusOf(s.gateway, id) == Some(PENDING);
    SettledEffect(s.gateway, id, s.active[id].payload, outcome, cfg.fallback, traceId, now);
    SettledTrail(s.gateway, id, s.active[id].payload, outcome, cfg.fallback, traceId, now);
  }

  lemma DeliveredTrail(t: Tables, id: EventId, d: Delivery, outcome: Outcome, now: real, delay: real)
    requires StatusOf(t, id) == Some(QUEUED) && id in t.deliveries && t.deliveries[id] == d
    ensures var u := Delivered(t, id, d, outcome, now, delay);
            && (outcome.Uncaught? ==> id in u.deliveries && u.deliveries[id] == d)
            && (outcome.Unavailable? ==> id in u.deliveries && u.deliveries[id].attempts == d.attempts + 1
                                         && u.deliveries[id].nextAttemptAt == now + delay)
            && Trail(t, u, id, outcome.Unavailable?)
  {
  }

  lemma DeliveredIs(cfg: Config, t: Tables, id: EventId, d: Delivery, outcome: Outcome, jitter: real, now: real)
    requires cfg.settings.Valid() && 0.0 <= jitter <= cfg.settings.jitter
    requires StatusOf(t, id) == Some(QUEUED) && id in t.deliveries && t.deliveries[id] == d
    requires d.payload == PayloadOf(id, t.events[id])
    ensures DeliveryEffect(cfg, t, Delivered(t, id, d, outcome, now, Backoff(cfg.settings, d.attempts + 1, jitter)),
                           id, d, outcome, jitter, now)
  {
    var delay := Backoff(cfg.settings, d.attempts + 1, jitter);
    DeliveredEffect(t, id, d, outcome, now, delay);
    DeliveredTrail(t, id, d, outcome, now, delay);
  }

  lemma RecognisingQuiet(s: System, c: EventCreate)
    requires c.eventId in s.gateway.events
    ensures Quiet(s.gateway, Recognising(s, c).gateway)
  {
  }

  lemma InsertingQuiet(s: System, c: EventCreate)
    ensures Quiet(s.gateway, Inserting(s, c).gateway)
  {
    if c.eventId in s.gateway.events {
      RecognisingQuiet(s, c);
    }
  }

  lemma NotedQuiet(t: Tables, action: AuditAction, id: EventId)
    requires !action.EventQueueRetryScheduled?
    ensures Quiet(t, Noted(t, action, id))
  {
  }

  lemma IntakeEffect(cfg: Config, s: System, step: Step)
    requires Typed(cfg, s) && Enabled(cfg, s, step) && (step.action.Lookup? || step.action.Insert?)
    ensures Effect(cfg, s, step, Next(cfg, s, step))
  {
    var t, c := s.(clock := step.at), step.action.create;
    if step.action.Insert? {
      InsertingQuiet(t, c);
    } else if c.eventId in s.gateway.events {
      RecognisingQuiet(t, c);
    }
  }

  lemma SubmissionEffect(cfg: Config, s: System, step: Step)
    requires Typed(cfg, s) && Enabled(cfg, s, step)
    requires step.action.RecordStored? || step.action.RecordFinal? || step.action.Send? || step.action.Abandon?
    ensures Effect(cfg, s, step, Next(cfg, s, step))
  {
    var id := step.action.id;
    if step.action.RecordStored? {
      NotedQuiet(s.gateway, EventStored, id);
    } else if step.action.RecordFinal? {
      var last := FinalAction(s.active[id].phase.outcome, cfg.fallback);
      if last.Some? {
        NotedQuiet(s.gateway, last.value, id);
      }
    }
  }

  lemma SubmissionSettlementEffect(cfg: Config, s: System, step: Step)
    requires Inv(cfg, s) && Enabled(cfg, s, step) && step.action.Settle?
    ensures Effect(cfg, s, step, Next(cfg, s, step))
  {
    var t := s.(clock := step.at);
    QuietKeeps(cfg, s, t);
    SettlingEffect(cfg, t, step.action.id, step.action.outcome, step.action.traceId, step.at);
  }

  lemma SettlingDeliveryEffect(cfg: Config, s: System, outcome: Outcome, jitter: real, now: real)
    requires cfg.settings.Valid() && Loaded(s) && 0.0 <= jitter <= cfg.settings.jitter
    ensures var r := SettlingDelivery(cfg, s, outcome, jitter, now);
            && DeliveryEffect(cfg, s.gateway, r.gateway, s.worker.batch[0], s.worker.current.value, outcome, jitter, now)
            && r.worker == (if outcome.Uncaught? then IDLE else WorkerState(s.worker.batch[1..], None))
            && r.starts == s.starts && r.clock == s.clock && r.counters == Tallied(s.counters, outcome)
  {
    DeliveredIs(cfg, s.gateway, s.worker.batch[0], s.worker.current.value, outcome, jitter, now);
  }

  lemma DeliverySettlementEffect(cfg: Config, s: System, step: Step)
    requires Typed(cfg, s) && QueueOwned(s.gateway) && WorkerOwns(s.gateway, s.worker)
    requires Enabled(cfg, s, step) && step.action.SettleDelivery?
    ensures Effect(cfg, s, step, Next(cfg, s, step))
  {
    NextSettlesDelivery(cfg, s, step);
    CurrentLoaded(s);
    SettlingDeliveryEffect(cfg, s.(clock := step.at), step.action.outcome, step.action.jitter, step.at);
  }

  lemma OtherEffect(cfg: Config, s: System, step: Step)
    requires Typed(cfg, s) && Enabled(cfg, s, step)
    requires step.action.Fetch? || step.action.SendDelivery? || step.action.Process? || step.action.Crash?
    ensures Effect(cfg, s, step, Next(cfg, s, step))
  {
  }

  lemma StartEffect(cfg: Config, s: System, step: Step)
    requires Inv(cfg, s) && Enabled(cfg, s, step) && step.action.StartDelivery?
    ensures Effect(cfg, s, step, Next(cfg, s, step))
  {
    assert s.worker.batch[0] in s.gateway.deliveries;
  }

  /** Every possible step keeps the invariant and has its effect. */
  lemma NextEffect(cfg: Config, s: System, step: Step)
    requires Inv(cfg, s) && Enabled(cfg, s, step)
    ensures Inv(cfg, Next(cfg, s, step))
    ensures Effect(cfg, s, step, Next(cfg, s, step))
  {
    NextKeeps(cfg, s, step);
    match step.action {
      case Lookup(_) => IntakeEffect(cfg, s, step);
      case Insert(_) => IntakeEffect(cfg, s, step);
      case RecordStored(_) => SubmissionEffect(cfg, s, step);
      case RecordFinal(_) => SubmissionEffect(cfg, s, step);
      case Send(_) => SubmissionEffect(cfg, s, step);
      case Abandon(_) => SubmissionEffect(cfg, s, step);
      case Settle(_, _, _) => SubmissionSettlementEffect(cfg, s, step);
      case SettleDelivery(_, _) => DeliverySettlementEffect(cfg, s, step);
      case StartDelivery => StartEffect(cfg, s, step);
      case Fetch => OtherEffect(cfg, s, step);
      case SendDelivery => OtherEffect(cfg, s, step);
      case Process(_) => OtherEffect(cfg, s, step);
      case Crash => OtherEffect(cfg, s, step);
    }
  }
}
