/** The two services, the network and the failures between them, as one state machine. Its steps are cut
    where the Gateway commits or awaits; other coroutines, the worker, the Account Service and crashes may
    come in between. */
module Protocol {
  import opened Types
  import opened GatewayModels
  import opened AccountClient
  import opened DeliveryQueue
  import opened EventService
  import opened AsyncFallback
  import AS = AccountService

  /** `opaqueErrors` tells whether a caller can see an error status that `apply` did not send, such as a 500. */
  datatype Config = Config(fallback: bool, opaqueErrors: bool, settings: Settings)

  /** Where a submission that stored its event stands. */
  datatype Phase = Inserted | Calling | Closing(outcome: Outcome)

  datatype Submission = Submission(payload: Command, phase: Phase)

  /** The rest of the worker's batch, and the row it has loaded for the first of it. */
  datatype WorkerState = WorkerState(batch: seq<EventId>, current: Option<Delivery>)

  const IDLE := WorkerState([], None)

  datatype Answered = Answered(command: Command, reply: AS.Reply)

  /** History: the start of a delivery attempt and the attempt count it found. */
  datatype Start = Start(at: real, count: nat)

  datatype System = System(
    gateway: Tables,
    ledger: AS.Ledger,
    sent: set<Command>,          // every request ever sent; it may still arrive
    replies: set<Answered>,      // every reply ever sent; it may still arrive
    looked: multiset<EventCreate>,
    active: map<EventId, Submission>,
    worker: WorkerState,
    counters: Counters,
    starts: map<EventId, seq<Start>>,
    clock: real)

  const INIT := System(Tables(map[], map[], []), AS.EMPTY, {}, {}, multiset{}, map[], IDLE, ZERO, map[], 0.0)

  datatype Action =
    | Lookup(create: EventCreate)
    | Insert(create: EventCreate)
    | RecordStored(id: EventId)
    | Send(id: EventId)
    | Settle(id: EventId, outcome: Outcome, traceId: string)
    | RecordFinal(id: EventId)
    | Abandon(id: EventId)
    | Fetch
    | StartDelivery
    | SendDelivery
    | SettleDelivery(outcome: Outcome, jitter: real)
    | Process(command: Command)
    | Crash

  datatype Step = Step(at: real, action: Action)

  /** A status that is an error for the Gateway but did not come from `apply`. */
  predicate Opaque(status: int) {
    status >= 400 && status !in {502, 503, 504}
  }

  /** A response comes from the Account Service, unless opaque errors are possible. */
  ghost predicate Credible(cfg: Config, s: System, p: Command, outcome: Outcome) {
    outcome.Response? ==>
      || (exists r :: Answered(p, r) in s.replies && r.Status() == outcome.status)
      || (cfg.opaqueErrors && Opaque(outcome.status))
  }

  ghost predicate Enabled(cfg: Config, s: System, step: Step) {
    match step.action
    case Lookup(c) => true
    case Insert(c) => c in s.looked
    case RecordStored(id) => id in s.active && s.active[id].phase == Inserted
    case Send(id) => id in s.active && s.active[id].phase == Calling
    case Settle(id, outcome, _) =>
      id in s.active && s.active[id].phase == Calling && Credible(cfg, s, s.active[id].payload, outcome)
    case RecordFinal(id) => id in s.active && s.active[id].phase.Closing?
    case Abandon(id) => id in s.active
    case Fetch => cfg.fallback && s.worker == IDLE
    case StartDelivery => s.worker.batch != [] && s.worker.current.None?
    case SendDelivery => s.worker.current.Some?
    case SettleDelivery(outcome, jitter) =>
      && s.worker.current.Some? && Credible(cfg, s, s.worker.current.value.payload, outcome)
      && 0.0 <= jitter <= cfg.settings.jitter
    case Process(p) => p in s.sent
    case Crash => true
  }

  /** Objects a coroutine holds refer to rows that exist. */
  ghost predicate Typed(cfg: Config, s: System) {
    && cfg.settings.Valid()
    && s.ledger.WellFormed()
    && (forall id :: id in s.active ==> id in s.gateway.events)
    && (s.worker.current.Some? ==> s.worker.batch != [] && s.worker.batch[0] in s.gateway.events)
  }

  /** Lines of `submit` up to the first commit, for an id that is known. */
  function Recognising(s: System, c: EventCreate): System
    requires c.eventId in s.gateway.events
  {
    s.(gateway := Recognised(s.gateway, c).0)
  }

  function Inserting(s: System, c: EventCreate): System {
    var t := s.(looked := s.looked - multiset{c});
    if c.eventId in s.gateway.events then Recognising(t, c)
    else t.(gateway := Stored(s.gateway, c), active := s.active[c.eventId := Submission(PayloadFrom(c), Inserted)])
  }

  function Settling(cfg: Config, s: System, id: EventId, outcome: Outcome, traceId: string, now: real): System
    requires id in s.active && id in s.gateway.events
  {
    var queued := Verdict(outcome, cfg.fallback) == Some(QUEUED);
    s.(
      gateway := Settled(s.gateway, id, s.active[id].payload, outcome, cfg.fallback, traceId, now),
      counters := if queued then s.counters.(queued := s.counters.queued + 1) else s.counters,
      active := if FinalAction(outcome, cfg.fallback).Some? then s.active[id := s.active[id].(phase := Closing(outcome))]
                else s.active - {id})
  }

  function StartsOf(s: System, id: EventId): seq<Start> {
    if id in s.starts then s.starts[id] else []
  }

  function Starting(s: System, now: real): System
    requires s.worker.batch != []
  {
    var id, rest := s.worker.batch[0], s.worker.batch[1..];
    if id !in s.gateway.deliveries then s.(worker := WorkerState(rest, None))
    else if id !in s.gateway.events then
      s.(gateway := s.gateway.(deliveries := s.gateway.deliveries - {id}), worker := WorkerState(rest, None))
    else
      var row := s.gateway.deliveries[id];
      s.(worker := WorkerState(s.worker.batch, Some(row)),
         starts := s.starts[id := StartsOf(s, id) + [Start(now, row.attempts)]])
  }

  function SettlingDelivery(cfg: Config, s: System, outcome: Outcome, jitter: real, now: real): System
    requires s.worker.current.Some? && s.worker.batch != [] && s.worker.batch[0] in s.gateway.events
    requires cfg.settings.Valid() && 0.0 <= jitter <= cfg.settings.jitter
  {
    var d := s.worker.current.value;
    var delay := Backoff(cfg.settings, d.attempts + 1, jitter);
    s.(
      gateway := Delivered(s.gateway, s.worker.batch[0], d, outcome, now, delay),
      counters := Tallied(s.counters, outcome),
      worker := if outcome.Uncaught? then IDLE else WorkerState(s.worker.batch[1..], None))
  }

  function Processing(s: System, p: Command): System
    requires s.ledger.WellFormed()
  {
    var call := AS.Call(p.accountId, p);
    s.(ledger := AS.Execute(s.ledger, call), replies := s.replies + {Answered(p, AS.Decide(s.ledger, call))})
  }

  ghost function Next(cfg: Config, s: System, step: Step): (r: System)
    requires Typed(cfg, s) && Enabled(cfg, s, step)
    ensures Typed(cfg, r)
  {
    var t := s.(clock := step.at);
    match step.action
    case Lookup(c) => if c.eventId in t.gateway.events then Recognising(t, c) else t.(looked := t.looked + multiset{c})
    case Insert(c) => Inserting(t, c)
    case RecordStored(id) =>
      t.(gateway := Noted(t.gateway, EventStored, id), active := t.active[id := t.active[id].(phase := Calling)])
    case Send(id) => t.(sent := t.sent + {t.active[id].payload})
    case Settle(id, outcome, traceId) => Settling(cfg, t, id, outcome, traceId, step.at)
    case RecordFinal(id) =>
      t.(gateway := Closed(t.gateway, id, t.active[id].phase.outcome, cfg.fallback), active := t.active - {id})
    case Abandon(id) => t.(active := t.active - {id})
    case Fetch =>
      t.(worker := WorkerState(Pick(t.gateway.deliveries, DueSet(t.gateway.deliveries, step.at), cfg.settings.batch), None))
    case StartDelivery => Starting(t, step.at)
    case SendDelivery => t.(sent := t.sent + {t.worker.current.value.payload})
    case SettleDelivery(outcome, jitter) => SettlingDelivery(cfg, t, outcome, jitter, step.at)
    case Process(p) => Processing(t, p)
    case Crash => t.(looked := multiset{}, active := map[], worker := IDLE, counters := ZERO)
  }

  lemma NextInserts(cfg: Config, s: System, step: Step)
    requires Typed(cfg, s) && Enabled(cfg, s, step) && step.action.Insert?
    ensures Next(cfg, s, step) == Inserting(s.(clock := step.at), step.action.create)
  {
  }

  lemma NextSettles(cfg: Config, s: System, step: Step)
    requires Typed(cfg, s) && Enabled(cfg, s, step) && step.action.Settle?
    ensures Next(cfg, s, step) ==
            Settling(cfg, s.(clock := step.at), step.action.id, step.action.outcome, step.action.traceId, step.at)
  {
  }

  lemma NextStarts(cfg: Config, s: System, step: Step)
    requires Typed(cfg, s) && Enabled(cfg, s, step) && step.action.StartDelivery?
    ensures Next(cfg, s, step) == Starting(s.(clock := step.at), step.at)
  {
  }

  lemma NextSettlesDelivery(cfg: Config, s: System, step: Step)
    requires Typed(cfg, s) && Enabled(cfg, s, step) && step.action.SettleDelivery?
    ensures Next(cfg, s, step) == SettlingDelivery(cfg, s.(clock := step.at), step.action.outcome, step.action.jitter, step.at)
  {
  }

  /** A run: every step is possible where it is taken. */
  ghost predicate Legal(cfg: Config, s: System, run: seq<Step>)
    requires Typed(cfg, s)
    decreases |run|
  {
    run != [] ==> Enabled(cfg, s, run[0]) && Legal(cfg, Next(cfg, s, run[0]), run[1..])
  }

  ghost function After(cfg: Config, s: System, run: seq<Step>): (r: System)
    requires Typed(cfg, s) && Legal(cfg, s, run)
    ensures Typed(cfg, r)
    decreases |run|
  {
    if run == [] then s else After(cfg, Next(cfg, s, run[0]), run[1..])
  }

  ghost predicate CrashFree(run: seq<Step>) {
    forall i :: 0 <= i < |run| ==> !run[i].action.Crash?
  }
}
