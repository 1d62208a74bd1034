/** In every reachable state the Gateway's statuses, its queue and the Account Service's ledger agree. */
module Agreement {
  import opened Types
  import opened GatewayModels
  import opened AccountClient
  import opened DeliveryQueue
  import opened EventService
  import opened AsyncFallback
  import opened Protocol
  import AS = AccountService

  function StatusOf(t: Tables, id: EventId): Option<Status> {
    if id in t.events then Some(t.events[id].status) else None
  }

  predicate Terminal(st: Option<Status>) {
    st == Some(APPLIED) || st == Some(FAILED)
  }

  /** Single owner: an event is queued exactly when its delivery row exists, with the payload of the event. */
  ghost predicate QueueOwned(t: Tables) {
    && (forall id :: id in t.deliveries <==> StatusOf(t, id) == Some(QUEUED))
    && (forall id :: id in t.deliveries ==> t.deliveries[id].payload == PayloadOf(id, t.events[id]))
  }

  /** The command belongs to a stored event and carries its data. */
  ghost predicate Belongs(t: Tables, p: Command) {
    p.eventId in t.events && p == PayloadOf(p.eventId, t.events[p.eventId])
  }

  ghost predicate SentBelong(t: Tables, sent: set<Command>) {
    forall p :: p in sent ==> Belongs(t, p)
  }

  /** Every transaction is the one of a stored event. */
  ghost predicate LedgerBelongs(t: Tables, l: AS.Ledger) {
    forall id :: id in l.transactions ==>
      id in t.events && l.transactions[id] == AS.TransactionOf(PayloadOf(id, t.events[id]))
  }

  /** The command is not applied and cannot be: its account has another currency. */
  ghost predicate Barred(l: AS.Ledger, p: Command) {
    && p.eventId !in l.transactions
    && p.accountId in l.accounts && l.accounts[p.accountId].currency != p.currency
  }

  ghost predicate ReplyHolds(l: AS.Ledger, a: Answered) {
    if a.reply.Accepted() then a.command.eventId in l.transactions
    else Barred(l, a.command) && a.reply.Status() >= 400
  }

  ghost predicate RepliesHold(s: System) {
    forall a :: a in s.replies ==> Belongs(s.gateway, a.command) && ReplyHolds(s.ledger, a)
  }

  /** Whether FAILED always means that the Account Service refused the event. */
  predicate Reliable(cfg: Config) {
    cfg.fallback && !cfg.opaqueErrors
  }

  ghost predicate Settles(cfg: Config, t: Tables, l: AS.Ledger) {
    && (forall id :: StatusOf(t, id) == Some(APPLIED) ==> id in l.transactions)
    && (Reliable(cfg) ==> forall id :: StatusOf(t, id) == Some(FAILED) ==> Barred(l, PayloadOf(id, t.events[id])))
  }

  ghost predicate Submits(t: Tables, id: EventId, sub: Submission) {
    && id in t.events && sub.payload == PayloadOf(id, t.events[id])
    && (!sub.phase.Closing? ==> t.events[id].status == PENDING)
  }

  ghost predicate SubmissionsOwn(t: Tables, active: map<EventId, Submission>) {
    forall id :: id in active ==> Submits(t, id, active[id])
  }

  ghost predicate WorkerOwns(t: Tables, w: WorkerState) {
    && Distinct(w.batch)
    && (forall i :: 0 <= i < |w.batch| ==> w.batch[i] in t.deliveries)
    && (w.current.Some? ==> w.batch != [] && t.deliveries[w.batch[0]] == w.current.value)
  }

  ghost predicate Inv(cfg: Config, s: System) {
    && Typed(cfg, s)
    && QueueOwned(s.gateway)
    && SentBelong(s.gateway, s.sent)
    && LedgerBelongs(s.gateway, s.ledger)
    && RepliesHold(s)
    && Settles(cfg, s.gateway, s.ledger)
    && SubmissionsOwn(s.gateway, s.active)
    && WorkerOwns(s.gateway, s.worker)
  }

  // ----- what one step keeps -----

  /** Events keep their data; rows of other ids than `id` are as before. */
  ghost predicate OnlyTouches(t: Tables, u: Tables, id: EventId) {
    && (forall o :: o in t.events ==> o in u.events && PayloadOf(o, u.events[o]) == PayloadOf(o, t.events[o]))
    && (forall o :: o != id ==> StatusOf(u, o) == StatusOf(t, o))
    && (forall o :: o != id ==> (o in u.deliveries <==> o in t.deliveries))
    && (forall o :: o != id && o in t.deliveries ==> u.deliveries[o] == t.deliveries[o])
  }

  lemma TouchedBelongs(t: Tables, u: Tables, id: EventId, s: System)
    requires OnlyTouches(t, u, id) && s.gateway == t
    requires SentBelong(t, s.sent) && LedgerBelongs(t, s.ledger) && RepliesHold(s)
    ensures SentBelong(u, s.sent) && LedgerBelongs(u, s.ledger) && RepliesHold(s.(gateway := u))
  {
    forall p | Belongs(t, p) ensures Belongs(u, p) {
    }
  }

  lemma TouchedOwned(t: Tables, u: Tables, id: EventId)
    requires OnlyTouches(t, u, id) && QueueOwned(t)
    requires id in u.deliveries <==> StatusOf(u, id) == Some(QUEUED)
    requires id in u.deliveries ==> u.deliveries[id].payload == PayloadOf(id, u.events[id])
    ensures QueueOwned(u)
  {
  }

  lemma TouchedSettles(cfg: Config, t: Tables, u: Tables, id: EventId, l: AS.Ledger)
    requires OnlyTouches(t, u, id) && Settles(cfg, t, l)
    requires StatusOf(u, id) == Some(APPLIED) ==> id in l.transactions
    requires Reliable(cfg) && StatusOf(u, id) == Some(FAILED) ==> Barred(l, PayloadOf(id, u.events[id]))
    ensures Settles(cfg, u, l)
  {
  }

  lemma TouchedSubmissions(t: Tables, u: Tables, id: EventId, active: map<EventId, Submission>)
    requires OnlyTouches(t, u, id) && SubmissionsOwn(t, active)
    ensures SubmissionsOwn(u, active - {id})
    ensures StatusOf(u, id) == StatusOf(t, id) || StatusOf(t, id) != Some(PENDING) ==> SubmissionsOwn(u, active)
  {
    forall o | o in active && (o != id || StatusOf(u, id) == StatusOf(t, id) || StatusOf(t, id) != Some(PENDING))
      ensures Submits(u, o, active[o])
    {
      assert Submits(t, o, active[o]);
      assert o != id ==> StatusOf(u, o) == StatusOf(t, o);
    }
  }

  /** A credible verdict on a command holds in the ledger. */
  lemma CredibleVerdict(cfg: Config, s: System, p: Command, outcome: Outcome)
    requires RepliesHold(s) && Credible(cfg, s, p, outcome)
    ensures outcome.Response? && outcome.status < 400 ==> p.eventId in s.ledger.transactions
    ensures Reliable(cfg) && outcome.Response? && outcome.status >= 400 ==> Barred(s.ledger, p)
  {
    if outcome.Response? && exists r :: Answered(p, r) in s.replies && r.Status() == outcome.status {
      var r :| Answered(p, r) in s.replies && r.Status() == outcome.status;
      assert ReplyHolds(s.ledger, Answered(p, r));
    }
  }

  /** The commit after a call: one event leaves PENDING, and gains a delivery row if it becomes QUEUED. */
  lemma SettledEffect(t: Tables, id: EventId, payload: Command, outcome: Outcome, fallback: bool, traceId: string, now: real)
    requires StatusOf(t, id) == Some(PENDING) && id !in t.deliveries && payload == PayloadOf(id, t.events[id])
    ensures var u := Settled(t, id, payload, outcome, fallback, traceId, now);
            var verdict := Verdict(outcome, fallback);
            && OnlyTouches(t, u, id)
            && StatusOf(u, id) == (if verdict.Some? then verdict else Some(PENDING))
            && (id in u.deliveries <==> verdict == Some(QUEUED))
            && (id in u.deliveries ==> u.deliveries[id].payload == PayloadOf(id, u.events[id]))
  {
  }

  lemma SettleKeeps(cfg: Config, s: System, id: EventId, outcome: Outcome, traceId: string, now: real)
    requires Inv(cfg, s) && id in s.active && s.active[id].phase == Calling
    requires Credible(cfg, s, s.active[id].payload, outcome)
    ensures Inv(cfg, Settling(cfg, s, id, outcome, traceId, now))
  {
    var t, r := s.gateway, Settling(cfg, s, id, outcome, traceId, now);
    assert Submits(t, id, s.active[id]);
    assert StatusOf(t, id) == Some(PENDING);
    CredibleVerdict(cfg, s, s.active[id].payload, outcome);
    SettledEffect(t, id, s.active[id].payload, outcome, cfg.fallback, traceId, now);
    SettledKeeps(cfg, s, r, id);
    SettledSubmissions(t, r.gateway, id, s.active, Closing(outcome));
    QueuedWorker(t, r.gateway, s.worker, id);
  }

  /** The settled submission is gone or only has its last audit record to write; the others are as before. */
  lemma SettledSubmissions(t: Tables, u: Tables, id: EventId, active: map<EventId, Submission>, phase: Phase)
    requires OnlyTouches(t, u, id) && SubmissionsOwn(t, active) && id in active && phase.Closing?
    ensures SubmissionsOwn(u, active - {id}) && SubmissionsOwn(u, active[id := active[id].(phase := phase)])
  {
    TouchedSubmissions(t, u, id, active);
    var after := active[id := active[id].(phase := phase)];
    forall o | o in after ensures Submits(u, o, after[o]) {
      if o == id {
        assert Submits(t, id, active[id]);
      } else {
        assert o in active - {id} && (active - {id})[o] == after[o];
      }
    }
  }

  lemma QueuedWorker(t: Tables, u: Tables, w: WorkerState, id: EventId)
    requires WorkerOwns(t, w) && OnlyTouches(t, u, id) && id !in t.deliveries
    ensures WorkerOwns(u, w)
  {
  }

  /** The parts of the invariant that concern tables and ledger, when one event changes its status rightly. */
  lemma SettledKeeps(cfg: Config, s: System, r: System, id: EventId)
    requires Inv(cfg, s) && OnlyTouches(s.gateway, r.gateway, id)
    requires r.ledger == s.ledger && r.sent == s.sent && r.replies == s.replies
    requires id in r.gateway.deliveries <==> StatusOf(r.gateway, id) == Some(QUEUED)
    requires id in r.gateway.deliveries ==> r.gateway.deliveries[id].payload == PayloadOf(id, r.gateway.events[id])
    requires StatusOf(r.gateway, id) == Some(APPLIED) ==> id in s.ledger.transactions
    requires Reliable(cfg) && StatusOf(r.gateway, id) == Some(FAILED) ==>
               Barred(s.ledger, PayloadOf(id, r.gateway.events[id]))
    ensures QueueOwned(r.gateway) && SentBelong(r.gateway, r.sent) && LedgerBelongs(r.gateway, r.ledger)
    ensures RepliesHold(r) && Settles(cfg, r.gateway, r.ledger)
  {
    TouchedBelongs(s.gateway, r.gateway, id, s);
    TouchedOwned(s.gateway, r.gateway, id);
    TouchedSettles(cfg, s.gateway, r.gateway, id, s.ledger);
  }

  lemma StoredEffect(t: Tables, c: EventCreate)
    requires c.eventId !in t.events && QueueOwned(t)
    ensures var u := Stored(t, c);
            && OnlyTouches(t, u, c.eventId) && StatusOf(u, c.eventId) == Some(PENDING) && c.eventId !in u.deliveries
            && PayloadOf(c.eventId, u.events[c.eventId]) == PayloadFrom(c)
  {
    assert StatusOf(t, c.eventId) == None;
  }

  lemma InsertKeeps(cfg: Config, s: System, c: EventCreate)
    requires Inv(cfg, s) && c.eventId !in s.gateway.events
    ensures Inv(cfg, Inserting(s, c))
  {
    var t, r := s.gateway, Inserting(s, c);
    StoredEffect(t, c);
    SettledKeeps(cfg, s, r, c.eventId);
    assert SubmissionsOwn(r.gateway, r.active) by {
      TouchedSubmissions(t, r.gateway, c.eventId, s.active);
    }
    assert WorkerOwns(r.gateway, r.worker);
  }

  /** The commit after a delivery attempt: the row stays with its event queued, or both are settled for good. */
  lemma DeliveredEffect(t: Tables, id: EventId, d: Delivery, outcome: Outcome, now: real, delay: real)
    requires StatusOf(t, id) == Some(QUEUED) && id in t.deliveries && t.deliveries[id] == d
    requires d.payload == PayloadOf(id, t.events[id])
    ensures var u := Delivered(t, id, d, outcome, now, delay);
            && OnlyTouches(t, u, id)
            && StatusOf(u, id) == Some(if !outcome.Response? then QUEUED else if outcome.status >= 400 then FAILED else APPLIED)
            && (id in u.deliveries <==> !outcome.Response?)
            && (id in u.deliveries ==> u.deliveries[id].payload == PayloadOf(id, u.events[id]))
  {
  }

  /** The row the worker has loaded is the stored one, and belongs to its queued event. */
  ghost predicate Loaded(s: System) {
    && s.worker.batch != [] && s.worker.current.Some? && s.worker.batch[0] in s.gateway.deliveries
    && s.gateway.deliveries[s.worker.batch[0]] == s.worker.current.value
    && StatusOf(s.gateway, s.worker.batch[0]) == Some(QUEUED)
    && s.worker.current.value.payload == PayloadOf(s.worker.batch[0], s.gateway.events[s.worker.batch[0]])
  }

  lemma CurrentLoaded(s: System)
    requires QueueOwned(s.gateway) && WorkerOwns(s.gateway, s.worker) && s.worker.current.Some?
    ensures Loaded(s)
  {
    assert s.worker.batch[0] in s.gateway.deliveries;
  }

  lemma SettlingDeliveryTouches(cfg: Config, s: System, outcome: Outcome, jitter: real, now: real)
    requires cfg.settings.Valid() && Loaded(s) && 0.0 <= jitter <= cfg.settings.jitter
    ensures var id, r := s.worker.batch[0], SettlingDelivery(cfg, s, outcome, jitter, now);
            && OnlyTouches(s.gateway, r.gateway, id)
            && StatusOf(r.gateway, id) == Some(if !outcome.Response? then QUEUED else if outcome.status >= 400 then FAILED else APPLIED)
            && (id in r.gateway.deliveries <==> !outcome.Response?)
            && (id in r.gateway.deliveries ==> r.gateway.deliveries[id].payload == PayloadOf(id, r.gateway.events[id]))
  {
    var d := s.worker.current.value;
    DeliveredEffect(s.gateway, s.worker.batch[0], d, outcome, now, Backoff(cfg.settings, d.attempts + 1, jitter));
  }

  lemma SettleDeliveryKeeps(cfg: Config, s: System, outcome: Outcome, jitter: real, now: real)
    requires Inv(cfg, s) && s.worker.current.Some? && 0.0 <= jitter <= cfg.settings.jitter
    requires Credible(cfg, s, s.worker.current.value.payload, outcome)
    ensures Inv(cfg, SettlingDelivery(cfg, s, outcome, jitter, now))
  {
    var id, r := s.worker.batch[0], SettlingDelivery(cfg, s, outcome, jitter, now);
    CurrentLoaded(s);
    CredibleVerdict(cfg, s, s.worker.current.value.payload, outcome);
    SettlingDeliveryTouches(cfg, s, outcome, jitter, now);
    DeliveredWorker(s.gateway, r.gateway, s.worker, id);
    SettledKeeps(cfg, s, r, id);
    TouchedSubmissions(s.gateway, r.gateway, id, s.active);
  }

  /** The rest of the batch is not affected by the row that was settled. */
  lemma DeliveredWorker(t: Tables, u: Tables, w: WorkerState, id: EventId)
    requires WorkerOwns(t, w) && w.batch != [] && w.batch[0] == id && OnlyTouches(t, u, id)
    ensures WorkerOwns(u, WorkerState(w.batch[1..], None)) && WorkerOwns(u, IDLE)
  {
  }

  lemma ProcessKeeps(cfg: Config, s: System, p: Command)
    requires Inv(cfg, s) && p in s.sent
    ensures Inv(cfg, Processing(s, p))
  {
    var call := AS.Call(p.accountId, p);
    assert Belongs(s.gateway, p);
    AS.RunGrows(s.ledger, [call]);
    var m := Processing(s, p).ledger;
  }

  lemma FetchKeeps(cfg: Config, s: System, now: real)
    requires Inv(cfg, s)
    ensures var rows := s.gateway.deliveries;
            WorkerOwns(s.gateway, WorkerState(Pick(rows, DueSet(rows, now), cfg.settings.batch), None))
  {
    var rows := s.gateway.deliveries;
    BatchDistinct(rows, cfg.settings.batch, now, Pick(rows, DueSet(rows, now), cfg.settings.batch));
  }

  /** Steps that write at most audit records to the Gateway's tables and leave the ledger alone. */
  lemma QuietKeeps(cfg: Config, s: System, r: System)
    requires Inv(cfg, s) && Typed(cfg, r)
    requires r.gateway.events == s.gateway.events && r.gateway.deliveries == s.gateway.deliveries
    requires r.ledger == s.ledger && r.replies == s.replies
    requires SentBelong(s.gateway, r.sent) && SubmissionsOwn(s.gateway, r.active) && WorkerOwns(s.gateway, r.worker)
    ensures Inv(cfg, r)
  {
    assert forall id :: StatusOf(r.gateway, id) == StatusOf(s.gateway, id);
    assert forall p :: Belongs(r.gateway, p) == Belongs(s.gateway, p);
    forall id | id in r.active ensures Submits(r.gateway, id, r.active[id]) {
      assert Submits(s.gateway, id, r.active[id]);
    }
  }

  lemma SubmissionStepKeeps(cfg: Config, s: System, step: Step)
    requires Inv(cfg, s) && Enabled(cfg, s, step)
    requires step.action.RecordStored? || step.action.Send? || step.action.RecordFinal? || step.action.Abandon?
    ensures Inv(cfg, Next(cfg, s, step))
  {
    var id, r := step.action.id, Next(cfg, s, step);
    assert Submits(s.gateway, id, s.active[id]);
    forall o | o in r.active ensures Submits(s.gateway, o, r.active[o]) {
      assert Submits(s.gateway, o, s.active[o]);
    }
    QuietKeeps(cfg, s, r);
  }

  /** What the worker has loaded belongs to its event. */
  lemma CurrentBelongs(cfg: Config, s: System)
    requires Inv(cfg, s) && s.worker.current.Some?
    ensures Belongs(s.gateway, s.worker.current.value.payload)
  {
    CurrentLoaded(s);
  }

  lemma StartKeeps(cfg: Config, s: System, step: Step)
    requires Inv(cfg, s) && Enabled(cfg, s, step) && step.action.StartDelivery?
    ensures Inv(cfg, Next(cfg, s, step))
    ensures var r := Next(cfg, s, step);
            r.gateway == s.gateway && r.worker == WorkerState(s.worker.batch, Some(s.gateway.deliveries[s.worker.batch[0]]))
  {
    assert s.worker.batch[0] in s.gateway.deliveries;
    QuietKeeps(cfg, s, Next(cfg, s, step));
  }

  lemma LookupKeeps(cfg: Config, s: System, step: Step)
    requires Inv(cfg, s) && Enabled(cfg, s, step) && step.action.Lookup?
    ensures Inv(cfg, Next(cfg, s, step))
  {
    QuietKeeps(cfg, s, Next(cfg, s, step));
  }

  lemma InsertStepKeeps(cfg: Config, s: System, step: Step)
    requires Inv(cfg, s) && Enabled(cfg, s, step) && step.action.Insert?
    ensures Inv(cfg, Next(cfg, s, step))
  {
    var c, t := step.action.create, s.(clock := step.at);
    NextInserts(cfg, s, step);
    QuietKeeps(cfg, s, t);
    if c.eventId in s.gateway.events {
      QuietKeeps(cfg, t, Inserting(t, c));
    } else {
      InsertKeeps(cfg, t, c);
    }
  }

  lemma SettlementKeeps(cfg: Config, s: System, step: Step)
    requires Inv(cfg, s) && Enabled(cfg, s, step) && (step.action.Settle? || step.action.SettleDelivery?)
    ensures Inv(cfg, Next(cfg, s, step))
  {
    var t := s.(clock := step.at);
    QuietKeeps(cfg, s, t);
    if step.action.Settle? {
      SettleKeeps(cfg, t, step.action.id, step.action.outcome, step.action.traceId, step.at);
    } else {
      SettleDeliveryKeeps(cfg, t, step.action.outcome, step.action.jitter, step.at);
    }
  }

  lemma WorkerStepKeeps(cfg: Config, s: System, step: Step)
    requires Inv(cfg, s) && Enabled(cfg, s, step) && (step.action.Fetch? || step.action.SendDelivery? || step.action.Crash?)
    ensures Inv(cfg, Next(cfg, s, step))
  {
    FetchKeeps(cfg, s, step.at);
    if step.action.SendDelivery? {
      CurrentBelongs(cfg, s);
    }
    QuietKeeps(cfg, s, Next(cfg, s, step));
  }

  lemma ProcessStepKeeps(cfg: Config, s: System, step: Step)
    requires Inv(cfg, s) && Enabled(cfg, s, step) && step.action.Process?
    ensures Inv(cfg, Next(cfg, s, step))
  {
    var t := s.(clock := step.at);
    QuietKeeps(cfg, s, t);
    ProcessKeeps(cfg, t, step.action.command);
  }

  /** Every step, failures included, keeps the invariant. */
  lemma NextKeeps(cfg: Config, s: System, step: Step)
    requires Inv(cfg, s) && Enabled(cfg, s, step)
    ensures Inv(cfg, Next(cfg, s, step))
  {
    match step.action {
      case Lookup(_) => LookupKeeps(cfg, s, step);
      case Insert(_) => InsertStepKeeps(cfg, s, step);
      case RecordStored(_) => SubmissionStepKeeps(cfg, s, step);
      case Send(_) => SubmissionStepKeeps(cfg, s, step);
      case RecordFinal(_) => SubmissionStepKeeps(cfg, s, step);
      case Abandon(_) => SubmissionStepKeeps(cfg, s, step);
      case Settle(_, _, _) => SettlementKeeps(cfg, s, step);
      case SettleDelivery(_, _) => SettlementKeeps(cfg, s, step);
      case StartDelivery => StartKeeps(cfg, s, step);
      case Fetch => WorkerStepKeeps(cfg, s, step);
      case SendDelivery => WorkerStepKeeps(cfg, s, step);
      case Crash => WorkerStepKeeps(cfg, s, step);
      case Process(_) => ProcessStepKeeps(cfg, s, step);
    }
  }

  lemma {:induction false} RunKeeps(cfg: Config, s: System, run: seq<Step>)
    requires Inv(cfg, s) && Legal(cfg, s, run)
    ensures Inv(cfg, After(cfg, s, run))
    decreases |run|
  {
    if run != [] {
      NextKeeps(cfg, s, run[0]);
      RunKeeps(cfg, Next(cfg, s, run[0]), run[1..]);
    }
  }

  lemma InitInv(cfg: Config)
    requires cfg.settings.Valid()
    ensures Inv(cfg, INIT)
  {
  }
}
