/** How many records of each kind the Gateway's audit trail holds for an event, and how its retries are numbered. */
module AuditNumbers {
  import opened Types
  import opened GatewayModels
  import opened EventService
  import opened AsyncFallback
  import opened Protocol
  import opened Agreement
  import opened StepEffects
  import opened AuditTruth
  import opened QueueAccounts

  // ----- what a step writes -----

  function AnswerRecord(t: Tables, c: EventCreate): AuditRecord
    requires c.eventId in t.events
  {
    AuditRecord(if SameEvent(t.events[c.eventId], c) then EventReplayed else EventConflictRejected, c.eventId)
  }

  /** The audit record a step adds, if it adds one. */
  function Written(cfg: Config, s: System, step: Step): Option<AuditRecord>
    requires cfg.settings.Valid()
  {
    var t := s.gateway;
    match step.action
    case Lookup(c) => if c.eventId in t.events then Some(AnswerRecord(t, c)) else None
    case Insert(c) => if c.eventId in t.events then Some(AnswerRecord(t, c)) else None
    case RecordStored(id) => Some(AuditRecord(EventStored, id))
    case Settle(id, outcome, _) =>
      if Verdict(outcome, cfg.fallback) == Some(QUEUED) then Some(AuditRecord(EventQueued, id)) else None
    case RecordFinal(id) =>
      if id in s.active && s.active[id].phase.Closing? && FinalAction(s.active[id].phase.outcome, cfg.fallback).Some?
      then Some(AuditRecord(FinalAction(s.active[id].phase.outcome, cfg.fallback).value, id)) else None
    case SettleDelivery(outcome, jitter) =>
      if s.worker.batch == [] || s.worker.current.None? || !(0.0 <= jitter <= cfg.settings.jitter) then None
      else
        var id, n := s.worker.batch[0], s.worker.current.value.attempts + 1;
        match outcome {
          case Uncaught => None
          case Unavailable => Some(AuditRecord(EventQueueRetryScheduled(n, step.at + Backoff(cfg.settings, n, jitter)), id))
          case Response(status) => Some(AuditRecord(if status >= 400 then EventQueueRejected else EventAppliedFromQueue(n), id))
        }
    case _ => None
  }

  function Added(audit: seq<AuditRecord>, w: Option<AuditRecord>): seq<AuditRecord> {
    if w.Some? then audit + [w.value] else audit
  }

  lemma IntakeWrites(cfg: Config, s: System, step: Step)
    requires Typed(cfg, s) && Enabled(cfg, s, step) && (step.action.Lookup? || step.action.Insert?)
    ensures Next(cfg, s, step).gateway.audit == Added(s.gateway.audit, Written(cfg, s, step))
  {
  }

  lemma SettlementWrites(cfg: Config, s: System, step: Step)
    requires Typed(cfg, s) && Enabled(cfg, s, step) && step.action.Settle?
    ensures Next(cfg, s, step).gateway.audit == Added(s.gateway.audit, Written(cfg, s, step))
  {
    NextSettles(cfg, s, step);
  }

  lemma DeliveryWrites(cfg: Config, s: System, step: Step)
    requires Typed(cfg, s) && Enabled(cfg, s, step) && step.action.SettleDelivery?
    ensures Next(cfg, s, step).gateway.audit == Added(s.gateway.audit, Written(cfg, s, step))
  {
    NextSettlesDelivery(cfg, s, step);
  }

  lemma OthersWrite(cfg: Config, s: System, step: Step)
    requires Typed(cfg, s) && Enabled(cfg, s, step)
    requires !step.action.Lookup? && !step.action.Insert? && !step.action.Settle? && !step.action.SettleDelivery?
    ensures Next(cfg, s, step).gateway.audit == Added(s.gateway.audit, Written(cfg, s, step))
  {
  }

  lemma NextWrites(cfg: Config, s: System, step: Step)
    requires Typed(cfg, s) && Enabled(cfg, s, step)
    ensures Next(cfg, s, step).gateway.audit == Added(s.gateway.audit, Written(cfg, s, step))
  {
    match step.action {
      case Lookup(_) => IntakeWrites(cfg, s, step);
      case Insert(_) => IntakeWrites(cfg, s, step);
      case Settle(_, _, _) => SettlementWrites(cfg, s, step);
      case SettleDelivery(_, _) => DeliveryWrites(cfg, s, step);
      case _ => OthersWrite(cfg, s, step);
    }
  }

  // ----- where a step takes an event -----

  function PhaseOf(s: System, id: EventId): Option<Phase> {
    if id in s.active then Some(s.active[id].phase) else None
  }

  /** Status and phase of event `id` after a step. */
  function Moved(cfg: Config, s: System, step: Step, id: EventId): (Option<Status>, Option<Phase>) {
    var st, ph := StatusOf(s.gateway, id), PhaseOf(s, id);
    match step.action
    case Insert(c) => if id == c.eventId && st == None then (Some(PENDING), Some(Inserted)) else (st, ph)
    case RecordStored(o) => if id == o then (st, Some(Calling)) else (st, ph)
    case Settle(o, outcome, _) =>
      if id != o then (st, ph)
      else
        var verdict := Verdict(outcome, cfg.fallback);
        (if verdict.Some? then verdict else st, if FinalAction(outcome, cfg.fallback).Some? then Some(Closing(outcome)) else None)
    case RecordFinal(o) => (st, if id == o then None else ph)
    case Abandon(o) => (st, if id == o then None else ph)
    case Crash => (st, None)
    case SettleDelivery(outcome, _) =>
      if outcome.Response? && s.worker.batch != [] && s.worker.batch[0] == id
      then (Some(if outcome.status >= 400 then FAILED else APPLIED), ph) else (st, ph)
    case _ => (st, ph)
  }

  lemma SettlementMoves(cfg: Config, s: System, step: Step, id: EventId)
    requires Typed(cfg, s) && Enabled(cfg, s, step) && step.action.Settle?
    ensures var r := Next(cfg, s, step); (StatusOf(r.gateway, id), PhaseOf(r, id)) == Moved(cfg, s, step, id)
  {
    NextSettles(cfg, s, step);
  }

  lemma DeliveryMoves(cfg: Config, s: System, step: Step, id: EventId)
    requires Typed(cfg, s) && Enabled(cfg, s, step) && step.action.SettleDelivery?
    ensures var r := Next(cfg, s, step); (StatusOf(r.gateway, id), PhaseOf(r, id)) == Moved(cfg, s, step, id)
  {
    NextSettlesDelivery(cfg, s, step);
  }

  lemma InsertMoves(cfg: Config, s: System, step: Step, id: EventId)
    requires Typed(cfg, s) && Enabled(cfg, s, step) && step.action.Insert?
    ensures var r := Next(cfg, s, step); (StatusOf(r.gateway, id), PhaseOf(r, id)) == Moved(cfg, s, step, id)
  {
    NextInserts(cfg, s, step);
  }

  lemma RecordMoves(cfg: Config, s: System, step: Step, id: EventId)
    requires Typed(cfg, s) && Enabled(cfg, s, step)
    requires step.action.RecordStored? || step.action.RecordFinal? || step.action.Abandon?
    ensures var r := Next(cfg, s, step); (StatusOf(r.gateway, id), PhaseOf(r, id)) == Moved(cfg, s, step, id)
  {
  }

  predicate LeavesEvents(action: Action) {
    !action.Insert? && !action.Settle? && !action.SettleDelivery? && !action.RecordStored? && !action.RecordFinal? && !action.Abandon?
  }

  lemma OthersLeaveEvents(cfg: Config, s: System, step: Step, id: EventId)
    requires Typed(cfg, s) && Enabled(cfg, s, step) && LeavesEvents(step.action)
    ensures var r := Next(cfg, s, step); (StatusOf(r.gateway, id), PhaseOf(r, id)) == Moved(cfg, s, step, id)
  {
  }

  lemma NextMoves(cfg: Config, s: System, step: Step, id: EventId)
    requires Typed(cfg, s) && Enabled(cfg, s, step)
    ensures var r := Next(cfg, s, step); (StatusOf(r.gateway, id), PhaseOf(r, id)) == Moved(cfg, s, step, id)
  {
    match step.action {
      case Insert(_) => InsertMoves(cfg, s, step, id);
      case Settle(_, _, _) => SettlementMoves(cfg, s, step, id);
      case SettleDelivery(_, _) => DeliveryMoves(cfg, s, step, id);
      case RecordStored(_) => RecordMoves(cfg, s, step, id);
      case RecordFinal(_) => RecordMoves(cfg, s, step, id);
      case Abandon(_) => RecordMoves(cfg, s, step, id);
      case _ => OthersLeaveEvents(cfg, s, step, id);
    }
  }

  // ----- one record of each kind -----

  datatype Mark = OfStorage | OfQueueing | OfApplication | OfFailure | OfLateApplication | OfRejection

  predicate Bears(r: AuditRecord, m: Mark) {
    match m
    case OfStorage => r.action.EventStored?
    case OfQueueing => r.action.EventQueued?
    case OfApplication => r.action.EventApplied?
    case OfFailure => r.action.EventProcessingFailed?
    case OfLateApplication => r.action.EventAppliedFromQueue?
    case OfRejection => r.action.EventQueueRejected?
  }

  function Marks(audit: seq<AuditRecord>, id: EventId, m: Mark): nat {
    if audit == [] then 0
    else
      var r := audit[|audit| - 1];
      Marks(audit[..|audit| - 1], id, m) + if Bears(r, m) && r.eventId == id then 1 else 0
  }

  lemma MarksAdded(audit: seq<AuditRecord>, w: Option<AuditRecord>, id: EventId, m: Mark)
    ensures Marks(Added(audit, w), id, m) ==
            Marks(audit, id, m) + if w.Some? && Bears(w.value, m) && w.value.eventId == id then 1 else 0
  {
    if w.Some? {
      assert (audit + [w.value])[..|audit|] == audit;
    }
  }

  /** The numbers of records of one event. */
  datatype Tallies = Tallies(stored: nat, queued: nat, applied: nat, failed: nat, late: nat, rejected: nat)

  function TalliesOf(audit: seq<AuditRecord>, id: EventId): Tallies {
    Tallies(Marks(audit, id, OfStorage), Marks(audit, id, OfQueueing), Marks(audit, id, OfApplication),
            Marks(audit, id, OfFailure), Marks(audit, id, OfLateApplication), Marks(audit, id, OfRejection))
  }

  function Counting(n: Tallies, w: Option<AuditRecord>, id: EventId): Tallies {
    if w == None || w.value.eventId != id then n
    else
      match w.value.action
      case EventStored => n.(stored := n.stored + 1)
      case EventQueued => n.(queued := n.queued + 1)
      case EventApplied => n.(applied := n.applied + 1)
      case EventProcessingFailed => n.(failed := n.failed + 1)
      case EventAppliedFromQueue(_) => n.(late := n.late + 1)
      case EventQueueRejected => n.(rejected := n.rejected + 1)
      case _ => n
  }

  lemma TalliesAdded(audit: seq<AuditRecord>, w: Option<AuditRecord>, id: EventId)
    ensures TalliesOf(Added(audit, w), id) == Counting(TalliesOf(audit, id), w, id)
  {
    MarksAdded(audit, w, id, OfStorage);
    MarksAdded(audit, w, id, OfQueueing);
    MarksAdded(audit, w, id, OfApplication);
    MarksAdded(audit, w, id, OfFailure);
    MarksAdded(audit, w, id, OfLateApplication);
    MarksAdded(audit, w, id, OfRejection);
  }

  predicate Within(n: int, most: int, exact: bool) {
    n <= most && (exact ==> n == most)
  }

  function One(b: bool): nat {
    if b then 1 else 0
  }

  /** The records of an event with status `st`, counted with the last one its submission has yet to write if `ph` is
      Closing: one that it was stored; one that it was queued, if it was; and of its end at most, or exactly, the one
      that tells its status and whether it came from the queue. */
  predicate Accounted(n: Tallies, st: Option<Status>, ph: Option<Phase>, exact: bool) {
    var closing := ph.Some? && ph.value.Closing?;
    && Within(n.stored + One(ph == Some(Inserted)), One(st.Some?), exact)
    && n.queued <= One(st != None && st != Some(PENDING)) && (st == Some(QUEUED) ==> n.queued == 1) && (closing ==> n.queued == 0)
    && n.late == One(st == Some(APPLIED) && n.queued == 1)
    && n.rejected == One(st == Some(FAILED) && n.queued == 1)
    && Within(n.applied + One(closing && st == Some(APPLIED)), One(st == Some(APPLIED) && n.queued == 0), exact)
    && Within(n.failed + One(closing && st == Some(FAILED)), One(st == Some(FAILED) && n.queued == 0), exact)
  }

  ghost predicate AllAccounted(s: System, exact: bool) {
    forall id :: Accounted(TalliesOf(s.gateway.audit, id), StatusOf(s.gateway, id), PhaseOf(s, id), exact)
  }

  /** What the invariant says of one event: a submission that has not settled has its event PENDING, and one that is
      about to write its last record has settled it for good. */
  predicate Fits(cfg: Config, st: Option<Status>, ph: Option<Phase>) {
    ph.Some? ==>
      if ph.value.Closing? then FinalAction(ph.value.outcome, cfg.fallback).Some? && st == Verdict(ph.value.outcome, cfg.fallback)
      else st == Some(PENDING)
  }

  /** A step is taken on an event it can be taken on. */
  predicate Suits(s: System, step: Step, id: EventId) {
    var st, ph := StatusOf(s.gateway, id), PhaseOf(s, id);
    match step.action
    case RecordStored(o) => id == o ==> ph == Some(Inserted)
    case Settle(o, _, _) => id == o ==> ph == Some(Calling)
    case RecordFinal(o) => id == o ==> ph.Some? && ph.value.Closing?
    case SettleDelivery(_, _) => s.worker.batch != [] && s.worker.current.Some? && (id == s.worker.batch[0] ==> st == Some(QUEUED))
    case _ => true
  }

  lemma InvFits(cfg: Config, s: System, step: Step, id: EventId)
    requires Inv(cfg, s) && ClosingRight(cfg, s) && Enabled(cfg, s, step)
    ensures Fits(cfg, StatusOf(s.gateway, id), PhaseOf(s, id)) && Suits(s, step, id)
  {
    if id in s.active {
      assert Submits(s.gateway, id, s.active[id]);
    }
    if s.worker.current.Some? {
      CurrentLoaded(s);
    }
  }

  lemma SettlementAccounts(cfg: Config, s: System, step: Step, id: EventId, n: Tallies, exact: bool)
    requires cfg.settings.Valid() && Fits(cfg, StatusOf(s.gateway, id), PhaseOf(s, id)) && Suits(s, step, id)
    requires step.action.Settle?
    requires Accounted(n, StatusOf(s.gateway, id), PhaseOf(s, id), exact)
    ensures var (st, ph) := Moved(cfg, s, step, id); Accounted(Counting(n, Written(cfg, s, step), id), st, ph, exact)
  {
  }

  lemma DeliveryAccounts(cfg: Config, s: System, step: Step, id: EventId, n: Tallies, exact: bool)
    requires cfg.settings.Valid() && Fits(cfg, StatusOf(s.gateway, id), PhaseOf(s, id)) && Suits(s, step, id)
    requires step.action.SettleDelivery? && 0.0 <= step.action.jitter <= cfg.settings.jitter
    requires Accounted(n, StatusOf(s.gateway, id), PhaseOf(s, id), exact)
    ensures var (st, ph) := Moved(cfg, s, step, id); Accounted(Counting(n, Written(cfg, s, step), id), st, ph, exact)
  {
  }

  lemma RecordAccounts(cfg: Config, s: System, step: Step, id: EventId, n: Tallies, exact: bool)
    requires cfg.settings.Valid() && Fits(cfg, StatusOf(s.gateway, id), PhaseOf(s, id)) && Suits(s, step, id)
    requires step.action.RecordStored? || step.action.RecordFinal?
    requires Accounted(n, StatusOf(s.gateway, id), PhaseOf(s, id), exact)
    ensures var (st, ph) := Moved(cfg, s, step, id); Accounted(Counting(n, Written(cfg, s, step), id), st, ph, exact)
  {
  }

  lemma OthersAccount(cfg: Config, s: System, step: Step, id: EventId, n: Tallies, exact: bool)
    requires cfg.settings.Valid() && Fits(cfg, StatusOf(s.gateway, id), PhaseOf(s, id)) && Suits(s, step, id)
    requires !step.action.Settle? && !step.action.SettleDelivery? && !step.action.RecordStored? && !step.action.RecordFinal?
    requires exact ==> !step.action.Abandon? && !step.action.Crash?
    requires Accounted(n, StatusOf(s.gateway, id), PhaseOf(s, id), exact)
    ensures var (st, ph) := Moved(cfg, s, step, id); Accounted(Counting(n, Written(cfg, s, step), id), st, ph, exact)
  {
  }

  lemma StepAccounts(cfg: Config, s: System, step: Step, id: EventId, n: Tallies, exact: bool)
    requires cfg.settings.Valid() && Fits(cfg, StatusOf(s.gateway, id), PhaseOf(s, id)) && Suits(s, step, id)
    requires step.action.SettleDelivery? ==> 0.0 <= step.action.jitter <= cfg.settings.jitter
    requires exact ==> !step.action.Abandon? && !step.action.Crash?
    requires Accounted(n, StatusOf(s.gateway, id), PhaseOf(s, id), exact)
    ensures var (st, ph) := Moved(cfg, s, step, id); Accounted(Counting(n, Written(cfg, s, step), id), st, ph, exact)
  {
    match step.action {
      case Settle(_, _, _) => SettlementAccounts(cfg, s, step, id, n, exact);
      case SettleDelivery(_, _) => DeliveryAccounts(cfg, s, step, id, n, exact);
      case RecordStored(_) => RecordAccounts(cfg, s, step, id, n, exact);
      case RecordFinal(_) => RecordAccounts(cfg, s, step, id, n, exact);
      case _ => OthersAccount(cfg, s, step, id, n, exact);
    }
  }

  lemma NextAccounts(cfg: Config, s: System, step: Step, exact: bool)
    requires Inv(cfg, s) && ClosingRight(cfg, s) && Enabled(cfg, s, step) && AllAccounted(s, exact)
    requires exact ==> !step.action.Abandon? && !step.action.Crash?
    ensures AllAccounted(Next(cfg, s, step), exact)
  {
    var r := Next(cfg, s, step);
    NextWrites(cfg, s, step);
    forall id ensures Accounted(TalliesOf(r.gateway.audit, id), StatusOf(r.gateway, id), PhaseOf(r, id), exact) {
      InvFits(cfg, s, step, id);
      NextMoves(cfg, s, step, id);
      TalliesAdded(s.gateway.audit, Written(cfg, s, step), id);
      StepAccounts(cfg, s, step, id, TalliesOf(s.gateway.audit, id), exact);
    }
  }

  /** No submission is lost. */
  ghost predicate Undisturbed(run: seq<Step>) {
    forall i :: 0 <= i < |run| ==> !run[i].action.Abandon? && !run[i].action.Crash?
  }

  lemma {:induction false} RunAccounts(cfg: Config, s: System, run: seq<Step>, exact: bool)
    requires Inv(cfg, s) && ClosingRight(cfg, s) && Legal(cfg, s, run) && AllAccounted(s, exact)
    requires exact ==> Undisturbed(run)
    ensures AllAccounted(After(cfg, s, run), exact)
    decreases |run|
  {
    if run != [] {
      NextAccounts(cfg, s, run[0], exact);
      NextClosing(cfg, s, run[0]);
      NextKeeps(cfg, s, run[0]);
      RunAccounts(cfg, Next(cfg, s, run[0]), run[1..], exact);
    }
  }

  lemma EventAccounted(cfg: Config, run: seq<Step>, id: EventId, exact: bool)
    requires cfg.settings.Valid() && Legal(cfg, INIT, run) && (exact ==> Undisturbed(run))
    ensures var r := After(cfg, INIT, run); Accounted(TalliesOf(r.gateway.audit, id), StatusOf(r.gateway, id), PhaseOf(r, id), exact)
  {
    InitInv(cfg);
    RunAccounts(cfg, INIT, run, exact);
  }

  /** In every run an event has at most one EVENT_STORED, exactly one EVENT_QUEUED while it is queued and at most one
      after, and at most one record of its end, which tells its status: EVENT_APPLIED_FROM_QUEUE or
      EVENT_QUEUE_REJECTED exactly when it was queued, EVENT_APPLIED or EVENT_PROCESSING_FAILED only when it was not.
      When no submission is lost, an event that no submission holds has exactly one EVENT_STORED, and exactly one
      record of its end once it has ended. */
  lemma AuditIsComplete(cfg: Config, run: seq<Step>, id: EventId)
    requires cfg.settings.Valid() && Legal(cfg, INIT, run)
    ensures var r := After(cfg, INIT, run);
            var audit, st := r.gateway.audit, StatusOf(r.gateway, id);
            var queued := Marks(audit, id, OfQueueing);
            && Marks(audit, id, OfStorage) <= One(st.Some?)
            && queued <= One(st != None && st != Some(PENDING)) && (st == Some(QUEUED) ==> queued == 1)
            && Marks(audit, id, OfLateApplication) == One(st == Some(APPLIED) && queued == 1)
            && Marks(audit, id, OfRejection) == One(st == Some(FAILED) && queued == 1)
            && Marks(audit, id, OfApplication) <= One(st == Some(APPLIED) && queued == 0)
            && Marks(audit, id, OfFailure) <= One(st == Some(FAILED) && queued == 0)
            && (Undisturbed(run) && id !in r.active ==>
                  && Marks(audit, id, OfStorage) == One(st.Some?)
                  && Marks(audit, id, OfApplication) == One(st == Some(APPLIED) && queued == 0)
                  && Marks(audit, id, OfFailure) == One(st == Some(FAILED) && queued == 0))
  {
    EventAccounted(cfg, run, id, false);
    if Undisturbed(run) {
      EventAccounted(cfg, run, id, true);
    }
  }

  // ----- the numbers in the records -----

  /** A retry record carries the number of retries up to it, a late application one more than the retries before it. */
  predicate NumberRight(audit: seq<AuditRecord>, i: nat)
    requires i < |audit|
  {
    var r := audit[i];
    match r.action
    case EventQueueRetryScheduled(n, _) => n == Retries(audit[..i], r.eventId) + 1
    case EventAppliedFromQueue(n) => n == Retries(audit[..i], r.eventId) + 1
    case _ => true
  }

  ghost predicate NumbersRight(audit: seq<AuditRecord>) {
    forall i :: 0 <= i < |audit| ==> NumberRight(audit, i)
  }

  lemma AddedNumbers(audit: seq<AuditRecord>, r: AuditRecord)
    requires NumbersRight(audit) && NumberRight(audit + [r], |audit|)
    ensures NumbersRight(audit + [r])
  {
    forall i | 0 <= i < |audit + [r]| ensures NumberRight(audit + [r], i) {
      if i < |audit| {
        assert (audit + [r])[..i] == audit[..i];
        assert NumberRight(audit, i);
      }
    }
  }

  lemma WrittenNumber(cfg: Config, s: System, step: Step)
    requires Inv(cfg, s) && ClosingRight(cfg, s) && Enabled(cfg, s, step) && RetriesCounted(s.gateway)
    requires Written(cfg, s, step).Some?
    ensures NumberRight(s.gateway.audit + [Written(cfg, s, step).value], |s.gateway.audit|)
  {
    var audit, r := s.gateway.audit, Written(cfg, s, step).value;
    assert (audit + [r])[..|audit|] == audit;
    if step.action.SettleDelivery? {
      CurrentLoaded(s);
    }
  }

  lemma {:induction false} RunNumbers(cfg: Config, s: System, run: seq<Step>)
    requires Inv(cfg, s) && ClosingRight(cfg, s) && RetriesCounted(s.gateway) && Legal(cfg, s, run)
    requires NumbersRight(s.gateway.audit)
    ensures NumbersRight(After(cfg, s, run).gateway.audit)
    decreases |run|
  {
    if run != [] {
      var r, w := Next(cfg, s, run[0]), Written(cfg, s, run[0]);
      NextWrites(cfg, s, run[0]);
      if w.Some? {
        WrittenNumber(cfg, s, run[0]);
        AddedNumbers(s.gateway.audit, w.value);
      }
      NextEffect(cfg, s, run[0]);
      EffectCounted(cfg, s, run[0], r);
      NextClosing(cfg, s, run[0]);
      RunNumbers(cfg, r, run[1..]);
    }
  }

  /** In every run, crashes included, the retry records of an event are numbered 1, 2, 3 and so on, and the record
      that it was applied from the queue carries the number of its retries plus one. */
  lemma RecordsAreNumbered(cfg: Config, run: seq<Step>)
    requires cfg.settings.Valid() && Legal(cfg, INIT, run)
    ensures NumbersRight(After(cfg, INIT, run).gateway.audit)
  {
    InitInv(cfg);
    RunNumbers(cfg, INIT, run);
  }

  // ----- the counters -----

  /** The counters read off the audit trail. */
  function Totals(audit: seq<AuditRecord>): Counters {
    if audit == [] then ZERO else Telling(Totals(audit[..|audit| - 1]), audit[|audit| - 1].action)
  }

  function Telling(m: Counters, action: AuditAction): Counters {
    match action
    case EventQueued => m.(queued := m.queued + 1)
    case EventAppliedFromQueue(_) => m.(processed := m.processed + 1)
    case EventQueueRetryScheduled(_, _) => m.(retried := m.retried + 1)
    case EventQueueRejected => m.(failed := m.failed + 1)
    case _ => m
  }

  lemma TotalsAdded(audit: seq<AuditRecord>, w: Option<AuditRecord>)
    ensures Totals(Added(audit, w)) == if w.Some? then Telling(Totals(audit), w.value.action) else Totals(audit)
  {
    if w.Some? {
      assert (audit + [w.value])[..|audit|] == audit;
    }
  }

  ghost predicate CountersRight(s: System) {
    s.counters == Totals(s.gateway.audit)
  }

  lemma EffectCounters(cfg: Config, s: System, step: Step, r: System)
    requires cfg.settings.Valid() && Effect(cfg, s, step, r) && !step.action.Crash?
    ensures var w := Written(cfg, s, step); r.counters == if w.Some? then Telling(s.counters, w.value.action) else s.counters
  {
  }

  lemma NextCounters(cfg: Config, s: System, step: Step)
    requires Inv(cfg, s) && Enabled(cfg, s, step) && !step.action.Crash? && CountersRight(s)
    ensures Inv(cfg, Next(cfg, s, step)) && CountersRight(Next(cfg, s, step))
  {
    NextEffect(cfg, s, step);
    NextWrites(cfg, s, step);
    TotalsAdded(s.gateway.audit, Written(cfg, s, step));
    EffectCounters(cfg, s, step, Next(cfg, s, step));
  }

  lemma {:induction false} RunCounters(cfg: Config, s: System, run: seq<Step>)
    requires Inv(cfg, s) && CountersRight(s) && Legal(cfg, s, run) && CrashFree(run)
    ensures CountersRight(After(cfg, s, run))
    decreases |run|
  {
    if run != [] {
      NextCounters(cfg, s, run[0]);
      RunCounters(cfg, Next(cfg, s, run[0]), run[1..]);
    }
  }

  /** Without a crash, the counters of the queue are the numbers of EVENT_QUEUED, EVENT_APPLIED_FROM_QUEUE,
      EVENT_QUEUE_REJECTED and EVENT_QUEUE_RETRY_SCHEDULED records. */
  lemma CountersAreAudited(cfg: Config, run: seq<Step>)
    requires cfg.settings.Valid() && Legal(cfg, INIT, run) && CrashFree(run)
    ensures CountersRight(After(cfg, INIT, run))
  {
    InitInv(cfg);
    RunCounters(cfg, INIT, run);
  }
}
