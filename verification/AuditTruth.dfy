/** The Gateway's audit trail never contradicts the status of an event, whatever crashes in between. */
module AuditTruth {
  import opened Types
  import opened GatewayModels
  import opened AccountClient
  import opened EventService
  import opened AsyncFallback
  import opened Protocol
  import opened Agreement
  import opened StepEffects
  import opened Runs
  import opened ExactlyOnce

  /** What a record claims about its event. */
  ghost predicate Holds(t: Tables, r: AuditRecord) {
    var st := StatusOf(t, r.eventId);
    match r.action
    case EventApplied => st == Some(APPLIED)
    case EventAppliedFromQueue(_) => st == Some(APPLIED)
    case EventProcessingFailed => st == Some(FAILED)
    case EventQueueRejected => st == Some(FAILED)
    case EventQueued => st in {Some(QUEUED), Some(APPLIED), Some(FAILED)}
    case EventQueueRetryScheduled(_, _) => st in {Some(QUEUED), Some(APPLIED), Some(FAILED)}
    case _ => st != None
  }

  ghost predicate Truthful(t: Tables) {
    forall i :: 0 <= i < |t.audit| ==> Holds(t, t.audit[i])
  }

  /** A submission about to write its last record has committed the status that record tells. */
  ghost predicate ClosingRight(cfg: Config, s: System) {
    forall id :: id in s.active && s.active[id].phase.Closing? ==>
      FinalAction(s.active[id].phase.outcome, cfg.fallback).Some? &&
      StatusOf(s.gateway, id) == Verdict(s.active[id].phase.outcome, cfg.fallback)
  }

  lemma HoldsOn(t: Tables, u: Tables, r: AuditRecord)
    requires Holds(t, r) && Moves(StatusOf(t, r.eventId), StatusOf(u, r.eventId))
    ensures Holds(u, r)
  {
  }

  /** The record a step adds, if it adds one. */
  ghost predicate NewHolds(t: Tables, u: Tables) {
    u.audit == t.audit ||
    (|u.audit| == |t.audit| + 1 && u.audit == t.audit + [u.audit[|t.audit|]] && Holds(u, u.audit[|t.audit|]))
  }

  lemma TruthfulOn(t: Tables, u: Tables)
    requires Truthful(t) && NewHolds(t, u) && forall id :: Moves(StatusOf(t, id), StatusOf(u, id))
    ensures Truthful(u)
  {
    forall i | 0 <= i < |u.audit| ensures Holds(u, u.audit[i]) {
      if i < |t.audit| {
        assert u.audit[i] == t.audit[i];
        HoldsOn(t, u, t.audit[i]);
      }
    }
  }

  lemma IntakeTrue(cfg: Config, s: System, step: Step)
    requires Typed(cfg, s) && Enabled(cfg, s, step) && (step.action.Lookup? || step.action.Insert?)
    ensures NewHolds(s.gateway, Next(cfg, s, step).gateway)
  {
  }

  lemma RecordStoredTrue(cfg: Config, s: System, step: Step)
    requires Typed(cfg, s) && Enabled(cfg, s, step) && step.action.RecordStored?
    ensures NewHolds(s.gateway, Next(cfg, s, step).gateway)
  {
  }

  lemma RecordFinalTrue(cfg: Config, s: System, step: Step)
    requires Typed(cfg, s) && ClosingRight(cfg, s) && Enabled(cfg, s, step) && step.action.RecordFinal?
    ensures NewHolds(s.gateway, Next(cfg, s, step).gateway)
  {
    var u := Next(cfg, s, step).gateway;
    assert StatusOf(u, step.action.id) == StatusOf(s.gateway, step.action.id);
  }

  lemma SettledTrue(t: Tables, id: EventId, payload: Command, outcome: Outcome, fallback: bool, traceId: string, now: real)
    requires id in t.events
    ensures NewHolds(t, Settled(t, id, payload, outcome, fallback, traceId, now))
  {
    var u := Settled(t, id, payload, outcome, fallback, traceId, now);
    if Verdict(outcome, fallback) == Some(QUEUED) {
      assert StatusOf(u, id) == Some(QUEUED);
    }
  }

  lemma DeliveredTrue(t: Tables, id: EventId, d: Delivery, outcome: Outcome, now: real, delay: real)
    requires StatusOf(t, id) == Some(QUEUED)
    ensures NewHolds(t, Delivered(t, id, d, outcome, now, delay))
  {
    var u := Delivered(t, id, d, outcome, now, delay);
    assert outcome.Response? ==> StatusOf(u, id) == Some(if outcome.status >= 400 then FAILED else APPLIED);
  }

  lemma SettleTrue(cfg: Config, s: System, step: Step)
    requires Typed(cfg, s) && Enabled(cfg, s, step) && step.action.Settle?
    ensures NewHolds(s.gateway, Next(cfg, s, step).gateway)
  {
    var id := step.action.id;
    SettledTrue(s.gateway, id, s.active[id].payload, step.action.outcome, cfg.fallback, step.action.traceId, step.at);
  }

  lemma DeliveryTrue(cfg: Config, s: System, step: Step)
    requires Typed(cfg, s) && QueueOwned(s.gateway) && WorkerOwns(s.gateway, s.worker)
    requires Enabled(cfg, s, step) && step.action.SettleDelivery?
    ensures NewHolds(s.gateway, Next(cfg, s, step).gateway)
  {
    var id, d := s.worker.batch[0], s.worker.current.value;
    CurrentLoaded(s);
    NextSettlesDelivery(cfg, s, step);
    DeliveredTrue(s.gateway, id, d, step.action.outcome, step.at, Backoff(cfg.settings, d.attempts + 1, step.action.jitter));
  }

  lemma NextTruthful(cfg: Config, s: System, step: Step)
    requires Inv(cfg, s) && ClosingRight(cfg, s) && Truthful(s.gateway) && Enabled(cfg, s, step)
    ensures Truthful(Next(cfg, s, step).gateway)
  {
    var r := Next(cfg, s, step);
    NextEffect(cfg, s, step);
    forall id ensures Moves(StatusOf(s.gateway, id), StatusOf(r.gateway, id)) {
      EffectMoves(cfg, s, step, r, id);
    }
    match step.action {
      case Lookup(_) => IntakeTrue(cfg, s, step);
      case Insert(_) => IntakeTrue(cfg, s, step);
      case RecordStored(_) => RecordStoredTrue(cfg, s, step);
      case RecordFinal(_) => RecordFinalTrue(cfg, s, step);
      case Settle(_, _, _) => SettleTrue(cfg, s, step);
      case SettleDelivery(_, _) => DeliveryTrue(cfg, s, step);
      case _ => assert r.gateway.audit == s.gateway.audit;
    }
    TruthfulOn(s.gateway, r.gateway);
  }

  /** Where a submission of `id` that is there after a step comes from. */
  ghost predicate Comes(cfg: Config, s: System, step: Step, r: System, id: EventId)
    requires id in r.active
  {
    || (id in s.active && r.active[id] == s.active[id])
    || r.active[id].phase in {Inserted, Calling}
    || (step.action.Settle? && step.action.id == id && r.active[id].phase == Closing(step.action.outcome)
        && FinalAction(step.action.outcome, cfg.fallback).Some?)
  }

  lemma NextActive(cfg: Config, s: System, step: Step, id: EventId)
    requires Typed(cfg, s) && Enabled(cfg, s, step) && id in Next(cfg, s, step).active
    ensures Comes(cfg, s, step, Next(cfg, s, step), id)
  {
  }

  lemma ClosingStays(cfg: Config, s: System, step: Step, r: System, id: EventId)
    requires Effect(cfg, s, step, r) && ClosingRight(cfg, s)
    requires id in r.active && r.active[id].phase.Closing? && Comes(cfg, s, step, r, id)
    ensures FinalAction(r.active[id].phase.outcome, cfg.fallback).Some?
    ensures StatusOf(r.gateway, id) == Verdict(r.active[id].phase.outcome, cfg.fallback)
  {
    EffectMoves(cfg, s, step, r, id);
  }

  lemma NextClosing(cfg: Config, s: System, step: Step)
    requires Inv(cfg, s) && ClosingRight(cfg, s) && Enabled(cfg, s, step)
    ensures ClosingRight(cfg, Next(cfg, s, step))
  {
    var r := Next(cfg, s, step);
    NextEffect(cfg, s, step);
    forall id | id in r.active && r.active[id].phase.Closing?
      ensures FinalAction(r.active[id].phase.outcome, cfg.fallback).Some?
      ensures StatusOf(r.gateway, id) == Verdict(r.active[id].phase.outcome, cfg.fallback)
    {
      NextActive(cfg, s, step, id);
      ClosingStays(cfg, s, step, r, id);
    }
  }

  lemma {:induction false} RunTruthful(cfg: Config, s: System, run: seq<Step>)
    requires Inv(cfg, s) && ClosingRight(cfg, s) && Truthful(s.gateway) && Legal(cfg, s, run)
    ensures Truthful(After(cfg, s, run).gateway) && ClosingRight(cfg, After(cfg, s, run))
    decreases |run|
  {
    if run != [] {
      NextTruthful(cfg, s, run[0]);
      NextClosing(cfg, s, run[0]);
      NextKeeps(cfg, s, run[0]);
      RunTruthful(cfg, Next(cfg, s, run[0]), run[1..]);
    }
  }

  /** In every reachable state every audit record of the Gateway is true of its event, and so is the record that a
      submission is about to write. */
  lemma AuditNeverContradictsStatus(cfg: Config, s: System)
    requires Reachable(cfg, s)
    ensures Truthful(s.gateway) && ClosingRight(cfg, s)
  {
    var run :| Legal(cfg, INIT, run) && s == After(cfg, INIT, run);
    InitInv(cfg);
    RunTruthful(cfg, INIT, run);
  }
}
