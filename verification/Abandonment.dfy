/** What becomes of an event that is stored but not settled. */
module Abandonment {
  import opened Types
  import opened GatewayModels
  import opened AccountClient
  import opened EventService
  import opened Protocol
  import opened Agreement
  import opened StepEffects
  import opened Runs
  import opened AuditTruth
  import AS = AccountService

  predicate Pending(s: System, id: EventId) {
    StatusOf(s.gateway, id) == Some(PENDING)
  }

  lemma NextOrphan(cfg: Config, s: System, step: Step, id: EventId)
    requires Typed(cfg, s) && Enabled(cfg, s, step) && id in s.gateway.events && id !in s.active
    ensures id !in Next(cfg, s, step).active
  {
  }

  /** An event left PENDING by a crash or an uncaught exception, so that no submission holds it, stays PENDING for
      the rest of the run. */
  lemma {:induction false} AbandonedStaysPending(cfg: Config, s: System, run: seq<Step>, id: EventId)
    requires Inv(cfg, s) && Legal(cfg, s, run) && Pending(s, id) && id !in s.active
    ensures Pending(After(cfg, s, run), id)
    decreases |run|
  {
    if run != [] {
      var r := Next(cfg, s, run[0]);
      NextEffect(cfg, s, run[0]);
      NextOrphan(cfg, s, run[0], id);
      EffectOnIdle(cfg, s, run[0], r, id);
      AbandonedStaysPending(cfg, r, run[1..], id);
    }
  }

  lemma EffectOnIdle(cfg: Config, s: System, step: Step, r: System, id: EventId)
    requires Effect(cfg, s, step, r) && StatusOf(s.gateway, id) == Some(PENDING)
    requires step.action.Settle? ==> step.action.id != id
    ensures StatusOf(r.gateway, id) == Some(PENDING)
  {
    if step.action.Settle? {
      assert OnlyTouches(s.gateway, r.gateway, step.action.id);
    } else if step.action.SettleDelivery? {
      assert OnlyTouches(s.gateway, r.gateway, s.worker.batch[0]);
    }
  }

  /** Its money may have moved all the same: a run that stores an event, has its request processed and loses the
      submission leaves the event PENDING and unheld, and in the ledger. */
  lemma AbandonedIsApplied(cfg: Config, c: EventCreate) returns (run: seq<Step>)
    requires cfg.settings.Valid()
    ensures Legal(cfg, INIT, run)
    ensures var r := After(cfg, INIT, run);
            Pending(r, c.eventId) && c.eventId !in r.active && c.eventId in r.ledger.transactions
  {
    var p := PayloadFrom(c);
    var sent := SentRun(cfg, INIT, c, 0.0);
    var processed := ProcessedRun(cfg, After(cfg, INIT, sent), p, 1, 0.0);
    Concat(cfg, INIT, sent, processed);
    AS.RedeliveredOnce(AS.EMPTY, CallOf(p), 1);
    var last := Step(0.0, Abandon(c.eventId));
    Append(cfg, INIT, sent + processed, last);
    run := sent + processed + [last];
  }

  /** A legal continuation in which the event leaves PENDING. */
  ghost predicate CanSettle(cfg: Config, s: System, id: EventId)
    requires Typed(cfg, s)
  {
    exists run :: Legal(cfg, s, run) && !Pending(After(cfg, s, run), id)
  }

  /** A submission that holds its event gets as far as its call. */
  lemma ReachesCall(cfg: Config, s: System, id: EventId) returns (run: seq<Step>)
    requires Typed(cfg, s) && id in s.active && !s.active[id].phase.Closing?
    ensures Legal(cfg, s, run)
    ensures var r := After(cfg, s, run);
            id in r.active && r.active[id].phase == Calling && StatusOf(r.gateway, id) == StatusOf(s.gateway, id)
  {
    run := [];
    if s.active[id].phase == Inserted {
      var first := Step(s.clock, RecordStored(id));
      Append(cfg, s, run, first);
      run := run + [first];
    }
  }

  lemma HeldCanSettle(cfg: Config, s: System, id: EventId)
    requires Typed(cfg, s) && Pending(s, id) && id in s.active && !s.active[id].phase.Closing?
    ensures CanSettle(cfg, s, id)
  {
    var called := ReachesCall(cfg, s, id);
    var r := After(cfg, s, called);
    var last := SettledRun(cfg, r, id, Unavailable, "", s.clock);
    Concat(cfg, s, called, last);
    assert !Pending(After(cfg, s, called + last), id);
  }

  /** In a reachable state a PENDING event can still be settled exactly when a submission holds it. */
  lemma PendingSettlesIffHeld(cfg: Config, s: System, id: EventId)
    requires Reachable(cfg, s) && Pending(s, id)
    ensures Typed(cfg, s) && (CanSettle(cfg, s, id) <==> id in s.active)
  {
    ReachableInv(cfg, s);
    AuditNeverContradictsStatus(cfg, s);
    if id in s.active {
      HeldCanSettle(cfg, s, id);
    } else {
      forall run | Legal(cfg, s, run) ensures Pending(After(cfg, s, run), id) {
        AbandonedStaysPending(cfg, s, run, id);
      }
    }
  }
}
