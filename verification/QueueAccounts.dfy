/** Nothing is lost or invented in the queue, and the audit trail counts its retries. */
module QueueAccounts {
  import opened Types
  import opened GatewayModels
  import opened Protocol
  import opened Agreement
  import opened StepEffects
  import opened Runs

  // ----- conservation -----

  /** Events queued, less those settled from the queue, less those still in it. */
  function Flow(s: System): int {
    s.counters.queued - s.counters.processed - s.counters.failed - |s.gateway.deliveries|
  }

  lemma SizeChange(t: Tables, u: Tables, id: EventId)
    requires OnlyTouches(t, u, id)
    ensures |u.deliveries| + (if id in t.deliveries then 1 else 0) == |t.deliveries| + (if id in u.deliveries then 1 else 0)
  {
    assert u.deliveries.Keys - {id} == t.deliveries.Keys - {id};
    assert |u.deliveries.Keys - {id}| == |u.deliveries.Keys| - if id in u.deliveries then 1 else 0;
    assert |t.deliveries.Keys - {id}| == |t.deliveries.Keys| - if id in t.deliveries then 1 else 0;
  }

  lemma EffectFlow(cfg: Config, s: System, step: Step, r: System)
    requires Effect(cfg, s, step, r) && !step.action.Crash?
    ensures Flow(r) == Flow(s)
  {
    if step.action.Settle? {
      SizeChange(s.gateway, r.gateway, step.action.id);
    } else if step.action.SettleDelivery? {
      SizeChange(s.gateway, r.gateway, s.worker.batch[0]);
    }
  }

  /** In a crash-free run, what was queued was processed, permanently failed, or is still in the queue. */
  lemma {:induction false} QueueConservation(cfg: Config, s: System, run: seq<Step>)
    requires Inv(cfg, s) && Legal(cfg, s, run) && CrashFree(run)
    ensures var r := After(cfg, s, run);
            (r.counters.queued - s.counters.queued) + |s.gateway.deliveries| ==
              (r.counters.processed - s.counters.processed) + (r.counters.failed - s.counters.failed) + |r.gateway.deliveries|
    decreases |run|
  {
    if run != [] {
      var r := Next(cfg, s, run[0]);
      NextEffect(cfg, s, run[0]);
      EffectFlow(cfg, s, run[0], r);
      QueueConservation(cfg, r, run[1..]);
      assert Flow(r) == Flow(s);
    }
  }

  // ----- retries in the audit trail -----

  function Retries(audit: seq<AuditRecord>, id: EventId): nat {
    if audit == [] then 0
    else
      var r := audit[|audit| - 1];
      Retries(audit[..|audit| - 1], id) + if IsRetry(r) && r.eventId == id then 1 else 0
  }

  /** A delivery row counts the retries recorded for its event; an event that was never queued has none. */
  ghost predicate RetriesCounted(t: Tables) {
    && (forall id :: id in t.deliveries ==> t.deliveries[id].attempts == Retries(t.audit, id))
    && (forall id :: StatusOf(t, id) in {None, Some(PENDING)} ==> Retries(t.audit, id) == 0)
  }

  lemma TrailCounts(t: Tables, u: Tables, id: EventId, retry: bool, o: EventId)
    requires Trail(t, u, id, retry)
    ensures Retries(u.audit, o) == Retries(t.audit, o) + if retry && o == id then 1 else 0
  {
    if u.audit != t.audit {
      assert u.audit[..|t.audit|] == t.audit;
    }
  }

  lemma QuietCounted(t: Tables, u: Tables)
    requires RetriesCounted(t) && Quiet(t, u)
    ensures RetriesCounted(u)
  {
    forall o ensures Retries(u.audit, o) == Retries(t.audit, o) {
      TrailCounts(t, u, "", false, o);
    }
    forall o | StatusOf(u, o) in {None, Some(PENDING)} ensures StatusOf(t, o) in {None, Some(PENDING)} {
    }
  }

  /** One event's row changes; its attempt count goes up exactly with a recorded retry. */
  lemma TouchedCounted(t: Tables, u: Tables, id: EventId, retry: bool)
    requires RetriesCounted(t) && OnlyTouches(t, u, id) && Trail(t, u, id, retry)
    requires id in u.deliveries ==> u.deliveries[id].attempts == Retries(t.audit, id) + if retry then 1 else 0
    requires StatusOf(u, id) in {None, Some(PENDING)} ==> StatusOf(t, id) in {None, Some(PENDING)} && !retry
    ensures RetriesCounted(u)
  {
    forall o ensures Retries(u.audit, o) == Retries(t.audit, o) + if retry && o == id then 1 else 0 {
      TrailCounts(t, u, id, retry, o);
    }
    forall o | o != id && StatusOf(u, o) in {None, Some(PENDING)} ensures StatusOf(t, o) in {None, Some(PENDING)} {
    }
  }

  lemma EffectCounted(cfg: Config, s: System, step: Step, r: System)
    requires Effect(cfg, s, step, r) && RetriesCounted(s.gateway)
    ensures RetriesCounted(r.gateway)
  {
    var t, u := s.gateway, r.gateway;
    if step.action.Settle? {
      assert Retries(t.audit, step.action.id) == 0;
      TouchedCounted(t, u, step.action.id, false);
    } else if step.action.SettleDelivery? {
      TouchedCounted(t, u, s.worker.batch[0], step.action.outcome.Unavailable?);
    } else if u != t {
      QuietCounted(t, u);
    }
  }

  /** In every run, crashes included, a live row's attempt count is the number of its retry records. */
  lemma {:induction false} AttemptsAreAudited(cfg: Config, s: System, run: seq<Step>)
    requires Inv(cfg, s) && Legal(cfg, s, run) && RetriesCounted(s.gateway)
    ensures RetriesCounted(After(cfg, s, run).gateway)
    decreases |run|
  {
    if run != [] {
      var r := Next(cfg, s, run[0]);
      NextEffect(cfg, s, run[0]);
      EffectCounted(cfg, s, run[0], r);
      AttemptsAreAudited(cfg, r, run[1..]);
    }
  }

  /** In every reachable state a live row's attempt count is the number of its retry records. */
  lemma RetriesAreAudited(cfg: Config, s: System)
    requires Reachable(cfg, s)
    ensures RetriesCounted(s.gateway)
  {
    var run :| Legal(cfg, INIT, run) && s == After(cfg, INIT, run);
    InitInv(cfg);
    AttemptsAreAudited(cfg, INIT, run);
  }
}
