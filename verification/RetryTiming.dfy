/** How the attempts of one delivery are spread over time. */
module RetryTiming {
  import opened Types
  import opened GatewayModels
  import opened AsyncFallback
  import opened Protocol
  import opened Agreement
  import opened StepEffects
  import opened Starvation

  /** The sum of the first `n` capped delays. */
  function Delay(s: Settings, n: nat): real {
    if n == 0 then 0.0 else Delay(s, n - 1) + Capped(s, n)
  }

  lemma ScaledStep(s: Settings, n: nat)
    requires s.Valid()
    ensures Scaled(s, n + 1) == Scaled(s, n) + Scaled(s, n)
    ensures 0.0 <= Scaled(s, n) <= Scaled(s, n + 1)
  {
    PowerPositive(n);
  }

  /** While the cap is not reached the delays double: together they are base * 2^n - base. */
  lemma {:induction false} DelayClosedForm(s: Settings, n: nat)
    requires s.Valid() && n <= 17
    requires n > 0 ==> Scaled(s, n - 1) <= s.max
    ensures Delay(s, n) == Scaled(s, n) - s.base
  {
    if n > 0 {
      if n > 1 {
        ScaledStep(s, n - 2);
      }
      DelayClosedForm(s, n - 1);
      ScaledStep(s, n - 1);
    }
  }

  /** The delay stops growing: after failure 17 every delay is the one with exponent 16, cut at the maximum. */
  lemma DelaySettles(s: Settings, n: nat)
    requires n >= 17
    ensures Capped(s, n) == (if Scaled(s, 16) < s.max then Scaled(s, 16) else s.max)
  {
  }

  // ----- lower bounds on attempts, in every run -----

  /** No attempt comes earlier than the first one plus the delays of the failures before it. */
  ghost predicate Spread(cfg: Config, starts: seq<Start>, clock: real) {
    forall j :: 0 <= j < |starts| ==>
      starts[0].at + Delay(cfg.settings, starts[j].count) <= starts[j].at <= clock
  }

  /** The row is not due before the delays of its failures have passed, nor put off beyond the cap. */
  ghost predicate PutOff(cfg: Config, d: Delivery, starts: seq<Start>, clock: real) {
    && d.nextAttemptAt <= clock + cfg.settings.max + cfg.settings.jitter
    && (d.attempts > 0 ==> starts != [] && starts[0].at + Delay(cfg.settings, d.attempts) <= d.nextAttemptAt)
  }

  ghost predicate UnderWay(d: Delivery, starts: seq<Start>) {
    starts != [] && starts[|starts| - 1].count == d.attempts
  }

  ghost predicate Timed(cfg: Config, s: System) {
    && (forall id :: Spread(cfg, StartsOf(s, id), s.clock))
    && (forall id :: id in s.gateway.deliveries ==> PutOff(cfg, s.gateway.deliveries[id], StartsOf(s, id), s.clock))
    && BatchDue(s)
  }

  /** The clock never runs backwards. */
  ghost predicate Forward(clock: real, run: seq<Step>)
    decreases |run|
  {
    run != [] ==> clock <= run[0].at && Forward(run[0].at, run[1..])
  }

  lemma SpreadLater(cfg: Config, starts: seq<Start>, before: real, now: real)
    requires Spread(cfg, starts, before) && before <= now
    ensures Spread(cfg, starts, now)
  {
  }

  /** Starting the attempt that a due row is waiting for. */
  lemma StartSpreads(cfg: Config, d: Delivery, starts: seq<Start>, clock: real, now: real)
    requires Spread(cfg, starts, clock) && PutOff(cfg, d, starts, clock)
    requires d.nextAttemptAt <= clock <= now
    ensures Spread(cfg, starts + [Start(now, d.attempts)], now)
  {
  }

  /** Rescheduling after a failed attempt. */
  lemma FailurePutsOff(cfg: Config, d: Delivery, starts: seq<Start>, clock: real, now: real, jitter: real)
    requires cfg.settings.Valid() && 0.0 <= jitter <= cfg.settings.jitter
    requires Spread(cfg, starts, clock) && UnderWay(d, starts) && clock <= now
    ensures var delay := Backoff(cfg.settings, d.attempts + 1, jitter);
            PutOff(cfg, d.(attempts := d.attempts + 1, nextAttemptAt := now + delay), starts, now)
  {
    assert starts[0].at + Delay(cfg.settings, d.attempts) <= starts[|starts| - 1].at;
  }

  /** The rows of the batch are due, and the attempt under way is the last one started. */
  ghost predicate BatchDue(s: System) {
    && (forall id :: id in s.worker.batch ==> id in s.gateway.deliveries && s.gateway.deliveries[id].nextAttemptAt <= s.clock)
    && (s.worker.current.Some? && s.worker.batch != [] ==> UnderWay(s.worker.current.value, StartsOf(s, s.worker.batch[0])))
  }

  lemma EffectSpread(cfg: Config, s: System, step: Step, r: System, id: EventId)
    requires Effect(cfg, s, step, r) && Timed(cfg, s) && s.clock <= step.at
    ensures Spread(cfg, StartsOf(r, id), step.at)
  {
    SpreadLater(cfg, StartsOf(s, id), s.clock, step.at);
    if step.action.StartDelivery? && s.worker.batch[0] == id {
      assert id in s.worker.batch;
      StartSpreads(cfg, s.gateway.deliveries[id], StartsOf(s, id), s.clock, step.at);
    }
  }

  lemma EffectPutOff(cfg: Config, s: System, step: Step, r: System, id: EventId)
    requires Effect(cfg, s, step, r) && Timed(cfg, s) && cfg.settings.Valid() && s.clock <= step.at && id in r.gateway.deliveries
    ensures PutOff(cfg, r.gateway.deliveries[id], StartsOf(r, id), step.at)
  {
    if step.action.SettleDelivery? && step.action.outcome.Unavailable? && s.worker.batch[0] == id {
      FailurePutsOff(cfg, s.worker.current.value, StartsOf(s, id), s.clock, step.at, step.action.jitter);
    }
  }

  lemma EffectBatchDue(cfg: Config, s: System, step: Step, r: System)
    requires Effect(cfg, s, step, r) && BatchDue(s) && Distinct(s.worker.batch) && s.clock <= step.at
    ensures BatchDue(r)
  {
    if step.action.SettleDelivery? && !step.action.outcome.Uncaught? {
      forall id | id in r.worker.batch
        ensures id in r.gateway.deliveries && r.gateway.deliveries[id].nextAttemptAt <= r.clock
      {
        assert id in s.worker.batch && id != s.worker.batch[0];
      }
    }
  }

  lemma EffectTimed(cfg: Config, s: System, step: Step, r: System)
    requires Effect(cfg, s, step, r) && Timed(cfg, s) && cfg.settings.Valid() && s.clock <= step.at
    requires Distinct(s.worker.batch)
    ensures Timed(cfg, r)
  {
    forall id ensures Spread(cfg, StartsOf(r, id), r.clock) {
      EffectSpread(cfg, s, step, r, id);
    }
    forall id | id in r.gateway.deliveries ensures PutOff(cfg, r.gateway.deliveries[id], StartsOf(r, id), r.clock) {
      EffectPutOff(cfg, s, step, r, id);
    }
    EffectBatchDue(cfg, s, step, r);
  }

  /** In every run on a clock that does not run backwards, crashes included, attempts respect the backoff. */
  lemma {:induction false} RetriesAreSpread(cfg: Config, s: System, run: seq<Step>)
    requires Inv(cfg, s) && Timed(cfg, s) && Legal(cfg, s, run) && Forward(s.clock, run)
    ensures Timed(cfg, After(cfg, s, run))
    decreases |run|
  {
    if run != [] {
      var r := Next(cfg, s, run[0]);
      NextEffect(cfg, s, run[0]);
      EffectTimed(cfg, s, run[0], r);
      RetriesAreSpread(cfg, r, run[1..]);
    }
  }

  // ----- numbering attempts in calm runs -----

  predicate InFlight(s: System, id: EventId) {
    s.worker.current.Some? && s.worker.batch != [] && s.worker.batch[0] == id
  }

  /** Attempts are numbered from 0 without gaps, and a live row counts those that failed. */
  ghost predicate Numbered(s: System, id: EventId) {
    && (forall j :: 0 <= j < |StartsOf(s, id)| ==> StartsOf(s, id)[j].count == j)
    && (id in s.gateway.deliveries ==>
          |StartsOf(s, id)| == s.gateway.deliveries[id].attempts + if InFlight(s, id) then 1 else 0)
    && (StatusOf(s.gateway, id) in {None, Some(PENDING)} ==> StartsOf(s, id) == [])
  }

  lemma StartNumbered(cfg: Config, s: System, step: Step, r: System, id: EventId)
    requires Effect(cfg, s, step, r) && step.action.StartDelivery? && QueueOwned(s.gateway) && Numbered(s, id)
    ensures Numbered(r, id)
  {
    if id == s.worker.batch[0] {
      assert StatusOf(s.gateway, id) == Some(QUEUED);
      assert StartsOf(r, id) == StartsOf(s, id) + [Start(step.at, s.gateway.deliveries[id].attempts)];
    } else {
      assert StartsOf(r, id) == StartsOf(s, id);
    }
  }

  lemma SettledNumbered(cfg: Config, s: System, step: Step, r: System, id: EventId)
    requires Effect(cfg, s, step, r) && WorkerOwns(s.gateway, s.worker) && CalmStep(step) && Numbered(s, id)
    requires step.action.Settle? || step.action.SettleDelivery?
    ensures Numbered(r, id)
  {
    var o := if step.action.Settle? then step.action.id else s.worker.batch[0];
    assert OnlyTouches(s.gateway, r.gateway, o);
    assert StartsOf(r, id) == StartsOf(s, id);
    if s.worker.batch != [] {
      assert s.worker.batch[0] in s.gateway.deliveries;
    }
  }

  lemma EffectNumbered(cfg: Config, s: System, step: Step, r: System, id: EventId)
    requires QueueOwned(s.gateway) && WorkerOwns(s.gateway, s.worker)
    requires Effect(cfg, s, step, r) && CalmStep(step) && Numbered(s, id)
    ensures Numbered(r, id)
  {
    if step.action.StartDelivery? {
      StartNumbered(cfg, s, step, r, id);
    } else if step.action.Settle? || step.action.SettleDelivery? {
      SettledNumbered(cfg, s, step, r, id);
    } else {
      assert StartsOf(r, id) == StartsOf(s, id);
      assert InFlight(r, id) == InFlight(s, id);
      assert StatusOf(r.gateway, id) in {None, Some(PENDING)} ==> StatusOf(s.gateway, id) in {None, Some(PENDING)};
    }
  }

  lemma {:induction false} CalmNumbers(cfg: Config, s: System, run: seq<Step>, id: EventId)
    requires Inv(cfg, s) && Numbered(s, id) && Legal(cfg, s, run) && Calm(run)
    ensures Numbered(After(cfg, s, run), id)
    decreases |run|
  {
    if run != [] {
      assert CalmStep(run[0]);
      var r := Next(cfg, s, run[0]);
      NextEffect(cfg, s, run[0]);
      EffectNumbered(cfg, s, run[0], r, id);
      CalmNumbers(cfg, r, run[1..], id);
    }
  }

  /** From the initial state, without crashes and uncaught exceptions: attempt n + 1 of a delivery starts no
      earlier than its first attempt plus the first n capped delays. */
  lemma AttemptTiming(cfg: Config, run: seq<Step>, id: EventId, n: nat)
    requires cfg.settings.Valid() && Legal(cfg, INIT, run) && Calm(run) && Forward(0.0, run)
    requires n < |StartsOf(After(cfg, INIT, run), id)|
    ensures var starts := StartsOf(After(cfg, INIT, run), id);
            starts[0].at + Delay(cfg.settings, n) <= starts[n].at
  {
    InitInv(cfg);
    RetriesAreSpread(cfg, INIT, run);
    CalmNumbers(cfg, INIT, run, id);
    var r := After(cfg, INIT, run);
    assert Spread(cfg, StartsOf(r, id), r.clock);
    assert StartsOf(r, id)[n].count == n;
  }
}
