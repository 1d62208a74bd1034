/** A due delivery is attempted after a bounded number of worker iterations, whatever is queued meanwhile. */
module Starvation {
  import opened Types
  import opened GatewayModels
  import opened AccountClient
  import opened DeliveryQueue
  import opened AsyncFallback
  import opened Protocol
  import opened Agreement
  import opened StepEffects

  /** The rows picked before `d`. */
  ghost function Ahead(rows: Rows, d: EventId): set<EventId>
    requires d in rows
  {
    set id | id in rows && Before(rows, id, d)
  }

  function Fetches(run: seq<Step>): nat {
    if run == [] then 0 else (if run[0].action.Fetch? then 1 else 0) + Fetches(run[1..])
  }

  /** The worker starts an attempt of `d` during the run. */
  ghost predicate Attempts(cfg: Config, s: System, run: seq<Step>, d: EventId)
    requires Typed(cfg, s) && Legal(cfg, s, run)
    decreases |run|
  {
    run != [] &&
    ((run[0].action.StartDelivery? && s.worker.batch[0] == d) || Attempts(cfg, Next(cfg, s, run[0]), run[1..], d))
  }

  predicate CalmStep(step: Step) {
    !step.action.Crash? && (step.action.SettleDelivery? ==> !step.action.outcome.Uncaught?)
  }

  /** No crash, and no uncaught exception in the worker. */
  ghost predicate Calm(run: seq<Step>) {
    forall i :: 0 <= i < |run| ==> CalmStep(run[i])
  }

  /** The clock strictly increases from step to step. */
  predicate Ticks(clock: real, run: seq<Step>)
    decreases |run|
  {
    run != [] ==> clock < run[0].at && Ticks(run[0].at, run[1..])
  }

  /** The worker is not in the middle of an attempt of `d`. */
  predicate NotUnderWay(s: System, d: EventId) {
    s.worker.current.Some? ==> s.worker.batch != [] && s.worker.batch[0] != d
  }

  /** Steps that end an iteration of the worker before its batch is done. */
  predicate Interrupts(step: Step) {
    !CalmStep(step)
  }

  function Interruptions(run: seq<Step>): nat {
    if run == [] then 0 else (if Interrupts(run[0]) then 1 else 0) + Interruptions(run[1..])
  }

  lemma {:induction false} CalmIsUninterrupted(run: seq<Step>)
    ensures Interruptions(run) == 0 <==> Calm(run)
  {
    if run != [] {
      CalmIsUninterrupted(run[1..]);
      assert Calm(run) ==> CalmStep(run[0]);
      assert run == [run[0]] + run[1..];
    }
  }

  // ----- fairness -----

  /** A run on a strictly increasing clock that ends with an idle worker and never attempts `d`. */
  ghost predicate PassesOver(cfg: Config, s: System, run: seq<Step>, d: EventId)
    requires Typed(cfg, s)
    decreases |run|
  {
    if run == [] then s.worker == IDLE
    else
      && Enabled(cfg, s, run[0]) && s.clock < run[0].at
      && !(run[0].action.StartDelivery? && s.worker.batch[0] == d)
      && PassesOver(cfg, Next(cfg, s, run[0]), run[1..], d)
  }

  lemma {:induction false} PassesOverIf(cfg: Config, s: System, run: seq<Step>, d: EventId)
    requires Inv(cfg, s) && Legal(cfg, s, run) && Ticks(s.clock, run)
    requires !Attempts(cfg, s, run, d) && After(cfg, s, run).worker == IDLE
    ensures PassesOver(cfg, s, run, d)
    decreases |run|
  {
    if run != [] {
      NextEffect(cfg, s, run[0]);
      PassesOverIf(cfg, Next(cfg, s, run[0]), run[1..], d);
    }
  }

  /** The row waits in the queue, due, and the worker's batch is made of rows ahead of it. */
  ghost predicate Waits(cfg: Config, s: System, d: EventId) {
    && Distinct(s.worker.batch) && |s.worker.batch| <= cfg.settings.batch
    && d in s.gateway.deliveries && s.gateway.deliveries[d].nextAttemptAt <= s.clock
    && d !in s.worker.batch
    && forall id :: id in s.worker.batch ==> id in Ahead(s.gateway.deliveries, d)
  }

  /** The row is due and in the worker's batch, and the rows ahead of it fill less than a batch. */
  ghost predicate Picked(cfg: Config, s: System, d: EventId) {
    && Distinct(s.worker.batch)
    && d in s.gateway.deliveries && s.gateway.deliveries[d].nextAttemptAt <= s.clock
    && d in s.worker.batch && NotUnderWay(s, d)
    && |Ahead(s.gateway.deliveries, d)| < cfg.settings.batch
  }

  /** Rows ahead of `d` that are not in the worker's batch yet. */
  ghost function Slack(s: System, d: EventId): int
    requires d in s.gateway.deliveries
  {
    |Ahead(s.gateway.deliveries, d)| - |s.worker.batch|
  }

  /** When row `id` leaves, arrives or moves behind `d`, and all other rows stay, the rows ahead of `d` lose just `id`. */
  lemma AheadWithout(rows: Rows, rows': Rows, d: EventId, id: EventId)
    requires d in rows && d != id
    requires forall o :: o != id ==> (o in rows' <==> o in rows) && (o in rows ==> rows'[o] == rows[o])
    requires id in rows' ==> rows[d].nextAttemptAt < rows'[id].nextAttemptAt
    ensures d in rows' && rows'[d] == rows[d] && Ahead(rows', d) == Ahead(rows, d) - {id}
    ensures |Ahead(rows', d)| == |Ahead(rows, d)| - if id in Ahead(rows, d) then 1 else 0
  {
    var ahead := Ahead(rows, d);
    assert Ahead(rows', d) == ahead - {id};
    if id !in ahead {
      assert ahead - {id} == ahead;
    }
  }

  /** A submission that is settled adds rows behind `d` only. */
  lemma SettleAhead(cfg: Config, s: System, step: Step, r: System, d: EventId)
    requires Effect(cfg, s, step, r) && step.action.Settle? && s.clock < step.at
    requires d in s.gateway.deliveries && s.gateway.deliveries[d].nextAttemptAt <= s.clock
    ensures d in r.gateway.deliveries && r.gateway.deliveries[d] == s.gateway.deliveries[d]
    ensures Ahead(r.gateway.deliveries, d) == Ahead(s.gateway.deliveries, d)
  {
    AheadWithout(s.gateway.deliveries, r.gateway.deliveries, d, step.action.id);
  }

  /** An attempt on another row takes that row away or moves it behind `d`. */
  lemma DeliveryAhead(cfg: Config, s: System, step: Step, r: System, d: EventId)
    requires Effect(cfg, s, step, r) && step.action.SettleDelivery? && CalmStep(step) && s.clock < step.at
    requires d in s.gateway.deliveries && s.gateway.deliveries[d].nextAttemptAt <= s.clock && s.worker.batch[0] != d
    ensures d in r.gateway.deliveries && r.gateway.deliveries[d] == s.gateway.deliveries[d]
    ensures var id, ahead := s.worker.batch[0], Ahead(s.gateway.deliveries, d);
            && Ahead(r.gateway.deliveries, d) == ahead - {id}
            && |Ahead(r.gateway.deliveries, d)| == |ahead| - if id in ahead then 1 else 0
  {
    AheadWithout(s.gateway.deliveries, r.gateway.deliveries, d, s.worker.batch[0]);
  }

  /** An interruption leaves the rows as they are and the worker idle. */
  lemma InterruptionKeepsRows(cfg: Config, s: System, step: Step, r: System)
    requires Effect(cfg, s, step, r) && Interrupts(step)
    ensures r.worker == IDLE && r.gateway.deliveries == s.gateway.deliveries
  {
  }

  lemma DeliveryWaits(cfg: Config, s: System, step: Step, r: System, d: EventId)
    requires Waits(cfg, s, d) && Effect(cfg, s, step, r) && step.action.SettleDelivery? && CalmStep(step) && s.clock < step.at
    ensures Waits(cfg, r, d) && Slack(r, d) == Slack(s, d)
  {
    var id := s.worker.batch[0];
    assert id in s.worker.batch;
    DeliveryAhead(cfg, s, step, r, d);
    forall o | o in r.worker.batch ensures o in Ahead(r.gateway.deliveries, d) {
      assert o in s.worker.batch && o != id;
    }
  }

  lemma FetchWaits(cfg: Config, s: System, step: Step, r: System, d: EventId)
    requires Waits(cfg, s, d) && Effect(cfg, s, step, r) && step.action.Fetch? && s.clock < step.at
    requires d !in r.worker.batch
    ensures Waits(cfg, r, d) && Slack(r, d) == Slack(s, d) - cfg.settings.batch
  {
    assert d in DueSet(s.gateway.deliveries, step.at);
    BatchDistinct(s.gateway.deliveries, cfg.settings.batch, step.at, r.worker.batch);
  }

  /** A step that neither picks nor attempts `d` keeps it waiting. A fetch uses up a whole batch of the rows ahead;
      an interruption gives back at most a batch. */
  lemma EffectWaits(cfg: Config, s: System, step: Step, r: System, d: EventId)
    requires Waits(cfg, s, d) && Effect(cfg, s, step, r) && s.clock < step.at && d !in r.worker.batch
    ensures Waits(cfg, r, d)
    ensures var b := cfg.settings.batch;
            Slack(r, d) <= Slack(s, d) - (if step.action.Fetch? then b else 0) + (if Interrupts(step) then b else 0)
  {
    if Interrupts(step) {
      InterruptionKeepsRows(cfg, s, step, r);
    } else if step.action.Settle? {
      SettleAhead(cfg, s, step, r, d);
    } else if step.action.SettleDelivery? {
      DeliveryWaits(cfg, s, step, r, d);
    } else if step.action.Fetch? {
      FetchWaits(cfg, s, step, r, d);
    }
  }

  lemma {:induction false} SmallerThanBatch(ids: seq<EventId>, among: set<EventId>)
    requires forall id :: id in among ==> id in ids
    ensures |among| <= |ids|
  {
    if ids != [] {
      forall id | id in among - {ids[0]} ensures id in ids[1..] {
        assert id in ids;
      }
      SmallerThanBatch(ids[1..], among - {ids[0]});
    }
  }

  /** What is ahead of a picked row is picked, too. */
  lemma AheadIsPicked(rows: Rows, limit: nat, now: real, ids: seq<EventId>, d: EventId)
    requires IsDueBatch(rows, limit, now, ids) && d in ids
    ensures forall o :: o in Ahead(rows, d) ==> o in ids
    ensures |Ahead(rows, d)| < limit
  {
    var all := Ahead(rows, d) + {d};
    forall o | o in all ensures o in ids {
      BeforeTotal(rows, o, d);
      assert o in DueSet(rows, now);
    }
    BeforeTotal(rows, d, d);
    SmallerThanBatch(ids, all);
    assert |all| == |Ahead(rows, d)| + 1;
  }

  /** Only a fetch can bring `d` into the batch. */
  lemma NewlyPicked(cfg: Config, s: System, step: Step, r: System, d: EventId)
    requires Waits(cfg, s, d) && Effect(cfg, s, step, r) && s.clock < step.at && d in r.worker.batch
    ensures step.action.Fetch? && s.worker == IDLE && Picked(cfg, r, d)
  {
    if step.action.Fetch? {
      AheadIsPicked(s.gateway.deliveries, cfg.settings.batch, step.at, r.worker.batch, d);
      BatchDistinct(s.gateway.deliveries, cfg.settings.batch, step.at, r.worker.batch);
    }
  }

  /** A picked row stays picked until it is attempted or the iteration is interrupted; then it waits behind less
      than a batch. */
  lemma EffectPicked(cfg: Config, s: System, step: Step, r: System, d: EventId)
    requires Picked(cfg, s, d) && Effect(cfg, s, step, r) && s.clock < step.at
    requires !(step.action.StartDelivery? && s.worker.batch[0] == d)
    ensures !step.action.Fetch?
    ensures !Interrupts(step) ==> Picked(cfg, r, d)
    ensures Interrupts(step) ==> Waits(cfg, r, d) && Slack(r, d) < cfg.settings.batch
  {
    if Interrupts(step) {
      InterruptionKeepsRows(cfg, s, step, r);
    } else if step.action.Settle? {
      SettleAhead(cfg, s, step, r, d);
    } else if step.action.SettleDelivery? {
      DeliveryAhead(cfg, s, step, r, d);
    }
  }

  /** The first step of a run uses up a batch if it is a fetch, and gives one back if it is an interruption. */
  lemma Charge(b: nat, run: seq<Step>, after: int, before: int)
    requires run != [] && b * Fetches(run[1..]) <= after + b * Interruptions(run[1..])
    requires after <= before - (if run[0].action.Fetch? then b else 0) + (if Interrupts(run[0]) then b else 0)
    ensures b * Fetches(run) <= before + b * Interruptions(run)
  {
    OneMore(b, Fetches(run[1..]));
    OneMore(b, Interruptions(run[1..]));
  }

  lemma FewerFetches(b: nat, f: nat, i: nat, slack: int)
    requires slack < b && b * f <= slack + b * i
    ensures f <= i
  {
    OneMore(b, i);
    if f > i {
      Monotone(b, i + 1, f);
    }
  }

  lemma OneMore(b: nat, i: nat)
    ensures b * (i + 1) == b * i + b
  {
  }

  lemma Monotone(b: nat, f: nat, i: nat)
    requires f <= i
    ensures b * f <= b * i
  {
  }

  /** `d` is due, in the queue or the batch, and the run passes over it. */
  ghost predicate PassedOver(cfg: Config, s: System, run: seq<Step>, d: EventId) {
    Inv(cfg, s) && PassesOver(cfg, s, run, d) && (Waits(cfg, s, d) || Picked(cfg, s, d))
  }

  lemma FirstStep(cfg: Config, s: System, run: seq<Step>, d: EventId)
    requires PassedOver(cfg, s, run, d) && run != []
    ensures PassedOver(cfg, Next(cfg, s, run[0]), run[1..], d) && s.clock < run[0].at
    ensures Effect(cfg, s, run[0], Next(cfg, s, run[0]))
  {
    var r := Next(cfg, s, run[0]);
    NextEffect(cfg, s, run[0]);
    if Picked(cfg, s, d) {
      EffectPicked(cfg, s, run[0], r, d);
    } else if d in r.worker.batch {
      NewlyPicked(cfg, s, run[0], r, d);
    } else {
      EffectWaits(cfg, s, run[0], r, d);
    }
  }

  /** While a row is passed over, every fetch that is not made up for by an interruption uses up a whole batch of the
      rows ahead; and a picked row is only passed over when its iteration is interrupted. */
  lemma {:induction false} WaitIsBounded(cfg: Config, s: System, run: seq<Step>, d: EventId)
    requires PassedOver(cfg, s, run, d)
    ensures Waits(cfg, s, d) ==> cfg.settings.batch * Fetches(run) <= Slack(s, d) + cfg.settings.batch * Interruptions(run)
    ensures Picked(cfg, s, d) ==> Fetches(run) + 1 <= Interruptions(run)
    decreases |run|
  {
    if run != [] {
      var b, step, rest := cfg.settings.batch, run[0], run[1..];
      var r := Next(cfg, s, step);
      FirstStep(cfg, s, run, d);
      WaitIsBounded(cfg, r, rest, d);
      if Picked(cfg, s, d) {
        EffectPicked(cfg, s, step, r, d);
        if Interrupts(step) {
          FewerFetches(b, Fetches(rest), Interruptions(rest), Slack(r, d));
        }
      } else if d in r.worker.batch {
        NewlyPicked(cfg, s, step, r, d);
        Monotone(b, Fetches(run), Interruptions(run));
      } else {
        EffectWaits(cfg, s, step, r, d);
        Charge(b, run, Slack(r, d), Slack(s, d));
      }
    }
  }

  lemma EnoughIterations(b: nat, f: nat, i: nat, k: nat)
    requires b >= 1 && f >= i + k / b + 1
    ensures b * f > k + b * i
  {
    assert b * f >= b * (i + (k / b + 1));
    assert b * (i + (k / b + 1)) == b * i + b * (k / b + 1);
  }

  /** No starvation: with `k` deliveries ahead of a due one, it is attempted as soon as `k / batch + 1` iterations
      have been made besides those that a crash or an uncaught exception cut short. */
  lemma NoStarvation(cfg: Config, s: System, run: seq<Step>, d: EventId)
    requires Inv(cfg, s) && s.worker == IDLE && cfg.settings.batch >= 1
    requires Due(s.gateway.deliveries, d, s.clock)
    requires Legal(cfg, s, run) && Ticks(s.clock, run) && After(cfg, s, run).worker == IDLE
    requires Fetches(run) >= Interruptions(run) + |Ahead(s.gateway.deliveries, d)| / cfg.settings.batch + 1
    ensures Attempts(cfg, s, run, d)
  {
    if !Attempts(cfg, s, run, d) {
      PassesOverIf(cfg, s, run, d);
      WaitIsBounded(cfg, s, run, d);
      EnoughIterations(cfg.settings.batch, Fetches(run), Interruptions(run), |Ahead(s.gateway.deliveries, d)|);
    }
  }

  // ----- when exceptions can starve a row -----

  /** `n` iterations without a crash, some perhaps cut short by exceptions, that never attempt `d`. */
  ghost predicate Starves(cfg: Config, s: System, run: seq<Step>, d: EventId, n: nat)
    requires Typed(cfg, s)
  {
    && Legal(cfg, s, run) && CrashFree(run) && Ticks(s.clock, run) && After(cfg, s, run).worker == IDLE
    && Fetches(run) == n && !Attempts(cfg, s, run, d)
  }

  ghost predicate StarvableFor(cfg: Config, s: System, d: EventId, n: nat)
    requires Typed(cfg, s)
  {
    exists run :: Starves(cfg, s, run, d, n)
  }

  /** However many iterations are made, `d` may never be attempted. */
  ghost predicate Starvable(cfg: Config, s: System, d: EventId)
    requires Typed(cfg, s)
  {
    forall n: nat :: StarvableFor(cfg, s, d, n)
  }

  /** A row ahead of `d` comes first in the next batch. */
  lemma FirstIsAhead(rows: Rows, limit: nat, now: real, ids: seq<EventId>, d: EventId)
    requires IsDueBatch(rows, limit, now, ids) && limit >= 1 && Due(rows, d, now) && Ahead(rows, d) != {}
    ensures ids != [] && ids[0] != d
  {
    var o :| o in Ahead(rows, d);
    assert o in DueSet(rows, now) && d in DueSet(rows, now);
    BeforeTotal(rows, o, d);
  }

  /** The worker picks up a row, and its call raises. */
  lemma RaisingAttempt(cfg: Config, s: System, start: Step, settle: Step)
    requires Inv(cfg, s) && s.worker.batch != [] && s.worker.current.None?
    requires start.action == StartDelivery && settle.action == SettleDelivery(Uncaught, 0.0)
    ensures Enabled(cfg, s, start)
    ensures var t := Next(cfg, s, start);
            && Inv(cfg, t) && t.clock == start.at && Enabled(cfg, t, settle)
            && var r := Next(cfg, t, settle);
            Inv(cfg, r) && r.clock == settle.at && r.worker == IDLE && r.gateway == s.gateway
  {
    NextEffect(cfg, s, start);
    var t := Next(cfg, s, start);
    NextEffect(cfg, t, settle);
    NextSettlesDelivery(cfg, t, settle);
  }

  lemma FetchPicks(cfg: Config, s: System, fetch: Step, d: EventId)
    requires Inv(cfg, s) && s.worker == IDLE && cfg.fallback && cfg.settings.batch >= 1 && fetch.action == Fetch
    requires Due(s.gateway.deliveries, d, fetch.at) && Ahead(s.gateway.deliveries, d) != {}
    ensures var t := Next(cfg, s, fetch);
            && Inv(cfg, t) && t.clock == fetch.at && t.gateway == s.gateway
            && t.worker.batch != [] && t.worker.batch[0] != d && t.worker.current.None?
  {
    NextEffect(cfg, s, fetch);
    FirstIsAhead(s.gateway.deliveries, cfg.settings.batch, fetch.at, Next(cfg, s, fetch).worker.batch, d);
  }

  lemma PassesOverCons(cfg: Config, s: System, step: Step, rest: seq<Step>, d: EventId)
    requires Typed(cfg, s) && Enabled(cfg, s, step) && s.clock < step.at
    requires !(step.action.StartDelivery? && s.worker.batch[0] == d)
    requires Legal(cfg, Next(cfg, s, step), rest) && PassesOver(cfg, Next(cfg, s, step), rest, d)
    ensures Legal(cfg, s, [step] + rest) && PassesOver(cfg, s, [step] + rest, d)
    ensures After(cfg, s, [step] + rest) == After(cfg, Next(cfg, s, step), rest)
  {
    assert ([step] + rest)[1..] == rest;
  }

  lemma {:induction false} PassesOverConcat(cfg: Config, s: System, run: seq<Step>, more: seq<Step>, d: EventId)
    requires Typed(cfg, s) && Legal(cfg, s, run) && PassesOver(cfg, s, run, d)
    requires PassesOver(cfg, After(cfg, s, run), more, d)
    ensures PassesOver(cfg, s, run + more, d)
    decreases |run|
  {
    if run == [] {
      assert run + more == more;
    } else {
      assert (run + more)[0] == run[0] && (run + more)[1..] == run[1..] + more;
      PassesOverConcat(cfg, Next(cfg, s, run[0]), run[1..], more, d);
    }
  }

  /** A run that passes over `d` is legal, ticks, ends idle and does not attempt `d`. */
  lemma {:induction false} PassesOverIs(cfg: Config, s: System, run: seq<Step>, d: EventId)
    requires Inv(cfg, s) && PassesOver(cfg, s, run, d)
    ensures Legal(cfg, s, run) && Ticks(s.clock, run) && After(cfg, s, run).worker == IDLE && !Attempts(cfg, s, run, d)
    decreases |run|
  {
    if run != [] {
      NextEffect(cfg, s, run[0]);
      PassesOverIs(cfg, Next(cfg, s, run[0]), run[1..], d);
    }
  }

  lemma {:induction false} FetchesConcat(run: seq<Step>, more: seq<Step>)
    ensures Fetches(run + more) == Fetches(run) + Fetches(more)
  {
    if run == [] {
      assert run + more == more;
    } else {
      assert (run + more)[0] == run[0] && (run + more)[1..] == run[1..] + more;
      FetchesConcat(run[1..], more);
    }
  }

  /** An iteration that ends in an exception before it comes to `d`. */
  lemma IterationPassesOver(cfg: Config, s: System, d: EventId, fetch: Step, start: Step, settle: Step)
    requires Inv(cfg, s) && s.worker == IDLE && cfg.fallback && cfg.settings.batch >= 1
    requires Due(s.gateway.deliveries, d, s.clock) && Ahead(s.gateway.deliveries, d) != {}
    requires fetch.action == Fetch && start.action == StartDelivery && settle.action == SettleDelivery(Uncaught, 0.0)
    requires s.clock < fetch.at < start.at < settle.at
    ensures var run := [fetch] + ([start] + ([settle] + []));
            && Legal(cfg, s, run) && PassesOver(cfg, s, run, d)
            && var r := After(cfg, s, run);
            Inv(cfg, r) && r.worker == IDLE && r.gateway == s.gateway && r.clock == settle.at
  {
    FetchPicks(cfg, s, fetch, d);
    var t := Next(cfg, s, fetch);
    RaisingAttempt(cfg, t, start, settle);
    var u := Next(cfg, t, start);
    PassesOverCons(cfg, u, settle, [], d);
    PassesOverCons(cfg, t, start, [settle] + [], d);
    PassesOverCons(cfg, s, fetch, [start] + ([settle] + []), d);
  }

  lemma StarvingIteration(cfg: Config, s: System, d: EventId) returns (run: seq<Step>)
    requires Inv(cfg, s) && s.worker == IDLE && cfg.fallback && cfg.settings.batch >= 1
    requires Due(s.gateway.deliveries, d, s.clock) && Ahead(s.gateway.deliveries, d) != {}
    ensures Legal(cfg, s, run) && PassesOver(cfg, s, run, d) && CrashFree(run) && Fetches(run) == 1
    ensures var r := After(cfg, s, run); Inv(cfg, r) && r.worker == IDLE && r.gateway == s.gateway && s.clock <= r.clock
  {
    var fetch, start := Step(s.clock + 1.0, Fetch), Step(s.clock + 2.0, StartDelivery);
    var settle := Step(s.clock + 3.0, SettleDelivery(Uncaught, 0.0));
    IterationPassesOver(cfg, s, d, fetch, start, settle);
    OneFetch(fetch, start, settle);
    run := [fetch] + ([start] + ([settle] + []));
  }

  lemma OneFetch(fetch: Step, start: Step, settle: Step)
    requires fetch.action == Fetch && start.action.StartDelivery? && settle.action.SettleDelivery?
    ensures var run := [fetch] + ([start] + ([settle] + [])); CrashFree(run) && Fetches(run) == 1
  {
    FetchesConcat([fetch], [start] + ([settle] + []));
    FetchesConcat([start], [settle] + []);
    FetchesConcat([settle], []);
  }

  /** While the call of the first due row raises an exception outside the caught set, every iteration ends there. */
  lemma {:induction false} StarvingRun(cfg: Config, s: System, d: EventId, n: nat) returns (run: seq<Step>)
    requires Inv(cfg, s) && s.worker == IDLE && cfg.fallback && cfg.settings.batch >= 1
    requires Due(s.gateway.deliveries, d, s.clock) && Ahead(s.gateway.deliveries, d) != {}
    ensures PassesOver(cfg, s, run, d) && CrashFree(run) && Fetches(run) == n
    decreases n
  {
    run := [];
    if n > 0 {
      var first := StarvingIteration(cfg, s, d);
      var rest := StarvingRun(cfg, After(cfg, s, first), d, n - 1);
      PassesOverConcat(cfg, s, first, rest, d);
      FetchesConcat(first, rest);
      run := first + rest;
    }
  }

  /** `d` is due and first in the queue, and the worker is idle or about to attempt it. */
  ghost predicate First(s: System, d: EventId) {
    && Due(s.gateway.deliveries, d, s.clock) && Ahead(s.gateway.deliveries, d) == {}
    && s.worker.current.None? && (s.worker.batch != [] ==> s.worker.batch[0] == d)
  }

  lemma FirstIsPicked(rows: Rows, limit: nat, now: real, ids: seq<EventId>, d: EventId)
    requires IsDueBatch(rows, limit, now, ids) && limit >= 1 && Due(rows, d, now) && Ahead(rows, d) == {}
    ensures ids != [] && ids[0] == d
  {
    assert d in DueSet(rows, now);
    assert ids[0] !in Ahead(rows, d);
    BeforeTotal(rows, ids[0], d);
  }

  lemma EffectFirst(cfg: Config, s: System, step: Step, r: System, d: EventId)
    requires First(s, d) && Effect(cfg, s, step, r) && s.clock < step.at && cfg.settings.batch >= 1
    requires !step.action.Crash? && !(step.action.StartDelivery? && s.worker.batch[0] == d)
    ensures First(r, d) && (s.worker.batch != [] ==> r.worker.batch != [])
    ensures step.action.Fetch? ==> r.worker.batch != []
  {
    if step.action.Settle? {
      SettleAhead(cfg, s, step, r, d);
    } else if step.action.Fetch? {
      FirstIsPicked(s.gateway.deliveries, cfg.settings.batch, step.at, r.worker.batch, d);
    }
  }

  /** Without a crash, the first row of the queue is attempted in the next iteration, whatever its call brings. */
  lemma {:induction false} FirstIsAttempted(cfg: Config, s: System, run: seq<Step>, d: EventId)
    requires Inv(cfg, s) && First(s, d) && PassesOver(cfg, s, run, d) && CrashFree(run) && cfg.settings.batch >= 1
    ensures s.worker.batch == [] && Fetches(run) == 0
    decreases |run|
  {
    if run != [] {
      var r := Next(cfg, s, run[0]);
      NextEffect(cfg, s, run[0]);
      EffectFirst(cfg, s, run[0], r, d);
      FirstIsAttempted(cfg, r, run[1..], d);
    }
  }

  /** Exceptions outside the caught set can starve a due row for ever exactly when some row is ahead of it. */
  lemma StarvableIffBehind(cfg: Config, s: System, d: EventId)
    requires Inv(cfg, s) && s.worker == IDLE && cfg.fallback && cfg.settings.batch >= 1
    requires Due(s.gateway.deliveries, d, s.clock)
    ensures Starvable(cfg, s, d) <==> Ahead(s.gateway.deliveries, d) != {}
  {
    if Ahead(s.gateway.deliveries, d) != {} {
      forall n: nat ensures StarvableFor(cfg, s, d, n) {
        var run := StarvingRun(cfg, s, d, n);
        PassesOverIs(cfg, s, run, d);
        assert Starves(cfg, s, run, d, n);
      }
    } else if Starvable(cfg, s, d) {
      assert StarvableFor(cfg, s, d, 1);
      var run :| Starves(cfg, s, run, d, 1);
      PassesOverIf(cfg, s, run, d);
      FirstIsAttempted(cfg, s, run, d);
      assert false;
    }
  }
}
