/** Runs of the protocol: which states they reach, how they are put together, and which of them the methods of the
    Gateway make. */
module Runs {
  import opened Types
  import opened GatewayModels
  import opened AccountClient
  import opened DeliveryQueue
  import opened EventService
  import opened AsyncFallback
  import opened Protocol
  import opened LedgerAudit
  import opened Agreement
  import AS = AccountService

  ghost predicate Reachable(cfg: Config, s: System) {
    && cfg.settings.Valid()
    && exists run :: Legal(cfg, INIT, run) && s == After(cfg, INIT, run)
  }

  lemma ReachableInv(cfg: Config, s: System)
    requires Reachable(cfg, s)
    ensures Inv(cfg, s) && Consistent(s.ledger)
  {
    var run :| Legal(cfg, INIT, run) && s == After(cfg, INIT, run);
    InitInv(cfg);
    EmptyConsistent();
    RunKeeps(cfg, INIT, run);
    RunConsistentLedger(cfg, INIT, run);
  }

  lemma NextLedger(cfg: Config, s: System, step: Step)
    requires Typed(cfg, s) && Enabled(cfg, s, step)
    ensures var l := Next(cfg, s, step).ledger;
            if step.action.Process? then l == AS.Execute(s.ledger, AS.Call(step.action.command.accountId, step.action.command))
            else l == s.ledger
  {
  }

  lemma {:induction false} RunConsistentLedger(cfg: Config, s: System, run: seq<Step>)
    requires Typed(cfg, s) && Legal(cfg, s, run) && Consistent(s.ledger)
    ensures Consistent(After(cfg, s, run).ledger)
    decreases |run|
  {
    if run != [] {
      NextLedger(cfg, s, run[0]);
      if run[0].action.Process? {
        ExecuteConsistent(s.ledger, AS.Call(run[0].action.command.accountId, run[0].action.command));
      }
      RunConsistentLedger(cfg, Next(cfg, s, run[0]), run[1..]);
    }
  }

  // ----- putting runs together -----

  /** One more step at the end of a run. */
  lemma {:induction false} Append(cfg: Config, s: System, run: seq<Step>, step: Step)
    requires Typed(cfg, s) && Legal(cfg, s, run) && Enabled(cfg, After(cfg, s, run), step)
    ensures Legal(cfg, s, run + [step])
    ensures After(cfg, s, run + [step]) == Next(cfg, After(cfg, s, run), step)
    decreases |run|
  {
    var more := run + [step];
    if run == [] {
      assert more[1..] == [];
      assert Legal(cfg, Next(cfg, s, more[0]), more[1..]);
    } else {
      assert more[0] == run[0] && more[1..] == run[1..] + [step];
      Append(cfg, Next(cfg, s, run[0]), run[1..], step);
    }
  }

  /** One run after another. */
  lemma {:induction false} Concat(cfg: Config, s: System, run: seq<Step>, more: seq<Step>)
    requires Typed(cfg, s) && Legal(cfg, s, run) && Legal(cfg, After(cfg, s, run), more)
    ensures Legal(cfg, s, run + more)
    ensures After(cfg, s, run + more) == After(cfg, After(cfg, s, run), more)
    decreases |run|
  {
    if run == [] {
      assert run + more == more;
    } else {
      assert (run + more)[0] == run[0] && (run + more)[1..] == run[1..] + more;
      Concat(cfg, Next(cfg, s, run[0]), run[1..], more);
    }
  }

  // ----- the methods are runs -----

  /** A new event is stored, and its call begins. */
  lemma CallingRun(cfg: Config, s: System, c: EventCreate, at: real) returns (run: seq<Step>)
    requires Typed(cfg, s) && c.eventId !in s.gateway.events
    ensures Legal(cfg, s, run)
    ensures var r := After(cfg, s, run);
            && r.gateway == Noted(Stored(s.gateway, c), EventStored, c.eventId) && r.ledger == s.ledger && r.counters == s.counters
            && c.eventId in r.active && r.active[c.eventId] == Submission(PayloadFrom(c), Calling)
  {
    run := [];
    Append(cfg, s, run, Step(at, Lookup(c)));
    run := run + [Step(at, Lookup(c))];
    Append(cfg, s, run, Step(at, Insert(c)));
    run := run + [Step(at, Insert(c))];
    assert After(cfg, s, run).active[c.eventId] == Submission(PayloadFrom(c), Inserted);
    Append(cfg, s, run, Step(at, RecordStored(c.eventId)));
    run := run + [Step(at, RecordStored(c.eventId))];
  }

  /** The event is stored and its request sent. */
  lemma SentRun(cfg: Config, s: System, c: EventCreate, at: real) returns (run: seq<Step>)
    requires Typed(cfg, s) && c.eventId !in s.gateway.events
    ensures Legal(cfg, s, run)
    ensures var r := After(cfg, s, run);
            && r.gateway == Noted(Stored(s.gateway, c), EventStored, c.eventId)
            && r.ledger == s.ledger && r.counters == s.counters
            && c.eventId in r.active && r.active[c.eventId] == Submission(PayloadFrom(c), Calling)
            && PayloadFrom(c) in r.sent
  {
    var calling := CallingRun(cfg, s, c, at);
    var last := Step(at, Send(c.eventId));
    Append(cfg, s, calling, last);
    run := calling + [last];
  }

  function CallOf(p: Command): AS.Call {
    AS.Call(p.accountId, p)
  }

  /** Two systems that differ in what the Account Service did, and in the time. */
  ghost predicate SameGateway(s: System, r: System) {
    && r.gateway == s.gateway && r.active == s.active && r.worker == s.worker && r.counters == s.counters
    && r.sent == s.sent && s.replies <= r.replies
  }

  /** A sent request is processed `n` times. */
  lemma {:induction false} ProcessedRun(cfg: Config, s: System, p: Command, n: nat, at: real) returns (run: seq<Step>)
    requires Typed(cfg, s) && p in s.sent
    ensures Legal(cfg, s, run)
    ensures var r := After(cfg, s, run);
            && SameGateway(s, r) && r.ledger == AS.Redelivered(s.ledger, CallOf(p), n)
            && (n > 0 ==> Answered(p, AS.Decide(AS.Redelivered(s.ledger, CallOf(p), n - 1), CallOf(p))) in r.replies)
  {
    run := [];
    if n > 0 {
      var before := ProcessedRun(cfg, s, p, n - 1, at);
      var last := Step(at, Process(p));
      Append(cfg, s, before, last);
      run := before + [last];
    }
  }

  /** What can come of a call whose request `p` is processed `n` times: the last answer of `apply`, or none; or an
      error status from elsewhere, where those are possible. */
  predicate Answers(cfg: Config, l: AS.Ledger, p: Command, n: nat, outcome: Outcome)
    requires l.WellFormed()
  {
    outcome.Response? ==>
      || (n > 0 && outcome.status == AS.Decide(AS.Redelivered(l, CallOf(p), n - 1), CallOf(p)).Status())
      || (cfg.opaqueErrors && Opaque(outcome.status))
  }

  lemma AnswersCredible(cfg: Config, l: AS.Ledger, r: System, p: Command, n: nat, outcome: Outcome)
    requires l.WellFormed() && Answers(cfg, l, p, n, outcome)
    requires n > 0 ==> Answered(p, AS.Decide(AS.Redelivered(l, CallOf(p), n - 1), CallOf(p))) in r.replies
    ensures Credible(cfg, r, p, outcome)
  {
  }

  function Queueing(m: Counters, outcome: Outcome, fallback: bool): Counters {
    if outcome.Unavailable? && fallback then m.(queued := m.queued + 1) else m
  }

  /** The call of a submission ends: the commit that settles it, and the last record if there is one. */
  lemma SettledRun(cfg: Config, s: System, id: EventId, outcome: Outcome, traceId: string, at: real) returns (run: seq<Step>)
    requires Typed(cfg, s) && id in s.active && s.active[id].phase == Calling
    requires Credible(cfg, s, s.active[id].payload, outcome)
    ensures Legal(cfg, s, run)
    ensures var r := After(cfg, s, run);
            && r.gateway == Closed(Settled(s.gateway, id, s.active[id].payload, outcome, cfg.fallback, traceId, at),
                                   id, outcome, cfg.fallback)
            && r.ledger == s.ledger && r.counters == Queueing(s.counters, outcome, cfg.fallback)
  {
    run := [];
    Append(cfg, s, run, Step(at, Settle(id, outcome, traceId)));
    run := run + [Step(at, Settle(id, outcome, traceId))];
    if FinalAction(outcome, cfg.fallback).Some? {
      assert After(cfg, s, run).active[id].phase == Closing(outcome);
      Append(cfg, s, run, Step(at, RecordFinal(id)));
      run := run + [Step(at, RecordFinal(id))];
    }
  }

  /** A submission of a new event whose request is processed `n` times, with nothing else in between, is a run of
      the protocol. It leaves the tables and counters that `Service.Submit` leaves, and the ledger of `n` deliveries. */
  lemma SubmissionIsARun(cfg: Config, s: System, c: EventCreate, n: nat, outcome: Outcome, traceId: string, at: real)
    returns (run: seq<Step>)
    requires Typed(cfg, s) && c.eventId !in s.gateway.events && Answers(cfg, s.ledger, PayloadFrom(c), n, outcome)
    ensures Legal(cfg, s, run)
    ensures var r := After(cfg, s, run);
            && r.gateway == Completed(s.gateway, c, outcome, NOTHING, cfg.fallback, traceId, at).0
            && r.counters == Queueing(s.counters, outcome, cfg.fallback)
            && r.ledger == AS.Redelivered(s.ledger, CallOf(PayloadFrom(c)), n)
  {
    var p := PayloadFrom(c);
    MergedNothing(Noted(Stored(s.gateway, c), EventStored, c.eventId));
    var sent := SentRun(cfg, s, c, at);
    var asked := After(cfg, s, sent);
    var processed := ProcessedRun(cfg, asked, p, n, at);
    var answered := After(cfg, asked, processed);
    AnswersCredible(cfg, s.ledger, answered, p, n, outcome);
    var settled := SettledRun(cfg, answered, c.eventId, outcome, traceId, at);
    Concat(cfg, s, sent, processed);
    Concat(cfg, s, sent + processed, settled);
    run := sent + processed + settled;
  }

  /** The worker is between attempts, and the next row of its batch and the event of that row exist. */
  predicate Stands(s: System) {
    && s.worker.batch != [] && s.worker.current.None?
    && s.worker.batch[0] in s.gateway.deliveries && s.worker.batch[0] in s.gateway.events
  }

  /** The worker loads the next row and sends its payload. */
  lemma LoadedRun(cfg: Config, s: System, at: real) returns (run: seq<Step>)
    requires Typed(cfg, s) && Stands(s)
    ensures Legal(cfg, s, run)
    ensures var id, r := s.worker.batch[0], After(cfg, s, run);
            && r.gateway == s.gateway && r.ledger == s.ledger && r.counters == s.counters
            && r.worker == WorkerState(s.worker.batch, Some(s.gateway.deliveries[id]))
            && s.gateway.deliveries[id].payload in r.sent
  {
    var first, second := Step(at, StartDelivery), Step(at, SendDelivery);
    NextStarts(cfg, s, first);
    Append(cfg, s, [], first);
    assert [] + [first] == [first];
    Append(cfg, s, [first], second);
    run := [first] + [second];
  }

  /** The request the worker has sent is processed `n` times. */
  lemma AttemptAnsweredRun(cfg: Config, s: System, n: nat, at: real) returns (run: seq<Step>)
    requires Typed(cfg, s) && Stands(s)
    ensures Legal(cfg, s, run)
    ensures var id, r := s.worker.batch[0], After(cfg, s, run);
            && var row := s.gateway.deliveries[id];
            && var call := CallOf(row.payload);
            && r.gateway == s.gateway && r.counters == s.counters && r.worker == WorkerState(s.worker.batch, Some(row))
            && r.ledger == AS.Redelivered(s.ledger, call, n)
            && (n > 0 ==> Answered(row.payload, AS.Decide(AS.Redelivered(s.ledger, call, n - 1), call)) in r.replies)
  {
    var loaded := LoadedRun(cfg, s, at);
    var processed := ProcessedRun(cfg, After(cfg, s, loaded), s.gateway.deliveries[s.worker.batch[0]].payload, n, at);
    Concat(cfg, s, loaded, processed);
    run := loaded + processed;
  }

  lemma AttemptSettledRun(cfg: Config, s: System, outcome: Outcome, jitter: real, at: real) returns (run: seq<Step>)
    requires Typed(cfg, s) && s.worker.current.Some? && 0.0 <= jitter <= cfg.settings.jitter
    requires Credible(cfg, s, s.worker.current.value.payload, outcome)
    ensures Legal(cfg, s, run)
    ensures var id, row, r := s.worker.batch[0], s.worker.current.value, After(cfg, s, run);
            && r.gateway == Delivered(s.gateway, id, row, outcome, at, Backoff(cfg.settings, row.attempts + 1, jitter))
            && r.ledger == s.ledger && r.counters == Tallied(s.counters, outcome)
            && r.worker == (if outcome.Uncaught? then IDLE else WorkerState(s.worker.batch[1..], None))
  {
    var last := Step(at, SettleDelivery(outcome, jitter));
    NextSettlesDelivery(cfg, s, last);
    Append(cfg, s, [], last);
    assert [] + [last] == [last];
    run := [last];
  }

  /** A delivery attempt whose request is processed `n` times, with nothing else in between, is a run of the
      protocol. It leaves the tables that `Worker.ProcessEvent` leaves, and the ledger of `n` deliveries. */
  lemma AttemptIsARun(cfg: Config, s: System, n: nat, outcome: Outcome, jitter: real, at: real) returns (run: seq<Step>)
    requires Typed(cfg, s) && Stands(s) && 0.0 <= jitter <= cfg.settings.jitter
    requires Answers(cfg, s.ledger, s.gateway.deliveries[s.worker.batch[0]].payload, n, outcome)
    ensures Legal(cfg, s, run)
    ensures var id := s.worker.batch[0];
            && var row := s.gateway.deliveries[id];
            && var r := After(cfg, s, run);
            && r.gateway == Delivered(s.gateway, id, row, outcome, at, Backoff(cfg.settings, row.attempts + 1, jitter))
            && r.ledger == AS.Redelivered(s.ledger, CallOf(row.payload), n)
            && r.counters == Tallied(s.counters, outcome)
            && r.worker == (if outcome.Uncaught? then IDLE else WorkerState(s.worker.batch[1..], None))
  {
    var answered := AttemptAnsweredRun(cfg, s, n, at);
    var r, p := After(cfg, s, answered), s.gateway.deliveries[s.worker.batch[0]].payload;
    AnswersCredible(cfg, s.ledger, r, p, n, outcome);
    var settled := AttemptSettledRun(cfg, r, outcome, jitter, at);
    Concat(cfg, s, answered, settled);
    run := answered + settled;
  }

  // ----- the iterations of the worker are runs -----

  /** The worker's own function of an attempt, with the commits of others during its call, is the settlement step of
      the protocol, taken when those commits have been made. */
  lemma TurnIsSettling(cfg: Config, l: Limits, v: Snapshot, id: EventId, env: Surroundings, s: System)
    requires InRange(env, cfg.settings) && env.others.Spare(id) && id in v.tables.deliveries && id in v.tables.events
    requires s.gateway == Merged(v.tables, env.others) && s.counters == v.counts
    requires s.worker.batch != [] && s.worker.batch[0] == id && s.worker.current == Some(v.tables.deliveries[id])
    ensures var call, turn := Requested(l, v.circuit, env.asked, env.transport), Turned(l, cfg.settings, v, id, env);
            var r := SettlingDelivery(cfg, s, call.outcome, env.jitter, env.now);
            && r.gateway == turn.after.tables && r.counters == turn.after.counts
            && r.worker == (if turn.raised then IDLE else WorkerState(s.worker.batch[1..], None))
  {
  }

  /** The state of the Gateway is the one the worker sees. */
  ghost predicate Sees(s: System, v: Snapshot) {
    s.gateway == v.tables && s.counters == v.counts
  }

  /** An attempt of the worker, whose request is processed `n` times. */
  lemma TurnIsARun(cfg: Config, l: Limits, s: System, v: Snapshot, env: Surroundings, n: nat) returns (run: seq<Step>)
    requires Typed(cfg, s) && Stands(s) && Sees(s, v) && InRange(env, cfg.settings) && env.others == NOTHING
    requires Answers(cfg, s.ledger, s.gateway.deliveries[s.worker.batch[0]].payload, n,
                     Requested(l, v.circuit, env.asked, env.transport).outcome)
    ensures Legal(cfg, s, run)
    ensures var r, turn := After(cfg, s, run), Turned(l, cfg.settings, v, s.worker.batch[0], env);
            && Sees(r, turn.after)
            && r.ledger == AS.Redelivered(s.ledger, CallOf(s.gateway.deliveries[s.worker.batch[0]].payload), n)
            && r.worker == (if turn.raised then IDLE else WorkerState(s.worker.batch[1..], None))
  {
    MergedNothing(v.tables);
    run := AttemptIsARun(cfg, s, n, Requested(l, v.circuit, env.asked, env.transport).outcome, env.jitter, env.now);
  }

  ghost predicate Alone(envs: seq<Surroundings>, s: Settings) {
    forall k :: 0 <= k < |envs| ==> InRange(envs[k], s) && envs[k].others == NOTHING
  }

  /** What the calls of an iteration bring is what can come of them, when the request of id `k` is processed `ns[k]`
      times: each answer is read off the ledger that the attempts before it have left. */
  ghost predicate Backed(cfg: Config, l: Limits, ledger: AS.Ledger, v: Snapshot, ids: seq<EventId>, envs: seq<Surroundings>,
                         ns: seq<nat>, i: nat)
    requires ledger.WellFormed() && i <= |ids| <= |envs| && |ids| <= |ns| && Alone(envs, cfg.settings)
    decreases |ids| - i
  {
    i < |ids| && ids[i] in v.tables.deliveries ==>
      var p, turn := v.tables.deliveries[ids[i]].payload, Turned(l, cfg.settings, v, ids[i], envs[i]);
      && Answers(cfg, ledger, p, ns[i], Requested(l, v.circuit, envs[i].asked, envs[i].transport).outcome)
      && (!turn.raised ==> Backed(cfg, l, AS.Redelivered(ledger, CallOf(p), ns[i]), turn.after, ids, envs, ns, i + 1))
  }

  lemma NextStands(cfg: Config, s: System, ids: seq<EventId>, i: nat)
    requires Inv(cfg, s) && i < |ids| && s.worker == WorkerState(ids[i..], None)
    ensures Stands(s) && s.worker.batch[0] == ids[i] && s.worker.batch[1..] == ids[i + 1..]
  {
    assert s.worker.batch[0] in s.gateway.deliveries;
    assert StatusOf(s.gateway, ids[i]) == Some(QUEUED);
  }

  /** The rest of an iteration, in the order of its ids and up to an uncaught exception. */
  lemma {:induction false} BatchIsARun(cfg: Config, l: Limits, s: System, v: Snapshot, ids: seq<EventId>,
                                       envs: seq<Surroundings>, ns: seq<nat>, i: nat) returns (run: seq<Step>)
    requires Inv(cfg, s) && Sees(s, v) && i <= |ids| <= |envs| && |ids| <= |ns| && s.worker == WorkerState(ids[i..], None)
    requires Alone(envs, cfg.settings) && Backed(cfg, l, s.ledger, v, ids, envs, ns, i)
    ensures Legal(cfg, s, run)
    ensures var r := After(cfg, s, run);
            Sees(r, Iterated(l, cfg.settings, v, ids, envs, i).after) && r.worker == IDLE
    decreases |ids| - i
  {
    run := [];
    if i < |ids| {
      NextStands(cfg, s, ids, i);
      run := TurnIsARun(cfg, l, s, v, envs[i], ns[i]);
      RunKeeps(cfg, s, run);
      var turn := Turned(l, cfg.settings, v, ids[i], envs[i]);
      if !turn.raised {
        var r := After(cfg, s, run);
        var rest := BatchIsARun(cfg, l, r, turn.after, ids, envs, ns, i + 1);
        Concat(cfg, s, run, rest);
        run := run + rest;
      }
    }
  }

  /** An iteration of the worker with nothing else in between is a run of the protocol, from one idle state of the
      worker to the next. It leaves the tables and counters that `Worker.ProcessOnce` leaves. */
  lemma IterationIsARun(cfg: Config, l: Limits, s: System, v: Snapshot, now: real, envs: seq<Surroundings>, ns: seq<nat>)
    returns (run: seq<Step>)
    requires Inv(cfg, s) && Sees(s, v) && s.worker == IDLE && cfg.fallback
    requires |envs| == |ns| == cfg.settings.batch && Alone(envs, cfg.settings)
    requires Backed(cfg, l, s.ledger, v, Pick(v.tables.deliveries, DueSet(v.tables.deliveries, now), cfg.settings.batch), envs, ns, 0)
    ensures Legal(cfg, s, run)
    ensures var batch := Pick(v.tables.deliveries, DueSet(v.tables.deliveries, now), cfg.settings.batch);
            var r := After(cfg, s, run);
            Sees(r, Iterated(l, cfg.settings, v, batch, envs, 0).after) && r.worker == IDLE
  {
    var batch := Pick(v.tables.deliveries, DueSet(v.tables.deliveries, now), cfg.settings.batch);
    var fetch := Step(now, Fetch);
    NextKeeps(cfg, s, fetch);
    var t := Next(cfg, s, fetch);
    assert batch[0..] == batch;
    var rest := BatchIsARun(cfg, l, t, v, batch, envs, ns, 0);
    Append(cfg, s, [], fetch);
    assert [] + [fetch] == [fetch];
    Concat(cfg, s, [fetch], rest);
    run := [fetch] + rest;
  }
}
