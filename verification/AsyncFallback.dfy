/** The background worker that drains the delivery queue. */
module AsyncFallback {
  import opened Types
  import opened GatewayModels
  import opened AccountClient
  import opened DeliveryQueue
  import opened EventService

  datatype Settings = Settings(batch: nat, base: real, max: real, jitter: real)
  {
    predicate Valid() {
      0.0 <= base && 0.0 <= max && 0.0 <= jitter
    }
  }

  function Pow2(n: nat): real {
    if n == 0 then 1.0 else 2.0 * Pow2(n - 1)
  }

  function Min(a: int, b: int): int {
    if a < b then a else b
  }

  function Scaled(s: Settings, exponent: nat): real {
    s.base * Pow2(exponent)
  }

  function Bounded(s: Settings, delay: real): real {
    if delay < s.max then delay else s.max
  }

  /** The delay after failure number `attempts`, without jitter. */
  function Capped(s: Settings, attempts: nat): real {
    var exponent := if attempts == 0 then 0 else Min(attempts - 1, 16);
    Bounded(s, Scaled(s, exponent))
  }

  lemma {:induction false} PowerPositive(n: nat)
    ensures 1.0 <= Pow2(n)
  {
    if n > 0 {
      PowerPositive(n - 1);
    }
  }

  lemma ProductNonNegative(x: real, y: real)
    requires 0.0 <= x && 0.0 <= y
    ensures 0.0 <= x * y
  {
  }

  lemma ScaledNonNegative(s: Settings, exponent: nat)
    requires s.Valid()
    ensures 0.0 <= Scaled(s, exponent)
  {
    PowerPositive(exponent);
    ProductNonNegative(s.base, Pow2(exponent));
  }

  /** The delay before the next attempt; `jitter` is the random draw. */
  function Backoff(s: Settings, attempts: nat, jitter: real): (delay: real)
    requires s.Valid() && 0.0 <= jitter <= s.jitter
    ensures 0.0 <= delay <= s.max + s.jitter
  {
    ScaledNonNegative(s, if attempts == 0 then 0 else Min(attempts - 1, 16));
    Capped(s, attempts) + jitter
  }

  lemma {:induction false} PowerGrows(m: nat, n: nat)
    requires m <= n
    ensures Pow2(m) <= Pow2(n)
  {
    if m < n {
      PowerGrows(m, n - 1);
      PowerPositive(n - 1);
    }
  }

  lemma ProductGrows(x: real, y: real, z: real)
    requires 0.0 <= x && y <= z
    ensures x * y <= x * z
  {
  }

  lemma ScaledGrows(s: Settings, m: nat, n: nat)
    requires s.Valid() && m <= n
    ensures Scaled(s, m) <= Scaled(s, n)
  {
    PowerGrows(m, n);
    ProductGrows(s.base, Pow2(m), Pow2(n));
  }

  /** How often the base is doubled after failure `n`: n - 1 times, and no more than 16 times. */
  function Doublings(n: nat): nat
    requires n >= 1
  {
    if n <= 17 then n - 1 else 16
  }

  /** The delay after failure `n` is the doubled base, or the maximum where that is reached, plus the jitter. */
  lemma DelayIsDoubledAndCapped(s: Settings, n: nat, jitter: real)
    requires s.Valid() && 0.0 <= jitter <= s.jitter && n >= 1
    ensures var doubled := s.base * Pow2(Doublings(n));
            Backoff(s, n, jitter) == (if doubled >= s.max then s.max else doubled) + jitter
  {
    assert Doublings(n) == Min(n - 1, 16);
  }

  /** Once the doubled base has reached the maximum, every later delay is the maximum plus its jitter. */
  lemma CapIsKept(s: Settings, m: nat, n: nat, jitter: real)
    requires s.Valid() && 0.0 <= jitter <= s.jitter && 1 <= m <= n
    requires Scaled(s, Doublings(m)) >= s.max
    ensures Backoff(s, n, jitter) == s.max + jitter
  {
    ScaledGrows(s, Doublings(m), Doublings(n));
    assert Doublings(n) == Min(n - 1, 16);
  }

  /** The commit after a delivery attempt of row `d`; an uncaught exception commits nothing. */
  function Delivered(t: Tables, id: EventId, d: Delivery, outcome: Outcome, now: real, delay: real): Tables
    requires id in t.events
  {
    match outcome
    case Uncaught => t
    case Unavailable =>
      var row := d.(attempts := d.attempts + 1, nextAttemptAt := now + delay);
      Noted(t.(deliveries := t.deliveries[id := row]), EventQueueRetryScheduled(row.attempts, row.nextAttemptAt), id)
    case Response(status) =>
      var removed := t.(deliveries := t.deliveries - {id});
      if status >= 400 then Noted(WithStatus(removed, id, FAILED), EventQueueRejected, id)
      else Noted(WithStatus(removed, id, APPLIED), EventAppliedFromQueue(d.attempts + 1), id)
  }

  function Tallied(m: Counters, outcome: Outcome): Counters {
    match outcome
    case Uncaught => m
    case Unavailable => m.(retried := m.retried + 1)
    case Response(status) => if status >= 400 then m.(failed := m.failed + 1) else m.(processed := m.processed + 1)
  }

  /** What surrounds one attempt: when the breaker is asked, how the calls end, what others commit during
      them, when the attempt is settled and the jitter drawn. */
  datatype Surroundings = Surroundings(asked: real, transport: nat -> Attempt, others: Commits, now: real, jitter: real)

  /** What an attempt reads and writes. */
  datatype Snapshot = Snapshot(tables: Tables, circuit: Circuit, counts: Counters)

  datatype Turn = Turn(after: Snapshot, settled: bool, raised: bool)

  predicate InRange(env: Surroundings, s: Settings) {
    s.Valid() && 0.0 <= env.jitter <= s.jitter
  }

  /** One attempt on row `id`. A missing row is skipped, an orphan row removed. */
  function Turned(l: Limits, s: Settings, v: Snapshot, id: EventId, env: Surroundings): Turn
    requires InRange(env, s)
  {
    var t := v.tables;
    if id !in t.deliveries then Turn(v, false, false)
    else if id !in t.events then Turn(v.(tables := t.(deliveries := t.deliveries - {id})), false, false)
    else
      var row, call := t.deliveries[id], Requested(l, v.circuit, env.asked, env.transport);
      var delay := Backoff(s, row.attempts + 1, env.jitter);
      Turn(Snapshot(Delivered(Merged(t, env.others), id, row, call.outcome, env.now, delay),
                    Replay(l, v.circuit, call.notes), Tallied(v.counts, call.outcome)),
           call.outcome.Response?, call.outcome.Uncaught?)
  }

  /** The tables `u` are `w` with event `id` in status `status`, its row replaced or removed, and one record. */
  ghost predicate TurnedTo(w: Tables, u: Tables, id: EventId, e: Event, row: Option<Delivery>, action: AuditAction) {
    && u.events == w.events[id := e]
    && u.deliveries == (if row.Some? then w.deliveries[id := row.value] else w.deliveries - {id})
    && u.audit == w.audit + [AuditRecord(action, id)]
  }

  /** What an attempt on a row with its event comes to, by the outcome of its own calls: a refusal makes the event
      FAILED, another response makes it APPLIED, and the row goes; an unavailable service leaves the event and puts
      the row off; an uncaught exception changes nothing. The counters follow, and so does the breaker. */
  lemma TurnEnds(l: Limits, s: Settings, v: Snapshot, id: EventId, env: Surroundings)
    requires InRange(env, s) && env.others.Spare(id) && id in v.tables.deliveries && id in v.tables.events
    ensures var turn, call := Turned(l, s, v, id, env), Requested(l, v.circuit, env.asked, env.transport);
            var u, w, row, e := turn.after.tables, Merged(v.tables, env.others), v.tables.deliveries[id], v.tables.events[id];
            var n := row.attempts + 1;
            match call.outcome {
              case Response(status) =>
                && turn.settled && !turn.raised
                && if status >= 400 then
                     && TurnedTo(w, u, id, e.(status := FAILED), None, EventQueueRejected)
                     && turn.after.counts == v.counts.(failed := v.counts.failed + 1)
                   else
                     && TurnedTo(w, u, id, e.(status := APPLIED), None, EventAppliedFromQueue(n))
                     && turn.after.counts == v.counts.(processed := v.counts.processed + 1)
              case Unavailable =>
                var due := env.now + Backoff(s, n, env.jitter);
                && !turn.settled && !turn.raised
                && TurnedTo(w, u, id, e, Some(row.(attempts := n, nextAttemptAt := due)), EventQueueRetryScheduled(n, due))
                && turn.after.counts == v.counts.(retried := v.counts.retried + 1)
              case Uncaught => turn.raised && !turn.settled && u == w && turn.after.counts == v.counts
            }
  {
    var t, w := v.tables, Merged(v.tables, env.others);
    assert w.events[id] == t.events[id] && w.deliveries[id] == t.deliveries[id];
    assert w.events[id := t.events[id]] == w.events;
  }

  /** Without a row nothing happens; a row without an event is removed, and nothing else happens. */
  lemma TurnWithoutEvent(l: Limits, s: Settings, v: Snapshot, id: EventId, env: Surroundings)
    requires InRange(env, s) && (id !in v.tables.deliveries || id !in v.tables.events)
    ensures var turn := Turned(l, s, v, id, env);
            var u := turn.after.tables;
            && !turn.settled && !turn.raised && turn.after.circuit == v.circuit && turn.after.counts == v.counts
            && u.events == v.tables.events && u.audit == v.tables.audit
            && u.deliveries.Keys == v.tables.deliveries.Keys - {id}
            && forall o :: o in u.deliveries ==> u.deliveries[o] == v.tables.deliveries[o]
  {
  }

  /** The breaker after an attempt: closed by a response, one failure further for every call of an attempt that is
      given up, and as it was when it did not allow the call. */
  lemma TurnOnBreaker(l: Limits, s: Settings, v: Snapshot, id: EventId, env: Surroundings)
    requires InRange(env, s) && id in v.tables.deliveries && id in v.tables.events
    ensures var turn, call := Turned(l, s, v, id, env), Requested(l, v.circuit, env.asked, env.transport);
            && (call.outcome.Response? ==> turn.after.circuit == CLOSED)
            && (call.calls == 0 ==> turn.after.circuit == v.circuit)
            && (call.outcome.Unavailable? ==>
                  && turn.after.circuit.failures == v.circuit.failures + call.calls
                  && (call.calls > 0 && turn.after.circuit.failures >= l.threshold ==>
                        turn.after.circuit.openedAt == Some(env.transport(call.calls - 1).at)))
            && (call.outcome.Uncaught? ==> turn.after.circuit.failures == v.circuit.failures + call.calls - 1)
  {
    var call := Requested(l, v.circuit, env.asked, env.transport);
    RequestOnBreaker(l, v.circuit, env.asked, env.transport);
    RetryAccounting(0, l.maxAttempts, env.transport);
    if call.outcome.Uncaught? {
      ReplayFailures(l, v.circuit, call.calls - 1, env.transport);
    }
  }

  datatype Iteration = Iteration(after: Snapshot, processed: nat, raised: bool)
  {
    function Plus(n: nat): Iteration {
      this.(processed := processed + n)
    }
  }

  /** The ids from position `i` on, in order, each in its own surroundings, up to an uncaught exception. */
  function Iterated(l: Limits, s: Settings, v: Snapshot, ids: seq<EventId>, envs: seq<Surroundings>, i: nat): Iteration
    requires i <= |ids| <= |envs| && forall k :: 0 <= k < |envs| ==> InRange(envs[k], s)
    decreases |ids| - i
  {
    if i == |ids| then Iteration(v, 0, false)
    else
      var turn := Turned(l, s, v, ids[i], envs[i]);
      if turn.raised then Iteration(turn.after, 0, true)
      else Iterated(l, s, turn.after, ids, envs, i + 1).Plus(if turn.settled then 1 else 0)
  }

  class Worker {
    const db: Database
    const queue: DeliveryQueueRepository
    const client: Client
    const metrics: Metrics
    const settings: Settings

    ghost predicate Valid() {
      queue.db == db && client.Valid() && settings.Valid()
    }

    constructor (db: Database, client: Client, metrics: Metrics, settings: Settings)
      requires client.Valid() && settings.Valid()
      ensures Valid() && this.db == db && this.client == client && this.metrics == metrics && this.settings == settings
    {
      this.db, this.client, this.metrics, this.settings := db, client, metrics, settings;
      queue := new DeliveryQueueRepository(db);
    }

    ghost function View(): Snapshot
      reads db, client.breaker, metrics
    {
      Snapshot(db.Content(), client.breaker.State(), metrics.counts)
    }

    /** Whether the row was settled for good; `raised` tells an uncaught exception. */
    method ProcessEvent(id: EventId, env: Surroundings) returns (settled: bool, raised: bool)
      requires Valid() && env.others.Spare(id) && InRange(env, settings)
      modifies db, client.breaker, metrics
      ensures Turn(View(), settled, raised) == Turned(client.limits, settings, old(View()), id, env)
    {
      var delivery := queue.Get(id);
      if delivery.None? {
        return false, false;
      }
      if id !in db.events {
        queue.Delete(id);
        return false, false;
      }
      var event, row := db.events[id], delivery.value;
      var outcome, calls := client.Request(env.asked, env.transport);
      db.Yield(env.others);
      assert db.events[id] == event && db.deliveries[id] == row;
      match outcome {
        case Uncaught =>
          return false, true;
        case Unavailable =>
          Reschedule(id, row, env.now, env.jitter);
          return false, false;
        case Response(status) =>
          Conclude(id, event, row, status);
          return true, false;
      }
    }

    method Reschedule(id: EventId, d: Delivery, now: real, jitter: real)
      requires settings.Valid() && 0.0 <= jitter <= settings.jitter && id in db.events
      modifies db, metrics
      ensures db.Content() == Delivered(old(db.Content()), id, d, Unavailable, now, Backoff(settings, d.attempts + 1, jitter))
      ensures metrics.counts == Tallied(old(metrics.counts), Unavailable)
    {
      var row := d.(attempts := d.attempts + 1);
      row := row.(nextAttemptAt := now + Backoff(settings, row.attempts, jitter));
      db.deliveries := db.deliveries[id := row];
      db.Record(EventQueueRetryScheduled(row.attempts, row.nextAttemptAt), id);
      metrics.counts := metrics.counts.(retried := metrics.counts.retried + 1);
    }

    method Conclude(id: EventId, event: Event, row: Delivery, status: int)
      requires queue.db == db && id in db.events && db.events[id] == event
      modifies db, metrics
      ensures forall now, delay ::
                db.Content() == Delivered(old(db.Content()), id, row, Response(status), now, delay)
      ensures metrics.counts == Tallied(old(metrics.counts), Response(status))
    {
      if status >= 400 {
        db.events := db.events[id := event.(status := FAILED)];
        queue.Delete(id);
        db.Record(EventQueueRejected, id);
        metrics.counts := metrics.counts.(failed := metrics.counts.failed + 1);
        return;
      }
      db.events := db.events[id := event.(status := APPLIED)];
      queue.Delete(id);
      db.Record(EventAppliedFromQueue(row.attempts + 1), id);
      metrics.counts := metrics.counts.(processed := metrics.counts.processed + 1);
    }

    /** The loop of an iteration. */
    method ProcessBatch(ids: seq<EventId>, envs: seq<Surroundings>) returns (processed: nat, raised: bool)
      requires Valid() && |ids| <= |envs| && forall k :: 0 <= k < |envs| ==> InRange(envs[k], settings)
      requires forall k :: 0 <= k < |ids| ==> envs[k].others.Spare(ids[k])
      modifies db, client.breaker, metrics
      ensures Iteration(View(), processed, raised) == Iterated(client.limits, settings, old(View()), ids, envs, 0)
    {
      ghost var whole := Iterated(client.limits, settings, View(), ids, envs, 0);
      processed, raised := 0, false;
      for i := 0 to |ids|
        invariant !raised && whole == Iterated(client.limits, settings, View(), ids, envs, i).Plus(processed)
      {
        var settled;
        settled, raised := ProcessEvent(ids[i], envs[i]);
        if settled {
          processed := processed + 1;
        }
        if raised {
          return;
        }
      }
    }

    /** One iteration: the due rows, fetched at `now`, are attempted in order, each in its own surroundings;
        an uncaught exception ends it. */
    method ProcessOnce(now: real, envs: seq<Surroundings>) returns (processed: nat, raised: bool)
      requires Valid() && Harmless(envs, db.deliveries.Keys, settings)
      requires |envs| == settings.batch
      modifies db, client.breaker, metrics
      ensures var batch := Pick(old(db.deliveries), DueSet(old(db.deliveries), now), settings.batch);
              Iteration(View(), processed, raised) == Iterated(client.limits, settings, old(View()), batch, envs, 0)
    {
      var ids := queue.DueEventIds(settings.batch, now);
      DueBatchUnique(db.deliveries, settings.batch, now, ids, Pick(db.deliveries, DueSet(db.deliveries, now), settings.batch));
      processed, raised := ProcessBatch(ids, envs);
    }
  }

  /** The delivery rows that belong to an event; in reachable states, all of them. */
  function Owned(t: Tables): set<EventId> {
    set id | id in t.deliveries && id in t.events
  }

  ghost predicate Distinct(ids: seq<EventId>) {
    forall i, j :: 0 <= i < j < |ids| ==> ids[i] != ids[j]
  }

  /** The jitter is in range and concurrent commits leave the given rows alone. */
  ghost predicate Harmless(envs: seq<Surroundings>, rows: set<EventId>, s: Settings) {
    forall k :: 0 <= k < |envs| ==> LeavesAlone(envs[k], rows, s)
  }

  ghost predicate LeavesAlone(env: Surroundings, rows: set<EventId>, s: Settings) {
    InRange(env, s) && forall id :: id in rows ==> env.others.Spare(id)
  }

  /** One attempt on row `id`: the row of an event is settled away, or counts one attempt more, or an uncaught
      exception leaves it; an orphan row is removed. Other rows and events change only through the others. */
  ghost predicate Attempted(t: Tables, u: Tables, others: Commits, id: EventId, settled: bool, raised: bool)
    requires id in t.deliveries
  {
    && (settled <==> id !in u.deliveries && id in t.events)
    && (id !in t.events ==> id !in u.deliveries && !raised)
    && (id in u.deliveries && !raised ==> u.deliveries[id].attempts == t.deliveries[id].attempts + 1)
    && Affects(t.deliveries, u.deliveries, others, id)
    && SameEvents(t.events.Keys, u.events.Keys, others)
  }

  /** The state of an iteration that started in `was`, after its first `n` ids. */
  ghost predicate Progress(was: Tables, t: Tables, ids: seq<EventId>, n: nat, processed: nat)
    requires n <= |ids|
  {
    && |Owned(was) - t.deliveries.Keys| == processed
    && Drained(was.deliveries, t.deliveries, ids, n) && Untouched(was.deliveries, t.deliveries, ids, n)
    && t.events.Keys * was.deliveries.Keys == Owned(was)
  }

  lemma ProgressStep(was: Tables, t: Tables, u: Tables, env: Surroundings, s: Settings, ids: seq<EventId>, i: nat,
                     processed: nat, settled: bool, raised: bool)
    requires i < |ids| && Distinct(ids) && LeavesAlone(env, was.deliveries.Keys, s)
    requires Progress(was, t, ids, i, processed) && ids[i] in t.deliveries
    requires Attempted(t, u, env.others, ids[i], settled, raised)
    ensures |Owned(was) - u.deliveries.Keys| == processed + if settled then 1 else 0
    ensures Drained(was.deliveries, u.deliveries, ids, i)
    ensures !raised ==> Progress(was, u, ids, i + 1, processed + if settled then 1 else 0)
  {
    DrainStep(was.deliveries, t.deliveries, u.deliveries, env.others, ids, i);
    GoneStep(Owned(was), was.deliveries, t.deliveries, u.deliveries, env.others, ids[i]);
    EventsStep(was.deliveries.Keys, t.events.Keys, u.events.Keys, env.others);
  }

  /** Only rows of the batch are missing, and its first `n` rows are missing or have one attempt more. */
  ghost predicate Drained(rows: Rows, live: Rows, ids: seq<EventId>, n: nat)
    requires n <= |ids|
  {
    && (forall id :: id in rows && id !in live ==> id in ids)
    && (forall j :: 0 <= j < n && ids[j] in rows && ids[j] in live ==> live[ids[j]].attempts == rows[ids[j]].attempts + 1)
  }

  /** The rows of the batch from position `n` on are as they were. */
  ghost predicate Untouched(rows: Rows, live: Rows, ids: seq<EventId>, n: nat) {
    forall j :: n <= j < |ids| ==> ids[j] in rows && ids[j] in live && live[ids[j]] == rows[ids[j]]
  }

  /** Rows other than `id` change only through the commits of others. */
  ghost predicate Affects(before: Rows, after: Rows, others: Commits, id: EventId) {
    forall o :: o != id && others.Spare(o) ==>
      (o in after <==> o in before) && (o in before ==> after[o] == before[o])
  }

  /** Events that others leave alone neither come nor go. */
  ghost predicate SameEvents(before: set<EventId>, after: set<EventId>, others: Commits) {
    forall o :: others.Spare(o) ==> (o in after <==> o in before)
  }

  lemma EventsStep(rows: set<EventId>, before: set<EventId>, after: set<EventId>, others: Commits)
    requires SameEvents(before, after, others) && forall o :: o in rows ==> others.Spare(o)
    ensures after * rows == before * rows
  {
  }

  lemma DrainStep(rows: Rows, before: Rows, after: Rows, others: Commits, ids: seq<EventId>, i: nat)
    requires i < |ids| && Distinct(ids) && forall id :: id in rows ==> others.Spare(id)
    requires Drained(rows, before, ids, i) && Untouched(rows, before, ids, i) && Affects(before, after, others, ids[i])
    ensures Drained(rows, after, ids, i) && Untouched(rows, after, ids, i + 1)
  {
  }

  lemma GoneStep(owned: set<EventId>, rows: Rows, before: Rows, after: Rows, others: Commits, id: EventId)
    requires owned <= rows.Keys && id in rows && id in before && Affects(before, after, others, id)
    requires forall o :: o in rows ==> others.Spare(o)
    ensures |owned - after.Keys| == |owned - before.Keys| + if id in owned && id !in after then 1 else 0
  {
    forall o | o in owned && o != id ensures o in after.Keys <==> o in before.Keys {
      assert others.Spare(o);
    }
    MissingStep(owned, before.Keys, after.Keys, id);
  }

  lemma MissingStep(owned: set<EventId>, before: set<EventId>, after: set<EventId>, id: EventId)
    requires id in before && forall o :: o in owned && o != id ==> (o in after <==> o in before)
    ensures |owned - after| == |owned - before| + if id in owned && id !in after then 1 else 0
  {
    if id in owned && id !in after {
      assert owned - after == (owned - before) + {id};
    } else {
      assert owned - after == owned - before;
    }
  }

  /** The events settled from the queue so far. */
  function Done(m: Counters): nat {
    m.processed + m.failed
  }

  lemma TurnAttempts(l: Limits, s: Settings, v: Snapshot, id: EventId, env: Surroundings)
    requires InRange(env, s) && env.others.Spare(id) && id in v.tables.deliveries
    ensures var turn := Turned(l, s, v, id, env);
            && Attempted(v.tables, turn.after.tables, env.others, id, turn.settled, turn.raised)
            && Done(turn.after.counts) == Done(v.counts) + if turn.settled then 1 else 0
  {
  }

  /** `r` ends the iteration that started in `was` and has settled `n` events before. */
  ghost predicate Completes(was: Snapshot, ids: seq<EventId>, r: Iteration, n: nat) {
    var rows, live := was.tables.deliveries, r.after.tables.deliveries;
    && Drained(rows, live, ids, if r.raised then 0 else |ids|)
    && |Owned(was.tables) - live.Keys| == n + r.processed
    && Done(r.after.counts) == Done(was.counts) + n + r.processed
  }

  lemma TurnProgress(l: Limits, s: Settings, was: Snapshot, v: Snapshot, ids: seq<EventId>, env: Surroundings, i: nat, n: nat)
    requires i < |ids| && Distinct(ids) && LeavesAlone(env, was.tables.deliveries.Keys, s)
    requires Progress(was.tables, v.tables, ids, i, n) && Done(v.counts) == Done(was.counts) + n
    ensures var turn := Turned(l, s, v, ids[i], env);
            var m := n + if turn.settled then 1 else 0;
            && Done(turn.after.counts) == Done(was.counts) + m
            && (!turn.raised ==> Progress(was.tables, turn.after.tables, ids, i + 1, m))
            && (turn.raised ==> Completes(was, ids, Iteration(turn.after, 0, true), n))
  {
    var turn := Turned(l, s, v, ids[i], env);
    assert ids[i] in v.tables.deliveries;
    TurnAttempts(l, s, v, ids[i], env);
    ProgressStep(was.tables, v.tables, turn.after.tables, env, s, ids, i, n, turn.settled, turn.raised);
  }

  lemma CompletesPlus(was: Snapshot, ids: seq<EventId>, r: Iteration, n: nat, k: nat)
    requires Completes(was, ids, r, n + k)
    ensures Completes(was, ids, r.Plus(k), n)
  {
  }

  lemma ProgressEnds(was: Snapshot, v: Snapshot, ids: seq<EventId>, n: nat)
    requires Progress(was.tables, v.tables, ids, |ids|, n) && Done(v.counts) == Done(was.counts) + n
    ensures Completes(was, ids, Iteration(v, 0, false), n)
  {
  }

  /** The iteration, from position `i` on, that has settled `n` events before. */
  ghost predicate Proceeds(was: Snapshot, v: Snapshot, ids: seq<EventId>, i: nat, n: nat) {
    i <= |ids| && Distinct(ids) && Progress(was.tables, v.tables, ids, i, n) && Done(v.counts) == Done(was.counts) + n
  }

  lemma TurnProceeds(l: Limits, s: Settings, was: Snapshot, v: Snapshot, ids: seq<EventId>, envs: seq<Surroundings>, i: nat, n: nat)
    requires i < |ids| <= |envs| && Harmless(envs, was.tables.deliveries.Keys, s) && Proceeds(was, v, ids, i, n)
    ensures InRange(envs[i], s)
    ensures var turn := Turned(l, s, v, ids[i], envs[i]);
            if turn.raised then Completes(was, ids, Iteration(turn.after, 0, true), n)
            else Proceeds(was, turn.after, ids, i + 1, n + if turn.settled then 1 else 0)
  {
    assert LeavesAlone(envs[i], was.tables.deliveries.Keys, s);
    TurnProgress(l, s, was, v, ids, envs[i], i, n);
  }

  lemma {:induction false} IterationCompletes(l: Limits, s: Settings, was: Snapshot, v: Snapshot, ids: seq<EventId>,
                                              envs: seq<Surroundings>, i: nat, n: nat)
    requires i <= |ids| <= |envs| && Harmless(envs, was.tables.deliveries.Keys, s) && Proceeds(was, v, ids, i, n)
    ensures Completes(was, ids, Iterated(l, s, v, ids, envs, i), n)
    decreases |ids| - i
  {
    if i == |ids| {
      ProgressEnds(was, v, ids, n);
    } else {
      TurnProceeds(l, s, was, v, ids, envs, i, n);
      var turn := Turned(l, s, v, ids[i], envs[i]);
      if !turn.raised {
        var k := if turn.settled then 1 else 0;
        IterationCompletes(l, s, was, turn.after, ids, envs, i + 1, n + k);
        CompletesPlus(was, ids, Iterated(l, s, turn.after, ids, envs, i + 1), n, k);
      }
    }
  }

  lemma ProgressStart(was: Tables, ids: seq<EventId>)
    requires forall i :: 0 <= i < |ids| ==> ids[i] in was.deliveries
    ensures Progress(was, was, ids, 0, 0)
  {
    assert Owned(was) - was.deliveries.Keys == {};
  }

  /** An iteration over the due batch returns the number of owned rows it removed, which is what the processed and
      failed counters grow by; it removes rows of the batch only, and without an exception every row of the batch
      is gone or has one attempt more. */
  lemma IterationAccounts(l: Limits, s: Settings, was: Snapshot, now: real, envs: seq<Surroundings>)
    requires |envs| == s.batch && Harmless(envs, was.tables.deliveries.Keys, s)
    ensures var rows := was.tables.deliveries;
            var batch := Pick(rows, DueSet(rows, now), s.batch);
            var r := Iterated(l, s, was, batch, envs, 0);
            var live := r.after.tables.deliveries;
            && r.processed == |Owned(was.tables) - live.Keys|
            && Done(r.after.counts) == Done(was.counts) + r.processed
            && (forall id :: id in rows && id !in live ==> id in batch)
            && (!r.raised ==> forall id :: id in batch && id in live ==> live[id].attempts == rows[id].attempts + 1)
  {
    var rows := was.tables.deliveries;
    var batch := Pick(rows, DueSet(rows, now), s.batch);
    BatchDistinct(rows, s.batch, now, batch);
    ProgressStart(was.tables, batch);
    IterationCompletes(l, s, was, was, batch, envs, 0, 0);
  }

  lemma BatchDistinct(rows: Rows, limit: nat, now: real, ids: seq<EventId>)
    requires IsDueBatch(rows, limit, now, ids)
    ensures Distinct(ids)
  {
    forall i, j | 0 <= i < j < |ids| ensures ids[i] != ids[j] {
      BeforeTotal(rows, ids[i], ids[j]);
    }
  }
}
