/** What the Gateway and the Account Service keep answering, over whole runs. */
module Replays {
  import opened Types
  import opened GatewayModels
  import opened AccountClient
  import opened EventService
  import opened Protocol
  import opened Agreement
  import AS = AccountService

  // ----- the Gateway's answer to a known event -----

  /** Stored events change in nothing but their status. */
  ghost predicate KeepsEvents(t: Tables, u: Tables) {
    forall id :: id in t.events ==> id in u.events && u.events[id] == t.events[id].(status := u.events[id].status)
  }

  lemma InsertingKeepsEvents(s: System, c: EventCreate)
    ensures KeepsEvents(s.gateway, Inserting(s, c).gateway)
  {
  }

  lemma SettlingKeepsEvents(cfg: Config, s: System, id: EventId, outcome: Outcome, traceId: string, now: real)
    requires id in s.active && id in s.gateway.events
    ensures KeepsEvents(s.gateway, Settling(cfg, s, id, outcome, traceId, now).gateway)
  {
  }

  lemma SettlingDeliveryKeepsEvents(cfg: Config, s: System, outcome: Outcome, jitter: real, now: real)
    requires s.worker.current.Some? && s.worker.batch != [] && s.worker.batch[0] in s.gateway.events
    requires cfg.settings.Valid() && 0.0 <= jitter <= cfg.settings.jitter
    ensures KeepsEvents(s.gateway, SettlingDelivery(cfg, s, outcome, jitter, now).gateway)
  {
  }

  /** Other steps write no event. */
  lemma OthersWriteNoEvent(cfg: Config, s: System, step: Step)
    requires Typed(cfg, s) && Enabled(cfg, s, step)
    requires !step.action.Insert? && !step.action.Settle? && !step.action.SettleDelivery?
    ensures Next(cfg, s, step).gateway.events == s.gateway.events
  {
  }

  lemma NextKeepsEvents(cfg: Config, s: System, step: Step)
    requires Typed(cfg, s) && Enabled(cfg, s, step)
    ensures KeepsEvents(s.gateway, Next(cfg, s, step).gateway)
  {
    var t := s.(clock := step.at);
    match step.action {
      case Insert(c) =>
        NextInserts(cfg, s, step);
        InsertingKeepsEvents(t, c);
      case Settle(id, outcome, traceId) =>
        NextSettles(cfg, s, step);
        SettlingKeepsEvents(cfg, t, id, outcome, traceId, step.at);
      case SettleDelivery(outcome, jitter) =>
        NextSettlesDelivery(cfg, s, step);
        SettlingDeliveryKeepsEvents(cfg, t, outcome, jitter, step.at);
      case _ => OthersWriteNoEvent(cfg, s, step);
    }
  }

  lemma {:induction false} RunKeepsEvents(cfg: Config, s: System, run: seq<Step>)
    requires Typed(cfg, s) && Legal(cfg, s, run)
    ensures KeepsEvents(s.gateway, After(cfg, s, run).gateway)
    decreases |run|
  {
    if run != [] {
      NextKeepsEvents(cfg, s, run[0]);
      RunKeepsEvents(cfg, Next(cfg, s, run[0]), run[1..]);
    }
  }

  /** Same data, same metadata, where none stands for a stored empty dictionary, and not the empty dictionary itself. */
  predicate Repeats(c: EventCreate, d: EventCreate) {
    && c.eventId == d.eventId && c.accountId == d.accountId && c.kind == d.kind && c.amount == d.amount
    && c.currency == d.currency && c.at == d.at
    && (c.metadata == d.metadata || (c.metadata == Some(map[]) && d.metadata == None)) && d.metadata != Some(map[])
  }

  lemma RepeatsIsSameEvent(c: EventCreate, d: EventCreate, st: Status)
    requires c.eventId == d.eventId
    ensures SameEvent(EventFrom(c).(status := st), d) <==> Repeats(c, d)
  {
  }

  /** The submission of `d` in `s` is answered on the spot: nothing is sent, no event, delivery or transaction
      changes, one record is written, and the answer is a replay iff `replay`. */
  ghost predicate AnsweredAtOnce(cfg: Config, s: System, d: EventCreate, step: Step, replay: bool)
    requires Typed(cfg, s) && Enabled(cfg, s, step) && d.eventId in s.gateway.events
  {
    var r, action := Next(cfg, s, step), if replay then EventReplayed else EventConflictRejected;
    && r.gateway == Noted(s.gateway, action, d.eventId)
    && r.sent == s.sent && r.active == s.active && r.ledger == s.ledger && r.worker == s.worker
    && Recognised(s.gateway, d) ==
         (r.gateway, if replay then Accepted(s.gateway.events[d.eventId], false) else Refused(409))
  }

  lemma KnownIsAnswered(cfg: Config, s: System, d: EventCreate, step: Step)
    requires Typed(cfg, s) && Enabled(cfg, s, step) && d.eventId in s.gateway.events
    requires step.action == Lookup(d) || step.action == Insert(d)
    ensures AnsweredAtOnce(cfg, s, d, step, SameEvent(s.gateway.events[d.eventId], d))
  {
  }

  /** Once `c` is inserted, and whatever happens later, crashes included: any submission `d` of its id, even one
      that looked before the insert, is answered at once, as a replay iff it repeats `c`, and refused otherwise. */
  lemma GatewayReplay(cfg: Config, s: System, c: EventCreate, at: real, run: seq<Step>, d: EventCreate, step: Step)
    requires Typed(cfg, s) && c.eventId !in s.gateway.events && c in s.looked
    requires Legal(cfg, Next(cfg, s, Step(at, Insert(c))), run)
    requires d.eventId == c.eventId && (step.action == Lookup(d) || step.action == Insert(d))
    requires Enabled(cfg, After(cfg, Next(cfg, s, Step(at, Insert(c))), run), step)
    ensures var later := After(cfg, Next(cfg, s, Step(at, Insert(c))), run);
            d.eventId in later.gateway.events && AnsweredAtOnce(cfg, later, d, step, Repeats(c, d))
  {
    var stored := Next(cfg, s, Step(at, Insert(c)));
    var later := After(cfg, stored, run);
    NextInserts(cfg, s, Step(at, Insert(c)));
    RunKeepsEvents(cfg, stored, run);
    assert stored.gateway.events[c.eventId] == EventFrom(c);
    assert later.gateway.events[c.eventId] == EventFrom(c).(status := later.gateway.events[c.eventId].status);
    RepeatsIsSameEvent(c, d, later.gateway.events[c.eventId].status);
    KnownIsAnswered(cfg, later, d, step);
  }

  // ----- the verdict of the Account Service -----

  lemma {:induction false} RunKeepsReplies(cfg: Config, s: System, run: seq<Step>)
    requires Typed(cfg, s) && Legal(cfg, s, run)
    ensures s.replies <= After(cfg, s, run).replies
    decreases |run|
  {
    if run != [] {
      RunKeepsReplies(cfg, Next(cfg, s, run[0]), run[1..]);
    }
  }

  /** Whatever the configuration: an event that `apply` has accepted once is in the ledger for good, and one it has
      refused once never enters the ledger. */
  lemma VerdictsAreFinal(cfg: Config, s: System, p: Command, reply: AS.Reply, run: seq<Step>)
    requires Inv(cfg, s) && Answered(p, reply) in s.replies && Legal(cfg, s, run)
    ensures p.eventId in After(cfg, s, run).ledger.transactions <==> reply.Accepted()
  {
    var r := After(cfg, s, run);
    RunKeepsReplies(cfg, s, run);
    RunKeeps(cfg, s, run);
    assert ReplyHolds(r.ledger, Answered(p, reply));
  }

  // ----- what a submitter is told -----

  /** What the submitter of a new event is told when its call ends is true for good: an event accepted as APPLIED is in
      the ledger, and one refused never enters it, where FAILED is reliable; an event accepted as QUEUED has its
      delivery row. */
  lemma SubmitterIsToldTheTruth(cfg: Config, s: System, step: Step, run: seq<Step>)
    requires Inv(cfg, s) && Enabled(cfg, s, step) && step.action.Settle?
    requires Legal(cfg, Next(cfg, s, step), run)
    ensures var id, r := step.action.id, Next(cfg, s, step);
            var answer, later := Told(r.gateway, id, step.action.outcome, cfg.fallback), After(cfg, r, run);
            && (answer.Accepted? ==> answer.isNew && answer.event == r.gateway.events[id] && answer.event.status in {APPLIED, QUEUED})
            && (answer.Accepted? && answer.event.status == APPLIED ==> id in later.ledger.transactions)
            && (answer.Accepted? && answer.event.status == QUEUED ==> id in r.gateway.deliveries)
            && (answer.Refused? && Reliable(cfg) ==> id !in later.ledger.transactions)
  {
    var id, r := step.action.id, Next(cfg, s, step);
    var p := s.active[id].payload;
    NextKeeps(cfg, s, step);
    assert Submits(s.gateway, id, s.active[id]);
    NextSettles(cfg, s, step);
    SettledEffect(s.gateway, id, p, step.action.outcome, cfg.fallback, step.action.traceId, step.at);
    var outcome := step.action.outcome;
    if outcome.Response? && (outcome.status < 400 || Reliable(cfg)) {
      var reply :| Answered(p, reply) in s.replies && reply.Status() == outcome.status;
      assert Answered(p, reply) in r.replies;
      VerdictsAreFinal(cfg, r, p, reply, run);
    }
  }
}
