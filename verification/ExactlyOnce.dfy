/** The main results about whole runs of the two services. */
module ExactlyOnce {
  import opened Types
  import opened GatewayModels
  import opened AccountClient
  import opened EventService
  import opened Protocol
  import opened LedgerAudit
  import opened Agreement
  import opened StepEffects
  import opened Runs
  import AS = AccountService

  // ----- agreement -----

  /** The transaction has the account, kind, amount, currency and time of the event. */
  predicate Carries(tx: AS.Transaction, e: Event) {
    tx.accountId == e.accountId && tx.kind == e.kind && tx.amount == e.amount && tx.currency == e.currency && tx.at == e.at
  }

  /** APPLIED events are in the ledger, and the ledger holds only APPLIED, QUEUED or PENDING events, with their data. */
  ghost predicate Agrees(s: System) {
    && (forall id :: StatusOf(s.gateway, id) == Some(APPLIED) ==> id in s.ledger.transactions)
    && (forall id :: id in s.ledger.transactions ==>
          && StatusOf(s.gateway, id) in {Some(APPLIED), Some(QUEUED), Some(PENDING)}
          && id in s.gateway.events && Carries(s.ledger.transactions[id], s.gateway.events[id]))
  }

  ghost predicate AlwaysAgrees(cfg: Config)
    requires cfg.settings.Valid()
  {
    forall run :: Legal(cfg, INIT, run) ==> Agrees(After(cfg, INIT, run))
  }

  lemma ReliableAgrees(cfg: Config, s: System)
    requires Reliable(cfg) && Inv(cfg, s)
    ensures Agrees(s)
  {
    forall id | id in s.ledger.transactions
      ensures StatusOf(s.gateway, id) in {Some(APPLIED), Some(QUEUED), Some(PENDING)}
    {
      var e := s.gateway.events[id];
      assert e.status == FAILED ==> Barred(s.ledger, PayloadOf(id, e));
    }
  }

  /** Without fallback, or when an error can hide a commit, a run ends with a FAILED event in the ledger. */
  lemma UnreliableDisagrees(cfg: Config) returns (run: seq<Step>)
    requires cfg.settings.Valid() && !Reliable(cfg)
    ensures Legal(cfg, INIT, run)
    ensures var r := After(cfg, INIT, run);
            exists id :: StatusOf(r.gateway, id) == Some(FAILED) && id in r.ledger.transactions
  {
    var c := EventCreate("e", "a", CREDIT, 1, "USD", 0, None);
    var outcome := if cfg.opaqueErrors then Response(500) else Unavailable;
    run := SubmissionIsARun(cfg, INIT, c, 1, outcome, "", 0.0);
    var r, stored := After(cfg, INIT, run), Noted(Stored(INIT.gateway, c), EventStored, "e");
    assert Verdict(outcome, cfg.fallback) == Some(FAILED);
    assert StatusOf(r.gateway, "e") == Some(FAILED);
    AS.RedeliveredOnce(INIT.ledger, AS.Call("a", PayloadFrom(c)), 1);
    assert "e" in r.ledger.transactions;
  }

  /** Status, queue and ledger agree in every state of every run exactly when the fallback queue is on and
      every error status a caller sees was sent by `apply`. */
  lemma AgreementIffReliable(cfg: Config)
    requires cfg.settings.Valid()
    ensures AlwaysAgrees(cfg) <==> Reliable(cfg)
  {
    if Reliable(cfg) {
      forall run | Legal(cfg, INIT, run) ensures Agrees(After(cfg, INIT, run)) {
        InitInv(cfg);
        RunKeeps(cfg, INIT, run);
        ReliableAgrees(cfg, After(cfg, INIT, run));
      }
    } else {
      var run := UnreliableDisagrees(cfg);
      var r := After(cfg, INIT, run);
      var id :| StatusOf(r.gateway, id) == Some(FAILED) && id in r.ledger.transactions;
      assert !Agrees(r);
    }
  }

  /** Whatever the configuration, APPLIED events are in the ledger and transactions carry their event's data. */
  lemma AppliedIsInLedger(cfg: Config, s: System, id: EventId)
    requires Reachable(cfg, s)
    ensures StatusOf(s.gateway, id) == Some(APPLIED) ==> id in s.ledger.transactions
    ensures id in s.ledger.transactions ==>
              id in s.gateway.events && Carries(s.ledger.transactions[id], s.gateway.events[id])
  {
    ReachableInv(cfg, s);
  }

  // ----- balances -----

  /** The transactions the APPLIED events stand for. */
  ghost function AppliedTransactions(t: Tables): Transactions {
    map id | id in t.events && t.events[id].status == APPLIED ::
      var e := t.events[id]; AS.Transaction(e.accountId, e.kind, e.amount, e.currency, e.at)
  }

  ghost predicate Quiescent(t: Tables) {
    forall id :: StatusOf(t, id) !in {Some(PENDING), Some(QUEUED)}
  }

  /** No event of the account is pending or queued. */
  ghost predicate AllSettled(t: Tables, a: AccountId) {
    forall id :: id in t.events && t.events[id].accountId == a ==> t.events[id].status in {APPLIED, FAILED}
  }

  /** Once no event of an account is pending or queued, its transactions are its APPLIED events and its balance is
      their signed sum, whatever the events of other accounts are waiting for. */
  lemma SettledAccountBalances(cfg: Config, s: System, a: AccountId)
    requires Reliable(cfg) && Reachable(cfg, s) && AllSettled(s.gateway, a)
    ensures Of(s.ledger.transactions, a) == Of(AppliedTransactions(s.gateway), a)
    ensures AS.Previous(s.ledger, a) == Total(AppliedTransactions(s.gateway), a)
  {
    ReachableInv(cfg, s);
    ReliableAgrees(cfg, s);
    assert Of(s.ledger.transactions, a) == Of(AppliedTransactions(s.gateway), a);
    TotalOfOwn(s.ledger.transactions, a);
    TotalOfOwn(AppliedTransactions(s.gateway), a);
  }

  /** Once nothing is pending or queued, every balance is the signed sum of the account's APPLIED events, and
      each of them was applied to its balance exactly once. */
  lemma ExactlyOnceWhenQuiescent(cfg: Config, s: System)
    requires Reliable(cfg) && Reachable(cfg, s) && Quiescent(s.gateway)
    ensures s.ledger.transactions == AppliedTransactions(s.gateway)
    ensures forall a :: AS.Previous(s.ledger, a) == Total(AppliedTransactions(s.gateway), a)
    ensures forall id :: Occurrences(s.ledger.audit, UpdateOf(id)) ==
                         if StatusOf(s.gateway, id) == Some(APPLIED) then 1 else 0
  {
    ReachableInv(cfg, s);
    ReliableAgrees(cfg, s);
    assert forall id :: id in s.ledger.transactions <==> StatusOf(s.gateway, id) == Some(APPLIED);
    assert s.ledger.transactions == AppliedTransactions(s.gateway);
  }

  // ----- the status machine -----

  /** The documented transitions. */
  predicate Moves(before: Option<Status>, after: Option<Status>) {
    || before == after
    || (before == None && after == Some(PENDING))
    || (before == Some(PENDING) && after in {Some(APPLIED), Some(QUEUED), Some(FAILED)})
    || (before == Some(QUEUED) && after in {Some(APPLIED), Some(FAILED)})
  }

  lemma EffectMoves(cfg: Config, s: System, step: Step, r: System, id: EventId)
    requires Effect(cfg, s, step, r)
    ensures Moves(StatusOf(s.gateway, id), StatusOf(r.gateway, id))
  {
    if step.action.Settle? || step.action.SettleDelivery? {
      var o := if step.action.Settle? then step.action.id else s.worker.batch[0];
      assert OnlyTouches(s.gateway, r.gateway, o);
    }
  }

  /** Once APPLIED or FAILED, an event stays so for the rest of the run. */
  lemma {:induction false} TerminalForever(cfg: Config, s: System, run: seq<Step>, id: EventId)
    requires Inv(cfg, s) && Legal(cfg, s, run) && Terminal(StatusOf(s.gateway, id))
    ensures StatusOf(After(cfg, s, run).gateway, id) == StatusOf(s.gateway, id)
    decreases |run|
  {
    if run != [] {
      var r := Next(cfg, s, run[0]);
      NextEffect(cfg, s, run[0]);
      EffectMoves(cfg, s, run[0], r, id);
      TerminalForever(cfg, r, run[1..], id);
    }
  }

  /** In a reachable state an event is queued exactly when it has a delivery row, whose payload is the event's;
      so the worker never finds a missing row or an orphan, and `enqueue` never finds an existing row. What a
      suspended coroutine holds is still what the tables hold: nobody else writes its event or its row. */
  lemma SingleOwner(cfg: Config, s: System, id: EventId)
    requires Reachable(cfg, s)
    ensures id in s.gateway.deliveries <==> StatusOf(s.gateway, id) == Some(QUEUED)
    ensures id in s.gateway.deliveries ==>
              var e := s.gateway.events[id];
              s.gateway.deliveries[id].payload == Command(id, e.accountId, e.kind, e.amount, e.currency, e.at)
    ensures id in s.worker.batch ==> id in s.gateway.deliveries && id in s.gateway.events
    ensures id in s.active && s.active[id].phase == Calling ==>
              StatusOf(s.gateway, id) == Some(PENDING) && id !in s.gateway.deliveries
    ensures s.worker.current.Some? ==>
              s.worker.batch != [] && s.worker.batch[0] in s.gateway.deliveries
              && s.gateway.deliveries[s.worker.batch[0]] == s.worker.current.value
  {
    ReachableInv(cfg, s);
    if id in s.active {
      assert Submits(s.gateway, id, s.active[id]);
    }
  }
}
