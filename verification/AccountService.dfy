/** The Account Service: idempotent application of transactions to accounts. */
module AccountService {
  import opened Types

  datatype Account = Account(currency: Currency, balance: int)

  /** A row of the transactions table, whose key is the event id. */
  datatype Transaction = Transaction(accountId: AccountId, kind: Kind, amount: Amount, currency: Currency, at: int)

  datatype Reason = AccountMismatch | CurrencyDiffers

  datatype AuditRecord =
    | TransactionRejected(eventId: EventId, accountId: AccountId, reason: Reason)
    | TransactionConflictRejected(eventId: EventId, accountId: AccountId)
    | TransactionReplayed(eventId: EventId, accountId: AccountId)
    | AccountCreated(eventId: EventId, accountId: AccountId)
    | BalanceUpdated(eventId: EventId, accountId: AccountId, previous: int, delta: int, current: int)
    | TransactionApplied(eventId: EventId, accountId: AccountId)

  datatype Reply =
    | Created(balance: int, currency: Currency)
    | Replayed(balance: int, currency: Currency)
    | AccountIdMismatch
    | EventIdConflict
    | CurrencyMismatch
  {
    predicate Accepted() {
      Created? || Replayed?
    }

    function Status(): int {
      match this
      case Created(_, _) => 201
      case Replayed(_, _) => 200
      case AccountIdMismatch => 422
      case EventIdConflict => 409
      case CurrencyMismatch => 409
    }
  }

  /** The three tables of the Account Service. */
  datatype Ledger = Ledger(
    accounts: map<AccountId, Account>,
    transactions: map<EventId, Transaction>,
    audit: seq<AuditRecord>)
  {
    /** The foreign key from transactions to accounts, and one currency per account. */
    ghost predicate WellFormed() {
      forall id :: id in transactions ==>
        && transactions[id].accountId in accounts
        && accounts[transactions[id].accountId].currency == transactions[id].currency
    }
  }

  const EMPTY := Ledger(map[], map[], [])

  function TransactionOf(c: Command): Transaction {
    Transaction(c.accountId, c.kind, c.amount, c.currency, c.at)
  }

  predicate SameTransaction(tx: Transaction, c: Command)
    ensures SameTransaction(tx, c) <==> tx == TransactionOf(c)
  {
    && tx.accountId == c.accountId
    && tx.kind == c.kind
    && tx.amount == c.amount
    && tx.currency == c.currency
    && tx.at == c.at
  }

  /** One request: the account in the URL and the command in the body. */
  datatype Call = Call(url: AccountId, command: Command)
  {
    predicate Direct() {
      url == command.accountId
    }
  }

  /** The answer to one request, read off the tables before it. */
  function Decide(l: Ledger, call: Call): Reply
    requires l.WellFormed()
  {
    var c := call.command;
    if call.url != c.accountId then AccountIdMismatch
    else if c.eventId in l.transactions then
      if !SameTransaction(l.transactions[c.eventId], c) then EventIdConflict
      else Replayed(l.accounts[call.url].balance, l.accounts[call.url].currency)
    else if call.url in l.accounts && l.accounts[call.url].currency != c.currency then CurrencyMismatch
    else Created(Previous(l, call.url) + Signed(c.kind, c.amount), c.currency)
  }

  /** The balance of an account, zero before it is created. */
  function Previous(l: Ledger, a: AccountId): int {
    if a in l.accounts then l.accounts[a].balance else 0
  }

  /** The audit records one request leaves. */
  function Records(l: Ledger, call: Call): seq<AuditRecord>
    requires l.WellFormed()
  {
    var id, url := call.command.eventId, call.url;
    match Decide(l, call)
    case AccountIdMismatch => [TransactionRejected(id, url, AccountMismatch)]
    case EventIdConflict => [TransactionConflictRejected(id, url)]
    case Replayed(_, _) => [TransactionReplayed(id, url)]
    case CurrencyMismatch => [TransactionRejected(id, url, CurrencyDiffers)]
    case Created(balance, _) =>
      var delta := Signed(call.command.kind, call.command.amount);
      var update := BalanceUpdated(id, url, balance - delta, delta, balance);
      if url in l.accounts then [update, TransactionApplied(id, url)]
      else [AccountCreated(id, url), update, TransactionApplied(id, url)]
  }

  /** What one serial execution of `apply` does to the tables. */
  function Execute(l: Ledger, call: Call): (m: Ledger)
    requires l.WellFormed()
    ensures m.WellFormed()
  {
    var reply, audit := Decide(l, call), l.audit + Records(l, call);
    if reply.Created? then
      Ledger(
        l.accounts[call.url := Account(reply.currency, reply.balance)],
        l.transactions[call.command.eventId := TransactionOf(call.command)],
        audit)
    else
      l.(audit := audit)
  }

  /** The service over its database session: each `Apply` is one serial transaction. */
  class Service {
    var accounts: map<AccountId, Account>
    var transactions: map<EventId, Transaction>
    var audit: seq<AuditRecord>

    ghost function Tables(): Ledger
      reads this
    {
      Ledger(accounts, transactions, audit)
    }

    constructor ()
      ensures Tables() == EMPTY
    {
      accounts, transactions, audit := map[], map[], [];
    }

    /** Adds the rows and commits; refused, with nothing changed, on a duplicate key. */
    method Commit(isNew: bool, accountId: AccountId, account: Account, eventId: EventId, tx: Transaction,
                  records: seq<AuditRecord>)
      returns (ok: bool)
      modifies this
      ensures ok <==> old(eventId !in transactions && (isNew ==> accountId !in accounts))
      ensures !ok ==> Tables() == old(Tables())
      ensures ok ==> Tables() == old(Ledger(accounts[accountId := account], transactions[eventId := tx], audit + records))
    {
      ok := eventId !in transactions && (isNew ==> accountId !in accounts);
      if ok {
        accounts := accounts[accountId := account];
        transactions := transactions[eventId := tx];
        audit := audit + records;
      }
    }

    method Apply(call: Call) returns (reply: Reply)
      requires Tables().WellFormed()
      modifies this
      ensures reply == Decide(old(Tables()), call)
      ensures Tables() == Execute(old(Tables()), call)
      ensures Tables().WellFormed()
    {
      var c := call.command;
      if call.url != c.accountId {
        audit := audit + [TransactionRejected(c.eventId, call.url, AccountMismatch)];
        return AccountIdMismatch;
      }
      if c.eventId in transactions {
        if !SameTransaction(transactions[c.eventId], c) {
          audit := audit + [TransactionConflictRejected(c.eventId, call.url)];
          return EventIdConflict;
        }
        var known := accounts[call.url];
        audit := audit + [TransactionReplayed(c.eventId, call.url)];
        return Replayed(known.balance, known.currency);
      }
      var isNew := call.url !in accounts;
      var account := if isNew then Account(c.currency, 0) else accounts[call.url];
      if account.currency != c.currency {
        audit := audit + [TransactionRejected(c.eventId, call.url, CurrencyDiffers)];
        return CurrencyMismatch;
      }
      var previous := account.balance;
      var delta := Signed(c.kind, c.amount);
      account := account.(balance := previous + delta);
      var records := if isNew then [AccountCreated(c.eventId, call.url)] else [];
      records := records + [BalanceUpdated(c.eventId, call.url, previous, delta, account.balance)];
      records := records + [TransactionApplied(c.eventId, call.url)];
      var ok := Commit(isNew, call.url, account, c.eventId, TransactionOf(c), records);
      if !ok {
        // In a serial execution no key can have appeared since the reads above.
        assert false;
      }
      return Created(account.balance, account.currency);
    }
  }

  /** The tables after a sequence of requests. */
  function Run(l: Ledger, calls: seq<Call>): (r: Ledger)
    requires l.WellFormed()
    ensures r.WellFormed()
    decreases |calls|
  {
    if calls == [] then l else Run(Execute(l, calls[0]), calls[1..])
  }

  /** Transactions are never dropped or rewritten and no account changes its currency. */
  ghost predicate Grows(l: Ledger, m: Ledger) {
    && (forall id :: id in l.transactions ==> id in m.transactions && m.transactions[id] == l.transactions[id])
    && (forall a :: a in l.accounts ==> a in m.accounts && m.accounts[a].currency == l.accounts[a].currency)
  }

  lemma {:induction false} RunGrows(l: Ledger, calls: seq<Call>)
    requires l.WellFormed()
    ensures Grows(l, Run(l, calls))
    decreases |calls|
  {
    if calls != [] {
      RunGrows(Execute(l, calls[0]), calls[1..]);
    }
  }

  /** The books are what clients can read back: accounts and transactions. */
  ghost predicate SameBooks(l: Ledger, m: Ledger) {
    l.accounts == m.accounts && l.transactions == m.transactions
  }

  /** Once accepted, every later delivery is a replay that changes no book, whatever happens between. */
  lemma AcceptedForever(l: Ledger, call: Call, between: seq<Call>)
    requires l.WellFormed() && Decide(l, call).Accepted()
    ensures var later := Run(Execute(l, call), between);
            && Decide(later, call).Replayed?
            && SameBooks(Execute(later, call), later)
  {
    RunGrows(Execute(l, call), between);
  }

  /** Once rejected, every later delivery is rejected and changes no book. */
  lemma RejectedForever(l: Ledger, call: Call, between: seq<Call>)
    requires l.WellFormed() && !Decide(l, call).Accepted()
    ensures var later := Run(Execute(l, call), between);
            && !Decide(later, call).Accepted()
            && SameBooks(Execute(later, call), later)
  {
    RunGrows(Execute(l, call), between);
  }

  /** The tables after `n` deliveries of the same request. */
  function Redelivered(l: Ledger, call: Call, n: nat): (m: Ledger)
    requires l.WellFormed()
    ensures m.WellFormed()
  {
    if n == 0 then l else Execute(Redelivered(l, call, n - 1), call)
  }

  lemma {:induction false} RedeliveredIsRun(l: Ledger, call: Call, n: nat) returns (again: seq<Call>)
    requires l.WellFormed() && n > 0
    ensures Redelivered(l, call, n) == Run(Execute(l, call), again)
  {
    again := [];
    if n > 1 {
      var before := RedeliveredIsRun(l, call, n - 1);
      again := before + [call];
      RunAppend(Execute(l, call), before, call);
    }
  }

  lemma {:induction false} RunAppend(l: Ledger, calls: seq<Call>, call: Call)
    requires l.WellFormed()
    ensures Run(l, calls + [call]) == Execute(Run(l, calls), call)
    decreases |calls|
  {
    if calls == [] {
      assert ([] + [call])[1..] == [];
    } else {
      assert (calls + [call])[1..] == calls[1..] + [call];
      RunAppend(Execute(l, calls[0]), calls[1..], call);
    }
  }

  /** However often a request is delivered, its first delivery decides: the books are those it leaves, and every
      answer accepts iff the first does. */
  lemma {:induction false} RedeliveredOnce(l: Ledger, call: Call, n: nat)
    requires l.WellFormed() && n > 0
    ensures SameBooks(Redelivered(l, call, n), Execute(l, call))
    ensures Decide(Redelivered(l, call, n), call).Accepted() <==> Decide(l, call).Accepted()
    decreases n
  {
    var between := RedeliveredIsRun(l, call, n);
    if Decide(l, call).Accepted() {
      AcceptedForever(l, call, between);
    } else {
      RejectedForever(l, call, between);
    }
    if n > 1 {
      RedeliveredOnce(l, call, n - 1);
      var earlier := RedeliveredIsRun(l, call, n - 1);
      if Decide(l, call).Accepted() {
        AcceptedForever(l, call, earlier);
      } else {
        RejectedForever(l, call, earlier);
      }
    }
  }
}
