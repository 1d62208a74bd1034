/** Balances are signed sums of transactions, and the audit trail accounts for every change. */
module LedgerAudit {
  import opened Types
  import opened AccountService

  type Transactions = map<EventId, Transaction>

  /** What is summed up: signed amounts, credits alone or debits alone, of one account. */
  datatype Measure = SignedOf(accountId: AccountId) | CreditsOf(accountId: AccountId) | DebitsOf(accountId: AccountId)

  /** What one transaction contributes. */
  function Share(tx: Transaction, m: Measure): int {
    if tx.accountId != m.accountId then 0
    else
      match m
      case SignedOf(_) => Signed(tx.kind, tx.amount)
      case CreditsOf(_) => if tx.kind.CREDIT? then tx.amount else 0
      case DebitsOf(_) => if tx.kind.DEBIT? then tx.amount else 0
  }

  ghost function Sum(txs: Transactions, m: Measure): int
    decreases txs.Keys
  {
    if txs == map[] then 0
    else
      var id :| id in txs;
      Share(txs[id], m) + Sum(txs - {id}, m)
  }

  /** The signed sum of the transactions of account `a`. */
  ghost function Total(txs: Transactions, a: AccountId): int {
    Sum(txs, SignedOf(a))
  }

  /** The sum does not depend on which transaction is taken out first. */
  lemma {:induction false} SumWithout(txs: Transactions, id: EventId, m: Measure)
    requires id in txs
    ensures Sum(txs, m) == Share(txs[id], m) + Sum(txs - {id}, m)
    decreases txs.Keys
  {
    var first :| first in txs && Sum(txs, m) == Share(txs[first], m) + Sum(txs - {first}, m);
    if first != id {
      SumWithout(txs - {first}, id, m);
      SumWithout(txs - {id}, first, m);
      assert txs - {first} - {id} == txs - {id} - {first};
    }
  }

  lemma SumAdd(txs: Transactions, id: EventId, tx: Transaction, m: Measure)
    requires id !in txs
    ensures Sum(txs[id := tx], m) == Sum(txs, m) + Share(tx, m)
  {
    var more := txs[id := tx];
    SumWithout(more, id, m);
    assert more - {id} == txs;
  }

  /** The signed sum is what was credited less what was debited. */
  lemma {:induction false} TotalIsCreditsLessDebits(txs: Transactions, a: AccountId)
    ensures Total(txs, a) == Sum(txs, CreditsOf(a)) - Sum(txs, DebitsOf(a))
    decreases txs.Keys
  {
    if txs != map[] {
      var id :| id in txs;
      SumWithout(txs, id, SignedOf(a));
      SumWithout(txs, id, CreditsOf(a));
      SumWithout(txs, id, DebitsOf(a));
      TotalIsCreditsLessDebits(txs - {id}, a);
    }
  }

  /** The transactions of one account. */
  function Of(txs: Transactions, a: AccountId): Transactions {
    map id | id in txs && txs[id].accountId == a :: txs[id]
  }

  /** Only the transactions of an account count for it. */
  lemma {:induction false} TotalOfOwn(txs: Transactions, a: AccountId)
    ensures Total(txs, a) == Total(Of(txs, a), a)
    decreases txs.Keys
  {
    if txs == map[] {
      assert Of(txs, a) == map[];
    } else {
      var id :| id in txs;
      var rest := txs - {id};
      SumWithout(txs, id, SignedOf(a));
      TotalOfOwn(rest, a);
      if txs[id].accountId == a {
        SumWithout(Of(txs, a), id, SignedOf(a));
        assert Of(rest, a) == Of(txs, a) - {id};
      } else {
        assert Of(rest, a) == Of(txs, a);
      }
    }
  }

  /** Events whose audit records are counted. */
  datatype Mark = UpdateOf(eventId: EventId) | ApplicationOf(eventId: EventId) | CreationOf(accountId: AccountId)

  predicate Bears(r: AuditRecord, m: Mark) {
    match m
    case UpdateOf(id) => r.BalanceUpdated? && r.eventId == id
    case ApplicationOf(id) => r.TransactionApplied? && r.eventId == id
    case CreationOf(a) => r.AccountCreated? && r.accountId == a
  }

  function Occurrences(audit: seq<AuditRecord>, m: Mark): nat {
    if audit == [] then 0 else (if Bears(audit[0], m) then 1 else 0) + Occurrences(audit[1..], m)
  }

  /** The BALANCE_UPDATED records of `a` lead from `from` to `to`, each starting where its predecessor ended. */
  predicate Telescopes(audit: seq<AuditRecord>, a: AccountId, from: int, to: int) {
    if audit == [] then from == to
    else if audit[0].BalanceUpdated? && audit[0].accountId == a then
      && audit[0].previous == from
      && audit[0].current == from + audit[0].delta
      && Telescopes(audit[1..], a, audit[0].current, to)
    else
      Telescopes(audit[1..], a, from, to)
  }

  /** Every balance update records the signed amount of its own transaction. */
  ghost predicate UpdatesMatch(l: Ledger) {
    forall i :: 0 <= i < |l.audit| && l.audit[i].BalanceUpdated? ==>
      var r := l.audit[i];
      && r.eventId in l.transactions
      && l.transactions[r.eventId].accountId == r.accountId
      && r.delta == Signed(l.transactions[r.eventId].kind, l.transactions[r.eventId].amount)
  }

  ghost predicate Balanced(l: Ledger) {
    forall a :: Previous(l, a) == Total(l.transactions, a)
  }

  /** One update and one application per transaction, one creation per account. */
  function Expected(l: Ledger, m: Mark): nat {
    match m
    case UpdateOf(id) => if id in l.transactions then 1 else 0
    case ApplicationOf(id) => if id in l.transactions then 1 else 0
    case CreationOf(a) => if a in l.accounts then 1 else 0
  }

  /** The balance chain of every account, and exactly the expected records. */
  ghost predicate Trailed(l: Ledger) {
    && (forall a :: Telescopes(l.audit, a, 0, Previous(l, a)))
    && (forall m :: Occurrences(l.audit, m) == Expected(l, m))
  }

  ghost predicate Consistent(l: Ledger) {
    l.WellFormed() && Balanced(l) && Trailed(l) && UpdatesMatch(l)
  }

  lemma {:induction false} OccurrencesConcat(s: seq<AuditRecord>, t: seq<AuditRecord>, m: Mark)
    ensures Occurrences(s + t, m) == Occurrences(s, m) + Occurrences(t, m)
  {
    if s == [] {
      assert s + t == t;
    } else {
      OccurrencesConcat(s[1..], t, m);
      assert (s + t)[1..] == s[1..] + t;
    }
  }

  lemma {:induction false} TelescopesConcat(s: seq<AuditRecord>, t: seq<AuditRecord>, a: AccountId, from: int, mid: int, to: int)
    requires Telescopes(s, a, from, mid) && Telescopes(t, a, mid, to)
    ensures Telescopes(s + t, a, from, to)
  {
    if s == [] {
      assert s + t == t;
    } else {
      var r := s[0];
      TelescopesConcat(s[1..], t, a, if r.BalanceUpdated? && r.accountId == a then r.current else from, mid, to);
      assert (s + t)[1..] == s[1..] + t;
    }
  }

  lemma ExecuteBalanced(l: Ledger, call: Call)
    requires l.WellFormed() && Balanced(l)
    ensures Balanced(Execute(l, call))
  {
    var c := call.command;
    var m := Execute(l, call);
    forall a ensures Previous(m, a) == Total(m.transactions, a) {
      assert Previous(l, a) == Total(l.transactions, a);
      if Decide(l, call).Created? {
        SumAdd(l.transactions, c.eventId, TransactionOf(c), SignedOf(a));
      }
    }
  }

  /** A balance update of `a`, if it is one, followed by a record that updates nothing. */
  lemma TelescopesOfTwo(x: AuditRecord, y: AuditRecord, a: AccountId, from: int, to: int)
    requires !y.BalanceUpdated? && x.BalanceUpdated?
    requires if x.accountId == a then x.previous == from && x.current == from + x.delta == to else from == to
    ensures Telescopes([x, y], a, from, to)
  {
    assert [x, y][1..] == [y];
    assert Telescopes([y], a, to, to);
  }

  lemma TelescopesSkips(x: AuditRecord, rest: seq<AuditRecord>, a: AccountId, from: int, to: int)
    requires !x.BalanceUpdated? && Telescopes(rest, a, from, to)
    ensures Telescopes([x] + rest, a, from, to)
  {
    assert ([x] + rest)[1..] == rest;
  }

  lemma RecordsTelescope(l: Ledger, call: Call, a: AccountId)
    requires l.WellFormed()
    ensures Telescopes(Records(l, call), a, Previous(l, a), Previous(Execute(l, call), a))
  {
    var r, from := Records(l, call), Previous(l, a);
    if Decide(l, call).Created? {
      CreatedTelescopes(l, call, a);
    } else {
      TelescopesSkips(r[0], [], a, from, from);
      assert r == [r[0]] + [];
    }
  }

  lemma CreatedTelescopes(l: Ledger, call: Call, a: AccountId)
    requires l.WellFormed() && Decide(l, call).Created?
    ensures Telescopes(Records(l, call), a, Previous(l, a), Previous(Execute(l, call), a))
  {
    var r, from, to := Records(l, call), Previous(l, a), Previous(Execute(l, call), a);
    var n := |r|;
    TelescopesOfTwo(r[n - 2], r[n - 1], a, from, to);
    if n == 2 {
      assert r == [r[0], r[1]];
    } else {
      TelescopesSkips(r[0], [r[1], r[2]], a, from, to);
      assert r == [r[0]] + [r[1], r[2]];
    }
  }

  lemma OccurrencesOfTwo(x: AuditRecord, y: AuditRecord, m: Mark)
    ensures Occurrences([x, y], m) == (if Bears(x, m) then 1 else 0) + (if Bears(y, m) then 1 else 0)
  {
    assert [x, y][1..] == [y];
    assert Occurrences([y], m) == if Bears(y, m) then 1 else 0;
  }

  lemma OccurrencesOfThree(x: AuditRecord, y: AuditRecord, z: AuditRecord, m: Mark)
    ensures Occurrences([x, y, z], m) == (if Bears(x, m) then 1 else 0) + Occurrences([y, z], m)
  {
    assert [x, y, z][1..] == [y, z];
  }

  /** Only a new transaction leaves marks: one update, one application, and one creation for a new account. */
  lemma RecordsMark(l: Ledger, call: Call, m: Mark)
    requires l.WellFormed()
    ensures Occurrences(Records(l, call), m) ==
            if !Decide(l, call).Created? then 0
            else match m
              case UpdateOf(id) => if id == call.command.eventId then 1 else 0
              case ApplicationOf(id) => if id == call.command.eventId then 1 else 0
              case CreationOf(a) => if a == call.url && a !in l.accounts then 1 else 0
  {
    var r := Records(l, call);
    if Decide(l, call).Created? {
      var n := |r|;
      OccurrencesOfTwo(r[n - 2], r[n - 1], m);
      if n == 2 {
        assert r == [r[0], r[1]];
      } else {
        OccurrencesOfThree(r[0], r[1], r[2], m);
        assert r == [r[0], r[1], r[2]];
      }
    }
  }

  lemma ExecuteTelescopes(l: Ledger, call: Call, a: AccountId)
    requires l.WellFormed() && Telescopes(l.audit, a, 0, Previous(l, a))
    ensures Telescopes(Execute(l, call).audit, a, 0, Previous(Execute(l, call), a))
  {
    RecordsTelescope(l, call, a);
    TelescopesConcat(l.audit, Records(l, call), a, 0, Previous(l, a), Previous(Execute(l, call), a));
  }

  lemma ExecuteCounts(l: Ledger, call: Call, m: Mark)
    requires l.WellFormed() && Occurrences(l.audit, m) == Expected(l, m)
    ensures Occurrences(Execute(l, call).audit, m) == Expected(Execute(l, call), m)
  {
    OccurrencesConcat(l.audit, Records(l, call), m);
    RecordsMark(l, call, m);
  }

  lemma ExecuteTrailed(l: Ledger, call: Call)
    requires l.WellFormed() && Trailed(l)
    ensures Trailed(Execute(l, call))
  {
    forall a ensures Telescopes(Execute(l, call).audit, a, 0, Previous(Execute(l, call), a)) {
      ExecuteTelescopes(l, call, a);
    }
    forall m ensures Occurrences(Execute(l, call).audit, m) == Expected(Execute(l, call), m) {
      ExecuteCounts(l, call, m);
    }
  }

  lemma ExecuteUpdatesMatch(l: Ledger, call: Call)
    requires l.WellFormed() && UpdatesMatch(l)
    ensures UpdatesMatch(Execute(l, call))
  {
  }

  /** Any single request keeps the ledger and its audit trail consistent. */
  lemma ExecuteConsistent(l: Ledger, call: Call)
    requires Consistent(l)
    ensures Consistent(Execute(l, call))
  {
    ExecuteBalanced(l, call);
    ExecuteTrailed(l, call);
    ExecuteUpdatesMatch(l, call);
  }

  /** In every reachable ledger, balances are signed sums and the audit trail is complete and exact. */
  lemma {:induction false} RunConsistent(l: Ledger, calls: seq<Call>)
    requires Consistent(l)
    ensures Consistent(Run(l, calls))
    decreases |calls|
  {
    if calls != [] {
      ExecuteConsistent(l, calls[0]);
      RunConsistent(Execute(l, calls[0]), calls[1..]);
    }
  }

  lemma EmptyConsistent()
    ensures Consistent(EMPTY)
  {
  }

  // ----- what a request is answered -----

  predicate Same(tx: Transaction, c: Command) {
    tx.accountId == c.accountId && tx.kind == c.kind && tx.amount == c.amount && tx.currency == c.currency && tx.at == c.at
  }

  /** The answer and its status, by the tables before the request and the command. */
  lemma AnswerConditions(l: Ledger, call: Call)
    requires l.WellFormed()
    ensures var c, a := call.command, Decide(l, call);
            var direct, known := call.url == c.accountId, c.eventId in l.transactions;
            var same := known && Same(l.transactions[c.eventId], c);
            var foreign := call.url in l.accounts && l.accounts[call.url].currency != c.currency;
            && (!direct ==> a == AccountIdMismatch && a.Status() == 422)
            && (direct && known && !same ==> a == EventIdConflict && a.Status() == 409)
            && (direct && same ==> a.Replayed? && a.Status() == 200)
            && (direct && !known && foreign ==> a == CurrencyMismatch && a.Status() == 409)
            && (direct && !known && !foreign ==> a.Created? && a.Status() == 201)
            && (a.Accepted() <==> a.Status() < 400)
  {
  }

  /** An accepted request is answered with the signed sum of the account's transactions, its own included exactly
      once, whether it is new or a replay, and with its own currency; that is what the account then holds. */
  lemma AnswerIsBalance(l: Ledger, call: Call)
    requires Consistent(l) && Decide(l, call).Accepted()
    ensures var a, m := Decide(l, call), Execute(l, call);
            && a.balance == Total(m.transactions, call.url) && a.currency == call.command.currency
            && call.url in m.accounts && m.accounts[call.url] == Account(a.currency, a.balance)
            && m.transactions.Keys == l.transactions.Keys + {call.command.eventId}
  {
    ExecuteBalanced(l, call);
    assert Previous(Execute(l, call), call.url) == Total(Execute(l, call).transactions, call.url);
  }

  /** What a request leaves: its transaction and balance if it is new, and its audit records in any case. */
  lemma RequestLeaves(l: Ledger, call: Call)
    requires Consistent(l)
    ensures var c, m := call.command, Execute(l, call);
            var id, url, known := c.eventId, call.url, c.eventId in l.transactions;
            var foreign := url in l.accounts && l.accounts[url].currency != c.currency;
            if url != c.accountId then
              SameBooks(m, l) && m.audit == l.audit + [TransactionRejected(id, url, AccountMismatch)]
            else if known && !Same(l.transactions[id], c) then
              SameBooks(m, l) && m.audit == l.audit + [TransactionConflictRejected(id, url)]
            else if known then
              SameBooks(m, l) && m.audit == l.audit + [TransactionReplayed(id, url)]
            else if foreign then
              SameBooks(m, l) && m.audit == l.audit + [TransactionRejected(id, url, CurrencyDiffers)]
            else
              var units: int := c.amount;
              var delta := if c.kind.CREDIT? then units else -units;
              var before, after := Total(l.transactions, url), Total(m.transactions, url);
              && after == before + delta
              && m.transactions == l.transactions[id := Transaction(url, c.kind, c.amount, c.currency, c.at)]
              && m.accounts == l.accounts[url := Account(c.currency, after)]
              && m.audit == l.audit + (if url in l.accounts then [] else [AccountCreated(id, url)])
                            + [BalanceUpdated(id, url, before, delta, after), TransactionApplied(id, url)]
  {
    var m := Execute(l, call);
    ExecuteBalanced(l, call);
    assert Previous(l, call.url) == Total(l.transactions, call.url);
    assert Previous(m, call.url) == Total(m.transactions, call.url);
  }
}
