/** When the final books do not depend on the order and the number of deliveries. */
module Confluence {
  import opened Types
  import opened AccountService
  import opened LedgerAudit

  /** Same event id, same data; same account, same currency. Requests with a wrong URL do not matter. */
  ghost predicate Agree(c: Call, d: Call) {
    c.Direct() && d.Direct() ==>
      && (c.command.eventId == d.command.eventId ==> c.command == d.command)
      && (c.url == d.url ==> c.command.currency == d.command.currency)
  }

  ghost predicate Compatible(s: set<Call>) {
    forall c, d :: c in s && d in s ==> Agree(c, d)
  }

  ghost function Elements(calls: seq<Call>): set<Call> {
    set c | c in calls
  }

  ghost predicate Recorded(l: Ledger, c: Call) {
    c.Direct() ==>
      && c.command.eventId in l.transactions
      && l.transactions[c.command.eventId] == TransactionOf(c.command)
      && c.url in l.accounts
      && l.accounts[c.url].currency == c.command.currency
  }

  ghost predicate Asked(s: set<Call>, id: EventId) {
    exists c :: c in s && c.Direct() && c.command.eventId == id
  }

  ghost predicate Named(s: set<Call>, a: AccountId) {
    exists c :: c in s && c.Direct() && c.url == a
  }

  /** `l` holds exactly the direct calls of `s`. */
  ghost predicate Holds(l: Ledger, s: set<Call>) {
    && l.WellFormed()
    && (forall c :: c in s ==> Recorded(l, c))
    && (forall id :: id in l.transactions ==> Asked(s, id))
    && (forall a :: a in l.accounts ==> Named(s, a))
  }

  lemma ExecuteRecords(l: Ledger, s: set<Call>, call: Call)
    requires Holds(l, s) && forall c :: c in s ==> Agree(c, call)
    ensures Recorded(Execute(l, call), call)
  {
    if call.Direct() && call.command.eventId in l.transactions {
      assert Asked(s, call.command.eventId);
      var c :| c in s && c.Direct() && c.command.eventId == call.command.eventId;
      assert Agree(c, call) && Recorded(l, c);
    } else if call.Direct() && call.url in l.accounts {
      assert Named(s, call.url);
      var c :| c in s && c.Direct() && c.url == call.url;
      assert Agree(c, call) && Recorded(l, c);
    }
  }

  lemma ExecuteHolds(l: Ledger, s: set<Call>, call: Call)
    requires Holds(l, s) && forall c :: c in s ==> Agree(c, call)
    ensures Holds(Execute(l, call), s + {call})
  {
    var m, t := Execute(l, call), s + {call};
    ExecuteRecords(l, s, call);
    forall c | c in t ensures Recorded(m, c) {
      assert c in s ==> Recorded(l, c);
    }
    forall id | id in m.transactions ensures Asked(t, id) {
      if id in l.transactions {
        assert Asked(s, id);
        var c :| c in s && c.Direct() && c.command.eventId == id;
        assert c in t;
      } else {
        assert call in t;
      }
    }
    forall a | a in m.accounts ensures Named(t, a) {
      if a in l.accounts {
        assert Named(s, a);
        var c :| c in s && c.Direct() && c.url == a;
        assert c in t;
      } else {
        assert call in t;
      }
    }
  }

  lemma {:induction false} RunHolds(l: Ledger, s: set<Call>, calls: seq<Call>)
    requires Holds(l, s) && Balanced(l) && Compatible(s + Elements(calls))
    ensures Holds(Run(l, calls), s + Elements(calls)) && Balanced(Run(l, calls))
    decreases |calls|
  {
    if calls == [] {
      assert s + Elements(calls) == s;
    } else {
      var t := s + {calls[0]};
      assert t + Elements(calls[1..]) == s + Elements(calls);
      ExecuteHolds(l, s, calls[0]);
      ExecuteBalanced(l, calls[0]);
      RunHolds(Execute(l, calls[0]), t, calls[1..]);
    }
  }

  /** A ledger that holds `s` has the transaction, the account and the currency each call of `s` names. */
  lemma HeldBooksAgree(l: Ledger, m: Ledger, s: set<Call>)
    requires Holds(l, s) && Holds(m, s) && Balanced(l) && Balanced(m)
    ensures SameBooks(l, m)
  {
    HeldContained(l, m, s);
    HeldContained(m, l, s);
    assert l.transactions == m.transactions;
    forall a | a in l.accounts ensures l.accounts[a] == m.accounts[a] {
      assert Previous(l, a) == Total(l.transactions, a) && Previous(m, a) == Total(m.transactions, a);
    }
  }

  lemma HeldContained(l: Ledger, m: Ledger, s: set<Call>)
    requires Holds(l, s) && Holds(m, s)
    ensures forall id :: id in l.transactions ==> id in m.transactions && l.transactions[id] == m.transactions[id]
    ensures forall a :: a in l.accounts ==> a in m.accounts && l.accounts[a].currency == m.accounts[a].currency
  {
    forall id | id in l.transactions ensures id in m.transactions && l.transactions[id] == m.transactions[id] {
      assert Asked(s, id);
      var c :| c in s && c.Direct() && c.command.eventId == id;
      assert Recorded(l, c) && Recorded(m, c);
    }
    forall a | a in l.accounts ensures a in m.accounts && l.accounts[a].currency == m.accounts[a].currency {
      assert Named(s, a);
      var c :| c in s && c.Direct() && c.url == a;
      assert Recorded(l, c) && Recorded(m, c);
    }
  }

  lemma Enumerate(s: set<Call>) returns (calls: seq<Call>)
    ensures Elements(calls) == s
  {
    calls := [];
    var rest := s;
    while rest != {}
      invariant Elements(calls) + rest == s
    {
      var c :| c in rest;
      calls, rest := calls + [c], rest - {c};
    }
  }

  /** The order and the number of deliveries never matter to the books. */
  ghost predicate OrderInsensitive(s: set<Call>) {
    forall xs, ys :: Elements(xs) == s && Elements(ys) == s ==> SameBooks(Run(EMPTY, xs), Run(EMPTY, ys))
  }

  /** A direct call delivered first to an empty service decides its event and its account for good. */
  lemma FirstArrivalDecides(call: Call, rest: seq<Call>)
    ensures Recorded(Run(EMPTY, [call] + rest), call)
  {
    assert ([call] + rest)[1..] == rest;
    RunGrows(Execute(EMPTY, call), rest);
  }

  lemma CompatibleSuffices(s: set<Call>, xs: seq<Call>, ys: seq<Call>)
    requires Compatible(s) && Elements(xs) == s && Elements(ys) == s
    ensures SameBooks(Run(EMPTY, xs), Run(EMPTY, ys))
  {
    assert {} + s == s;
    EmptyConsistent();
    RunHolds(EMPTY, {}, xs);
    RunHolds(EMPTY, {}, ys);
    HeldBooksAgree(Run(EMPTY, xs), Run(EMPTY, ys), s);
  }

  lemma ElementsAgain(s: set<Call>, e: seq<Call>, c: Call, d: Call)
    requires Elements(e) == s && c in s && d in s
    ensures Elements([c] + ([d] + e)) == s
  {
    var xs := [c] + ([d] + e);
    forall x | x in s ensures x in xs {
      assert x in e;
      var i :| 0 <= i < |e| && e[i] == x;
      assert xs[i + 2] == x;
    }
  }

  lemma ClashShows(s: set<Call>, e: seq<Call>, c: Call, d: Call)
    requires OrderInsensitive(s) && Elements(e) == s && c in s && d in s
    ensures Agree(c, d)
  {
    var xs, ys := [c] + ([d] + e), [d] + ([c] + e);
    ElementsAgain(s, e, c, d);
    ElementsAgain(s, e, d, c);
    FirstArrivalDecides(c, [d] + e);
    FirstArrivalDecides(d, [c] + e);
    assert SameBooks(Run(EMPTY, xs), Run(EMPTY, ys));
  }

  /** Compatibility is exactly the condition under which deliveries commute. */
  lemma ConfluentIffCompatible(s: set<Call>)
    ensures Compatible(s) <==> OrderInsensitive(s)
  {
    if Compatible(s) {
      forall xs, ys | Elements(xs) == s && Elements(ys) == s ensures SameBooks(Run(EMPTY, xs), Run(EMPTY, ys)) {
        CompatibleSuffices(s, xs, ys);
      }
    }
    if OrderInsensitive(s) {
      var e := Enumerate(s);
      forall c, d | c in s && d in s ensures Agree(c, d) {
        ClashShows(s, e, c, d);
      }
    }
  }
}
