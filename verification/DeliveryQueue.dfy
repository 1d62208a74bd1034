/** The durable queue of deliveries and the order in which due rows are picked. */
module DeliveryQueue {
  import opened Types
  import opened GatewayModels

  // ----- the order of rows -----

  /** Lexicographic order of event ids. */
  predicate IdLess(a: EventId, b: EventId) {
    if b == [] then false
    else if a == [] then true
    else a[0] < b[0] || (a[0] == b[0] && IdLess(a[1..], b[1..]))
  }

  predicate AgreeUpTo(a: EventId, b: EventId, n: nat)
    requires n <= |a| && n <= |b|
  {
    forall j :: 0 <= j < n ==> a[j] == b[j]
  }

  predicate DifferAt(a: EventId, b: EventId, k: nat) {
    k < |a| && k < |b| && AgreeUpTo(a, b, k) && a[k] < b[k]
  }

  /** `b` continues `a`, or has the greater character where they first differ. */
  ghost predicate Lexicographic(a: EventId, b: EventId) {
    || (|a| < |b| && AgreeUpTo(a, b, |a|))
    || exists k: nat :: DifferAt(a, b, k)
  }

  lemma {:induction false} IdLessIsLexicographic(a: EventId, b: EventId)
    ensures IdLess(a, b) <==> Lexicographic(a, b)
  {
    if a != [] && b != [] {
      if a[0] == b[0] {
        IdLessIsLexicographic(a[1..], b[1..]);
        LexicographicTail(a, b);
      } else {
        assert DifferAt(a, b, 0) <==> a[0] < b[0];
      }
    }
  }

  lemma LexicographicTail(a: EventId, b: EventId)
    requires a != [] && b != [] && a[0] == b[0]
    ensures Lexicographic(a, b) <==> Lexicographic(a[1..], b[1..])
  {
    forall n: nat | n <= |a[1..]| && n <= |b[1..]| ensures AgreeUpTo(a, b, n + 1) <==> AgreeUpTo(a[1..], b[1..], n) {
      assert AgreeUpTo(a[1..], b[1..], n) ==> forall j :: 0 < j < n + 1 ==> a[j] == a[1..][j - 1] && b[j] == b[1..][j - 1];
      assert AgreeUpTo(a, b, n + 1) ==> forall j :: 0 <= j < n ==> a[1..][j] == a[j + 1] && b[1..][j] == b[j + 1];
    }
    if Lexicographic(a, b) && exists k: nat :: DifferAt(a, b, k) {
      var k: nat :| DifferAt(a, b, k);
      assert AgreeUpTo(a, b, k - 1 + 1);
      assert DifferAt(a[1..], b[1..], k - 1);
    }
    if Lexicographic(a[1..], b[1..]) && exists k: nat :: DifferAt(a[1..], b[1..], k) {
      var k: nat :| DifferAt(a[1..], b[1..], k);
      assert DifferAt(a, b, k + 1);
    }
    assert |a| < |b| ==> (AgreeUpTo(a, b, |a[1..]| + 1) <==> AgreeUpTo(a[1..], b[1..], |a[1..]|));
  }

  lemma {:induction false} IdTotal(a: EventId, b: EventId)
    ensures IdLess(a, b) || IdLess(b, a) || a == b
  {
    if a != [] && b != [] && a[0] == b[0] {
      IdTotal(a[1..], b[1..]);
      assert a == [a[0]] + a[1..] && b == [b[0]] + b[1..];
    }
  }

  lemma {:induction false} IdTransitive(a: EventId, b: EventId, c: EventId)
    requires IdLess(a, b) && IdLess(b, c)
    ensures IdLess(a, c)
  {
    if a != [] && a[0] == b[0] == c[0] {
      IdTransitive(a[1..], b[1..], c[1..]);
    }
  }

  lemma {:induction false} IdAsymmetric(a: EventId, b: EventId)
    requires IdLess(a, b)
    ensures !IdLess(b, a)
  {
    if a != [] && a[0] == b[0] {
      IdAsymmetric(a[1..], b[1..]);
    }
  }

  /** Whether row `a` is picked before row `b`. */
  predicate Before(rows: Rows, a: EventId, b: EventId)
    requires a in rows && b in rows
  {
    || rows[a].nextAttemptAt < rows[b].nextAttemptAt
    || (rows[a].nextAttemptAt == rows[b].nextAttemptAt && IdLess(a, b))
  }

  lemma BeforeTotal(rows: Rows, a: EventId, b: EventId)
    requires a in rows && b in rows
    ensures Before(rows, a, b) || Before(rows, b, a) || a == b
    ensures Before(rows, a, b) ==> !Before(rows, b, a) && a != b
  {
    IdTotal(a, b);
    if IdLess(a, b) { IdAsymmetric(a, b); }
    if IdLess(b, a) { IdAsymmetric(b, a); }
  }

  lemma BeforeTransitive(rows: Rows, a: EventId, b: EventId, c: EventId)
    requires a in rows && b in rows && c in rows
    requires Before(rows, a, b) && Before(rows, b, c)
    ensures Before(rows, a, c)
  {
    if IdLess(a, b) && IdLess(b, c) {
      IdTransitive(a, b, c);
    }
  }

  // ----- picking due rows -----

  predicate Due(rows: Rows, id: EventId, now: real) {
    id in rows && rows[id].nextAttemptAt <= now
  }

  /** `ids` are the first `limit` of `among`, in order. */
  ghost predicate IsPick(rows: Rows, among: set<EventId>, limit: nat, ids: seq<EventId>)
    requires among <= rows.Keys
  {
    && |ids| <= limit
    && (forall i :: 0 <= i < |ids| ==> ids[i] in among)
    && (forall i, j :: 0 <= i < j < |ids| ==> Before(rows, ids[i], ids[j]))
    && (forall id :: id in among && id !in ids ==> |ids| == limit && forall i :: 0 <= i < |ids| ==> Before(rows, ids[i], id))
  }

  function DueSet(rows: Rows, now: real): (r: set<EventId>)
    ensures r <= rows.Keys
  {
    set id | id in rows && Due(rows, id, now)
  }

  /** `ids` answers the query for due rows: due, in order, at most `limit`, and nothing due is passed over. */
  ghost predicate IsDueBatch(rows: Rows, limit: nat, now: real, ids: seq<EventId>) {
    IsPick(rows, DueSet(rows, now), limit, ids)
  }

  predicate IsFirst(rows: Rows, among: set<EventId>, m: EventId)
    requires among <= rows.Keys
  {
    m in among && forall o :: o in among && o != m ==> Before(rows, m, o)
  }

  lemma {:induction false} FirstExists(rows: Rows, among: set<EventId>)
    requires among <= rows.Keys && among != {}
    ensures exists m :: IsFirst(rows, among, m)
  {
    var x :| x in among;
    if among == {x} {
      assert IsFirst(rows, among, x);
    } else {
      FirstExists(rows, among - {x});
      var n :| IsFirst(rows, among - {x}, n);
      BeforeTotal(rows, x, n);
      var m := if Before(rows, x, n) then x else n;
      forall o | o in among && o != m ensures Before(rows, m, o) {
        if m == x && o != n {
          BeforeTransitive(rows, x, n, o);
        }
      }
      assert IsFirst(rows, among, m);
    }
  }

  lemma FirstUnique(rows: Rows, among: set<EventId>)
    requires among <= rows.Keys
    ensures forall m, n :: IsFirst(rows, among, m) && IsFirst(rows, among, n) ==> m == n
  {
    forall m, n | IsFirst(rows, among, m) && IsFirst(rows, among, n) ensures m == n {
      BeforeTotal(rows, m, n);
    }
  }

  /** ORDER BY next_attempt_at, event_id with a LIMIT. */
  function Pick(rows: Rows, among: set<EventId>, limit: nat): (ids: seq<EventId>)
    requires among <= rows.Keys
    ensures IsPick(rows, among, limit, ids)
    decreases limit
  {
    if limit == 0 || among == {} then []
    else
      FirstExists(rows, among);
      FirstUnique(rows, among);
      var m :| m in among && IsFirst(rows, among, m);
      [m] + Pick(rows, among - {m}, limit - 1)
  }

  lemma NotEarlier(rows: Rows, among: set<EventId>, limit: nat, xs: seq<EventId>, ys: seq<EventId>, k: nat)
    requires among <= rows.Keys && IsPick(rows, among, limit, xs) && IsPick(rows, among, limit, ys)
    requires k < |xs| && k < |ys| && xs[..k] == ys[..k]
    ensures !Before(rows, xs[k], ys[k])
  {
    BeforeTotal(rows, xs[k], ys[k]);
    if xs[k] in ys {
      var j :| 0 <= j < |ys| && ys[j] == xs[k];
      if j < k {
        assert xs[..k][j] == ys[..k][j];
        BeforeTotal(rows, xs[j], xs[k]);
      } else if k < j {
        BeforeTotal(rows, ys[k], ys[j]);
      }
    }
  }

  lemma {:induction false} PicksAgree(rows: Rows, among: set<EventId>, limit: nat, xs: seq<EventId>, ys: seq<EventId>, k: nat)
    requires among <= rows.Keys && IsPick(rows, among, limit, xs) && IsPick(rows, among, limit, ys)
    requires k <= |xs| && k <= |ys|
    ensures xs[..k] == ys[..k]
  {
    if k > 0 {
      var i := k - 1;
      PicksAgree(rows, among, limit, xs, ys, i);
      NotEarlier(rows, among, limit, xs, ys, i);
      NotEarlier(rows, among, limit, ys, xs, i);
      BeforeTotal(rows, xs[i], ys[i]);
      assert xs[..k] == xs[..i] + [xs[i]] && ys[..k] == ys[..i] + [ys[i]];
    }
  }

  lemma PickNotShorter(rows: Rows, among: set<EventId>, limit: nat, xs: seq<EventId>, ys: seq<EventId>)
    requires among <= rows.Keys && IsPick(rows, among, limit, xs) && IsPick(rows, among, limit, ys)
    ensures |ys| <= |xs|
  {
    if |xs| < |ys| {
      var next := ys[|xs|];
      PicksAgree(rows, among, limit, xs, ys, |xs|);
      forall i | 0 <= i < |xs| ensures xs[i] != next {
        assert xs[i] == ys[..|xs|][i];
        BeforeTotal(rows, ys[i], next);
      }
    }
  }

  /** The query has exactly one answer. */
  lemma DueBatchUnique(rows: Rows, limit: nat, now: real, xs: seq<EventId>, ys: seq<EventId>)
    requires IsDueBatch(rows, limit, now, xs) && IsDueBatch(rows, limit, now, ys)
    ensures xs == ys
  {
    var due := DueSet(rows, now);
    PickNotShorter(rows, due, limit, xs, ys);
    PickNotShorter(rows, due, limit, ys, xs);
    PicksAgree(rows, due, limit, xs, ys, |xs|);
    assert xs[..|xs|] == xs && ys[..|ys|] == ys;
  }

  /** A batch in plain terms: rows whose time has come, by time and among equal times by id; and every row that is
      left out although its time has come finds the batch full of rows before it. */
  lemma DueBatchIs(rows: Rows, limit: nat, now: real, ids: seq<EventId>)
    requires IsDueBatch(rows, limit, now, ids)
    ensures |ids| <= limit && forall i :: 0 <= i < |ids| ==> ids[i] in rows && rows[ids[i]].nextAttemptAt <= now
    ensures forall i, j :: 0 <= i < j < |ids| ==>
              var a, b := rows[ids[i]].nextAttemptAt, rows[ids[j]].nextAttemptAt;
              a < b || (a == b && Lexicographic(ids[i], ids[j]))
    ensures forall id :: id in rows && rows[id].nextAttemptAt <= now && id !in ids ==>
              |ids| == limit && forall i :: 0 <= i < |ids| ==>
                var a, b := rows[ids[i]].nextAttemptAt, rows[id].nextAttemptAt;
                a < b || (a == b && Lexicographic(ids[i], id))
  {
    forall a: EventId, b: EventId ensures IdLess(a, b) <==> Lexicographic(a, b) {
      IdLessIsLexicographic(a, b);
    }
    assert forall id :: id in rows && rows[id].nextAttemptAt <= now ==> id in DueSet(rows, now);
  }

  // ----- the repository -----

  /** The rows after `enqueue`: a new row due at once, or the existing row refreshed and due again. */
  function Enqueued(rows: Rows, id: EventId, accountId: AccountId, payload: Command, traceId: string, now: real): Rows {
    if id in rows then
      rows[id := rows[id].(payload := payload, traceId := traceId, nextAttemptAt := now)]
    else
      rows[id := Delivery(accountId, payload, traceId, 0, now)]
  }

  /** Enqueueing makes the row due at once with the given payload, never loses count of its attempts, adds a
      row only for a new id and leaves every other row alone. */
  lemma EnqueuedIsDue(rows: Rows, id: EventId, accountId: AccountId, payload: Command, traceId: string, now: real)
    ensures var after := Enqueued(rows, id, accountId, payload, traceId, now);
            && Due(after, id, now) && after[id].payload == payload && after[id].traceId == traceId
            && after[id].attempts == (if id in rows then rows[id].attempts else 0)
            && after[id].accountId == (if id in rows then rows[id].accountId else accountId)
            && after.Keys == rows.Keys + {id} && |after| == |rows| + (if id in rows then 0 else 1)
            && (forall o :: o in rows && o != id ==> after[o] == rows[o])
  {
    var after := Enqueued(rows, id, accountId, payload, traceId, now);
    assert after.Keys == rows.Keys + {id};
    assert |after.Keys| == |rows.Keys| + if id in rows then 0 else 1;
  }

  class DeliveryQueueRepository {
    const db: Database

    constructor (db: Database)
      ensures this.db == db
    {
      this.db := db;
    }

    method Get(id: EventId) returns (r: Option<Delivery>)
      ensures r == if id in db.deliveries then Some(db.deliveries[id]) else None
    {
      r := if id in db.deliveries then Some(db.deliveries[id]) else None;
    }

    method Enqueue(id: EventId, accountId: AccountId, payload: Command, traceId: string, now: real)
      modifies db
      ensures db.Content() == old(db.Content()).(deliveries := Enqueued(old(db.deliveries), id, accountId, payload, traceId, now))
    {
      var found := Get(id);
      if found.Some? {
        var row := found.value.(payload := payload);
        row := row.(traceId := traceId);
        row := row.(nextAttemptAt := now);
        db.deliveries := db.deliveries[id := row];
        return;
      }
      db.deliveries := db.deliveries[id := Delivery(accountId, payload, traceId, 0, now)];
    }

    method DueEventIds(limit: nat, now: real) returns (ids: seq<EventId>)
      ensures IsDueBatch(db.deliveries, limit, now, ids)
    {
      ids := Pick(db.deliveries, DueSet(db.deliveries, now), limit);
    }

    method Delete(id: EventId)
      modifies db
      ensures db.Content() == old(db.Content()).(deliveries := old(db.deliveries) - {id})
    {
      db.deliveries := db.deliveries - {id};
    }

    method Count() returns (n: nat)
      ensures n == |db.deliveries|
    {
      n := |db.deliveries|;
    }
  }
}
