/** How often a dead Account Service is called by sequential callers behind the breaker. */
module Outage {
  import opened Types
  import opened AccountClient

  /** A request that starts at `start`; its calls, if any are made, are answered by `transport`. */
  datatype Req = Req(start: real, transport: nat -> Attempt)

  function Most(l: Limits): nat {
    if l.maxAttempts > 0 then l.maxAttempts else 0
  }

  function TraceOf(l: Limits, b: Circuit, r: Req): Trace {
    Requested(l, b, r.start, r.transport)
  }

  function Serve(l: Limits, b: Circuit, r: Req): Circuit {
    Replay(l, b, TraceOf(l, b, r).notes)
  }

  /** When the request is over: at its last failed call, or at once when refused. */
  function EndOf(l: Limits, b: Circuit, r: Req): real {
    if Allows(l, b, r.start) && Most(l) > 0 then r.transport(Most(l) - 1).at else r.start
  }

  /** All calls of the request fail, one after the other. */
  ghost predicate Fails(l: Limits, r: Req) {
    && AllTransient(0, Most(l), r.transport)
    && (Most(l) > 0 ==> r.start <= r.transport(Most(l) - 1).at)
  }

  /** Sequential requests between `from` and `until` during which the service never answers. */
  ghost predicate Down(l: Limits, b: Circuit, rs: seq<Req>, from: real, until: real)
    decreases |rs|
  {
    from <= until &&
    (rs != [] ==>
       && from <= rs[0].start
       && (Allows(l, b, rs[0].start) ==> Fails(l, rs[0]))
       && Down(l, Serve(l, b, rs[0]), rs[1..], EndOf(l, b, rs[0]), until))
  }

  function Calls(l: Limits, b: Circuit, rs: seq<Req>): nat
    decreases |rs|
  {
    if rs == [] then 0 else TraceOf(l, b, rs[0]).calls + Calls(l, Serve(l, b, rs[0]), rs[1..])
  }

  /** How many whole recovery periods fit into `d` seconds. */
  function Periods(l: Limits, d: real): int
    requires l.recovery > 0.0
  {
    (d / l.recovery).Floor
  }

  lemma PeriodsMonotone(l: Limits, c: real, d: real)
    requires l.recovery > 0.0 && c <= d
    ensures Periods(l, c) <= Periods(l, d)
  {
    assert c / l.recovery <= d / l.recovery;
  }

  lemma QuotientOf(x: real, r: real, d: real)
    requires r > 0.0 && x * r == d
    ensures d / r == x
  {
  }

  lemma PeriodsShift(l: Limits, d: real)
    requires l.recovery > 0.0
    ensures Periods(l, d + l.recovery) == Periods(l, d) + 1
    ensures 0.0 <= d ==> 0 <= Periods(l, d)
  {
    var x := d / l.recovery;
    assert (x + 1.0) * l.recovery == x * l.recovery + l.recovery;
    QuotientOf(x, l.recovery, d);
    QuotientOf(x + 1.0, l.recovery, d + l.recovery);
    assert (x + 1.0).Floor == x.Floor + 1;
  }

  /** A request that meets the outage records one failure per attempt. */
  lemma FailingRequest(l: Limits, b: Circuit, r: Req)
    requires Allows(l, b, r.start) && Fails(l, r)
    ensures TraceOf(l, b, r).calls == Most(l)
    ensures var after := Serve(l, b, r);
            && after.failures == b.failures + Most(l)
            && (Most(l) > 0 && after.failures >= l.threshold ==> after.openedAt == Some(EndOf(l, b, r)))
            && (after.failures < l.threshold ==> after.openedAt == b.openedAt)
            && (Most(l) == 0 ==> after == b)
  {
    RetryAccounting(0, l.maxAttempts, r.transport);
    var t := TraceOf(l, b, r);
    if t.calls > 0 {
      assert r.transport(t.calls - 1).Transient();
    }
    ReplayFailures(l, b, Most(l), r.transport);
  }

  /** Behind an open breaker, every recovery period admits at most one request. */
  lemma {:induction false} CallsWhileOpen(l: Limits, b: Circuit, rs: seq<Req>, from: real, until: real)
    requires l.recovery > 0.0 && b.openedAt.Some? && b.failures >= l.threshold
    requires b.openedAt.value <= from && Down(l, b, rs, from, until)
    ensures Calls(l, b, rs) <= Most(l) * Periods(l, until - b.openedAt.value)
    decreases |rs|
  {
    var m, since := Most(l), b.openedAt.value;
    PeriodsShift(l, until - since);
    if rs != [] {
      var r := rs[0];
      var after, end := Serve(l, b, r), EndOf(l, b, r);
      if !Allows(l, b, r.start) {
        CallsWhileOpen(l, b, rs[1..], r.start, until);
      } else {
        FailingRequest(l, b, r);
        CallsWhileOpen(l, after, rs[1..], end, until);
        if m > 0 {
          ProbeBudget(l, m, until - end, until - since);
        }
      }
    }
  }

  /** One request more, and at least one recovery period less. */
  lemma ProbeBudget(l: Limits, m: nat, later: real, sooner: real)
    requires l.recovery > 0.0 && later + l.recovery <= sooner
    ensures m + m * Periods(l, later) <= m * Periods(l, sooner)
  {
    PeriodsMonotone(l, later + l.recovery, sooner);
    PeriodsShift(l, later);
    assert m * (Periods(l, later) + 1) <= m * Periods(l, sooner);
  }

  /** The whole outage, from a closed breaker that has seen `b.failures` failures in a row. */
  lemma {:induction false} OutageBound(l: Limits, b: Circuit, rs: seq<Req>, from: real, until: real)
    requires l.recovery > 0.0 && l.threshold >= 1
    requires b.openedAt.None? && 0 <= b.failures < l.threshold
    requires Down(l, b, rs, from, until)
    ensures Calls(l, b, rs) <= l.threshold - 1 - b.failures + Most(l) + Most(l) * Periods(l, until - from)
    decreases |rs|
  {
    var m := Most(l);
    PeriodsShift(l, until - from);
    if rs != [] {
      var r := rs[0];
      var after, end := Serve(l, b, r), EndOf(l, b, r);
      FailingRequest(l, b, r);
      PeriodsMonotone(l, until - end, until - from);
      assert m * Periods(l, until - end) <= m * Periods(l, until - from);
      if after.failures < l.threshold {
        OutageBound(l, after, rs[1..], end, until);
      } else {
        CallsWhileOpen(l, after, rs[1..], end, until);
      }
    }
  }
}
