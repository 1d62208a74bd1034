/** The Gateway's client of the Account Service: circuit breaker and bounded retries. */
module AccountClient {
  import opened Types

  /** What one transport call brings back, and when the client notices. */
  datatype Attempt =
    | Responded(status: int, at: real)
    | TimedOut(at: real)
    | ConnectFailed(at: real)
    | Raised(at: real)  // any other exception
  {
    predicate Transient() {
      TimedOut? || ConnectFailed? || (Responded? && status in {502, 503, 504})
    }
  }

  /** The outcome of a request, as its caller sees it. */
  datatype Outcome = Response(status: int) | Unavailable | Uncaught

  /** The two fields of the breaker. */
  datatype Circuit = Circuit(failures: int, openedAt: Option<real>)

  const CLOSED := Circuit(0, None)

  datatype Limits = Limits(threshold: int, recovery: real, maxAttempts: int)

  predicate Allows(l: Limits, b: Circuit, now: real) {
    b.openedAt.None? || now - b.openedAt.value >= l.recovery
  }

  function AfterFailure(l: Limits, b: Circuit, now: real): Circuit {
    var failures := b.failures + 1;
    Circuit(failures, if failures >= l.threshold then Some(now) else b.openedAt)
  }

  /** One call of `success` or `failure` on the breaker. */
  datatype Note = Succeeded | Failed(at: real)

  /** The breaker after a history of calls. */
  function Replay(l: Limits, b: Circuit, history: seq<Note>): Circuit {
    if history == [] then b
    else
      var before := Replay(l, b, history[..|history| - 1]);
      match history[|history| - 1]
      case Succeeded => CLOSED
      case Failed(at) => AfterFailure(l, before, at)
  }

  // ----- the breaker summarises its history -----

  /** The number of failures since the last success. */
  function TrailingRun(history: seq<Note>): nat {
    if history == [] || history[|history| - 1].Succeeded? then 0
    else 1 + TrailingRun(history[..|history| - 1])
  }

  /** From the initial breaker, the fields are the trailing run and, once it reaches the threshold, the time
      of its last failure. A threshold below 1 acts like 1. */
  lemma {:induction false} BreakerRefinesHistory(l: Limits, history: seq<Note>, now: real)
    ensures var b, run := Replay(l, CLOSED, history), TrailingRun(history);
            var open := run >= l.threshold && run >= 1;
            && b.failures == run
            && (b.openedAt.Some? <==> open)
            && (open ==> b.openedAt == Some(history[|history| - 1].at))
            && (Allows(l, b, now) <==> !(open && now - history[|history| - 1].at < l.recovery))
  {
    if history != [] {
      BreakerRefinesHistory(l, history[..|history| - 1], now);
    }
  }

  // ----- the retry loop -----

  /** The calls one request makes: how many, what they tell the breaker, and what the caller gets. */
  datatype Trace = Trace(calls: nat, notes: seq<Note>, outcome: Outcome)

  /** The loop from attempt `i` on, when the transport answers call `k` with `transport(k)`. */
  function Attempts(i: nat, maxAttempts: int, transport: nat -> Attempt): Trace
    decreases maxAttempts - i
  {
    if i >= maxAttempts then Trace(0, [], Unavailable)
    else
      var a := transport(i);
      if a.Raised? then Trace(1, [], Uncaught)
      else if !a.Transient() then Trace(1, [Succeeded], Response(a.status))
      else
        var rest := Attempts(i + 1, maxAttempts, transport);
        Trace(1 + rest.calls, [Failed(a.at)] + rest.notes, rest.outcome)
  }

  /** A whole request: refused by an open circuit, or the loop from the first attempt. */
  function Requested(l: Limits, b: Circuit, now: real, transport: nat -> Attempt): Trace {
    if Allows(l, b, now) then Attempts(0, l.maxAttempts, transport) else Trace(0, [], Unavailable)
  }

  /** What failed calls `i` to `j - 1` tell the breaker. */
  function Failures(i: nat, j: nat, transport: nat -> Attempt): (notes: seq<Note>)
    ensures |notes| == if i < j then j - i else 0
    decreases j
  {
    if j <= i then [] else Failures(i, j - 1, transport) + [Failed(transport(j - 1).at)]
  }

  ghost predicate AllTransient(i: nat, j: nat, transport: nat -> Attempt) {
    forall k: nat :: i <= k < j ==> transport(k).Transient()
  }

  /** After `n` transient failures the loop stands where `Attempts(n, ...)` starts. */
  lemma {:induction false} AfterTransients(n: nat, maxAttempts: int, transport: nat -> Attempt)
    requires n == 0 || n <= maxAttempts
    requires AllTransient(0, n, transport)
    ensures var t, rest := Attempts(0, maxAttempts, transport), Attempts(n, maxAttempts, transport);
            && t.calls == n + rest.calls
            && t.notes == Failures(0, n, transport) + rest.notes
            && t.outcome == rest.outcome
  {
    if n > 0 {
      AfterTransients(n - 1, maxAttempts, transport);
      var rest := Attempts(n, maxAttempts, transport);
      assert Attempts(n - 1, maxAttempts, transport).notes == [Failed(transport(n - 1).at)] + rest.notes;
    }
  }

  class CircuitBreaker {
    const limits: Limits
    var failures: int
    var openedAt: Option<real>

    ghost function State(): Circuit
      reads this
    {
      Circuit(failures, openedAt)
    }

    constructor (limits: Limits)
      ensures this.limits == limits && State() == CLOSED
    {
      this.limits := limits;
      failures, openedAt := 0, None;
    }

    method Allow(now: real) returns (ok: bool)
      ensures ok <==> Allows(limits, State(), now)
    {
      if openedAt.None? {
        return true;
      }
      return now - openedAt.value >= limits.recovery;
    }

    method Success()
      modifies this
      ensures State() == CLOSED
    {
      failures, openedAt := 0, None;
    }

    method Failure(now: real)
      modifies this
      ensures State() == AfterFailure(limits, old(State()), now)
    {
      failures := failures + 1;
      if failures >= limits.threshold {
        openedAt := Some(now);
      }
    }
  }

  class Client {
    const limits: Limits
    const breaker: CircuitBreaker

    ghost predicate Valid() {
      breaker.limits == limits
    }

    constructor (limits: Limits)
      ensures Valid() && this.limits == limits && fresh(breaker) && breaker.State() == CLOSED
    {
      this.limits := limits;
      breaker := new CircuitBreaker(limits);
    }

    /** `now` is the time of the admission check; `transport` answers the calls in turn. */
    method Request(now: real, transport: nat -> Attempt) returns (outcome: Outcome, calls: nat)
      requires Valid()
      modifies breaker
      ensures var t := Requested(limits, old(breaker.State()), now, transport);
              && outcome == t.outcome && calls == t.calls
              && breaker.State() == Replay(limits, old(breaker.State()), t.notes)
    {
      ghost var start := breaker.State();
      calls := 0;
      var ok := breaker.Allow(now);
      if !ok {
        return Unavailable, 0;
      }
      var attempt := 0;
      while attempt < limits.maxAttempts
        invariant calls == attempt && (attempt == 0 || attempt <= limits.maxAttempts)
        invariant AllTransient(0, attempt, transport)
        invariant breaker.State() == Replay(limits, start, Failures(0, attempt, transport))
      {
        AfterTransients(attempt, limits.maxAttempts, transport);
        ghost var noted := Failures(0, attempt, transport);
        calls := calls + 1;
        var a := transport(attempt);
        if a.Raised? {
          assert noted + [] == noted;
          return Uncaught, calls;
        }
        if !a.Transient() {
          breaker.Success();
          assert (noted + [Succeeded])[..|noted|] == noted;
          return Response(a.status), calls;
        }
        breaker.Failure(a.at);
        assert (noted + [Failed(a.at)])[..|noted|] == noted;
        attempt := attempt + 1;
      }
      AfterTransients(attempt, limits.maxAttempts, transport);
      assert Failures(0, attempt, transport) + [] == Failures(0, attempt, transport);
      return Unavailable, calls;
    }
  }

  function Remaining(i: nat, maxAttempts: int): nat {
    if i < maxAttempts then maxAttempts - i else 0
  }

  /** The calls stay within the attempts left, every failed call is recorded once and in order, a response at
      call k follows k - 1 failures, and giving up has used every attempt. */
  ghost predicate Accounted(i: nat, maxAttempts: int, transport: nat -> Attempt, t: Trace) {
    var end := i + t.calls;
    && t.calls <= Remaining(i, maxAttempts)
    && match t.outcome
       case Response(status) =>
         && t.calls >= 1 && AllTransient(i, end - 1, transport)
         && transport(end - 1).Responded? && transport(end - 1).status == status
         && status !in {502, 503, 504}
         && t.notes == Failures(i, end - 1, transport) + [Succeeded]
       case Unavailable =>
         && t.calls == Remaining(i, maxAttempts) && AllTransient(i, end, transport)
         && t.notes == Failures(i, end, transport)
       case Uncaught =>
         && t.calls >= 1 && AllTransient(i, end - 1, transport) && transport(end - 1).Raised?
         && t.notes == Failures(i, end - 1, transport)
  }

  lemma AccountedEarlier(i: nat, maxAttempts: int, transport: nat -> Attempt, rest: Trace)
    requires i < maxAttempts && transport(i).Transient() && Accounted(i + 1, maxAttempts, transport, rest)
    ensures Accounted(i, maxAttempts, transport,
                      Trace(1 + rest.calls, [Failed(transport(i).at)] + rest.notes, rest.outcome))
  {
    var j := if rest.outcome.Unavailable? then i + 1 + rest.calls else i + rest.calls;
    FailuresFront(i, j, transport);
    assert rest.outcome.Response? ==>
        [Failed(transport(i).at)] + (Failures(i + 1, j, transport) + [Succeeded]) == Failures(i, j, transport) + [Succeeded];
  }

  /** Accounting of the loop, from any attempt on. */
  lemma {:induction false} RetryAccounting(i: nat, maxAttempts: int, transport: nat -> Attempt)
    ensures Accounted(i, maxAttempts, transport, Attempts(i, maxAttempts, transport))
    decreases maxAttempts - i
  {
    if i < maxAttempts && transport(i).Transient() {
      RetryAccounting(i + 1, maxAttempts, transport);
      AccountedEarlier(i, maxAttempts, transport, Attempts(i + 1, maxAttempts, transport));
    }
  }

  lemma {:induction false} FailuresFront(i: nat, j: nat, transport: nat -> Attempt)
    requires i < j
    ensures Failures(i, j, transport) == [Failed(transport(i).at)] + Failures(i + 1, j, transport)
    decreases j
  {
    if j > i + 1 {
      FailuresFront(i, j - 1, transport);
    }
  }

  /** What one request leaves in the breaker: a response closes it; giving up adds `maxAttempts` failures and
      dates the opening by the last one; a refused request makes no call and changes nothing. */
  lemma RequestOnBreaker(l: Limits, b: Circuit, now: real, transport: nat -> Attempt)
    ensures var t := Requested(l, b, now, transport);
            var after := Replay(l, b, t.notes);
            && (!Allows(l, b, now) ==> t.calls == 0 && after == b && t.outcome == Unavailable)
            && (t.outcome.Response? ==> after == CLOSED)
            && (t.outcome.Unavailable? && Allows(l, b, now) ==>
                  && after.failures == b.failures + t.calls
                  && (t.calls > 0 && after.failures >= l.threshold ==>
                        after.openedAt == Some(transport(t.calls - 1).at)))
  {
    if Allows(l, b, now) {
      RetryAccounting(0, l.maxAttempts, transport);
      var t := Requested(l, b, now, transport);
      if t.outcome.Unavailable? {
        ReplayFailures(l, b, t.calls, transport);
      }
    }
  }

  lemma {:induction false} ReplayFailures(l: Limits, b: Circuit, n: nat, transport: nat -> Attempt)
    ensures var after := Replay(l, b, Failures(0, n, transport));
            && after.failures == b.failures + n
            && (n > 0 && after.failures >= l.threshold ==> after.openedAt == Some(transport(n - 1).at))
            && (after.failures < l.threshold ==> after.openedAt == b.openedAt)
  {
    if n > 0 {
      ReplayFailures(l, b, n - 1, transport);
      var before := Failures(0, n - 1, transport);
      assert (before + [Failed(transport(n - 1).at)])[..|before|] == before;
    }
  }

  // ----- which calls are retried -----

  /** The failures that are retried: a timeout, a connect error, a 502, a 503 or a 504. */
  lemma TransientIs(a: Attempt)
    ensures a.Transient() <==>
            || a.TimedOut? || a.ConnectFailed?
            || (a.Responded? && (a.status == 502 || a.status == 503 || a.status == 504))
  {
  }

  /** When the breaker allows, the first call that is no timeout, no connect error, no 502, no 503 and no 504 decides
      the request, if there are attempts for it: its response is the outcome, or its exception is uncaught. */
  lemma FirstOtherDecides(l: Limits, b: Circuit, now: real, transport: nat -> Attempt, k: nat)
    requires (b.openedAt.None? || now - b.openedAt.value >= l.recovery) && k < l.maxAttempts
    requires forall i: nat :: i < k ==>
               var a := transport(i);
               a.TimedOut? || a.ConnectFailed? || (a.Responded? && (a.status == 502 || a.status == 503 || a.status == 504))
    requires transport(k).Raised? ||
             (transport(k).Responded? && transport(k).status != 502 && transport(k).status != 503 && transport(k).status != 504)
    ensures var t := Requested(l, b, now, transport);
            && t.calls == k + 1
            && t.outcome == (if transport(k).Raised? then Uncaught else Response(transport(k).status))
            && t.notes == Failures(0, k, transport) + (if transport(k).Raised? then [] else [Succeeded])
  {
    assert AllTransient(0, k, transport);
    AfterTransients(k, l.maxAttempts, transport);
  }

  /** When all attempts are such failures, or the breaker does not allow the request, the outcome is Unavailable. */
  lemma NoOtherIsUnavailable(l: Limits, b: Circuit, now: real, transport: nat -> Attempt)
    requires (b.openedAt.None? || now - b.openedAt.value >= l.recovery) ==>
               forall i: nat :: i < l.maxAttempts ==>
                 var a := transport(i);
                 a.TimedOut? || a.ConnectFailed? || (a.Responded? && (a.status == 502 || a.status == 503 || a.status == 504))
    ensures var t := Requested(l, b, now, transport);
            && t.outcome == Unavailable
            && t.calls == (if b.openedAt.None? || now - b.openedAt.value >= l.recovery then Remaining(0, l.maxAttempts) else 0)
  {
    if Allows(l, b, now) {
      var n := Remaining(0, l.maxAttempts);
      assert AllTransient(0, n, transport);
      AfterTransients(n, l.maxAttempts, transport);
    }
  }

  /** A call is followed by another one only after such a failure. */
  lemma OnlyTransientRetried(l: Limits, b: Circuit, now: real, transport: nat -> Attempt, i: nat)
    requires i + 1 < Requested(l, b, now, transport).calls
    ensures var a := transport(i);
            a.TimedOut? || a.ConnectFailed? || (a.Responded? && (a.status == 502 || a.status == 503 || a.status == 504))
  {
    RetryAccounting(0, l.maxAttempts, transport);
    assert transport(i).Transient();
    TransientIs(transport(i));
  }
}
