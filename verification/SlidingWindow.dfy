/** What the limiter guarantees over whole runs of checks with nondecreasing time. */
module SlidingWindow {
  import opened RateLimit

  ghost predicate Sorted(s: seq<real>) {
    forall i, j :: 0 <= i < j < |s| ==> s[i] <= s[j]
  }

  /** The entries in the half-open window (lo, hi], in order. */
  function Live(s: seq<real>, lo: real, hi: real): seq<real> {
    if s == [] then [] else (if lo < s[0] <= hi then [s[0]] else []) + Live(s[1..], lo, hi)
  }

  /** One key: its deque, the log of all its admissions, and which checks were admitted. */
  datatype Track = Track(deque: seq<real>, log: seq<real>, admitted: seq<bool>)

  const START := Track([], [], [])

  function Step(p: Policy, t: Track, now: real): Track {
    var ok := p.Admits(t.deque, now);
    Track(p.Next(t.deque, now), if ok then t.log + [now] else t.log, t.admitted + [ok])
  }

  function RunKey(p: Policy, times: seq<real>): (t: Track)
    ensures |t.admitted| == |times|
  {
    if times == [] then START
    else Step(p, RunKey(p, times[..|times| - 1]), times[|times| - 1])
  }

  // ----- the window as a filter -----

  lemma {:induction false} LiveAll(s: seq<real>, lo: real, hi: real)
    requires forall i :: 0 <= i < |s| ==> lo < s[i] <= hi
    ensures Live(s, lo, hi) == s
  {
    if s != [] {
      LiveAll(s[1..], lo, hi);
      assert s == [s[0]] + s[1..];
    }
  }

  /** Dropping the leading old entries of a sorted deque leaves exactly the live ones. */
  lemma {:induction false} PruneIsLive(s: seq<real>, lo: real, hi: real)
    requires Sorted(s) && forall i :: 0 <= i < |s| ==> s[i] <= hi
    ensures Prune(s, lo) == Live(s, lo, hi)
  {
    if s != [] && s[0] <= lo {
      PruneIsLive(s[1..], lo, hi);
    } else {
      LiveAll(s, lo, hi);
    }
  }

  /** They are a suffix of the deque. */
  lemma {:induction false} PruneIsSuffix(s: seq<real>, lo: real)
    requires Sorted(s)
    ensures |Prune(s, lo)| <= |s| && Prune(s, lo) == s[|s| - |Prune(s, lo)|..]
    ensures forall i :: 0 <= i < |Prune(s, lo)| ==> lo < Prune(s, lo)[i]
  {
    if s != [] && s[0] <= lo {
      PruneIsSuffix(s[1..], lo);
    }
  }

  /** Pruning removes something exactly when the first entry is old enough. */
  lemma {:induction false} PruneShortens(s: seq<real>, c: real)
    ensures |Prune(s, c)| <= |s|
    ensures |Prune(s, c)| < |s| <==> s != [] && s[0] <= c
  {
    if s != [] && s[0] <= c {
      PruneShortens(s[1..], c);
    }
  }

  lemma {:induction false} PruneTwice(s: seq<real>, c: real, d: real)
    requires c <= d
    ensures Prune(Prune(s, c), d) == Prune(s, d)
  {
    if s != [] && s[0] <= c {
      PruneTwice(s[1..], c, d);
    }
  }

  lemma {:induction false} PruneAppend(s: seq<real>, x: real, c: real)
    requires c < x
    ensures Prune(s + [x], c) == Prune(s, c) + [x]
  {
    if s != [] && s[0] <= c {
      PruneAppend(s[1..], x, c);
      assert (s + [x])[1..] == s[1..] + [x];
    }
  }

  // ----- the deque stands for the log -----

  /** Entries `limit` apart are at least a window apart. */
  ghost predicate Spaced(p: Policy, s: seq<real>)
    requires p.Valid()
  {
    forall i, j :: 0 <= i && i + p.limit == j < |s| ==> s[j] - s[i] >= p.window
  }

  /** The log is sorted, ends by `now`, and its entries in (now - window, now] are the deque. */
  ghost predicate Mirrors(p: Policy, t: Track, now: real)
    requires p.Valid()
  {
    && Sorted(t.log)
    && (forall i :: 0 <= i < |t.log| ==> t.log[i] <= now)
    && t.deque == Prune(t.log, now - p.window)
    && |t.deque| <= p.limit
    && Spaced(p, t.log)
  }

  lemma StepMirrors(p: Policy, t: Track, before: real, now: real)
    requires p.Valid() && Mirrors(p, t, before) && before <= now
    ensures Mirrors(p, Step(p, t, now), now)
    ensures p.Admits(t.deque, now) <==> |Live(t.log, now - p.window, now)| < p.limit
    ensures Step(p, t, now).deque == Live(Step(p, t, now).log, now - p.window, now)
  {
    var cutoff := now - p.window;
    PruneTwice(t.log, before - p.window, cutoff);
    PruneIsLive(t.log, cutoff, now);
    PruneIsSuffix(t.log, cutoff);
    PruneShortens(t.deque, cutoff);
    var log := Step(p, t, now).log;
    if p.Admits(t.deque, now) {
      PruneAppend(t.log, now, cutoff);
      AppendSpaced(p, t.log, now);
      AppendSorted(t.log, now);
    } else {
      assert Step(p, t, now).deque == Prune(t.log, cutoff);
    }
    PruneIsLive(log, cutoff, now);
  }

  lemma AppendSorted(log: seq<real>, now: real)
    requires Sorted(log) && forall i :: 0 <= i < |log| ==> log[i] <= now
    ensures Sorted(log + [now]) && forall i :: 0 <= i < |log + [now]| ==> (log + [now])[i] <= now
  {
  }

  /** With fewer than `limit` live entries, one more keeps the log spaced. */
  lemma AppendSpaced(p: Policy, log: seq<real>, now: real)
    requires p.Valid() && Spaced(p, log) && |Prune(log, now - p.window)| < p.limit
    requires |Prune(log, now - p.window)| <= |log|
    ensures Spaced(p, log + [now])
  {
    var i := |log| - p.limit;
    if i >= 0 {
      OldEntriesLeave(log, now - p.window, i);
    }
  }

  lemma {:induction false} OldEntriesLeave(s: seq<real>, cutoff: real, i: nat)
    requires |Prune(s, cutoff)| <= |s| && i < |s| - |Prune(s, cutoff)|
    ensures s[i] <= cutoff
  {
    if i > 0 {
      PruneShortens(s[1..], cutoff);
      OldEntriesLeave(s[1..], cutoff, i - 1);
    }
  }

  lemma {:induction false} RunMirrors(p: Policy, times: seq<real>)
    requires p.Valid() && Sorted(times) && times != []
    ensures Mirrors(p, RunKey(p, times), times[|times| - 1])
  {
    var n := |times| - 1;
    if n == 0 {
      assert RunKey(p, times[..n]) == START;
      StepMirrors(p, START, times[n], times[n]);
    } else {
      RunMirrors(p, times[..n]);
      StepMirrors(p, RunKey(p, times[..n]), times[n - 1], times[n]);
    }
  }

  /** After every check the deque is the live part of the full admission log, and the check admitted
      its request exactly when fewer than `limit` earlier admissions were live. */
  lemma LimiterRefinesLog(p: Policy, times: seq<real>)
    requires p.Valid() && Sorted(times) && times != []
    ensures var n := |times| - 1;
            var now := times[n];
            var earlier, t := RunKey(p, times[..n]).log, RunKey(p, times);
            && t.deque == Live(t.log, now - p.window, now)
            && (t.admitted[n] <==> |Live(earlier, now - p.window, now)| < p.limit)
            && t.log == if t.admitted[n] then earlier + [now] else earlier
  {
    var n := |times| - 1;
    PrefixMirrors(p, times);
    StepRefines(p, RunKey(p, times[..n]), if n == 0 then times[0] else times[n - 1], times[n]);
  }

  lemma PrefixMirrors(p: Policy, times: seq<real>)
    requires p.Valid() && Sorted(times) && times != []
    ensures var n := |times| - 1; Mirrors(p, RunKey(p, times[..n]), if n == 0 then times[0] else times[n - 1])
  {
    var n := |times| - 1;
    if n == 0 {
      assert RunKey(p, times[..n]) == START;
    } else {
      RunMirrors(p, times[..n]);
    }
  }

  lemma StepRefines(p: Policy, t: Track, before: real, now: real)
    requires p.Valid() && Mirrors(p, t, before) && before <= now
    ensures var r := Step(p, t, now);
            var ok := r.admitted[|t.admitted|];
            && r.deque == Live(r.log, now - p.window, now)
            && (ok <==> |Live(t.log, now - p.window, now)| < p.limit)
            && r.log == if ok then t.log + [now] else t.log
  {
    StepMirrors(p, t, before, now);
  }

  // ----- no window holds more than `limit` admissions -----

  /** How many entries the window that opens after `lo` holds. */
  function InWindow(p: Policy, s: seq<real>, lo: real): nat {
    |Live(s, lo, lo + p.window)|
  }

  ghost predicate WithinLimit(p: Policy, s: seq<real>)
    requires p.Valid()
  {
    forall lo: real :: InWindow(p, s, lo) <= p.limit
  }

  lemma {:induction false} LiveIsPrefix(s: seq<real>, lo: real, hi: real)
    requires Sorted(s) && forall i :: 0 <= i < |s| ==> lo < s[i]
    ensures |Live(s, lo, hi)| <= |s| && Live(s, lo, hi) == s[..|Live(s, lo, hi)|]
    ensures forall i :: 0 <= i < |Live(s, lo, hi)| ==> s[i] <= hi
  {
    if s != [] {
      LiveIsPrefix(s[1..], lo, hi);
      var n := |Live(s[1..], lo, hi)|;
      if s[0] <= hi {
        assert s[..n + 1] == [s[0]] + s[1..][..n];
      } else {
        assert Live(s, lo, hi) == Live(s[1..], lo, hi);
      }
    }
  }

  lemma {:induction false} LiveOfPruned(s: seq<real>, lo: real, hi: real)
    ensures Live(Prune(s, lo), lo, hi) == Live(s, lo, hi)
  {
    if s != [] && s[0] <= lo {
      LiveOfPruned(s[1..], lo, hi);
    }
  }

  lemma {:induction false} LiveCountsRun(s: seq<real>, lo: real, hi: real, i: nat, j: nat)
    requires i <= j <= |s| && forall k :: i <= k < j ==> lo < s[k] <= hi
    ensures |Live(s, lo, hi)| >= j - i
  {
    if i > 0 {
      LiveCountsRun(s[1..], lo, hi, i - 1, j - 1);
    } else if j > 0 {
      LiveCountsRun(s[1..], lo, hi, 0, j - 1);
    }
  }

  lemma SpacedHoldsWindow(p: Policy, s: seq<real>, lo: real)
    requires p.Valid() && Sorted(s) && Spaced(p, s)
    ensures InWindow(p, s, lo) <= p.limit
  {
    PruneIsSuffix(s, lo);
    LiveOfPruned(s, lo, lo + p.window);
    SuffixSpaced(p, s, |s| - |Prune(s, lo)|);
    RecentHoldsWindow(p, Prune(s, lo), lo);
  }

  lemma SuffixSpaced(p: Policy, s: seq<real>, k: nat)
    requires p.Valid() && Sorted(s) && Spaced(p, s) && k <= |s|
    ensures Sorted(s[k..]) && Spaced(p, s[k..])
  {
    forall i, j | 0 <= i && i + p.limit == j < |s[k..]| ensures s[k..][j] - s[k..][i] >= p.window {
      assert s[k + j] - s[k + i] >= p.window;
    }
  }

  lemma RecentHoldsWindow(p: Policy, b: seq<real>, lo: real)
    requires p.Valid() && Sorted(b) && Spaced(p, b) && forall i :: 0 <= i < |b| ==> lo < b[i]
    ensures InWindow(p, b, lo) <= p.limit
  {
    LiveIsPrefix(b, lo, lo + p.window);
    if |b| > p.limit {
      assert b[p.limit] - b[0] >= p.window;
      assert b[p.limit] > lo + p.window;
    }
  }

  /** Spacing entries `limit` apart by a window is the same as keeping every window within the limit. */
  lemma SpacedIffWithinLimit(p: Policy, s: seq<real>)
    requires p.Valid() && Sorted(s)
    ensures Spaced(p, s) <==> WithinLimit(p, s)
  {
    if Spaced(p, s) {
      forall lo: real ensures InWindow(p, s, lo) <= p.limit {
        SpacedHoldsWindow(p, s, lo);
      }
    }
    if WithinLimit(p, s) {
      forall i, j | 0 <= i && i + p.limit == j < |s| ensures s[j] - s[i] >= p.window {
        var lo := s[j] - p.window;
        assert InWindow(p, s, lo) <= p.limit;
        if lo < s[i] {
          LiveCountsRun(s, lo, lo + p.window, i, j + 1);
        }
      }
    }
  }

  /** Over a whole run, no window of the configured length holds more than `limit` admissions. */
  lemma RunWithinLimit(p: Policy, times: seq<real>)
    requires p.Valid() && Sorted(times)
    ensures var log := RunKey(p, times).log; Sorted(log) && Spaced(p, log) && WithinLimit(p, log)
  {
    if times != [] {
      RunMirrors(p, times);
    }
    SpacedIffWithinLimit(p, RunKey(p, times).log);
  }

  // ----- optimality -----

  /** The requests picked by an arbitrary selection rule. */
  function Chosen(times: seq<real>, pick: seq<bool>): seq<real>
    requires |times| == |pick|
  {
    if times == [] then []
    else
      var n := |times| - 1;
      Chosen(times[..n], pick[..n]) + if pick[n] then [times[n]] else []
  }

  lemma {:induction false} ChosenSorted(times: seq<real>, pick: seq<bool>, now: real)
    requires |times| == |pick| && Sorted(times) && forall i :: 0 <= i < |times| ==> times[i] <= now
    ensures Sorted(Chosen(times, pick)) && forall i :: 0 <= i < |Chosen(times, pick)| ==> Chosen(times, pick)[i] <= now
  {
    if times != [] {
      var n := |times| - 1;
      ChosenSorted(times[..n], pick[..n], times[n]);
    }
  }

  lemma {:induction false} ChosenPrefix(times: seq<real>, pick: seq<bool>, n: nat)
    requires |times| == |pick| && n <= |times|
    ensures Chosen(times[..n], pick[..n]) <= Chosen(times, pick)
    decreases |times|
  {
    if n == |times| {
      assert times[..n] == times && pick[..n] == pick;
    } else {
      var m := |times| - 1;
      ChosenPrefix(times[..m], pick[..m], n);
      assert times[..m][..n] == times[..n] && pick[..m][..n] == pick[..n];
    }
  }

  /** If a spaced selection of the same size can take `now`, the log that runs ahead of it admits `now`. */
  lemma SpacedAdmits(p: Policy, log: seq<real>, chosen: seq<real>, now: real)
    requires p.Valid() && Sorted(log) && forall i :: 0 <= i < |log| ==> log[i] <= now
    requires Spaced(p, chosen + [now]) && |chosen| == |log| && forall i :: 0 <= i < |log| ==> log[i] <= chosen[i]
    ensures |Live(log, now - p.window, now)| < p.limit
  {
    LiveImpliesRecent(p, log, now);
    if |log| >= p.limit {
      var k := |log| - p.limit;
      assert (chosen + [now])[k + p.limit] == now && (chosen + [now])[k] == chosen[k];
    }
  }

  /** Entry by entry, `log` is at least as long and never later. */
  ghost predicate Ahead(log: seq<real>, chosen: seq<real>) {
    |chosen| <= |log| && forall i :: 0 <= i < |chosen| ==> log[i] <= chosen[i]
  }

  lemma {:induction false} LogSorted(p: Policy, times: seq<real>, now: real)
    requires p.Valid() && Sorted(times) && forall i :: 0 <= i < |times| ==> times[i] <= now
    ensures Sorted(RunKey(p, times).log)
    ensures forall i :: 0 <= i < |RunKey(p, times).log| ==> RunKey(p, times).log[i] <= now
  {
    if times != [] {
      RunMirrors(p, times);
    }
  }

  /** The limiter's admissions run ahead of any spaced selection, one by one. */
  lemma {:induction false} GreedyStaysAhead(p: Policy, times: seq<real>, pick: seq<bool>)
    requires p.Valid() && Sorted(times) && |times| == |pick| && Spaced(p, Chosen(times, pick))
    ensures Ahead(RunKey(p, times).log, Chosen(times, pick))
  {
    if times != [] {
      var n := |times| - 1;
      var now := times[n];
      var chosen, before := Chosen(times[..n], pick[..n]), RunKey(p, times[..n]).log;
      assert Spaced(p, chosen) by {
        assert forall i :: 0 <= i < |chosen| ==> Chosen(times, pick)[i] == chosen[i];
      }
      GreedyStaysAhead(p, times[..n], pick[..n]);
      LogSorted(p, times[..n], now);
      if pick[n] && |chosen| == |before| {
        SpacedAdmits(p, before, chosen, now);
      }
      AheadExtends(before, chosen, RunKey(p, times).log, Chosen(times, pick), now) by {
        LimiterRefinesLog(p, times);
      }
    }
  }

  /** Appending `now` to the selection keeps it behind, if the log takes `now` when both are equally long. */
  lemma AheadExtends(log: seq<real>, chosen: seq<real>, log': seq<real>, chosen': seq<real>, now: real)
    requires Ahead(log, chosen) && forall i :: 0 <= i < |log| ==> log[i] <= now
    requires log' == log || log' == log + [now]
    requires chosen' == chosen || chosen' == chosen + [now]
    requires |chosen'| <= |log'|
    ensures Ahead(log', chosen')
  {
  }

  /** If `limit` entries of a sorted log are live, the entry `limit` from the end is one of them. */
  lemma LiveImpliesRecent(p: Policy, log: seq<real>, now: real)
    requires p.Valid() && Sorted(log) && forall i :: 0 <= i < |log| ==> log[i] <= now
    ensures |Live(log, now - p.window, now)| >= p.limit ==>
              |log| >= p.limit && log[|log| - p.limit] > now - p.window
  {
    PruneIsLive(log, now - p.window, now);
    PruneIsSuffix(log, now - p.window);
    var b := Prune(log, now - p.window);
    if |b| >= p.limit {
      assert b[|b| - p.limit] == log[|log| - p.limit];
    }
  }

  /** The limiter is optimal: no selection that respects every window admits more on any prefix. */
  lemma LimiterOptimal(p: Policy, times: seq<real>, pick: seq<bool>, n: nat)
    requires p.Valid() && Sorted(times) && |times| == |pick| && n <= |times|
    requires WithinLimit(p, Chosen(times, pick))
    ensures |Chosen(times[..n], pick[..n])| <= |RunKey(p, times[..n]).log|
    ensures WithinLimit(p, RunKey(p, times[..n]).log)
  {
    if times != [] {
      ChosenSorted(times, pick, times[|times| - 1]);
    }
    SpacedIffWithinLimit(p, Chosen(times, pick));
    ChosenPrefix(times, pick, n);
    assert Spaced(p, Chosen(times[..n], pick[..n])) by {
      assert forall i :: 0 <= i < |Chosen(times[..n], pick[..n])| ==>
          Chosen(times[..n], pick[..n])[i] == Chosen(times, pick)[i];
    }
    GreedyStaysAhead(p, times[..n], pick[..n]);
    RunWithinLimit(p, times[..n]);
  }

  // ----- the wait after a rejection -----

  /** Whether a check `k` seconds after `now` is admitted. */
  predicate AdmitsAfter(p: Policy, deque: seq<real>, now: real, k: int) {
    p.Admits(deque, now + k as real)
  }

  /** A full deque of live entries: a later check succeeds exactly from the moment the oldest entry
      leaves the window, and the announced wait is the least whole number of seconds to that moment. */
  lemma RejectedWait(p: Policy, deque: seq<real>, now: real)
    requires p.Valid() && |deque| == p.limit && now - p.window < deque[0]
    ensures p.Wait(deque, now) == Ceil(deque[0] + p.window - now)
    ensures forall later: real :: p.Admits(deque, later) <==> deque[0] + p.window <= later
    ensures forall k: int :: AdmitsAfter(p, deque, now, k) <==> p.Wait(deque, now) <= k
  {
    forall later: real ensures p.Admits(deque, later) <==> deque[0] + p.window <= later {
      PruneShortens(deque, later - p.window);
    }
    var wait := Ceil(deque[0] + p.window - now);
    forall k: int ensures AdmitsAfter(p, deque, now, k) <==> wait <= k {
      CeilIsLeast(deque[0] + p.window - now, k);
      var later := now + k as real;
      assert p.Admits(deque, later) <==> deque[0] + p.window <= later;
    }
  }

  lemma CeilIsLeast(x: real, k: int)
    ensures x <= k as real <==> Ceil(x) <= k
  {
  }

  /** The last check of a run was refused: its `retryAfter` is exact and `max(1, ...)` did not change it. */
  lemma RetryAfterIsExact(p: Policy, times: seq<real>)
    requires p.Valid() && Sorted(times) && times != []
    requires !RunKey(p, times).admitted[|times| - 1]
    ensures var n := |times| - 1;
            var before, deque, now := RunKey(p, times[..n]).deque, RunKey(p, times).deque, times[n];
            var wait := p.Decide(before, now).retryAfter;
            && deque != [] && wait == Ceil(deque[0] + p.window - now)
            && (forall later: real :: p.Admits(deque, later) <==> deque[0] + p.window <= later)
            && (forall k: int :: AdmitsAfter(p, deque, now, k) <==> wait <= k)
  {
    var n := |times| - 1;
    var before, now := RunKey(p, times[..n]), times[n];
    RejectedIsFull(p, times);
    RejectedWait(p, RunKey(p, times).deque, now);
    assert RunKey(p, times).deque == p.Next(before.deque, now);
  }

  lemma RejectedIsFull(p: Policy, times: seq<real>)
    requires p.Valid() && Sorted(times) && times != []
    requires !RunKey(p, times).admitted[|times| - 1]
    ensures var deque, now := RunKey(p, times).deque, times[|times| - 1];
            |deque| == p.limit && now - p.window < deque[0]
  {
    var n := |times| - 1;
    var t, now := RunKey(p, times), times[n];
    LimiterRefinesLog(p, times);
    RunMirrors(p, times);
    PruneIsSuffix(t.log, now - p.window);
    assert t.log == RunKey(p, times[..n]).log;
  }

  /** Until then every check is refused, however many are made: refused checks do not extend the wait. */
  lemma {:induction false} RefusedUntilExpiry(p: Policy, times: seq<real>, more: seq<real>)
    requires p.Valid() && times != [] && Sorted(times) && !RunKey(p, times).admitted[|times| - 1]
    requires forall i :: 0 <= i < |more| ==> more[i] < RunKey(p, times).deque[0] + p.window
    ensures RunKey(p, times + more).deque == RunKey(p, times).deque
    ensures RunKey(p, times + more).log == RunKey(p, times).log
    ensures forall i :: |times| <= i < |times + more| ==> !RunKey(p, times + more).admitted[i]
  {
    if more == [] {
      assert times + more == times;
    } else {
      var n := |more| - 1;
      RefusedUntilExpiry(p, times, more[..n]);
      RetryAfterIsExact(p, times);
      var deque := RunKey(p, times).deque;
      PruneShortens(deque, more[n] - p.window);
      assert (times + more)[..|times + more| - 1] == times + more[..n];
      assert !p.Admits(deque, more[n]);
    }
  }

  // ----- keys do not influence each other -----

  datatype Request = Request(key: string, now: real)

  function DequeOf(deques: map<string, seq<real>>, key: string): seq<real> {
    if key in deques then deques[key] else []
  }

  /** The deques of all keys after a run over many keys, and which checks were admitted. */
  function RunAll(p: Policy, rs: seq<Request>): (r: (map<string, seq<real>>, seq<bool>))
    ensures |r.1| == |rs|
  {
    if rs == [] then (map[], [])
    else
      var r := rs[|rs| - 1];
      var before := RunAll(p, rs[..|rs| - 1]);
      var deque := DequeOf(before.0, r.key);
      (before.0[r.key := p.Next(deque, r.now)], before.1 + [p.Admits(deque, r.now)])
  }

  function TimesOf(rs: seq<Request>, key: string): seq<real> {
    if rs == [] then []
    else
      var r := rs[|rs| - 1];
      TimesOf(rs[..|rs| - 1], key) + if r.key == key then [r.now] else []
  }

  /** Each key is served as if it were alone: its deque and its decisions depend on its own requests only. */
  lemma {:induction false} KeysAreIndependent(p: Policy, rs: seq<Request>, key: string)
    ensures DequeOf(RunAll(p, rs).0, key) == RunKey(p, TimesOf(rs, key)).deque
    ensures rs != [] && rs[|rs| - 1].key == key ==>
              TimesOf(rs, key) != [] &&
              RunAll(p, rs).1[|rs| - 1] == RunKey(p, TimesOf(rs, key)).admitted[|TimesOf(rs, key)| - 1]
  {
    if rs != [] {
      var n := |rs| - 1;
      KeysAreIndependent(p, rs[..n], key);
      var ts := TimesOf(rs[..n], key);
      if rs[n].key == key {
        assert (ts + [rs[n].now])[..|ts|] == ts;
      } else {
        assert TimesOf(rs, key) == ts;
      }
    }
  }

  ghost predicate InOrder(rs: seq<Request>) {
    forall i, j :: 0 <= i < j < |rs| ==> rs[i].now <= rs[j].now
  }

  lemma {:induction false} TimesSorted(rs: seq<Request>, key: string, now: real)
    requires InOrder(rs) && forall i :: 0 <= i < |rs| ==> rs[i].now <= now
    ensures Sorted(TimesOf(rs, key)) && forall i :: 0 <= i < |TimesOf(rs, key)| ==> TimesOf(rs, key)[i] <= now
  {
    if rs != [] {
      TimesSorted(rs[..|rs| - 1], key, rs[|rs| - 1].now);
    }
  }

  /** In a run over any mix of keys, every key's admissions keep every window within the limit. */
  lemma EveryKeyWithinLimit(p: Policy, rs: seq<Request>, key: string)
    requires p.Valid() && InOrder(rs)
    ensures WithinLimit(p, RunKey(p, TimesOf(rs, key)).log)
    ensures DequeOf(RunAll(p, rs).0, key) == RunKey(p, TimesOf(rs, key)).deque
  {
    TimesSorted(rs, key, if rs == [] then 0.0 else rs[|rs| - 1].now);
    RunWithinLimit(p, TimesOf(rs, key));
    KeysAreIndependent(p, rs, key);
  }

  // ----- what the caller is told -----

  /** The decision on a check at `now` after a log of admissions: admitted iff fewer than `limit` of them are live.
      A caller let in learns how many more the window takes; one turned away learns, as its wait, the whole seconds
      until the oldest live admission leaves the window. Both learn when the oldest one, their own included, does. */
  ghost predicate Reports(p: Policy, log: seq<real>, now: real, d: Decision) {
    var live := Live(log, now - p.window, now);
    && d.limit == p.limit
    && (d.allowed <==> |live| < p.limit)
    && (d.allowed ==>
          && d.remaining == p.limit - |live| - 1 && d.retryAfter == 0
          && d.resetAfter == Ceil((live + [now])[0] + p.window - now))
    && (!d.allowed ==>
          && d.remaining == 0 && live != []
          && d.retryAfter == d.resetAfter == Ceil(live[0] + p.window - now))
  }

  /** After any run, every decision reports the admission log truly. */
  lemma DecisionIsTrue(p: Policy, times: seq<real>, now: real)
    requires p.Valid() && Sorted(times) && (times != [] ==> times[|times| - 1] <= now)
    ensures Reports(p, RunKey(p, times).log, now, p.Decide(RunKey(p, times).deque, now))
  {
    if times != [] {
      RunMirrors(p, times);
    }
    StepReports(p, RunKey(p, times), if times == [] then now else times[|times| - 1], now);
  }

  lemma StepReports(p: Policy, t: Track, before: real, now: real)
    requires p.Valid() && Mirrors(p, t, before) && before <= now
    ensures Reports(p, t.log, now, p.Decide(t.deque, now))
  {
    var cutoff := now - p.window;
    var live := Live(t.log, cutoff, now);
    PruneTwice(t.log, before - p.window, cutoff);
    PruneIsLive(t.log, cutoff, now);
    PruneIsSuffix(t.log, cutoff);
    PruneShortens(t.deque, cutoff);
    LiveReports(p, t.log, t.deque, now);
  }

  lemma LiveReports(p: Policy, log: seq<real>, deque: seq<real>, now: real)
    requires p.Valid() && Prune(deque, now - p.window) == Live(log, now - p.window, now)
    requires |Live(log, now - p.window, now)| <= p.limit
    requires Live(log, now - p.window, now) != [] ==> now - p.window < Live(log, now - p.window, now)[0]
    ensures Reports(p, log, now, p.Decide(deque, now))
  {
    var live := Live(log, now - p.window, now);
    WaitIsCeil(p, live, now);
    WaitIsCeil(p, live + [now], now);
    assert live + [] == live;
  }

  /** The wait on live entries is at least one second without being made so. */
  lemma WaitIsCeil(p: Policy, live: seq<real>, now: real)
    requires live != [] ==> now - p.window < live[0]
    ensures live != [] ==> p.Wait(live, now) == Ceil(live[0] + p.window - now)
  {
  }
}
