/**
 * `printAndCollectStats`: one window of polling. Every poll becomes a snapshot;
 * the window ends at the first poll past its end time while no backlog drain is
 * pending, and then the whole-run latencies are fetched with a bounded retry.
 */
module Stats {
  import opened Wrappers
  import opened Latency
  import opened Commands
  import opened Backlog

  /** One poll: the period's statistics, the clock reading, and whether a backlog drain was pending when the flag was read. */
  datatype Poll = Poll(stats: PeriodStats, now: int, drainPending: bool)

  /** `testEndTime`: a clock reading, or `Long.MAX_VALUE` (never reached) for a window of no positive length. */
  datatype Deadline = At(nanos: int) | Never

  const NanosPerMinute: int := 60 * 1000000000

  function TestEndTime(startTime: int, durationMinutes: int): Deadline {
    if durationMinutes > 0 then At(startTime + durationMinutes * NanosPerMinute) else Never
  }

  predicate Reached(now: int, deadline: Deadline) {
    deadline.At? && now >= deadline.nanos
  }

  /** The loop's exit test. */
  function WindowEnds(deadline: Deadline): Poll -> bool {
    (p: Poll) => Reached(p.now, deadline) && !p.drainPending
  }

  /** One `SnapshotResult` / `SnapshotMetric`: rates over the period, the backlog, and the period's latencies. */
  datatype Snapshot = Snapshot(timeSinceTestStartInSeconds: int, publishRate: real, consumeRate: real,
                               publishErrorRate: real, backlog: int, latency: map<Field, Option<real>>)

  /** A fresh `LatencyMetric` after `populatePublishLatency(publish)` and `populateE2ELatency(endToEnd)`. */
  function Summarised(publish: HistogramSummary, endToEnd: HistogramSummary): (m: map<Field, Option<real>>)
    ensures Complete(m)
  {
    map f: Field | FieldIndex(f) < FieldCount :: SummaryValue(f, publish, endToEnd)
  }

  /** The figure a summarised field holds: its histogram's value, in milliseconds. */
  function SummaryValue(f: Field, publish: HistogramSummary, endToEnd: HistogramSummary): Option<real> {
    Some(HistogramFigure(f, if IsPublishField(f) then publish else endToEnd) / 1000.0)
  }

  /** A complete metric holding the scaled histogram figure in every field is the summary of those histograms. */
  lemma SummarisedPointwise(m: map<Field, Option<real>>, publish: HistogramSummary, endToEnd: HistogramSummary)
    requires Complete(m)
    requires forall f :: m[f] == Some(HistogramFigure(f, if IsPublishField(f) then publish else endToEnd) / 1000.0)
    ensures m == Summarised(publish, endToEnd)
  {
    var s := Summarised(publish, endToEnd);
    forall f ensures f in s && s[f] == m[f] {
      assert FieldIndex(f) < FieldCount;
      assert m[f] == SummaryValue(f, publish, endToEnd);
    }
    assert m.Keys == s.Keys;
  }

  /** The snapshot of poll `p`, whose period began at clock reading `previous`. */
  function SnapshotOf(subscriptions: int, startTime: int, previous: int, p: Poll): Snapshot
    requires previous < p.now
  {
    var elapsed := (p.now - previous) as real / 1000000000.0;
    Snapshot((p.now - startTime) / 1000000000,
             p.stats.messagesSent as real / elapsed,
             p.stats.messagesReceived as real / elapsed,
             p.stats.messageSendErrors as real / elapsed,
             subscriptions * p.stats.totalMessagesSent - p.stats.totalMessagesReceived,
             Summarised(p.stats.publishLatency, p.stats.endToEndLatency))
  }

  /** The clock reading that began poll `i`'s period. */
  function PreviousTime(oldTime: int, polls: seq<Poll>, i: nat): int
    requires i <= |polls|
  {
    if i == 0 then oldTime else polls[i - 1].now
  }

  /** The clock moves forward: each poll follows a ten-second sleep. */
  predicate ClockAdvances(startTime: int, oldTime: int, polls: seq<Poll>) {
    startTime <= oldTime && forall i {:trigger PreviousTime(oldTime, polls, i)} :: 0 <= i < |polls| ==> PreviousTime(oldTime, polls, i) < polls[i].now
  }

  /** The snapshots of the first `n` polls: exactly one per poll, in poll order. */
  function Snapshots(subscriptions: int, startTime: int, oldTime: int, polls: seq<Poll>, n: nat): (r: seq<Snapshot>)
    requires n <= |polls| && ClockAdvances(startTime, oldTime, polls)
    ensures |r| == n
  {
    if n == 0 then [] else Snapshots(subscriptions, startTime, oldTime, polls, n - 1) + [SnapshotOf(subscriptions, startTime, PreviousTime(oldTime, polls, n - 1), polls[n - 1])]
  }

  /** Snapshot `i` of the first `n` is poll `i`'s, over the period since the poll before it. */
  lemma SnapshotsAt(subscriptions: int, startTime: int, oldTime: int, polls: seq<Poll>, n: nat)
    requires n <= |polls| && ClockAdvances(startTime, oldTime, polls)
    ensures forall i :: 0 <= i < n ==>
              Snapshots(subscriptions, startTime, oldTime, polls, n)[i]
              == SnapshotOf(subscriptions, startTime, PreviousTime(oldTime, polls, i), polls[i])
  {
    forall i | 0 <= i < n
      ensures Snapshots(subscriptions, startTime, oldTime, polls, n)[i]
              == SnapshotOf(subscriptions, startTime, PreviousTime(oldTime, polls, i), polls[i])
    {
      SnapshotAt(subscriptions, startTime, oldTime, polls, n, i);
    }
  }

  lemma {:induction false} SnapshotAt(subscriptions: int, startTime: int, oldTime: int, polls: seq<Poll>, n: nat, i: nat)
    requires i < n <= |polls| && ClockAdvances(startTime, oldTime, polls)
    ensures Snapshots(subscriptions, startTime, oldTime, polls, n)[i]
            == SnapshotOf(subscriptions, startTime, PreviousTime(oldTime, polls, i), polls[i])
  {
    var prev := Snapshots(subscriptions, startTime, oldTime, polls, n - 1);
    assert Snapshots(subscriptions, startTime, oldTime, polls, n)
           == prev + [SnapshotOf(subscriptions, startTime, PreviousTime(oldTime, polls, n - 1), polls[n - 1])];
    if i < n - 1 {
      SnapshotAt(subscriptions, startTime, oldTime, polls, n - 1, i);
    }
  }

  /** How many polls the window takes: up to the ending poll, or all of them if the window is interrupted first. */
  function PollCount(polls: seq<Poll>, deadline: Deadline): nat {
    match FirstWhere(polls, WindowEnds(deadline))
    case Some(i) => i + 1
    case None => |polls|
  }

  const MaxFetchAttempts: nat := 10

  /** The first attempt in `a .. limit - 1` whose `getCumulativeLatencies` answered. */
  function FirstFetched(fetch: nat -> Option<CumulativeLatencies>, a: nat, limit: nat): (r: Option<nat>)
    ensures r.Some? ==> a <= r.value < limit && fetch(r.value).Some? && forall b :: a <= b < r.value ==> fetch(b).None?
    ensures r.None? ==> forall b :: a <= b < limit ==> fetch(b).None?
    decreases limit - a
  {
    if a >= limit then None
    else if fetch(a).Some? then Some(a)
    else FirstFetched(fetch, a + 1, limit)
  }

  /** A retry loop that saw attempts `0 .. b - 1` fail and then stopped at `b` stopped where `FirstFetched` says. */
  lemma FirstFetchedAt(fetch: nat -> Option<CumulativeLatencies>, b: nat)
    requires b <= MaxFetchAttempts && forall c :: 0 <= c < b ==> fetch(c).None?
    requires b < MaxFetchAttempts ==> fetch(b).Some?
    ensures FirstFetched(fetch, 0, MaxFetchAttempts) == if b < MaxFetchAttempts then Some(b) else None
  {
    var r := FirstFetched(fetch, 0, MaxFetchAttempts);
    if r.Some? {
      assert r.value == b;
    }
  }

  /**
   * A window's result: the run ID, its length, the snapshots, the aggregate
   * latencies when the window ended (none when it was interrupted), and the
   * snapshot counts the moving-average hook saw.
   */
  datatype TestResult = TestResult(runId: string, testRunDurationInMinutes: int, snapshots: seq<Snapshot>,
                                   aggregate: Option<map<Field, Option<real>>>, movingAverageCounts: seq<nat>)

  datatype StatsError = AggregateLatenciesUnavailable   // "Failed to collect aggregate latencies"

  /** The counts passed to `calculateMovingAverage`: the snapshot count before each append. */
  function HookCounts(hooked: bool, n: nat): (r: seq<nat>)
    ensures hooked ==> |r| == n && forall i :: 0 <= i < n ==> r[i] == i
    ensures !hooked ==> r == []
  {
    if !hooked || n == 0 then [] else HookCounts(hooked, n - 1) + [n - 1]
  }

  /** The inputs of one window. */
  datatype Window = Window(durationMinutes: int, startTime: int, oldTime: int, polls: seq<Poll>,
                           fetch: nat -> Option<CumulativeLatencies>)

  predicate WellTimed(w: Window) {
    ClockAdvances(w.startTime, w.oldTime, w.polls)
  }

  /** What `printAndCollectStats` returns or throws for one window. */
  function WindowResult(runId: string, subscriptions: int, hooked: bool, w: Window): Result<TestResult, StatsError>
    requires WellTimed(w)
  {
    var deadline := TestEndTime(w.startTime, w.durationMinutes);
    var n := PollCount(w.polls, deadline);
    var base := TestResult(runId, w.durationMinutes, Snapshots(subscriptions, w.startTime, w.oldTime, w.polls, n), None,
                           HookCounts(hooked, n));
    if FirstWhere(w.polls, WindowEnds(deadline)).None? then Success(base)
    else match FirstFetched(w.fetch, 0, MaxFetchAttempts)
      case None => Failure(AggregateLatenciesUnavailable)
      case Some(a) =>
        var agg := w.fetch(a).value;
        Success(base.(aggregate := Some(Summarised(agg.publishLatency, agg.endToEndLatency))))
  }

  /** How many times `getCumulativeLatencies` is called: none for an interrupted window, at most 10 otherwise. */
  function FetchAttempts(w: Window): (n: nat)
    ensures n <= MaxFetchAttempts
  {
    if FirstWhere(w.polls, WindowEnds(TestEndTime(w.startTime, w.durationMinutes))).None? then 0
    else match FirstFetched(w.fetch, 0, MaxFetchAttempts)
      case None => MaxFetchAttempts
      case Some(a) => a + 1
  }

  /** A window none of whose polls ends it was interrupted: it returns every poll's snapshot and fetches nothing. */
  lemma InterruptedWindow(runId: string, subscriptions: int, hooked: bool, w: Window)
    requires WellTimed(w)
    requires FirstWhere(w.polls, WindowEnds(TestEndTime(w.startTime, w.durationMinutes))).None?
    ensures WindowResult(runId, subscriptions, hooked, w)
            == Success(TestResult(runId, w.durationMinutes, Snapshots(subscriptions, w.startTime, w.oldTime, w.polls, |w.polls|),
                                  None, HookCounts(hooked, |w.polls|)))
    ensures FetchAttempts(w) == 0
  {
  }

  /** Whether some poll is past the end time with no drain pending. */
  predicate Ends(w: Window) {
    exists i :: 0 <= i < |w.polls| && Reached(w.polls[i].now, TestEndTime(w.startTime, w.durationMinutes)) && !w.polls[i].drainPending
  }

  lemma EndsAt(w: Window)
    ensures var stop := FirstWhere(w.polls, WindowEnds(TestEndTime(w.startTime, w.durationMinutes)));
            stop.Some? <==> Ends(w)
  {
    var deadline := TestEndTime(w.startTime, w.durationMinutes);
    var stop := FirstWhere(w.polls, WindowEnds(deadline));
    if stop.Some? {
      assert WindowEnds(deadline)(w.polls[stop.value]);
    } else {
      assert forall i :: 0 <= i < |w.polls| ==> !WindowEnds(deadline)(w.polls[i]);
    }
  }

  /**
   * The call fails exactly when the window ended and all ten fetch attempts
   * failed; otherwise the aggregate is present exactly when the window ended, and
   * the result carries the run ID and the window's length.
   */
  lemma WindowFailsIff(runId: string, subscriptions: int, hooked: bool, w: Window)
    requires WellTimed(w)
    ensures var r := WindowResult(runId, subscriptions, hooked, w);
            && (r.Failure? <==> Ends(w) && forall a :: 0 <= a < MaxFetchAttempts ==> w.fetch(a).None?)
            && (r.Success? ==> (r.value.aggregate.Some? <==> Ends(w)))
            && (r.Success? ==> r.value.runId == runId && r.value.testRunDurationInMinutes == w.durationMinutes)
  {
    EndsAt(w);
    var fetched := FirstFetched(w.fetch, 0, MaxFetchAttempts);
  }

  /** Every snapshot records the backlog `subscriptionsPerTopic × totalSent − totalReceived` of its poll. */
  lemma SnapshotBacklogs(subscriptions: int, startTime: int, oldTime: int, polls: seq<Poll>, n: nat)
    requires n <= |polls| && ClockAdvances(startTime, oldTime, polls)
    ensures var snaps := Snapshots(subscriptions, startTime, oldTime, polls, n);
            forall i :: 0 <= i < n ==>
              snaps[i].backlog == subscriptions * polls[i].stats.totalMessagesSent - polls[i].stats.totalMessagesReceived
  {
    var snaps := Snapshots(subscriptions, startTime, oldTime, polls, n);
    forall i | 0 <= i < n
      ensures snaps[i].backlog == subscriptions * polls[i].stats.totalMessagesSent - polls[i].stats.totalMessagesReceived
    {
      SnapshotAt(subscriptions, startTime, oldTime, polls, n, i);
    }
  }

  /** A window's snapshots are those of the polls it counts. */
  lemma ResultSnapshots(runId: string, subscriptions: int, hooked: bool, w: Window)
    requires WellTimed(w)
    ensures var n := PollCount(w.polls, TestEndTime(w.startTime, w.durationMinutes));
            var r := WindowResult(runId, subscriptions, hooked, w);
            r.Success? ==> r.value.snapshots == Snapshots(subscriptions, w.startTime, w.oldTime, w.polls, n)
  {
  }

  /**
   * The polls a window counts, one snapshot each: up to and including the first
   * past the end time with no drain pending, and no further; all of them when none
   * ends the window.
   */
  lemma PollCountBounds(w: Window)
    ensures var deadline := TestEndTime(w.startTime, w.durationMinutes);
            var n := PollCount(w.polls, deadline);
            && n <= |w.polls|
            && (forall i :: 0 <= i < n - 1 ==> !(Reached(w.polls[i].now, deadline) && !w.polls[i].drainPending))
            && (Ends(w) ==> 0 < n && Reached(w.polls[n - 1].now, deadline) && !w.polls[n - 1].drainPending)
            && (!Ends(w) ==> n == |w.polls|)
  {
    EndsAt(w);
    var deadline := TestEndTime(w.startTime, w.durationMinutes);
    var stop := FirstWhere(w.polls, WindowEnds(deadline));
    if stop.Some? {
      assert WindowEnds(deadline)(w.polls[stop.value]);
      forall i | 0 <= i < stop.value ensures !(Reached(w.polls[i].now, deadline) && !w.polls[i].drainPending) {
        assert !WindowEnds(deadline)(w.polls[i]);
      }
    }
  }

  /** A window of no positive length never ends by itself: it snapshots every poll and never fetches. */
  lemma UnboundedWindowNeverEnds(runId: string, subscriptions: int, hooked: bool, w: Window)
    requires WellTimed(w) && w.durationMinutes <= 0
    ensures WindowResult(runId, subscriptions, hooked, w).Success?
    ensures var r := WindowResult(runId, subscriptions, hooked, w).value;
            |r.snapshots| == |w.polls| && r.aggregate.None?
    ensures FetchAttempts(w) == 0
  {
  }
}
