/**
 * The generator's polling arithmetic: the backlog of a counter sample, the first
 * poll that ends a wait, and the backlog build and drain routines' outcome.
 */
module Backlog {
  import opened Wrappers
  import opened Counters
  import opened Commands

  /** Messages published but not yet received: every message goes to every subscription. */
  function BacklogOf(sample: CountersStats, subscriptions: int): int {
    subscriptions * sample.messagesSent - sample.messagesReceived
  }

  /** The index of the first element satisfying `p`: where a polling loop stops. */
  function FirstWhere<T>(s: seq<T>, p: T -> bool): (r: Option<nat>)
    ensures r.Some? ==> r.value < |s| && p(s[r.value]) && forall j :: 0 <= j < r.value ==> !p(s[j])
    ensures r.None? <==> forall j :: 0 <= j < |s| ==> !p(s[j])
  {
    if s == [] then None
    else if p(s[0]) then Some(0)
    else match FirstWhere(s[1..], p)
      case None => None
      case Some(i) => Some(i + 1)
  }

  /** A loop that tested `p` on `s[..j]` without success and then either succeeded at `j` or ran out stopped where `FirstWhere` says. */
  lemma FirstWhereAt<T>(s: seq<T>, p: T -> bool, j: nat)
    requires j <= |s| && forall m :: 0 <= m < j ==> !p(s[m])
    requires j < |s| ==> p(s[j])
    ensures FirstWhere(s, p) == if j < |s| then Some(j) else None
  {
    var r := FirstWhere(s, p);
    if r.Some? {
      assert r.value == j;
    }
  }

  /** `consumerBacklogSizeGB × 1024 × 1024 × 1024`. */
  function RequestedBacklogBytes(backlogGB: int): int {
    backlogGB * 1024 * 1024 * 1024
  }

  /** The build loop's exit test: the backlog, in bytes, reached the requested size. */
  function Built(subscriptions: int, messageSize: int, requested: int): CountersStats -> bool {
    (sample: CountersStats) => BacklogOf(sample, subscriptions) * messageSize >= requested
  }

  /** The drain loop's success test (`minBacklog` is 100). */
  function Drained(subscriptions: int): CountersStats -> bool {
    (sample: CountersStats) => BacklogOf(sample, subscriptions) <= 100
  }

  /** The stopwatch reading before a drain poll and the counters that poll read. */
  datatype DrainPoll = DrainPoll(elapsedMillis: int, sample: CountersStats)

  /** The drain loop stops at a poll whose stopwatch reading is over budget or whose backlog is drained. */
  function DrainExit(subscriptions: int, waitTimeInMs: int): DrainPoll -> bool {
    (poll: DrainPoll) => poll.elapsedMillis >= waitTimeInMs || Drained(subscriptions)(poll.sample)
  }

  /**
   * Whether `drainBacklog(waitTimeInMs)` completes (rather than times out): the
   * first poll that stops the loop is still within the budget. Running out of
   * polls counts as the time running out.
   */
  predicate DrainSucceeds(polls: seq<DrainPoll>, subscriptions: int, waitTimeInMs: int) {
    match FirstWhere(polls, DrainExit(subscriptions, waitTimeInMs))
    case Some(i) => polls[i].elapsedMillis < waitTimeInMs
    case None => false
  }

  /** Drain succeeds exactly when some poll within the budget, reached before the budget ran out, saw a backlog of at most 100. */
  lemma DrainSucceedsIff(polls: seq<DrainPoll>, subscriptions: int, waitTimeInMs: int)
    ensures DrainSucceeds(polls, subscriptions, waitTimeInMs) <==>
            exists i :: 0 <= i < |polls| && Drained(subscriptions)(polls[i].sample) &&
                        forall j :: 0 <= j <= i ==> polls[j].elapsedMillis < waitTimeInMs
  {
    var exit := DrainExit(subscriptions, waitTimeInMs);
    var r := FirstWhere(polls, exit);
    if DrainSucceeds(polls, subscriptions, waitTimeInMs) {
      var i := r.value;
      assert forall j :: 0 <= j < i ==> !exit(polls[j]);
      assert forall j :: 0 <= j <= i ==> polls[j].elapsedMillis < waitTimeInMs;
    } else {
      forall i | 0 <= i < |polls| && Drained(subscriptions)(polls[i].sample)
        ensures exists j :: 0 <= j <= i && polls[j].elapsedMillis >= waitTimeInMs
      {
        assert exit(polls[i]);
        var k := r.value;
        assert k <= i;
        assert polls[k].elapsedMillis >= waitTimeInMs;
      }
    }
  }

  /** The calls `drainBacklog` issues on either exit: `resumeProducers` once, last. */
  const DrainCalls: seq<WorkerCall> := [PauseProducers, ResumeConsumers, ResumeProducers]

  /** Whether the build loop reaches the requested backlog before its samples run out. */
  predicate BuildReached(samples: seq<CountersStats>, subscriptions: int, messageSize: int, backlogGB: int) {
    FirstWhere(samples, Built(subscriptions, messageSize, RequestedBacklogBytes(backlogGB))).Some?
  }

  /**
   * The calls `buildAndDrainBacklog` issues: consumers are paused, and the drain
   * runs only once the backlog has been built; a build interrupted before that
   * issues nothing more.
   */
  function BacklogCalls(samples: seq<CountersStats>, subscriptions: int, messageSize: int, backlogGB: int): seq<WorkerCall> {
    [PauseConsumers] + (if BuildReached(samples, subscriptions, messageSize, backlogGB) then DrainCalls else [])
  }

  /** `needToWaitForBacklogDraining` once `buildAndDrainBacklog` returns: set by the build, cleared only by a drain that completed. */
  predicate StillPending(samples: seq<CountersStats>, polls: seq<DrainPoll>, subscriptions: int, messageSize: int,
                         backlogGB: int, waitTimeInMs: int) {
    !(BuildReached(samples, subscriptions, messageSize, backlogGB) && DrainSucceeds(polls, subscriptions, waitTimeInMs))
  }

  /**
   * The build waits until the byte backlog reaches the target; consumers are paused
   * first; once built, producers are paused and consumers resumed, and
   * `resumeProducers` is issued exactly once, as the last call; without a build no
   * producer is touched.
   */
  lemma BacklogCallsShape(samples: seq<CountersStats>, subscriptions: int, messageSize: int, backlogGB: int)
    ensures var calls := BacklogCalls(samples, subscriptions, messageSize, backlogGB);
            var reached := BuildReached(samples, subscriptions, messageSize, backlogGB);
            && calls[0] == PauseConsumers
            && (reached <==> exists i :: 0 <= i < |samples| &&
                                         BacklogOf(samples[i], subscriptions) * messageSize >= backlogGB * 1024 * 1024 * 1024)
            && multiset(calls)[ResumeProducers] == (if reached then 1 else 0)
            && multiset(calls)[PauseProducers] == (if reached then 1 else 0)
            && (reached ==> calls[|calls| - 1] == ResumeProducers && calls[1] == PauseProducers && calls[2] == ResumeConsumers)
  {
    var built := Built(subscriptions, messageSize, RequestedBacklogBytes(backlogGB));
    var r := FirstWhere(samples, built);
    if r.Some? {
      assert built(samples[r.value]);
    } else {
      assert forall i :: 0 <= i < |samples| ==> !built(samples[i]);
    }
    var calls := BacklogCalls(samples, subscriptions, messageSize, backlogGB);
    if BuildReached(samples, subscriptions, messageSize, backlogGB) {
      assert calls == [PauseConsumers, PauseProducers, ResumeConsumers, ResumeProducers];
    } else {
      assert calls == [PauseConsumers];
    }
  }

  /** `needToWaitForBacklogDraining` ends cleared only when some drain poll within the budget saw a backlog of at most 100. */
  lemma ClearedOnlyWhenDrained(samples: seq<CountersStats>, polls: seq<DrainPoll>, subscriptions: int, messageSize: int,
                               backlogGB: int, waitTimeInMs: int)
    ensures !StillPending(samples, polls, subscriptions, messageSize, backlogGB, waitTimeInMs) <==>
            BuildReached(samples, subscriptions, messageSize, backlogGB) &&
            exists i :: 0 <= i < |polls| && BacklogOf(polls[i].sample, subscriptions) <= 100 &&
                        forall j :: 0 <= j <= i ==> polls[j].elapsedMillis < waitTimeInMs
  {
    DrainSucceedsIff(polls, subscriptions, waitTimeInMs);
  }
}
