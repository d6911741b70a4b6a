/**
 * `WorkloadGenerator`, in its two versions: the OpenMessaging benchmark's and the
 * Event Hubs performance framework's. Both drive one `Worker`; the model records the calls a
 * generator makes, in order, and takes every answer it reads (counters, clock,
 * random strings, shuffle draws) as an input.
 */
module Generator {
  import opened Wrappers
  import opened Counters
  import opened Workloads
  import opened Latency
  import opened Commands
  import opened Shuffling
  import opened Assignments
  import opened Backlog
  import opened RateSearch
  import opened Stats

  /** Which copy of the generator: the OpenMessaging one or the Event Hubs one. */
  datatype Variant = OpenMessaging | EventHub

  datatype GeneratorError =
    | CannotProbeRateWithBacklog   // "Cannot probe producer sustainable rate when building backlog"
    | StatsFailed(error: StatsError)

  /** The constructor's check: a backlog cannot be built while the rate is being searched for. */
  function ConstructorCheck(w: Workload): (r: Outcome<GeneratorError>)
    ensures r.Fail? <==> w.BacklogGB() > 0 && w.producerRate == 0
    ensures r.Fail? ==> r.error == CannotProbeRateWithBacklog
  {
    if w.BacklogGB() > 0 && w.producerRate == 0 then Fail(CannotProbeRateWithBacklog) else Pass
  }

  /** The Event Hubs generator's topic-name prefix: the test name, then `-` and the suite name when there is one. */
  function TopicPrefix(testName: string, testSuiteName: Option<string>): (p: string)
    ensures testName <= p
    ensures |p| == |testName| <==> testSuiteName.None?
    ensures testSuiteName.Some? ==> p[|testName|..] == "-" + testSuiteName.value
  {
    match testSuiteName
    case None => testName
    case Some(suite) => testName + "-" + suite
  }

  /** The producer list `createProducers` hands to the worker: the topic names `producersPerTopic` times over, shuffled. */
  function ProducerList(w: Workload, topics: seq<Topic>, draw: nat -> nat): seq<string> {
    Shuffled(ProducerTopics(TopicNames(topics), NatOf(w.producersPerTopic)), draw)
  }

  /** The consumer assignment `createConsumers` hands to the worker, shuffled. */
  function ConsumerList(w: Workload, topics: seq<Topic>, random: (nat, nat) -> string, draw: nat -> nat): seq<TopicSubscription> {
    Shuffled(ConsumerEntries(topics, NatOf(w.subscriptionsPerTopic), NatOf(w.consumerPerSubscription),
                             SubscriptionNames(random), |topics|), draw)
  }

  /**
   * The shuffled producer list has `producersPerTopic × |topics|` entries and
   * holds each topic name `producersPerTopic` times as often as the topics do
   * (exactly `producersPerTopic` times when topic names are distinct).
   */
  lemma ProducerListCounts(w: Workload, topics: seq<Topic>, draw: nat -> nat, x: string)
    ensures var list := ProducerList(w, topics, draw);
            && |list| == NatOf(w.producersPerTopic) * |topics|
            && multiset(list)[x] == NatOf(w.producersPerTopic) * multiset(TopicNames(topics))[x]
  {
    var names := TopicNames(topics);
    var copies := NatOf(w.producersPerTopic);
    ProducerTopicsLength(names, copies);
    ProducerTopicsCount(names, copies, x);
    ShuffledPermutes(ProducerTopics(names, copies), draw);
  }

  /**
   * The shuffled consumer assignment is a permutation of one entry per (topic `u`,
   * subscription `i`, consumer `j`), so it has `|topics| × subscriptionsPerTopic ×
   * consumerPerSubscription` entries; entry `(u, i, j)` names topic `u`, partition
   * `j` and subscription `i`'s name, which is the same for all its consumers and
   * begins `sub-` followed by `i` in three digits.
   */
  lemma ConsumerListShape(w: Workload, topics: seq<Topic>, random: (nat, nat) -> string, draw: nat -> nat)
    ensures var subs := NatOf(w.subscriptionsPerTopic);
            var cps := NatOf(w.consumerPerSubscription);
            var entries := ConsumerEntries(topics, subs, cps, SubscriptionNames(random), |topics|);
            var list := ConsumerList(w, topics, random, draw);
            && multiset(list) == multiset(entries)
            && |list| == |topics| * (subs * cps)
            && forall u: nat, i: nat, j: nat :: u < |topics| && i < subs && j < cps ==>
                 && Placed(entries, topics, subs, cps, SubscriptionNames(random), u, i, j)
                 && "sub-" + ZeroPaddedIndex(i) + "-" <= Entry(topics, SubscriptionNames(random), u, i, j).subscription
  {
    var subs := NatOf(w.subscriptionsPerTopic);
    var cps := NatOf(w.consumerPerSubscription);
    var entries := ConsumerEntries(topics, subs, cps, SubscriptionNames(random), |topics|);
    ConsumerEntriesLayout(topics, subs, cps, SubscriptionNames(random));
    ShuffledPermutes(entries, draw);
    forall u: nat, i: nat, j: nat | u < |topics| && i < subs && j < cps
      ensures "sub-" + ZeroPaddedIndex(i) + "-" <= Entry(topics, SubscriptionNames(random), u, i, j).subscription
    {
      SubscriptionNaming(i, random(u, i));
    }
  }

  /** `%03d`. */
  function ZeroPaddedIndex(i: nat): string {
    Text.ZeroPadded(i, 3)
  }

  /** The topics request: the Event Hubs generator also sends its topic-name prefix. */
  function TopicsRequest(variant: Variant, w: Workload, prefix: string): TopicsInfo {
    TopicsInfo(w.topics, w.partitionsPerTopic, w.topicName, if variant == EventHub then Some(prefix) else None)
  }

  /** The warmup window: one minute in the OpenMessaging generator, the workload's warmup in the Event Hubs one. */
  function WarmupMinutes(variant: Variant, w: Workload): int {
    if variant == OpenMessaging then 1 else w.warmupTrafficDurationInMinutes
  }

  /** The OpenMessaging generator's starting rate: the workload's, or 10000 while the search runs. */
  function TargetRate(w: Workload): real {
    if w.producerRate > 0 then w.producerRate as real else 10000.0
  }

  /** Everything `run` reads from outside. */
  datatype RunInputs = RunInputs(
    topics: seq<Topic>,                       // createTopics' answer
    subscriptionRandom: (nat, nat) -> string, // getRandomString() for subscription i of topic t
    producerDraw: nat -> nat,                 // the producer list's shuffle
    consumerDraw: nat -> nat,                 // the consumer list's shuffle
    payloadData: seq<bv8>,                    // the payload file (OpenMessaging generator)
    warmup: Window,
    measured: Window)

  predicate WellTimedRun(inputs: RunInputs) {
    WellTimed(inputs.warmup) && WellTimed(inputs.measured)
  }

  /** The calls `run` makes before it starts collecting statistics. */
  function SetupCalls(variant: Variant, w: Workload, prefix: string, inputs: RunInputs, work: ProducerWorkAssignment): seq<WorkerCall> {
    var createTopics := CreateTopics(TopicsRequest(variant, w, prefix));
    var producers := CreateProducers(ProducerList(w, inputs.topics, inputs.producerDraw));
    var consumers := if w.consumerPerSubscription > 0
                     then [CreateConsumers(ConsumerAssignment(ConsumerList(w, inputs.topics, inputs.subscriptionRandom, inputs.consumerDraw)))]
                     else [];
    match variant
    case OpenMessaging =>
      [createTopics, NotifyTopicCreation(inputs.topics), producers] + consumers + [Settle(300000)]
      + (if w.producerRate > 0 then [] else [StartRateSearch(10000.0)])
      + [StartLoad(work)]
      + (if w.BacklogGB() > 0 then [StartBacklogBuild] else [])
    case EventHub =>
      [createTopics, NotifyTopicCreation(inputs.topics)] + consumers + [Settle(60000), producers, StartLoad(work)]
  }

  /**
   * The calls after the setup: the warmup window, then, unless the warmup failed,
   * `resetStats` and the measured window, then, unless that failed, `stopAll`.
   */
  function WindowTrace(setup: seq<WorkerCall>, warmup: int, duration: int, warmupOk: bool, measuredOk: bool): seq<WorkerCall> {
    setup + [CollectStats(warmup)]
    + (if warmupOk then [ResetStats, CollectStats(duration)] + (if measuredOk then [StopAll] else []) else [])
  }

  /** All calls of `run`: the setup, then the windows. */
  function RunCalls(variant: Variant, w: Workload, prefix: string, inputs: RunInputs, work: ProducerWorkAssignment,
                    warmupOk: bool, measuredOk: bool): seq<WorkerCall> {
    WindowTrace(SetupCalls(variant, w, prefix, inputs, work), WarmupMinutes(variant, w), w.testDurationMinutes, warmupOk, measuredOk)
  }

  /**
   * `resetStats` is called exactly once when the warmup succeeds, right between
   * the warmup window and the measured one; `stopAll` is the last call, made
   * once, exactly when both windows succeed; the topics are created first.
   */
  lemma RunResetsBetweenWindows(variant: Variant, w: Workload, prefix: string, inputs: RunInputs, work: ProducerWorkAssignment,
                                warmupOk: bool, measuredOk: bool)
    ensures var calls := RunCalls(variant, w, prefix, inputs, work, warmupOk, measuredOk);
            var setup := SetupCalls(variant, w, prefix, inputs, work);
            && calls[0] == CreateTopics(TopicsRequest(variant, w, prefix))
            && multiset(calls)[ResetStats] == (if warmupOk then 1 else 0)
            && calls[|setup|] == CollectStats(WarmupMinutes(variant, w))
            && (warmupOk ==> calls[|setup| + 1] == ResetStats && calls[|setup| + 2] == CollectStats(w.testDurationMinutes))
            && multiset(calls)[StopAll] == (if warmupOk && measuredOk then 1 else 0)
            && (warmupOk && measuredOk ==> calls[|calls| - 1] == StopAll)
  {
    var setup := SetupCalls(variant, w, prefix, inputs, work);
    SetupStartsWithTopics(variant, w, prefix, inputs, work);
    SetupHasNoWindowCalls(variant, w, prefix, inputs, work);
    WindowCalls(setup, WarmupMinutes(variant, w), w.testDurationMinutes, warmupOk, measuredOk);
  }

  /** A run whose two windows both complete ends with `stopAll`. */
  lemma CompletedRunCallsEnd(variant: Variant, w: Workload, prefix: string, inputs: RunInputs, work: ProducerWorkAssignment)
    ensures var calls := RunCalls(variant, w, prefix, inputs, work, true, true);
            |calls| > 0 && calls[|calls| - 1] == StopAll
  {
    var setup := SetupCalls(variant, w, prefix, inputs, work);
    var calls := WindowTrace(setup, WarmupMinutes(variant, w), w.testDurationMinutes, true, true);
    assert calls == setup + [CollectStats(WarmupMinutes(variant, w))] + ([ResetStats, CollectStats(w.testDurationMinutes)] + [StopAll]);
  }

  /** The window calls after a setup that makes no `resetStats` or `stopAll` call. */
  lemma WindowCalls(setup: seq<WorkerCall>, warmup: int, duration: int, warmupOk: bool, measuredOk: bool)
    requires ResetStats !in setup && StopAll !in setup
    ensures var calls := WindowTrace(setup, warmup, duration, warmupOk, measuredOk);
            && calls[..|setup|] == setup
            && calls[|setup|] == CollectStats(warmup)
            && multiset(calls)[ResetStats] == (if warmupOk then 1 else 0)
            && (warmupOk ==> calls[|setup| + 1] == ResetStats && calls[|setup| + 2] == CollectStats(duration))
            && multiset(calls)[StopAll] == (if warmupOk && measuredOk then 1 else 0)
            && (warmupOk && measuredOk ==> calls[|calls| - 1] == StopAll)
  {
    var tail := if warmupOk then [ResetStats, CollectStats(duration)] + (if measuredOk then [StopAll] else []) else [];
    var calls := setup + [CollectStats(warmup)] + tail;
    assert calls == WindowTrace(setup, warmup, duration, warmupOk, measuredOk);
    assert calls[..|setup|] == setup;
    assert multiset(calls) == multiset(setup) + multiset{CollectStats(warmup)} + multiset(tail);
  }

  /** The setup starts by creating the topics. */
  lemma SetupStartsWithTopics(variant: Variant, w: Workload, prefix: string, inputs: RunInputs, work: ProducerWorkAssignment)
    ensures var setup := SetupCalls(variant, w, prefix, inputs, work);
            |setup| > 0 && setup[0] == CreateTopics(TopicsRequest(variant, w, prefix))
  {
  }

  /** The setup makes no `resetStats` or `stopAll` call. */
  lemma SetupHasNoWindowCalls(variant: Variant, w: Workload, prefix: string, inputs: RunInputs, work: ProducerWorkAssignment)
    ensures var setup := SetupCalls(variant, w, prefix, inputs, work);
            ResetStats !in setup && StopAll !in setup
  {
  }

  /**
   * The order of the setup: topics are created and announced first; consumers are
   * created exactly when `consumerPerSubscription > 0`, after the producers in the
   * OpenMessaging generator and before them (and before the settle delay) in the
   * Event Hubs one; the load starts last but for the background tasks, of which
   * only the OpenMessaging generator starts any.
   */
  lemma SetupOrder(variant: Variant, w: Workload, prefix: string, inputs: RunInputs, work: ProducerWorkAssignment)
    ensures var setup := SetupCalls(variant, w, prefix, inputs, work);
            var producers := CreateProducers(ProducerList(w, inputs.topics, inputs.producerDraw));
            var consumers := CreateConsumers(ConsumerAssignment(ConsumerList(w, inputs.topics, inputs.subscriptionRandom, inputs.consumerDraw)));
            var withConsumers := w.consumerPerSubscription > 0;
            var c := if withConsumers then 1 else 0;
            && setup[0] == CreateTopics(TopicsRequest(variant, w, prefix))
            && setup[1] == NotifyTopicCreation(inputs.topics)
            && (variant == OpenMessaging ==>
                  && setup[2] == producers
                  && (withConsumers ==> setup[3] == consumers)
                  && setup[3 + c] == Settle(300000)
                  && setup[4 + c + (if w.producerRate > 0 then 0 else 1)] == StartLoad(work)
                  && (w.producerRate <= 0 ==> setup[4 + c] == StartRateSearch(10000.0))
                  && (w.BacklogGB() > 0 <==> setup[|setup| - 1] == StartBacklogBuild))
            && (variant == EventHub ==>
                  && (withConsumers ==> setup[2] == consumers)
                  && setup[2 + c] == Settle(60000)
                  && setup[3 + c] == producers
                  && setup[4 + c] == StartLoad(work)
                  && |setup| == 5 + c)
  {
    if variant == OpenMessaging {
      OpenMessagingSetupOrder(w, prefix, inputs, work);
    } else {
      EventHubSetupOrder(w, prefix, inputs, work);
    }
  }

  lemma OpenMessagingSetupOrder(w: Workload, prefix: string, inputs: RunInputs, work: ProducerWorkAssignment)
    ensures var setup := SetupCalls(OpenMessaging, w, prefix, inputs, work);
            var producers := CreateProducers(ProducerList(w, inputs.topics, inputs.producerDraw));
            var consumers := CreateConsumers(ConsumerAssignment(ConsumerList(w, inputs.topics, inputs.subscriptionRandom, inputs.consumerDraw)));
            var withConsumers := w.consumerPerSubscription > 0;
            var c := if withConsumers then 1 else 0;
            && setup[0] == CreateTopics(TopicsRequest(OpenMessaging, w, prefix))
            && setup[1] == NotifyTopicCreation(inputs.topics)
            && setup[2] == producers
            && (withConsumers ==> setup[3] == consumers)
            && setup[3 + c] == Settle(300000)
            && setup[4 + c + (if w.producerRate > 0 then 0 else 1)] == StartLoad(work)
            && (w.producerRate <= 0 ==> setup[4 + c] == StartRateSearch(10000.0))
            && (w.BacklogGB() > 0 <==> setup[|setup| - 1] == StartBacklogBuild)
  {
  }

  lemma EventHubSetupOrder(w: Workload, prefix: string, inputs: RunInputs, work: ProducerWorkAssignment)
    ensures var setup := SetupCalls(EventHub, w, prefix, inputs, work);
            var producers := CreateProducers(ProducerList(w, inputs.topics, inputs.producerDraw));
            var consumers := CreateConsumers(ConsumerAssignment(ConsumerList(w, inputs.topics, inputs.subscriptionRandom, inputs.consumerDraw)));
            var withConsumers := w.consumerPerSubscription > 0;
            var c := if withConsumers then 1 else 0;
            && setup[0] == CreateTopics(TopicsRequest(EventHub, w, prefix))
            && setup[1] == NotifyTopicCreation(inputs.topics)
            && (withConsumers ==> setup[2] == consumers)
            && setup[2 + c] == Settle(60000)
            && setup[3 + c] == producers
            && setup[4 + c] == StartLoad(work)
            && |setup| == 5 + c
  {
  }

  /** The warmup window, whose length `run` fixes. */
  function WarmupWindow(variant: Variant, w: Workload, inputs: RunInputs): Window {
    inputs.warmup.(durationMinutes := WarmupMinutes(variant, w))
  }

  /** The measured window: `testDurationMinutes` long. */
  function MeasuredWindow(w: Workload, inputs: RunInputs): Window {
    inputs.measured.(durationMinutes := w.testDurationMinutes)
  }

  /**
   * The work assignment `run` starts the load with: built in `run` from the target
   * rate and the payload file in the OpenMessaging generator, the one fixed at
   * construction in the Event Hubs one.
   */
  function RunWork(variant: Variant, w: Workload, inputs: RunInputs, constructed: ProducerWorkAssignment): ProducerWorkAssignment {
    if variant == OpenMessaging then ProducerWorkAssignment(w.keyDistributor, TargetRate(w), inputs.payloadData) else constructed
  }

  /** What `run` returns or throws: the measured window's result, unless a window threw. */
  function RunResult(warmup: Result<TestResult, StatsError>, measured: Result<TestResult, StatsError>): Result<TestResult, GeneratorError> {
    if warmup.Failure? then Failure(StatsFailed(warmup.error))
    else if measured.Failure? then Failure(StatsFailed(measured.error))
    else Success(measured.value)
  }

  /**
   * `run` returns a result exactly when both windows completed or were interrupted
   * without an aggregate failure; the result is the measured window's, carrying the
   * test duration, and its aggregate is present exactly when the measured window
   * ended; a failure is the first failing window's.
   */
  lemma RunResultIff(runId: string, subscriptions: int, hooked: bool, variant: Variant, w: Workload, inputs: RunInputs)
    requires WellTimedRun(inputs)
    ensures var warmup := WindowResult(runId, subscriptions, hooked, WarmupWindow(variant, w, inputs));
            var measured := WindowResult(runId, subscriptions, hooked, MeasuredWindow(w, inputs));
            var r := RunResult(warmup, measured);
            && (r.Success? <==> warmup.Success? && measured.Success?)
            && (r.Success? ==> r.value.testRunDurationInMinutes == w.testDurationMinutes && r.value.runId == runId
                               && (r.value.aggregate.Some? <==> Ends(MeasuredWindow(w, inputs))))
            && (warmup.Failure? ==> r == Failure(StatsFailed(AggregateLatenciesUnavailable)))
  {
    WindowFailsIff(runId, subscriptions, hooked, WarmupWindow(variant, w, inputs));
    WindowFailsIff(runId, subscriptions, hooked, MeasuredWindow(w, inputs));
  }

  class WorkloadGenerator {
    const variant: Variant
    const workload: Workload
    const runId: string
    const testName: string
    const testSuiteName: Option<string>
    /** The Event Hubs generator fixes its work assignment when it is constructed. */
    const producerWorkAssignment: ProducerWorkAssignment

    var runCompleted: bool
    var needToWaitForBacklogDraining: bool
    var targetPublishRate: real

    constructor (variant: Variant, workload: Workload, runId: string, testName: string, testSuiteName: Option<string>,
                 payloadData: seq<bv8>)
      requires ConstructorCheck(workload) == Pass
      ensures this.variant == variant && this.workload == workload && this.runId == runId
      ensures this.testName == testName && this.testSuiteName == testSuiteName
      ensures producerWorkAssignment == ProducerWorkAssignment(workload.keyDistributor, workload.producerRate as real, payloadData)
      ensures !runCompleted && !needToWaitForBacklogDraining && targetPublishRate == 0.0
    {
      this.variant := variant;
      this.workload := workload;
      this.runId := runId;
      this.testName := testName;
      this.testSuiteName := testSuiteName;
      producerWorkAssignment := ProducerWorkAssignment(workload.keyDistributor, workload.producerRate as real, payloadData);
      runCompleted := false;
      needToWaitForBacklogDraining := false;
      targetPublishRate := 0.0;
    }

    /** The constructor with its check: it throws when a backlog is asked for while the rate is searched for. */
    static method New(variant: Variant, workload: Workload, runId: string, testName: string, testSuiteName: Option<string>,
                      payloadData: seq<bv8>) returns (r: Result<WorkloadGenerator, GeneratorError>)
      ensures r.Failure? <==> ConstructorCheck(workload).Fail?
      ensures r.Failure? ==> r.error == CannotProbeRateWithBacklog
      ensures r.Success? ==> fresh(r.value) && r.value.workload == workload && r.value.variant == variant && !r.value.runCompleted
      ensures r.Success? ==> r.value.runId == runId && r.value.testName == testName && r.value.testSuiteName == testSuiteName
      ensures r.Success? ==> r.value.producerWorkAssignment ==
                               ProducerWorkAssignment(workload.keyDistributor, workload.producerRate as real, payloadData)
    {
      if workload.BacklogGB() > 0 && workload.producerRate == 0 {
        return Failure(CannotProbeRateWithBacklog);
      }
      var generator := new WorkloadGenerator(variant, workload, runId, testName, testSuiteName, payloadData);
      r := Success(generator);
    }

    /**
     * `run`: create the topics, the clients and the load (in each generator's
     * order), collect the warmup window, reset the statistics, collect the measured
     * window, mark the run completed and stop everything. A window that throws ends
     * the run with its error.
     */
    method Run(inputs: RunInputs) returns (r: Result<TestResult, GeneratorError>, issued: seq<WorkerCall>)
      requires WellTimedRun(inputs)
      modifies this`runCompleted, this`targetPublishRate
      ensures var hooked := variant == EventHub;
              var warmup := WindowResult(runId, workload.subscriptionsPerTopic, hooked, WarmupWindow(variant, workload, inputs));
              var measured := WindowResult(runId, workload.subscriptionsPerTopic, hooked, MeasuredWindow(workload, inputs));
              && issued == RunCalls(variant, workload, TopicPrefix(testName, testSuiteName), inputs,
                                    RunWork(variant, workload, inputs, producerWorkAssignment), warmup.Success?, measured.Success?)
              && r == RunResult(warmup, measured)
              && runCompleted == (old(runCompleted) || (warmup.Success? && measured.Success?))
              && targetPublishRate == if variant == OpenMessaging then TargetRate(workload) else old(targetPublishRate)
    {
      var setup := Setup(inputs);
      var warmupMinutes := if variant == OpenMessaging then 1 else workload.warmupTrafficDurationInMinutes;
      var warmup, _ := PrintAndCollectStats(inputs.warmup.(durationMinutes := warmupMinutes));
      if warmup.Failure? {
        issued := setup + [CollectStats(warmupMinutes)];
        r := Failure(StatsFailed(warmup.error));
        return;
      }
      var measured, _ := PrintAndCollectStats(inputs.measured.(durationMinutes := workload.testDurationMinutes));
      if measured.Failure? {
        issued := setup + [CollectStats(warmupMinutes)] + ([ResetStats, CollectStats(workload.testDurationMinutes)] + []);
        r := Failure(StatsFailed(measured.error));
        return;
      }
      runCompleted := true;
      issued := setup + [CollectStats(warmupMinutes)] + ([ResetStats, CollectStats(workload.testDurationMinutes)] + [StopAll]);
      r := Success(measured.value);
    }

    /** The part of `run` before the warmup window: topics, clients, load and the background tasks. */
    method Setup(inputs: RunInputs) returns (issued: seq<WorkerCall>)
      modifies this`targetPublishRate
      ensures issued == SetupCalls(variant, workload, TopicPrefix(testName, testSuiteName), inputs,
                                   RunWork(variant, workload, inputs, producerWorkAssignment))
      ensures targetPublishRate == if variant == OpenMessaging then TargetRate(workload) else old(targetPublishRate)
    {
      var topicNamePrefix: Option<string> := None;
      if variant == EventHub {
        topicNamePrefix := Some(TopicPrefix(testName, testSuiteName));
      }
      var topics := inputs.topics;
      var createTopics := CreateTopics(TopicsInfo(workload.topics, workload.partitionsPerTopic, workload.topicName, topicNamePrefix));
      // The calls are gathered in the order each generator makes them and issued as one trace.
      var consumers: seq<WorkerCall> := [];
      match variant {
        case OpenMessaging =>
          var producers := CreateProducers(topics, inputs.producerDraw);
          if workload.consumerPerSubscription > 0 {
            var call := CreateConsumers(topics, inputs.subscriptionRandom, inputs.consumerDraw);
            consumers := [call];
          }
          var search: seq<WorkerCall> := [];
          if workload.producerRate > 0 {
            targetPublishRate := workload.producerRate as real;
          } else {
            targetPublishRate := 10000.0;
            search := [StartRateSearch(targetPublishRate)];
          }
          var work := ProducerWorkAssignment(workload.keyDistributor, targetPublishRate, inputs.payloadData);
          var backlog: seq<WorkerCall> := [];
          if workload.BacklogGB() > 0 {
            backlog := [StartBacklogBuild];
          }
          issued := [createTopics, NotifyTopicCreation(topics), producers] + consumers + [Settle(300000)]
                    + search + [StartLoad(work)] + backlog;
        case EventHub =>
          if workload.consumerPerSubscription > 0 {
            var call := CreateConsumers(topics, inputs.subscriptionRandom, inputs.consumerDraw);
            consumers := [call];
          }
          var producers := CreateProducers(topics, inputs.producerDraw);
          issued := [createTopics, NotifyTopicCreation(topics)] + consumers + [Settle(60000), producers, StartLoad(producerWorkAssignment)];
      }
    }

    /** `createProducers`: the topic names once per producer, shuffled, handed to the worker. */
    method CreateProducers(topics: seq<Topic>, draw: nat -> nat) returns (call: WorkerCall)
      ensures call == WorkerCall.CreateProducers(ProducerList(workload, topics, draw))
      ensures multiset(call.producerTopics) == multiset(ProducerTopics(TopicNames(topics), NatOf(workload.producersPerTopic)))
    {
      var fullListOfTopics: seq<string> := [];
      var copies := NatOf(workload.producersPerTopic);
      var names := TopicNames(topics);
      var i := 0;
      while i < copies
        invariant 0 <= i <= copies
        invariant fullListOfTopics == ProducerTopics(names, i)
      {
        var k := 0;
        while k < |topics|
          invariant 0 <= k <= |topics|
          invariant fullListOfTopics == ProducerTopics(names, i) + names[..k]
        {
          assert names[..k + 1] == names[..k] + [topics[k].name];
          fullListOfTopics := fullListOfTopics + [topics[k].name];
          k := k + 1;
        }
        assert names[..|topics|] == names;
        i := i + 1;
      }
      var shuffled := ShuffleList(fullListOfTopics, draw);
      call := WorkerCall.CreateProducers(shuffled);
    }

    /** `createConsumers`: one entry per (topic, subscription, consumer), shuffled, handed to the worker. */
    method CreateConsumers(topics: seq<Topic>, random: (nat, nat) -> string, draw: nat -> nat) returns (call: WorkerCall)
      ensures call == WorkerCall.CreateConsumers(ConsumerAssignment(ConsumerList(workload, topics, random, draw)))
    {
      var subs := NatOf(workload.subscriptionsPerTopic);
      var cps := NatOf(workload.consumerPerSubscription);
      var naming := SubscriptionNames(random);
      var entries: seq<TopicSubscription> := [];
      var t := 0;
      while t < |topics|
        invariant 0 <= t <= |topics|
        invariant entries == ConsumerEntries(topics, subs, cps, naming, t)
      {
        entries := AddTopic(entries, topics[t].name, naming, t, subs, cps);
        t := t + 1;
      }
      var shuffled := ShuffleList(entries, draw);
      call := WorkerCall.CreateConsumers(ConsumerAssignment(shuffled));
    }

    /** The middle loop of `createConsumers`: the subscriptions of topic `t`, each with its consumers. */
    static method AddTopic(entries: seq<TopicSubscription>, topic: string, naming: (nat, nat) -> string, t: nat,
                           subscriptions: nat, consumers: nat)
      returns (r: seq<TopicSubscription>)
      ensures r == entries + TopicEntries(topic, naming, t, consumers, subscriptions)
    {
      r := entries;
      var i := 0;
      while i < subscriptions
        invariant 0 <= i <= subscriptions
        invariant r == entries + TopicEntries(topic, naming, t, consumers, i)
      {
        var subscriptionName := naming(t, i);   // String.format("sub-%03d-%s", i, getRandomString())
        r := AddSubscription(r, topic, subscriptionName, consumers);
        assert r == entries + (TopicEntries(topic, naming, t, consumers, i) + ConsumerBlock(topic, naming(t, i), consumers));
        i := i + 1;
      }
    }

    /** The innermost loop of `createConsumers`: consumers `0 .. consumers - 1` of one subscription. */
    static method AddSubscription(entries: seq<TopicSubscription>, topic: string, subscription: string, consumers: nat)
      returns (r: seq<TopicSubscription>)
      ensures r == entries + ConsumerBlock(topic, subscription, consumers)
    {
      r := entries;
      var j := 0;
      while j < consumers
        invariant 0 <= j <= consumers
        invariant r == entries + ConsumerBlock(topic, subscription, consumers)[..j]
      {
        assert ConsumerBlock(topic, subscription, consumers)[..j + 1]
            == ConsumerBlock(topic, subscription, consumers)[..j] + [TopicSubscription(topic, subscription, j)];
        r := r + [TopicSubscription(topic, subscription, j)];
        j := j + 1;
      }
      assert ConsumerBlock(topic, subscription, consumers)[..consumers] == ConsumerBlock(topic, subscription, consumers);
    }
      /**
     * `findMaximumSustainableRate(initialRate)`, run with the counters `first` and
     * clock reading `start` taken on entry, for the control periods before
     * `runCompleted` is seen set. It moves the rate as `SearchUpTo` says: the state
     * it ends in, the `adjustPublishRate` calls it makes, and whether a sleep of the
     * consumer-lag branch was interrupted.
     */
    method FindMaximumSustainableRate(initialRate: real, first: CountersStats, start: int, periods: seq<ControlPeriod>)
      returns (reached: SearchState, issued: seq<WorkerCall>, interrupted: bool)
      requires RateSearch.ClockAdvances(start, periods)
      ensures SearchOutcome(reached, issued, interrupted)
              == SearchUpTo(Initial(initialRate, first, start), periods, workload.subscriptionsPerTopic, |periods|)
    {
      var subscriptions := workload.subscriptionsPerTopic;
      ghost var initial := Initial(initialRate, first, start);
      reached := SearchState(RateState(initialRate, 0.1, Unbounded, 0), first.messagesSent, first.messagesReceived, start);
      issued := [];
      interrupted := false;
      var k := 0;
      while k < |periods|
        invariant 0 <= k <= |periods|
        invariant SearchUpTo(initial, periods, subscriptions, k) == SearchOutcome(reached, issued, false)
      {
        SearchUpToNext(initial, periods, subscriptions, k);
        var step := ControlStep(reached, periods[k], subscriptions);
        reached := step.next;
        issued := issued + step.issued;
        if step.interrupted {
          interrupted := true;
          InterruptedStays(initial, periods, subscriptions, k + 1, |periods|);
          return;
        }
        k := k + 1;
      }
    }

    /** One control period of `findMaximumSustainableRate`, from its variables `s` on entry. */
    static method ControlStep(s: SearchState, p: ControlPeriod, subscriptions: int) returns (o: SearchOutcome)
      requires p.now > s.lastControlTimestamp
      ensures o == PeriodStep(s, p, subscriptions)
    {
      var currentRate := s.rates.currentRate;
      var minRate := s.rates.minRate;
      var maxRate := s.rates.maxRate;
      var successfulPeriods := s.rates.successfulPeriods;
      var currentTime := p.now;
      var publishRate := PeriodRate(p.sample.messagesSent - s.sentBaseline, currentTime - s.lastControlTimestamp);
      var receiveRate := PeriodRate(p.sample.messagesReceived - s.receivedBaseline, currentTime - s.lastControlTimestamp);
      var sentCounter := p.sample.messagesSent;
      var receivedCounter := p.sample.messagesReceived;
      var lastControlTimestamp := currentTime;
      var issued := [];
      if publishRate < currentRate * 0.95 {
        maxRate := AtMost(currentRate * 1.1);
        currentRate := minRate + (currentRate - minRate) / 2.0;
      } else if receiveRate < publishRate * 0.98 {
        maxRate := AtMost(currentRate);
        currentRate := minRate + (currentRate - minRate) / 2.0;
        issued := issued + [AdjustPublishRate(minRate / 10.0)];
        // Wait for the backlog to fall under 1000; the samples running out is the wait being interrupted.
        var j := 0;
        while j < |p.drainSamples| && BacklogOf(p.drainSamples[j], subscriptions) >= 1000
          invariant 0 <= j <= |p.drainSamples|
          invariant forall m :: 0 <= m < j ==> !LagCleared(subscriptions)(p.drainSamples[m])
        {
          j := j + 1;
        }
        FirstWhereAt(p.drainSamples, LagCleared(subscriptions), j);
        if j == |p.drainSamples| {
          o := SearchOutcome(SearchState(RateState(currentRate, minRate, maxRate, successfulPeriods),
                                         sentCounter, receivedCounter, lastControlTimestamp), issued, true);
          return;
        }
        issued := issued + [AdjustPublishRate(currentRate)];
        if p.settleInterrupted {
          o := SearchOutcome(SearchState(RateState(currentRate, minRate, maxRate, successfulPeriods),
                                         sentCounter, receivedCounter, lastControlTimestamp), issued, true);
          return;
        }
        sentCounter := p.rebaseline.messagesSent;
        receivedCounter := p.rebaseline.messagesReceived;
      } else if Below(currentRate, maxRate) {
        minRate := currentRate;
        currentRate := CappedBy(currentRate * 2.0, maxRate);
      } else {
        successfulPeriods := successfulPeriods + 1;
        if successfulPeriods > 3 {
          minRate := currentRate * 0.95;
          maxRate := AtMost(currentRate * 1.05);
          successfulPeriods := 0;
        }
      }
      issued := issued + [AdjustPublishRate(currentRate)];
      o := SearchOutcome(SearchState(RateState(currentRate, minRate, maxRate, successfulPeriods),
                                     sentCounter, receivedCounter, lastControlTimestamp), issued, false);
    }

    /**
     * `drainBacklog(waitTimeInMs)`: producers are paused and consumers resumed; the
     * loop polls while the stopwatch is under budget; a backlog of at most 100
     * clears `needToWaitForBacklogDraining`; producers are resumed on either exit.
     */
    method DrainBacklog(polls: seq<DrainPoll>, waitTimeInMs: int) returns (issued: seq<WorkerCall>)
      modifies this`needToWaitForBacklogDraining
      ensures issued == DrainCalls
      ensures needToWaitForBacklogDraining
              == (old(needToWaitForBacklogDraining) && !DrainSucceeds(polls, workload.subscriptionsPerTopic, waitTimeInMs))
    {
      var subscriptions := workload.subscriptionsPerTopic;
      issued := [PauseProducers, ResumeConsumers];
      var j := 0;
      while j < |polls| && polls[j].elapsedMillis < waitTimeInMs
        invariant 0 <= j <= |polls|
        invariant forall m :: 0 <= m < j ==> !DrainExit(subscriptions, waitTimeInMs)(polls[m])
      {
        var stats := polls[j].sample;
        var currentBacklog := subscriptions * stats.messagesSent - stats.messagesReceived;
        assert currentBacklog == BacklogOf(stats, subscriptions);
        if currentBacklog <= 100 {
          assert Drained(subscriptions)(stats);
          FirstWhereAt(polls, DrainExit(subscriptions, waitTimeInMs), j);
          needToWaitForBacklogDraining := false;
          issued := issued + [ResumeProducers];
          return;
        }
        assert !Drained(subscriptions)(stats);
        j := j + 1;
      }
      FirstWhereAt(polls, DrainExit(subscriptions, waitTimeInMs), j);
      issued := issued + [ResumeProducers];
    }

    /**
     * `buildAndDrainBacklog`: consumers are paused and the drain flag set; the
     * counters are polled until the byte backlog reaches the requested size (the
     * samples running out is the sleep being interrupted, which throws); then the
     * backlog is drained with a budget of 1000000 ms.
     */
    method BuildAndDrainBacklog(samples: seq<CountersStats>, polls: seq<DrainPoll>) returns (issued: seq<WorkerCall>)
      modifies this`needToWaitForBacklogDraining
      ensures issued == BacklogCalls(samples, workload.subscriptionsPerTopic, workload.messageSize, workload.BacklogGB())
      ensures needToWaitForBacklogDraining
              == StillPending(samples, polls, workload.subscriptionsPerTopic, workload.messageSize, workload.BacklogGB(), 1000000)
    {
      var subscriptions := workload.subscriptionsPerTopic;
      issued := [PauseConsumers];
      needToWaitForBacklogDraining := true;
      var requestedBacklogSize := workload.BacklogGB() * 1024 * 1024 * 1024;
      ghost var built := Built(subscriptions, workload.messageSize, RequestedBacklogBytes(workload.BacklogGB()));
      var j := 0;
      while j < |samples| && BacklogOf(samples[j], subscriptions) * workload.messageSize < requestedBacklogSize
        invariant 0 <= j <= |samples|
        invariant forall m :: 0 <= m < j ==> !built(samples[m])
      {
        j := j + 1;
      }
      FirstWhereAt(samples, built, j);
      if j == |samples| {
        return;
      }
      var drained := DrainBacklog(polls, 1000000);
      issued := issued + drained;
    }

    /**
     * The retry loop of `printAndCollectStats`: `getCumulativeLatencies` is called
     * until it answers or has failed ten times. Attempt `b` answers `fetch(b)`.
     */
    static method FetchCumulativeLatencies(fetch: nat -> Option<CumulativeLatencies>)
      returns (agg: Option<CumulativeLatencies>, attempts: nat)
      ensures 1 <= attempts <= MaxFetchAttempts
      ensures forall b :: 0 <= b < attempts - 1 ==> fetch(b).None?
      ensures agg.Some? ==> agg == fetch(attempts - 1)
      ensures agg.None? ==> attempts == MaxFetchAttempts && fetch(attempts - 1).None?
      ensures agg == match FirstFetched(fetch, 0, MaxFetchAttempts) case None => None case Some(a) => fetch(a)
      ensures attempts == match FirstFetched(fetch, 0, MaxFetchAttempts) case None => MaxFetchAttempts case Some(a) => a + 1
    {
      var retry := 0;
      agg := None;
      while true
        invariant 0 <= retry < MaxFetchAttempts
        invariant forall b :: 0 <= b < retry ==> fetch(b).None?
        decreases MaxFetchAttempts - retry
      {
        var answer := fetch(retry);
        if answer.Some? {
          agg := answer;
          attempts := retry + 1;
          FirstFetchedAt(fetch, retry);
          return;
        }
        retry := retry + 1;
        if retry >= MaxFetchAttempts {
          attempts := retry;
          FirstFetchedAt(fetch, retry);
          return;
        }
      }
    }

    /**
     * `printAndCollectStats` for one window: a snapshot per poll, each with a fresh
     * `LatencyMetric` filled from the period's histograms; the Event Hubs generator
     * also hands each snapshot to the moving-average hook. At the first poll past the
     * end time with no drain pending, the aggregate latencies are fetched (or the call
     * fails) and the window ends; a window whose polls run out was interrupted and
     * returns what it has.
     */
    method PrintAndCollectStats(w: Window) returns (r: Result<TestResult, StatsError>, attempts: nat)
      requires WellTimed(w)
      ensures r == WindowResult(runId, workload.subscriptionsPerTopic, variant == EventHub, w)
      ensures attempts == FetchAttempts(w)
    {
      var snapshots, counts, stop := CollectSnapshots(workload.subscriptionsPerTopic, variant == EventHub, w);
      if stop.Some? {
        r, attempts := EndWindow(w, stop.value, snapshots, counts);
      } else {
        InterruptedWindow(runId, workload.subscriptionsPerTopic, variant == EventHub, w);
        r := Success(TestResult(runId, w.durationMinutes, snapshots, None, counts));
        attempts := 0;
      }
    }

    /**
     * The polling loop of `printAndCollectStats` up to its `break`: one snapshot per
     * poll, handed to the moving-average hook in the Event Hubs generator, until the
     * poll that ends the window (`stop`), or every poll if none does.
     */
    static method CollectSnapshots(subscriptions: int, hooked: bool, w: Window) returns (snapshots: seq<Snapshot>, counts: seq<nat>, stop: Option<nat>)
      requires WellTimed(w)
      ensures stop == FirstWhere(w.polls, WindowEnds(TestEndTime(w.startTime, w.durationMinutes)))
      ensures var n := if stop.Some? then stop.value + 1 else |w.polls|;
              && n <= |w.polls|
              && snapshots == Snapshots(subscriptions, w.startTime, w.oldTime, w.polls, n)
              && counts == HookCounts(hooked, n)
    {
      var testEndTime := TestEndTime(w.startTime, w.durationMinutes);
      var oldTime := w.oldTime;
      snapshots := [];
      counts := [];
      var i := 0;
      while i < |w.polls|
        invariant 0 <= i <= |w.polls|
        invariant oldTime == PreviousTime(w.oldTime, w.polls, i)
        invariant snapshots == Snapshots(subscriptions, w.startTime, w.oldTime, w.polls, i)
        invariant counts == HookCounts(hooked, i)
        invariant forall m :: 0 <= m < i ==> !WindowEnds(testEndTime)(w.polls[m])
      {
        var p := w.polls[i];
        var now := p.now;
        assert oldTime < now;
        var snapshot := TakeSnapshot(subscriptions, w.startTime, oldTime, p);
        if hooked {
          counts := counts + [|snapshots|];
        }
        snapshots := snapshots + [snapshot];
        assert snapshots == Snapshots(subscriptions, w.startTime, w.oldTime, w.polls, i + 1);
        assert counts == HookCounts(hooked, i + 1);
        if Reached(now, testEndTime) && !p.drainPending {
          FirstWhereAt(w.polls, WindowEnds(testEndTime), i);
          stop := Some(i);
          return;
        }
        assert !WindowEnds(testEndTime)(w.polls[i]);
        oldTime := now;
        i := i + 1;
      }
      FirstWhereAt(w.polls, WindowEnds(testEndTime), i);
      stop := None;
    }

    /** The end of a window at poll `i`: the aggregate latencies are fetched with retry and added to the result, or the call fails. */
    method EndWindow(w: Window, i: nat, snapshots: seq<Snapshot>, counts: seq<nat>)
      returns (r: Result<TestResult, StatsError>, attempts: nat)
      requires WellTimed(w) && i < |w.polls|
      requires FirstWhere(w.polls, WindowEnds(TestEndTime(w.startTime, w.durationMinutes))) == Some(i)
      requires snapshots == Snapshots(workload.subscriptionsPerTopic, w.startTime, w.oldTime, w.polls, i + 1)
      requires counts == HookCounts(variant == EventHub, i + 1)
      ensures r == WindowResult(runId, workload.subscriptionsPerTopic, variant == EventHub, w)
      ensures attempts == FetchAttempts(w)
    {
      var agg;
      agg, attempts := FetchCumulativeLatencies(w.fetch);
      if agg.None? {
        r := Failure(AggregateLatenciesUnavailable);
        return;
      }
      var aggregate := Summarise(agg.value.publishLatency, agg.value.endToEndLatency);
      r := Success(TestResult(runId, w.durationMinutes, snapshots, Some(aggregate), counts));
    }

    /** One snapshot: the period's rates over the elapsed seconds, the backlog, and a fresh `LatencyMetric` filled from the period's histograms. */
    static method TakeSnapshot(subscriptions: int, startTime: int, oldTime: int, p: Poll) returns (snapshot: Snapshot)
      requires oldTime < p.now
      ensures snapshot == SnapshotOf(subscriptions, startTime, oldTime, p)
    {
      var stats := p.stats;
      var now := p.now;
      var elapsed := (now - oldTime) as real / 1000000000.0;
      var latency := Summarise(stats.publishLatency, stats.endToEndLatency);
      snapshot := Snapshot((now - startTime) / 1000000000,
                           stats.messagesSent as real / elapsed,
                           stats.messagesReceived as real / elapsed,
                           stats.messageSendErrors as real / elapsed,
                           subscriptions * stats.totalMessagesSent - stats.totalMessagesReceived,
                           latency);
    }

    /** A fresh `LatencyMetric` after `populatePublishLatency(publish)` and `populateE2ELatency(endToEnd)`. */
    static method Summarise(publish: HistogramSummary, endToEnd: HistogramSummary) returns (values: map<Field, Option<real>>)
      ensures values == Summarised(publish, endToEnd)
    {
      var metric := new LatencyMetric();
      metric.PopulatePublishLatency(publish);
      metric.PopulateE2ELatency(endToEnd);
      SummarisedPointwise(metric.values, publish, endToEnd);
      values := metric.values;
    }
  }
}
