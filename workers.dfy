/**
 * `LocalWorker`: the in-process worker endpoint. It owns at most one driver, the
 * producer and consumer handles created through it, the pause and stop flags the
 * producer threads poll, and the rate limiter they share.
 */
module Workers {
  import opened Wrappers
  import opened Text
  import opened Counters
  import opened Workloads
  import opened Commands

  /** An instantiated, initialised `BenchmarkDriver`: its class and the topic-name prefix it reports. */
  datatype Driver = Driver(driverClass: string, topicNamePrefix: string)

  /** A producer the driver created for one topic. */
  datatype ProducerHandle = ProducerHandle(topic: string)

  /** A consumer the driver created for one topic, subscription and partition. */
  datatype ConsumerHandle = ConsumerHandle(topic: string, subscription: string, partition: int)

  /** One task handed to the executor: a group of producers driven by one thread. */
  datatype ProducerTask = ProducerTask(producers: seq<ProducerHandle>, keyDistributor: KeyDistributorType, payloadData: seq<bv8>)

  datatype WorkerError =
    | DriverAlreadyActive            // Preconditions.checkArgument(benchmarkDriver == null)
    | DriverClassNotFound(driverClass: string)  // RuntimeException around the reflective instantiation
    | DriverInitializationFailed     // IOException from BenchmarkDriver.initialize
    | NoTopicsRequested              // "Number of Topics have to be non zero"
    | TopicNameWithMultipleTopics    // "Can't specify multiple topics when specifying topic name"
    | NoDriver                       // NullPointerException: a driver call with no driver
    | NonPositiveRate                // RateLimiter.setRate rejects a rate that is not positive
    | DriverCallFailed(index: nat)   // CompletionException from joining the driver's future for entry `index`

  /** `StringUtils.isNotEmpty`: present and not the empty string. */
  predicate IsNotEmpty(s: Option<string>) {
    s.Some? && |s.value| > 0
  }

  /**
   * The name of topic `i`: a given topic name verbatim, otherwise
   * `"<driver prefix>-<random>-<i as %04d>"`, where `random(i)` stands for the
   * random string drawn in iteration `i`.
   */
  function TopicName(info: TopicsInfo, driverPrefix: string, random: nat -> string, i: nat): string {
    info.topicName.GetOr(driverPrefix + "-" + random(i) + "-" + ZeroPadded(i, 4))
  }

  /** The topics `createTopics` builds in its first `n` iterations. */
  function TopicsUpTo(info: TopicsInfo, driverPrefix: string, random: nat -> string, n: nat): (r: seq<Topic>)
    ensures |r| == n
    ensures forall i :: 0 <= i < n ==> r[i] == Topic(TopicName(info, driverPrefix, random, i), info.numberOfPartitionsPerTopic)
  {
    if n == 0 then [] else TopicsUpTo(info, driverPrefix, random, n - 1) + [Topic(TopicName(info, driverPrefix, random, n - 1), info.numberOfPartitionsPerTopic)]
  }

  /** The error `createTopics` raises before its loop, if any. */
  function TopicsCheck(info: TopicsInfo, driver: Option<Driver>): (r: Option<WorkerError>)
    ensures r.None? <==> info.numberOfTopics > 0 && (IsNotEmpty(info.topicName) ==> info.numberOfTopics == 1) && driver.Some?
  {
    if info.numberOfTopics <= 0 then Some(NoTopicsRequested)
    else if IsNotEmpty(info.topicName) && info.numberOfTopics != 1 then Some(TopicNameWithMultipleTopics)
    else if driver.None? then Some(NoDriver)
    else None
  }

  /**
   * Topic naming: with no fixed name, topic `i` ends in `-` and `i` zero-padded to
   * four digits (exactly four when `i < 10000`), after the driver prefix and the
   * random part; with a fixed name every topic carries it.
   */
  lemma TopicNaming(info: TopicsInfo, driverPrefix: string, random: nat -> string, i: nat)
    ensures info.topicName.Some? ==> TopicName(info, driverPrefix, random, i) == info.topicName.value
    ensures info.topicName.None? ==>
              var name := TopicName(info, driverPrefix, random, i);
              var suffix := ZeroPadded(i, 4);
              && driverPrefix + "-" + random(i) + "-" <= name
              && name[|name| - |suffix|..] == suffix
              && DigitsValue(suffix) == i
              && (i < 10000 ==> |suffix| == 4)
  {
    if info.topicName.None? {
      var name := TopicName(info, driverPrefix, random, i);
      var head := driverPrefix + "-" + random(i) + "-";
      var suffix := ZeroPadded(i, 4);
      assert name == head + suffix;
      assert name[..|head|] == head;
      assert name[|name| - |suffix|..] == suffix;
      ZeroPaddedDenotes(i, 4);
      if i < 10000 {
        SmallNatToString(i, 4);
      }
    }
  }

  /**
   * The first of the driver's futures `0 .. n - 1` that completes exceptionally,
   * where `completes(i)` says whether future `i` completes normally.
   */
  function FirstFailed(completes: nat -> bool, n: nat): (r: Option<nat>)
    ensures r.None? <==> forall j :: 0 <= j < n ==> completes(j)
    ensures r.Some? ==> r.value < n && !completes(r.value) && forall j :: 0 <= j < r.value ==> completes(j)
  {
    if n == 0 then None
    else
      var earlier := FirstFailed(completes, n - 1);
      if earlier.Some? then earlier else if completes(n - 1) then None else Some(n - 1)
  }

  /** Joining in order stops at the first failed future: when every future before `k` completed and `k` did not, that is `k`. */
  lemma FirstFailedAt(completes: nat -> bool, n: nat, k: nat)
    requires k < n && !completes(k)
    requires forall m :: 0 <= m < k ==> completes(m)
    ensures FirstFailed(completes, n) == Some(k)
  {
  }

  /** `futures.forEach(CompletableFuture::join)`: joins futures `0 .. n - 1` in order and reports the first that failed. */
  method JoinAll(completes: nat -> bool, n: nat) returns (failed: Option<nat>)
    ensures failed == FirstFailed(completes, n)
  {
    var j := 0;
    while j < n
      invariant 0 <= j <= n
      invariant forall m :: 0 <= m < j ==> completes(m)
    {
      if !completes(j) {
        FirstFailedAt(completes, n, j);
        return Some(j);
      }
      j := j + 1;
    }
    return None;
  }

  /** The producer handles a list of topic names yields, one per name, in order. */
  function ProducerHandles(topics: seq<string>): (r: seq<ProducerHandle>)
    ensures |r| == |topics| && forall i :: 0 <= i < |topics| ==> r[i] == ProducerHandle(topics[i])
  {
    if topics == [] then [] else ProducerHandles(topics[..|topics| - 1]) + [ProducerHandle(topics[|topics| - 1])]
  }

  /** The consumer handles an assignment yields, one per entry, in order. */
  function ConsumerHandles(entries: seq<TopicSubscription>): (r: seq<ConsumerHandle>)
    ensures |r| == |entries|
    ensures forall i :: 0 <= i < |entries| ==>
              r[i] == ConsumerHandle(entries[i].topic, entries[i].subscription, entries[i].partition)
  {
    if entries == [] then []
    else
      var e := entries[|entries| - 1];
      ConsumerHandles(entries[..|entries| - 1]) + [ConsumerHandle(e.topic, e.subscription, e.partition)]
  }

  function Min(a: nat, b: nat): nat {
    if a < b then a else b
  }

  /** Processor `k`'s share of the first `n` items: those at positions congruent to `k` modulo `processors`, in order. */
  function Group<T>(items: seq<T>, processors: nat, k: nat, n: nat): seq<T>
    requires processors >= 1 && n <= |items|
  {
    if n == 0 then []
    else Group(items, processors, k, n - 1) + (if (n - 1) % processors == k then [items[n - 1]] else [])
  }

  lemma {:induction false} GroupEmptyBeyond<T>(items: seq<T>, processors: nat, k: nat, n: nat)
    requires processors >= 1 && n <= |items| && n <= k
    ensures Group(items, processors, k, n) == []
  {
    if n > 0 {
      GroupEmptyBeyond(items, processors, k, n - 1);
      if n - 1 < processors {
        DivModUnique(n - 1, processors, 0, n - 1);
      }
      assert (n - 1) % processors != k;
      assert Group(items, processors, k, n) == Group(items, processors, k, n - 1);
    }
  }

  lemma {:induction false} MulAtLeast(d: int, p: int)
    requires d >= 1 && p > 0
    ensures d * p >= p
  {
    if d > 1 {
      MulAtLeast(d - 1, p);
      assert d * p == (d - 1) * p + p;
    }
  }

  /** Euclidean division is unique: a quotient and remainder in range are `a / p` and `a % p`. */
  lemma DivModUnique(a: int, p: int, q: int, r: int)
    requires p > 0 && a == q * p + r && 0 <= r < p
    ensures a / p == q && a % p == r
  {
    var q' := a / p;
    var r' := a % p;
    assert a == q' * p + r';
    assert (q - q') * p == r' - r by {
      assert (q - q') * p == q * p - q' * p;
    }
    if q > q' {
      MulAtLeast(q - q', p);
    } else if q < q' {
      MulAtLeast(q' - q, p);
    }
  }

  /** `(i mod p + 1) mod p` is `(i + 1) mod p`: the assignment loop's index stays `i mod p`. */
  lemma ModSuccessor(i: nat, p: nat)
    requires p >= 1
    ensures (i % p + 1) % p == (i + 1) % p
  {
    var q := i / p;
    var r := i % p;
    assert i == q * p + r;
    if r + 1 < p {
      DivModUnique(i + 1, p, q, r + 1);
      DivModUnique(r + 1, p, 0, r + 1);
    } else {
      assert i + 1 == (q + 1) * p + 0;
      DivModUnique(i + 1, p, q + 1, 0);
      DivModUnique(r + 1, p, 1, 0);
    }
  }

  /** The `j`-th position congruent to `k` modulo `processors`: `k + j * processors`. */
  function Stride(k: nat, j: nat, processors: nat): nat {
    if j == 0 then k else Stride(k, j - 1, processors) + processors
  }

  lemma {:induction false} StrideIsAffine(k: nat, j: nat, processors: nat)
    ensures Stride(k, j, processors) == k + j * processors
  {
    if j > 0 {
      StrideIsAffine(k, j - 1, processors);
      assert (j - 1) * processors + processors == j * processors;
    }
  }

  lemma StrideResidue(k: nat, j: nat, processors: nat)
    requires processors >= 1 && k < processors
    ensures Stride(k, j, processors) % processors == k
  {
    StrideIsAffine(k, j, processors);
    DivModUnique(Stride(k, j, processors), processors, j, k);
  }

  /** Within a window of `processors` consecutive numbers, no two share a residue. */
  lemma ResidueInWindow(a: nat, b: nat, processors: nat)
    requires processors >= 1 && a <= b < a + processors && a % processors == b % processors
    ensures a == b
  {
    var q := a / processors;
    var r := a % processors;
    var d := b - a;
    assert a == q * processors + r;
    if d > 0 {
      if r + d < processors {
        DivModUnique(b, processors, q, r + d);
      } else {
        assert b == (q + 1) * processors + (r + d - processors);
        DivModUnique(b, processors, q + 1, r + d - processors);
      }
    }
  }

  /**
   * Round robin: processor `k`'s group holds `items[k]`, `items[k + p]`,
   * `items[k + 2p]`, … in that order, for every such position below `n` and no
   * other: the next position it would receive is the first one not below `n`.
   */
  lemma {:induction false} GroupIsStride<T>(items: seq<T>, processors: nat, k: nat, n: nat)
    requires processors >= 1 && n <= |items| && k < processors
    ensures var g := Group(items, processors, k, n);
            && (forall j :: 0 <= j < |g| ==> Stride(k, j, processors) < n && g[j] == items[Stride(k, j, processors)])
            && n <= Stride(k, |g|, processors) < n + processors
  {
    if n > 0 {
      GroupIsStride(items, processors, k, n - 1);
      var c0 := |Group(items, processors, k, n - 1)|;
      StrideResidue(k, c0, processors);
      if (n - 1) % processors == k {
        ResidueInWindow(n - 1, Stride(k, c0, processors), processors);
      } else {
        assert Stride(k, c0, processors) != n - 1;
      }
    }
  }

  lemma {:induction false} StrideMonotone(k: nat, j: nat, c: nat, processors: nat)
    requires processors >= 1 && c <= j
    ensures Stride(k, c, processors) <= Stride(k, j, processors)
  {
    if c < j {
      StrideMonotone(k, j - 1, c, processors);
    }
  }

  lemma StrideAtQuotient(i: nat, processors: nat)
    requires processors >= 1
    ensures i % processors < processors && Stride(i % processors, i / processors, processors) == i
  {
    StrideIsAffine(i % processors, i / processors, processors);
  }

  /** Every item lands in group `i mod p`, at position `i / p`, so in exactly one group. */
  lemma ItemPlacement<T>(items: seq<T>, processors: nat, i: nat)
    requires processors >= 1 && i < |items|
    ensures var g := Group(items, processors, i % processors, |items|);
            i / processors < |g| && g[i / processors] == items[i]
  {
    var k := i % processors;
    var m := i / processors;
    StrideAtQuotient(i, processors);
    GroupIsStride(items, processors, k, |items|);
    var g := Group(items, processors, k, |items|);
    if m >= |g| {
      StrideMonotone(k, m, |g|, processors);
    }
  }

  /**
   * `startLoad`'s assignment loop: producer `i` is added to the list under key
   * `processorIdx`, which runs round robin modulo `processors`.
   */
  method AssignToProcessors<T>(items: seq<T>, processors: nat) returns (assignment: map<nat, seq<T>>)
    requires processors >= 1
    ensures forall k: nat :: k in assignment <==> k < Min(|items|, processors)
    ensures forall k :: k in assignment ==> assignment[k] == Group(items, processors, k, |items|)
  {
    assignment := map[];
    var processorIdx := 0;
    var i := 0;
    while i < |items|
      invariant 0 <= i <= |items|
      invariant processorIdx == i % processors
      invariant forall k: nat :: k in assignment <==> k < Min(i, processors)
      invariant forall k :: k in assignment ==> assignment[k] == Group(items, processors, k, i)
    {
      var current: seq<T> := [];
      if processorIdx in assignment {
        current := assignment[processorIdx];
      } else {
        GroupEmptyBeyond(items, processors, processorIdx, i);
      }
      AssignmentStep(assignment, items, processors, i, current);
      assignment := assignment[processorIdx := current + [items[i]]];
      ModSuccessor(i, processors);
      processorIdx := (processorIdx + 1) % processors;
      i := i + 1;
    }
  }

  /** One iteration of the assignment loop keeps its invariant. */
  lemma AssignmentStep<T>(assignment: map<nat, seq<T>>, items: seq<T>, processors: nat, i: nat, current: seq<T>)
    requires processors >= 1 && i < |items|
    requires forall k: nat :: k in assignment <==> k < Min(i, processors)
    requires forall k :: k in assignment ==> assignment[k] == Group(items, processors, k, i)
    requires current == Group(items, processors, i % processors, i)
    ensures var next := assignment[i % processors := current + [items[i]]];
            && (forall k: nat :: k in next <==> k < Min(i + 1, processors))
            && (forall k :: k in next ==> next[k] == Group(items, processors, k, i + 1))
  {
    var next := assignment[i % processors := current + [items[i]]];
    forall k: nat
      ensures k in next <==> k < Min(i + 1, processors)
    {
      if i < processors {
        DivModUnique(i, processors, 0, i);
      }
    }
    forall k | k in next
      ensures next[k] == Group(items, processors, k, i + 1)
    {
    }
  }

  /** The executor tasks `startLoad` submits: one per group, in key order. */
  function TasksFor(producers: seq<ProducerHandle>, processors: nat, assignment: ProducerWorkAssignment): (r: seq<ProducerTask>)
    requires processors >= 1
    ensures |r| == Min(|producers|, processors)
  {
    seq(Min(|producers|, processors), k requires 0 <= k =>
      ProducerTask(Group(producers, processors, k, |producers|), assignment.keyDistributorType, assignment.payloadData))
  }

  /** `adjustPublishRate`: below one message per second the limiter is set to 1.0. */
  function ClampedRate(publishRate: real): (r: real)
    ensures r >= 1.0
    ensures r == publishRate <==> publishRate >= 1.0
  {
    if publishRate < 1.0 then 1.0 else publishRate
  }

  /** A value view of the worker's state. */
  datatype WorkerState = WorkerState(
    driver: Option<Driver>, producers: seq<ProducerHandle>, consumers: seq<ConsumerHandle>,
    testCompleted: bool, consumersArePaused: bool, producersArePaused: bool, counters: CountersStats)

  /** What `stopAll` leaves behind. */
  function Stopped(s: WorkerState): (r: WorkerState)
    ensures r.testCompleted && !r.consumersArePaused && !r.producersArePaused
    ensures r.counters == Zero && r.producers == [] && r.consumers == [] && r.driver.None?
  {
    WorkerState(None, [], [], true, false, false, Zero)
  }

  /** `stopAll` twice is `stopAll` once, and a stopped worker accepts a new driver. */
  lemma StopAllIdempotent(s: WorkerState)
    ensures Stopped(Stopped(s)) == Stopped(s)
    ensures Stopped(s).driver.None?
  {
  }

  class LocalWorker {
    var driver: Option<Driver>
    var producers: seq<ProducerHandle>
    var consumers: seq<ConsumerHandle>
    var testCompleted: bool
    var consumersArePaused: bool
    var producersArePaused: bool
    /** The shared rate limiter's permits per second. */
    var rate: real
    /** The message counters of `WorkerStats`. */
    var counters: CountersStats
    /** The topic creations requested from the driver, in order. */
    var requestedTopics: seq<Topic>
    /** The producer tasks submitted to the executor, in order. */
    var tasks: seq<ProducerTask>

    function State(): WorkerState
      reads this
    {
      WorkerState(driver, producers, consumers, testCompleted, consumersArePaused, producersArePaused, counters)
    }

    /** A fresh worker: no driver, no handles, flags clear, limiter at 1 permit per second. */
    constructor ()
      ensures driver.None? && producers == [] && consumers == []
      ensures !testCompleted && !consumersArePaused && !producersArePaused
      ensures rate == 1.0 && counters == Zero && requestedTopics == [] && tasks == []
    {
      driver := None;
      producers := [];
      consumers := [];
      testCompleted := false;
      consumersArePaused := false;
      producersArePaused := false;
      rate := 1.0;
      counters := Zero;
      requestedTopics := [];
      tasks := [];
    }

    /**
     * `initializeDriver`: refused while a driver is active; otherwise clears
     * `testCompleted` and instantiates the configured class (`resolve` stands for
     * the class lookup). The instance is kept even when its own initialisation fails.
     */
    method InitializeDriver(driverClass: string, resolve: string -> Option<Driver>, initializes: bool)
      returns (r: Outcome<WorkerError>)
      modifies this`driver, this`testCompleted
      ensures old(driver).Some? ==> r == Fail(DriverAlreadyActive) && driver == old(driver) && testCompleted == old(testCompleted)
      ensures old(driver).None? ==> !testCompleted && driver == resolve(driverClass)
      ensures old(driver).None? && resolve(driverClass).None? ==> r == Fail(DriverClassNotFound(driverClass))
      ensures old(driver).None? && resolve(driverClass).Some? ==> r == (if initializes then Pass else Fail(DriverInitializationFailed))
    {
      if driver.Some? {
        return Fail(DriverAlreadyActive);
      }
      testCompleted := false;
      var instance := resolve(driverClass);
      if instance.None? {
        return Fail(DriverClassNotFound(driverClass));
      }
      driver := instance;
      if !initializes {
        return Fail(DriverInitializationFailed);
      }
      return Pass;
    }

    /**
     * `createTopics`: after its argument checks, builds `numberOfTopics` topics in
     * index order and asks the driver to create each one; then joins the driver's
     * futures in order, and the first that failed is thrown once every topic has
     * been requested.
     */
    method CreateTopics(info: TopicsInfo, random: nat -> string, completes: nat -> bool) returns (r: Result<seq<Topic>, WorkerError>)
      modifies this`requestedTopics
      ensures TopicsCheck(info, driver).Some? ==> r == Failure(TopicsCheck(info, driver).value) && requestedTopics == old(requestedTopics)
      ensures TopicsCheck(info, driver).None? ==>
                var topics := TopicsUpTo(info, driver.value.topicNamePrefix, random, info.numberOfTopics);
                var failed := FirstFailed(completes, info.numberOfTopics);
                && requestedTopics == old(requestedTopics) + topics
                && r == if failed.Some? then Failure(DriverCallFailed(failed.value)) else Success(topics)
    {
      var check := TopicsCheck(info, driver);
      if check.Some? {
        return Failure(check.value);
      }
      var topics := RequestTopics(info, driver.value.topicNamePrefix, random);
      var failed := JoinAll(completes, info.numberOfTopics);
      return if failed.Some? then Failure(DriverCallFailed(failed.value)) else Success(topics);
    }

    /** The loop of `createTopics`: builds each topic in index order and asks the driver to create it. */
    method RequestTopics(info: TopicsInfo, prefix: string, random: nat -> string) returns (topics: seq<Topic>)
      requires info.numberOfTopics >= 0
      modifies this`requestedTopics
      ensures topics == TopicsUpTo(info, prefix, random, info.numberOfTopics)
      ensures requestedTopics == old(requestedTopics) + topics
    {
      topics := [];
      var i := 0;
      while i < info.numberOfTopics
        invariant 0 <= i <= info.numberOfTopics
        invariant topics == TopicsUpTo(info, prefix, random, i)
        invariant requestedTopics == old(requestedTopics) + topics
      {
        var name := info.topicName.GetOr(prefix + "-" + random(i) + "-" + ZeroPadded(i, 4));
        var topic := Topic(name, info.numberOfPartitionsPerTopic);
        assert TopicsUpTo(info, prefix, random, i + 1) == topics + [topic];
        topics := topics + [topic];
        requestedTopics := requestedTopics + [topic];
        i := i + 1;
      }
    }

    /**
     * `createProducers`: asks the driver for one producer per topic name, then joins
     * the futures in order, appending each producer after the existing ones; the first
     * future that failed is thrown with the producers before it already appended.
     * Without a driver the first request throws, before anything is appended.
     */
    method CreateProducers(topics: seq<string>, completes: nat -> bool) returns (r: Outcome<WorkerError>)
      modifies this`producers
      ensures driver.None? && |topics| > 0 ==> r == Fail(NoDriver) && producers == old(producers)
      ensures driver.Some? || |topics| == 0 ==>
                match FirstFailed(completes, |topics|)
                case None => r == Pass && producers == old(producers) + ProducerHandles(topics)
                case Some(k) => r == Fail(DriverCallFailed(k)) && producers == old(producers) + ProducerHandles(topics[..k])
    {
      if driver.None? && |topics| > 0 {
        return Fail(NoDriver);
      }
      var i := 0;
      while i < |topics|
        invariant 0 <= i <= |topics|
        invariant producers == old(producers) + ProducerHandles(topics[..i])
        invariant forall m :: 0 <= m < i ==> completes(m)
      {
        if !completes(i) {
          FirstFailedAt(completes, |topics|, i);
          return Fail(DriverCallFailed(i));
        }
        assert topics[..i + 1][..i] == topics[..i];
        producers := producers + [ProducerHandle(topics[i])];
        i := i + 1;
      }
      assert topics[..|topics|] == topics;
      return Pass;
    }

    /**
     * `createConsumers`: asks the driver for one consumer per assignment entry, then
     * joins the futures in order, appending each consumer after the existing ones; the
     * first future that failed is thrown with the consumers before it already appended.
     */
    method CreateConsumers(assignment: ConsumerAssignment, completes: nat -> bool) returns (r: Outcome<WorkerError>)
      modifies this`consumers
      ensures var entries := assignment.topicsSubscriptions;
              driver.None? && |entries| > 0 ==> r == Fail(NoDriver) && consumers == old(consumers)
      ensures var entries := assignment.topicsSubscriptions;
              driver.Some? || |entries| == 0 ==>
                match FirstFailed(completes, |entries|)
                case None => r == Pass && consumers == old(consumers) + ConsumerHandles(entries)
                case Some(k) => r == Fail(DriverCallFailed(k)) && consumers == old(consumers) + ConsumerHandles(entries[..k])
    {
      var entries := assignment.topicsSubscriptions;
      if driver.None? && |entries| > 0 {
        return Fail(NoDriver);
      }
      var i := 0;
      while i < |entries|
        invariant 0 <= i <= |entries|
        invariant consumers == old(consumers) + ConsumerHandles(entries[..i])
        invariant forall m :: 0 <= m < i ==> completes(m)
      {
        if !completes(i) {
          FirstFailedAt(completes, |entries|, i);
          return Fail(DriverCallFailed(i));
        }
        assert entries[..i + 1][..i] == entries[..i];
        var e := entries[i];
        consumers := consumers + [ConsumerHandle(e.topic, e.subscription, e.partition)];
        i := i + 1;
      }
      assert entries[..|entries|] == entries;
      return Pass;
    }

    /**
     * `startLoad`: sets the limiter to the requested rate, unclamped, then submits one
     * task per processor group, in key order. `processors` is the number of available
     * processors.
     */
    method StartLoad(assignment: ProducerWorkAssignment, processors: nat) returns (r: Outcome<WorkerError>)
      requires processors >= 1
      modifies this`rate, this`tasks
      ensures assignment.publishRate <= 0.0 ==> r == Fail(NonPositiveRate) && rate == old(rate) && tasks == old(tasks)
      ensures assignment.publishRate > 0.0 ==>
                r == Pass && rate == assignment.publishRate && tasks == old(tasks) + TasksFor(producers, processors, assignment)
    {
      if assignment.publishRate <= 0.0 {
        return Fail(NonPositiveRate);
      }
      rate := assignment.publishRate;
      var groups := AssignToProcessors(producers, processors);
      var k := 0;
      var count := Min(|producers|, processors);
      var submitted: seq<ProducerTask> := [];
      while k < count
        invariant 0 <= k <= count
        invariant |submitted| == k
        invariant forall j :: 0 <= j < k ==> submitted[j] == TasksFor(producers, processors, assignment)[j]
        invariant tasks == old(tasks)
      {
        submitted := submitted + [ProducerTask(groups[k], assignment.keyDistributorType, assignment.payloadData)];
        k := k + 1;
      }
      tasks := tasks + submitted;
      return Pass;
    }

    method AdjustPublishRate(publishRate: real)
      modifies this`rate
      ensures rate == ClampedRate(publishRate)
    {
      if publishRate < 1.0 {
        rate := 1.0;
        return;
      }
      rate := publishRate;
    }

    method PauseConsumers()
      modifies this`consumersArePaused
      ensures consumersArePaused
    {
      consumersArePaused := true;
    }

    method ResumeConsumers()
      modifies this`consumersArePaused
      ensures !consumersArePaused
    {
      consumersArePaused := false;
    }

    method PauseProducers()
      modifies this`producersArePaused
      ensures producersArePaused
    {
      producersArePaused := true;
    }

    method ResumeProducers()
      modifies this`producersArePaused
      ensures !producersArePaused
    {
      producersArePaused := false;
    }

    method ResetStats()
      modifies this`counters
      ensures counters == Zero
    {
      counters := Zero;
    }

    /**
     * `stopAll`: marks the test completed, clears both pause flags, resets the
     * stats, closes and forgets every producer and consumer and the driver, if any.
     */
    method StopAll()
      modifies this`driver, this`producers, this`consumers, this`testCompleted,
               this`consumersArePaused, this`producersArePaused, this`counters
      ensures State() == Stopped(old(State()))
    {
      testCompleted := true;
      consumersArePaused := false;
      producersArePaused := false;
      counters := Zero;
      producers := [];
      consumers := [];
      if driver.Some? {
        driver := None;
      }
    }
  }
}
