/** `Workload`: the description of one benchmark workload and its validation. */
module Workloads {
  import opened Wrappers

  /** How producers pick message keys; `NO_KEY` is the default. */
  datatype KeyDistributorType = NoKey | OtherKeyDistributor(name: string)

  /**
   * A workload. The Java `Integer` fields are modelled as present integers; the
   * backlog is the one nullable field whose null the source reads as 0.
   */
  datatype Workload = Workload(
    name: string,
    topics: int,
    partitionsPerTopic: int,
    topicName: Option<string>,
    keyDistributor: KeyDistributorType,
    messageSize: int,
    payloadFile: string,
    subscriptionsPerTopic: int,
    producersPerTopic: int,
    consumerPerSubscription: int,
    producerRate: int,
    consumerBacklogSizeGB: Option<int>,
    testDurationMinutes: int,
    consumerOnly: bool,
    mgmtOperation: Option<string>,
    waitTimeBeforeMgmtOperation: int)
  {
    /** A final field initialised to 4 that no code assigns. */
    const warmupTrafficDurationInMinutes: int := 4

    /** The backlog target in GB, null read as 0. */
    function BacklogGB(): int {
      consumerBacklogSizeGB.GetOr(0)
    }
  }

  /**
   * A workload as deserialised when the input names only the undefaulted fields:
   * the key distributor, backlog, consumer-only flag and management wait take their
   * declared defaults.
   */
  function WithDefaults(name: string, topics: int, partitionsPerTopic: int, topicName: Option<string>,
                        messageSize: int, payloadFile: string, subscriptionsPerTopic: int,
                        producersPerTopic: int, consumerPerSubscription: int, producerRate: int,
                        testDurationMinutes: int, mgmtOperation: Option<string>): (w: Workload)
    ensures w.consumerBacklogSizeGB == Some(0) && w.BacklogGB() == 0
    ensures !w.consumerOnly && w.keyDistributor == NoKey && w.waitTimeBeforeMgmtOperation == 0
    ensures w.warmupTrafficDurationInMinutes == 4
    ensures w.producerRate == producerRate && w.subscriptionsPerTopic == subscriptionsPerTopic
    ensures w.consumerPerSubscription == consumerPerSubscription && w.topics == topics
  {
    Workload(name, topics, partitionsPerTopic, topicName, NoKey, messageSize, payloadFile,
             subscriptionsPerTopic, producersPerTopic, consumerPerSubscription, producerRate,
             Some(0), testDurationMinutes, false, mgmtOperation, 0)
  }

  datatype WorkloadError =
    | ConsumerOnlyNeedsSubscriptions   // "Consumer only tests need subscriptions/consumers"
    | ConsumerOnlyNeedsBacklog         // "Consumer only tests need a backlog specification"
    | NonPositiveProducerRate          // "Producer rate should be > 0"

  /** What a valid workload is, stated without the order of the checks. */
  predicate IsValid(w: Workload) {
    && w.producerRate > 0
    && (w.consumerOnly ==> w.subscriptionsPerTopic != 0 && w.consumerPerSubscription != 0 && w.BacklogGB() > 0)
  }

  /**
   * `validate()`: three checks in order; the first that fails is the exception
   * thrown. It reads the workload and changes nothing.
   */
  function Validate(w: Workload): (r: Outcome<WorkloadError>)
    ensures r == Pass <==> IsValid(w)
    ensures r == Fail(ConsumerOnlyNeedsSubscriptions) <==>
              w.consumerOnly && (w.subscriptionsPerTopic == 0 || w.consumerPerSubscription == 0)
    ensures r == Fail(ConsumerOnlyNeedsBacklog) <==>
              w.consumerOnly && w.subscriptionsPerTopic != 0 && w.consumerPerSubscription != 0 && w.BacklogGB() <= 0
    ensures r == Fail(NonPositiveProducerRate) <==>
              w.producerRate <= 0 && (w.consumerOnly ==> w.subscriptionsPerTopic != 0 && w.consumerPerSubscription != 0 && w.BacklogGB() > 0)
    ensures !w.consumerOnly ==> (r == Pass <==> w.producerRate > 0)
  {
    if w.consumerOnly && (w.subscriptionsPerTopic == 0 || w.consumerPerSubscription == 0) then
      Fail(ConsumerOnlyNeedsSubscriptions)
    else if w.consumerOnly && w.BacklogGB() <= 0 then
      Fail(ConsumerOnlyNeedsBacklog)
    else if w.producerRate <= 0 then
      Fail(NonPositiveProducerRate)
    else
      Pass
  }

  /**
   * A workload that leaves the backlog, consumer-only flag and key distributor at
   * their defaults is valid exactly when its producer rate is positive.
   */
  lemma DefaultedWorkloadValidity(name: string, topics: int, partitionsPerTopic: int, topicName: Option<string>,
                                  messageSize: int, payloadFile: string, subscriptionsPerTopic: int,
                                  producersPerTopic: int, consumerPerSubscription: int, producerRate: int,
                                  testDurationMinutes: int, mgmtOperation: Option<string>)
    ensures var w := WithDefaults(name, topics, partitionsPerTopic, topicName, messageSize, payloadFile,
                                  subscriptionsPerTopic, producersPerTopic, consumerPerSubscription,
                                  producerRate, testDurationMinutes, mgmtOperation);
            Validate(w) == if producerRate > 0 then Pass else Fail(NonPositiveProducerRate)
  {
  }

  /** Making a defaulted workload consumer-only is rejected for want of a backlog, whatever its rate. */
  lemma ConsumerOnlyDefaultBacklogRejected(w: Workload)
    requires w.consumerBacklogSizeGB.None? || w.consumerBacklogSizeGB == Some(0)
    requires w.subscriptionsPerTopic != 0 && w.consumerPerSubscription != 0
    ensures Validate(w.(consumerOnly := true)) == Fail(ConsumerOnlyNeedsBacklog)
  {
  }
}
