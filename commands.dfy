/** The messages the generator and a worker exchange (the `worker.commands` value types). */
module Commands {
  import opened Wrappers
  import opened Workloads
  import opened Latency

  /** A created topic. */
  datatype Topic = Topic(name: string, partitions: int)

  /**
   * What to create: how many topics, their partition count, an optional fixed name, and
   * (sent only by the Event Hubs generator) an optional name prefix.
   */
  datatype TopicsInfo = TopicsInfo(numberOfTopics: int, numberOfPartitionsPerTopic: int,
                                   topicName: Option<string>, topicNamePrefix: Option<string>)

  /** One consumer to create: topic, subscription name and the consumer's index as its partition. */
  datatype TopicSubscription = TopicSubscription(topic: string, subscription: string, partition: int)

  datatype ConsumerAssignment = ConsumerAssignment(topicsSubscriptions: seq<TopicSubscription>)

  /** The load to start: key distributor, target publish rate and message payload. */
  datatype ProducerWorkAssignment = ProducerWorkAssignment(keyDistributorType: KeyDistributorType,
                                                           publishRate: real, payloadData: seq<bv8>)

  /**
   * One `getPeriodStats` sample: the counters of the period just ended, the
   * process-lifetime totals used for the backlog, and the period's histograms.
   */
  datatype PeriodStats = PeriodStats(
    messagesSent: int, bytesSent: int, requestsSent: int, messageSendErrors: int,
    messagesReceived: int, bytesReceived: int,
    totalMessagesSent: int, totalMessagesReceived: int,
    publishLatency: HistogramSummary, endToEndLatency: HistogramSummary)

  /** One `getCumulativeLatencies` answer: the whole-run histograms. */
  datatype CumulativeLatencies = CumulativeLatencies(publishLatency: HistogramSummary, endToEndLatency: HistogramSummary)

  /**
   * What a generator asks of its `Worker`, in the order it asks, together with the
   * points where it starts a background task, waits, or collects statistics. Queries
   * (`getCountersStats`, `getPeriodStats`, `getCumulativeLatencies`) are not listed:
   * their answers are inputs of the model.
   */
  datatype WorkerCall =
    | CreateTopics(info: TopicsInfo)
    | NotifyTopicCreation(topics: seq<Topic>)
    | CreateProducers(producerTopics: seq<string>)
    | CreateConsumers(assignment: ConsumerAssignment)
    | StartLoad(work: ProducerWorkAssignment)
    | AdjustPublishRate(rate: real)
    | PauseConsumers
    | ResumeConsumers
    | PauseProducers
    | ResumeProducers
    | ResetStats
    | StopAll
    | Settle(millis: nat)                 // Thread.sleep between creating the clients and starting load
    | StartRateSearch(initialRate: real)   // findMaximumSustainableRate submitted to the executor
    | StartBacklogBuild                    // buildAndDrainBacklog submitted to the executor
    | CollectStats(minutes: int)           // one printAndCollectStats window
}
