# A verified model of the load generator's run control

This Dafny project models the decision logic of a message-broker load generator: the
OpenMessaging benchmark's workload generator and its local worker, and the Event Hubs
performance-testing framework built on them. Everything the generator learns from the outside
world — counter samples, clock readings, latency histograms, random strings,
shuffle draws, the producer configuration — is an input. Each operation is proved
against a specification function, and the properties of the run are lemmas about
those functions.

Modules, one per source component:

- `Wrappers`: `Option` (a Java reference that may be null), `Result` and `Outcome` (a call that returns or throws).
- `Text`: `String.valueOf(int)`, `String.format("%0Nd", i)` and `Integer.parseInt`, with the round trip between them.
- `Commands`: the value types the generator and a worker exchange: topics, subscriptions, counters, period statistics, work assignments, and the `WorkerCall` trace entries.
- `Counters`: `CountersStats.plus` and the merge of several workers' counters.
- `Workloads`, `Payloads`, `Allocations`, `RunArguments`: the input records, their defaults and their validators. `WorkerAllocations` is a class, because `validateAndSetDefaults` assigns its worker count in place.
- `Latency`: the `LatencyMetric` class, with its twelve nullable figures, the prefix-driven `populateLatency`, and the regression filter `compareAndEvaluateDiff`.
- `Workers`: the `LocalWorker` class, with its driver slot, producer and consumer lists, pause and stop flags, rate limiter, and round-robin `startLoad`.
- `Assignments`, `Shuffling`: the producer and consumer lists before the shuffle, and `Collections.shuffle` on an array, with the random draws as an input.
- `Backlog`, `RateSearch`, `Stats`: the polling loops of the generator as functions. These are the backlog build and drain, the adaptive rate search, and the statistics window with its bounded retry.
- `Generator`: the `WorkloadGenerator` class in both copies, selected by a `Variant`. `OpenMessaging` is `benchmark-framework/src/main/java/io/openmessaging/benchmark/WorkloadGenerator.java`. `EventHub` is `src/main/java/microsoft/azure/eventhub/perftesting/framework/WorkloadGenerator.java`. Its methods carry the source's loops, and each is proved equal to the functions above. The worker is represented by the sequence of calls the generator makes on it.
- `Orchestration`: `BenchmarkingRunOrchestrator`, covering:
  - validation before any worker is touched;
  - the choice of worker;
  - the `try`/`catch`/`finally` of a run with its three `stopAll` calls;
  - the derived metadata.

Where the two generator copies differ, the model follows each copy's own code. The differences are:

- the order of producer and consumer creation;
- the settle delay (300000 ms or 60000 ms);
- the warmup length (1 minute or the workload's 4);
- the topic-name prefix;
- the moving-average hook, which only the Event Hubs copy has;
- rate search and backlog build, which only the OpenMessaging copy starts from `run`.

The rate search follows the code, not the usual description of it. `successfulPeriods` is never reset by the other branches. The window therefore narrows on the fourth steady period since the last narrowing, which need not be four consecutive periods.

## Model

| member | source | states |
|---|---|---|
| Counters.Plus | src/main/java/microsoft/azure/eventhub/perftesting/framework/worker/commands/CountersStats.java:22-32 | each of the three counters of the result is the sum of the operands' counters; the operands are values, so neither is changed |
| Counters.PlusCommutes | src/main/java/microsoft/azure/eventhub/perftesting/framework/worker/commands/CountersStats.java:22-32 | `a.plus(b)` equals `b.plus(a)` |
| Counters.PlusAssociates | src/main/java/microsoft/azure/eventhub/perftesting/framework/worker/commands/CountersStats.java:22-32 | merging three records gives the same counters however the `plus` calls are grouped |
| Counters.ZeroIsIdentity | src/main/java/microsoft/azure/eventhub/perftesting/framework/worker/commands/CountersStats.java:17-23 | a freshly constructed record (all counters 0) is a left and right identity of `plus` |
| Counters.SumsSplit | src/main/java/microsoft/azure/eventhub/perftesting/framework/worker/commands/CountersStats.java:18-20 | each per-counter sum over two concatenated lists of worker records is the sum of the two sums |
| Counters.MergeIsSum | src/main/java/microsoft/azure/eventhub/perftesting/framework/worker/commands/CountersStats.java:22-32 | folding `plus` over N workers' counters from a fresh record gives, counter by counter, the arithmetic sum over the workers |
| Counters.MergeSplit | src/main/java/microsoft/azure/eventhub/perftesting/framework/worker/commands/CountersStats.java:22-32 | merging a concatenation of worker lists is `plus` of the two partial merges |
| Workloads.WithDefaults | src/main/java/microsoft/azure/eventhub/perftesting/framework/pojo/inputs/Workload.java:38-72 | a workload built from only the undefaulted fields has the declared defaults: no key distributor, backlog 0, not consumer-only, management wait 0, warmup 4 minutes, and keeps the given fields |
| Workloads.Validate | src/main/java/microsoft/azure/eventhub/perftesting/framework/pojo/inputs/Workload.java:74-86 | passes exactly for a valid workload (positive producer rate; a consumer-only workload also needs subscriptions, consumers and a positive backlog, null read as 0); each of the three exceptions is thrown exactly under its own condition with the earlier checks passing |
| Workloads.DefaultedWorkloadValidity | src/main/java/microsoft/azure/eventhub/perftesting/framework/pojo/inputs/Workload.java:59-86 | a workload that leaves the defaults alone is valid exactly when its producer rate is positive, and otherwise fails with the rate error |
| Workloads.ConsumerOnlyDefaultBacklogRejected | src/main/java/microsoft/azure/eventhub/perftesting/framework/pojo/inputs/Workload.java:59-81 | with a null or zero backlog, a consumer-only workload that has subscriptions and consumers is rejected for want of a backlog |
| Allocations.CheckError | src/main/java/microsoft/azure/eventhub/perftesting/framework/pojo/inputs/WorkerAllocations.java:20-34 | no error when remote workers are not required; "no worker lists" exactly when all three lists are null or empty; "conflict" exactly when the total list and another list are both non-empty |
| Allocations.Defaulted | src/main/java/microsoft/azure/eventhub/perftesting/framework/pojo/inputs/WorkerAllocations.java:20-39 | only the producer node count can change; it changes only on the accepted remote path with a non-empty total list, to the given count or else half the total list rounded down |
| Allocations.DefaultedIdempotent | src/main/java/microsoft/azure/eventhub/perftesting/framework/pojo/inputs/WorkerAllocations.java:20-39 | after a successful `validateAndSetDefaults`, a second call also succeeds and changes nothing |
| Allocations.DefaultedCountFromTotal | src/main/java/microsoft/azure/eventhub/perftesting/framework/pojo/inputs/WorkerAllocations.java:29-37 | with only a non-empty total list the call succeeds, the count is no longer the -1 marker, and a defaulted count is the floor of half the list's size |
| Allocations.WorkerAllocations.constructor | src/main/java/microsoft/azure/eventhub/perftesting/framework/pojo/inputs/WorkerAllocations.java:12-18 | the builder with the three lists sets them and leaves the flag false and the count -1 |
| Allocations.WorkerAllocations.Build | src/main/java/microsoft/azure/eventhub/perftesting/framework/pojo/inputs/WorkerAllocations.java:12-18 | the builder with all five fields sets exactly those values |
| Allocations.WorkerAllocations.ValidateAndSetDefaults | src/main/java/microsoft/azure/eventhub/perftesting/framework/pojo/inputs/WorkerAllocations.java:20-39 | throws exactly the error `CheckError` names for the starting state, and leaves the object in the state `Defaulted` gives; only `producerWorkerNodeCount` is written |
| Payloads.NewPayload | src/main/java/microsoft/azure/eventhub/perftesting/framework/pojo/inputs/Payload.java:18-23 | stores the declared size and file name as given, and the bytes the reader loads for that file name |
| Payloads.Validate | src/main/java/microsoft/azure/eventhub/perftesting/framework/pojo/inputs/Payload.java:25-32 | passes exactly when the declared size equals the data length; the error carries the actual length, then the expected size |
| Payloads.NewPayloadValidates | src/main/java/microsoft/azure/eventhub/perftesting/framework/pojo/inputs/Payload.java:18-32 | a freshly loaded payload validates exactly when the reader returned the declared number of bytes |
| RunArguments.VerdictPassesIffAllPass | src/main/java/microsoft/azure/eventhub/perftesting/framework/pojo/inputs/BenchmarkingRunArguments.java:29-36 | validation passes exactly when the allocation check passes, namespace metadata and run id are present, the workload is valid and the payload size matches |
| RunArguments.VerdictReportsFirstFailure | src/main/java/microsoft/azure/eventhub/perftesting/framework/pojo/inputs/BenchmarkingRunArguments.java:29-36 | the reported error is the first failing check: each error implies that every earlier check passed, and an allocation error always wins |
| RunArguments.BenchmarkingRunArguments.constructor | src/main/java/microsoft/azure/eventhub/perftesting/framework/pojo/inputs/BenchmarkingRunArguments.java:12-27 | the builder stores every field as given |
| RunArguments.BenchmarkingRunArguments.Validate | src/main/java/microsoft/azure/eventhub/perftesting/framework/pojo/inputs/BenchmarkingRunArguments.java:29-36 | the result is the verdict of the five checks in source order on the starting state; the allocation defaults are applied even when a later check fails, and nothing else is written |
| Text.DigitChar | benchmark-framework/src/main/java/io/openmessaging/benchmark/worker/LocalWorker.java:104 | the character written for a decimal digit is a digit character that reads back as that digit |
| Text.DigitCharOfValue | src/main/java/microsoft/azure/eventhub/perftesting/framework/BenchmarkingRunOrchestrator.java:101-104 | writing back the value of a digit character gives that character |
| Text.DigitValue | src/main/java/microsoft/azure/eventhub/perftesting/framework/BenchmarkingRunOrchestrator.java:101-104 | a digit character denotes a value below 10 |
| Text.NatToString | src/main/java/microsoft/azure/eventhub/perftesting/framework/BenchmarkingRunOrchestrator.java:101 | Java's rendering of a natural number is a non-empty digit string with no leading zero |
| Text.Zeros | benchmark-framework/src/main/java/io/openmessaging/benchmark/worker/LocalWorker.java:104 | `k` padding zeros: exactly `k` characters, each '0' |
| Text.ZeroPadded | benchmark-framework/src/main/java/io/openmessaging/benchmark/worker/LocalWorker.java:104 | `"%04d"`-style rendering: all digits, as long as the width or the plain rendering, whichever is longer, and ending in the plain rendering |
| Text.ParseInt | src/main/java/microsoft/azure/eventhub/perftesting/framework/BenchmarkingRunOrchestrator.java:101-104 | `Integer.parseInt` on ASCII text: a parsed value lies in the 32-bit range and comes from non-empty text; exactly which text is accepted is `ParseIntAccepts` and `ParseIntForm` |
| Text.DigitsOfNatToString | src/main/java/microsoft/azure/eventhub/perftesting/framework/BenchmarkingRunOrchestrator.java:101 | the rendering of `n` reads back as `n` |
| Text.DigitsIgnoreLeadingZeros | benchmark-framework/src/main/java/io/openmessaging/benchmark/worker/LocalWorker.java:104 | leading zeros keep a digit string a digit string and do not change its value |
| Text.ZeroPaddedDenotes | benchmark-framework/src/main/java/io/openmessaging/benchmark/worker/LocalWorker.java:104 | a zero-padded rendering still denotes the number it renders |
| Text.SmallNatToString | benchmark-framework/src/main/java/io/openmessaging/benchmark/worker/LocalWorker.java:104 | a number below 10^k renders in at most k digits |
| Text.ParseIntToString | src/main/java/microsoft/azure/eventhub/perftesting/framework/BenchmarkingRunOrchestrator.java:101-104 | `Integer.parseInt(String.valueOf(i)) == i` for every 32-bit int |
| Text.LeadingZeros | src/main/java/microsoft/azure/eventhub/perftesting/framework/BenchmarkingRunOrchestrator.java:101-104 | the count of leading zeros before the significant digits: all of them zeros, and all the digits but the last at most |
| Text.NatToStringOfDigits | src/main/java/microsoft/azure/eventhub/perftesting/framework/BenchmarkingRunOrchestrator.java:101-104 | a digit string without a leading zero is the rendering of the number it denotes |
| Text.DigitsSplit | src/main/java/microsoft/azure/eventhub/perftesting/framework/BenchmarkingRunOrchestrator.java:101-104 | every digit string is leading zeros followed by the rendering of its value |
| Text.ParseIntAccepts | src/main/java/microsoft/azure/eventhub/perftesting/framework/BenchmarkingRunOrchestrator.java:101-104 | every 32-bit value parses from any allowed sign ('+' or none for a non-negative value, '-' for a non-positive one), any number of leading zeros and its digits |
| Text.ParseIntForm | src/main/java/microsoft/azure/eventhub/perftesting/framework/BenchmarkingRunOrchestrator.java:101-104 | conversely, text that parses to `v` is an allowed sign of `v`, leading zeros and the digits of `v`'s magnitude, so anything else fails as Java's NumberFormatException does |
| Text.ParseCanonicalToString | src/main/java/microsoft/azure/eventhub/perftesting/framework/BenchmarkingRunOrchestrator.java:101-104 | text in Java's own rendering (no '+', no leading zero, not "-0") that parses to `v` is exactly `String.valueOf(v)` |
| Workers.TopicsUpTo | benchmark-framework/src/main/java/io/openmessaging/benchmark/worker/LocalWorker.java:102-106 | the first `n` iterations of the loop build `n` topics; topic `i` has name `i` and the requested partition count |
| Workers.TopicsCheck | benchmark-framework/src/main/java/io/openmessaging/benchmark/worker/LocalWorker.java:94-97 | `createTopics` gets past its checks exactly when at least one topic is asked for, a non-empty fixed name comes with exactly one topic, and a driver is present |
| Workers.TopicNaming | benchmark-framework/src/main/java/io/openmessaging/benchmark/worker/LocalWorker.java:103-104 | a fixed topic name is used verbatim; otherwise the name starts with the driver prefix, "-", the random part and "-", and ends in the index zero-padded to four digits, which denotes the index and is exactly four digits below 10000 |
| Workers.ProducerHandles | benchmark-framework/src/main/java/io/openmessaging/benchmark/worker/LocalWorker.java:128-136 | one producer per topic name, in the same order |
| Workers.ConsumerHandles | benchmark-framework/src/main/java/io/openmessaging/benchmark/worker/LocalWorker.java:139-148 | one consumer per assignment entry, with that entry's topic, subscription and partition, in the same order |
| Workers.GroupEmptyBeyond | benchmark-framework/src/main/java/io/openmessaging/benchmark/worker/LocalWorker.java:156-163 | a processor index that the loop has not reached yet has no producers |
| Workers.ModSuccessor | benchmark-framework/src/main/java/io/openmessaging/benchmark/worker/LocalWorker.java:162 | `(i mod p + 1) mod p == (i + 1) mod p`, so `processorIdx` stays `i mod p` |
| Workers.StrideResidue | benchmark-framework/src/main/java/io/openmessaging/benchmark/worker/LocalWorker.java:156-163 | the `j`-th position handed to processor `k` is congruent to `k` modulo the processor count |
| Workers.ResidueInWindow | benchmark-framework/src/main/java/io/openmessaging/benchmark/worker/LocalWorker.java:156-163 | two positions fewer than `processors` apart with the same residue are equal |
| Workers.GroupIsStride | benchmark-framework/src/main/java/io/openmessaging/benchmark/worker/LocalWorker.java:156-163 | round robin: processor `k` receives the producers at `k`, `k + p`, `k + 2p`, … in that order, every such position below `n` and no other |
| Workers.StrideMonotone | benchmark-framework/src/main/java/io/openmessaging/benchmark/worker/LocalWorker.java:156-163 | later positions of one processor's group lie further on |
| Workers.StrideAtQuotient | benchmark-framework/src/main/java/io/openmessaging/benchmark/worker/LocalWorker.java:156-163 | producer `i` is the `(i / p)`-th position of group `i mod p` |
| Workers.ItemPlacement | benchmark-framework/src/main/java/io/openmessaging/benchmark/worker/LocalWorker.java:156-163 | every producer lands in group `i mod p` at position `i / p` |
| Workers.AssignToProcessors | benchmark-framework/src/main/java/io/openmessaging/benchmark/worker/LocalWorker.java:156-163 | the `TreeMap` holds exactly the keys below `min(producers, processors)`, and each key maps to its round-robin group |
| Workers.AssignmentStep | benchmark-framework/src/main/java/io/openmessaging/benchmark/worker/LocalWorker.java:159-163 | one iteration of the assignment loop preserves the keys-and-groups invariant |
| Workers.TasksFor | benchmark-framework/src/main/java/io/openmessaging/benchmark/worker/LocalWorker.java:165-166 | one executor task per non-empty processor group |
| Workers.ClampedRate | benchmark-framework/src/main/java/io/openmessaging/benchmark/worker/LocalWorker.java:201-207 | `adjustPublishRate` sets a rate of at least 1.0, and keeps the requested rate exactly when it is at least 1.0 |
| Workers.Stopped | benchmark-framework/src/main/java/io/openmessaging/benchmark/worker/LocalWorker.java:278-303 | after `stopAll` the test is completed, both pause flags are clear, the counters are reset, and no producer, consumer or driver remains |
| Workers.StopAllIdempotent | benchmark-framework/src/main/java/io/openmessaging/benchmark/worker/LocalWorker.java:278-303 | `stopAll` twice is `stopAll` once, and a stopped worker has no driver, so it accepts `initializeDriver` again |
| Workers.LocalWorker.constructor | benchmark-framework/src/main/java/io/openmessaging/benchmark/worker/LocalWorker.java:60-73 | a fresh worker has no driver and no handles, all flags clear, zero counters and nothing requested or submitted |
| Workers.LocalWorker.InitializeDriver | benchmark-framework/src/main/java/io/openmessaging/benchmark/worker/LocalWorker.java:76-90 | refused with the previous state kept while a driver is active; otherwise `testCompleted` is cleared and the resolved class becomes the driver, failing when the class is not found or its own initialisation fails, in which case the instance is kept |
| Workers.LocalWorker.CreateTopics | benchmark-framework/src/main/java/io/openmessaging/benchmark/worker/LocalWorker.java:93-114 | fails with the first failing check and requests nothing; otherwise asks the driver to create each of the `numberOfTopics` topics named as `TopicsUpTo` gives, in order, and then returns them, or, when a driver future failed, throws the failure of the first such future after every topic has been requested |
| Workers.LocalWorker.RequestTopics | benchmark-framework/src/main/java/io/openmessaging/benchmark/worker/LocalWorker.java:102-108 | the loop builds the topics `TopicsUpTo` names, in index order, and requests each of them from the driver after those already requested |
| Workers.FirstFailed | benchmark-framework/src/main/java/io/openmessaging/benchmark/worker/LocalWorker.java:110 | joining the futures in order throws for the least index whose future failed, and for none exactly when all of them completed |
| Workers.JoinAll | benchmark-framework/src/main/java/io/openmessaging/benchmark/worker/LocalWorker.java:110 | the loop of joins reports exactly the first failed future |
| Workers.LocalWorker.CreateProducers | benchmark-framework/src/main/java/io/openmessaging/benchmark/worker/LocalWorker.java:128-136 | appends one producer per topic name after the existing ones when every driver future completes; when one fails, throws its failure with exactly the producers before it appended; fails without appending any when there is no driver |
| Workers.LocalWorker.CreateConsumers | benchmark-framework/src/main/java/io/openmessaging/benchmark/worker/LocalWorker.java:139-148 | appends one consumer per assignment entry after the existing ones when every driver future completes; when one fails, throws its failure with exactly the consumers before it appended; fails without appending any when there is no driver |
| Workers.LocalWorker.StartLoad | benchmark-framework/src/main/java/io/openmessaging/benchmark/worker/LocalWorker.java:151-167 | a non-positive rate is rejected by the limiter and changes nothing; otherwise the limiter takes the requested rate unclamped and one task per round-robin group is submitted, in key order |
| Workers.LocalWorker.AdjustPublishRate | benchmark-framework/src/main/java/io/openmessaging/benchmark/worker/LocalWorker.java:201-207 | the limiter's rate becomes the requested one clamped to at least 1.0 |
| Workers.LocalWorker.PauseConsumers | benchmark-framework/src/main/java/io/openmessaging/benchmark/worker/LocalWorker.java:244-247 | consumers are paused |
| Workers.LocalWorker.ResumeConsumers | benchmark-framework/src/main/java/io/openmessaging/benchmark/worker/LocalWorker.java:250-253 | consumers are resumed |
| Workers.LocalWorker.PauseProducers | benchmark-framework/src/main/java/io/openmessaging/benchmark/worker/LocalWorker.java:256-259 | producers are paused |
| Workers.LocalWorker.ResumeProducers | benchmark-framework/src/main/java/io/openmessaging/benchmark/worker/LocalWorker.java:262-265 | producers are resumed |
| Workers.LocalWorker.ResetStats | benchmark-framework/src/main/java/io/openmessaging/benchmark/worker/LocalWorker.java:273-275 | the counters return to zero |
| Workers.LocalWorker.StopAll | benchmark-framework/src/main/java/io/openmessaging/benchmark/worker/LocalWorker.java:278-303 | the worker's state becomes `Stopped` of its old state; the rate limiter and the submitted tasks are untouched |
| Assignments.TopicNames | src/main/java/microsoft/azure/eventhub/perftesting/framework/WorkloadGenerator.java:342 | the names of the created topics, one per topic, in order |
| Assignments.ProducerTopicsLength | src/main/java/microsoft/azure/eventhub/perftesting/framework/WorkloadGenerator.java:338-343 | the producer list holds `producersPerTopic · topics` names |
| Assignments.ProducerTopicAt | src/main/java/microsoft/azure/eventhub/perftesting/framework/WorkloadGenerator.java:341-343 | pass `c` of the outer loop puts topic `k`'s name at `c · topics + k` |
| Assignments.ProducerTopicsLayout | src/main/java/microsoft/azure/eventhub/perftesting/framework/WorkloadGenerator.java:338-343 | the whole layout of the producer list: its length and, for every pass and topic, which name sits where |
| Assignments.SlotBelow | src/main/java/microsoft/azure/eventhub/perftesting/framework/WorkloadGenerator.java:341-343 | every (pass, topic) slot lies inside the list |
| Assignments.ProducerTopicsCount | src/main/java/microsoft/azure/eventhub/perftesting/framework/WorkloadGenerator.java:338-343 | each topic name occurs `producersPerTopic` times as often as it does among the topics |
| Assignments.SubscriptionNaming | src/main/java/microsoft/azure/eventhub/perftesting/framework/WorkloadGenerator.java:317-318 | a subscription name starts with `sub-`, the index zero-padded (exactly three digits below 1000) and `-`, and the padded digits denote the index |
| Assignments.ConsumerBlock | src/main/java/microsoft/azure/eventhub/perftesting/framework/WorkloadGenerator.java:319-322 | one subscription's entries: consumers `0 .. consumerPerSubscription - 1` of that topic and subscription, each with its index as partition |
| Assignments.TopicEntriesLength | src/main/java/microsoft/azure/eventhub/perftesting/framework/WorkloadGenerator.java:316-323 | a topic contributes `subscriptions · consumers` entries |
| Assignments.TopicEntryAt | src/main/java/microsoft/azure/eventhub/perftesting/framework/WorkloadGenerator.java:316-323 | consumer `j` of subscription `s` of a topic sits at `s · consumers + j` within that topic's entries |
| Assignments.ConsumerEntriesLength | src/main/java/microsoft/azure/eventhub/perftesting/framework/WorkloadGenerator.java:313-324 | the consumer list over `t` topics holds `t · subscriptions · consumers` entries |
| Assignments.ConsumerEntryAt | src/main/java/microsoft/azure/eventhub/perftesting/framework/WorkloadGenerator.java:313-324 | entry (topic `u`, subscription `i`, consumer `j`) sits at `(u · subscriptions + i) · consumers + j` |
| Assignments.ConsumerEntriesLayout | src/main/java/microsoft/azure/eventhub/perftesting/framework/WorkloadGenerator.java:313-324 | the whole layout of the consumer list before the shuffle: its length and every entry's topic, subscription and partition |
| Shuffling.Swap | src/main/java/microsoft/azure/eventhub/perftesting/framework/WorkloadGenerator.java:326 | one swap of `Collections.shuffle`: the two positions exchange their elements and every other position is unchanged |
| Shuffling.SwapPermutes | src/main/java/microsoft/azure/eventhub/perftesting/framework/WorkloadGenerator.java:326 | a swap keeps every element's number of occurrences |
| Shuffling.ShuffledFromPermutes | src/main/java/microsoft/azure/eventhub/perftesting/framework/WorkloadGenerator.java:326-345 | the remaining swaps of the shuffle keep the length and every element's number of occurrences |
| Shuffling.ShuffledPermutes | src/main/java/microsoft/azure/eventhub/perftesting/framework/WorkloadGenerator.java:326-345 | the shuffled list is a permutation of the list, whatever the random draws |
| Shuffling.Shuffle | src/main/java/microsoft/azure/eventhub/perftesting/framework/WorkloadGenerator.java:326-345 | the in-place shuffle leaves the array holding exactly `Shuffled` of its old contents |
| Shuffling.ShuffleList | src/main/java/microsoft/azure/eventhub/perftesting/framework/WorkloadGenerator.java:326-345 | the shuffled list is `Shuffled` of the input for the given draws, and a permutation of it |
| Backlog.FirstWhere | src/main/java/microsoft/azure/eventhub/perftesting/framework/WorkloadGenerator.java:362-377 | the index a polling loop stops at: the first sample satisfying the exit test, none before it passing; none exactly when no sample passes |
| Backlog.FirstWhereAt | src/main/java/microsoft/azure/eventhub/perftesting/framework/WorkloadGenerator.java:392-407 | a loop that tested every sample before `j` without success and then either succeeded at `j` or ran out stopped where `FirstWhere` says |
| Backlog.DrainSucceedsIff | src/main/java/microsoft/azure/eventhub/perftesting/framework/WorkloadGenerator.java:382-412 | `drainBacklog` completes (rather than times out) exactly when some poll saw a backlog of at most 100 and every poll up to it was within the time budget |
| Backlog.BacklogCallsShape | src/main/java/microsoft/azure/eventhub/perftesting/framework/WorkloadGenerator.java:353-412 | `buildAndDrainBacklog` pauses the consumers first; the build finishes exactly when some sample's byte backlog reached `consumerBacklogSizeGB · 1024³`; only then are producers paused and consumers resumed, with `resumeProducers` issued exactly once, as the last call |
| Backlog.ClearedOnlyWhenDrained | src/main/java/microsoft/azure/eventhub/perftesting/framework/WorkloadGenerator.java:357-397 | `needToWaitForBacklogDraining` ends cleared exactly when the build finished and some drain poll within the budget saw a backlog of at most 100 |
| RateSearch.CappedBy | src/main/java/microsoft/azure/eventhub/perftesting/framework/WorkloadGenerator.java:294 | `Math.min(rate, maxRate)`: at most the rate and within the window's upper end, and equal to one of the two |
| RateSearch.DecideKeepsBounds | src/main/java/microsoft/azure/eventhub/perftesting/framework/WorkloadGenerator.java:249-300 | every control period keeps `0 < minRate <= currentRate <= maxRate` |
| RateSearch.DecideMovesRate | src/main/java/microsoft/azure/eventhub/perftesting/framework/WorkloadGenerator.java:249-300 | per branch: a slowdown halves the distance from the lower end and caps the window at 1.1 times (publishers behind) or exactly (consumers behind) the old rate; an increase raises the rate strictly, at most doubling it, with the old rate as the new lower end; at the ceiling the count goes up, and the fourth such period narrows the window to ±5% and restarts the count |
| RateSearch.FourthSteadyPeriodNarrows | src/main/java/microsoft/azure/eventhub/perftesting/framework/WorkloadGenerator.java:296-300 | from a fresh count at the ceiling, three steady periods only count and the fourth narrows the window to [0.95, 1.05] times the rate |
| RateSearch.SearchUpTo | src/main/java/microsoft/azure/eventhub/perftesting/framework/WorkloadGenerator.java:200-303 | after `k` control periods the search's last period started no later than the clock reading before period `k` |
| RateSearch.SearchUpToNext | src/main/java/microsoft/azure/eventhub/perftesting/framework/WorkloadGenerator.java:200-303 | a search not yet interrupted advances by exactly one control step per period, whose clock reading lies after the previous one |
| RateSearch.InterruptedStays | src/main/java/microsoft/azure/eventhub/perftesting/framework/WorkloadGenerator.java:204-286 | once a sleep is interrupted the search returns, so later periods change nothing |
| RateSearch.SearchKeepsBounds | src/main/java/microsoft/azure/eventhub/perftesting/framework/WorkloadGenerator.java:186-303 | from an initial rate of at least 0.1, every state the search passes through keeps `0 < minRate <= currentRate <= maxRate` |
| RateSearch.SearchAdjustsEveryPeriod | src/main/java/microsoft/azure/eventhub/perftesting/framework/WorkloadGenerator.java:249-302 | the search only calls `adjustPublishRate`, at least once per completed period, and each completed period ends by setting the rate it decided on |
| RateSearch.LagBranch | src/main/java/microsoft/azure/eventhub/perftesting/framework/WorkloadGenerator.java:209-302 | one period: the rates move as `Decide` says and the period's timestamp is the clock reading; in the consumer-lag branch the first call sets a tenth of the lower end; the search goes on exactly when a wait sample had a backlog under 1000 and the half-second sleep after restoring the rate was not interrupted, and then the new rate is set twice and the baselines come from the re-read counters; a wait whose samples run out makes that one call, and an interrupted half-second sleep makes exactly the two calls and keeps the sample's baselines; the other branches make one call and move the baselines to the sample |
| Stats.Summarised | src/main/java/microsoft/azure/eventhub/perftesting/framework/WorkloadGenerator.java:492-493 | a fresh latency metric after both populate calls has every one of the twelve fields set |
| Stats.SummarisedPointwise | src/main/java/microsoft/azure/eventhub/perftesting/framework/WorkloadGenerator.java:492-539 | a complete metric whose every field holds its histogram's figure in milliseconds is exactly `Summarised` of the two histograms |
| Stats.Snapshots | src/main/java/microsoft/azure/eventhub/perftesting/framework/WorkloadGenerator.java:431-546 | the polls of a window yield exactly one snapshot each |
| Stats.SnapshotsAt | src/main/java/microsoft/azure/eventhub/perftesting/framework/WorkloadGenerator.java:440-495 | snapshot `i` is poll `i`'s: its rates are over the period since the previous clock reading, with the backlog and latencies of that poll |
| Stats.SnapshotAt | src/main/java/microsoft/azure/eventhub/perftesting/framework/WorkloadGenerator.java:440-495 | the same for one index `i` |
| Stats.FirstFetched | src/main/java/microsoft/azure/eventhub/perftesting/framework/WorkloadGenerator.java:498-510 | the first attempt in range whose `getCumulativeLatencies` answered, with every earlier attempt failed; none exactly when all failed |
| Stats.FirstFetchedAt | src/main/java/microsoft/azure/eventhub/perftesting/framework/WorkloadGenerator.java:498-510 | a retry loop that saw attempts `0 .. b - 1` fail and then stopped at `b` stopped where `FirstFetched` says |
| Stats.HookCounts | src/main/java/microsoft/azure/eventhub/perftesting/framework/WorkloadGenerator.java:494 | `calculateMovingAverage` sees the snapshot count before each append, `0, 1, 2, …`, in the Event Hubs generator, and is never called in the OpenMessaging one |
| Stats.FetchAttempts | src/main/java/microsoft/azure/eventhub/perftesting/framework/WorkloadGenerator.java:497-514 | `getCumulativeLatencies` is called at most 10 times per window |
| Stats.InterruptedWindow | src/main/java/microsoft/azure/eventhub/perftesting/framework/WorkloadGenerator.java:431-547 | a window none of whose polls ends it (the sleep was interrupted) returns every poll's snapshot, no aggregate, and fetches nothing |
| Stats.EndsAt | src/main/java/microsoft/azure/eventhub/perftesting/framework/WorkloadGenerator.java:497 | the loop reaches its `break` exactly when some poll is past the end time with no drain pending |
| Stats.WindowFailsIff | src/main/java/microsoft/azure/eventhub/perftesting/framework/WorkloadGenerator.java:414-548 | the call throws exactly when the window ended and all ten fetch attempts failed; otherwise the aggregate is present exactly when the window ended, and the result carries the run ID and the window's length |
| Stats.SnapshotBacklogs | src/main/java/microsoft/azure/eventhub/perftesting/framework/WorkloadGenerator.java:451-489 | every snapshot records the backlog `subscriptionsPerTopic · totalMessagesSent − totalMessagesReceived` of its poll |
| Stats.ResultSnapshots | src/main/java/microsoft/azure/eventhub/perftesting/framework/WorkloadGenerator.java:495-547 | a successful window's snapshots are those of the polls it counts |
| Stats.PollCountBounds | src/main/java/microsoft/azure/eventhub/perftesting/framework/WorkloadGenerator.java:431-546 | the window counts the polls up to and including the first past the end time with no drain pending, and none after it; it counts all of them when none ends the window |
| Stats.UnboundedWindowNeverEnds | src/main/java/microsoft/azure/eventhub/perftesting/framework/WorkloadGenerator.java:420-497 | a window of no positive length (end time `Long.MAX_VALUE`) never ends by itself: it snapshots every poll and never fetches |
| Latency.FieldIndex | src/main/java/microsoft/azure/eventhub/perftesting/framework/pojo/output/LatencyMetric.java:18-30 | every field has a position among the twelve declared `Double` fields |
| Latency.FieldAt | src/main/java/microsoft/azure/eventhub/perftesting/framework/pojo/output/LatencyMetric.java:18-30 | position `i` of the model's visit order is the field declared `i`-th; the reflective loops at lines 54 and 74 are taken to visit the fields in that order (see Left out) |
| Latency.FieldAtIndex | src/main/java/microsoft/azure/eventhub/perftesting/framework/pojo/output/LatencyMetric.java:18-30 | positions and fields correspond one to one |
| Latency.IsPublishField | src/main/java/microsoft/azure/eventhub/perftesting/framework/pojo/output/LatencyMetric.java:18-30 | the publish fields are exactly the first six |
| Latency.FieldPrefixes | src/main/java/microsoft/azure/eventhub/perftesting/framework/pojo/output/LatencyMetric.java:75 | a field's name starts with `publishLatency` exactly when it is a publish field, and with `endToEndLatency` exactly when it is not |
| Latency.SuffixDispatch | src/main/java/microsoft/azure/eventhub/perftesting/framework/pojo/output/LatencyMetric.java:77-87 | after stripping its own prefix, every field's suffix selects that field's own histogram figure in milliseconds; the `default -> 0` branch is never taken |
| Latency.PublishPopulated | src/main/java/microsoft/azure/eventhub/perftesting/framework/pojo/output/LatencyMetric.java:36-94 | with the publish prefix, exactly the publish fields take the histogram's figure |
| Latency.EndToEndPopulated | src/main/java/microsoft/azure/eventhub/perftesting/framework/pojo/output/LatencyMetric.java:40-94 | with the end-to-end prefix, exactly the end-to-end fields take the histogram's figure |
| Latency.PopulatedUpTo | src/main/java/microsoft/azure/eventhub/perftesting/framework/pojo/output/LatencyMetric.java:74-90 | the reflective loop keeps all twelve fields present |
| Latency.PopulatedUpToPointwise | src/main/java/microsoft/azure/eventhub/perftesting/framework/pojo/output/LatencyMetric.java:74-90 | after visiting the first `k` fields, exactly those among them whose name has the prefix have changed, each to its suffix's figure |
| Latency.AppendReason | src/main/java/microsoft/azure/eventhub/perftesting/framework/pojo/output/LatencyMetric.java:96-112 | one entry with the field's name, current and expected value is appended exactly when both values are present and the current one exceeds `(1 + threshold/100)` times the expected one; otherwise the list is unchanged |
| Latency.FieldNameInjective | src/main/java/microsoft/azure/eventhub/perftesting/framework/pojo/output/LatencyMetric.java:18-30 | distinct fields have distinct names, so an entry's name identifies its field |
| Latency.DiffCharacterised | src/main/java/microsoft/azure/eventhub/perftesting/framework/pojo/output/LatencyMetric.java:51-112 | a field has an entry exactly when it regressed (both values present and the current above the margin); the entry records its name, current and expected value; every entry is a regressed field's; at most twelve entries |
| Latency.RegressedHaveEntries | src/main/java/microsoft/azure/eventhub/perftesting/framework/pojo/output/LatencyMetric.java:51-69 | every regressed field has its entry in the result |
| Latency.EntriesAreRegressions | src/main/java/microsoft/azure/eventhub/perftesting/framework/pojo/output/LatencyMetric.java:51-69 | every entry in the result belongs to a regressed field, and a field whose entry appears regressed |
| Latency.DiffInFieldOrder | src/main/java/microsoft/azure/eventhub/perftesting/framework/pojo/output/LatencyMetric.java:54-66 | with the fields visited in declaration order, entry `i` is that of the `i`-th regressed field, and those fields have strictly increasing positions, so none is reported twice |
| Latency.DiffFollowsFields | src/main/java/microsoft/azure/eventhub/perftesting/framework/pojo/output/LatencyMetric.java:54-66 | among the first `k` fields, entry `i` is the entry of the `i`-th regressed field |
| Latency.RegressedFieldsOrdered | src/main/java/microsoft/azure/eventhub/perftesting/framework/pojo/output/LatencyMetric.java:54-66 | the regressed fields among the first `k` are regressed, below `k`, and in strictly increasing position |
| Latency.RegressedFieldsMembers | src/main/java/microsoft/azure/eventhub/perftesting/framework/pojo/output/LatencyMetric.java:54-66 | a field is among the regressed fields of the first `k` exactly when it is below `k` and regressed |
| Latency.NoRegressionNoEntries | src/main/java/microsoft/azure/eventhub/perftesting/framework/pojo/output/LatencyMetric.java:51-69 | with no regressed field, the comparison returns the empty list |
| Latency.SelfComparisonIsEmpty | src/main/java/microsoft/azure/eventhub/perftesting/framework/pojo/output/LatencyMetric.java:51-104 | a metric with non-negative values compared with itself at a non-negative threshold reports nothing |
| Latency.LatencyMetric.constructor | src/main/java/microsoft/azure/eventhub/perftesting/framework/pojo/output/LatencyMetric.java:14-30 | the no-argument constructor leaves every field null |
| Latency.LatencyMetric.PopulateLatency | src/main/java/microsoft/azure/eventhub/perftesting/framework/pojo/output/LatencyMetric.java:72-94 | every field whose name starts with the prefix gets the figure its suffix selects; the others keep their values |
| Latency.LatencyMetric.PopulatePublishLatency | src/main/java/microsoft/azure/eventhub/perftesting/framework/pojo/output/LatencyMetric.java:36-38 | the six publish fields get the histogram's figures in milliseconds; the end-to-end fields keep their values |
| Latency.LatencyMetric.PopulateE2ELatency | src/main/java/microsoft/azure/eventhub/perftesting/framework/pojo/output/LatencyMetric.java:40-42 | the six end-to-end fields get the histogram's figures in milliseconds; the publish fields keep their values |
| Latency.LatencyMetric.CompareAndEvaluateDiff | src/main/java/microsoft/azure/eventhub/perftesting/framework/pojo/output/LatencyMetric.java:51-69 | the result is the comparison `Diff` of this metric against the other, whose properties the lemmas above state; neither metric changes |
| Generator.ConstructorCheck | src/main/java/microsoft/azure/eventhub/perftesting/framework/WorkloadGenerator.java:68-72 | the constructor throws exactly when a consumer backlog is requested while the producer rate is 0 (to be searched for), with the "cannot probe" error; the OpenMessaging copy checks the same |
| Generator.TopicPrefix | src/main/java/microsoft/azure/eventhub/perftesting/framework/WorkloadGenerator.java:88-97 | the topic-name prefix starts with the test name and is exactly the test name when there is no suite name; otherwise it continues with `-` and the suite name |
| Generator.ProducerListCounts | src/main/java/microsoft/azure/eventhub/perftesting/framework/WorkloadGenerator.java:337-351 | the shuffled producer list has `producersPerTopic × topics` entries and each topic name occurs `producersPerTopic` times as often as among the topics |
| Generator.ConsumerListShape | src/main/java/microsoft/azure/eventhub/perftesting/framework/WorkloadGenerator.java:312-335 | the shuffled consumer assignment is a permutation of one entry per (topic, subscription, consumer): `topics × subscriptionsPerTopic × consumerPerSubscription` entries, each naming its topic, its consumer index as partition, and its subscription's name, shared by the subscription's consumers and beginning `sub-`, the index in three digits and `-` |
| Generator.RunResetsBetweenWindows | src/main/java/microsoft/azure/eventhub/perftesting/framework/WorkloadGenerator.java:86-141 | `run` creates the topics first; `resetStats` is issued once, right between the warmup window and the measured one, exactly when the warmup window succeeded; `stopAll` is issued once, as the last call, exactly when both windows succeeded (the OpenMessaging copy, benchmark-framework/src/main/java/io/openmessaging/benchmark/WorkloadGenerator.java lines 82-146, likewise) |
| Generator.CompletedRunCallsEnd | src/main/java/microsoft/azure/eventhub/perftesting/framework/WorkloadGenerator.java:132-139 | a run whose two windows complete ends with `stopAll` |
| Generator.WindowCalls | src/main/java/microsoft/azure/eventhub/perftesting/framework/WorkloadGenerator.java:128-139 | after a setup without `resetStats` or `stopAll`, the window calls hold `resetStats` once exactly when the warmup succeeded, right after it and before the measured window, and `stopAll` once, last, exactly when both succeeded |
| Generator.SetupHasNoWindowCalls | src/main/java/microsoft/azure/eventhub/perftesting/framework/WorkloadGenerator.java:86-111 | the setup part of `run` issues neither `resetStats` nor `stopAll` |
| Generator.SetupStartsWithTopics | src/main/java/microsoft/azure/eventhub/perftesting/framework/WorkloadGenerator.java:86-97 | the setup is not empty and its first call creates the topics |
| Generator.SetupOrder | src/main/java/microsoft/azure/eventhub/perftesting/framework/WorkloadGenerator.java:86-111 | the setup order of both copies: topics created then announced; consumers created exactly when `consumerPerSubscription > 0`, after the producers and before the 300000 ms settle in the OpenMessaging copy (benchmark-framework/src/main/java/io/openmessaging/benchmark/WorkloadGenerator.java lines 84-131), before the 60000 ms settle and the producers in the Event Hubs copy; then the load starts, followed in the OpenMessaging copy only by the rate search (exactly when the producer rate is 0) and the backlog build (exactly when a backlog is requested) |
| Generator.OpenMessagingSetupOrder | benchmark-framework/src/main/java/io/openmessaging/benchmark/WorkloadGenerator.java:82-131 | the OpenMessaging copy's setup: create and announce topics, create producers, then consumers when `consumerPerSubscription > 0`, settle 300000 ms, start the rate search at 10000 exactly when the rate is 0, start the load, and end with the backlog build exactly when a backlog is requested |
| Generator.EventHubSetupOrder | src/main/java/microsoft/azure/eventhub/perftesting/framework/WorkloadGenerator.java:86-111 | the Event Hubs copy's setup: create and announce topics, create consumers when `consumerPerSubscription > 0`, settle 60000 ms, create producers, start the load, and nothing else |
| Generator.RunResultIff | src/main/java/microsoft/azure/eventhub/perftesting/framework/WorkloadGenerator.java:86-141 | `run` returns a result exactly when neither window failed; the result carries the run id, the test duration and an aggregate exactly when the measured window reached its end; a failing warmup ends the run with the aggregate-latencies error |
| Generator.WorkloadGenerator.constructor | src/main/java/microsoft/azure/eventhub/perftesting/framework/WorkloadGenerator.java:62-80 | the fields hold the workload, run id, test and suite names, and a work assignment made of the key distributor, the workload's rate and the payload; no run completed, no drain pending |
| Generator.WorkloadGenerator.New | src/main/java/microsoft/azure/eventhub/perftesting/framework/WorkloadGenerator.java:62-80 | construction fails exactly when the constructor's check fails, with its error; otherwise it yields a fresh generator holding the arguments |
| Generator.WorkloadGenerator.Run | src/main/java/microsoft/azure/eventhub/perftesting/framework/WorkloadGenerator.java:86-141 | the calls issued are `RunCalls` for the windows' outcomes and the result is `RunResult` (properties above); `runCompleted` is set exactly when both windows succeed; the OpenMessaging copy (benchmark-framework/src/main/java/io/openmessaging/benchmark/WorkloadGenerator.java lines 82-146) sets the target rate to the workload's or 10000 |
| Generator.WorkloadGenerator.Setup | src/main/java/microsoft/azure/eventhub/perftesting/framework/WorkloadGenerator.java:86-111 | the setup's calls are `SetupCalls` for this copy, with the OpenMessaging copy (benchmark-framework/src/main/java/io/openmessaging/benchmark/WorkloadGenerator.java lines 84-131) building the work from the target rate and the payload, and the Event Hubs copy using the one built at construction |
| Generator.WorkloadGenerator.CreateProducers | src/main/java/microsoft/azure/eventhub/perftesting/framework/WorkloadGenerator.java:337-351 | the call hands the worker the shuffled producer list, a permutation of the topic names repeated `producersPerTopic` times |
| Generator.WorkloadGenerator.CreateConsumers | src/main/java/microsoft/azure/eventhub/perftesting/framework/WorkloadGenerator.java:312-335 | the call hands the worker the shuffled consumer assignment whose shape `ConsumerListShape` states |
| Generator.WorkloadGenerator.AddTopic | src/main/java/microsoft/azure/eventhub/perftesting/framework/WorkloadGenerator.java:316-324 | the subscription loop of one topic appends, per subscription in order, its consumers' entries |
| Generator.WorkloadGenerator.AddSubscription | src/main/java/microsoft/azure/eventhub/perftesting/framework/WorkloadGenerator.java:319-322 | the consumer loop appends consumers `0 .. consumerPerSubscription - 1` of one subscription, in order |
| Generator.WorkloadGenerator.FindMaximumSustainableRate | src/main/java/microsoft/azure/eventhub/perftesting/framework/WorkloadGenerator.java:186-304 | the search's end state, its `adjustPublishRate` calls and whether a lag wait was interrupted are those of `SearchUpTo`, one control step per period whose properties the rate-search lemmas state |
| Generator.WorkloadGenerator.ControlStep | src/main/java/microsoft/azure/eventhub/perftesting/framework/WorkloadGenerator.java:200-303 | one control period computes exactly `PeriodStep`: the rates from the counters' deltas over the elapsed time, the four-way rate decision, and the consumer-lag branch's wait loop and half-second sleep, either of which can end the search |
| Generator.WorkloadGenerator.DrainBacklog | src/main/java/microsoft/azure/eventhub/perftesting/framework/WorkloadGenerator.java:382-412 | producers are paused and consumers resumed, then producers resumed; the drain flag is cleared exactly when some poll within the budget saw a backlog of at most 100 |
| Generator.WorkloadGenerator.BuildAndDrainBacklog | src/main/java/microsoft/azure/eventhub/perftesting/framework/WorkloadGenerator.java:353-380 | the calls are `BacklogCalls` and the drain flag ends set exactly when the backlog was built but not drained within 1000000 ms |
| Generator.WorkloadGenerator.FetchCumulativeLatencies | src/main/java/microsoft/azure/eventhub/perftesting/framework/WorkloadGenerator.java:497-514 | between one and ten attempts; every attempt before the last failed; the answer is the first successful attempt's, or none after ten failures |
| Generator.WorkloadGenerator.PrintAndCollectStats | src/main/java/microsoft/azure/eventhub/perftesting/framework/WorkloadGenerator.java:414-548 | the window's result is `WindowResult` and its fetch attempts `FetchAttempts`, the window functions whose properties the stats lemmas state |
| Generator.WorkloadGenerator.CollectSnapshots | src/main/java/microsoft/azure/eventhub/perftesting/framework/WorkloadGenerator.java:431-497 | the loop stops at the first poll past the end time with no drain pending, or runs through all polls; it has taken one snapshot per poll up to there, with the hook counts of the Event Hubs copy |
| Generator.WorkloadGenerator.EndWindow | src/main/java/microsoft/azure/eventhub/perftesting/framework/WorkloadGenerator.java:497-547 | at the window's end the result carries the snapshots and the fetched aggregate, or the call fails when ten fetches fail |
| Generator.WorkloadGenerator.TakeSnapshot | src/main/java/microsoft/azure/eventhub/perftesting/framework/WorkloadGenerator.java:438-493 | a snapshot is `SnapshotOf` the poll: rates over the elapsed seconds, the backlog, and the period's latencies |
| Generator.WorkloadGenerator.Summarise | src/main/java/microsoft/azure/eventhub/perftesting/framework/WorkloadGenerator.java:492-493 | a fresh `LatencyMetric` filled by `populatePublishLatency` then `populateE2ELatency` holds `Summarised`: every field has its histogram's figure |
| Orchestration.WorkerFor | src/main/java/microsoft/azure/eventhub/perftesting/framework/BenchmarkingRunOrchestrator.java:125-133 | the distributed ensemble exactly when remote workers are required, a local worker exactly when not |
| Orchestration.JavaDiv | src/main/java/microsoft/azure/eventhub/perftesting/framework/BenchmarkingRunOrchestrator.java:101 | Java's `int` division: the quotient truncated toward zero, for negative dividends too |
| Orchestration.BatchSize | src/main/java/microsoft/azure/eventhub/perftesting/framework/BenchmarkingRunOrchestrator.java:99-101 | `batch.size` (default "1048576") must parse as a Java `int`, else the parse error names the text; the figure is the truncated quotient by 1024 followed by "KB" |
| Orchestration.BatchCount | src/main/java/microsoft/azure/eventhub/perftesting/framework/BenchmarkingRunOrchestrator.java:102-104 | `batch.count` (default "1") must parse as a Java `int`, else the parse error names the text; the count is the parsed value |
| Orchestration.CamelTags | src/main/java/microsoft/azure/eventhub/perftesting/framework/BenchmarkingRunOrchestrator.java:118-121 | a null tag list gives no tags; otherwise one camel-cased tag per tag, in order |
| Orchestration.MetadataFields | src/main/java/microsoft/azure/eventhub/perftesting/framework/BenchmarkingRunOrchestrator.java:99-122 | the metadata exists exactly when both batch properties parse, the batch size's error coming first; it holds the workload's name, payload file, topic, partition, producer and subscription counts, `consumerPerSubscription × subscriptionsPerTopic` consumers, the namespace name, the batch figures and the camel-cased tags |
| Orchestration.DefaultBatchSizeFigure | src/main/java/microsoft/azure/eventhub/perftesting/framework/BenchmarkingRunOrchestrator.java:99-101 | without `batch.size` the batch size reads "1024KB" |
| Orchestration.DefaultBatchCountFigure | src/main/java/microsoft/azure/eventhub/perftesting/framework/BenchmarkingRunOrchestrator.java:102-104 | without `batch.count` the batch count is 1 |
| Orchestration.DefaultSizeDigits | src/main/java/microsoft/azure/eventhub/perftesting/framework/BenchmarkingRunOrchestrator.java:100 | the default batch size text is the decimal rendering of 1048576 |
| Orchestration.KilobyteDigits | src/main/java/microsoft/azure/eventhub/perftesting/framework/BenchmarkingRunOrchestrator.java:101 | 1048576 / 1024 renders as "1024" |
| Orchestration.BatchSizeOfWrittenInt | src/main/java/microsoft/azure/eventhub/perftesting/framework/BenchmarkingRunOrchestrator.java:99-101 | a `batch.size` holding any Java `int` as Java writes it parses back, and reports that value truncated to whole KB |
| Orchestration.OnWorker | src/main/java/microsoft/azure/eventhub/perftesting/framework/BenchmarkingRunOrchestrator.java:59-61 | the generator's calls, in the same order and number, made on the worker held |
| Orchestration.TryOutcomeIff | src/main/java/microsoft/azure/eventhub/perftesting/framework/BenchmarkingRunOrchestrator.java:53-72 | the `try` block completes exactly when the generator is constructed, the management operation (if any) is set up, both windows are collected and the metadata is derived; the result carries the run id, the test duration and an aggregate exactly when the measured window ended; a rejected constructor or a failed window is the wrapped cause |
| Orchestration.CloseIffCompleted | src/main/java/microsoft/azure/eventhub/perftesting/framework/BenchmarkingRunOrchestrator.java:59-65 | `generator.close()`'s `stopAll` is made exactly when the `try` block completes |
| Orchestration.CompletedRunStopsThrice | src/main/java/microsoft/azure/eventhub/perftesting/framework/BenchmarkingRunOrchestrator.java:57-79 | a completed run ends with three `stopAll` calls on its worker: the generator's own, `close`'s and the one in `finally` |
| Orchestration.EndsWithStops | src/main/java/microsoft/azure/eventhub/perftesting/framework/BenchmarkingRunOrchestrator.java:64-75 | a trace ending in the generator's `stopAll`, followed by `close`'s and `finally`'s stops, ends in those three calls |
| Orchestration.CompletedRunWindows | src/main/java/microsoft/azure/eventhub/perftesting/framework/BenchmarkingRunOrchestrator.java:59-62 | a completed `try` block ran the Event Hubs generator with both windows succeeding |
| Orchestration.TryStages | src/main/java/microsoft/azure/eventhub/perftesting/framework/BenchmarkingRunOrchestrator.java:57-72 | the `try` block stage by stage: a rejected constructor or a failed management setup throws before any generator call; a failed window throws after the generator's calls; a metadata parse error throws after them but before `close`; otherwise the result is returned after `close` |
| Orchestration.RunOn | src/main/java/microsoft/azure/eventhub/perftesting/framework/BenchmarkingRunOrchestrator.java:61 | `generator.run()` on the generator built from the arguments yields the Event Hubs generator's outcome and calls |
| Orchestration.TestDetails.constructor | src/main/java/microsoft/azure/eventhub/perftesting/framework/BenchmarkingRunOrchestrator.java:84-95 | a fresh record has every field the orchestrator fills null |
| Orchestration.TestDetails.Enrich | src/main/java/microsoft/azure/eventhub/perftesting/framework/BenchmarkingRunOrchestrator.java:84-123 | the names, product, SKU and protocol are copied first; the metadata is set exactly when both batch properties parse and is then the derived metadata; a parse failure is thrown and leaves the metadata as it was |
| Orchestration.Orchestrator.constructor | src/main/java/microsoft/azure/eventhub/perftesting/framework/BenchmarkingRunOrchestrator.java:31 | no worker is held and no call has been made |
| Orchestration.Orchestrator.StopDistributedWorkers | src/main/java/microsoft/azure/eventhub/perftesting/framework/BenchmarkingRunOrchestrator.java:135-146 | a worker left from an earlier run is stopped and forgotten; with none, nothing is called |
| Orchestration.Orchestrator.ExecuteBenchmarkingRun | src/main/java/microsoft/azure/eventhub/perftesting/framework/BenchmarkingRunOrchestrator.java:34-43 | a failed validation is thrown as it is, with no worker call and the held worker unchanged; otherwise the leftover worker is stopped, the allocation's worker is built, `stopAll` and `initializeDriver` (with the run's namespace metadata) precede the `try` block's calls, `stopAll` follows on every path, no worker is left held, and the result is the `try` block's (enriched) or its wrapped failure; the worker allocation gets its defaults |
| Orchestration.Orchestrator.RunTestAndReturnResult | src/main/java/microsoft/azure/eventhub/perftesting/framework/BenchmarkingRunOrchestrator.java:45-82 | `stopAll`, `initializeDriver`, the `try` block's calls, then `stopAll` in `finally` on every path; the worker is forgotten; the result is the `try` block's, enriched, or its failure |
| Orchestration.Orchestrator.RunGenerator | src/main/java/microsoft/azure/eventhub/perftesting/framework/BenchmarkingRunOrchestrator.java:59-64 | the `try` block after the driver is initialised: its calls are `TryCalls` and its outcome `TryOutcome`, whose stages `TryStages` states |
| Orchestration.Orchestrator.RunAndClose | src/main/java/microsoft/azure/eventhub/perftesting/framework/BenchmarkingRunOrchestrator.java:61-64 | a failed `run` is rethrown after its calls; a metadata parse error after the generator's calls without `close`; otherwise the enriched result after `close`'s `stopAll` |
| Orchestration.Orchestrator.EnrichAndClose | src/main/java/microsoft/azure/eventhub/perftesting/framework/BenchmarkingRunOrchestrator.java:62-64 | the result enriched with the derived metadata, then `close`'s `stopAll`; a parse error is thrown before `close`, with no call |

## Left out

- Floating point: rates, thresholds and latencies are `real`. IEEE rounding, `Precision.round`, `DecimalFormat` output and the rounding in `microsToMillis` are not modelled. `Double.MAX_VALUE` as the initial `maxRate` is the sentinel `Unbounded`.
- HdrHistogram: a histogram is given as its mean, percentiles and maximum, in microseconds.
- Threads and timing. The model leaves out:
  - the producer and consumer threads, the executor, and the busy-wait pause loops;
  - `volatile` semantics;
  - `Thread.sleep`.

  Clock readings (`System.nanoTime`, stopwatches) are inputs that must advance between polls. A sleep interrupted inside a polling loop is represented by the input samples running out; the consumer-lag branch's half-second sleep, which polls nothing, has its own input `settleInterrupted`; an interrupted three-second control sleep is the sequence of control periods ending.
- `startTime` and `oldTime` of a statistics window are separate inputs, since the source reads the clock twice.
- Latency.FieldAt: the model visits the twelve latency fields in declaration order, the order HotSpot's `getDeclaredFields` returns. The Java API leaves that order unspecified, so the order of the entries that `DiffInFieldOrder`, `DiffFollowsFields` and `RegressedFieldsOrdered` state is not promised by the source; which fields have entries (`DiffCharacterised`) and what `populateLatency` writes do not depend on the order.
- Workloads.Validate: `producerRate`, `subscriptionsPerTopic` and `consumerPerSubscription` are nullable `Integer` fields. `validate` always unboxes `producerRate`; for a consumer-only workload it also unboxes `subscriptionsPerTopic`, and then `consumerPerSubscription` when the subscription count is non-zero. The model's fields are plain integers, so the `NullPointerException` that `validate` throws for a workload missing one of these fields is not modelled.
- Text.ParseInt: only the ASCII digits '0' to '9' are accepted. `Integer.parseInt` also accepts every other Unicode decimal digit (through `Character.digit`), so for example the full-width digits U+FF11 U+FF10 U+FF12 U+FF14 read as 1024 in Java and as a batch-property parse error in the model.
- Java `long`/`int` overflow in counters, backlog arithmetic and `GB × 1024³` is not modelled: integers are unbounded. `Integer.parseInt` itself does range-check to 32 bits.
- `aggregateResult.calculateMovingAverage` is foreign to the core. The model records only the snapshot count each call receives.
- Driver futures in `LocalWorker`: whether each future completes is the input `completes`; the driver's own failure is not otherwise modelled, and the `CompletionException` is the error `DriverCallFailed` carrying the index of the first failed future.
- Worker failures: `IOException`s from worker calls other than the cumulative-latency fetch are not modelled. This includes the `stopAll` failure swallowed in `finally`.
- `RandomGenerator.getRandomString`, `CaseUtils.toCamelCase`, `Runtime.availableProcessors` and the payload reader are parameters. `Properties.load` is replaced by a map of producer properties.
- The management-operation thread: the success of its reflective setup is the input `mgmtSetupOk`. Scheduling it and shutting it down in `finally` are not modelled.
- `DistributedWorkersEnsemble` appears only as the `WorkerKind` the orchestrator picks. Its behaviour is not part of this model.
- `runTestAndReturnResult` assigns `driverConfiguration.namespaceMetadata` in place. The model passes the updated copy to `initializeDriver`.
- Logging and the JSON writer of the orchestrator and the generator are left out. So are the `testStartTime` and `timestamp` strings built from `Instant.now()`, and the publish/consume throughput figures that are only logged.
- `ensureTopicsAreReady` and `probeProducers` are never called and are not modelled. Nor is the Event Hubs copy's commented-out backlog call site: its backlog routines are modelled as standalone methods of the class.
- `close` is modelled as the `stopAll` it issues. The executor shutdown is not modelled.
- The OpenMessaging copy's own `Workload` class is not part of this model. Both copies are run on the Event Hubs `Workload` record.
- `Generator.WorkloadGenerator.FindMaximumSustainableRate`: the background task runs until it reads `runCompleted` set. The model runs it over a given sequence of control periods and does not interleave it with `run`.
- `Generator.WorkloadGenerator.CollectSnapshots`: the aggregate fetch happens after the loop, in `EndWindow`, rather than inside it before the `break`. The order of effects is the same.
- `LocalWorker` leaves out the following, which are sleeps and callbacks into the drivers:
  - the message callbacks (`messageReceived`, `internalMessageReceived`);
  - the statistics queries (`getPeriodStats`, `getCumulativeLatencies`, `getCountersStats`);
  - `notifyTopicCreation`, which forwards each topic to the driver and waits;
  - the body of the producer tasks (`submitProducersToExecutor`): only the tasks submitted are recorded;
  - `probeProducers`;
  - `healthCheck`;
  - `close`.

  Their answers enter the generator as inputs.
- `Shuffling.Shuffle`: the permutation depends on the `Random` seed. The model takes the draws as an arbitrary function and proves only that the result is a permutation.
