/**
 * `BenchmarkingRunOrchestrator`: validate the run's arguments, pick a worker, run
 * the Event Hubs workload generator on it with cleanup in `finally`, and enrich the
 * result with metadata derived from the workload and the producer configuration.
 */
module Orchestration {
  import opened Wrappers
  import opened Text
  import opened Workloads
  import opened Commands
  import opened Allocations
  import opened RunArguments
  import opened Stats
  import opened Generator

  /** The worker `getWorker` builds. */
  datatype WorkerKind = DistributedEnsemble | Local

  /** `getWorker`: the distributed ensemble when remote workers are required, a local worker otherwise. */
  function WorkerFor(allocation: AllocationState): (k: WorkerKind)
    ensures k == DistributedEnsemble <==> allocation.isRemoteWorkerRequired
    ensures k == Local <==> !allocation.isRemoteWorkerRequired
  {
    if allocation.isRemoteWorkerRequired then DistributedEnsemble else Local
  }

  /** Java's `int / int`: the quotient truncated toward zero. */
  function JavaDiv(a: int, b: int): (q: int)
    requires b > 0
    ensures a >= 0 ==> q == a / b
    ensures a < 0 ==> q == -((-a) / b)
  {
    if a >= 0 then a / b else -((-a) / b)
  }

  datatype EnrichError =
    | BadBatchSize(text: string)    // NumberFormatException from Integer.parseInt
    | BadBatchCount(text: string)

  const DefaultBatchSize: string := "1048576"
  const DefaultBatchCount: string := "1"

  /** A producer property, or its default when the configuration does not set it. */
  function Property(config: map<string, string>, key: string, default: string): string {
    if key in config then config[key] else default
  }

  /** The batch size in KB: `batch.size` (default 1048576) divided by 1024, then "KB". */
  function BatchSize(config: map<string, string>): (r: Result<string, EnrichError>)
    ensures var text := Property(config, "batch.size", DefaultBatchSize);
            && (r.Success? <==> ParseInt(text).Some?)
            && (r.Success? ==> r.value == IntToString(JavaDiv(ParseInt(text).value, 1024)) + "KB")
            && (r.Failure? ==> r.error == BadBatchSize(text))
  {
    var text := Property(config, "batch.size", DefaultBatchSize);
    match ParseInt(text)
    case None => Failure(BadBatchSize(text))
    case Some(bytes) => Success(IntToString(JavaDiv(bytes, 1024)) + "KB")
  }

  /** The batch count: `batch.count`, default 1. */
  function BatchCount(config: map<string, string>): (r: Result<int, EnrichError>)
    ensures var text := Property(config, "batch.count", DefaultBatchCount);
            && (r.Success? <==> ParseInt(text).Some?)
            && (r.Success? ==> Some(r.value) == ParseInt(text))
            && (r.Failure? ==> r.error == BadBatchCount(text))
  {
    var text := Property(config, "batch.count", DefaultBatchCount);
    match ParseInt(text)
    case None => Failure(BadBatchCount(text))
    case Some(count) => Success(count)
  }

  /** The tags, each put through `CaseUtils.toCamelCase(tag, true)`; a null list gives no tags. */
  function CamelTags(tags: Option<seq<string>>, camel: string -> string): (r: seq<string>)
    ensures tags.None? ==> r == []
    ensures tags.Some? ==> |r| == |tags.value| && forall i :: 0 <= i < |r| ==> r[i] == camel(tags.value[i])
  {
    match tags
    case None => []
    case Some(t) => seq(|t|, i requires 0 <= i < |t| => camel(t[i]))
  }

  /** The `Metadata` record. */
  datatype Metadata = Metadata(
    workload: string, payload: string, namespaceName: string,
    topics: int, partitions: int, producerCount: int, consumerGroups: int, consumerCount: int,
    batchCount: int, batchSize: string, tags: seq<string>)

  /** The metadata of a run, or the parse error that stops its derivation. */
  function MetadataOf(w: Workload, namespaceName: string, config: map<string, string>,
                      tags: Option<seq<string>>, camel: string -> string): Result<Metadata, EnrichError>
  {
    var batchSize :- BatchSize(config);
    var batchCount :- BatchCount(config);
    Success(Metadata(w.name, w.payloadFile, namespaceName, w.topics, w.partitionsPerTopic, w.producersPerTopic,
                     w.subscriptionsPerTopic, w.consumerPerSubscription * w.subscriptionsPerTopic,
                     batchCount, batchSize, CamelTags(tags, camel)))
  }

  /**
   * The derived metadata: the counts come from the workload, with one consumer per
   * subscription and consumer slot; the batch figures from the producer properties;
   * the tags one-to-one and in order. Derivation fails exactly when one of the two
   * properties does not parse, the batch size being read first.
   */
  lemma MetadataFields(w: Workload, namespaceName: string, config: map<string, string>,
                       tags: Option<seq<string>>, camel: string -> string)
    ensures var m := MetadataOf(w, namespaceName, config, tags, camel);
            && (m.Success? <==> BatchSize(config).Success? && BatchCount(config).Success?)
            && (m.Failure? && BatchSize(config).Failure? ==> m.error == BatchSize(config).error)
            && (m.Failure? && BatchSize(config).Success? ==> m.error == BatchCount(config).error)
            && (m.Success? ==>
                  && m.value.workload == w.name && m.value.payload == w.payloadFile && m.value.namespaceName == namespaceName
                  && m.value.topics == w.topics && m.value.partitions == w.partitionsPerTopic
                  && m.value.producerCount == w.producersPerTopic
                  && m.value.consumerGroups == w.subscriptionsPerTopic
                  && m.value.consumerCount == w.consumerPerSubscription * w.subscriptionsPerTopic
                  && m.value.batchSize == BatchSize(config).value
                  && m.value.batchCount == BatchCount(config).value
                  && m.value.tags == CamelTags(tags, camel))
  {
  }

  /** With no `batch.size` set, the batch size is "1024KB". */
  lemma DefaultBatchSizeFigure(config: map<string, string>)
    requires "batch.size" !in config
    ensures BatchSize(config) == Success("1024KB")
  {
    assert Property(config, "batch.size", DefaultBatchSize) == DefaultBatchSize;
    DefaultSizeDigits();
    ParseIntToString(1048576);
    assert ParseInt(DefaultBatchSize) == Some(1048576);
    assert JavaDiv(1048576, 1024) == 1024;
    assert BatchSize(config) == Success(IntToString(1024) + "KB");
    KilobyteDigits();
    assert IntToString(1024) + "KB" == "1024KB";
  }

  /** With no `batch.count` set, the batch count is 1. */
  lemma DefaultBatchCountFigure(config: map<string, string>)
    requires "batch.count" !in config
    ensures BatchCount(config) == Success(1)
  {
    assert Property(config, "batch.count", DefaultBatchCount) == DefaultBatchCount;
    assert IntToString(1) == DefaultBatchCount;
    ParseIntToString(1);
  }

  lemma DefaultSizeDigits()
    ensures IntToString(1048576) == DefaultBatchSize
  {
    assert NatToString(10) == "10";
    assert NatToString(104) == "104";
    assert NatToString(1048) == "1048";
    assert NatToString(10485) == "10485";
    assert NatToString(104857) == "104857";
    assert NatToString(1048576) == NatToString(104857) + [DigitChar(6)];
  }

  lemma KilobyteDigits()
    ensures IntToString(1024) == "1024"
  {
    assert NatToString(10) == "10";
    assert NatToString(102) == "102";
    assert NatToString(1024) == NatToString(102) + [DigitChar(4)];
  }

  /** A batch size written as Java writes an int parses back, and is reported in whole KB. */
  lemma BatchSizeOfWrittenInt(config: map<string, string>, bytes: int)
    requires IntMin <= bytes <= IntMax
    requires "batch.size" in config && config["batch.size"] == IntToString(bytes)
    ensures BatchSize(config) == Success(IntToString(JavaDiv(bytes, 1024)) + "KB")
  {
    ParseIntToString(bytes);
  }

  /** The `TestDetails` fields the orchestrator fills in. */
  class TestDetails {
    var testName: Option<string>
    var testSuiteName: Option<string>
    var product: Option<string>
    var sku: Option<string>
    var protocol: Option<string>
    var metadata: Option<Metadata>

    constructor ()
      ensures testName.None? && testSuiteName.None? && product.None? && sku.None? && protocol.None? && metadata.None?
    {
      testName := None;
      testSuiteName := None;
      product := None;
      sku := None;
      protocol := None;
      metadata := None;
    }

    /**
     * `enrichTestResultWithMetadata`: the names and the driver's product, SKU and
     * protocol are copied first; the metadata is set only if both batch properties
     * parse, and a parse failure is thrown after the copies were made.
     */
    method Enrich(arguments: BenchmarkingRunArguments, camel: string -> string) returns (r: Outcome<EnrichError>)
      requires arguments.namespaceMetadata.Some?
      modifies this
      ensures testName == Some(arguments.testName) && testSuiteName == arguments.testSuiteName
      ensures product == Some(arguments.driver.product) && sku == Some(arguments.driver.sku)
      ensures protocol == Some(arguments.driver.protocol)
      ensures var m := ArgumentsMetadata(arguments, arguments.namespaceMetadata.value.namespaceName, camel);
              && (r.Pass? <==> m.Success?)
              && (m.Success? ==> metadata == Some(m.value))
              && (m.Failure? ==> r == Fail(m.error) && metadata == old(metadata))
    {
      testName := Some(arguments.testName);
      testSuiteName := arguments.testSuiteName;
      product := Some(arguments.driver.product);
      sku := Some(arguments.driver.sku);
      protocol := Some(arguments.driver.protocol);
      var config := arguments.driver.producerConfig;
      var batchSize := BatchSize(config);
      if batchSize.Failure? {
        return Fail(batchSize.error);
      }
      var batchCount := BatchCount(config);
      if batchCount.Failure? {
        return Fail(batchCount.error);
      }
      var w := arguments.workload;
      metadata := Some(Metadata(w.name, w.payloadFile, arguments.namespaceMetadata.value.namespaceName,
                                w.topics, w.partitionsPerTopic, w.producersPerTopic, w.subscriptionsPerTopic,
                                w.consumerPerSubscription * w.subscriptionsPerTopic,
                                batchCount.value, batchSize.value, CamelTags(arguments.tags, camel)));
      r := Pass;
    }
  }

  /** What the orchestrator asks of the worker it holds, in order. */
  datatype OrchestratorCall =
    | Stop(worker: WorkerKind)                                    // stopAll
    | InitializeDriver(worker: WorkerKind, driver: DriverConfiguration)
    | Issue(worker: WorkerKind, call: WorkerCall)                  // a call the generator makes

  /** The generator's calls, as made on worker `k`. */
  function OnWorker(k: WorkerKind, calls: seq<WorkerCall>): (r: seq<OrchestratorCall>)
    ensures |r| == |calls| && forall i :: 0 <= i < |r| ==> r[i] == Issue(k, calls[i])
  {
    seq(|calls|, i requires 0 <= i < |calls| => Issue(k, calls[i]))
  }

  /** `stopDistributedWorkers`' call: `stopAll` on the worker left from an earlier run, if any. */
  function Leftover(worker: Option<WorkerKind>): seq<OrchestratorCall> {
    if worker.Some? then [Stop(worker.value)] else []
  }

  /** Why a run failed after validation: the cause, wrapped in a `RuntimeException`. */
  datatype RunFailure =
    | GeneratorRejected(error: GeneratorError)   // the generator's constructor or run threw
    | MgmtOperationFailed                        // the management-operation thread could not be set up
    | EnrichFailed(parseError: EnrichError)

  datatype ExecutionError = InvalidArguments(error: ArgumentsError) | RunFailed(cause: RunFailure)

  /** The run's outcome: the generator's result with the enriched details. */
  datatype Report = Report(result: TestResult, details: TestDetails)

  /** The management-operation class named by the workload, if any (`StringUtils.isEmpty` is null or ""). */
  predicate HasMgmtOperation(w: Workload) {
    w.mgmtOperation.Some? && w.mgmtOperation.value != ""
  }

  /** The generator is constructed and the management operation, if any, is set up: `run` is called. */
  predicate Starts(w: Workload, mgmtSetupOk: bool) {
    ConstructorCheck(w).Pass? && (HasMgmtOperation(w) ==> mgmtSetupOk)
  }

  /** What the Event Hubs generator's `run` returns or throws for these arguments and run id. */
  function GeneratorOutcome(arguments: BenchmarkingRunArguments, runId: string, inputs: RunInputs): Result<TestResult, GeneratorError>
    requires WellTimedRun(inputs)
  {
    var w := arguments.workload;
    RunResult(WindowResult(runId, w.subscriptionsPerTopic, true, WarmupWindow(EventHub, w, inputs)),
              WindowResult(runId, w.subscriptionsPerTopic, true, MeasuredWindow(w, inputs)))
  }

  /** The calls the Event Hubs generator's `run` makes for these arguments and run id. */
  function GeneratorCalls(arguments: BenchmarkingRunArguments, runId: string, inputs: RunInputs): seq<WorkerCall>
    requires WellTimedRun(inputs)
  {
    var w := arguments.workload;
    var warmup := WindowResult(runId, w.subscriptionsPerTopic, true, WarmupWindow(EventHub, w, inputs));
    var measured := WindowResult(runId, w.subscriptionsPerTopic, true, MeasuredWindow(w, inputs));
    RunCalls(EventHub, w, TopicPrefix(arguments.testName, arguments.testSuiteName), inputs,
             ProducerWorkAssignment(w.keyDistributor, w.producerRate as real, arguments.messagePayload.payloadData),
             warmup.Success?, measured.Success?)
  }

  /** The metadata `enrichTestResultWithMetadata` derives from these arguments in namespace `namespaceName`. */
  function ArgumentsMetadata(arguments: BenchmarkingRunArguments, namespaceName: string, camel: string -> string)
    : Result<Metadata, EnrichError>
  {
    MetadataOf(arguments.workload, namespaceName,
               arguments.driver.producerConfig, arguments.tags, camel)
  }

  /** The outcome of the `try` block after the driver is initialised: the first stage that throws decides it. */
  function TryOutcome(arguments: BenchmarkingRunArguments, runId: string, namespaceName: string, inputs: RunInputs,
                      mgmtSetupOk: bool, camel: string -> string): Result<TestResult, RunFailure>
    requires WellTimedRun(inputs)
  {
    var w := arguments.workload;
    if ConstructorCheck(w).Fail? then Failure(GeneratorRejected(ConstructorCheck(w).error))
    else if !Starts(w, mgmtSetupOk) then Failure(MgmtOperationFailed)
    else if GeneratorOutcome(arguments, runId, inputs).Failure? then
      Failure(GeneratorRejected(GeneratorOutcome(arguments, runId, inputs).error))
    else if ArgumentsMetadata(arguments, namespaceName, camel).Failure? then
      Failure(EnrichFailed(ArgumentsMetadata(arguments, namespaceName, camel).error))
    else Success(GeneratorOutcome(arguments, runId, inputs).value)
  }

  /** The worker calls of that `try` block: the generator's, then `close`'s `stopAll` if the block completes. */
  function TryCalls(k: WorkerKind, arguments: BenchmarkingRunArguments, runId: string, namespaceName: string,
                    inputs: RunInputs, mgmtSetupOk: bool, camel: string -> string): seq<OrchestratorCall>
    requires WellTimedRun(inputs)
  {
    if !Starts(arguments.workload, mgmtSetupOk) then []
    else OnWorker(k, GeneratorCalls(arguments, runId, inputs))
         + (if TryOutcome(arguments, runId, namespaceName, inputs, mgmtSetupOk, camel).Success? then [Stop(k)] else [])
  }

  /**
   * A run after validation succeeds exactly when the generator is constructed, the
   * management operation is set up, both windows are collected and the metadata is
   * derived; its result is the measured window's, with the run's id and the test
   * duration. A generator the constructor rejects, or a window that fails, is the
   * wrapped cause.
   */
  lemma {:induction false} TryOutcomeIff(arguments: BenchmarkingRunArguments, runId: string, namespaceName: string,
                                         inputs: RunInputs, mgmtSetupOk: bool, camel: string -> string)
    requires WellTimedRun(inputs)
    ensures var r := TryOutcome(arguments, runId, namespaceName, inputs, mgmtSetupOk, camel);
            var w := arguments.workload;
            var warmup := WindowResult(runId, w.subscriptionsPerTopic, true, WarmupWindow(EventHub, w, inputs));
            var measured := WindowResult(runId, w.subscriptionsPerTopic, true, MeasuredWindow(w, inputs));
            && (r.Success? <==> Starts(w, mgmtSetupOk) && warmup.Success? && measured.Success?
                                && ArgumentsMetadata(arguments, namespaceName, camel).Success?)
            && (r.Success? ==> r.value.runId == runId
                               && r.value.testRunDurationInMinutes == w.testDurationMinutes
                               && (r.value.aggregate.Some? <==> Ends(MeasuredWindow(w, inputs))))
            && (ConstructorCheck(w).Fail? ==> r == Failure(GeneratorRejected(CannotProbeRateWithBacklog)))
            && (Starts(w, mgmtSetupOk) && !(warmup.Success? && measured.Success?) ==>
                  r == Failure(GeneratorRejected(StatsFailed(AggregateLatenciesUnavailable))))
  {
    var w := arguments.workload;
    RunResultIff(runId, w.subscriptionsPerTopic, true, EventHub, w, inputs);
  }

  /**
   * `close` is called, and so `stopAll` beyond the generator's own, exactly when the
   * `try` block completes.
   */
  lemma {:induction false} CloseIffCompleted(k: WorkerKind, arguments: BenchmarkingRunArguments, runId: string,
                                             namespaceName: string, inputs: RunInputs, mgmtSetupOk: bool, camel: string -> string)
    requires WellTimedRun(inputs)
    ensures Stop(k) in TryCalls(k, arguments, runId, namespaceName, inputs, mgmtSetupOk, camel)
            <==> TryOutcome(arguments, runId, namespaceName, inputs, mgmtSetupOk, camel).Success?
  {
    var t := TryCalls(k, arguments, runId, namespaceName, inputs, mgmtSetupOk, camel);
    var ok := TryOutcome(arguments, runId, namespaceName, inputs, mgmtSetupOk, camel).Success?;
    if Starts(arguments.workload, mgmtSetupOk) {
      var g := OnWorker(k, GeneratorCalls(arguments, runId, inputs));
      assert t == g + (if ok then [Stop(k)] else []);
      assert Stop(k) !in g;
    } else {
      assert !ok;
      assert t == [];
    }
  }

  /**
   * A completed run ends with three `stopAll` calls on its worker: the generator's
   * own at the end of `run`, `close`'s, and the one in `finally`.
   */
  lemma {:induction false} CompletedRunStopsThrice(k: WorkerKind, arguments: BenchmarkingRunArguments, runId: string,
                                                   namespaceName: string, inputs: RunInputs, mgmtSetupOk: bool,
                                                   camel: string -> string)
    requires WellTimedRun(inputs)
    requires TryOutcome(arguments, runId, namespaceName, inputs, mgmtSetupOk, camel).Success?
    ensures var full := TryCalls(k, arguments, runId, namespaceName, inputs, mgmtSetupOk, camel) + [Stop(k)];
            |full| >= 3 && full[|full| - 3..] == [Issue(k, StopAll), Stop(k), Stop(k)]
  {
    var w := arguments.workload;
    var prefix := TopicPrefix(arguments.testName, arguments.testSuiteName);
    var work := ProducerWorkAssignment(w.keyDistributor, w.producerRate as real, arguments.messagePayload.payloadData);
    CompletedRunWindows(arguments, runId, namespaceName, inputs, mgmtSetupOk, camel);
    CompletedRunCallsEnd(EventHub, w, prefix, inputs, work);
    var g := OnWorker(k, GeneratorCalls(arguments, runId, inputs));
    assert TryCalls(k, arguments, runId, namespaceName, inputs, mgmtSetupOk, camel) == g + [Stop(k)];
    EndsWithStops(g, k);
  }

  /** A trace whose last call is the generator's `stopAll`, followed by two more stops. */
  lemma EndsWithStops(g: seq<OrchestratorCall>, k: WorkerKind)
    requires |g| > 0 && g[|g| - 1] == Issue(k, StopAll)
    ensures var full := g + [Stop(k)] + [Stop(k)];
            |full| >= 3 && full[|full| - 3..] == [Issue(k, StopAll), Stop(k), Stop(k)]
  {
    var full := g + [Stop(k)] + [Stop(k)];
    assert full[|full| - 3..] == [full[|full| - 3], full[|full| - 2], full[|full| - 1]];
  }

  /** A completed `try` block ran the generator through both windows. */
  lemma CompletedRunWindows(arguments: BenchmarkingRunArguments, runId: string, namespaceName: string, inputs: RunInputs,
                            mgmtSetupOk: bool, camel: string -> string)
    requires WellTimedRun(inputs)
    requires TryOutcome(arguments, runId, namespaceName, inputs, mgmtSetupOk, camel).Success?
    ensures var w := arguments.workload;
            && Starts(w, mgmtSetupOk)
            && GeneratorCalls(arguments, runId, inputs)
               == RunCalls(EventHub, w, TopicPrefix(arguments.testName, arguments.testSuiteName), inputs,
                           ProducerWorkAssignment(w.keyDistributor, w.producerRate as real, arguments.messagePayload.payloadData),
                           true, true)
  {
    TryOutcomeIff(arguments, runId, namespaceName, inputs, mgmtSetupOk, camel);
  }

  /** The `try` block stage by stage: where it stops, what it returns and which calls it made. */
  lemma TryStages(k: WorkerKind, arguments: BenchmarkingRunArguments, runId: string, namespaceName: string,
                  inputs: RunInputs, mgmtSetupOk: bool, camel: string -> string)
    requires WellTimedRun(inputs)
    ensures var o := TryOutcome(arguments, runId, namespaceName, inputs, mgmtSetupOk, camel);
            var t := TryCalls(k, arguments, runId, namespaceName, inputs, mgmtSetupOk, camel);
            var g := GeneratorOutcome(arguments, runId, inputs);
            var m := ArgumentsMetadata(arguments, namespaceName, camel);
            var issued := OnWorker(k, GeneratorCalls(arguments, runId, inputs));
            var w := arguments.workload;
            && (ConstructorCheck(w).Fail? ==> o == Failure(GeneratorRejected(CannotProbeRateWithBacklog)) && t == [])
            && (ConstructorCheck(w).Pass? && !Starts(w, mgmtSetupOk) ==> o == Failure(MgmtOperationFailed) && t == [])
            && (Starts(w, mgmtSetupOk) && g.Failure? ==> o == Failure(GeneratorRejected(g.error)) && t == issued)
            && (Starts(w, mgmtSetupOk) && g.Success? && m.Failure? ==> o == Failure(EnrichFailed(m.error)) && t == issued)
            && (Starts(w, mgmtSetupOk) && g.Success? && m.Success? ==> o == Success(g.value) && t == issued + [Stop(k)])
  {
  }

  class Orchestrator {
    /** The static `benchmarkWorker`. */
    var benchmarkWorker: Option<WorkerKind>
    /** Every call made on a worker, in order. */
    var calls: seq<OrchestratorCall>

    constructor ()
      ensures benchmarkWorker.None? && calls == []
    {
      benchmarkWorker := None;
      calls := [];
    }

    /** `stopDistributedWorkers`: stop the worker left from an earlier run, if any, and forget it. */
    method StopDistributedWorkers()
      modifies this
      ensures benchmarkWorker.None?
      ensures calls == old(calls) + Leftover(old(benchmarkWorker))
    {
      if benchmarkWorker.Some? {
        calls := calls + [Stop(benchmarkWorker.value)];
        benchmarkWorker := None;
      }
    }

    /**
     * `executeBenchmarkingRun`: the arguments are validated before any worker is
     * stopped or created; a failed validation is thrown as it is and touches no
     * worker. Otherwise the previous worker is stopped, the worker the allocation asks
     * for is built, and the run goes ahead on it; whatever happens, the run ends with
     * `stopAll` on that worker and no worker held.
     */
    method ExecuteBenchmarkingRun(arguments: BenchmarkingRunArguments, inputs: RunInputs, mgmtSetupOk: bool,
                                  camel: string -> string)
      returns (r: Result<Report, ExecutionError>)
      requires WellTimedRun(inputs)
      modifies this, arguments.workerAllocation
      ensures arguments.workerAllocation.State() == Defaulted(old(arguments.workerAllocation.State()))
      ensures var verdict := Verdict(old(arguments.workerAllocation.State()), arguments.namespaceMetadata, arguments.runID,
                                     arguments.workload, arguments.messagePayload);
              && (verdict.Fail? ==> r == Failure(InvalidArguments(verdict.error)) && calls == old(calls)
                                    && benchmarkWorker == old(benchmarkWorker))
              && (verdict.Pass? ==>
                    var k := WorkerFor(old(arguments.workerAllocation.State()));
                    var driver := arguments.driver.(namespaceMetadata := arguments.namespaceMetadata);
                    var runId := arguments.runID.value;
                    var namespaceName := arguments.namespaceMetadata.value.namespaceName;
                    var outcome := TryOutcome(arguments, runId, namespaceName, inputs, mgmtSetupOk, camel);
                    && benchmarkWorker.None?
                    && calls == old(calls) + Leftover(old(benchmarkWorker)) + [Stop(k), InitializeDriver(k, driver)]
                                + TryCalls(k, arguments, runId, namespaceName, inputs, mgmtSetupOk, camel) + [Stop(k)]
                    && (r.Success? <==> outcome.Success?)
                    && (r.Success? ==> r.value.result == outcome.value && Enriched(r.value.details, arguments, namespaceName, camel))
                    && (r.Failure? ==> r.error == RunFailed(outcome.error)))
    {
      var verdict := arguments.Validate();
      if verdict.Fail? {
        return Failure(InvalidArguments(verdict.error));
      }
      StopDistributedWorkers();
      var k := WorkerFor(arguments.workerAllocation.State());
      benchmarkWorker := Some(k);
      var run := RunTestAndReturnResult(arguments, inputs, mgmtSetupOk, camel);
      r := if run.Success? then Success(run.value) else Failure(RunFailed(run.error));
    }

    /**
     * `runTestAndReturnResult` on the worker held: stop leftovers, initialise the
     * driver (with the run's namespace metadata), then the `try` block; any failure
     * is rethrown wrapped, and `stopAll` is called in `finally` on every path before
     * the worker is forgotten.
     */
    method RunTestAndReturnResult(arguments: BenchmarkingRunArguments, inputs: RunInputs, mgmtSetupOk: bool,
                                  camel: string -> string)
      returns (r: Result<Report, RunFailure>)
      requires benchmarkWorker.Some? && arguments.namespaceMetadata.Some? && arguments.runID.Some?
      requires WellTimedRun(inputs)
      modifies this
      ensures benchmarkWorker.None?
      ensures var k := old(benchmarkWorker).value;
              var driver := arguments.driver.(namespaceMetadata := arguments.namespaceMetadata);
              var runId := arguments.runID.value;
              var namespaceName := arguments.namespaceMetadata.value.namespaceName;
              var outcome := TryOutcome(arguments, runId, namespaceName, inputs, mgmtSetupOk, camel);
              && calls == old(calls) + [Stop(k), InitializeDriver(k, driver)]
                          + TryCalls(k, arguments, runId, namespaceName, inputs, mgmtSetupOk, camel) + [Stop(k)]
              && (r.Success? <==> outcome.Success?)
              && (r.Success? ==> r.value.result == outcome.value && Enriched(r.value.details, arguments, namespaceName, camel))
              && (r.Failure? ==> r.error == outcome.error)
    {
      var k := benchmarkWorker.value;
      var driverConfiguration := arguments.driver.(namespaceMetadata := arguments.namespaceMetadata);
      calls := calls + [Stop(k), InitializeDriver(k, driverConfiguration)];
      r := RunGenerator(k, arguments, arguments.runID.value, arguments.namespaceMetadata.value.namespaceName,
                        inputs, mgmtSetupOk, camel);
      // finally
      calls := calls + [Stop(k)];
      benchmarkWorker := None;
    }

    /** The body of the `try` after the driver is initialised: construct, set up, run, enrich, close. */
    method RunGenerator(k: WorkerKind, arguments: BenchmarkingRunArguments, runId: string, namespaceName: string,
                        inputs: RunInputs, mgmtSetupOk: bool, camel: string -> string)
      returns (r: Result<Report, RunFailure>)
      requires arguments.namespaceMetadata.Some? && arguments.namespaceMetadata.value.namespaceName == namespaceName
      requires WellTimedRun(inputs)
      modifies this`calls
      ensures calls == old(calls) + TryCalls(k, arguments, runId, namespaceName, inputs, mgmtSetupOk, camel)
      ensures var outcome := TryOutcome(arguments, runId, namespaceName, inputs, mgmtSetupOk, camel);
              && (r.Success? <==> outcome.Success?)
              && (r.Success? ==> r.value.result == outcome.value && Enriched(r.value.details, arguments, namespaceName, camel))
              && (r.Failure? ==> r.error == outcome.error)
    {
      TryStages(k, arguments, runId, namespaceName, inputs, mgmtSetupOk, camel);
      var created := WorkloadGenerator.New(EventHub, arguments.workload, runId, arguments.testName,
                                           arguments.testSuiteName, arguments.messagePayload.payloadData);
      if created.Failure? {
        return Failure(GeneratorRejected(created.error));
      }
      var generator := created.value;
      if HasMgmtOperation(arguments.workload) && !mgmtSetupOk {
        return Failure(MgmtOperationFailed);
      }
      r := RunAndClose(k, generator, arguments, runId, namespaceName, inputs, camel);
    }

    /** The `try` block from `run` on: run the generator, enrich its result, close it. */
    method RunAndClose(k: WorkerKind, generator: WorkloadGenerator, arguments: BenchmarkingRunArguments, runId: string,
                       namespaceName: string, inputs: RunInputs, camel: string -> string)
      returns (r: Result<Report, RunFailure>)
      requires arguments.namespaceMetadata.Some? && arguments.namespaceMetadata.value.namespaceName == namespaceName
      requires WellTimedRun(inputs)
      requires generator.variant == EventHub && generator.workload == arguments.workload && generator.runId == runId
      requires generator.testName == arguments.testName && generator.testSuiteName == arguments.testSuiteName
      requires generator.producerWorkAssignment == ProducerWorkAssignment(arguments.workload.keyDistributor,
                 arguments.workload.producerRate as real, arguments.messagePayload.payloadData)
      modifies this`calls, generator`runCompleted, generator`targetPublishRate
      ensures var g := GeneratorOutcome(arguments, runId, inputs);
              var m := ArgumentsMetadata(arguments, namespaceName, camel);
              var issued := OnWorker(k, GeneratorCalls(arguments, runId, inputs));
              && (g.Failure? ==> r == Failure(GeneratorRejected(g.error)) && calls == old(calls) + issued)
              && (g.Success? && m.Failure? ==> r == Failure(EnrichFailed(m.error)) && calls == old(calls) + issued)
              && (g.Success? && m.Success? ==> r.Success? && r.value.result == g.value
                                               && Enriched(r.value.details, arguments, namespaceName, camel)
                                               && calls == old(calls) + issued + [Stop(k)])
    {
      var result, issued := RunOn(generator, arguments, runId, inputs);
      calls := calls + OnWorker(k, issued);
      if result.Failure? {
        return Failure(GeneratorRejected(result.error));
      }
      r := EnrichAndClose(k, result.value, arguments, namespaceName, camel);
    }

    /** The end of the `try` block once `run` returned: enrich the result, then close the generator. */
    method EnrichAndClose(k: WorkerKind, result: TestResult, arguments: BenchmarkingRunArguments, namespaceName: string,
                          camel: string -> string)
      returns (r: Result<Report, RunFailure>)
      requires arguments.namespaceMetadata.Some? && arguments.namespaceMetadata.value.namespaceName == namespaceName
      modifies this`calls
      ensures var m := ArgumentsMetadata(arguments, namespaceName, camel);
              && (m.Success? ==> r.Success? && r.value.result == result && Enriched(r.value.details, arguments, namespaceName, camel)
                                 && calls == old(calls) + [Stop(k)])
              && (m.Failure? ==> r == Failure(EnrichFailed(m.error)) && calls == old(calls))
    {
      var details := new TestDetails();
      var enriched := details.Enrich(arguments, camel);
      if enriched.Fail? {
        return Failure(EnrichFailed(enriched.error));
      }
      // generator.close(): stopAll on the worker, then the executor is shut down.
      calls := calls + [Stop(k)];
      r := Success(Report(result, details));
    }
  }

  /** `generator.run()` on the Event Hubs generator built from these arguments. */
  method RunOn(generator: WorkloadGenerator, arguments: BenchmarkingRunArguments, runId: string, inputs: RunInputs)
    returns (result: Result<TestResult, GeneratorError>, issued: seq<WorkerCall>)
    requires WellTimedRun(inputs)
    requires generator.variant == EventHub && generator.workload == arguments.workload && generator.runId == runId
    requires generator.testName == arguments.testName && generator.testSuiteName == arguments.testSuiteName
    requires generator.producerWorkAssignment == ProducerWorkAssignment(arguments.workload.keyDistributor,
               arguments.workload.producerRate as real, arguments.messagePayload.payloadData)
    modifies generator`runCompleted, generator`targetPublishRate
    ensures result == GeneratorOutcome(arguments, runId, inputs) && issued == GeneratorCalls(arguments, runId, inputs)
  {
    result, issued := generator.Run(inputs);
  }

  /** The details of a completed run: the names and driver fields copied, and the derived metadata set. */
  predicate Enriched(details: TestDetails, arguments: BenchmarkingRunArguments, namespaceName: string, camel: string -> string)
    reads details
  {
    && details.testName == Some(arguments.testName) && details.testSuiteName == arguments.testSuiteName
    && details.product == Some(arguments.driver.product) && details.sku == Some(arguments.driver.sku)
    && details.protocol == Some(arguments.driver.protocol)
    && ArgumentsMetadata(arguments, namespaceName, camel).Success?
    && details.metadata == Some(ArgumentsMetadata(arguments, namespaceName, camel).value)
  }
}
