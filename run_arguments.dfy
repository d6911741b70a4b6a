/** `BenchmarkingRunArguments`: everything one benchmarking run needs, and its validation. */
module RunArguments {
  import opened Wrappers
  import Workloads
  import Payloads
  import Allocations

  /** The namespace the run targets, supplied by an external provisioning step. */
  datatype NamespaceMetadata = NamespaceMetadata(
    namespaceName: string, subscriptionId: string, resourceGroup: string,
    sasKeyName: string, sasKeyValue: string, region: string)

  /**
   * The driver configuration. `producerConfig` is the Java properties text already
   * loaded into key/value pairs.
   */
  datatype DriverConfiguration = DriverConfiguration(
    name: string, product: string, sku: string, protocol: string,
    producerConfig: map<string, string>,
    namespaceMetadata: Option<NamespaceMetadata>)

  datatype ArgumentsError =
    | InvalidAllocation(allocation: Allocations.AllocationError)
    | MissingNamespaceMetadata
    | MissingRunId
    | InvalidWorkload(workload: Workloads.WorkloadError)
    | InvalidPayload(payload: Payloads.PayloadError)

  /**
   * The verdict of `validate()` from the state it starts in: the allocation check,
   * the two null checks, the workload, then the payload; the first failure is the one
   * reported.
   */
  function Verdict(allocation: Allocations.AllocationState, namespaceMetadata: Option<NamespaceMetadata>,
                   runID: Option<string>, workload: Workloads.Workload, payload: Payloads.Payload): Outcome<ArgumentsError>
  {
    var allocationError := Allocations.CheckError(allocation);
    if allocationError.Some? then Fail(InvalidAllocation(allocationError.value))
    else if namespaceMetadata.None? then Fail(MissingNamespaceMetadata)
    else if runID.None? then Fail(MissingRunId)
    else if Workloads.Validate(workload).Fail? then Fail(InvalidWorkload(Workloads.Validate(workload).error))
    else if Payloads.Validate(payload).Fail? then Fail(InvalidPayload(Payloads.Validate(payload).error))
    else Pass
  }

  /** Validation succeeds iff every sub-validation succeeds. */
  lemma VerdictPassesIffAllPass(allocation: Allocations.AllocationState, namespaceMetadata: Option<NamespaceMetadata>,
                                runID: Option<string>, workload: Workloads.Workload, payload: Payloads.Payload)
    ensures Verdict(allocation, namespaceMetadata, runID, workload, payload).Pass? <==>
              && Allocations.CheckError(allocation).None?
              && namespaceMetadata.Some? && runID.Some?
              && Workloads.IsValid(workload)
              && payload.payloadSize == |payload.payloadData|
  {
  }

  /** The first failing check decides the error: later checks are not looked at. */
  lemma VerdictReportsFirstFailure(allocation: Allocations.AllocationState, namespaceMetadata: Option<NamespaceMetadata>,
                                   runID: Option<string>, workload: Workloads.Workload, payload: Payloads.Payload)
    ensures var v := Verdict(allocation, namespaceMetadata, runID, workload, payload);
            && (v.Fail? && v.error.MissingNamespaceMetadata? ==> Allocations.CheckError(allocation).None?)
            && (v.Fail? && v.error.MissingRunId? ==> Allocations.CheckError(allocation).None? && namespaceMetadata.Some?)
            && (v.Fail? && v.error.InvalidWorkload? ==>
                  Allocations.CheckError(allocation).None? && namespaceMetadata.Some? && runID.Some?
                  && Workloads.Validate(workload) == Fail(v.error.workload))
            && (v.Fail? && v.error.InvalidPayload? ==>
                  Allocations.CheckError(allocation).None? && namespaceMetadata.Some? && runID.Some?
                  && Workloads.IsValid(workload) && Payloads.Validate(payload) == Fail(v.error.payload))
            && (Allocations.CheckError(allocation).Some? ==> v == Fail(InvalidAllocation(Allocations.CheckError(allocation).value)))
  {
  }

  class BenchmarkingRunArguments {
    const testName: string
    const testSuiteName: Option<string>
    const driver: DriverConfiguration
    const workload: Workloads.Workload
    const messagePayload: Payloads.Payload
    var namespaceMetadata: Option<NamespaceMetadata>
    var runID: Option<string>
    const workerAllocation: Allocations.WorkerAllocations
    const tags: Option<seq<string>>
    const runUserId: Option<string>

    constructor (testName: string, testSuiteName: Option<string>, driver: DriverConfiguration,
                 workload: Workloads.Workload, messagePayload: Payloads.Payload,
                 namespaceMetadata: Option<NamespaceMetadata>, runID: Option<string>,
                 workerAllocation: Allocations.WorkerAllocations, tags: Option<seq<string>>,
                 runUserId: Option<string>)
      ensures this.testName == testName && this.testSuiteName == testSuiteName && this.driver == driver
      ensures this.workload == workload && this.messagePayload == messagePayload
      ensures this.namespaceMetadata == namespaceMetadata && this.runID == runID
      ensures this.workerAllocation == workerAllocation && this.tags == tags && this.runUserId == runUserId
    {
      this.testName := testName;
      this.testSuiteName := testSuiteName;
      this.driver := driver;
      this.workload := workload;
      this.messagePayload := messagePayload;
      this.namespaceMetadata := namespaceMetadata;
      this.runID := runID;
      this.workerAllocation := workerAllocation;
      this.tags := tags;
      this.runUserId := runUserId;
    }

    /**
     * `validate()`. The allocation defaults are applied first, so they stay applied
     * even when a later check fails; nothing else is written.
     */
    method Validate() returns (r: Outcome<ArgumentsError>)
      modifies workerAllocation`producerWorkerNodeCount
      ensures workerAllocation.State() == Allocations.Defaulted(old(workerAllocation.State()))
      ensures r == Verdict(old(workerAllocation.State()), namespaceMetadata, runID, workload, messagePayload)
    {
      var allocation := workerAllocation.ValidateAndSetDefaults();
      if allocation.Fail? {
        return Fail(InvalidAllocation(allocation.error));
      }
      if namespaceMetadata.None? {
        return Fail(MissingNamespaceMetadata);
      }
      if runID.None? {
        return Fail(MissingRunId);
      }
      var workloadCheck := Workloads.Validate(workload);
      if workloadCheck.Fail? {
        return Fail(InvalidWorkload(workloadCheck.error));
      }
      var payloadCheck := Payloads.Validate(messagePayload);
      if payloadCheck.Fail? {
        return Fail(InvalidPayload(payloadCheck.error));
      }
      return Pass;
    }
  }
}
