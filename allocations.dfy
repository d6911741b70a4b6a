/** `WorkerAllocations`: which worker nodes a run uses, validated and defaulted in place. */
module Allocations {
  import opened Wrappers

  /** `CollectionUtils.isEmpty`: null or empty. */
  predicate IsEmpty(nodes: Option<seq<string>>) {
    nodes.None? || |nodes.value| == 0
  }

  /** The builder's defaults. */
  const DefaultIsRemoteWorkerRequired: bool := false
  const DefaultProducerWorkerNodeCount: int := -1

  /** The value of all five fields of a `WorkerAllocations` object. */
  datatype AllocationState = AllocationState(
    totalWorkerNodes: Option<seq<string>>,
    producerWorkerNodes: Option<seq<string>>,
    consumerWorkerNodes: Option<seq<string>>,
    isRemoteWorkerRequired: bool,
    producerWorkerNodeCount: int)

  datatype AllocationError =
    | NoWorkerLists      // "Worker List options cannot be null in-case remoteWorker execution is required"
    | ConflictingLists   // "Conflict found. Either set total worker nodes or set individual list ..."

  /** The exception `validateAndSetDefaults` throws from a given state, if any. */
  function CheckError(s: AllocationState): (r: Option<AllocationError>)
    ensures !s.isRemoteWorkerRequired ==> r.None?
    ensures r == Some(NoWorkerLists) <==>
              s.isRemoteWorkerRequired && IsEmpty(s.totalWorkerNodes) && IsEmpty(s.producerWorkerNodes) && IsEmpty(s.consumerWorkerNodes)
    ensures r == Some(ConflictingLists) <==>
              s.isRemoteWorkerRequired && !IsEmpty(s.totalWorkerNodes) && (!IsEmpty(s.producerWorkerNodes) || !IsEmpty(s.consumerWorkerNodes))
  {
    if !s.isRemoteWorkerRequired then None
    else if IsEmpty(s.producerWorkerNodes) && IsEmpty(s.consumerWorkerNodes) && IsEmpty(s.totalWorkerNodes) then Some(NoWorkerLists)
    else if !IsEmpty(s.totalWorkerNodes) && (!IsEmpty(s.producerWorkerNodes) || !IsEmpty(s.consumerWorkerNodes)) then Some(ConflictingLists)
    else None
  }

  /** The state `validateAndSetDefaults` leaves behind (unchanged when it throws). */
  function Defaulted(s: AllocationState): (t: AllocationState)
    ensures t.totalWorkerNodes == s.totalWorkerNodes && t.producerWorkerNodes == s.producerWorkerNodes
    ensures t.consumerWorkerNodes == s.consumerWorkerNodes && t.isRemoteWorkerRequired == s.isRemoteWorkerRequired
    ensures !s.isRemoteWorkerRequired || CheckError(s).Some? ==> t == s
    ensures s.isRemoteWorkerRequired && CheckError(s).None? && !IsEmpty(s.totalWorkerNodes) ==>
              t.producerWorkerNodeCount == (if s.producerWorkerNodeCount != -1 then s.producerWorkerNodeCount else |s.totalWorkerNodes.value| / 2)
    ensures IsEmpty(s.totalWorkerNodes) ==> t == s
  {
    if CheckError(s).None? && s.isRemoteWorkerRequired && !IsEmpty(s.totalWorkerNodes) then
      s.(producerWorkerNodeCount :=
           if s.producerWorkerNodeCount != -1 then s.producerWorkerNodeCount else |s.totalWorkerNodes.value| / 2)
    else s
  }

  /** A second call neither fails nor changes anything once the first one succeeded. */
  lemma DefaultedIdempotent(s: AllocationState)
    requires CheckError(s).None?
    ensures CheckError(Defaulted(s)).None?
    ensures Defaulted(Defaulted(s)) == Defaulted(s)
  {
  }

  /**
   * With a non-empty total list and no other list, the count is half the total list
   * (rounded down) unless one was given, and in no case stays the -1 marker.
   */
  lemma DefaultedCountFromTotal(s: AllocationState)
    requires s.isRemoteWorkerRequired && !IsEmpty(s.totalWorkerNodes)
    requires IsEmpty(s.producerWorkerNodes) && IsEmpty(s.consumerWorkerNodes)
    ensures CheckError(s).None?
    ensures Defaulted(s).producerWorkerNodeCount != -1
    ensures s.producerWorkerNodeCount == -1 ==> 2 * Defaulted(s).producerWorkerNodeCount <= |s.totalWorkerNodes.value| < 2 * Defaulted(s).producerWorkerNodeCount + 2
  {
  }

  class WorkerAllocations {
    var totalWorkerNodes: Option<seq<string>>
    var producerWorkerNodes: Option<seq<string>>
    var consumerWorkerNodes: Option<seq<string>>
    var isRemoteWorkerRequired: bool
    var producerWorkerNodeCount: int

    function State(): AllocationState
      reads this
    {
      AllocationState(totalWorkerNodes, producerWorkerNodes, consumerWorkerNodes,
                      isRemoteWorkerRequired, producerWorkerNodeCount)
    }

    /** The builder with the three lists set and the flag and count at their defaults. */
    constructor (totalWorkerNodes: Option<seq<string>>, producerWorkerNodes: Option<seq<string>>,
                 consumerWorkerNodes: Option<seq<string>>)
      ensures State() == AllocationState(totalWorkerNodes, producerWorkerNodes, consumerWorkerNodes,
                                         DefaultIsRemoteWorkerRequired, DefaultProducerWorkerNodeCount)
    {
      this.totalWorkerNodes := totalWorkerNodes;
      this.producerWorkerNodes := producerWorkerNodes;
      this.consumerWorkerNodes := consumerWorkerNodes;
      this.isRemoteWorkerRequired := DefaultIsRemoteWorkerRequired;
      this.producerWorkerNodeCount := DefaultProducerWorkerNodeCount;
    }

    /** The builder with every field set explicitly. */
    constructor Build(totalWorkerNodes: Option<seq<string>>, producerWorkerNodes: Option<seq<string>>,
                      consumerWorkerNodes: Option<seq<string>>, isRemoteWorkerRequired: bool,
                      producerWorkerNodeCount: int)
      ensures State() == AllocationState(totalWorkerNodes, producerWorkerNodes, consumerWorkerNodes,
                                         isRemoteWorkerRequired, producerWorkerNodeCount)
    {
      this.totalWorkerNodes := totalWorkerNodes;
      this.producerWorkerNodes := producerWorkerNodes;
      this.consumerWorkerNodes := consumerWorkerNodes;
      this.isRemoteWorkerRequired := isRemoteWorkerRequired;
      this.producerWorkerNodeCount := producerWorkerNodeCount;
    }

    /**
     * `validateAndSetDefaults()`: when remote workers are required, rejects a missing
     * or conflicting node list and otherwise derives the producer node count from the
     * total list; only `producerWorkerNodeCount` is ever written.
     */
    method ValidateAndSetDefaults() returns (r: Outcome<AllocationError>)
      modifies this`producerWorkerNodeCount
      ensures r == (if CheckError(old(State())).Some? then Fail(CheckError(old(State())).value) else Pass)
      ensures State() == Defaulted(old(State()))
    {
      if isRemoteWorkerRequired {
        if IsEmpty(producerWorkerNodes) && IsEmpty(consumerWorkerNodes) && IsEmpty(totalWorkerNodes) {
          return Fail(NoWorkerLists);
        }
        if !IsEmpty(totalWorkerNodes) {
          if !IsEmpty(producerWorkerNodes) || !IsEmpty(consumerWorkerNodes) {
            return Fail(ConflictingLists);
          }
          producerWorkerNodeCount :=
            if producerWorkerNodeCount != -1 then producerWorkerNodeCount else |totalWorkerNodes.value| / 2;
        }
      }
      return Pass;
    }
  }
}
