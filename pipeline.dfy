/** The parts of the ffcv pipeline types that the mixup operators use.
    Only the fields and constructors that the operators read or build are
    modelled; everything else about them belongs to the pipeline driver. */
module Pipeline {

  /** The phase of the pipeline an operator runs in: per sample or per batch. */
  datatype Stage = Individual | Batches

  /** The element types an allocation query of these operators names. */
  datatype DType = Float16

  datatype Option<T> = None | Some(value: T)

  datatype Result<T, E> = Success(value: T) | Failure(error: E)

  /** The pipeline state threaded through the planning calls and handed to
      every per-batch call. */
  datatype State = State(
    jitMode: bool,       // the pipeline runs compiled, batched code
    stage: Stage,        // the phase the operator is placed in
    shape: seq<nat>,     // shape of one sample at this point of the pipeline
    randomSeed: int      // seed material, fresh for every batch
  )

  /** A request to the driver for a reusable destination buffer. A `dtype` of
      `None` means the operator named no element type. */
  datatype AllocationQuery = AllocationQuery(shape: seq<nat>, dtype: Option<DType>)

  /** The pair `(next_state, allocation_query_or_None)` a planning call returns. */
  datatype Plan = Plan(next: State, query: Option<AllocationQuery>)

  /** Why a planning call aborted pipeline construction. */
  datatype PlanError = JitModeRequired | BatchStageRequired
}
