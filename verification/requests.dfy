/** The request and response records of the processing service. */
module Requests {
  import opened Wrappers
  import opened Json

  const U32_LIMIT: int := 0x1_0000_0000
  const U64_LIMIT: int := 0x1_0000_0000_0000_0000

  type U32 = x: int | 0 <= x < U32_LIMIT
  type U64 = x: int | 0 <= x < U64_LIMIT

  /** One requested step of a batch; `opType` is the JSON field `type`. */
  datatype Operation = Operation(opType: string, parameters: Params, order: U32)

  /** The body of `POST /process`. */
  datatype VideoProcessRequest = VideoProcessRequest(videoUrl: string, operation: string, parameters: Params)

  /** The body of `POST /batch`. */
  datatype BatchProcessRequest = BatchProcessRequest(videoUrl: string, operations: seq<Operation>)

  /** The body of every answer of `/process` and `/batch`. */
  datatype ProcessResponse = ProcessResponse(
    success: bool,
    videoUrl: Option<string>,
    error: Option<string>,
    processingTimeMs: U64,
    operation: string)

  /** `elapsed().as_millis() as u64`: the cast keeps the low 64 bits. */
  function MillisAsU64(ms: nat): (r: U64)
    ensures ms < U64_LIMIT ==> r == ms
    ensures r <= ms && (ms - r) % U64_LIMIT == 0
  {
    ms % U64_LIMIT
  }
}
