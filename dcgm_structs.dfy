/**
 * The parts of the DCGM engine's C interface that the diagnostic decoder
 * reads: the status, test and level codes, and the layout of the flat
 * response the engine fills in for one diagnostic run.
 *
 * dcgm_structs.h and dcgm_agent.h are not part of this model; the codes
 * below carry the values that header gives them. The general properties of
 * the decoder use only that the codes in each family are distinct; the
 * level ordering and the concrete replies of the scenarios use the values.
 */
module DcgmStructs {

  /** A C `unsigned int`. */
  type uint32 = x: int | 0 <= x < 0x1_0000_0000

  /** The engine's "no error" return code (`dcgmReturn_t`). */
  const DCGM_ST_OK: int := 0

  // Per-test outcome codes (`dcgmDiagResult_t`).
  const DCGM_DIAG_RESULT_PASS: int := 0
  const DCGM_DIAG_RESULT_SKIP: int := 1
  const DCGM_DIAG_RESULT_WARN: int := 2
  const DCGM_DIAG_RESULT_FAIL: int := 3
  const DCGM_DIAG_RESULT_NOT_RUN: int := 4

  /** The five outcome codes the decoder gives a label. */
  const DiagResultCodes: set<int> :=
    {DCGM_DIAG_RESULT_PASS, DCGM_DIAG_RESULT_SKIP, DCGM_DIAG_RESULT_WARN,
     DCGM_DIAG_RESULT_FAIL, DCGM_DIAG_RESULT_NOT_RUN}

  // Software-prerequisite test identifiers.
  const DCGM_SWTEST_DENYLIST: int := 0
  const DCGM_SWTEST_NVML_LIBRARY: int := 1
  const DCGM_SWTEST_CUDA_MAIN_LIBRARY: int := 2
  const DCGM_SWTEST_CUDA_RUNTIME_LIBRARY: int := 3
  const DCGM_SWTEST_PERMISSIONS: int := 4
  const DCGM_SWTEST_PERSISTENCE_MODE: int := 5
  const DCGM_SWTEST_ENVIRONMENT: int := 6
  const DCGM_SWTEST_PAGE_RETIREMENT: int := 7
  const DCGM_SWTEST_GRAPHICS_PROCESSES: int := 8
  const DCGM_SWTEST_INFOROM: int := 9

  /** The ten software tests the decoder gives a name. */
  const SwTestIds: set<int> :=
    {DCGM_SWTEST_DENYLIST, DCGM_SWTEST_NVML_LIBRARY, DCGM_SWTEST_CUDA_MAIN_LIBRARY,
     DCGM_SWTEST_CUDA_RUNTIME_LIBRARY, DCGM_SWTEST_PERMISSIONS, DCGM_SWTEST_PERSISTENCE_MODE,
     DCGM_SWTEST_ENVIRONMENT, DCGM_SWTEST_PAGE_RETIREMENT, DCGM_SWTEST_GRAPHICS_PROCESSES,
     DCGM_SWTEST_INFOROM}

  // Native diagnostic levels (`dcgmDiagnosticLevel_t`), shortest first.
  const DCGM_DIAG_LVL_INVALID: int := 0
  const DCGM_DIAG_LVL_SHORT: int := 10
  const DCGM_DIAG_LVL_MED: int := 20
  const DCGM_DIAG_LVL_LONG: int := 30
  const DCGM_DIAG_LVL_XLONG: int := 40

  /** The entity an entry of the response is about. */
  datatype DiagEntity = DiagEntity(entityGroupId: uint32, entityId: uint32)

  /** One executed (entity, test) pair and its outcome code. */
  datatype DiagEntityResult = DiagEntityResult(entity: DiagEntity, testId: uint32, result: int)

  /** An error the engine reports against an entity; the message is already decoded from its C buffer. */
  datatype DiagError = DiagError(entity: DiagEntity, code: uint32, msg: string)

  /** An informational message the engine reports against an entity. */
  datatype DiagInfo = DiagInfo(entity: DiagEntity, msg: string)

  /**
   * The engine's response: three fixed-capacity arrays, each with the count
   * of its filled entries. The length of each sequence is the array's
   * capacity; entries at or past the count are whatever the buffer holds.
   */
  datatype DiagResponse = DiagResponse(
    numResults: uint32, results: seq<DiagEntityResult>,
    numErrors: uint32, errors: seq<DiagError>,
    numInfo: uint32, info: seq<DiagInfo>)

  /** Every count stays within its array's capacity. */
  predicate CountsFit(r: DiagResponse) {
    r.numResults <= |r.results| && r.numErrors <= |r.errors| && r.numInfo <= |r.info|
  }

  /** The error and info counts stay within their arrays' capacities. */
  predicate ScansFit(r: DiagResponse) {
    r.numErrors <= |r.errors| && r.numInfo <= |r.info|
  }

  /** The errors reported in this response: the filled part of `errors`. */
  function ReportedErrors(r: DiagResponse): seq<DiagError>
    requires r.numErrors <= |r.errors|
  {
    r.errors[..r.numErrors]
  }

  /** The informational messages reported in this response: the filled part of `info`. */
  function ReportedInfo(r: DiagResponse): seq<DiagInfo>
    requires r.numInfo <= |r.info|
  {
    r.info[..r.numInfo]
  }
}
