/**
 * The diagnostic run of pkg/dcgm/diag.go: the code-to-label tables, the
 * first-match scans that correlate a result with an error and an
 * informational message of the same entity, the builder of one result row,
 * and RunDiag, which dispatches the run to the engine and folds the
 * engine's response into the list of rows.
 */
module Diag {
  import opened DcgmStructs

  /** The caller's requested depth; any integer is representable, as with Go's `DiagType int`. */
  type DiagType = int

  const DiagQuick: DiagType := 1
  const DiagMedium: DiagType := 2
  const DiagLong: DiagType := 3
  const DiagExtended: DiagType := 4

  /** One decoded row. `errorCode` is Go's `uint`: always a widened C `unsigned int` or 0. */
  datatype DiagResult = DiagResult(
    status: string,
    testName: string,
    testOutput: string,
    errorCode: nat,
    errorMessage: string)

  datatype DiagResults = DiagResults(software: seq<DiagResult>)

  /** The error RunDiag returns when the engine reports a failure. */
  datatype DcgmError = DcgmError(msg: string, code: int)

  datatype Option<T> = None | Some(value: T)

  /** An opaque group of target entities. */
  datatype GroupHandle = GroupHandle(handle: nat)

  /** What RunDiag hands the engine: the target group and the native level. */
  datatype DiagRequest = DiagRequest(group: GroupHandle, level: int)

  /** What the engine gives back: a return code and the filled response. */
  datatype EngineReply = EngineReply(status: int, response: DiagResponse)

  // ---------------------------------------------------------------------
  // Code-to-label tables
  // ---------------------------------------------------------------------

  /** The label of a per-test outcome code; unknown codes get "". */
  function DiagResultString(r: int): (s: string)
    ensures s == "pass" <==> r == DCGM_DIAG_RESULT_PASS
    ensures s == "skipped" <==> r == DCGM_DIAG_RESULT_SKIP
    ensures s == "warn" <==> r == DCGM_DIAG_RESULT_WARN
    ensures s == "fail" <==> r == DCGM_DIAG_RESULT_FAIL
    ensures s == "notrun" <==> r == DCGM_DIAG_RESULT_NOT_RUN
    ensures s == "" <==> r !in DiagResultCodes
  {
    if r == DCGM_DIAG_RESULT_PASS then "pass"
    else if r == DCGM_DIAG_RESULT_SKIP then "skipped"
    else if r == DCGM_DIAG_RESULT_WARN then "warn"
    else if r == DCGM_DIAG_RESULT_FAIL then "fail"
    else if r == DCGM_DIAG_RESULT_NOT_RUN then "notrun"
    else ""
  }

  /** The sentence naming a software test; unknown ids get "". */
  function SwTestName(t: int): (s: string)
    ensures s != "" <==> t in SwTestIds
    ensures t == DCGM_SWTEST_PERMISSIONS ==> s == "character device permissions"
  {
    if t == DCGM_SWTEST_DENYLIST then "presence of drivers on the denylist (e.g. nouveau)"
    else if t == DCGM_SWTEST_NVML_LIBRARY then "presence (and version) of NVML lib"
    else if t == DCGM_SWTEST_CUDA_MAIN_LIBRARY then "presence (and version) of CUDA lib"
    else if t == DCGM_SWTEST_CUDA_RUNTIME_LIBRARY then "presence (and version) of CUDA RT lib"
    else if t == DCGM_SWTEST_PERMISSIONS then "character device permissions"
    else if t == DCGM_SWTEST_PERSISTENCE_MODE then "persistence mode enabled"
    else if t == DCGM_SWTEST_ENVIRONMENT then "CUDA environment vars that may slow tests"
    else if t == DCGM_SWTEST_PAGE_RETIREMENT then "pending frame buffer page retirement"
    else if t == DCGM_SWTEST_GRAPHICS_PROCESSES then "graphics processes running"
    else if t == DCGM_SWTEST_INFOROM then "inforom corruption"
    else ""
  }

  /** The native level for a requested depth; anything but the four depths gets the INVALID sentinel. */
  function DiagLevel(diagType: DiagType): (level: int)
    ensures level == DCGM_DIAG_LVL_INVALID <==> diagType !in {DiagQuick, DiagMedium, DiagLong, DiagExtended}
    ensures level in {DCGM_DIAG_LVL_INVALID, DCGM_DIAG_LVL_SHORT, DCGM_DIAG_LVL_MED,
                      DCGM_DIAG_LVL_LONG, DCGM_DIAG_LVL_XLONG}
  {
    if diagType == DiagQuick then DCGM_DIAG_LVL_SHORT
    else if diagType == DiagMedium then DCGM_DIAG_LVL_MED
    else if diagType == DiagLong then DCGM_DIAG_LVL_LONG
    else if diagType == DiagExtended then DCGM_DIAG_LVL_XLONG
    else DCGM_DIAG_LVL_INVALID
  }

  /** A deeper requested depth maps to a strictly longer native level; in particular the four are distinct. */
  lemma DiagLevelOrdered(a: DiagType, b: DiagType)
    requires DiagQuick <= a < b <= DiagExtended
    ensures DCGM_DIAG_LVL_INVALID < DiagLevel(a) < DiagLevel(b)
  {
  }

  // ---------------------------------------------------------------------
  // First-match scans
  // ---------------------------------------------------------------------

  /** The lowest index of an error about `entityId`, or |errs| when there is none. */
  function FirstErrorIndex(entityId: nat, errs: seq<DiagError>): (k: nat)
    ensures k <= |errs|
    ensures forall i | 0 <= i < k :: errs[i].entity.entityId != entityId
    ensures k < |errs| ==> errs[k].entity.entityId == entityId
  {
    if errs == [] then 0
    else if errs[0].entity.entityId == entityId then 0
    else 1 + FirstErrorIndex(entityId, errs[1..])
  }

  /** The message and code of the first error about `entityId`, or ("", 0). */
  function ErrorFor(entityId: nat, errs: seq<DiagError>): (found: (string, uint32)) {
    var k := FirstErrorIndex(entityId, errs);
    if k < |errs| then (errs[k].msg, errs[k].code) else ("", 0)
  }

  /** The lowest index of an informational message about `entityId`, or |infos| when there is none. */
  function FirstInfoIndex(entityId: nat, infos: seq<DiagInfo>): (k: nat)
    ensures k <= |infos|
    ensures forall i | 0 <= i < k :: infos[i].entity.entityId != entityId
    ensures k < |infos| ==> infos[k].entity.entityId == entityId
  {
    if infos == [] then 0
    else if infos[0].entity.entityId == entityId then 0
    else 1 + FirstInfoIndex(entityId, infos[1..])
  }

  /** The first informational message about `entityId`, or "". */
  function InfoFor(entityId: nat, infos: seq<DiagInfo>): (msg: string) {
    var k := FirstInfoIndex(entityId, infos);
    if k < |infos| then infos[k].msg else ""
  }

  /** With no error about the entity, the scan yields the empty message and code 0. */
  lemma ErrorForNoMatch(entityId: nat, errs: seq<DiagError>)
    requires forall i | 0 <= i < |errs| :: errs[i].entity.entityId != entityId
    ensures ErrorFor(entityId, errs) == ("", 0)
  {
  }

  /** The scan yields the first matching error, whatever matching errors follow it. */
  lemma ErrorForFirstMatch(entityId: nat, errs: seq<DiagError>, j: nat)
    requires j < |errs| && errs[j].entity.entityId == entityId
    requires forall i | 0 <= i < j :: errs[i].entity.entityId != entityId
    ensures ErrorFor(entityId, errs) == (errs[j].msg, errs[j].code)
  {
  }

  /** Entries after the first match do not affect the scan: two lists agreeing up to it scan alike. */
  lemma ErrorForIgnoresLaterEntries(entityId: nat, errs: seq<DiagError>, other: seq<DiagError>, j: nat)
    requires j < |errs| && errs[j].entity.entityId == entityId
    requires j < |other| && other[..j + 1] == errs[..j + 1]
    ensures ErrorFor(entityId, other) == ErrorFor(entityId, errs)
  {
  }

  /** With no message about the entity, the scan yields "". */
  lemma InfoForNoMatch(entityId: nat, infos: seq<DiagInfo>)
    requires forall i | 0 <= i < |infos| :: infos[i].entity.entityId != entityId
    ensures InfoFor(entityId, infos) == ""
  {
  }

  /** The scan yields the first matching message, whatever matching messages follow it. */
  lemma InfoForFirstMatch(entityId: nat, infos: seq<DiagInfo>, j: nat)
    requires j < |infos| && infos[j].entity.entityId == entityId
    requires forall i | 0 <= i < j :: infos[i].entity.entityId != entityId
    ensures InfoFor(entityId, infos) == infos[j].msg
  {
  }

  /** Entries after the first match do not affect the scan. */
  lemma InfoForIgnoresLaterEntries(entityId: nat, infos: seq<DiagInfo>, other: seq<DiagInfo>, j: nat)
    requires j < |infos| && infos[j].entity.entityId == entityId
    requires j < |other| && other[..j + 1] == infos[..j + 1]
    ensures InfoFor(entityId, other) == InfoFor(entityId, infos)
  {
  }

  /** Scans errors[0..numErrors) and returns the message and code of the first one about `entityId`. */
  method GetErrorMsg(entityId: nat, response: DiagResponse) returns (msg: string, code: nat)
    requires response.numErrors <= |response.errors|
    ensures (msg, code) == ErrorFor(entityId, ReportedErrors(response))
  {
    for i := 0 to response.numErrors
      invariant forall j | 0 <= j < i :: response.errors[j].entity.entityId != entityId
    {
      if response.errors[i].entity.entityId != entityId {
        continue;
      }
      return response.errors[i].msg, response.errors[i].code;
    }
    return "", 0;
  }

  /** Scans info[0..numInfo) and returns the first message about `entityId`. */
  method GetInfoMsg(entityId: nat, response: DiagResponse) returns (msg: string)
    requires response.numInfo <= |response.info|
    ensures msg == InfoFor(entityId, ReportedInfo(response))
  {
    for i := 0 to response.numInfo
      invariant forall j | 0 <= j < i :: response.info[j].entity.entityId != entityId
    {
      if response.info[i].entity.entityId != entityId {
        continue;
      }
      return response.info[i].msg;
    }
    return "";
  }

  // ---------------------------------------------------------------------
  // Row builder
  // ---------------------------------------------------------------------

  /**
   * The row built from results[resultIndex]: its status and test labels,
   * and the first info message and first error of its entity.
   */
  function DiagResultOf(resultIndex: nat, response: DiagResponse): (row: DiagResult)
    requires ScansFit(response) && resultIndex < |response.results|
  {
    var res := response.results[resultIndex];
    var (msg, code) := ErrorFor(res.entity.entityId, ReportedErrors(response));
    DiagResult(DiagResultString(res.result), SwTestName(res.testId),
               InfoFor(res.entity.entityId, ReportedInfo(response)), code, msg)
  }

  /** A row's error fields come from the first reported error of its entity. */
  lemma DiagResultOfError(resultIndex: nat, response: DiagResponse, j: nat)
    requires ScansFit(response) && resultIndex < |response.results|
    requires j < response.numErrors
    requires response.errors[j].entity.entityId == response.results[resultIndex].entity.entityId
    requires forall i | 0 <= i < j :: response.errors[i].entity.entityId != response.results[resultIndex].entity.entityId
    ensures DiagResultOf(resultIndex, response).errorMessage == response.errors[j].msg
    ensures DiagResultOf(resultIndex, response).errorCode == response.errors[j].code
  {
  }

  /** A row whose entity has no reported error carries code 0 and an empty message. */
  lemma DiagResultOfNoError(resultIndex: nat, response: DiagResponse)
    requires ScansFit(response) && resultIndex < |response.results|
    requires forall i | 0 <= i < response.numErrors ::
      response.errors[i].entity.entityId != response.results[resultIndex].entity.entityId
    ensures DiagResultOf(resultIndex, response).errorMessage == ""
    ensures DiagResultOf(resultIndex, response).errorCode == 0
  {
  }

  /** A row's output is the first reported message of its entity, or "" when there is none. */
  lemma DiagResultOfInfo(resultIndex: nat, response: DiagResponse)
    requires ScansFit(response) && resultIndex < |response.results|
    ensures var e := response.results[resultIndex].entity.entityId;
            var out := DiagResultOf(resultIndex, response).testOutput;
            (forall i | 0 <= i < response.numInfo :: response.info[i].entity.entityId != e) ==> out == ""
    ensures forall j | 0 <= j < response.numInfo ::
              response.info[j].entity.entityId == response.results[resultIndex].entity.entityId &&
              (forall i | 0 <= i < j :: response.info[i].entity.entityId != response.info[j].entity.entityId)
              ==> DiagResultOf(resultIndex, response).testOutput == response.info[j].msg
  {
  }

  /** Builds the row for results[resultIndex]. */
  method NewDiagResult(resultIndex: nat, response: DiagResponse) returns (dr: DiagResult)
    requires ScansFit(response) && resultIndex < |response.results|
    ensures dr.status == DiagResultString(response.results[resultIndex].result)
    ensures dr.testName == SwTestName(response.results[resultIndex].testId)
    ensures dr.testOutput == InfoFor(response.results[resultIndex].entity.entityId, ReportedInfo(response))
    ensures (dr.errorMessage, dr.errorCode) ==
            ErrorFor(response.results[resultIndex].entity.entityId, ReportedErrors(response))
    ensures dr == DiagResultOf(resultIndex, response)
  {
    var entityId := response.results[resultIndex].entity.entityId;
    var msg, code := GetErrorMsg(entityId, response);
    var info := GetInfoMsg(entityId, response);
    var testName := SwTestName(response.results[resultIndex].testId);
    dr := DiagResult(DiagResultString(response.results[resultIndex].result), testName, info, code, msg);
  }

  // ---------------------------------------------------------------------
  // The run
  // ---------------------------------------------------------------------

  /**
   * What RunDiag needs of a successful response: counts within capacity,
   * and every reported result's entity id usable as an index into
   * `results`, since RunDiag builds row i from results[results[i].entityId].
   */
  predicate Decodable(r: DiagResponse) {
    && CountsFit(r)
    && forall i | 0 <= i < r.numResults :: r.results[i].entity.entityId < |r.results|
  }

  /**
   * Runs the diagnostic at the native level for `diagType` (INVALID included)
   * through `engine`. On a non-OK return it yields no rows and an error with
   * the engine's code and its text `errorText(code)`; otherwise it yields one
   * row per reported result, in order, row i built from the result whose
   * index is results[i]'s entity id.
   */
  method RunDiag(diagType: DiagType, groupId: GroupHandle,
                 engine: DiagRequest -> EngineReply, errorText: int -> string)
    returns (diagRun: DiagResults, err: Option<DcgmError>)
    requires var reply := engine(DiagRequest(groupId, DiagLevel(diagType)));
             reply.status == DCGM_ST_OK ==> Decodable(reply.response)
    ensures var reply := engine(DiagRequest(groupId, DiagLevel(diagType)));
            reply.status != DCGM_ST_OK ==>
              diagRun.software == [] && err == Some(DcgmError(errorText(reply.status), reply.status))
    ensures var reply := engine(DiagRequest(groupId, DiagLevel(diagType)));
            reply.status == DCGM_ST_OK ==>
              && err == None
              && |diagRun.software| == reply.response.numResults
              && forall i {:trigger diagRun.software[i]} | 0 <= i < reply.response.numResults ::
                   diagRun.software[i] == DiagResultOf(reply.response.results[i].entity.entityId, reply.response)
  {
    var reply := engine(DiagRequest(groupId, DiagLevel(diagType)));
    if reply.status != DCGM_ST_OK {
      return DiagResults([]), Some(DcgmError(errorText(reply.status), reply.status));
    }
    var response := reply.response;
    diagRun := DiagResults([]);
    for i := 0 to response.numResults
      invariant |diagRun.software| == i
      invariant forall j {:trigger diagRun.software[j]} | 0 <= j < i ::
        diagRun.software[j] == DiagResultOf(response.results[j].entity.entityId, response)
    {
      var k := response.results[i].entity.entityId;
      assert k < |response.results|;
      var dr := NewDiagResult(k, response);
      assert dr == DiagResultOf(response.results[i].entity.entityId, response);
      diagRun := diagRun.(software := diagRun.software + [dr]);
    }
    err := None;
  }

  // ---------------------------------------------------------------------
  // The row index RunDiag uses
  // ---------------------------------------------------------------------

  /**
   * A response with one reported result, for entity 5, whose buffer still
   * holds a zeroed entry at index 5: RunDiag's row 0 is built from that
   * zeroed entry, not from the reported result.
   */
  function EntityAsIndexWitness(): (r: DiagResponse)
    ensures Decodable(r)
  {
    var zero := DiagEntityResult(DiagEntity(0, 0), 0, 0);
    var reported := DiagEntityResult(DiagEntity(1, 5), DCGM_SWTEST_PERMISSIONS as uint32, DCGM_DIAG_RESULT_FAIL);
    DiagResponse(1, [reported, zero, zero, zero, zero, zero],
                 1, [DiagError(DiagEntity(1, 5), 12, "denied")],
                 0, [])
  }

  /** On that response the row RunDiag builds differs from the row of the reported result. */
  lemma EntityAsIndexDiffers()
    ensures var r := EntityAsIndexWitness();
            DiagResultOf(r.results[0].entity.entityId, r) != DiagResultOf(0, r)
    ensures var r := EntityAsIndexWitness();
            DiagResultOf(r.results[0].entity.entityId, r) ==
              DiagResult("pass", "presence of drivers on the denylist (e.g. nouveau)", "", 0, "")
    ensures var r := EntityAsIndexWitness();
            DiagResultOf(0, r) == DiagResult("fail", "character device permissions", "", 12, "denied")
  {
  }

  /**
   * RunDiag with the row index it evidently intends: row i is built from
   * results[i] itself, so no entity id has to be a valid index.
   */
  method RunDiagPerEntry(diagType: DiagType, groupId: GroupHandle,
                         engine: DiagRequest -> EngineReply, errorText: int -> string)
    returns (diagRun: DiagResults, err: Option<DcgmError>)
    requires var reply := engine(DiagRequest(groupId, DiagLevel(diagType)));
             reply.status == DCGM_ST_OK ==> CountsFit(reply.response)
    ensures var reply := engine(DiagRequest(groupId, DiagLevel(diagType)));
            reply.status != DCGM_ST_OK ==>
              diagRun.software == [] && err == Some(DcgmError(errorText(reply.status), reply.status))
    ensures var reply := engine(DiagRequest(groupId, DiagLevel(diagType)));
            reply.status == DCGM_ST_OK ==>
              && err == None
              && |diagRun.software| == reply.response.numResults
              && forall i | 0 <= i < reply.response.numResults ::
                   diagRun.software[i] == DiagResultOf(i, reply.response)
  {
    var reply := engine(DiagRequest(groupId, DiagLevel(diagType)));
    if reply.status != DCGM_ST_OK {
      return DiagResults([]), Some(DcgmError(errorText(reply.status), reply.status));
    }
    var response := reply.response;
    diagRun := DiagResults([]);
    for i := 0 to response.numResults
      invariant |diagRun.software| == i
      invariant forall j | 0 <= j < i :: diagRun.software[j] == DiagResultOf(j, response)
    {
      var dr := NewDiagResult(i, response);
      assert dr == DiagResultOf(i, response);
      diagRun := diagRun.(software := diagRun.software + [dr]);
    }
    err := None;
  }
}
