/**
 * Callers of RunDiag on concrete engine replies: what the decoder yields for
 * a failed permissions test, an empty response, an engine failure, and an
 * unknown requested depth.
 */
module DiagScenarios {
  import opened DcgmStructs
  import opened Diag

  const Group: GroupHandle := GroupHandle(1)

  /** The engine's text for a return code. */
  function EngineErrorText(status: int): string {
    if status == DCGM_ST_OK then "Success" else "Error"
  }

  /** The row for a failed permissions check of entity 5 that has one error and no message. */
  const PermissionsFailure: DiagResult :=
    DiagResult("fail", "character device permissions", "", 12, "denied")

  /**
   * A reply reporting one failed permissions test of entity 5 and one error
   * for it; the results buffer has six slots, the unused ones zeroed.
   */
  function PermissionsReply(req: DiagRequest): EngineReply {
    EngineReply(DCGM_ST_OK, EntityAsIndexWitness())
  }

  /** Per entry, the failed test decodes to its labels and its entity's error. */
  method PermissionsPerEntry() returns (diagRun: DiagResults, err: Option<DcgmError>)
    ensures err == None
    ensures diagRun.software == [PermissionsFailure]
  {
    diagRun, err := RunDiagPerEntry(DiagQuick, Group, PermissionsReply, EngineErrorText);
  }

  /** RunDiag itself builds that row from results[5], the zeroed slot. */
  method PermissionsAsWritten() returns (diagRun: DiagResults, err: Option<DcgmError>)
    ensures err == None
    ensures diagRun.software == [DiagResult("pass", "presence of drivers on the denylist (e.g. nouveau)", "", 0, "")]
    ensures diagRun.software != [PermissionsFailure]
  {
    diagRun, err := RunDiag(DiagQuick, Group, PermissionsReply, EngineErrorText);
  }

  /** A successful reply with no results decodes to no rows and no error. */
  method NoResults() returns (diagRun: DiagResults, err: Option<DcgmError>)
    ensures err == None && diagRun.software == []
  {
    var reply := EngineReply(DCGM_ST_OK, DiagResponse(0, [], 0, [], 0, []));
    diagRun, err := RunDiag(DiagLong, Group, (req: DiagRequest) => reply, EngineErrorText);
  }

  /** A failed run decodes nothing, even from a filled response, and reports the engine's code. */
  method EngineFailure() returns (diagRun: DiagResults, err: Option<DcgmError>)
    ensures diagRun.software == []
    ensures err == Some(DcgmError("Error", -3))
  {
    var filled := EntityAsIndexWitness();
    diagRun, err := RunDiag(DiagMedium, Group, (req: DiagRequest) => EngineReply(-3, filled), EngineErrorText);
  }

  /**
   * An engine that rejects the INVALID level. RunDiag does not check the
   * depth itself: depth 99 reaches the engine as DCGM_DIAG_LVL_INVALID, and
   * the rejection RunDiag reports is the engine's.
   */
  function RejectInvalidLevel(req: DiagRequest): EngineReply {
    if req.level == DCGM_DIAG_LVL_INVALID then EngineReply(-2, DiagResponse(0, [], 0, [], 0, []))
    else EngineReply(DCGM_ST_OK, DiagResponse(0, [], 0, [], 0, []))
  }

  method UnknownDepth() returns (diagRun: DiagResults, err: Option<DcgmError>)
    ensures diagRun.software == []
    ensures err == Some(DcgmError("Error", -2))
  {
    diagRun, err := RunDiag(99, Group, RejectInvalidLevel, EngineErrorText);
  }
}
