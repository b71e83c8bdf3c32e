# Diagnostic-run decoding of go-dcgm, in Dafny

This project models `RunDiag` of the Go DCGM bindings (`pkg/dcgm/diag.go`).
`RunDiag` asks the DCGM engine to run its software diagnostics at a chosen
depth against a group of GPUs. It then decodes the engine's flat response
into an ordered list of `DiagResult` rows. The response holds three
fixed-capacity arrays, each with a count of filled entries:

- per-test results, each tagged with an entity id, a test id and an outcome code;
- errors, tagged with an entity id;
- informational messages, tagged with an entity id.

Each row gets:

- a label for its outcome code;
- a sentence naming its test;
- the first informational message of its entity;
- the first error (message and code) of its entity.

Unknown codes and missing errors or messages become empty strings or zero.
Decoding never fails.

Files:

- `dcgm_structs.dfy` (module `DcgmStructs`): the engine's codes and the response layout.
  The C header that defines them, dcgm_structs.h, is not part of this model.
  The constants carry that header's values: the five outcome codes 0..4, the ten software tests 0..9, the levels INVALID 0 and SHORT/MED/LONG/XLONG 10/20/30/40, and `DCGM_ST_OK` 0.
  The general properties of the decoder use only that the codes in each family are distinct.
  These members also use the actual values:
  - `DiagLevelOrdered` uses the order of the levels.
  - `EntityAsIndexDiffers` and `DiagScenarios.PermissionsAsWritten` use PASS = 0 and DENYLIST = 0: that is why a zeroed result slot decodes to ("pass", denylist sentence). The Findings row's example input depends on it too.
  - The other `DiagScenarios` methods use `DCGM_ST_OK` = 0, so that their failure codes -2 and -3 are not OK.
- `diag.dfy` (module `Diag`): the tables, the first-match scans, the row builder and `RunDiag`.
  - The scans `GetErrorMsg` and `GetInfoMsg` are methods with the source's counted loops, `continue` and early `return`.
    Each is proved equal to a function (`ErrorFor`, `InfoFor`) over the filled prefix of its array.
    Those functions are built on `FirstErrorIndex` and `FirstInfoIndex`, whose contracts say that the index is the lowest matching one.
  - `NewDiagResult` and `RunDiag` are methods proved against `DiagResultOf`, the row as a function of a result index and the response.
  - `ErrorFor`, `InfoFor` and `DiagResultOf` are the reference definitions of `GetErrorMsg`, `GetInfoMsg` and `NewDiagResult`.
    They carry no contract of their own. What they mean is stated by the lemmas about them (`ErrorFor*`, `InfoFor*`, `DiagResultOf*`), and those lemmas have the rows.
- `diag_scenarios.dfy` (module `DiagScenarios`): callers of `RunDiag` on concrete engine replies.

The engine call is a parameter. `engine` maps the request (group, native level) to a reply (return code, filled response).
`errorText` gives the engine's text for a return code.
The model therefore shows which level `RunDiag` hands the engine.

`RunDiag` does not reject an unknown depth. `DiagLevel` maps it to `DCGM_DIAG_LVL_INVALID`, and `RunDiag` sends that level to the engine like any other (pkg/dcgm/diag.go:133, 140).
A design that validates the depth before contacting the engine would differ here. The model follows the code.

## Model

| member | source | states |
|---|---|---|
| `Diag.DiagResultString` | pkg/dcgm/diag.go:36-50 | The label is "pass", "skipped", "warn", "fail" or "notrun" exactly when the code is PASS, SKIP, WARN, FAIL or NOT_RUN respectively, and "" exactly when the code is none of the five |
| `Diag.SwTestName` | pkg/dcgm/diag.go:52-77 | The name is non-empty exactly for the ten software test ids; PERMISSIONS is named "character device permissions" |
| `Diag.DiagLevel` | pkg/dcgm/diag.go:122-134 | The level is INVALID exactly when the depth is not one of DiagQuick, DiagMedium, DiagLong, DiagExtended; it is always one of the five native levels |
| `Diag.DiagLevelOrdered` | pkg/dcgm/diag.go:17-22 | Depths 1..4 map to native levels that are valid and strictly increasing, hence four distinct levels |
| `Diag.FirstErrorIndex` | pkg/dcgm/diag.go:80-83 | The index is the lowest one whose error is about the entity, or the list length when none is |
| `Diag.ErrorForNoMatch` | pkg/dcgm/diag.go:90 | With no error about the entity the scan yields ("", 0) |
| `Diag.ErrorForFirstMatch` | pkg/dcgm/diag.go:80-88 | The scan yields the message and code of the first error about the entity |
| `Diag.ErrorForIgnoresLaterEntries` | pkg/dcgm/diag.go:80-88 | Two error lists that agree up to the first match scan alike: later entries never matter |
| `Diag.GetErrorMsg` | pkg/dcgm/diag.go:79-91 | The loop looks only at errors[0..numErrors) and returns what `ErrorFor` gives for that prefix |
| `Diag.FirstInfoIndex` | pkg/dcgm/diag.go:94-97 | The index is the lowest one whose message is about the entity, or the list length when none is |
| `Diag.InfoForNoMatch` | pkg/dcgm/diag.go:103 | With no message about the entity the scan yields "" |
| `Diag.InfoForFirstMatch` | pkg/dcgm/diag.go:94-101 | The scan yields the first message about the entity |
| `Diag.InfoForIgnoresLaterEntries` | pkg/dcgm/diag.go:94-101 | Two message lists that agree up to the first match scan alike |
| `Diag.GetInfoMsg` | pkg/dcgm/diag.go:93-104 | The loop looks only at info[0..numInfo) and returns what `InfoFor` gives for that prefix |
| `Diag.NewDiagResult` | pkg/dcgm/diag.go:106-120 | With e the entity id of results[k]: the status is its outcome label, the test name its test's name, the output the first message about e, and message and code those of the first error about e |
| `Diag.DiagResultOfError` | pkg/dcgm/diag.go:107-109 | A row's error message and code are those of the first reported error whose entity is the row's entity |
| `Diag.DiagResultOfNoError` | pkg/dcgm/diag.go:107-109 | A row whose entity has no reported error has code 0 and an empty message |
| `Diag.DiagResultOfInfo` | pkg/dcgm/diag.go:107-110 | A row's output is the first reported message about its entity, or "" when there is none |
| `Diag.RunDiag` | pkg/dcgm/diag.go:136-152 | The engine is asked at level DiagLevel(depth), INVALID included. On a non-OK code: no rows, and an error with that code and its text. On OK: no error and exactly numResults rows, row i built from result index results[i].entityId |
| `Diag.EntityAsIndexDiffers` | pkg/dcgm/diag.go:147 | On a response with one result, for entity 5, RunDiag's row is built from the zeroed slot 5 and differs from the reported result's row |
| `Diag.RunDiagPerEntry` | pkg/dcgm/diag.go:145-151 | Corrected fold: on OK, exactly numResults rows, row i built from results[i], in order; on failure as RunDiag |
| `DiagScenarios.PermissionsPerEntry` | pkg/dcgm/diag.go:106-120 | A failed permissions test of entity 5 with error (12, "denied") decodes per entry to ("fail", "character device permissions", "", 12, "denied") |
| `DiagScenarios.PermissionsAsWritten` | pkg/dcgm/diag.go:147 | The same reply through RunDiag yields the denylist "pass" row of the zeroed slot |
| `DiagScenarios.NoResults` | pkg/dcgm/diag.go:145-151 | A successful reply with no results yields no rows and no error |
| `DiagScenarios.EngineFailure` | pkg/dcgm/diag.go:140-143 | A failed run yields no rows, even from a filled response, and an error with the engine's code |
| `DiagScenarios.UnknownDepth` | pkg/dcgm/diag.go:133 | Depth 99 reaches the engine as the INVALID level; the error RunDiag reports is the engine's rejection |

## Findings

| source | as written | input that shows it | evidently intended | confidence | as-written member | corrected member |
|---|---|---|---|---|---|---|
| pkg/dcgm/diag.go:147 | row i is `newDiagResult(results[i].entity.entityId, ...)`: the entity id is used as an index into `results` | one reported result (entity 5, PERMISSIONS, FAIL) with error (5, 12, "denied") and slot 5 of the results buffer zeroed: the row is ("pass", denylist sentence, "", 0, "") | row i is `newDiagResult(i, ...)`, giving ("fail", "character device permissions", "", 12, "denied") | high; not executed | `Diag.RunDiag`, `Diag.EntityAsIndexDiffers` | `Diag.RunDiagPerEntry` |

## Left out

- The engine call `C.dcgmRunDiagnostic` and the process-wide session handle: the engine is the `engine` parameter.
  As a function, it cannot express how many times it is called or any effect it has.
- `makeVersion11` and the response's version tag: the response is taken as already versioned.
- `C.GoString` over the fixed message buffers: messages are already-decoded strings.
- `errorString`, which is not part of this model: a return code other than `DCGM_ST_OK` is taken as an error, and the error's text is the `errorText` parameter.
- Diag.RunDiag: on an OK reply, requires every reported result's entity id below the capacity of `results`, as the Go code panics on `results[entityId]` otherwise. It also requires `numResults` within capacity; the Go loop would panic on reaching `results[capacity]`. Both panics are left out of the model.
- Diag.RunDiag: also requires, on an OK reply, the error and info counts within capacity. This is the model's assumption about the fixed-capacity layout, stricter than Go's panic condition. A scan panics only when it reaches the capacity without a match, and with no results no scan runs at all.
- Diag.GetErrorMsg: requires `numErrors` within the capacity of `errors`. This layout assumption is stricter than Go's panic condition: the loop panics only when it passes the capacity without finding a match.
- Diag.GetInfoMsg: requires `numInfo` within the capacity of `info`, the same layout assumption and stricter than Go's condition in the same way.
- Diag.NewDiagResult: requires the result index below the capacity of `results`, where Go panics, and the error and info counts within capacity, the layout assumption of the two scans. It does not read `numResults`.
- Go's difference between a nil and an empty `Software` slice: both are the empty sequence. The Go code returns nil both on failure and for zero results.
- Go's 64-bit `uint`: entity ids, codes and counts come from C `unsigned int` fields. They are modelled as 32-bit values and are only compared or widened, never wrapped.
- samples/processInfo/main.go (command-line printing, live engine startup) and pkg/dcgm/test_utils.go (test setup against a live engine): no decoding logic.
