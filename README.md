# minihai execution lifecycle, modelled in Dafny

This project models the lifecycle of a minihai *execution*: one job that runs in a
Docker container. An execution has a metadata document and up to three log artifacts.
Its status (`queued`, `running`, `complete`, `error`) is derived from the metadata
every time it is read. A poller calls `check_container_status` again and again. When
the container has stopped (`exited` or `dead`), that call records the container's
final state once and writes each missing artifact (`stdout.log`, `stderr.log`,
`log.json`). `get_logs` reads the stored `log.json` first and falls back to the live
container.

Files and modules:

- `py_json.dfy`, module `PyJson`: the JSON-serialisable values stored in the metadata.
  It also states Python's truthiness (`None`, `False`, `0`, `""`, `[]` and `{}` are
  falsy), `dict.get` with its `None` default, and `v == 0` (which also holds for `False`).
- `docker.dfy`, module `Docker`: the container runtime as an input value. A `Runtime`
  maps container ids to containers. Each container has its `State` object and a fixed
  reply (an answer or an API error) for each of its three log calls. `Call` names the
  calls made into the client.
- `lifecycle.dfy`, module `Lifecycle`: the functions `StatusOf`, `ResolveContainer`,
  `LogPath`/`ArtifactPath`, `RecordFinalState`, `WriteArtifact`, `CheckWith`, `Check`,
  `CheckFetchFirst`, `Polls` and `GetLogs`, which specify the behaviour.
  `CheckWith` takes the order of the `log.json` write as a parameter, `openBeforeFetch`.
  `Check` is the source's order: the file is opened before its content is fetched.
  `CheckFetchFirst` is the corrected order (see Findings). The class `Execution`
  holds `metadata` and `files` and updates them in place in `CheckContainerStatus`.
  That method is proved equal to `CheckFetchFirst`, including the runtime calls it makes.
- `lifecycle_properties.dfy`, module `LifecycleProperties`: the lemmas. They cover
  status precedence, set-once metadata, guarded artifact writes, idempotence, the
  fixed point after a full capture, a status that stays readable over any polls, convergence after a failed capture (in the
  corrected order only), and log
  retrieval.
- `lifecycle_scenarios.dfy`, module `LifecycleScenarios`: concrete runs, namely a new
  execution, a running one, exit codes 0 and 137, and an out-of-memory kill.

Every lemma about the check takes the write order as a parameter and is proved for
both orders, with three exceptions. `CheckFailureLeavesArtifactMissing` covers
`log.json` only in the corrected order. `JsonLogAsWrittenNeverRecovers` is about the
source's order. `FailedCaptureRecovers` is about the corrected order.

Python exceptions are modelled as values: `Outcome<T>` is `Ok(value)` or
`Raised(fault)`. The faults are `AttributeError` on a non-dict final state, the
runtime's `NotFound`, a failing log call, and `json.load` on a file that holds no
document.

## Model

| member | source | states |
|---|---|---|
| `LifecycleProperties.ArtifactPathsDistinct` | minihai/models/execution.py:40-45 | no `<name>.log` equals `log.json`, and `LogPath` (the file name `<name>.log`) is injective, so the three artifact files `stdout.log`, `stderr.log` and `log.json`, and their existence guards, are distinct |
| `LifecycleProperties.FinalStateErrorWins` | minihai/models/execution.py:49-51 | a final state that is a dict with a truthy `Error` gives `error`, whatever the exit code |
| `LifecycleProperties.ExitCodeDecides` | minihai/models/execution.py:52-56 | with no final-state error and a recorded exit code, the status is `complete` iff the code equals 0, and `error` iff it does not |
| `LifecycleProperties.ContainerIdDecides` | minihai/models/execution.py:58-60 | with no error and no exit code, the status is `running` iff `container_id` is truthy, and `queued` iff it is missing or falsy |
| `LifecycleProperties.StatusRaisesIff` | minihai/models/execution.py:47-60 | reading the status raises iff the final state is truthy but not a dict |
| `LifecycleProperties.StatusTerminalIff` | minihai/models/execution.py:47-60 | the status is `complete` or `error` iff the final state carries an error or an exit code is recorded |
| `LifecycleProperties.NoContainerIff` | minihai/models/execution.py:62-67 | there is no container iff `container_id` is missing or falsy; the lookup raises iff the id is truthy and unknown to the runtime |
| `LifecycleProperties.CheckWithoutContainerIsNoop` | minihai/models/execution.py:75-78 | in both orders, without a container, the check changes neither metadata nor artifacts and makes no runtime call |
| `LifecycleProperties.CheckUnknownContainerRaises` | minihai/models/execution.py:64-67 | in both orders, an unknown container id raises `NotFound` and leaves the state unchanged |
| `LifecycleProperties.CheckNonTerminalIsNoop` | minihai/models/execution.py:80-82 | in both orders, a container neither `exited` nor `dead` leaves metadata and artifacts unchanged |
| `LifecycleProperties.CheckSetOnce` | minihai/models/execution.py:83-89 | once `container_final_state` is set, the check leaves the metadata unchanged (either order of the `log.json` write) |
| `LifecycleProperties.CheckRecordsFirstTerminalState` | minihai/models/execution.py:83-89 | in both orders, the first terminal observation records `ExitCode` as `container_exit_code` and the whole state as `container_final_state` |
| `LifecycleProperties.CheckWritesOnlyTerminalKeys` | minihai/models/execution.py:84-89 | in both orders, apart from the exit code and the final state, no metadata key is added, removed or changed |
| `LifecycleProperties.StatusAfterFirstCapture` | minihai/models/execution.py:47-89 | in both orders, after the first capture, the status follows the container state: its error, then its exit code; a missing `ExitCode` still reads as `running` |
| `LifecycleProperties.StatusStableOnceRecorded` | minihai/models/execution.py:83-89 | in both orders, once the final state is recorded, no check changes the status |
| `LifecycleProperties.CheckKeepsFinalStateDict` | minihai/models/execution.py:47-89 | in both orders, the check records only a dict as the final state, so from metadata with no non-dict final state the status is readable afterwards |
| `LifecycleProperties.PollsNeverRaiseStatus` | minihai/models/execution.py:47-89 | in both orders, over any sequence of polls the final state stays absent or a dict, so reading the status never raises |
| `LifecycleProperties.WriteArtifactGuarded` | minihai/models/execution.py:90-101 | in both orders, one guarded write keeps every existing file, adds only its own file, fetches only when that file is missing, and does nothing after a fault |
| `LifecycleProperties.CheckKeepsExistingArtifacts` | minihai/models/execution.py:90-106 | in both orders, every existing artifact keeps its content; only the three artifact files are written; no existing artifact is fetched again |
| `LifecycleProperties.CheckCapturesAll` | minihai/models/execution.py:90-106 | in both orders, on a terminal container whose log calls for the missing artifacts answer, one check completes any partial capture, and each missing file gets the runtime's content; calls for existing artifacts are never made, so their replies do not matter |
| `LifecycleProperties.CheckFailureLeavesArtifactMissing` | minihai/models/execution.py:90-106 | in both orders, a failed `stdout`/`stderr` log call leaves its own artifact missing, so a later check can still write it; for `log.json` this holds only in the corrected order, since the source's order leaves an empty file (lines 104-105) |
| `LifecycleProperties.CapturedIsFixedPoint` | minihai/models/execution.py:75-106 | in both orders, with the final state recorded and all three artifacts present, no check changes the state, whatever the runtime reports |
| `LifecycleProperties.CheckIdempotent` | minihai/models/execution.py:75-106 | in both orders, two checks against the same runtime give the same state as one |
| `LifecycleProperties.PollsAfterCaptureChangeNothing` | minihai/models/execution.py:75-106 | in both orders, after a full capture, any sequence of polls leaves the state unchanged |
| `LifecycleProperties.PollsSetOnce` | minihai/models/execution.py:83-89 | in both orders, once the final state is recorded, no sequence of polls changes the metadata |
| `LifecycleProperties.PollsKeepArtifacts` | minihai/models/execution.py:90-106 | in both orders, every artifact that existed before a sequence of polls keeps its content |
| `LifecycleProperties.GetLogsPrefersStoredLog` | minihai/models/execution.py:108-111 | a stored `log.json` document is returned, whatever the runtime reports |
| `LifecycleProperties.GetLogsFallsBackToLive` | minihai/models/execution.py:112-115 | without `log.json`, a resolved container's live structured logs are returned |
| `LifecycleProperties.GetLogsNoneWithoutContainer` | minihai/models/execution.py:112-114 | without `log.json`, the result is "no logs" (not an error) iff `container_id` is falsy |
| `LifecycleProperties.GetLogsUnknownContainerRaises` | minihai/models/execution.py:112-115 | without `log.json`, a truthy container id the runtime does not know raises `NotFound` rather than returning "no logs" |
| `LifecycleProperties.GetLogsAfterCapture` | minihai/models/execution.py:102-115 | in both orders, after a first capture whose calls for the missing artifacts answer, the logs read back are the live logs of that check, whatever the runtime reports later |
| `LifecycleProperties.JsonLogAsWrittenNeverRecovers` | minihai/models/execution.py:102-111 | as written, a failed structured-log call leaves an empty `log.json`; no sequence of later polls repairs it, and `get_logs` then fails |
| `LifecycleProperties.FailedCaptureRecovers` | minihai/models/execution.py:102-106 | in the corrected order only (fetch, then create the file), from a state without `log.json`, a failed check is repaired by the next check whose calls for the still missing artifacts answer |
| `Lifecycle.Execution.CheckContainerStatus` | minihai/models/execution.py:75-106 | the in-place update gives exactly the metadata, artifacts, result and runtime calls of `CheckFetchFirst`, the corrected order of the `log.json` write |
| `Lifecycle.Execution.UpdateMetadata` | minihai/models/execution.py:84-89 | the metadata becomes a shallow merge: keys of the update overwrite, all other keys stay |
| `Lifecycle.Execution.constructor` | minihai/models/execution.py:69-73 | a new execution holds its creation metadata and no artifacts |
| `LifecycleScenarios.NewExecutionIsQueued` | minihai/models/execution.py:47-67 | a new execution with `image="alpine:3"` and no container is `queued` (the string `"queued"`), has no logs, and its metadata meets the final-state invariant that `PollsNeverRaiseStatus` starts from |
| `LifecycleScenarios.StartedExecutionIsRunning` | minihai/models/execution.py:58-59 | a container id with no exit state reads as `running` |
| `LifecycleScenarios.OutOfMemoryIsError` | minihai/models/execution.py:49-51 | `Error: "OOMKilled"` with exit code 0 reads as `error` |
| `LifecycleScenarios.CheckExited` | minihai/models/execution.py:75-106 | one check of an exited container captures all three artifacts; exit code 0 gives `complete` and 137 (any non-zero) gives `error` |

## Left out

- Docker calls (`docker_client.containers.get`, `container.logs`, `get_container_logs`) are not modelled as code. Each one becomes a fixed reply in the `Runtime` input. A failed container lookup is modelled only as `NotFound`; other transient lookup errors would also raise and change nothing.
- The container's `attrs` is reduced to its `State` object. A missing `State` key, which would raise `KeyError`, is not modelled.
- `get_log_path` and `all_json_log_path` are modelled as plain file names in the execution's directory. pathlib's normalisation of `.` components, repeated slashes and absolute names is not modelled. The source calls `get_log_path` only with `"stdout"` and `"stderr"` (lines 90 and 96), and for those the model is exact.
- JSON text is not modelled. `log.json` holds the document it serialises. `json.dump` followed by `json.load` is taken to return the same value. A `log.json` holding raw bytes decodes to a fault; in this model only the empty file from the as-written write order produces one.
- `get_logs` returns `Option<Value>`, where Python returns `None` or a list. A stored JSON `null` is therefore kept apart from "no logs" here, while Python returns `None` for both.
- Floating-point values in the metadata are not modelled, so `0.0 == 0` is not covered.
- Id generation with `ulid2`, `create_with_metadata`, loading, the sharded path and `update_metadata`'s persistence live in `minihai/models/base.py`, which is not part of this model. The constructor only stores the creation metadata, and `UpdateMetadata` is an in-memory shallow merge.
- `ExecutionCreationData` validation (pydantic), the `outputs_path` directory, directory creation and logging are I/O or library code and are not modelled.
- Failures of the file system and of the metadata write are not modelled.
- Concurrent pollers are not modelled. The lemmas cover sequential repetition only.
- Lifecycle.Execution.CheckContainerStatus: it follows the corrected order for `log.json` (fetch, then create the file). The source's order is modelled by the function `Check` (see Findings).
- LifecycleProperties.CheckFailureLeavesArtifactMissing: for `log.json` it is stated only for the corrected order, because in the source's order a failed fetch leaves an empty file (`JsonLogAsWrittenNeverRecovers`).
- LifecycleProperties.FailedCaptureRecovers: it is stated only for the corrected order, because in the source's order a failed structured-log call never recovers (`JsonLogAsWrittenNeverRecovers`).

## Findings

| source | as written | input that shows it | evidently intended | confidence | as-written member | corrected member |
|---|---|---|---|---|---|---|
| minihai/models/execution.py:102-106 | `log.json` is opened for writing (which creates it) before `get_container_logs(container)` is called | a terminal container whose structured-log call fails once: an empty `log.json` stays behind, every later check skips it as existing, and `get_logs` fails to decode it | fetch the structured logs first and create `log.json` only with content, so partial capture converges like the other two artifacts | medium, not executed | `LifecycleProperties.JsonLogAsWrittenNeverRecovers` | `LifecycleProperties.FailedCaptureRecovers` |
