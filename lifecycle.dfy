/** The execution lifecycle: status derived from metadata, container
    resolution, terminal-state capture and log retrieval. */
module Lifecycle {
  import opened PyJson
  import opened Docker

  /** The metadata document of one execution. */
  type Metadata = map<string, Value>

  /** An artifact file in the execution's directory: raw bytes (`*.log`),
      or a JSON document (`log.json`, kept as the document it serialises). */
  datatype File = Bytes(data: seq<Byte>) | Document(doc: Value)

  /** The artifact files that exist, keyed by file name. */
  type Files = map<string, File>

  const ContainerIdKey: string := "container_id"
  const ExitCodeKey: string := "container_exit_code"
  const FinalStateKey: string := "container_final_state"

  datatype Option<T> = None | Some(value: T)

  /** What a Python call raises. */
  datatype Fault =
    | NotADict(value: Value)     // AttributeError: `.get` on a non-dict final state
    | NotFound(id: Value)        // the runtime does not know the container id
    | RuntimeError(stream: Stream) // a log call into the runtime failed
    | Undecodable(name: string)  // `json.load` on a file that holds no document

  /** A Python call either returns a value or raises. */
  datatype Outcome<T> = Ok(value: T) | Raised(fault: Fault)

  /** The derived status of an execution. */
  datatype Status = Queued | Running | Complete | Error {
    function Name(): string {
      match this
      case Queued => "queued"
      case Running => "running"
      case Complete => "complete"
      case Error => "error"
    }
  }

  // ---------------------------------------------------------------------
  // Artifact paths

  /** `get_log_path(name)`: the file `<name>.log`. */
  function LogPath(name: string): string {
    name + ".log"
  }

  /** `all_json_log_path`: the file `log.json`. */
  const AllJsonLogPath: string := "log.json"

  /** The file each captured stream is written to. */
  function ArtifactPath(stream: Stream): string {
    match stream
    case Stdout => LogPath("stdout")
    case Stderr => LogPath("stderr")
    case Structured => AllJsonLogPath
  }

  // ---------------------------------------------------------------------
  // Status derivation

  /** `status`: an error in the final state wins, then the exit code, then
      the container id; a truthy final state that is not a dict raises. */
  function StatusOf(m: Metadata): Outcome<Status> {
    var finalState := Get(m, FinalStateKey);
    if Truthy(finalState) && !finalState.Object? then
      Raised(NotADict(finalState))
    else if Truthy(finalState) && Truthy(Get(finalState.fields, "Error")) then
      Ok(Error)
    else
      var exitCode := Get(m, ExitCodeKey);
      if exitCode != Null then
        if EqualsZero(exitCode) then Ok(Complete) else Ok(Error)
      else if Truthy(Get(m, ContainerIdKey)) then
        Ok(Running)
      else
        Ok(Queued)
  }

  /** The final state is absent or a dict: the shape the check writes. */
  predicate FinalStateWellFormed(m: Metadata) {
    Get(m, FinalStateKey) == Null || Get(m, FinalStateKey).Object?
  }

  // ---------------------------------------------------------------------
  // Container resolution

  /** `container`: no container while `container_id` is falsy; otherwise the
      runtime's container of that id, and `NotFound` when it has none. */
  function ResolveContainer(m: Metadata, rt: Runtime): Outcome<Option<Container>> {
    var id := Get(m, ContainerIdKey);
    if !Truthy(id) then Ok(None)
    else if id in rt then Ok(Some(rt[id]))
    else Raised(NotFound(id))
  }

  // ---------------------------------------------------------------------
  // Terminal-state capture

  /** The container's `State.Status` is `"exited"` or `"dead"`. */
  predicate IsTerminal(state: map<string, Value>) {
    var status := Get(state, "Status");
    status == Str("exited") || status == Str("dead")
  }

  /** The set-once metadata update: merge the exit code and the whole state
      only while `container_final_state` is None. */
  function RecordFinalState(m: Metadata, state: map<string, Value>): Metadata {
    if Get(m, FinalStateKey) == Null then
      m + map[ExitCodeKey := Get(state, "ExitCode"), FinalStateKey := Object(state)]
    else
      m
  }

  /** The reply of the log call for `stream`, as the file it would become. */
  function Fetch(c: Container, stream: Stream): Reply<File> {
    match stream
    case Stdout => if c.stdout.Answer? then Answer(Bytes(c.stdout.value)) else ApiError
    case Stderr => if c.stderr.Answer? then Answer(Bytes(c.stderr.value)) else ApiError
    case Structured => if c.structured.Answer? then Answer(Document(c.structured.value)) else ApiError
  }

  /** The artifact files, a fault once one was raised, and the runtime calls made. */
  datatype Progress = Progress(files: Files, fault: Option<Fault>, calls: seq<Call>)

  /** One existence-guarded artifact write. Nothing happens after a fault.
      With `openBeforeFetch`, `log.json` is created before its content is
      fetched, so a failed fetch leaves it empty. */
  function WriteArtifact(p: Progress, c: Container, stream: Stream, openBeforeFetch: bool): Progress {
    var name := ArtifactPath(stream);
    if p.fault.Some? || name in p.files then p
    else
      var calls := p.calls + [FetchLogs(stream)];
      match Fetch(c, stream)
      case Answer(f) => Progress(p.files[name := f], None, calls)
      case ApiError =>
        var files := if openBeforeFetch && stream == Structured then p.files[name := Bytes([])] else p.files;
        Progress(files, Some(RuntimeError(stream)), calls)
  }

  /** What an execution consists of for this core: metadata and artifacts. */
  datatype Snapshot = Snapshot(metadata: Metadata, files: Files)

  /** The new snapshot, what the call returned or raised, and the runtime calls it made. */
  datatype Step = Step(after: Snapshot, result: Outcome<()>, calls: seq<Call>)

  /** `check_container_status`, with the order of opening `log.json` and
      fetching its content as a parameter. */
  function CheckWith(s: Snapshot, rt: Runtime, openBeforeFetch: bool): Step {
    var id := Get(s.metadata, ContainerIdKey);
    match ResolveContainer(s.metadata, rt)
    case Raised(f) => Step(s, Raised(f), [GetContainer(id)])
    case Ok(None) => Step(s, Ok(()), [])
    case Ok(Some(c)) =>
      if !IsTerminal(c.state) then
        Step(s, Ok(()), [GetContainer(id)])
      else
        var p0 := Progress(s.files, None, [GetContainer(id)]);
        var p1 := WriteArtifact(p0, c, Stdout, openBeforeFetch);
        var p2 := WriteArtifact(p1, c, Stderr, openBeforeFetch);
        var p3 := WriteArtifact(p2, c, Structured, openBeforeFetch);
        var result := if p3.fault.Some? then Raised(p3.fault.value) else Ok(());
        Step(Snapshot(RecordFinalState(s.metadata, c.state), p3.files), result, p3.calls)
  }

  /** `check_container_status` as the source writes it: `log.json` is opened
      for writing before `get_container_logs` is called. */
  function Check(s: Snapshot, rt: Runtime): Step {
    CheckWith(s, rt, true)
  }

  /** Not the source's order: `check_container_status` with the structured
      log fetched before `log.json` is created, so a failed fetch leaves no
      file behind. */
  function CheckFetchFirst(s: Snapshot, rt: Runtime): Step {
    CheckWith(s, rt, false)
  }

  /** The state after a poller has called the check once per runtime
      observation, in the given order of the `log.json` write. */
  function Polls(s: Snapshot, rts: seq<Runtime>, openBeforeFetch: bool): Snapshot
    decreases |rts|
  {
    if rts == [] then s else Polls(CheckWith(s, rts[0], openBeforeFetch).after, rts[1..], openBeforeFetch)
  }

  /** Terminal state recorded and all three artifacts present. */
  predicate Captured(s: Snapshot) {
    && Get(s.metadata, FinalStateKey) != Null
    && ArtifactPath(Stdout) in s.files
    && ArtifactPath(Stderr) in s.files
    && ArtifactPath(Structured) in s.files
  }

  // ---------------------------------------------------------------------
  // Log retrieval

  /** `get_logs`: the stored `log.json` when it exists, else the live
      structured logs of a resolved container, else None. */
  function GetLogs(s: Snapshot, rt: Runtime): Outcome<Option<Value>> {
    if AllJsonLogPath in s.files then
      match s.files[AllJsonLogPath]
      case Document(v) => Ok(Some(v))
      case Bytes(_) => Raised(Undecodable(AllJsonLogPath))
    else
      match ResolveContainer(s.metadata, rt)
      case Raised(f) => Raised(f)
      case Ok(None) => Ok(None)
      case Ok(Some(c)) =>
        match c.structured
        case Answer(v) => Ok(Some(v))
        case ApiError => Raised(RuntimeError(Structured))
  }

  // ---------------------------------------------------------------------
  // The execution record, updated in place

  class Execution {
    var metadata: Metadata
    var files: Files

    /** A new record holding its creation metadata and no artifacts. */
    constructor (initial: Metadata)
      ensures metadata == initial && files == map[]
    {
      metadata := initial;
      files := map[];
    }

    /** This record's metadata and artifacts. */
    function Snap(): Snapshot
      reads this
    {
      Snapshot(metadata, files)
    }

    /** `update_metadata`: a shallow merge, keys of `partial` overwrite. */
    method UpdateMetadata(partial: Metadata)
      modifies this`metadata
      ensures metadata == old(metadata) + partial
    {
      metadata := metadata + partial;
    }

    /** `check_container_status`, except that the structured log is fetched
        before `log.json` is created (`CheckFetchFirst`; the source's order
        is `Check`). `calls` records the runtime calls made. */
    method CheckContainerStatus(rt: Runtime) returns (result: Outcome<()>, ghost calls: seq<Call>)
      modifies this
      ensures Snap() == CheckFetchFirst(old(Snap()), rt).after
      ensures result == CheckFetchFirst(old(Snap()), rt).result
      ensures calls == CheckFetchFirst(old(Snap()), rt).calls
    {
      var id := Get(metadata, ContainerIdKey);
      var container := ResolveContainer(metadata, rt);
      calls := if Truthy(id) then [GetContainer(id)] else [];
      if container.Raised? {
        result := Raised(container.fault);
        return;
      }
      if container.value.None? {
        result := Ok(());
        return;
      }
      var c := container.value.value;
      var state := c.state;
      if IsTerminal(state) {
        if Get(metadata, FinalStateKey) == Null {
          UpdateMetadata(map[ExitCodeKey := Get(state, "ExitCode"), FinalStateKey := Object(state)]);
        }
        var stdoutPath := LogPath("stdout");
        if stdoutPath !in files {
          calls := calls + [FetchLogs(Stdout)];
          match c.stdout
          case ApiError =>
            result := Raised(RuntimeError(Stdout));
            return;
          case Answer(bytes) =>
            files := files[stdoutPath := Bytes(bytes)];
        }
        var stderrPath := LogPath("stderr");
        if stderrPath !in files {
          calls := calls + [FetchLogs(Stderr)];
          match c.stderr
          case ApiError =>
            result := Raised(RuntimeError(Stderr));
            return;
          case Answer(bytes) =>
            files := files[stderrPath := Bytes(bytes)];
        }
        var jsonPath := AllJsonLogPath;
        if jsonPath !in files {
          calls := calls + [FetchLogs(Structured)];
          match c.structured
          case ApiError =>
            result := Raised(RuntimeError(Structured));
            return;
          case Answer(doc) =>
            files := files[jsonPath := Document(doc)];
        }
      }
      result := Ok(());
    }
  }
}
