/** Concrete runs of the lifecycle: a new execution, a running container,
    a clean exit, an abnormal exit and an out-of-memory kill. */
module LifecycleScenarios {
  import opened PyJson
  import opened Docker
  import opened Lifecycle
  import LifecycleProperties

  /** Creation metadata of an execution that has no container yet. */
  const Created: Metadata := map["image" := Str("alpine:3"), "step" := Str("train"), "title" := Str("")]

  /** The same execution once a container has been started for it. */
  const Started: Metadata := Created[ContainerIdKey := Str("c1")]

  /** A container that has exited with `exitCode`; all its log calls answer. */
  function ExitedContainer(exitCode: int, error: string): Container {
    Container(
      map["Status" := Str("exited"), "ExitCode" := Int(exitCode), "Error" := Str(error)],
      Answer([104, 105]),
      Answer([]),
      Answer(Array([Str("hi")])))
  }

  /** A new execution is `queued`, has no logs, and starts from metadata in
      which the status can never raise, however often it is polled. */
  lemma NewExecutionIsQueued(rt: Runtime)
    ensures FinalStateWellFormed(Created)
    ensures StatusOf(Created) == Ok(Queued) && StatusOf(Created).value.Name() == "queued"
    ensures GetLogs(Snapshot(Created, map[]), rt) == Ok(None)
  {
  }

  /** A container id without an exit state reads as `running`. */
  lemma StartedExecutionIsRunning()
    ensures StatusOf(Started) == Ok(Running) && StatusOf(Started).value.Name() == "running"
  {
  }

  /** `Error: "OOMKilled"` in the final state is `error` even with exit code 0. */
  lemma OutOfMemoryIsError()
    ensures StatusOf(Started + map[
      ExitCodeKey := Int(0),
      FinalStateKey := Object(map["Status" := Str("exited"), "ExitCode" := Int(0), "Error" := Str("OOMKilled")])])
      == Ok(Error)
  {
    var m := Started + map[
      ExitCodeKey := Int(0),
      FinalStateKey := Object(map["Status" := Str("exited"), "ExitCode" := Int(0), "Error" := Str("OOMKilled")])];
    assert Get(m, FinalStateKey).fields["Error"] == Str("OOMKilled");
    LifecycleProperties.FinalStateErrorWins(m);
  }

  /** One check of a container that exited with `exitCode` captures all three
      artifacts; the status is `complete` for 0 and `error` otherwise. */
  method CheckExited(exitCode: int) returns (status: Outcome<Status>, captured: bool, logs: Outcome<Option<Value>>)
    ensures status == (if exitCode == 0 then Ok(Complete) else Ok(Error))
    ensures status.value.Name() == (if exitCode == 0 then "complete" else "error")
    ensures captured
    ensures logs == Ok(Some(Array([Str("hi")])))
  {
    var e := new Execution(Started);
    var rt: Runtime := map[Str("c1") := ExitedContainer(exitCode, "")];
    LifecycleProperties.CheckCapturesAll(e.Snap(), rt, false);
    LifecycleProperties.StatusAfterFirstCapture(e.Snap(), rt, false);
    var result;
    ghost var calls;
    result, calls := e.CheckContainerStatus(rt);
    status := StatusOf(e.metadata);
    captured := Captured(e.Snap());
    logs := GetLogs(e.Snap(), map[]);
  }
}
