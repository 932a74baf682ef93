/** The container runtime as this core sees it: a snapshot of the containers
    it knows, each with its `State` object and the replies its log calls give. */
module Docker {
  import opened PyJson

  type Byte = b: int | 0 <= b < 256

  /** What one call into the runtime client returns: a value, or an API error. */
  datatype Reply<T> = Answer(value: T) | ApiError

  /** A container handle: `attrs["State"]`, and the replies of
      `logs(stdout=True, stderr=False, timestamps=True)`,
      `logs(stdout=False, stderr=True, timestamps=True)` and
      `get_container_logs(container)`. */
  datatype Container = Container(
    state: map<string, Value>,
    stdout: Reply<seq<Byte>>,
    stderr: Reply<seq<Byte>>,
    structured: Reply<Value>)

  /** The containers the runtime resolves, keyed by container id. */
  type Runtime = map<Value, Container>

  /** The three log streams captured for a terminal container. */
  datatype Stream = Stdout | Stderr | Structured

  /** A call made into the runtime client. */
  datatype Call = GetContainer(id: Value) | FetchLogs(stream: Stream)
}
