/** What the lifecycle promises: the status precedence, set-once metadata,
    existence-guarded artifact capture, idempotence and convergence of the
    check, and the precedence of log retrieval. */
module LifecycleProperties {
  import opened PyJson
  import opened Docker
  import opened Lifecycle

  // ---------------------------------------------------------------------
  // Artifact paths

  /** The three artifact files are distinct, so their guards are independent:
      no `<name>.log` is `log.json`, and different names give different files. */
  lemma ArtifactPathsDistinct(a: string, b: string)
    ensures LogPath(a) != AllJsonLogPath
    ensures LogPath(a) == LogPath(b) ==> a == b
    ensures ArtifactPath(Stdout) != ArtifactPath(Stderr)
    ensures ArtifactPath(Stdout) != ArtifactPath(Structured)
    ensures ArtifactPath(Stderr) != ArtifactPath(Structured)
  {
    if |a| == 4 {
      assert LogPath(a)[4] == '.' && AllJsonLogPath[4] == 'j';
    }
    if LogPath(a) == LogPath(b) {
      assert |a| == |b|;
      assert a == LogPath(a)[..|a|];
      assert b == LogPath(b)[..|b|];
    }
    assert LogPath("stdout")[3] != LogPath("stderr")[3];
  }

  // ---------------------------------------------------------------------
  // Status derivation

  /** An error in the final state makes the status `error`, whatever the exit code. */
  lemma FinalStateErrorWins(m: Metadata)
    requires Get(m, FinalStateKey).Object?
    requires Truthy(Get(Get(m, FinalStateKey).fields, "Error"))
    ensures StatusOf(m) == Ok(Error)
  {
  }

  /** Without such an error, a recorded exit code decides: 0 is `complete`,
      anything else `error`. */
  lemma ExitCodeDecides(m: Metadata)
    requires !Truthy(Get(m, FinalStateKey)) || Get(m, FinalStateKey).Object?
    requires !Truthy(Get(m, FinalStateKey)) || !Truthy(Get(Get(m, FinalStateKey).fields, "Error"))
    requires Get(m, ExitCodeKey) != Null
    ensures StatusOf(m) == Ok(Complete) <==> EqualsZero(Get(m, ExitCodeKey))
    ensures StatusOf(m) == Ok(Error) <==> !EqualsZero(Get(m, ExitCodeKey))
  {
  }

  /** Without an error and an exit code, a truthy container id is `running`,
      an absent or falsy one `queued`. */
  lemma ContainerIdDecides(m: Metadata)
    requires !Truthy(Get(m, FinalStateKey)) || Get(m, FinalStateKey).Object?
    requires !Truthy(Get(m, FinalStateKey)) || !Truthy(Get(Get(m, FinalStateKey).fields, "Error"))
    requires Get(m, ExitCodeKey) == Null
    ensures StatusOf(m) == Ok(Running) <==> Truthy(Get(m, ContainerIdKey))
    ensures StatusOf(m) == Ok(Queued) <==> !Truthy(Get(m, ContainerIdKey))
  {
  }

  /** Reading the status raises exactly when the final state is truthy but
      not a dict. */
  lemma StatusRaisesIff(m: Metadata)
    ensures StatusOf(m).Raised? <==> Truthy(Get(m, FinalStateKey)) && !Get(m, FinalStateKey).Object?
  {
  }

  /** The status is terminal (`complete` or `error`) exactly when the final
      state carries an error or an exit code is recorded. */
  lemma StatusTerminalIff(m: Metadata)
    requires StatusOf(m).Ok?
    ensures StatusOf(m).value in {Complete, Error} <==>
      (Truthy(Get(m, FinalStateKey)) && Truthy(Get(Get(m, FinalStateKey).fields, "Error")))
      || Get(m, ExitCodeKey) != Null
  {
  }

  // ---------------------------------------------------------------------
  // Container resolution

  /** There is no container exactly when `container_id` is missing or falsy. */
  lemma NoContainerIff(m: Metadata, rt: Runtime)
    ensures ResolveContainer(m, rt) == Ok(None) <==> !Truthy(Get(m, ContainerIdKey))
    ensures ResolveContainer(m, rt).Raised? <==> Truthy(Get(m, ContainerIdKey)) && Get(m, ContainerIdKey) !in rt
  {
  }

  /** Without a container the check changes nothing and calls nothing. */
  lemma CheckWithoutContainerIsNoop(s: Snapshot, rt: Runtime, openBeforeFetch: bool)
    requires !Truthy(Get(s.metadata, ContainerIdKey))
    ensures CheckWith(s, rt, openBeforeFetch) == Step(s, Ok(()), [])
  {
  }

  /** An id the runtime does not know raises `NotFound` and changes nothing. */
  lemma CheckUnknownContainerRaises(s: Snapshot, rt: Runtime, openBeforeFetch: bool)
    requires Truthy(Get(s.metadata, ContainerIdKey)) && Get(s.metadata, ContainerIdKey) !in rt
    ensures CheckWith(s, rt, openBeforeFetch).after == s
    ensures CheckWith(s, rt, openBeforeFetch).result == Raised(NotFound(Get(s.metadata, ContainerIdKey)))
  {
  }

  /** A container that is neither `exited` nor `dead` leaves everything unchanged. */
  lemma CheckNonTerminalIsNoop(s: Snapshot, rt: Runtime, openBeforeFetch: bool)
    requires ResolveContainer(s.metadata, rt).Ok?
    requires ResolveContainer(s.metadata, rt).value.Some?
    requires !IsTerminal(ResolveContainer(s.metadata, rt).value.value.state)
    ensures CheckWith(s, rt, openBeforeFetch).after == s && CheckWith(s, rt, openBeforeFetch).result == Ok(())
  {
  }

  // ---------------------------------------------------------------------
  // Set-once metadata

  /** Once `container_final_state` is set, the check never changes the metadata. */
  lemma CheckSetOnce(s: Snapshot, rt: Runtime, openBeforeFetch: bool)
    requires Get(s.metadata, FinalStateKey) != Null
    ensures CheckWith(s, rt, openBeforeFetch).after.metadata == s.metadata
  {
  }

  /** The first terminal observation records the exit code and the whole state. */
  lemma CheckRecordsFirstTerminalState(s: Snapshot, rt: Runtime, openBeforeFetch: bool)
    requires Get(s.metadata, FinalStateKey) == Null
    requires ResolveContainer(s.metadata, rt).Ok?
    requires ResolveContainer(s.metadata, rt).value.Some?
    requires IsTerminal(ResolveContainer(s.metadata, rt).value.value.state)
    ensures var c := ResolveContainer(s.metadata, rt).value.value;
      && Get(CheckWith(s, rt, openBeforeFetch).after.metadata, FinalStateKey) == Object(c.state)
      && Get(CheckWith(s, rt, openBeforeFetch).after.metadata, ExitCodeKey) == Get(c.state, "ExitCode")
  {
  }

  /** No metadata key other than the exit code and the final state is written. */
  lemma CheckWritesOnlyTerminalKeys(s: Snapshot, rt: Runtime, openBeforeFetch: bool)
    ensures CheckWith(s, rt, openBeforeFetch).after.metadata - {ExitCodeKey, FinalStateKey} == s.metadata - {ExitCodeKey, FinalStateKey}
    ensures CheckWith(s, rt, openBeforeFetch).after.metadata.Keys <= s.metadata.Keys + {ExitCodeKey, FinalStateKey}
  {
  }

  /** After the first capture the status follows the container's state: an
      error in it wins, then its exit code, and a missing exit code (with a
      truthy container id) still reads as `running`. */
  lemma StatusAfterFirstCapture(s: Snapshot, rt: Runtime, openBeforeFetch: bool)
    requires Get(s.metadata, FinalStateKey) == Null
    requires ResolveContainer(s.metadata, rt).Ok?
    requires ResolveContainer(s.metadata, rt).value.Some?
    requires IsTerminal(ResolveContainer(s.metadata, rt).value.value.state)
    ensures var st := ResolveContainer(s.metadata, rt).value.value.state;
      var exitCode := Get(st, "ExitCode");
      StatusOf(CheckWith(s, rt, openBeforeFetch).after.metadata) ==
        Ok(if Truthy(Get(st, "Error")) then Error
           else if exitCode == Null then Running
           else if EqualsZero(exitCode) then Complete
           else Error)
  {
  }

  /** Once the final state is recorded, no check changes the status. */
  lemma StatusStableOnceRecorded(s: Snapshot, rt: Runtime, openBeforeFetch: bool)
    requires Get(s.metadata, FinalStateKey) != Null
    ensures StatusOf(CheckWith(s, rt, openBeforeFetch).after.metadata) == StatusOf(s.metadata)
  {
  }

  /** The check only ever records a dict as the final state, so from metadata
      without a non-dict final state, reading the status never raises. */
  lemma CheckKeepsFinalStateDict(s: Snapshot, rt: Runtime, openBeforeFetch: bool)
    requires FinalStateWellFormed(s.metadata)
    ensures FinalStateWellFormed(CheckWith(s, rt, openBeforeFetch).after.metadata)
    ensures StatusOf(CheckWith(s, rt, openBeforeFetch).after.metadata).Ok?
  {
  }

  /** Over any sequence of polls the status stays readable: it is always one
      of the four statuses. */
  lemma {:induction false} PollsNeverRaiseStatus(s: Snapshot, rts: seq<Runtime>, openBeforeFetch: bool)
    requires FinalStateWellFormed(s.metadata)
    ensures FinalStateWellFormed(Polls(s, rts, openBeforeFetch).metadata)
    ensures StatusOf(Polls(s, rts, openBeforeFetch).metadata).Ok?
    decreases |rts|
  {
    if rts != [] {
      CheckKeepsFinalStateDict(s, rts[0], openBeforeFetch);
      PollsNeverRaiseStatus(CheckWith(s, rts[0], openBeforeFetch).after, rts[1..], openBeforeFetch);
    }
  }

  // ---------------------------------------------------------------------
  // Existence-guarded artifacts

  /** One artifact write keeps every existing file, adds only its own file,
      and fetches only when that file is missing. */
  lemma WriteArtifactGuarded(p: Progress, c: Container, stream: Stream, openBeforeFetch: bool)
    ensures var q := WriteArtifact(p, c, stream, openBeforeFetch);
      && (forall name :: name in p.files ==> name in q.files && q.files[name] == p.files[name])
      && q.files.Keys <= p.files.Keys + {ArtifactPath(stream)}
      && (q.calls == p.calls || (ArtifactPath(stream) !in p.files && q.calls == p.calls + [FetchLogs(stream)]))
      && (p.fault.Some? ==> q == p)
  {
  }

  /** The check keeps the content of every artifact that already existed,
      writes only the three artifact files, and never fetches the content
      of an artifact that exists. */
  lemma CheckKeepsExistingArtifacts(s: Snapshot, rt: Runtime, openBeforeFetch: bool)
    ensures var c := CheckWith(s, rt, openBeforeFetch);
      && (forall name :: name in s.files ==> name in c.after.files && c.after.files[name] == s.files[name])
      && c.after.files.Keys <= s.files.Keys + {ArtifactPath(Stdout), ArtifactPath(Stderr), ArtifactPath(Structured)}
      && (forall stream :: FetchLogs(stream) in c.calls ==> ArtifactPath(stream) !in s.files)
  {
  }

  /** One check on a terminal container completes the capture from any
      partial state, provided the log calls for the missing artifacts answer
      (the calls for existing ones are never made): every missing artifact is
      written with the runtime's content and the call returns normally. */
  lemma CheckCapturesAll(s: Snapshot, rt: Runtime, openBeforeFetch: bool)
    requires ResolveContainer(s.metadata, rt).Ok?
    requires ResolveContainer(s.metadata, rt).value.Some?
    requires var c := ResolveContainer(s.metadata, rt).value.value;
      && IsTerminal(c.state)
      && forall stream :: ArtifactPath(stream) !in s.files ==> Fetch(c, stream).Answer?
    ensures Captured(CheckWith(s, rt, openBeforeFetch).after)
    ensures CheckWith(s, rt, openBeforeFetch).result == Ok(())
    ensures var c := ResolveContainer(s.metadata, rt).value.value;
      forall stream :: ArtifactPath(stream) !in s.files ==>
        CheckWith(s, rt, openBeforeFetch).after.files[ArtifactPath(stream)] == Fetch(c, stream).value
  {
    var c := ResolveContainer(s.metadata, rt).value.value;
    assert "Status" in c.state;
    ArtifactPathsDistinct("stdout", "stderr");
    if ArtifactPath(Stdout) !in s.files { assert Fetch(c, Stdout).Answer?; }
    if ArtifactPath(Stderr) !in s.files { assert Fetch(c, Stderr).Answer?; }
    if ArtifactPath(Structured) !in s.files { assert Fetch(c, Structured).Answer?; }
  }

  /** A failed log call leaves the artifact it was fetching missing, so a
      later check can still write it. This holds in both orders for the
      `*.log` files; for `log.json` only when the content is fetched before
      the file is created (the source's order leaves an empty file, see
      `JsonLogAsWrittenNeverRecovers`). */
  lemma CheckFailureLeavesArtifactMissing(s: Snapshot, rt: Runtime, stream: Stream, openBeforeFetch: bool)
    requires CheckWith(s, rt, openBeforeFetch).result == Raised(RuntimeError(stream))
    requires !openBeforeFetch || stream != Structured
    ensures ArtifactPath(stream) !in CheckWith(s, rt, openBeforeFetch).after.files
  {
  }

  /** A captured execution is a fixed point: whatever the runtime reports,
      the check changes neither the metadata nor the artifacts. */
  lemma CapturedIsFixedPoint(s: Snapshot, rt: Runtime, openBeforeFetch: bool)
    requires Captured(s)
    ensures CheckWith(s, rt, openBeforeFetch).after == s
  {
  }

  /** Checking twice against the same runtime gives the state of checking once. */
  lemma CheckIdempotent(s: Snapshot, rt: Runtime, openBeforeFetch: bool)
    ensures CheckWith(CheckWith(s, rt, openBeforeFetch).after, rt, openBeforeFetch).after == CheckWith(s, rt, openBeforeFetch).after
  {
  }

  /** Once captured, any number of further polls changes nothing. */
  lemma {:induction false} PollsAfterCaptureChangeNothing(s: Snapshot, rts: seq<Runtime>, openBeforeFetch: bool)
    requires Captured(s)
    ensures Polls(s, rts, openBeforeFetch) == s
    decreases |rts|
  {
    if rts != [] {
      CapturedIsFixedPoint(s, rts[0], openBeforeFetch);
      PollsAfterCaptureChangeNothing(s, rts[1..], openBeforeFetch);
    }
  }

  /** Once the final state is recorded, no sequence of polls changes the
      metadata, whatever the runtime reports along the way. */
  lemma {:induction false} PollsSetOnce(s: Snapshot, rts: seq<Runtime>, openBeforeFetch: bool)
    requires Get(s.metadata, FinalStateKey) != Null
    ensures Polls(s, rts, openBeforeFetch).metadata == s.metadata
    decreases |rts|
  {
    if rts != [] {
      var s1 := CheckWith(s, rts[0], openBeforeFetch).after;
      CheckSetOnce(s, rts[0], openBeforeFetch);
      assert s1.metadata == s.metadata;
      PollsSetOnce(s1, rts[1..], openBeforeFetch);
    }
  }

  /** Polls keep every artifact that existed, with its content. */
  lemma {:induction false} PollsKeepArtifacts(s: Snapshot, rts: seq<Runtime>, openBeforeFetch: bool)
    ensures forall name :: name in s.files ==> name in Polls(s, rts, openBeforeFetch).files && Polls(s, rts, openBeforeFetch).files[name] == s.files[name]
    decreases |rts|
  {
    if rts != [] {
      CheckKeepsExistingArtifacts(s, rts[0], openBeforeFetch);
      PollsKeepArtifacts(CheckWith(s, rts[0], openBeforeFetch).after, rts[1..], openBeforeFetch);
    }
  }

  // ---------------------------------------------------------------------
  // Log retrieval

  /** A stored `log.json` document is returned, whatever the runtime reports. */
  lemma GetLogsPrefersStoredLog(s: Snapshot, rt: Runtime)
    requires AllJsonLogPath in s.files && s.files[AllJsonLogPath].Document?
    ensures GetLogs(s, rt) == Ok(Some(s.files[AllJsonLogPath].doc))
  {
  }

  /** Without `log.json`, the live structured logs of a resolved container are returned. */
  lemma GetLogsFallsBackToLive(s: Snapshot, rt: Runtime)
    requires AllJsonLogPath !in s.files
    requires ResolveContainer(s.metadata, rt).Ok?
    requires ResolveContainer(s.metadata, rt).value.Some?
    requires ResolveContainer(s.metadata, rt).value.value.structured.Answer?
    ensures GetLogs(s, rt) == Ok(Some(ResolveContainer(s.metadata, rt).value.value.structured.value))
  {
  }

  /** Without `log.json` and without a container there are no logs, and that is not an error. */
  lemma GetLogsNoneWithoutContainer(s: Snapshot, rt: Runtime)
    requires AllJsonLogPath !in s.files
    ensures GetLogs(s, rt) == Ok(None) <==> !Truthy(Get(s.metadata, ContainerIdKey))
  {
  }

  /** Without `log.json`, a truthy container id the runtime does not know is
      a lookup failure, not "no logs". */
  lemma GetLogsUnknownContainerRaises(s: Snapshot, rt: Runtime)
    requires AllJsonLogPath !in s.files
    requires Truthy(Get(s.metadata, ContainerIdKey)) && Get(s.metadata, ContainerIdKey) !in rt
    ensures GetLogs(s, rt) == Raised(NotFound(Get(s.metadata, ContainerIdKey)))
  {
  }

  /** After a complete capture the logs are the captured ones, whatever the
      runtime reports later; a first capture stores exactly the live logs.
      Only the calls for the missing artifacts need to answer. */
  lemma GetLogsAfterCapture(s: Snapshot, rt: Runtime, later: Runtime, openBeforeFetch: bool)
    requires AllJsonLogPath !in s.files
    requires ResolveContainer(s.metadata, rt).Ok?
    requires ResolveContainer(s.metadata, rt).value.Some?
    requires var c := ResolveContainer(s.metadata, rt).value.value;
      && IsTerminal(c.state)
      && forall stream :: ArtifactPath(stream) !in s.files ==> Fetch(c, stream).Answer?
    ensures GetLogs(CheckWith(s, rt, openBeforeFetch).after, later) == GetLogs(s, rt)
  {
    CheckCapturesAll(s, rt, openBeforeFetch);
  }

  // ---------------------------------------------------------------------
  // The order of opening `log.json` and fetching its content

  /** As written, a failed structured-log call leaves an empty `log.json`;
      the existence guard then skips it on every later poll, whatever the
      runtime answers, and reading the logs fails. */
  lemma JsonLogAsWrittenNeverRecovers(s: Snapshot, rt: Runtime, later: seq<Runtime>, any: Runtime)
    requires AllJsonLogPath !in s.files
    requires ResolveContainer(s.metadata, rt).Ok?
    requires ResolveContainer(s.metadata, rt).value.Some?
    requires var c := ResolveContainer(s.metadata, rt).value.value;
      IsTerminal(c.state) && c.stdout.Answer? && c.stderr.Answer? && c.structured.ApiError?
    ensures var s1 := Check(s, rt).after;
      && Check(s, rt).result == Raised(RuntimeError(Structured))
      && s1.files[AllJsonLogPath] == Bytes([])
      && AllJsonLogPath in Polls(s1, later, true).files
      && Polls(s1, later, true).files[AllJsonLogPath] == Bytes([])
      && GetLogs(Polls(s1, later, true), any) == Raised(Undecodable(AllJsonLogPath))
  {
    PollsKeepArtifacts(Check(s, rt).after, later, true);
  }

  /** With the content fetched first and no `log.json` to begin with, a check
      that failed on any log call is repaired by the next check whose calls
      for the still missing artifacts answer: the capture completes and the
      logs read back as the runtime's structured logs. (From any state at all,
      `CheckCapturesAll` already gives the `Captured` half.) */
  lemma FailedCaptureRecovers(s: Snapshot, rt: Runtime, later: Runtime, any: Runtime)
    requires AllJsonLogPath !in s.files
    requires CheckFetchFirst(s, rt).result.Raised?
    requires ResolveContainer(s.metadata, later).Ok?
    requires ResolveContainer(s.metadata, later).value.Some?
    requires var c := ResolveContainer(s.metadata, later).value.value;
      && IsTerminal(c.state)
      && forall stream :: ArtifactPath(stream) !in CheckFetchFirst(s, rt).after.files ==> Fetch(c, stream).Answer?
    ensures var s2 := CheckFetchFirst(CheckFetchFirst(s, rt).after, later).after;
      && Captured(s2)
      && GetLogs(s2, any) == Ok(Some(ResolveContainer(s.metadata, later).value.value.structured.value))
  {
    var s1 := CheckFetchFirst(s, rt).after;
    ArtifactPathsDistinct("stdout", "stderr");
    CheckWritesOnlyTerminalKeys(s, rt, false);
    assert Get(s1.metadata, ContainerIdKey) == Get(s.metadata, ContainerIdKey);
    assert ResolveContainer(s1.metadata, later) == ResolveContainer(s.metadata, later);
    if AllJsonLogPath in s1.files {
      // the structured log was written by the first check, which then cannot have raised
      assert false;
    }
    CheckCapturesAll(s1, later, false);
  }
}
