/** Results and durable records of the governed dispatcher: the record transitions, the projection of a terminal
    result into a record, and the replay that reads it back. */
module DispatchRecords {
  import opened RuntimeContract
  import opened Governance

  datatype SelectedExecutor = NoExecutor | Host | Sandbox

  datatype DispatchEvidence = NeverDispatched | MaybeDispatched | Finished

  datatype TimeoutState = NoTimeout | PossibleTimeout | ConfirmedTimeout | UnknownTimeout

  datatype CleanupState = NotNeeded | ConfirmedAbsent | PendingReconciliation

  datatype ExecutionOutcome =
    | NotExecuted
    | Completed(result: ExecCompleted)
    | Indeterminate(stdoutBytes: nat, stderrBytes: nat)

  datatype ErrorPhase =
    | ValidationPhase | GovernancePhase | DispatchPersistence | HostDispatch | SandboxCreate | SandboxReadiness
    | SandboxAttestation | SandboxDispatch | SandboxExecution | SandboxTransport | SandboxCleanup
    | SandboxReconciliation

  datatype ErrorCode =
    | InvalidCommand | CommandTooLarge | DigestMismatch | GovernanceUnavailable | GovernanceRejected | PersistenceFailed
    | ReplayIndeterminate | HostFailed | SandboxCreateFailed | SandboxReadinessFailed | SandboxAttestationFailed
    | SandboxExecutionFailed | SandboxTransportFailed | CleanupPending

  datatype GovernedError = GovernedError(code: ErrorCode, phase: ErrorPhase)

  datatype CommandResult = CommandResult(dispatchId: DispatchId, governance: GovernanceOutcome,
                                         executor: SelectedExecutor,
                                         dispatch: DispatchEvidence, execution: ExecutionOutcome, timeout: TimeoutState,
                                         cleanup: CleanupState, error: Option<GovernedError>)

  datatype RecordStage =
    | GovernancePending | HostDispatchPossible | SandboxCreatePossible | SandboxReady | SandboxDispatchPossible
    | Terminal

  datatype Completion = Completion(exitCode: nat, stdoutBytes: nat, stderrBytes: nat)

  /** `cleanupId` names the sandbox; `digest` is the canonical encoding, standing for its ideal hash. */
  datatype DispatchRecord = DispatchRecord(dispatchId: DispatchId, digest: Bytes, executor: SelectedExecutor,
                                           stage: RecordStage,
                                           governance: Option<GovernanceOutcome>, dispatch: DispatchEvidence,
                                           timeout: TimeoutState, cleanupId: Option<nat>, cleanup: CleanupState,
                                           completion: Option<Completion>, stdoutObserved: nat, stderrObserved: nat,
                                           error: Option<GovernedError>)
  {
    function SelectHost(g: GovernanceOutcome): DispatchRecord {
      this.(governance := Some(g), executor := Host, stage := HostDispatchPossible, dispatch := MaybeDispatched)
    }

    function SelectSandbox(g: GovernanceOutcome, id: nat): DispatchRecord {
      this.(governance := Some(g), executor := Sandbox, stage := SandboxCreatePossible,
            cleanupId := Some(id), cleanup := PendingReconciliation)
    }

    function ReadyForDispatch(): DispatchRecord {
      this.(stage := SandboxReady)
    }

    function DispatchPossible(): DispatchRecord {
      this.(stage := SandboxDispatchPossible, dispatch := MaybeDispatched)
    }

    function CleanupConfirmed(): DispatchRecord {
      this.(cleanup := ConfirmedAbsent)
    }

    /** `terminal`: keeps lengths, never bodies. */
    function Close(r: CommandResult): DispatchRecord {
      this.(stage := Terminal, governance := Some(r.governance), executor := r.executor, dispatch := r.dispatch,
            timeout := r.timeout, cleanup := r.cleanup, error := r.error,
            completion := if r.execution.Completed?
                          then Some(Completion(r.execution.result.exitCode, ToU64(|r.execution.result.stdout|),
                                               ToU64(|r.execution.result.stderr|)))
                          else None,
            stdoutObserved := if r.execution.Indeterminate? then r.execution.stdoutBytes else 0,
            stderrObserved := if r.execution.Indeterminate? then r.execution.stderrBytes else 0)
    }

    /** `replay_result`. */
    function Replay(): CommandResult {
      var g := if governance.Some? then governance.value else Unavailable;
      if stage != Terminal then
        CommandResult(dispatchId, g, executor, dispatch,
                      if dispatch == MaybeDispatched then Indeterminate(0, 0) else NotExecuted,
                      if dispatch == MaybeDispatched then UnknownTimeout else NoTimeout,
                      cleanup, Some(GovernedError(ReplayIndeterminate, DispatchPersistence)))
      else
        var execution :=
          if completion.Some? then
            Completed(ExecCompleted(completion.value.exitCode, [], [],
                                    match timeout
                                    case ConfirmedTimeout => Confirmed
                                    case PossibleTimeout => Possible
                                    case _ => NotObserved,
                                    NO_EVIDENCE))
          else if dispatch == MaybeDispatched then Indeterminate(stdoutObserved, stderrObserved)
          else NotExecuted;
        CommandResult(dispatchId, g, executor, dispatch, execution, timeout, cleanup, error)
    }

    /** `validate`, without the schema version, which is constant here. */
    predicate Validates() {
      && (executor != Sandbox ==> cleanupId.None?)
      && (stage == Terminal && dispatch == Finished ==> completion.Some?)
      && (completion.Some? ==> dispatch == Finished)
    }
  }

  function NewRecord(id: DispatchId, digest: Bytes): DispatchRecord {
    DispatchRecord(id, digest, NoExecutor, GovernancePending, None, NeverDispatched, NoTimeout, None, NotNeeded, None,
                   0, 0, None)
  }

  function TimeoutOf(t: ObservedTimeout): TimeoutState {
    match t case NotObserved => NoTimeout case Possible => PossibleTimeout case Confirmed => ConfirmedTimeout
  }

  /** A failure's timeout is named like the observation it shares its name with. */
  function FailureTimeoutOf(t: FailureTimeout): (r: TimeoutState)
    ensures t.TimeoutNotObserved? ==> r == TimeoutOf(NotObserved)
    ensures t.TimeoutPossible? ==> r == TimeoutOf(Possible)
    ensures t.TimeoutConfirmed? ==> r == TimeoutOf(Confirmed)
    ensures t.TimeoutUnknown? <==> r == UnknownTimeout
  {
    match t
    case TimeoutNotObserved => NoTimeout
    case TimeoutPossible => PossibleTimeout
    case TimeoutConfirmed => ConfirmedTimeout
    case TimeoutUnknown => UnknownTimeout
  }

  /** The results that are handed to `finish`: each evidence field tells the same story as the others. */
  predicate WellFormed(r: CommandResult) {
    && (r.dispatch == Finished <==> r.execution.Completed?)
    && (r.dispatch == MaybeDispatched <==> r.execution.Indeterminate?)
    && (r.execution.Completed? ==> r.timeout == TimeoutOf(r.execution.result.timeout))
    && (r.dispatch == NeverDispatched ==> r.timeout == NoTimeout)
    && (r.executor != Sandbox ==> r.cleanup == NotNeeded)
    && (r.executor == NoExecutor ==> r.dispatch == NeverDispatched)
  }

  /** A result with its output bodies and isolation evidence erased. */
  function Erase(r: CommandResult): CommandResult {
    if r.execution.Completed? then
      r.(execution :=
         Completed(ExecCompleted(r.execution.result.exitCode, [], [], r.execution.result.timeout, NO_EVIDENCE)))
    else r
  }

  /** Replaying a closed record gives the result back with only bodies and evidence erased, and the closed record
      passes `validate` exactly when the sandbox it may name belongs to a sandbox result. */
  lemma ReplayInvertsClose(record: DispatchRecord, r: CommandResult)
    requires WellFormed(r) && r.dispatchId == record.dispatchId
    ensures record.Close(r).Replay() == Erase(r)
    ensures record.Close(r).Validates() <==> (record.cleanupId.Some? ==> r.executor == Sandbox)
    ensures !r.execution.Indeterminate? ==> record.Close(r).stdoutObserved == 0 && record.Close(r).stderrObserved == 0
  {
  }

  /** A record that was never closed replays what it admits and no more: perhaps dispatched with nothing known of the
      run, or not dispatched. */
  lemma OpenRecordReplays(r: DispatchRecord)
    requires r.stage != Terminal && r.dispatch != Finished
    ensures var p := r.Replay();
            && p.dispatchId == r.dispatchId && p.executor == r.executor && p.cleanup == r.cleanup
            && p.dispatch == r.dispatch && (r.governance.Some? ==> p.governance == r.governance.value)
            && p.error == Some(GovernedError(ReplayIndeterminate, DispatchPersistence))
            && (p.dispatch == MaybeDispatched ==> p.execution == Indeterminate(0, 0) && p.timeout == UnknownTimeout)
            && (p.dispatch == NeverDispatched ==> p.execution == NotExecuted && p.timeout == NoTimeout)
  {
  }

  /** A closed record validates exactly when its replay claims completion of a run it can show, and it names a sandbox
      only for the sandbox executor. */
  lemma ValidatesIff(r: DispatchRecord)
    requires r.stage == Terminal
    ensures r.Validates() <==>
            && (r.Replay().dispatch == Finished <==> r.Replay().execution.Completed?)
            && (r.cleanupId.Some? ==> r.executor == Sandbox)
  {
  }

  /** What a call interrupted after each of its writes is replayed as: before its verdict, as not dispatched anywhere;
      behind the host's fence, as perhaps dispatched there; behind the sandbox's, as not dispatched with a sandbox to
      clean up, until the last fence admits that it may have been; and without the sandbox once its absence is
      confirmed. */
  lemma InterruptedReplays(id: DispatchId, digest: Bytes, g: GovernanceOutcome, sandbox: nat)
    ensures var lost := Some(GovernedError(ReplayIndeterminate, DispatchPersistence));
            var r := NewRecord(id, digest);
            var fenced := r.SelectSandbox(g, sandbox);
            var waiting := CommandResult(id, g, Sandbox, NeverDispatched, NotExecuted, NoTimeout, PendingReconciliation,
                                         lost);
            var dispatched := CommandResult(id, g, Sandbox, MaybeDispatched, Indeterminate(0, 0), UnknownTimeout,
                                            PendingReconciliation, lost);
            && r.Replay() ==
               CommandResult(id, Unavailable, NoExecutor, NeverDispatched, NotExecuted, NoTimeout, NotNeeded, lost)
            && r.SelectHost(g).Replay() ==
               CommandResult(id, g, Host, MaybeDispatched, Indeterminate(0, 0), UnknownTimeout, NotNeeded, lost)
            && fenced.Replay() == waiting && fenced.ReadyForDispatch().Replay() == waiting
            && fenced.ReadyForDispatch().DispatchPossible().Replay() == dispatched
            && fenced.CleanupConfirmed().Replay() == waiting.(cleanup := ConfirmedAbsent)
            && fenced.cleanupId == Some(sandbox) && fenced.digest == digest
            && r.stdoutObserved == 0 && r.stderrObserved == 0
  {
  }

  function ValidationResult(id: DispatchId, code: ErrorCode): (r: CommandResult)
    ensures WellFormed(r) && r.dispatchId == id && r.executor == NoExecutor && r.governance == NotEvaluated
    ensures r.error == Some(GovernedError(code, ValidationPhase)) && r.cleanup == NotNeeded
  {
    CommandResult(id, NotEvaluated, NoExecutor, NeverDispatched, NotExecuted, NoTimeout, NotNeeded,
                  Some(GovernedError(code, ValidationPhase)))
  }

  /** A result in which nothing was dispatched. */
  function Undispatched(id: DispatchId, g: GovernanceOutcome, executor: SelectedExecutor, cleanup: CleanupState,
                        error: Option<GovernedError>): CommandResult
  {
    CommandResult(id, g, executor, NeverDispatched, NotExecuted, NoTimeout, cleanup, error)
  }

  /** `persistence_result`. */
  function PersistenceResult(id: DispatchId, executor: SelectedExecutor): (r: CommandResult)
    ensures r.dispatch == NeverDispatched && r.dispatchId == id && r.executor == executor && r.governance == Unavailable
    ensures r.error == Some(GovernedError(PersistenceFailed, DispatchPersistence))
    ensures r.cleanup == PendingReconciliation <==> executor == Sandbox
    ensures r.cleanup == NotNeeded <==> executor != Sandbox
  {
    Undispatched(id, Unavailable, executor, if executor == Sandbox then PendingReconciliation else NotNeeded,
                 Some(GovernedError(PersistenceFailed, DispatchPersistence)))
  }

  /** The exit code of `timeout(1)` without any evidence of a timeout. */
  predicate Ambiguous(c: ExecCompleted) {
    c.exitCode == 124 && c.timeout == NotObserved
  }

  /** `normalize_exit_124`: an ambiguous exit is rebuilt with possible timeout and without its isolation evidence;
      everything else is left alone. */
  function NormalizeExit124(c: ExecCompleted): (r: ExecCompleted)
    ensures r.exitCode == c.exitCode && r.stdout == c.stdout && r.stderr == c.stderr
    ensures r.exitCode == 124 ==> r.timeout != NotObserved
    ensures !Ambiguous(c) ==> r == c
    ensures Ambiguous(c) ==> r.timeout == Possible
  {
    if c.exitCode == 124 && c.timeout == NotObserved then ExecCompleted(124, c.stdout, c.stderr, Possible, NO_EVIDENCE)
    else c
  }

  /** Isolation evidence survives exactly when the exit is not ambiguous or there was none. */
  lemma EvidenceSurvivesIff(c: ExecCompleted)
    ensures NormalizeExit124(c).evidence == c.evidence <==> !Ambiguous(c) || c.evidence == NO_EVIDENCE
  {
  }

  function SetErrorIfNone(r: CommandResult, e: GovernedError): CommandResult {
    if r.error.None? then r.(error := Some(e)) else r
  }

  /** A completed result tells what the executor reported: exit code and output as they were, the timeout observed or
      possible, and the isolation evidence unless it was lost to an ambiguous exit. */
  predicate TellsCompletion(r: CommandResult, c: ExecCompleted) {
    && r.execution.Completed?
    && var x := r.execution.result;
      && x.exitCode == c.exitCode && x.stdout == c.stdout && x.stderr == c.stderr
      && r.timeout == TimeoutOf(x.timeout) && (if Ambiguous(c) then x.timeout == Possible else x.timeout == c.timeout)
      && (x.evidence == c.evidence <==> !Ambiguous(c) || c.evidence == NO_EVIDENCE)
  }

  /** The losing input, as it reaches the caller from either executor. */
  lemma EvidenceIsLost(id: DispatchId, g: GovernanceOutcome, cleanup: CleanupState)
    ensures var c := ExecCompleted(124, [], [], NotObserved, 1);
            && NormalizeExit124(c).evidence != c.evidence
            && HostResult(id, g, Success(c)).execution == Completed(ExecCompleted(124, [], [], Possible, NO_EVIDENCE))
            && SandboxResult(id, g, Success(c), cleanup).execution ==
                Completed(ExecCompleted(124, [], [], Possible, NO_EVIDENCE))
  {
  }

  /** `sandbox_result`. */
  function SandboxResult(id: DispatchId, g: GovernanceOutcome, attempt: Result<ExecCompleted, ExecFailure>,
                         cleanup: CleanupState):
    (r: CommandResult)
    requires attempt.Failure? ==> Coherent(attempt.error)
    ensures WellFormed(r) && r.dispatchId == id && r.executor == Sandbox && r.cleanup == cleanup && r.governance == g
    ensures r.dispatch == NeverDispatched <==> attempt.Failure? && attempt.error.dispatchState == NotDispatched
    ensures r.dispatch == Finished <==> attempt.Success?
    ensures r.error.None? <==> attempt.Success? && cleanup != PendingReconciliation
    ensures attempt.Success? && cleanup == PendingReconciliation ==>
              r.error == Some(GovernedError(CleanupPending, SandboxCleanup))
    ensures attempt.Failure? && attempt.error.code == Transport ==>
              r.error == Some(GovernedError(SandboxTransportFailed, SandboxTransport))
    ensures attempt.Failure? && attempt.error.code != Transport ==>
              r.error == Some(GovernedError(SandboxExecutionFailed, if attempt.error.dispatchState == NotDispatched
                                                                    then SandboxDispatch else SandboxExecution))
    ensures attempt.Success? ==> TellsCompletion(r, attempt.value)
    ensures attempt.Failure? && attempt.error.dispatchState == PossiblyDispatched ==>
              && r.execution == Indeterminate(attempt.error.counts.stdout, attempt.error.counts.stderr)
              && r.timeout == FailureTimeoutOf(attempt.error.timeoutState)
  {
    match attempt
    case Success(completed) =>
      var result := NormalizeExit124(completed);
      var governed :=
          CommandResult(id, g, Sandbox, Finished, Completed(result), TimeoutOf(result.timeout), cleanup, None);
      if cleanup == PendingReconciliation then SetErrorIfNone(governed, GovernedError(CleanupPending, SandboxCleanup))
      else governed
    case Failure(failure) =>
      var dispatch := if failure.dispatchState == NotDispatched then NeverDispatched else MaybeDispatched;
      var code := if failure.code == Transport then SandboxTransportFailed else SandboxExecutionFailed;
      var phase := if failure.code == Transport then SandboxTransport
                   else if dispatch == NeverDispatched then SandboxDispatch else SandboxExecution;
      CommandResult(id, g, Sandbox, dispatch,
                    if dispatch == NeverDispatched then NotExecuted
                    else Indeterminate(failure.counts.stdout, failure.counts.stderr),
                    FailureTimeoutOf(failure.timeoutState), cleanup, Some(GovernedError(code, phase)))
  }

  /** A host failure: evidence of a run only after possible dispatch, as its constructors enforce. */
  datatype HostFailureData = HostFailureData(dispatchState: DispatchState, timeout: FailureTimeout,
                                             counts: OutputByteCounts)

  predicate HostFailureOk(f: HostFailureData) {
    if f.dispatchState == NotDispatched then f.timeout == TimeoutNotObserved && f.counts == NoBytes
    else f.timeout != TimeoutNotObserved
  }

  /** `execute_host`, given the host's answer. */
  function HostResult(id: DispatchId, g: GovernanceOutcome, attempt: Result<ExecCompleted, HostFailureData>):
    (r: CommandResult)
    requires attempt.Failure? ==> HostFailureOk(attempt.error)
    ensures WellFormed(r) && r.dispatchId == id && r.executor == Host && r.cleanup == NotNeeded && r.governance == g
    ensures r.dispatch == NeverDispatched <==> attempt.Failure? && attempt.error.dispatchState == NotDispatched
    ensures r.dispatch == Finished <==> attempt.Success?
    ensures r.error == if attempt.Success? then None else Some(GovernedError(HostFailed, HostDispatch))
    ensures attempt.Success? ==> TellsCompletion(r, attempt.value)
    ensures attempt.Failure? && attempt.error.dispatchState == PossiblyDispatched ==>
              && r.execution == Indeterminate(attempt.error.counts.stdout, attempt.error.counts.stderr)
              && r.timeout == FailureTimeoutOf(attempt.error.timeout)
  {
    match attempt
    case Success(completed) =>
      var result := NormalizeExit124(completed);
      CommandResult(id, g, Host, Finished, Completed(result), TimeoutOf(result.timeout), NotNeeded, None)
    case Failure(f) =>
      CommandResult(id, g, Host, if f.dispatchState == NotDispatched then NeverDispatched else MaybeDispatched,
                    if f.dispatchState == NotDispatched then NotExecuted
                    else Indeterminate(f.counts.stdout, f.counts.stderr),
                    FailureTimeoutOf(f.timeout), NotNeeded, Some(GovernedError(HostFailed, HostDispatch)))
  }
}
