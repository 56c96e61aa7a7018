/** The governed dispatcher over a shared durable directory. A deployment is the directory plus any number of
    processes, each with its own result cache; calls are serialised by the directory lock. Every effect may be
    the last one its process performs: it then reports `Crashed`, and only the directory survives. */
module Dispatcher {
  import opened RuntimeContract
  import opened CommandEncoding
  import opened Governance
  import opened DispatchRecords

  type ProcessId = nat

  /** Argument vectors a 64-bit process can hold. */
  type Argv = a: seq<Bytes> | |a| <= U64_MAX && forall i :: 0 <= i < |a| ==> |a[i]| <= U64_MAX

  datatype Command = Command(dispatchId: DispatchId, argv: Argv, timeout: Option<nat>, resumeOnly: bool)

  /** The effective command: what governance sees and what the digest identifies. */
  function Effective(c: Command): EffectiveCommand {
    EffectiveCommand(c.argv, if c.timeout.Some? then c.timeout.value else DEFAULT_SECONDS)
  }

  predicate Acceptable(c: Command, limits: CommandSizeLimits) {
    ArgvAccepted(c.argv, limits) && (c.timeout.Some? ==> MIN_SECONDS <= c.timeout.value <= MAX_SECONDS)
  }

  /** The call is turned away before the record's evidence is consulted: the directory could not be locked or read,
      the command is invalid, or the id belongs to another command. */
  predicate TurnedAway(c: Command, limits: CommandSizeLimits, directoryOk: bool,
                       records: map<DispatchId, DispatchRecord>) {
    || !directoryOk || !Acceptable(c, limits)
    || (c.dispatchId in records && records[c.dispatchId].digest != Encode(Effective(c)))
  }

  /** The outcome of anything a process does: an answer, or the end of the process. */
  datatype Step<+T> = Alive(value: T) | Crashed {
    predicate IsFailure() { Crashed? }
    function PropagateFailure<U>(): Step<U>
      requires Crashed?
    {
      Crashed
    }
    function Extract(): T
      requires Alive?
    {
      value
    }
  }

  datatype ExecutorCall = HostCall(command: EffectiveCommand) | SandboxCall(command: EffectiveCommand, sandbox: nat)

  type HostFailure = f: HostFailureData | HostFailureOk(f)
    witness HostFailureData(NotDispatched, TimeoutNotObserved, NoBytes)

  type SandboxFailure = f: ExecFailure | Coherent(f)
    witness ExecFailure(0, NotDispatched, TimeoutNotObserved, Transport, NoBytes, None)

  /** What an executor reported. */
  datatype Heard =
    | FromHost(answer: Result<ExecCompleted, HostFailure>)
    | FromSandbox(attempt: Result<ExecCompleted, SandboxFailure>)

  /** What has happened in the world for one dispatch id.
      `answer`: what governance replied. `heard`: what the executor reported, if the process lived to hear it.
      `sandbox`: the cleanup id fenced in the durable record. `created`, `ready`: what the runtime answered about it.
      `mayExist`: create was submitted and absence is unproven. `absent`: some wait for deletion succeeded.
      `deletes`: cleanup ids whose deletion was requested.
      `first`: the first result given out. `replay`: the first replay given out. */
  datatype Trace = Trace(governed: Option<EffectiveCommand>, answer: Option<Json>, calls: seq<ExecutorCall>,
                         heard: Option<Heard>, sandbox: Option<nat>, creates: nat, created: Option<CreateAnswer>,
                         ready: Option<ReadyAnswer>, mayExist: bool, absent: bool, deletes: set<nat>,
                         first: Option<CommandResult>, replay: Option<CommandResult>)

  const NOTHING := Trace(None, None, [], None, None, 0, None, None, false, false, {}, None, None)

  /** The runtime created the sandbox and attested that the configured policy is active in it. */
  predicate Attested(t: Trace) {
    t.created == Some(CreatedOk) && t.ready == Some(ReadyOk(true))
  }

  /** The executor itself reported that it did not dispatch. */
  predicate SaidNot(t: Trace) {
    t.heard.Some? &&
    match t.heard.value
    case FromHost(a) => a.Failure? && a.error.dispatchState == NotDispatched
    case FromSandbox(a) => a.Failure? && a.error.dispatchState == NotDispatched
  }

  /** The command was handed to an executor that did not deny it. */
  predicate Dispatched(t: Trace) {
    t.calls != [] && !SaidNot(t)
  }

  /** No reply about this id was ever given out. */
  predicate Unanswered(t: Trace) {
    t.first.None? && t.replay.None?
  }

  /** The result of an executor's report. */
  function Report(id: DispatchId, g: GovernanceOutcome, cleanup: CleanupState, heard: Heard): CommandResult {
    match heard
    case FromHost(a) => HostResult(id, g, a)
    case FromSandbox(a) => SandboxResult(id, g, a, cleanup)
  }

  /** The result tells exactly what the executor reported; only its error may be another. */
  predicate Tells(r: CommandResult, heard: Heard) {
    r == Report(r.dispatchId, r.governance, r.cleanup, heard).(error := r.error)
  }

  /** Governance's reply was accepted, as a reply about this very id, with this verdict. */
  predicate Accepted(id: DispatchId, t: Trace, verdict: Verdict) {
    t.answer.Some? && ValidateResponse(id, t.answer.value) == Success(verdict)
  }

  /** At most one executor call ever; the host only after ALLOW and the sandbox only after CONSTRAIN, with exactly
      the command that governance saw, and a sandbox only in the one fenced for this id, created and attested. */
  predicate AtMostOnceRouted(id: DispatchId, t: Trace) {
    && |t.calls| <= 1 && t.creates <= 1
    && (t.answer.Some? ==> t.governed.Some?)
    && (t.creates > 0 ==> t.sandbox.Some? && Accepted(id, t, Constrain))
    && (forall call :: call in t.calls ==>
          && t.governed == Some(call.command)
          && (call.HostCall? ==> Accepted(id, t, Allow))
          && (call.SandboxCall? ==>
                Accepted(id, t, Constrain) && t.sandbox == Some(call.sandbox) && t.creates == 1 && Attested(t)))
  }

  /** No sandbox is forgotten: while one may exist the record names it as pending; the record and the first result
      claim absence only after a successful wait; and only the fenced id is ever deleted. */
  predicate NoLeak(r: DispatchRecord, t: Trace) {
    && r.cleanupId == t.sandbox
    && (t.mayExist ==> t.sandbox.Some? && r.cleanup == PendingReconciliation)
    && (r.cleanup == PendingReconciliation ==> r.cleanupId.Some?)
    && (r.cleanup == ConfirmedAbsent ==> t.absent)
    && (t.absent ==> !t.mayExist)
    && (t.first.Some? && t.first.value.cleanup == ConfirmedAbsent ==> t.absent)
    && (t.first.Some? && t.first.value.cleanup != PendingReconciliation ==> !t.mayExist)
    && (forall d :: d in t.deletes ==> t.sandbox == Some(d))
  }

  /** The named executor was called. */
  predicate Ran(t: Trace, executor: SelectedExecutor) {
    |t.calls| == 1 && executor == if t.calls[0].HostCall? then Host else Sandbox
  }

  /** Evidence never understates: neither the record nor the first result says NeverDispatched about a command an
      executor may have run. Nor is it made up: the first result claims dispatch, and the record completion, only of an
      executor that was called, and the first result tells what that executor reported. */
  predicate Honest(r: DispatchRecord, t: Trace) {
    && (t.first.Some? && t.calls != [] ==> t.heard.Some? && Tells(t.first.value, t.heard.value))
    && (r.dispatch == Finished ==> Ran(t, r.executor))
    && (t.first.Some? && t.first.value.dispatch != NeverDispatched ==> Ran(t, t.first.value.executor))
    && (Dispatched(t) ==> r.dispatch != NeverDispatched)
    && (t.first.Some? && t.first.value.dispatch == NeverDispatched ==> !Dispatched(t))
  }

  /** Replays repeat each other, up to cleanup. And how a replay relates to the first result: the same evidence or the
      weaker MaybeDispatched; and from a closed record everything but bodies, isolation evidence, a completed cleanup
      and the report of the failed write itself. */
  predicate ReplayAgrees(r: DispatchRecord, t: Trace) {
    && (t.replay.Some? ==> r.Replay() == t.replay.value.(cleanup := r.cleanup))
    && (t.first.Some? ==>
      var f, p := t.first.value, r.Replay();
      && (p.dispatch == f.dispatch || p.dispatch == MaybeDispatched)
      && (r.stage == Terminal ==>
            && p == Erase(f).(cleanup := p.cleanup, error := p.error)
            && (p.cleanup == f.cleanup || (f.cleanup == PendingReconciliation && p.cleanup == ConfirmedAbsent))
            && (p.error == f.error ||
                (p.error.None? && f.error == Some(GovernedError(PersistenceFailed, DispatchPersistence))))))
  }

  /** Two maps agree outside one key. */
  ghost predicate Elsewhere<V>(id: DispatchId, before: map<DispatchId, V>, after: map<DispatchId, V>) {
    forall k :: k != id ==> (k in before <==> k in after) && (k in before ==> before[k] == after[k])
  }

  /** Histories only grow. */
  predicate Grows(before: Trace, after: Trace) {
    && (before.governed.Some? ==> after.governed == before.governed)
    && (before.answer.Some? ==> after.answer == before.answer)
    && before.calls <= after.calls && (before.calls != [] ==> after.heard == before.heard)
    && (before.sandbox.Some? ==> after.sandbox == before.sandbox)
    && before.creates <= after.creates && (before.absent ==> after.absent) && before.deletes <= after.deletes
    && (before.created.Some? ==> after.created == before.created)
    && (before.ready.Some? ==> after.ready == before.ready)
    && (before.first.Some? ==> after.first == before.first)
    && (before.replay.Some? ==> after.replay == before.replay)
  }

  ghost predicate Advanced(id: DispatchId, records: map<DispatchId, DispatchRecord>, traces: map<DispatchId, Trace>,
                           records': map<DispatchId, DispatchRecord>, traces': map<DispatchId, Trace>)
  {
    && Elsewhere(id, records, records') && Elsewhere(id, traces, traces')
    && (id in records ==> id in records')
    && (id in traces ==> id in traces' && Grows(traces[id], traces'[id]))
  }

  /** The record passes `validate`, names its id and the governed command, and finishes only when closed. */
  predicate Recorded(id: DispatchId, r: DispatchRecord, t: Trace) {
    && r.dispatchId == id && r.Validates() && (t.first.Some? ==> t.first.value.dispatchId == id)
    && (r.stage != Terminal ==> r.dispatch != Finished)
    && (t.governed.Some? ==> r.digest == Encode(t.governed.value) && Representable(t.governed.value))
  }

  datatype Claim = RecordClaim | RoutingClaim | ContainmentClaim | EvidenceClaim | ReplayClaim

  predicate Holds(claim: Claim, id: DispatchId, r: DispatchRecord, t: Trace) {
    match claim
    case RecordClaim => Recorded(id, r, t)
    case RoutingClaim => AtMostOnceRouted(id, t)
    case ContainmentClaim => NoLeak(r, t)
    case EvidenceClaim => Honest(r, t)
    case ReplayClaim => ReplayAgrees(r, t)
  }

  /** The durable record of one id tells the truth about what happened: every claim holds. */
  ghost predicate Sound(id: DispatchId, r: DispatchRecord, t: Trace) {
    forall claim :: Holds(claim, id, r, t)
  }

  predicate EveryClaim(id: DispatchId, r: DispatchRecord, t: Trace) {
    Recorded(id, r, t) && AtMostOnceRouted(id, t) && NoLeak(r, t) && Honest(r, t) && ReplayAgrees(r, t)
  }

  lemma Claims(id: DispatchId, r: DispatchRecord, t: Trace)
    requires Sound(id, r, t)
    ensures EveryClaim(id, r, t)
  {
    assert Holds(RecordClaim, id, r, t) && Holds(RoutingClaim, id, r, t) && Holds(ContainmentClaim, id, r, t);
    assert Holds(EvidenceClaim, id, r, t) && Holds(ReplayClaim, id, r, t);
  }

  /** A cached result is the first result, except that its cleanup may since have been confirmed. */
  predicate CacheAgrees(c: CommandResult, t: Trace) {
    && t.first.Some?
    && (c == t.first.value || (c == t.first.value.(cleanup := ConfirmedAbsent) && t.absent))
  }

  datatype CreateAnswer = CreatedOk | MaybeCreated | NeverCreated | OwnershipConflict

  datatype ReadyAnswer = ReadyOk(policyMatches: bool) | ReadyFailed(policyMismatch: bool)

  datatype ReconciliationReport = ReconciliationReport(confirmedAbsent: nat, pending: nat)

  // ---- The environment. Everything a call hears from outside is given with the call, crashes included.

  /** What becomes of a write: whether it takes effect, whether it is then synced, and whether the process lives on. */
  datatype StoreAnswer = StoreAnswer(applied: bool, synced: bool, survives: bool) {
    predicate Durable() {
      applied && synced && survives
    }
  }

  /** What becomes of a request to another party: an answer, or the end of the process before or after asking. */
  datatype Answer<+T> = Says(value: T) | Dies(asked: bool)

  datatype SandboxAnswers = SandboxAnswers(create: Answer<CreateAnswer>, ready: Answer<ReadyAnswer>,
                                           readyWrite: StoreAnswer, dispatchWrite: StoreAnswer,
                                           exec: Answer<Result<ExecCompleted, SandboxFailure>>, cleanup: Answer<bool>)
  {
    predicate Attests() {
      create == Says(CreatedOk) && ready == Says(ReadyOk(true))
    }

    /** The command is executed: attested, and both fences durable. */
    predicate Executes() {
      Attests() && readyWrite.Durable() && dispatchWrite.Durable()
    }

    predicate MayLeaveSandbox() {
      create == Says(CreatedOk) || create == Says(MaybeCreated)
    }

    /** The process survives everything it gets to. */
    predicate Survives() {
      && create.Says? && (create.value.CreatedOk? ==> ready.Says?)
      && (Attests() ==> readyWrite.survives) && (Attests() && readyWrite.Durable() ==> dispatchWrite.survives)
      && (Executes() ==> exec.Says?) && (MayLeaveSandbox() ==> cleanup.Says?)
    }

    function Cleanup(): CleanupState {
      if !MayLeaveSandbox() then NotNeeded else CleanupAfter(cleanup)
    }

    /** Why the command is not executed. */
    function Reason(): GovernedError {
      if create != Says(CreatedOk) then CREATE_FAILED
      else if ready == Says(ReadyFailed(false)) then READINESS_FAILED
      else if !Attests() then ATTESTATION_FAILED
      else WRITE_FAILED
    }

    function Outcome(id: DispatchId, g: GovernanceOutcome): CommandResult
      requires Survives()
    {
      if Executes() then SandboxResult(id, g, exec.value, Cleanup())
      else Undispatched(id, g, Sandbox, Cleanup(), Some(Reason()))
    }
  }

  function CleanupAfter(wait: Answer<bool>): CleanupState {
    if wait == Says(true) then ConfirmedAbsent else PendingReconciliation
  }

  /** One call's environment: the lock and the directory; then the writes and the answers in the order of the call; and,
      for a replay, the cleanup and its write. */
  datatype CallAnswers = CallAnswers(locked: bool, loaded: bool, first: StoreAnswer, governance: Answer<Option<Json>>,
                                     fence: StoreAnswer, host: Answer<Result<ExecCompleted, HostFailure>>,
                                     sandbox: SandboxAnswers, close: StoreAnswer, cleanup: Answer<bool>,
                                     confirm: StoreAnswer)

  /** The reply after the closing write. */
  function Settled(w: StoreAnswer, result: CommandResult): Step<CommandResult> {
    if !w.survives then Crashed else Alive(if w.Durable() then result else SetErrorIfNone(result, WRITE_FAILED))
  }

  /** A branch behind its fence. */
  function Fenced(id: DispatchId, executor: SelectedExecutor, env: CallAnswers, behind: Step<CommandResult>):
    Step<CommandResult>
  {
    if !env.fence.survives then Crashed
    else if !env.fence.Durable() then Alive(PersistenceResult(id, executor))
    else if behind.Crashed? then Crashed
    else Settled(env.close, behind.value)
  }

  function HostOutcome(id: DispatchId, g: GovernanceOutcome, env: CallAnswers): Step<CommandResult> {
    if env.host.Dies? then Crashed else Alive(HostResult(id, g, env.host.value))
  }

  function SandboxOutcome(id: DispatchId, g: GovernanceOutcome, env: CallAnswers): Step<CommandResult> {
    if !env.sandbox.Survives() then Crashed else Alive(env.sandbox.Outcome(id, g))
  }

  function Stopped(id: DispatchId, g: GovernanceOutcome, error: Option<GovernedError>, env: CallAnswers):
    Step<CommandResult>
  {
    Settled(env.close, Undispatched(id, g, NoExecutor, NotNeeded, error))
  }

  /** The reply to a new command, once governance has answered. */
  function GovernedReply(id: DispatchId, answer: Option<Json>, env: CallAnswers): Step<CommandResult> {
    if answer.None? then
      Stopped(id, Unavailable, Some(GovernedError(GovernanceUnavailable, GovernancePhase)), env)
    else match ValidateResponse(id, answer.value)
      case Failure(reason) =>
        Stopped(id, Rejected(reason), Some(GovernedError(GovernanceRejected, GovernancePhase)), env)
      case Success(Allow) => Fenced(id, Host, env, HostOutcome(id, Authoritative(Allow, answer.value), env))
      case Success(Constrain) =>
        Fenced(id, Sandbox, env, SandboxOutcome(id, Authoritative(Constrain, answer.value), env))
      case Success(verdict) => Stopped(id, Authoritative(verdict, answer.value), None, env)
  }

  /** The reply to a new command. */
  function FreshReply(id: DispatchId, env: CallAnswers): Step<CommandResult> {
    if !env.first.survives then Crashed
    else if !env.first.Durable() then Alive(PersistenceResult(id, NoExecutor))
    else if env.governance.Dies? then Crashed
    else GovernedReply(id, env.governance.value, env)
  }

  /** The process survives the cleanup of a pending record, and the write that follows a successful one. */
  predicate SurvivesCleanup(cleanup: Answer<bool>, confirm: StoreAnswer) {
    cleanup.Says? && (cleanup.value ==> confirm.survives)
  }

  /** The record in memory after its pending cleanup was tried. */
  function UpToDate(r: DispatchRecord, env: CallAnswers): Step<DispatchRecord> {
    if r.cleanup != PendingReconciliation then Alive(r)
    else if !SurvivesCleanup(env.cleanup, env.confirm) then Crashed
    else Alive(if env.cleanup.value then r.CleanupConfirmed() else r)
  }

  lemma UpToDateReplays(r: DispatchRecord, env: CallAnswers)
    ensures RecordReply(r, env) ==
            match UpToDate(r, env) case Crashed => Crashed case Alive(now) => Alive(now.Replay())
  {
  }

  /** The reply from a record without a cached result. */
  function RecordReply(r: DispatchRecord, env: CallAnswers): Step<CommandResult> {
    if r.cleanup != PendingReconciliation then Alive(r.Replay())
    else if !SurvivesCleanup(env.cleanup, env.confirm) then Crashed
    else Alive(r.Replay().(cleanup := CleanupAfter(env.cleanup)))
  }

  /** The reply to any call, from the command, what the environment answers, and the record and the cached result the
      call finds. */
  ghost function Reply(c: Command, limits: CommandSizeLimits, env: CallAnswers, record: Option<DispatchRecord>,
                       cached: Option<CommandResult>): Step<CommandResult>
  {
    if !env.locked then Alive(PersistenceResult(c.dispatchId, NoExecutor))
    else if !Acceptable(c, limits) then
      Alive(ValidationResult(c.dispatchId, if TooLarge(c.argv, limits) then CommandTooLarge else InvalidCommand))
    else if !env.loaded then Alive(PersistenceResult(c.dispatchId, NoExecutor))
    else match record
      case None =>
        if c.resumeOnly then Alive(ValidationResult(c.dispatchId, DigestMismatch)) else FreshReply(c.dispatchId, env)
      case Some(r) =>
        if r.digest != Encode(Effective(c)) then Alive(ValidationResult(c.dispatchId, DigestMismatch))
        else if cached.Some? then Alive(cached.value)
        else RecordReply(r, env)
  }

  lemma SoundGoverned(id: DispatchId, r: DispatchRecord, command: EffectiveCommand, answer: Option<Json>)
    requires Sound(id, r, NOTHING) && r.digest == Encode(command) && Representable(command)
    ensures Sound(id, r, NOTHING.(governed := Some(command), answer := answer))
  {
    Claims(id, r, NOTHING);
  }

  lemma SoundCall(id: DispatchId, r: DispatchRecord, t: Trace, call: ExecutorCall, heard: Option<Heard>)
    requires Sound(id, r, t) && t.calls == [] && t.first.None? && r.dispatch == MaybeDispatched
    requires t.governed == Some(call.command)
    requires call.HostCall? ==> Accepted(id, t, Allow)
    requires call.SandboxCall? ==>
               Accepted(id, t, Constrain) && t.sandbox == Some(call.sandbox) && t.creates == 1 && Attested(t)
    ensures Sound(id, r, t.(calls := [call], heard := heard))
  {
    Claims(id, r, t);
  }

  lemma SoundCreate(id: DispatchId, r: DispatchRecord, t: Trace, answer: Option<CreateAnswer>, mayExist: bool)
    requires Sound(id, r, t) && t.sandbox.Some? && Accepted(id, t, Constrain) && t.creates == 0 && t.calls == []
    requires !t.absent && t.first.None? && r.cleanup == PendingReconciliation
    ensures Sound(id, r, t.(creates := 1, created := answer, mayExist := mayExist))
  {
    Claims(id, r, t);
  }

  lemma SoundReady(id: DispatchId, r: DispatchRecord, t: Trace, answer: ReadyAnswer)
    requires Sound(id, r, t) && t.calls == []
    ensures Sound(id, r, t.(ready := Some(answer)))
  {
    Claims(id, r, t);
  }

  /** The world after a deletion was requested, with or without proof of absence. */
  function Cleaned(t: Trace, target: nat, gone: bool): Trace {
    var asked := t.(deletes := t.deletes + {target});
    if gone then asked.(mayExist := false, absent := true) else asked
  }

  lemma SoundCleanup(id: DispatchId, r: DispatchRecord, t: Trace, target: nat, gone: bool)
    requires Sound(id, r, t) && t.sandbox == Some(target)
    ensures Sound(id, r, Cleaned(t, target, gone))
  {
    Claims(id, r, t);
    CleanupLeavesEvidence(id, r, t, target, gone);
  }

  lemma CleanupLeavesEvidence(id: DispatchId, r: DispatchRecord, t: Trace, target: nat, gone: bool)
    requires Honest(r, t) && ReplayAgrees(r, t) && AtMostOnceRouted(id, t)
    ensures var t' := Cleaned(t, target, gone); Honest(r, t') && ReplayAgrees(r, t') && AtMostOnceRouted(id, t')
  {
  }

  /** Governance has answered with this verdict, and that is all that has happened. */
  predicate Governed(id: DispatchId, t: Trace, command: EffectiveCommand, verdict: Verdict) {
    t == NOTHING.(governed := Some(command), answer := t.answer) && Accepted(id, t, verdict)
  }

  predicate Untouched(t: Trace) {
    t.calls == [] && t.sandbox.None? && !t.mayExist && Unanswered(t)
  }

  /** CONSTRAIN was accepted, the sandbox is fenced, and nothing has been executed or answered. */
  predicate InSandbox(id: DispatchId, t: Trace, command: EffectiveCommand, sandbox: nat) {
    && t.calls == [] && Unanswered(t) && !t.absent && t.sandbox == Some(sandbox)
    && t.governed == Some(command) && Accepted(id, t, Constrain)
  }

  /** A result, with the in-memory record it came from, that may close the durable record. */
  predicate Closes(id: DispatchId, durable: DispatchRecord, t: Trace, record: DispatchRecord, result: CommandResult) {
    && WellFormed(result) && result.dispatchId == id
    && record.dispatchId == id && record.digest == durable.digest && record.cleanupId == durable.cleanupId
    && durable.stage != Terminal && Unanswered(t)
    && (t.calls != [] ==> t.heard.Some? && Tells(result, t.heard.value))
    && (t.sandbox.Some? ==> result.executor == Sandbox)
    && (t.mayExist ==> result.cleanup == PendingReconciliation)
    && (result.cleanup == PendingReconciliation ==> t.sandbox.Some?)
    && (result.cleanup == ConfirmedAbsent ==> t.absent)
    && (Dispatched(t) ==> result.dispatch != NeverDispatched)
    && (result.dispatch != NeverDispatched ==> Ran(t, result.executor))
    && (durable.dispatch == result.dispatch || durable.dispatch == MaybeDispatched)
  }

  /** How `execute_sandbox` ends. */
  ghost predicate Concluded(id: DispatchId, g: GovernanceOutcome, command: EffectiveCommand, sandbox: nat,
                            env: SandboxAnswers, records: map<DispatchId, DispatchRecord>,
                            traces: map<DispatchId, Trace>, o: Step<Closing>)
  {
    && (o.Alive? <==> env.Survives())
    && (o.Alive? ==>
          && id in traces && id in records && ClosesInSandbox(id, records[id], traces[id], g, o.value)
          && o.value.result == env.Outcome(id, g) && traces[id].creates == 1 && traces[id].governed == Some(command)
          && traces[id].calls == (if env.Executes() then [SandboxCall(command, sandbox)] else [])
          && (env.MayLeaveSandbox() ==> sandbox in traces[id].deletes))
  }

  /** The sandbox was given up: nothing ran, and the result says why. */
  lemma ConcludedEarly(id: DispatchId, g: GovernanceOutcome, command: EffectiveCommand, sandbox: nat,
                       env: SandboxAnswers, records: map<DispatchId, DispatchRecord>, traces: map<DispatchId, Trace>,
                       t: Trace, error: GovernedError, o: Step<Closing>)
    requires !env.Executes() && env.MayLeaveSandbox() && env.Reason() == error
    requires env.Survives() <==> env.cleanup.Says?
    requires t.creates == 1 && t.calls == [] && t.governed == Some(command) && (o.Alive? <==> env.cleanup.Says?)
    requires o.Alive? ==>
               && id in traces && id in records && ClosesInSandbox(id, records[id], traces[id], g, o.value)
               && o.value.result == Undispatched(id, g, Sandbox, CleanupAfter(env.cleanup), Some(error))
               && traces[id] == Cleaned(t, sandbox, env.cleanup.value)
    ensures Concluded(id, g, command, sandbox, env, records, traces, o)
  {
  }

  /** Nothing was created. */
  lemma ConcludedUncreated(id: DispatchId, g: GovernanceOutcome, command: EffectiveCommand, sandbox: nat,
                           env: SandboxAnswers, records: map<DispatchId, DispatchRecord>,
                           traces: map<DispatchId, Trace>, c: Closing)
    requires env.create.Says? && !env.MayLeaveSandbox()
    requires id in traces && id in records && Sound(id, records[id], traces[id])
    requires InSandbox(id, traces[id], command, sandbox) && traces[id].creates == 1 && !traces[id].mayExist
    requires records[id] == c.record && c.record.stage == SandboxCreatePossible && c.record.dispatch == NeverDispatched
    requires c.result == Undispatched(id, g, Sandbox, NotNeeded, Some(CREATE_FAILED))
    ensures Concluded(id, g, command, sandbox, env, records, traces, Alive(c))
  {
    Claims(id, records[id], traces[id]);
  }

  /** The command ran. */
  lemma ConcludedRun(id: DispatchId, g: GovernanceOutcome, command: EffectiveCommand, sandbox: nat,
                     env: SandboxAnswers, records: map<DispatchId, DispatchRecord>, traces: map<DispatchId, Trace>,
                     o: Step<Closing>)
    requires env.Executes() && (o.Alive? <==> env.exec.Says? && env.cleanup.Says?)
    requires o.Alive? ==>
               && id in traces && id in records && ClosesInSandbox(id, records[id], traces[id], g, o.value)
               && o.value.result == SandboxResult(id, g, env.exec.value, CleanupAfter(env.cleanup))
               && traces[id].creates == 1 && traces[id].governed == Some(command)
               && traces[id].calls == [SandboxCall(command, sandbox)] && sandbox in traces[id].deletes
    ensures Concluded(id, g, command, sandbox, env, records, traces, o)
  {
  }

  /** A replay without a cached result has asked for the deletion of what the record retains. */
  predicate Reclaims(before: DispatchRecord, t: Trace, a: Answer<bool>) {
    before.cleanup == PendingReconciliation && a.Says? ==>
      before.cleanupId.Some? && before.cleanupId.value in t.deletes && (a.value ==> t.absent && !t.mayExist)
  }

  function Find<V>(m: map<DispatchId, V>, id: DispatchId): Option<V> {
    if id in m then Some(m[id]) else None
  }

  function CachedAt(caches: map<ProcessId, map<DispatchId, CommandResult>>, pid: ProcessId, id: DispatchId):
    Option<CommandResult>
  {
    if pid in caches then Find(caches[pid], id) else None
  }

  /** One cached result, if it is there, learns that cleanup is confirmed; no other changes. */
  ghost predicate Updated(before: map<ProcessId, map<DispatchId, CommandResult>>,
                          after: map<ProcessId, map<DispatchId, CommandResult>>, pid: ProcessId, id: DispatchId)
  {
    && (forall p: ProcessId, i :: p != pid || i != id ==> CachedAt(after, p, i) == CachedAt(before, p, i))
    && match CachedAt(before, pid, id)
       case None => CachedAt(after, pid, id) == None
       case Some(c) => CachedAt(after, pid, id) == Some(c.(cleanup := ConfirmedAbsent))
  }

  /** The cached results of these ids, where there are any, have learned that cleanup is confirmed. */
  ghost predicate CachesTold(before: map<ProcessId, map<DispatchId, CommandResult>>,
                             after: map<ProcessId, map<DispatchId, CommandResult>>, pid: ProcessId,
                             gone: set<DispatchId>)
  {
    forall id :: CachedAt(after, pid, id) ==
                 match CachedAt(before, pid, id)
                 case None => None
                 case Some(c) => Some(if id in gone then c.(cleanup := ConfirmedAbsent) else c)
  }

  lemma ToldMore(before: map<ProcessId, map<DispatchId, CommandResult>>,
                 caches: map<ProcessId, map<DispatchId, CommandResult>>,
                 caches': map<ProcessId, map<DispatchId, CommandResult>>, pid: ProcessId,
                 loaded: map<DispatchId, DispatchRecord>, done: set<DispatchId>, env: SweepAnswers, id: DispatchId)
    requires CachesTold(before, caches, pid, env.Gone(loaded, done)) && id in loaded && id !in done
    requires if loaded[id].cleanup == PendingReconciliation && env.cleanup(id) == Says(true)
             then Updated(caches, caches', pid, id) else caches' == caches
    ensures CachesTold(before, caches', pid, env.Gone(loaded, done + {id}))
  {
    FoundPendingGrows(loaded, done, id, env);
  }

  /** What `execute_sandbox` leaves for `finish`. */
  datatype Closing = Closing(record: DispatchRecord, result: CommandResult)

  predicate ClosesInSandbox(id: DispatchId, durable: DispatchRecord, t: Trace, g: GovernanceOutcome, c: Closing) {
    Closes(id, durable, t, c.record, c.result) && c.result.governance == g && c.result.executor == Sandbox
  }

  /** The end of `execute_sandbox`. */
  function AfterRun(id: DispatchId, record: DispatchRecord, g: GovernanceOutcome,
                    attempt: Result<ExecCompleted, SandboxFailure>,
                    cleanup: CleanupState): Closing
  {
    var moved := if cleanup == ConfirmedAbsent then record.CleanupConfirmed() else record;
    Closing(moved, SandboxResult(id, g, attempt, cleanup))
  }

  lemma RunCloses(id: DispatchId, record: DispatchRecord, t: Trace, called: Trace, cleaned: Trace, g: GovernanceOutcome,
                  command: EffectiveCommand, sandbox: nat, attempt: Result<ExecCompleted, SandboxFailure>, gone: bool)
    requires Sound(id, record, cleaned) && InSandbox(id, t, command, sandbox)
    requires record.stage == SandboxDispatchPossible && record.dispatch == MaybeDispatched
    requires called == t.(calls := [SandboxCall(command, sandbox)], heard := Some(FromSandbox(attempt)))
    requires cleaned == Cleaned(called, sandbox, gone)
    ensures ClosesInSandbox(id, record, cleaned, g,
                            AfterRun(id, record, g, attempt, if gone then ConfirmedAbsent else PendingReconciliation))
  {
    Claims(id, record, cleaned);
  }

  const CREATE_FAILED := GovernedError(SandboxCreateFailed, ErrorPhase.SandboxCreate)
  const ATTESTATION_FAILED := GovernedError(SandboxAttestationFailed, SandboxAttestation)
  const READINESS_FAILED := GovernedError(SandboxReadinessFailed, SandboxReadiness)
  const WRITE_FAILED := GovernedError(PersistenceFailed, DispatchPersistence)

  lemma SoundClose(id: DispatchId, durable: DispatchRecord, t: Trace, record: DispatchRecord, result: CommandResult)
    requires Sound(id, durable, t) && Closes(id, durable, t, record, result)
    ensures Sound(id, record.Close(result), t)
  {
    Claims(id, durable, t);
    ReplayInvertsClose(record, result);
  }

  /** Whichever record the closing write left behind, its replay agrees with the answer. */
  lemma AnswerReplays(id: DispatchId, durable: DispatchRecord, t: Trace, record: DispatchRecord, result: CommandResult,
                      now: DispatchRecord, answer: CommandResult)
    requires Closes(id, durable, t, record, result)
    requires now == record.Close(result) || now == durable
    requires answer == SetErrorIfNone(result, WRITE_FAILED) || (answer == result && now == record.Close(result))
    ensures ReplayAgrees(now, t.(first := Some(answer)))
  {
    ReplayInvertsClose(record, result);
  }

  /** Handing the result out keeps the record sound. */
  lemma SoundAnswer(id: DispatchId, durable: DispatchRecord, t: Trace, record: DispatchRecord, result: CommandResult,
                    now: DispatchRecord, answer: CommandResult)
    requires Sound(id, durable, t) && Closes(id, durable, t, record, result)
    requires now == record.Close(result) || now == durable
    requires answer == SetErrorIfNone(result, WRITE_FAILED) || (answer == result && now == record.Close(result))
    ensures Sound(id, now, t.(first := Some(answer)))
  {
    SoundClose(id, durable, t, record, result);
    Claims(id, now, t);
    AnswerReplays(id, durable, t, record, result, now, answer);
    AnswerIsHonest(id, durable, t, record, result, now, answer);
  }

  lemma AnswerIsHonest(id: DispatchId, durable: DispatchRecord, t: Trace, record: DispatchRecord, result: CommandResult,
                       now: DispatchRecord, answer: CommandResult)
    requires Closes(id, durable, t, record, result) && NoLeak(now, t) && Honest(now, t)
    requires answer == SetErrorIfNone(result, WRITE_FAILED) || answer == result
    ensures NoLeak(now, t.(first := Some(answer))) && Honest(now, t.(first := Some(answer)))
  {
  }

  /** The two writes between readiness and execution. */
  lemma SoundProgress(id: DispatchId, r: DispatchRecord, t: Trace)
    requires Sound(id, r, t) && r.stage != Terminal && Unanswered(t)
    ensures Sound(id, r.ReadyForDispatch(), t) && Sound(id, r.DispatchPossible(), t)
  {
    Claims(id, r, t);
  }

  /** A failed fence is answered as not dispatched, which stays true: the command goes no further. */
  lemma SoundRefusal(id: DispatchId, durable: DispatchRecord, t: Trace, executor: SelectedExecutor)
    requires Sound(id, durable, t) && durable.stage != Terminal && t.first.None? && t.calls == [] && !t.mayExist
    ensures Sound(id, durable, t.(first := Some(PersistenceResult(id, executor))))
  {
    Claims(id, durable, t);
  }

  lemma SoundNew(id: DispatchId, digest: Bytes)
    ensures Sound(id, NewRecord(id, digest), NOTHING)
  {
  }

  lemma SoundHostFence(id: DispatchId, r: DispatchRecord, t: Trace, g: GovernanceOutcome)
    requires Sound(id, r, t) && Unanswered(t) && t.sandbox.None? && r.stage == GovernancePending
    ensures Sound(id, r.SelectHost(g), t)
  {
    Claims(id, r, t);
  }

  lemma SoundSandboxFence(id: DispatchId, r: DispatchRecord, t: Trace, g: GovernanceOutcome, sandbox: nat)
    requires Sound(id, r, t) && Unanswered(t) && t.sandbox.None? && t.calls == [] && r.stage == GovernancePending
    ensures Sound(id, r.SelectSandbox(g, sandbox), t.(sandbox := Some(sandbox)))
  {
    Claims(id, r, t);
  }

  lemma SoundConfirmed(id: DispatchId, r: DispatchRecord, t: Trace)
    requires Sound(id, r, t) && r.cleanup == PendingReconciliation && t.absent
    ensures Sound(id, r.CleanupConfirmed(), t)
  {
    Claims(id, r, t);
    ConfirmedReplayAgrees(r, t);
  }

  lemma ConfirmedReplayAgrees(r: DispatchRecord, t: Trace)
    requires ReplayAgrees(r, t) && r.cleanup == PendingReconciliation
    ensures ReplayAgrees(r.CleanupConfirmed(), t)
  {
    assert r.CleanupConfirmed().Replay() == r.Replay().(cleanup := ConfirmedAbsent);
  }

  /** The reply is the first result or the first replay again, up to cleanup. */
  predicate Repeats(t: Trace, reply: CommandResult) {
    || (t.first.Some? && reply == t.first.value.(cleanup := reply.cleanup))
    || (t.replay.Some? && reply == t.replay.value.(cleanup := reply.cleanup))
  }

  /** A reply that does justice to what happened: it says NeverDispatched only about a command no executor took,
      never claims more evidence than the first reply, and claims absence only when it was proved. */
  predicate Fair(id: DispatchId, t: Trace, reply: CommandResult) {
    && reply.dispatchId == id
    && (reply.dispatch == NeverDispatched ==> !Dispatched(t))
    && (t.first.Some? ==> reply.dispatch == t.first.value.dispatch || reply.dispatch == MaybeDispatched)
    && (reply.cleanup == ConfirmedAbsent ==> t.absent)
    && (reply.cleanup == NotNeeded ==> !t.mayExist)
  }

  lemma FirstIsFair(id: DispatchId, r: DispatchRecord, t: Trace)
    requires Sound(id, r, t) && t.first.Some?
    ensures Fair(id, t, t.first.value)
  {
    Claims(id, r, t);
  }

  lemma CachedIsFair(id: DispatchId, r: DispatchRecord, t: Trace, c: CommandResult)
    requires Sound(id, r, t) && CacheAgrees(c, t)
    ensures Fair(id, t, c)
  {
    Claims(id, r, t);
  }

  /** A replay is fair, also when its cleanup was confirmed in memory only. */
  lemma ReplayIsFair(id: DispatchId, r: DispatchRecord, t: Trace, confirmed: bool)
    requires Sound(id, r, t) && (confirmed ==> t.absent)
    ensures Fair(id, t, ReplayOf(r, confirmed))
  {
    Claims(id, r, t);
  }

  function ReplayOf(r: DispatchRecord, confirmed: bool): (reply: CommandResult)
    ensures reply.(cleanup := r.cleanup) == r.Replay()
  {
    InMemory(r, confirmed).Replay()
  }

  /** The record in memory: the durable one, or the same with its cleanup confirmed by a write that was lost. */
  function InMemory(r: DispatchRecord, confirmed: bool): DispatchRecord {
    if confirmed then r.CleanupConfirmed() else r
  }

  /** The trace after a replay: the first one is remembered. */
  function WithReplay(t: Trace, reply: CommandResult): (t': Trace)
    ensures Grows(t, t') && t'.replay.Some? && t' == t.(replay := t'.replay)
  {
    if t.replay.None? then t.(replay := Some(reply)) else t
  }

  lemma RememberedReplayIsSound(id: DispatchId, r: DispatchRecord, t: Trace, reply: CommandResult)
    requires Sound(id, r, t) && t.replay.None? && reply.(cleanup := r.cleanup) == r.Replay()
    ensures Sound(id, r, t.(replay := Some(reply)))
  {
    Claims(id, r, t);
  }

  /** Giving a replay out keeps the record sound, and the reply repeats the first replay. */
  lemma SoundReplay(id: DispatchId, r: DispatchRecord, t: Trace, confirmed: bool)
    requires Sound(id, r, t) && (confirmed ==> t.absent)
    ensures var reply := ReplayOf(r, confirmed); var t' := WithReplay(t, reply);
            Sound(id, r, t') && Fair(id, t', reply) && reply == t'.replay.value.(cleanup := reply.cleanup)
  {
    ReplayIsFair(id, r, t, confirmed);
    if t.replay.None? {
      RememberedReplayIsSound(id, r, t, ReplayOf(r, confirmed));
    } else {
      assert Holds(ReplayClaim, id, r, t);
    }
  }

  /** What each answer of governance lets happen: the host is called only and exactly behind the fence of an accepted
      ALLOW, a sandbox created exactly behind that of an accepted CONSTRAIN, and nothing else. */
  predicate Routed(id: DispatchId, answer: Option<Json>, t: Trace, env: CallAnswers) {
    var verdict := if answer.None? then Failure(Missing) else ValidateResponse(id, answer.value);
    && (t.creates == 1 <==> verdict == Success(Constrain) && env.fence.Durable())
    && (t.calls != [] <==>
        env.fence.Durable() &&
        (verdict == Success(Allow) || (verdict == Success(Constrain) && env.sandbox.Executes())))
  }

  /** The call gets as far as `finish`. */
  predicate Finishes(id: DispatchId, answer: Option<Json>, env: CallAnswers) {
    var verdict := if answer.None? then Failure(Missing) else ValidateResponse(id, answer.value);
    verdict == Success(Allow) || verdict == Success(Constrain) ==> env.fence.Durable()
  }

  /** What a call for a new id has let happen and left in the cache of its process, once governance has answered. */
  ghost predicate Conducted(id: DispatchId, answer: Option<Json>, t: Trace, env: CallAnswers, reply: CommandResult,
                            caches: map<ProcessId, map<DispatchId, CommandResult>>, pid: ProcessId)
  {
    Routed(id, answer, t, env) && (Finishes(id, answer, env) ==> CachedAt(caches, pid, id) == Some(reply))
  }

  lemma Conducts(id: DispatchId, answer: Option<Json>, verdict: Verdict, t: Trace, env: CallAnswers,
                 reply: CommandResult, caches: map<ProcessId, map<DispatchId, CommandResult>>, pid: ProcessId)
    requires answer.Some? && ValidateResponse(id, answer.value) == Success(verdict)
    requires t.creates == if verdict == Constrain && env.fence.Durable() then 1 else 0
    requires t.calls != [] <==>
             env.fence.Durable() && (verdict == Allow || (verdict == Constrain && env.sandbox.Executes()))
    requires (verdict == Allow || verdict == Constrain ==> env.fence.Durable()) ==>
               CachedAt(caches, pid, id) == Some(reply)
    ensures Conducted(id, answer, t, env, reply, caches, pid)
  {
  }

  /** A reply that consulted no record: nothing dispatched, nothing to clean up, as far as this call knows. */
  predicate Uninformed(id: DispatchId, reply: CommandResult) {
    reply.dispatchId == id && reply.executor == NoExecutor && reply.dispatch == NeverDispatched &&
        reply.cleanup == NotNeeded
  }

  /** A reply that speaks fairly about this command, the one that was governed, and repeats what was said before. */
  predicate Informed(command: Command, t: Trace, reply: CommandResult) {
    Fair(command.dispatchId, t, reply) && Repeats(t, reply) &&
        (t.governed.Some? ==> t.governed.value == Effective(command))
  }

  /** A call that passes the digest check carries the very command that was governed. */
  lemma DigestIdentifies(id: DispatchId, r: DispatchRecord, t: Trace, command: EffectiveCommand)
    requires Sound(id, r, t) && t.governed.Some? && Representable(command)
    ensures r.digest == Encode(command) <==> t.governed.value == command
  {
    Claims(id, r, t);
    EncodeInjective(t.governed.value, command);
  }

  ghost function FoundPending(records: map<DispatchId, DispatchRecord>, ids: set<DispatchId>): set<DispatchId> {
    set id | id in ids && id in records && records[id].cleanup == PendingReconciliation
  }

  /** What `reconcile_all` hears: the lock, the directory, and for each id the wait and the write that may follow. */
  datatype SweepAnswers = SweepAnswers(locked: bool, loaded: bool, cleanup: DispatchId -> Answer<bool>,
                                       confirm: DispatchId -> StoreAnswer)
  {
    /** The ids found pending whose wait succeeds. */
    ghost function Gone(records: map<DispatchId, DispatchRecord>, ids: set<DispatchId>): set<DispatchId> {
      set id | id in FoundPending(records, ids) && cleanup(id) == Says(true)
    }

    ghost predicate Survives(records: map<DispatchId, DispatchRecord>, ids: set<DispatchId>) {
      forall id :: id in FoundPending(records, ids) ==> SurvivesCleanup(cleanup(id), confirm(id))
    }

    /** The durable record after its turn. */
    function Reconciled(id: DispatchId, r: DispatchRecord): DispatchRecord {
      if r.cleanup == PendingReconciliation && cleanup(id) == Says(true) && confirm(id).applied
      then r.CleanupConfirmed()
      else r
    }

    /** The report after a record had its turn. */
    function Counted(id: DispatchId, r: DispatchRecord, report: ReconciliationReport): ReconciliationReport {
      if r.cleanup != PendingReconciliation then report
      else if cleanup(id) == Says(true) then report.(confirmedAbsent := report.confirmedAbsent + 1)
      else report.(pending := report.pending + 1)
    }
  }

  lemma FoundPendingGrows(records: map<DispatchId, DispatchRecord>, ids: set<DispatchId>, id: DispatchId,
                          env: SweepAnswers)
    requires id !in ids && id in records
    ensures FoundPending(records, ids + {id}) ==
            if records[id].cleanup == PendingReconciliation then FoundPending(records, ids) + {id}
            else FoundPending(records, ids)
    ensures env.Gone(records, ids + {id}) ==
            if records[id].cleanup == PendingReconciliation && env.cleanup(id) == Says(true)
            then env.Gone(records, ids) + {id}
            else env.Gone(records, ids)
  {
  }

  /** Where `reconcile_all` stands after the records in `done`. */
  ghost predicate Swept(loaded: map<DispatchId, DispatchRecord>, before: map<DispatchId, Trace>,
                        records: map<DispatchId, DispatchRecord>, traces: map<DispatchId, Trace>,
                        done: set<DispatchId>, report: ReconciliationReport, env: SweepAnswers)
  {
    && loaded.Keys == before.Keys == traces.Keys && Visited(loaded, records, done, env) && env.Survives(loaded, done)
    && OnlyCleaned(before, traces) && AllReclaimed(loaded, traces, done, env) && Tallied(loaded, done, report, env)
  }

  ghost predicate OnlyCleaned(before: map<DispatchId, Trace>, traces: map<DispatchId, Trace>) {
    forall id :: id in before ==> id in traces && CleanupOnly(before[id], traces[id])
  }

  lemma OnlyCleanedMore(before: map<DispatchId, Trace>, traces: map<DispatchId, Trace>, id: DispatchId,
                        traces': map<DispatchId, Trace>)
    requires OnlyCleaned(before, traces) && Elsewhere(id, traces, traces')
    requires id in traces && id in traces' && CleanupOnly(traces[id], traces'[id])
    ensures OnlyCleaned(before, traces')
  {
  }

  /** Deletion was requested for every record found pending so far; what was waited for with success is absent. */
  ghost predicate AllReclaimed(loaded: map<DispatchId, DispatchRecord>, traces: map<DispatchId, Trace>,
                               done: set<DispatchId>, env: SweepAnswers)
    requires loaded.Keys == traces.Keys
  {
    forall id :: id in done && id in loaded ==> Reclaims(loaded[id], traces[id], env.cleanup(id))
  }

  /** The records that were not yet visited are as they were loaded, the others as their turn left them. */
  ghost predicate Visited(loaded: map<DispatchId, DispatchRecord>, records: map<DispatchId, DispatchRecord>,
                          done: set<DispatchId>, env: SweepAnswers)
  {
    && records.Keys == loaded.Keys
    && forall id :: id in loaded ==> records[id] == if id in done then env.Reconciled(id, loaded[id]) else loaded[id]
  }

  /** Every record found pending so far is counted once, as confirmed exactly if its wait succeeded. */
  ghost predicate Tallied(loaded: map<DispatchId, DispatchRecord>, done: set<DispatchId>, report: ReconciliationReport,
                          env: SweepAnswers)
  {
    && report.confirmedAbsent == |env.Gone(loaded, done)|
    && report.confirmedAbsent + report.pending == |FoundPending(loaded, done)|
  }

  lemma TallyMore(loaded: map<DispatchId, DispatchRecord>, done: set<DispatchId>, report: ReconciliationReport,
                  env: SweepAnswers, id: DispatchId)
    requires id in loaded && id !in done && Tallied(loaded, done, report, env)
    ensures Tallied(loaded, done + {id}, env.Counted(id, loaded[id], report), env)
  {
    FoundPendingGrows(loaded, done, id, env);
    assert id !in FoundPending(loaded, done) && id !in env.Gone(loaded, done);
  }

  lemma SweptMore(loaded: map<DispatchId, DispatchRecord>, before: map<DispatchId, Trace>,
                  records: map<DispatchId, DispatchRecord>, traces: map<DispatchId, Trace>,
                  done: set<DispatchId>, report: ReconciliationReport, env: SweepAnswers, id: DispatchId,
                  records': map<DispatchId, DispatchRecord>, traces': map<DispatchId, Trace>)
    requires Swept(loaded, before, records, traces, done, report, env) && id in loaded && id !in done
    requires records'.Keys == loaded.Keys == traces'.Keys && Elsewhere(id, records, records')
    requires Elsewhere(id, traces, traces')
    requires loaded[id].cleanup == PendingReconciliation ==> SurvivesCleanup(env.cleanup(id), env.confirm(id))
    requires CleanupOnly(traces[id], traces'[id]) && Reclaims(loaded[id], traces'[id], env.cleanup(id))
    requires records'[id] == env.Reconciled(id, loaded[id])
    ensures Swept(loaded, before, records', traces', done + {id}, env.Counted(id, loaded[id], report), env)
  {
    OnlyCleanedMore(before, traces, id, traces');
    TallyMore(loaded, done, report, env, id);
    SurvivesMore(loaded, done, env, id);
    VisitedMore(loaded, records, traces, done, env, id, records', traces');
  }

  lemma SurvivesMore(loaded: map<DispatchId, DispatchRecord>, done: set<DispatchId>, env: SweepAnswers, id: DispatchId)
    requires env.Survives(loaded, done) && id in loaded && id !in done
    requires loaded[id].cleanup == PendingReconciliation ==> SurvivesCleanup(env.cleanup(id), env.confirm(id))
    ensures env.Survives(loaded, done + {id})
  {
  }

  lemma VisitedMore(loaded: map<DispatchId, DispatchRecord>, records: map<DispatchId, DispatchRecord>,
                    traces: map<DispatchId, Trace>, done: set<DispatchId>, env: SweepAnswers, id: DispatchId,
                    records': map<DispatchId, DispatchRecord>, traces': map<DispatchId, Trace>)
    requires loaded.Keys == traces.Keys == traces'.Keys == records'.Keys && id in loaded && id !in done
    requires Visited(loaded, records, done, env) && AllReclaimed(loaded, traces, done, env)
    requires Elsewhere(id, records, records') && Elsewhere(id, traces, traces')
    requires Reclaims(loaded[id], traces'[id], env.cleanup(id)) && records'[id] == env.Reconciled(id, loaded[id])
    ensures Visited(loaded, records', done + {id}, env) && AllReclaimed(loaded, traces', done + {id}, env)
  {
  }

  /** As many waits succeeded as records were found pending: all of them. */
  lemma AllGone(loaded: map<DispatchId, DispatchRecord>, ids: set<DispatchId>, env: SweepAnswers)
    requires |env.Gone(loaded, ids)| == |FoundPending(loaded, ids)|
    ensures env.Gone(loaded, ids) == FoundPending(loaded, ids)
  {
    var gone, found := env.Gone(loaded, ids), FoundPending(loaded, ids);
    if id :| id in found && id !in gone {
      SubsetIsSmaller(gone, found - {id});
    }
  }

  lemma {:induction false} SubsetIsSmaller(a: set<DispatchId>, b: set<DispatchId>)
    requires a <= b
    ensures |a| <= |b|
  {
    if a != {} {
      var x :| x in a;
      SubsetIsSmaller(a - {x}, b - {x});
    }
  }

  lemma Move(todo: set<DispatchId>, done: set<DispatchId>, id: DispatchId)
    requires todo !! done && id in todo
    ensures (todo - {id}) !! (done + {id}) && (todo - {id}) + (done + {id}) == todo + done
  {
  }

  lemma SweptNothing(records: map<DispatchId, DispatchRecord>, traces: map<DispatchId, Trace>, env: SweepAnswers)
    requires traces.Keys == records.Keys
    ensures Swept(records, traces, records, traces, {}, ReconciliationReport(0, 0), env)
  {
    assert FoundPending(records, {}) == {} && env.Gone(records, {}) == {};
  }

  /** If every record found pending was cleaned up, no sandbox is left. */
  lemma NothingLeft(loaded: map<DispatchId, DispatchRecord>, before: map<DispatchId, Trace>,
                    records: map<DispatchId, DispatchRecord>, traces: map<DispatchId, Trace>,
                    report: ReconciliationReport, env: SweepAnswers)
    requires Swept(loaded, before, records, traces, loaded.Keys, report, env) && report.pending == 0
    requires AllHold(loaded, before, Sound)
    ensures forall id :: id in traces ==> !traces[id].mayExist
  {
    AllGone(loaded, loaded.Keys, env);
    forall id | id in traces
      ensures !traces[id].mayExist
    {
      Claims(id, loaded[id], before[id]);
      if id in FoundPending(loaded, loaded.Keys) {
        assert id in env.Gone(loaded, loaded.Keys);
      }
    }
  }

  /** The invariant of a deployment: every record is sound for what happened under its id, every fenced sandbox id
      was generated, and every cache entry agrees with the first result. */
  ghost predicate ValidState(records: map<DispatchId, DispatchRecord>, traces: map<DispatchId, Trace>,
                             caches: map<ProcessId, map<DispatchId, CommandResult>>, nextSandbox: nat)
  {
    && traces.Keys == records.Keys
    && AllHold(records, traces, Sound)
    && Generated(traces, nextSandbox)
    && CachesAgree(caches, traces)
  }

  ghost predicate AllHold(records: map<DispatchId, DispatchRecord>, traces: map<DispatchId, Trace>,
                          holds: (DispatchId, DispatchRecord, Trace) -> bool)
    requires traces.Keys == records.Keys
  {
    forall id :: id in records ==> holds(id, records[id], traces[id])
  }

  ghost predicate Generated(traces: map<DispatchId, Trace>, nextSandbox: nat) {
    forall id :: id in traces && traces[id].sandbox.Some? ==> traces[id].sandbox.value < nextSandbox
  }

  ghost predicate CachesAgree(caches: map<ProcessId, map<DispatchId, CommandResult>>, traces: map<DispatchId, Trace>) {
    forall p, id :: p in caches && id in caches[p] ==> id in traces && CacheAgrees(caches[p][id], traces[id])
  }

  lemma AllHoldUpdate(records: map<DispatchId, DispatchRecord>, traces: map<DispatchId, Trace>,
                      holds: (DispatchId, DispatchRecord, Trace) -> bool, id: DispatchId, r: DispatchRecord, t: Trace)
    requires traces.Keys == records.Keys && AllHold(records, traces, holds) && holds(id, r, t)
    ensures AllHold(records[id := r], traces[id := t], holds)
  {
  }

  lemma CachesAgreeUpdate(caches: map<ProcessId, map<DispatchId, CommandResult>>, traces: map<DispatchId, Trace>,
                          id: DispatchId, t: Trace)
    requires CachesAgree(caches, traces) && (id in traces ==> Grows(traces[id], t))
    ensures CachesAgree(caches, traces[id := t])
  {
  }

  lemma AdvancedUpdate(records: map<DispatchId, DispatchRecord>, traces: map<DispatchId, Trace>, id: DispatchId,
                       r: DispatchRecord, t: Trace)
    requires id in traces ==> Grows(traces[id], t)
    ensures Advanced(id, records, traces, records[id := r], traces[id := t])
  {
  }

  lemma ValidUpdate(records: map<DispatchId, DispatchRecord>, traces: map<DispatchId, Trace>,
                    caches: map<ProcessId, map<DispatchId, CommandResult>>, nextSandbox: nat,
                    id: DispatchId, r: DispatchRecord, t: Trace)
    requires ValidState(records, traces, caches, nextSandbox) && Sound(id, r, t)
    requires t.sandbox.Some? ==> t.sandbox.value < nextSandbox
    requires id in traces ==> Grows(traces[id], t)
    ensures ValidState(records[id := r], traces[id := t], caches, nextSandbox)
    ensures Advanced(id, records, traces, records[id := r], traces[id := t])
  {
    AdvancedUpdate(records, traces, id, r, t);
    AllHoldUpdate(records, traces, Sound, id, r, t);
    CachesAgreeUpdate(caches, traces, id, t);
  }

  /** The host was called and the process died before it heard back: sound, and dispatched. */
  lemma LostHostCall(id: DispatchId, command: EffectiveCommand, response: Json) returns (r: DispatchRecord, t: Trace)
    requires Representable(command) && ValidateResponse(id, response) == Success(Allow)
    ensures Sound(id, r, t) && Dispatched(t) && r.digest == Encode(command) && t.sandbox.None?
  {
    SoundNew(id, Encode(command));
    r, t := NewRecord(id, Encode(command)), NOTHING.(governed := Some(command), answer := Some(response));
    SoundGoverned(id, r, command, Some(response));
    SoundHostFence(id, r, t, Authoritative(Allow, response));
    r := r.SelectHost(Authoritative(Allow, response));
    SoundCall(id, r, t, HostCall(command), None);
    t := t.(calls := [HostCall(command)], heard := None);
  }

  /** The replies of calls that are turned away do understate: here a command handed to the host and not heard of
      again is reported as never dispatched while the directory cannot be read. */
  lemma UnderstatementIsReal()
    returns (records: map<DispatchId, DispatchRecord>, traces: map<DispatchId, Trace>, command: Command,
             limits: CommandSizeLimits)
    ensures ValidState(records, traces, map[], 0)
    ensures command.dispatchId in traces && Dispatched(traces[command.dispatchId])
    ensures !TurnedAway(command, limits, true, records) && TurnedAway(command, limits, false, records)
  {
    limits := CommandSizeLimits(1, 1);
    command := Command("d", [[65]], None, false);
    assert TotalBytes(command.argv) == TotalBytes([]) + 1;
    var response := PlainResponse("d", Allow);
    var r, t := LostHostCall("d", Effective(command), response);
    records, traces := map["d" := r], map["d" := t];
  }

  class Deployment {
    const limits: CommandSizeLimits
    var records: map<DispatchId, DispatchRecord>
    var caches: map<ProcessId, map<DispatchId, CommandResult>>
    var nextSandbox: nat
    ghost var traces: map<DispatchId, Trace>

    ghost predicate Valid()
      reads this
    {
      ValidState(records, traces, caches, nextSandbox)
    }

    constructor (limits: CommandSizeLimits)
      ensures Valid() && this.limits == limits && records == map[] && traces == map[]
    {
      this.limits := limits;
      records, caches, nextSandbox, traces := map[], map[], 0, map[];
    }

    /** Everything outside one id is untouched, and nothing about that id is forgotten. */
    twostate predicate Advances(id: DispatchId)
      reads this
    {
      Advanced(id, old(records), old(traces), records, traces)
    }

    // ---- Effects. Each leaves a valid deployment behind, whether or not the process survives it.

    /** `guard.write`: success makes the record durable; a failure or a crash leaves the old or the new one. */
    method Write(id: DispatchId, r: DispatchRecord, ghost t: Trace, w: StoreAnswer) returns (o: Step<bool>)
      requires Valid() && Sound(id, r, t)
      requires t.sandbox.Some? ==> t.sandbox.value < nextSandbox
      requires id in traces ==> Grows(traces[id], t)
      modifies this`records, this`traces
      ensures Valid() && Advances(id)
      ensures o == if w.survives then Alive(w.Durable()) else Crashed
      ensures records == (if w.applied then old(records)[id := r] else old(records))
      ensures traces == if w.applied then old(traces)[id := t] else old(traces)
    {
      if w.applied {
        ValidUpdate(records, traces, caches, nextSandbox, id, r, t);
        records, traces := records[id := r], traces[id := t];
      }
      return if !w.survives then Crashed else Alive(w.applied && w.synced);
    }

    /** Replaces the trace of one id: something happened in the world. */
    ghost method Happens(id: DispatchId, t: Trace)
      requires Valid() && id in records && Sound(id, records[id], t) && t.sandbox == traces[id].sandbox
      requires Grows(traces[id], t)
      modifies this`traces
      ensures Valid() && Advances(id) && traces == old(traces)[id := t]
    {
      ValidUpdate(records, traces, caches, nextSandbox, id, records[id], t);
      assert records[id := records[id]] == records;
      traces := traces[id := t];
    }

    method Govern(id: DispatchId, command: EffectiveCommand, a: Answer<Option<Json>>) returns (o: Step<Option<Json>>)
      requires Valid() && id in records && traces[id] == NOTHING
      requires records[id].digest == Encode(command) && Representable(command)
      modifies this`traces
      ensures Valid()
      ensures Advances(id)
      ensures o == if a.Says? then Alive(a.value) else Crashed
      ensures a == Dies(false) ==> traces == old(traces)
      ensures a != Dies(false) ==>
              traces == old(traces)[id :=
                                    NOTHING.(governed := Some(command), answer := if a.Says? then a.value else None)]
    {
      if a == Dies(false) {
        return Crashed;
      }
      ghost var answer := if a.Says? then a.value else None;
      SoundGoverned(id, records[id], command, answer);
      Happens(id, traces[id].(governed := Some(command), answer := answer));
      return if a.Says? then Alive(a.value) else Crashed;
    }

    method HostExecute(id: DispatchId, command: EffectiveCommand, a: Answer<Result<ExecCompleted, HostFailure>>)
      returns (o: Step<Result<ExecCompleted, HostFailure>>)
      requires Valid() && id in records && traces[id].calls == [] && traces[id].first.None?
      requires traces[id].governed == Some(command) && Accepted(id, traces[id], Allow)
      requires records[id].dispatch == MaybeDispatched
      modifies this`traces
      ensures Valid() && Advances(id)
      ensures o == if a.Says? then Alive(a.value) else Crashed
      ensures a == Dies(false) ==> traces == old(traces)
      ensures a != Dies(false) ==>
              traces == old(traces)[id := old(traces[id]).(calls := [HostCall(command)],
                                                           heard := if a.Says? then Some(FromHost(a.value)) else None)]
    {
      if a == Dies(false) {
        return Crashed;
      }
      ghost var heard := if a.Says? then Some(FromHost(a.value)) else None;
      SoundCall(id, records[id], traces[id], HostCall(command), heard);
      Happens(id, traces[id].(calls := [HostCall(command)], heard := heard));
      return if a.Says? then Alive(a.value) else Crashed;
    }

    method SandboxCreate(id: DispatchId, a: Answer<CreateAnswer>) returns (o: Step<CreateAnswer>)
      requires Valid() && id in records && traces[id].sandbox.Some? && Accepted(id, traces[id], Constrain)
      requires traces[id].creates == 0 && traces[id].calls == [] && !traces[id].absent && traces[id].first.None?
      requires records[id].cleanup == PendingReconciliation && traces[id].created.None?
      modifies this`traces
      ensures Valid() && Advances(id)
      ensures o == if a.Says? then Alive(a.value) else Crashed
      ensures a == Dies(false) ==> traces == old(traces)
      ensures a != Dies(false) ==>
              traces == old(traces)[id := old(traces[id]).(creates := 1,
                                                           created := if a.Says? then Some(a.value) else None,
                                                           mayExist := a.Dies? || a.value.CreatedOk? ||
                                                                       a.value.MaybeCreated?)]
    {
      if a == Dies(false) {
        return Crashed;
      }
      // The runtime contract: an answer that nothing of this request exists is truthful.
      ghost var mayExist := a.Dies? || a.value.CreatedOk? || a.value.MaybeCreated?;
      ghost var created := if a.Says? then Some(a.value) else None;
      SoundCreate(id, records[id], traces[id], created, mayExist);
      Happens(id, traces[id].(creates := 1, created := created, mayExist := mayExist));
      return if a.Says? then Alive(a.value) else Crashed;
    }

    method SandboxWaitReady(id: DispatchId, a: Answer<ReadyAnswer>) returns (o: Step<ReadyAnswer>)
      requires Valid() && id in records && traces[id].calls == [] && traces[id].ready.None?
      modifies this`traces
      ensures Valid() && Advances(id)
      ensures o == if a.Says? then Alive(a.value) else Crashed
      ensures o.Alive? ==> traces == old(traces)[id := old(traces[id]).(ready := Some(o.value))]
    {
      if a.Dies? {
        return Crashed;
      }
      SoundReady(id, records[id], traces[id], a.value);
      Happens(id, traces[id].(ready := Some(a.value)));
      return Alive(a.value);
    }

    method SandboxExec(id: DispatchId, command: EffectiveCommand, a: Answer<Result<ExecCompleted, SandboxFailure>>)
      returns (o: Step<Result<ExecCompleted, SandboxFailure>>)
      requires Valid() && id in records && traces[id].calls == [] && traces[id].first.None?
      requires traces[id].governed == Some(command) && Accepted(id, traces[id], Constrain)
      requires traces[id].sandbox.Some? && traces[id].creates == 1 && Attested(traces[id])
      requires records[id].dispatch == MaybeDispatched
      modifies this`traces
      ensures Valid() && Advances(id)
      ensures o == if a.Says? then Alive(a.value) else Crashed
      ensures a == Dies(false) ==> traces == old(traces)
      ensures a != Dies(false) ==>
              traces == old(traces)[id :=
                                    old(traces[id]).(calls := [SandboxCall(command, old(traces[id]).sandbox.value)],
                                                     heard := if a.Says? then Some(FromSandbox(a.value)) else None)]
    {
      if a == Dies(false) {
        return Crashed;
      }
      ghost var heard := if a.Says? then Some(FromSandbox(a.value)) else None;
      ghost var call := SandboxCall(command, traces[id].sandbox.value);
      SoundCall(id, records[id], traces[id], call, heard);
      Happens(id, traces[id].(calls := [call], heard := heard));
      return if a.Says? then Alive(a.value) else Crashed;
    }

    /** `cleanup`: request deletion of the retained id, then wait for terminal absence. */
    method Cleanup(id: DispatchId, target: nat, a: Answer<bool>) returns (o: Step<CleanupState>)
      requires Valid() && id in records && traces[id].sandbox == Some(target)
      modifies this`traces
      ensures Valid() && Advances(id)
      ensures id in traces && CleanupOnly(old(traces[id]), traces[id]) && traces[id].replay == old(traces[id]).replay
      ensures o == if a.Says? then Alive(CleanupAfter(a)) else Crashed
      ensures a == Dies(false) ==> traces == old(traces)
      ensures a != Dies(false) ==> traces == old(traces)[id := Cleaned(old(traces)[id], target, a == Says(true))]
    {
      if a == Dies(false) {
        return Crashed;
      }
      var gone := a.Says? && a.value;
      SoundCleanup(id, records[id], traces[id], target, gone);
      Happens(id, Cleaned(traces[id], target, gone));
      return if a.Dies? then Crashed else Alive(if gone then ConfirmedAbsent else PendingReconciliation);
    }

    /** The first result of an id is given out. */
    ghost method Answered(id: DispatchId, result: CommandResult)
      requires Valid() && id in records && traces[id].first.None?
      requires Sound(id, records[id], traces[id].(first := Some(result)))
      modifies this`traces
      ensures Valid() && Advances(id) && traces == old(traces)[id := old(traces)[id].(first := Some(result))]
    {
      Happens(id, traces[id].(first := Some(result)));
    }

    // ---- The dispatcher.

    /** Insertion into the terminal cache of one process. */
    method Remember(pid: ProcessId, id: DispatchId, result: CommandResult)
      requires Valid() && id in traces && CacheAgrees(result, traces[id])
      modifies this`caches
      ensures Valid() && CachedAt(caches, pid, id) == Some(result)
      ensures forall p: ProcessId, i :: p != pid || i != id ==> CachedAt(caches, p, i) == CachedAt(old(caches), p, i)
    {
      var cache := if pid in caches then caches[pid] else map[];
      caches := caches[pid := cache[id := result]];
    }

    /** The closing write and the answer that follows it. */
    method Settle(id: DispatchId, record: DispatchRecord, result: CommandResult, w: StoreAnswer)
      returns (o: Step<CommandResult>)
      requires Valid() && id in records && Closes(id, records[id], traces[id], record, result)
      modifies this`records, this`traces
      ensures Valid() && Advances(id)
      ensures o == Settled(w, result)
      ensures o.Alive? ==> id in traces && traces[id] == old(traces)[id].(first := Some(o.value))
      ensures w.applied ==> records == old(records)[id := record.Close(result)]
    {
      ghost var durable, t := records[id], traces[id];
      SoundClose(id, durable, t, record, result);
      var written :- Write(id, record.Close(result), t, w);
      var answer := if written then result else SetErrorIfNone(result, WRITE_FAILED);
      SoundAnswer(id, durable, t, record, result, records[id], answer);
      Answered(id, answer);
      o := Alive(answer);
    }

    /** `finish`: close the record, remember the result, give it out. */
    method Finish(pid: ProcessId, id: DispatchId, record: DispatchRecord, result: CommandResult, w: StoreAnswer)
      returns (o: Step<CommandResult>)
      requires Valid() && id in records && Closes(id, records[id], traces[id], record, result)
      modifies this`records, this`traces, this`caches
      ensures Valid() && Advances(id)
      ensures o == Settled(w, result)
      ensures o.Alive? ==> id in traces && traces[id] == old(traces)[id].(first := Some(o.value))
      ensures w.applied ==> records == old(records)[id := record.Close(result)]
      ensures o.Alive? ==> CachedAt(caches, pid, id) == Some(o.value)
    {
      var answer :- Settle(id, record, result, w);
      Remember(pid, id, answer);
      o := Alive(answer);
    }

    /** `execute_host`. */
    method ExecuteHost(id: DispatchId, g: GovernanceOutcome, command: EffectiveCommand, record: DispatchRecord,
                       env: CallAnswers)
      returns (o: Step<CommandResult>)
      requires Valid() && id in records && records[id] == record && record.stage == HostDispatchPossible
      requires record.dispatch == MaybeDispatched
      requires traces[id].calls == [] && Unanswered(traces[id]) && traces[id].sandbox.None?
      requires traces[id].governed == Some(command) && Accepted(id, traces[id], Allow)
      modifies this`traces
      ensures Valid() && Advances(id)
      ensures o == HostOutcome(id, g, env)
      ensures o.Alive? ==> id in traces && Closes(id, record, traces[id], record, o.value)
      ensures o.Alive? ==>
              traces[id] ==
              old(traces)[id].(calls := [HostCall(command)], heard := Some(FromHost(env.host.value)))
    {
      Claims(id, record, traces[id]);
      var answer :- HostExecute(id, command, env.host);
      o := Alive(HostResult(id, g, answer));
    }

    /** The sandbox is given up before anything was dispatched in it. Where the source does, a confirmed cleanup also
        goes into the in-memory record, whose cleanup state the closing write sets from the result in any case. */
    method Abandon(id: DispatchId, g: GovernanceOutcome, sandbox: nat, record: DispatchRecord, error: GovernedError,
                   confirms: bool, a: Answer<bool>)
      returns (o: Step<Closing>)
      requires Valid() && id in records && traces[id].sandbox == Some(sandbox) && traces[id].calls == []
      requires Unanswered(traces[id])
      requires record.dispatchId == id && record.digest == records[id].digest && record.cleanupId == Some(sandbox)
      requires records[id].stage != Terminal
      modifies this`traces
      ensures Valid() && Advances(id)
      ensures o.Alive? <==> a.Says?
      ensures o.Alive? ==> id in traces && ClosesInSandbox(id, records[id], traces[id], g, o.value)
      ensures o.Alive? ==> o.value.result == Undispatched(id, g, Sandbox, CleanupAfter(a), Some(error))
      ensures o.Alive? ==> traces[id] == Cleaned(old(traces)[id], sandbox, a.value)
    {
      Claims(id, records[id], traces[id]);
      var cleanup :- Cleanup(id, sandbox, a);
      var moved := if confirms && cleanup == ConfirmedAbsent then record.CleanupConfirmed() else record;
      o := Alive(Closing(moved, Undispatched(id, g, Sandbox, cleanup, Some(error))));
      Claims(id, records[id], traces[id]);
    }

    /** The sandbox is given up, which concludes `execute_sandbox`. */
    method GiveUp(id: DispatchId, g: GovernanceOutcome, command: EffectiveCommand, sandbox: nat, record: DispatchRecord,
                  error: GovernedError, confirms: bool, env: SandboxAnswers)
      returns (o: Step<Closing>)
      requires Valid() && id in records && InSandbox(id, traces[id], command, sandbox) && traces[id].creates == 1
      requires record.dispatchId == id && record.digest == records[id].digest && record.cleanupId == Some(sandbox)
      requires records[id].stage != Terminal
      requires !env.Executes() && env.MayLeaveSandbox() && env.Reason() == error
      requires env.Survives() <==> env.cleanup.Says?
      modifies this`traces
      ensures Valid() && Advances(id)
      ensures Concluded(id, g, command, sandbox, env, records, traces, o)
    {
      ghost var t := traces[id];
      o := Abandon(id, g, sandbox, record, error, confirms, env.cleanup);
      ConcludedEarly(id, g, command, sandbox, env, records, traces, t, error, o);
    }

    /** `exec` in the ready sandbox, then cleanup whatever the attempt gave. */
    method RunInSandbox(id: DispatchId, g: GovernanceOutcome, command: EffectiveCommand, sandbox: nat,
                        record: DispatchRecord, env: SandboxAnswers)
      returns (o: Step<Closing>)
      requires Valid() && id in records && InSandbox(id, traces[id], command, sandbox) && traces[id].creates == 1
      requires Attested(traces[id])
      requires records[id] == record && record.stage == SandboxDispatchPossible && record.dispatch == MaybeDispatched
      modifies this`traces
      ensures Valid() && Advances(id)
      ensures o.Alive? <==> env.exec.Says? && env.cleanup.Says?
      ensures o.Alive? ==> id in traces && ClosesInSandbox(id, record, traces[id], g, o.value)
      ensures o.Alive? ==> o.value == AfterRun(id, record, g, env.exec.value, CleanupAfter(env.cleanup))
      ensures o.Alive? ==>
              traces[id] == Cleaned(old(traces)[id].(calls := [SandboxCall(command, sandbox)],
                                                     heard := Some(FromSandbox(env.exec.value))),
                                    sandbox, env.cleanup.value)
    {
      ghost var t := traces[id];
      var attempt :- SandboxExec(id, command, env.exec);
      ghost var called := traces[id];
      var cleanup :- Cleanup(id, sandbox, env.cleanup);
      RunCloses(id, record, t, called, traces[id], g, command, sandbox, attempt, env.cleanup.value);
      o := Alive(AfterRun(id, record, g, attempt, cleanup));
    }

    /** The second fence: only a durable record that admits dispatch lets the command run. */
    method DispatchWhenReady(id: DispatchId, g: GovernanceOutcome, command: EffectiveCommand, sandbox: nat,
                             record: DispatchRecord, env: SandboxAnswers)
      returns (o: Step<Closing>)
      requires Valid() && id in records && InSandbox(id, traces[id], command, sandbox) && traces[id].creates == 1
      requires records[id] == record && record.stage == SandboxReady && Attested(traces[id])
      requires env.Attests() && env.readyWrite.Durable()
      modifies this`records, this`traces
      ensures Valid() && Advances(id)
      ensures Concluded(id, g, command, sandbox, env, records, traces, o)
    {
      Claims(id, record, traces[id]);
      SoundProgress(id, record, traces[id]);
      var possible := record.DispatchPossible();
      var written :- Write(id, possible, traces[id], env.dispatchWrite);
      if written {
        o := RunInSandbox(id, g, command, sandbox, possible, env);
        ConcludedRun(id, g, command, sandbox, env, records, traces, o);
      } else {
        o := GiveUp(id, g, command, sandbox, possible, WRITE_FAILED, false, env);
      }
    }

    /** The first fence after readiness; a failed write gives the sandbox up. */
    method DispatchInSandbox(id: DispatchId, g: GovernanceOutcome, command: EffectiveCommand, sandbox: nat,
                             record: DispatchRecord, env: SandboxAnswers)
      returns (o: Step<Closing>)
      requires Valid() && id in records && InSandbox(id, traces[id], command, sandbox) && traces[id].creates == 1
      requires records[id] == record && record.stage == SandboxCreatePossible && Attested(traces[id])
      requires env.Attests()
      modifies this`records, this`traces
      ensures Valid() && Advances(id)
      ensures Concluded(id, g, command, sandbox, env, records, traces, o)
    {
      Claims(id, record, traces[id]);
      SoundProgress(id, record, traces[id]);
      var ready := record.ReadyForDispatch();
      var written :- Write(id, ready, traces[id], env.readyWrite);
      if written {
        o := DispatchWhenReady(id, g, command, sandbox, ready, env);
      } else {
        o := GiveUp(id, g, command, sandbox, ready, WRITE_FAILED, false, env);
      }
    }

    /** `execute_sandbox`: the result, and the in-memory record as far as it was moved on. The command is executed
        exactly after a successful create, an attested readiness and two durable fences; otherwise the result names
        what was missing; and whatever may have been created is deleted. */
    method ExecuteSandbox(id: DispatchId, g: GovernanceOutcome, command: EffectiveCommand, sandbox: nat,
                          record: DispatchRecord, env: SandboxAnswers)
      returns (o: Step<Closing>)
      requires Valid() && id in records && InSandbox(id, traces[id], command, sandbox) && traces[id].creates == 0
      requires !traces[id].mayExist && traces[id].created.None? && traces[id].ready.None?
      requires records[id] == record && record.stage == SandboxCreatePossible && record.dispatch == NeverDispatched
      requires record.cleanup == PendingReconciliation
      modifies this`records, this`traces
      ensures Valid() && Advances(id)
      ensures Concluded(id, g, command, sandbox, env, records, traces, o)
    {
      Claims(id, record, traces[id]);
      var created :- SandboxCreate(id, env.create);
      if created.MaybeCreated? {
        o := GiveUp(id, g, command, sandbox, record, CREATE_FAILED, true, env);
        return;
      }
      if !created.CreatedOk? {
        var closing := Closing(record, Undispatched(id, g, Sandbox, NotNeeded, Some(CREATE_FAILED)));
        ConcludedUncreated(id, g, command, sandbox, env, records, traces, closing);
        return Alive(closing);
      }
      o := AwaitReady(id, g, command, sandbox, record, env);
    }

    /** The created sandbox is waited for and used only if its policy is attested. */
    method AwaitReady(id: DispatchId, g: GovernanceOutcome, command: EffectiveCommand, sandbox: nat,
                      record: DispatchRecord, env: SandboxAnswers)
      returns (o: Step<Closing>)
      requires Valid() && id in records && InSandbox(id, traces[id], command, sandbox) && traces[id].creates == 1
      requires traces[id].created == Some(CreatedOk) && traces[id].ready.None? && env.create == Says(CreatedOk)
      requires records[id] == record && record.stage == SandboxCreatePossible
      modifies this`records, this`traces
      ensures Valid() && Advances(id)
      ensures Concluded(id, g, command, sandbox, env, records, traces, o)
    {
      Claims(id, record, traces[id]);
      var ready :- SandboxWaitReady(id, env.ready);
      if ready.ReadyOk? && ready.policyMatches {
        o := DispatchInSandbox(id, g, command, sandbox, record, env);
      } else {
        var error := if ready.ReadyOk? || ready.policyMismatch then ATTESTATION_FAILED else READINESS_FAILED;
        o := GiveUp(id, g, command, sandbox, record, error, true, env);
      }
    }

    /** Absence is proved: record it in memory, durably if the write succeeds, and in the cache. */
    method Confirm(pid: ProcessId, id: DispatchId, record: DispatchRecord, w: StoreAnswer)
      returns (o: Step<DispatchRecord>)
      requires Valid() && id in records && records[id] == record && record.cleanup == PendingReconciliation
      requires traces[id].absent
      modifies this`records, this`traces, this`caches
      ensures Valid() && Advances(id) && records.Keys == old(records.Keys) && traces == old(traces)
      ensures o == if w.survives then Alive(record.CleanupConfirmed()) else Crashed
      ensures records[id] == if w.applied then record.CleanupConfirmed() else record
      ensures o.Alive? ==> Updated(old(caches), caches, pid, id)
    {
      var confirmed := record.CleanupConfirmed();
      SoundConfirmed(id, record, traces[id]);
      var _ :- Write(id, confirmed, traces[id], w);
      ConfirmCached(pid, id);
      o := Alive(confirmed);
    }

    /** The cached result, if any, learns that cleanup is confirmed. */
    method ConfirmCached(pid: ProcessId, id: DispatchId)
      requires Valid() && id in traces && traces[id].absent
      modifies this`caches
      ensures Valid() && Updated(old(caches), caches, pid, id)
    {
      if pid in caches && id in caches[pid] {
        Remember(pid, id, caches[pid][id].(cleanup := ConfirmedAbsent));
      }
    }

    /** `reconcile_record`: delete the retained sandbox; if the wait succeeds, and only then, record its absence, here,
        durably and in the cache. */
    method ReconcileRecord(pid: ProcessId, id: DispatchId, record: DispatchRecord, a: Answer<bool>, w: StoreAnswer)
      returns (o: Step<DispatchRecord>)
      requires Valid() && id in records && records[id] == record && record.cleanup == PendingReconciliation
      modifies this`records, this`traces, this`caches
      ensures Valid() && Advances(id)
      ensures records.Keys == old(records.Keys) && CleanupOnly(old(traces)[id], traces[id])
      ensures traces[id].replay == old(traces)[id].replay
      ensures o == if !SurvivesCleanup(a, w) then Crashed
                   else Alive(if a.value then record.CleanupConfirmed() else record)
      ensures a.Says? ==>
                && record.cleanupId.Some? && record.cleanupId.value in traces[id].deletes
                && traces[id] == Cleaned(old(traces)[id], record.cleanupId.value, a.value)
      ensures records[id] == if a == Says(true) && w.applied then record.CleanupConfirmed() else record
      ensures o.Alive? ==> if a.value then Updated(old(caches), caches, pid, id) else caches == old(caches)
    {
      Claims(id, record, traces[id]);
      var cleanup :- Cleanup(id, record.cleanupId.value, a);
      if cleanup == ConfirmedAbsent {
        o := Confirm(pid, id, record, w);
      } else {
        o := Alive(record);
      }
    }

    /** A call for an id whose record exists: the cached result, or cleanup and a replay. */
    method Resume(pid: ProcessId, id: DispatchId, env: CallAnswers) returns (o: Step<CommandResult>)
      requires Valid() && id in records
      modifies this`records, this`traces, this`caches
      ensures Valid() && Advances(id)
      ensures id in traces && CleanupOnly(old(traces)[id], traces[id])
      ensures o == match CachedAt(old(caches), pid, id)
                   case Some(c) => Alive(c)
                   case None => RecordReply(old(records)[id], env)
      ensures CachedAt(old(caches), pid, id).Some? ==> records == old(records) && traces == old(traces)
      ensures CachedAt(old(caches), pid, id).None? ==> Reclaims(old(records)[id], traces[id], env.cleanup)
      ensures o.Alive? ==> Fair(id, traces[id], o.value) && Repeats(traces[id], o.value)
    {
      if pid in caches && id in caches[pid] {
        CachedIsFair(id, records[id], traces[id], caches[pid][id]);
        o := Alive(caches[pid][id]);
      } else {
        o := ReplayFromRecord(pid, id, env);
      }
    }

    /** Finish a pending cleanup if possible; the record as it then stands in memory. */
    method BringUpToDate(pid: ProcessId, id: DispatchId, env: CallAnswers) returns (o: Step<DispatchRecord>)
      requires Valid() && id in records
      modifies this`records, this`traces, this`caches
      ensures Valid() && Advances(id)
      ensures id in traces && CleanupOnly(old(traces)[id], traces[id])
      ensures o == UpToDate(old(records)[id], env)
      ensures o.Alive? ==>
              o.value == InMemory(records[id], o.value != records[id]) && (o.value != records[id] ==> traces[id].absent)
      ensures Reclaims(old(records)[id], traces[id], env.cleanup)
    {
      if records[id].cleanup == PendingReconciliation {
        o := ReconcileRecord(pid, id, records[id], env.cleanup, env.confirm);
      } else {
        o := Alive(records[id]);
      }
    }

    /** Finish a pending cleanup if possible, then replay. */
    method ReplayFromRecord(pid: ProcessId, id: DispatchId, env: CallAnswers) returns (o: Step<CommandResult>)
      requires Valid() && id in records
      modifies this`records, this`traces, this`caches
      ensures Valid() && Advances(id)
      ensures id in traces && CleanupOnly(old(traces)[id], traces[id])
      ensures o == RecordReply(old(records)[id], env)
      ensures o.Alive? ==> Fair(id, traces[id], o.value)
      ensures o.Alive? ==> traces[id].replay.Some? && o.value == traces[id].replay.value.(cleanup := o.value.cleanup)
      ensures Reclaims(old(records)[id], traces[id], env.cleanup)
    {
      UpToDateReplays(records[id], env);
      var now :- BringUpToDate(pid, id, env);
      Replayed(id, now != records[id]);
      o := Alive(now.Replay());
    }

    /** A replay is given out. */
    ghost method Replayed(id: DispatchId, confirmed: bool)
      requires Valid() && id in records && (confirmed ==> traces[id].absent)
      modifies this`traces
      ensures Valid() && Advances(id) && id in traces
      ensures traces[id] == WithReplay(old(traces)[id], ReplayOf(records[id], confirmed))
      ensures Fair(id, traces[id], ReplayOf(records[id], confirmed))
      ensures ReplayOf(records[id], confirmed) ==
              traces[id].replay.value.(cleanup := ReplayOf(records[id], confirmed).cleanup)
    {
      SoundReplay(id, records[id], traces[id], confirmed);
      Happens(id, WithReplay(traces[id], ReplayOf(records[id], confirmed)));
    }

    /** A fence write failed: nothing further is done. */
    ghost method Refused(id: DispatchId, executor: SelectedExecutor)
      requires Valid() && id in records && records[id].stage != Terminal
      requires Unanswered(traces[id]) && traces[id].calls == [] && !traces[id].mayExist
      modifies this`traces
      ensures Valid() && Advances(id) && traces[id] == old(traces)[id].(first := Some(PersistenceResult(id, executor)))
      ensures Fair(id, traces[id], PersistenceResult(id, executor))
    {
      SoundRefusal(id, records[id], traces[id], executor);
      Answered(id, PersistenceResult(id, executor));
    }

    /** The ALLOW branch: the host is called exactly behind a durable fence. */
    method OnAllow(pid: ProcessId, id: DispatchId, g: GovernanceOutcome, command: EffectiveCommand, env: CallAnswers)
      returns (o: Step<CommandResult>)
      requires Valid() && id in records && Governed(id, traces[id], command, Allow)
      requires records[id].stage == GovernancePending
      modifies this`records, this`traces, this`caches
      ensures Valid() && Advances(id)
      ensures o == Fenced(id, Host, env, HostOutcome(id, g, env))
      ensures o.Alive? ==> id in traces && traces[id].governed == Some(command) && traces[id].first == Some(o.value)
      ensures o.Alive? ==> traces[id].creates == 0
      ensures o.Alive? ==> traces[id].calls == if env.fence.Durable() then [HostCall(command)] else []
      ensures o.Alive? && env.fence.Durable() ==> CachedAt(caches, pid, id) == Some(o.value)
    {
      var fenced := records[id].SelectHost(g);
      SoundHostFence(id, records[id], traces[id], g);
      var written :- Write(id, fenced, traces[id], env.fence);
      if !written {
        Refused(id, Host);
        return Alive(PersistenceResult(id, Host));
      }
      o := AllowFenced(pid, id, g, command, fenced, env);
    }

    method AllowFenced(pid: ProcessId, id: DispatchId, g: GovernanceOutcome, command: EffectiveCommand,
                       fenced: DispatchRecord, env: CallAnswers)
      returns (o: Step<CommandResult>)
      requires Valid() && id in records && Governed(id, traces[id], command, Allow)
      requires records[id] == fenced && fenced.stage == HostDispatchPossible && fenced.dispatch == MaybeDispatched
      requires env.fence.Durable()
      modifies this`records, this`traces, this`caches
      ensures Valid() && Advances(id)
      ensures o == Fenced(id, Host, env, HostOutcome(id, g, env))
      ensures o.Alive? ==> id in traces && traces[id].governed == Some(command) && traces[id].first == Some(o.value)
      ensures o.Alive? ==> traces[id].creates == 0 && traces[id].calls == [HostCall(command)]
      ensures o.Alive? ==> CachedAt(caches, pid, id) == Some(o.value)
    {
      var result :- ExecuteHost(id, g, command, fenced, env);
      o := Finish(pid, id, fenced, result, env.close);
    }

    /** The CONSTRAIN branch: the fence also records the cleanup id. */
    method OnConstrain(pid: ProcessId, id: DispatchId, g: GovernanceOutcome, command: EffectiveCommand,
                       env: CallAnswers)
      returns (o: Step<CommandResult>)
      requires Valid() && id in records && Governed(id, traces[id], command, Constrain)
      requires records[id].stage == GovernancePending
      requires records[id].dispatch == NeverDispatched
      modifies this`records, this`traces, this`caches, this`nextSandbox
      ensures Valid() && Advances(id)
      ensures o == Fenced(id, Sandbox, env, SandboxOutcome(id, g, env))
      ensures o.Alive? ==> id in traces && traces[id].governed == Some(command) && traces[id].first == Some(o.value)
      ensures o.Alive? ==> traces[id].creates == (if env.fence.Durable() then 1 else 0)
      ensures o.Alive? ==> (traces[id].calls != [] <==> env.fence.Durable() && env.sandbox.Executes())
      ensures o.Alive? && env.fence.Durable() ==> CachedAt(caches, pid, id) == Some(o.value)
    {
      var sandbox := nextSandbox;
      nextSandbox := nextSandbox + 1;
      var fenced := records[id].SelectSandbox(g, sandbox);
      SoundSandboxFence(id, records[id], traces[id], g, sandbox);
      var written :- Write(id, fenced, traces[id].(sandbox := Some(sandbox)), env.fence);
      if !written {
        Refused(id, Sandbox);
        return Alive(PersistenceResult(id, Sandbox));
      }
      o := ConstrainFenced(pid, id, g, command, sandbox, fenced, env);
    }

    method ConstrainFenced(pid: ProcessId, id: DispatchId, g: GovernanceOutcome, command: EffectiveCommand,
                           sandbox: nat, fenced: DispatchRecord, env: CallAnswers)
      returns (o: Step<CommandResult>)
      requires Valid() && id in records && InSandbox(id, traces[id], command, sandbox) && traces[id].creates == 0
      requires !traces[id].mayExist && traces[id].created.None? && traces[id].ready.None?
      requires records[id] == fenced && fenced.stage == SandboxCreatePossible && fenced.dispatch == NeverDispatched
      requires fenced.cleanup == PendingReconciliation && env.fence.Durable()
      modifies this`records, this`traces, this`caches
      ensures Valid() && Advances(id)
      ensures o == Fenced(id, Sandbox, env, SandboxOutcome(id, g, env))
      ensures o.Alive? ==> id in traces && traces[id].governed == Some(command) && traces[id].first == Some(o.value)
      ensures o.Alive? ==> traces[id].creates == 1 && (traces[id].calls != [] <==> env.sandbox.Executes())
      ensures o.Alive? ==> CachedAt(caches, pid, id) == Some(o.value)
    {
      var closing :- ExecuteSandbox(id, g, command, sandbox, fenced, env.sandbox);
      o := Finish(pid, id, closing.record, closing.result, env.close);
    }

    /** A verdict that lets nothing run, or none at all: the record is closed at once. */
    method Stop(pid: ProcessId, id: DispatchId, record: DispatchRecord, g: GovernanceOutcome,
                error: Option<GovernedError>, env: CallAnswers)
      returns (o: Step<CommandResult>)
      requires Valid() && id in records && records[id] == record && record.stage == GovernancePending
      requires record.dispatch == NeverDispatched && Untouched(traces[id])
      modifies this`records, this`traces, this`caches
      ensures Valid() && Advances(id)
      ensures o == Stopped(id, g, error, env)
      ensures o.Alive? ==> id in traces && traces[id] == old(traces)[id].(first := Some(o.value))
      ensures o.Alive? ==> CachedAt(caches, pid, id) == Some(o.value)
    {
      Claims(id, record, traces[id]);
      o := Finish(pid, id, record, Undispatched(id, g, NoExecutor, NotNeeded, error), env.close);
    }

    /** `execute_locked` from governance's answer on: each answer takes its own branch, and only an accepted ALLOW or
        CONSTRAIN behind a durable fence lets anything be called or created. */
    method Route(pid: ProcessId, id: DispatchId, command: EffectiveCommand, record: DispatchRecord,
                 answer: Option<Json>, env: CallAnswers)
      returns (o: Step<CommandResult>)
      requires Valid() && id in records && records[id] == record && record == NewRecord(id, Encode(command))
      requires traces[id] == NOTHING.(governed := Some(command), answer := answer)
      modifies this`records, this`traces, this`caches, this`nextSandbox
      ensures Valid() && Advances(id)
      ensures o == GovernedReply(id, answer, env)
      ensures o.Alive? ==> id in traces && traces[id].governed == Some(command) && traces[id].first == Some(o.value)
      ensures o.Alive? ==> Conducted(id, answer, traces[id], env, o.value, caches, pid)
    {
      if answer.None? {
        o := Stop(pid, id, record, Unavailable, Some(GovernedError(GovernanceUnavailable, GovernancePhase)), env);
        return;
      }
      match ValidateResponse(id, answer.value)
      case Failure(reason) =>
        o := Stop(pid, id, record, Rejected(reason), Some(GovernedError(GovernanceRejected, GovernancePhase)), env);
      case Success(verdict) => o := Obey(pid, id, command, record, answer, verdict, env);
    }

    /** An accepted verdict takes its branch. */
    method Obey(pid: ProcessId, id: DispatchId, command: EffectiveCommand, record: DispatchRecord,
                answer: Option<Json>, verdict: Verdict, env: CallAnswers)
      returns (o: Step<CommandResult>)
      requires Valid() && id in records && records[id] == record && record == NewRecord(id, Encode(command))
      requires traces[id] == NOTHING.(governed := Some(command), answer := answer)
      requires answer.Some? && ValidateResponse(id, answer.value) == Success(verdict)
      modifies this`records, this`traces, this`caches, this`nextSandbox
      ensures Valid() && Advances(id)
      ensures o == GovernedReply(id, answer, env)
      ensures o.Alive? ==> id in traces && traces[id].governed == Some(command) && traces[id].first == Some(o.value)
      ensures o.Alive? ==> Conducted(id, answer, traces[id], env, o.value, caches, pid)
    {
      var g := Authoritative(verdict, answer.value);
      match verdict {
        case Allow => o := OnAllow(pid, id, g, command, env);
        case Constrain => o := OnConstrain(pid, id, g, command, env);
        case _ => o := Stop(pid, id, record, g, None, env);
      }
      if o.Alive? {
        Conducts(id, answer, verdict, traces[id], env, o.value, caches, pid);
      }
    }

    /** `execute_locked` for an id without a record. */
    method Start(pid: ProcessId, id: DispatchId, command: EffectiveCommand, env: CallAnswers)
      returns (o: Step<CommandResult>)
      requires Valid() && id !in records && Representable(command)
      modifies this`records, this`traces, this`caches, this`nextSandbox
      ensures Valid() && Advances(id)
      ensures o == FreshReply(id, env)
      ensures o.Alive? && id in traces ==> traces[id].first == Some(o.value)
      ensures o.Alive? && id in traces && traces[id].governed.Some? ==> traces[id].governed == Some(command)
      ensures o.Alive? && env.first.Durable() ==>
              id in traces && Conducted(id, env.governance.value, traces[id], env, o.value, caches, pid)
    {
      var digest := FeedHasher(command);
      var record := NewRecord(id, digest);
      SoundNew(id, digest);
      var written :- Write(id, record, NOTHING, env.first);
      if !written {
        if id in records {
          Refused(id, NoExecutor);
        }
        return Alive(PersistenceResult(id, NoExecutor));
      }
      var answer :- Govern(id, command, env.governance);
      o := Route(pid, id, command, record, answer, env);
    }

    /** `execute_locked`. */
    method ExecuteLocked(pid: ProcessId, command: Command, env: CallAnswers) returns (o: Step<CommandResult>)
      requires Valid() && env.locked
      modifies this`records, this`traces, this`caches, this`nextSandbox
      ensures Valid() && Advances(command.dispatchId)
      ensures o == Reply(command, limits, env, Find(old(records), command.dispatchId),
                         CachedAt(old(caches), pid, command.dispatchId))
      ensures TurnedAway(command, limits, env.loaded, old(records)) ==>
              o.Alive? && Uninformed(command.dispatchId, o.value) && records == old(records) && traces == old(traces)
      ensures o.Alive? && !TurnedAway(command, limits, env.loaded, old(records)) && command.dispatchId in traces ==>
              Informed(command, traces[command.dispatchId], o.value)
      ensures !TurnedAway(command, limits, env.loaded, old(records)) && command.dispatchId in old(records)
              && CachedAt(old(caches), pid, command.dispatchId).None? ==>
                command.dispatchId in traces &&
                Reclaims(old(records)[command.dispatchId], traces[command.dispatchId], env.cleanup)
      ensures o.Alive? && !TurnedAway(command, limits, env.loaded, old(records))
              && command.dispatchId !in old(records) && !command.resumeOnly && env.first.Durable() ==>
                command.dispatchId in traces &&
                Conducted(command.dispatchId, env.governance.value, traces[command.dispatchId], env, o.value, caches,
                          pid)
    {
      var id := command.dispatchId;
      var checked := Validate(command.argv, command.timeout, limits);
      if checked.Failure? {
        return Alive(ValidationResult(id, if checked.error == InvalidLength then CommandTooLarge else InvalidCommand));
      }
      if !env.loaded {
        return Alive(PersistenceResult(id, NoExecutor));
      }
      if id in records {
        var digest := FeedHasher(checked.value);
        if records[id].digest != digest {
          return Alive(ValidationResult(id, DigestMismatch));
        }
        if traces[id].governed.Some? {
          DigestIdentifies(id, records[id], traces[id], checked.value);
        }
        o := Resume(pid, id, env);
        return;
      }
      if command.resumeOnly {
        return Alive(ValidationResult(id, DigestMismatch));
      }
      o := Start(pid, id, checked.value, env);
      if o.Alive? && id in records {
        FirstIsFair(id, records[id], traces[id]);
      }
    }

    /** The process dies; its cache dies with it. */
    method Restart(pid: ProcessId)
      requires Valid()
      modifies this`caches
      ensures Valid() && caches == old(caches)[pid := map[]]
    {
      caches := caches[pid := map[]];
    }

    /** `execute_owned`: one whole call by one process, under the directory lock. A command that an executor took is
        reported as never dispatched exactly when the call is turned away before its record is consulted. */
    method Execute(pid: ProcessId, command: Command, env: CallAnswers) returns (o: Step<CommandResult>)
      requires Valid()
      modifies this`records, this`traces, this`caches, this`nextSandbox
      ensures Valid() && Advances(command.dispatchId)
      ensures o == Reply(command, limits, env, Find(old(records), command.dispatchId),
                         CachedAt(old(caches), pid, command.dispatchId))
      ensures TurnedAway(command, limits, env.locked && env.loaded, old(records)) ==>
              o.Alive? && Uninformed(command.dispatchId, o.value) && records == old(records) && traces == old(traces)
      ensures o.Alive? && !TurnedAway(command, limits, env.locked && env.loaded, old(records)) &&
              command.dispatchId in traces ==>
              Informed(command, traces[command.dispatchId], o.value)
      ensures !TurnedAway(command, limits, env.locked && env.loaded, old(records)) && command.dispatchId in old(records)
              && CachedAt(old(caches), pid, command.dispatchId).None? ==>
                command.dispatchId in traces &&
                Reclaims(old(records)[command.dispatchId], traces[command.dispatchId], env.cleanup)
      ensures o.Alive? && !TurnedAway(command, limits, env.locked && env.loaded, old(records))
              && command.dispatchId !in old(records) && !command.resumeOnly && env.first.Durable() ==>
                command.dispatchId in traces &&
                Conducted(command.dispatchId, env.governance.value, traces[command.dispatchId], env, o.value, caches,
                          pid)
      ensures o.Alive? && command.dispatchId in traces && Dispatched(traces[command.dispatchId]) ==>
              (o.value.dispatch == NeverDispatched <==>
               TurnedAway(command, limits, env.locked && env.loaded, old(records)))
    {
      if !env.locked {
        return Alive(PersistenceResult(command.dispatchId, NoExecutor));
      }
      o := ExecuteLocked(pid, command, env);
      if o.Crashed? {
        Restart(pid);
      }
    }

    /** One turn of the loop in `reconcile_all`. */
    method ReconcileOne(pid: ProcessId, id: DispatchId, report: ReconciliationReport, env: SweepAnswers)
      returns (o: Step<ReconciliationReport>)
      requires Valid() && id in records
      modifies this`records, this`traces, this`caches
      ensures Valid() && Advances(id)
      ensures records.Keys == old(records.Keys) && CleanupOnly(old(traces)[id], traces[id])
      ensures o == if old(records)[id].cleanup != PendingReconciliation ||
                      SurvivesCleanup(env.cleanup(id), env.confirm(id))
                   then Alive(env.Counted(id, old(records)[id], report)) else Crashed
      ensures Reclaims(old(records)[id], traces[id], env.cleanup(id))
      ensures records[id] == env.Reconciled(id, old(records)[id])
      ensures o.Alive? ==>
                if old(records)[id].cleanup == PendingReconciliation && env.cleanup(id) == Says(true)
                then Updated(old(caches), caches, pid, id) else caches == old(caches)
    {
      if records[id].cleanup != PendingReconciliation {
        return Alive(report);
      }
      var record :- ReconcileRecord(pid, id, records[id], env.cleanup(id), env.confirm(id));
      o := Alive(if record.cleanup == ConfirmedAbsent then report.(confirmedAbsent := report.confirmedAbsent + 1)
                 else report.(pending := report.pending + 1));
    }

    method ReconcileTurn(pid: ProcessId, id: DispatchId, report: ReconciliationReport, env: SweepAnswers,
                         ghost loaded: map<DispatchId, DispatchRecord>, ghost before: map<DispatchId, Trace>,
                         ghost cached: map<ProcessId, map<DispatchId, CommandResult>>, ghost done: set<DispatchId>)
      returns (o: Step<ReconciliationReport>)
      requires Valid() && id in loaded && id !in done && Swept(loaded, before, records, traces, done, report, env)
      requires CachesTold(cached, caches, pid, env.Gone(loaded, done))
      modifies this`records, this`traces, this`caches
      ensures Valid() && records.Keys == loaded.Keys && OnlyCleaned(before, traces)
      ensures o.Alive? ==> Swept(loaded, before, records, traces, done + {id}, o.value, env)
      ensures o.Alive? ==> CachesTold(cached, caches, pid, env.Gone(loaded, done + {id}))
      ensures o.Crashed? ==> !env.Survives(loaded, loaded.Keys)
    {
      ghost var records0, traces0, caches0 := records, traces, caches;
      o := ReconcileOne(pid, id, report, env);
      if o.Crashed? {
        Restart(pid);
        OnlyCleanedMore(before, traces0, id, traces);
        assert id in FoundPending(loaded, loaded.Keys);
      } else {
        SweptMore(loaded, before, records0, traces0, done, report, env, id, records, traces);
        ToldMore(cached, caches0, caches, pid, loaded, done, env, id);
      }
    }

    /** The loop of `reconcile_all`, over the records as loaded. */
    method Sweep(pid: ProcessId, env: SweepAnswers) returns (o: Step<ReconciliationReport>)
      requires Valid()
      modifies this`records, this`traces, this`caches
      ensures Valid() && records.Keys == old(records.Keys) && OnlyCleaned(old(traces), traces)
      ensures o.Alive? ==> Swept(old(records), old(traces), records, traces, old(records).Keys, o.value, env)
      ensures o.Alive? ==> CachesTold(old(caches), caches, pid, env.Gone(old(records), old(records).Keys))
      ensures o.Crashed? ==> !env.Survives(old(records), old(records).Keys)
    {
      var todo := records.Keys;
      var report := ReconciliationReport(0, 0);
      ghost var loaded, before, cached, done := records, traces, caches, {};
      SweptNothing(loaded, before, env);
      while todo != {}
        invariant Valid() && todo !! done && todo + done == loaded.Keys
        invariant Swept(loaded, before, records, traces, done, report, env)
        invariant CachesTold(cached, caches, pid, env.Gone(loaded, done))
      {
        var id :| id in todo;
        report :- ReconcileTurn(pid, id, report, env, loaded, before, cached, done);
        Move(todo, done, id);
        todo, done := todo - {id}, done + {id};
      }
      assert done == loaded.Keys;
      o := Alive(report);
    }

    /** `reconcile_all`: deletion is requested for every record found pending; each is reported exactly once, as
        confirmed exactly if its wait succeeded; the durable records follow; nothing but cleanup happens anywhere; and a
        report without pending records means that no sandbox is left. */
    method ReconcileAll(pid: ProcessId, env: SweepAnswers)
      returns (o: Step<Result<ReconciliationReport, GovernedError>>)
      requires Valid()
      modifies this`records, this`traces, this`caches
      ensures Valid() && records.Keys == old(records.Keys)
      ensures OnlyCleaned(old(traces), traces)
      ensures !(env.locked && env.loaded) ==>
                && o == Alive(Failure(GovernedError(PersistenceFailed, SandboxReconciliation)))
                && records == old(records) && traces == old(traces) && caches == old(caches)
      ensures env.locked && env.loaded ==> (o.Alive? <==> env.Survives(old(records), old(records).Keys))
      ensures env.locked && env.loaded && o.Alive? ==>
                var found, gone := FoundPending(old(records), old(records).Keys),
                                   env.Gone(old(records), old(records).Keys);
                && o.value.Success? && o.value.value.confirmedAbsent == |gone|
                && o.value.value.confirmedAbsent + o.value.value.pending == |found|
                && CachesTold(old(caches), caches, pid, gone)
                && (forall id :: id in old(records) ==>
                      && Reclaims(old(records)[id], traces[id], env.cleanup(id))
                      && records[id] == env.Reconciled(id, old(records)[id]))
      ensures o.Alive? && o.value.Success? && o.value.value.pending == 0 ==>
              forall id :: id in traces ==> !traces[id].mayExist
    {
      if !env.locked || !env.loaded {
        return Alive(Failure(GovernedError(PersistenceFailed, SandboxReconciliation)));
      }
      ghost var loaded, before := records, traces;
      var report :- Sweep(pid, env);
      if report.pending == 0 {
        NothingLeft(loaded, before, records, traces, report, env);
      }
      o := Alive(Success(report));
    }

    method Perform(call: Call)
      requires Valid()
      modifies this`records, this`traces, this`caches, this`nextSandbox
      ensures Valid()
      ensures forall id :: id in old(traces) ==> id in traces && Grows(old(traces)[id], traces[id])
    {
      match call {
        case ExecuteCall(pid, command, env) => var _ := Execute(pid, command, env);
        case ReconcileCall(pid, answers) => var _ := ReconcileAll(pid, answers);
      }
    }

    /** Any history: any processes calling in any order, with any of them crashing anywhere. */
    method Run(schedule: seq<Call>)
      requires Valid()
      modifies this`records, this`traces, this`caches, this`nextSandbox
      ensures Valid()
      ensures forall id :: id in old(traces) ==> id in traces && Grows(old(traces)[id], traces[id])
      ensures forall id :: id in traces ==> id in records && EveryClaim(id, records[id], traces[id])
      ensures forall p, id :: p in caches && id in caches[p] ==> id in traces && CacheAgrees(caches[p][id], traces[id])
    {
      for i := 0 to |schedule|
        invariant Valid()
        invariant forall id :: id in old(traces) ==> id in traces && Grows(old(traces)[id], traces[id])
      {
        Perform(schedule[i]);
      }
      forall id | id in traces
        ensures EveryClaim(id, records[id], traces[id])
      {
        Claims(id, records[id], traces[id]);
      }
    }
  }

  datatype Call =
    | ExecuteCall(pid: ProcessId, command: Command, env: CallAnswers)
    | ReconcileCall(pid: ProcessId, answers: SweepAnswers)

  /** Only cleanup happened, and perhaps a replay: nothing was governed, created or executed, and no result made. */
  predicate CleanupOnly(before: Trace, after: Trace) {
    && after == before.(mayExist := after.mayExist, absent := after.absent, deletes := after.deletes,
                        replay := after.replay)
    && (before.replay.Some? ==> after.replay == before.replay)
    && (after.mayExist ==> before.mayExist) && (before.absent ==> after.absent) && before.deletes <= after.deletes
  }
}
