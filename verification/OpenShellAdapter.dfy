/** The OpenShell adapter: it turns arbitrary gateway behaviour into the runtime contract's truthful results.
    The gateway is arbitrary: every reply, delay and stream it can produce is an input of the operations. */
module OpenShellAdapter {
  import opened RuntimeContract
  import opened OutputCollection

  /** gRPC status codes the adapter tells apart; `OtherCode` is every other one. */
  datatype Code =
    | NotFound | Unauthenticated | PermissionDenied | CancelledCode | DeadlineExceeded | InvalidArgument
    | FailedPrecondition | OutOfRangeCode | Unimplemented | DataLoss | OtherCode

  datatype Rpc<+T> = Reply(value: T) | Status(code: Code)

  predicate ProtocolCode(c: Code) {
    c == InvalidArgument || c == FailedPrecondition || c == OutOfRangeCode || c == Unimplemented || c == DataLoss
  }

  // ---- Budget: a fixed deadline and a cancellation time, read against a clock in milliseconds.

  datatype BudgetFailure = BudgetCancelled | BudgetDeadline

  datatype Budget = Budget(deadline: nat, cancelAt: Option<nat>) {
    /** The cancellation has come by then. */
    predicate Cancelled(now: nat) {
      cancelAt.Some? && cancelAt.value <= now
    }

    /** Work may start exactly before the deadline and the cancellation; cancellation counts if both are past. */
    function Check(now: nat): (r: Option<BudgetFailure>)
      ensures r.None? <==> now < deadline && !Cancelled(now)
      ensures r == Some(BudgetCancelled) <==> Cancelled(now)
    {
      if cancelAt.Some? && cancelAt.value <= now then Some(BudgetCancelled)
      else if now >= deadline then Some(BudgetDeadline)
      else None
    }

    /** `run` of a future that needs `cost` milliseconds: it never starts after a failed check, and it
        finishes only if neither the cancellation nor the deadline comes first. */
    function Run(now: nat, cost: nat): (r: Ran)
      ensures r.Finished? <==> now < deadline && now + cost <= deadline && !Cancelled(now + cost)
      ensures r.Finished? ==> r.now == now + cost
      ensures r.Stopped? && !r.started ==> Check(now) == Some(r.failure)
      ensures r.Stopped? && r.started ==>
                && now < deadline && !Cancelled(now)
                && (r.failure == BudgetCancelled <==> Cancelled(now + cost) && Cancelled(deadline))
      ensures r.Stopped? && cancelAt.None? ==> now + cost >= deadline
    {
      var refused := Check(now);
      if refused.Some? then Stopped(refused.value, false)
      else if cancelAt.Some? && cancelAt.value <= now + cost && cancelAt.value <= deadline
      then Stopped(BudgetCancelled, true)
      else if now + cost > deadline then Stopped(BudgetDeadline, true)
      else Finished(now + cost)
    }
  }

  datatype Ran = Finished(now: nat) | Stopped(failure: BudgetFailure, started: bool)

  // ---- Create.

  datatype CreateFailureCode =
    | CreateValidation | CreateAuth | CreateTransport | CreateDeadline | CreateCancelled | CreateProtocol
    | CreateProvider

  datatype CreateFailure =
    | NotCreated(code: CreateFailureCode)
    | PossiblyCreated(cleanupTarget: nat, code: CreateFailureCode)
    | Conflict(code: CreateFailureCode)

  datatype SandboxObject = SandboxObject(name: nat, objectId: string, spec: Option<nat>)

  datatype CreateReply =
    | Created(sandbox: Option<SandboxObject>)
    | OwnershipConflict
    | NotSubmitted(code: Code)
    | PossiblySubmitted(code: Code)

  datatype CreatedSandbox = CreatedSandbox(requestId: nat, sandboxId: string)

  /** Every input of one create call that the adapter does not choose: local validation, the clock readings,
      and what the gateway does. A gap is the time between a check and the reading inside the `run` that follows.
      `handleOk` is whether the provider state could be encoded. */
  datatype CreateEnv = CreateEnv(imageOk: bool, policyOk: bool, budget: Budget, start: nat, preflightGap: nat,
                                 preflightCost: nat, preflight: Rpc<()>, submitGap: nat, submitCost: nat,
                                 reply: CreateReply, handleOk: bool)

  function CreateStatusCode(c: Code): (r: CreateFailureCode)
    ensures r == CreateAuth <==> c == Unauthenticated || c == PermissionDenied
    ensures r == CreateProtocol <==> ProtocolCode(c)
    ensures (r == CreateCancelled <==> c == CancelledCode) && (r == CreateDeadline <==> c == DeadlineExceeded)
    ensures r == CreateTransport <==> c == NotFound || c == OtherCode
  {
    if c == Unauthenticated || c == PermissionDenied then CreateAuth
    else if c == CancelledCode then CreateCancelled
    else if c == DeadlineExceeded then CreateDeadline
    else if ProtocolCode(c) then CreateProtocol
    else CreateTransport
  }

  function BudgetCreateCode(f: BudgetFailure): (r: CreateFailureCode)
    ensures (r == CreateCancelled <==> f.BudgetCancelled?) && (r == CreateDeadline <==> f.BudgetDeadline?)
  {
    if f == BudgetCancelled then CreateCancelled else CreateDeadline
  }

  function Preflight(env: CreateEnv): Ran {
    env.budget.Run(env.start + env.preflightGap, env.preflightCost)
  }

  /** Everything before the submission went well, and the second check passed. */
  predicate ReachedSubmission(env: CreateEnv) {
    && env.imageOk && env.policyOk && env.budget.Check(env.start).None?
    && Preflight(env).Finished? && env.preflight == Status(NotFound) && env.budget.Check(Preflight(env).now).None?
  }

  function Submission(env: CreateEnv): Ran
    requires Preflight(env).Finished?
  {
    env.budget.Run(Preflight(env).now + env.submitGap, env.submitCost)
  }

  /** The create call left the adapter: it was started, and the transport did not prove otherwise. */
  predicate MayHaveCreated(env: CreateEnv) {
    && ReachedSubmission(env)
    && if Submission(env).Finished? then !env.reply.NotSubmitted? && !env.reply.OwnershipConflict?
       else Submission(env).started
  }

  /** The budget ran out between the last check and the submission: the call never started, and nobody can tell. */
  predicate RefusedAtSubmission(env: CreateEnv) {
    ReachedSubmission(env) && Submission(env).Stopped? && !Submission(env).started
  }

  /** The code each failure carries, by how far the call got. */
  predicate CreateFailedBecause(env: CreateEnv, f: CreateFailure) {
    if !(env.imageOk && env.policyOk) then f == NotCreated(CreateValidation)
    else if env.budget.Check(env.start).Some? then
      f == NotCreated(BudgetCreateCode(env.budget.Check(env.start).value))
    else if Preflight(env).Stopped? then f == NotCreated(BudgetCreateCode(Preflight(env).failure))
    else if env.preflight != Status(NotFound) then
      f == if env.preflight.Reply? then Conflict(CreateProvider) else NotCreated(CreateStatusCode(env.preflight.code))
    else if !ReachedSubmission(env) then
      f == NotCreated(BudgetCreateCode(env.budget.Check(Preflight(env).now).value))
    else if Submission(env).Stopped? then f.code == BudgetCreateCode(Submission(env).failure)
    else match env.reply
      case OwnershipConflict => f == Conflict(CreateProvider)
      case NotSubmitted(code) => f == NotCreated(CreateStatusCode(code))
      case PossiblySubmitted(code) => f.code == CreateStatusCode(code)
      case Created(_) => f.code == CreateProtocol
  }

  function Create(requestId: nat, expectedSpec: nat, env: CreateEnv): (r: Result<CreatedSandbox, CreateFailure>)
    ensures r.Failure? && !r.error.PossiblyCreated? ==> !MayHaveCreated(env)
    ensures r.Failure? && r.error.PossiblyCreated? ==> r.error.cleanupTarget == requestId
    ensures r.Success? ==> MayHaveCreated(env) && r.value.requestId == requestId && r.value.sandboxId != ""
    ensures r.Success? ==> env.reply == Created(Some(SandboxObject(requestId, r.value.sandboxId, Some(expectedSpec))))
    ensures r.Success? || r.error.PossiblyCreated? <==> MayHaveCreated(env) || RefusedAtSubmission(env)
    ensures r.Success? <==>
            && ReachedSubmission(env) && Submission(env).Finished? && env.handleOk && env.reply.Created?
            && env.reply.sandbox.Some?
            && var sandbox := env.reply.sandbox.value;
              sandbox.name == requestId && sandbox.objectId != "" && sandbox.spec == Some(expectedSpec)
    ensures r.Failure? ==> CreateFailedBecause(env, r.error)
    ensures RefusedAtSubmission(env) ==> !MayHaveCreated(env)
  {
    if !env.imageOk || !env.policyOk then Failure(NotCreated(CreateValidation))
    else
      var refused := env.budget.Check(env.start);
      if refused.Some? then Failure(NotCreated(BudgetCreateCode(refused.value)))
      else
        var preflight := env.budget.Run(env.start + env.preflightGap, env.preflightCost);
        if preflight.Stopped? then Failure(NotCreated(BudgetCreateCode(preflight.failure)))
        else if env.preflight.Reply? then Failure(Conflict(CreateProvider))
        else if env.preflight.code != NotFound then Failure(NotCreated(CreateStatusCode(env.preflight.code)))
        else
          var refusedAgain := env.budget.Check(preflight.now);
          if refusedAgain.Some? then Failure(NotCreated(BudgetCreateCode(refusedAgain.value)))
          else Submit(requestId, expectedSpec, env, preflight.now + env.submitGap)
  }

  /** An input of that kind: the deadline falls between the last check and the submission. */
  lemma CreateOverstates(requestId: nat, expectedSpec: nat) returns (env: CreateEnv)
    ensures RefusedAtSubmission(env) && !MayHaveCreated(env)
    ensures Create(requestId, expectedSpec, env) == Failure(PossiblyCreated(requestId, CreateDeadline))
  {
    env := CreateEnv(true, true, Budget(10, None), 0, 0, 1, Status(NotFound), 10, 1, Created(None), true);
  }

  function Submit(requestId: nat, expectedSpec: nat, env: CreateEnv, now: nat):
    (r: Result<CreatedSandbox, CreateFailure>)
  {
    var ran := env.budget.Run(now, env.submitCost);
    if ran.Stopped? then Failure(PossiblyCreated(requestId, BudgetCreateCode(ran.failure)))
    else match env.reply
      case OwnershipConflict => Failure(Conflict(CreateProvider))
      case NotSubmitted(code) => Failure(NotCreated(CreateStatusCode(code)))
      case PossiblySubmitted(code) => Failure(PossiblyCreated(requestId, CreateStatusCode(code)))
      case Created(None) => Failure(PossiblyCreated(requestId, CreateProtocol))
      case Created(Some(sandbox)) =>
        if sandbox.name != requestId || sandbox.objectId == "" || sandbox.spec != Some(expectedSpec) ||
           !env.handleOk then
          Failure(PossiblyCreated(requestId, CreateProtocol))
        else Success(CreatedSandbox(requestId, sandbox.objectId))
  }

  // ---- Execution.

  datatype OpenReply = Stream | ExecNotSubmitted(code: Code) | ExecPossiblySubmitted(code: Code)

  /** How the stream ends after its events: cleanly, with a status, or with the budget. */
  datatype Ending = EndOfStream | StreamError(code: Code) | StreamStopped(failure: BudgetFailure)

  datatype ExecEnv = ExecEnv(handleOk: bool, budget: Budget, start: nat, openGap: nat, openCost: nat, reply: OpenReply,
                             events: seq<Event>, ending: Ending)

  function ExecBudgetCode(f: BudgetFailure): (r: ExecFailureCode)
    ensures (r == Cancelled <==> f.BudgetCancelled?) && (r == Deadline <==> f.BudgetDeadline?)
  {
    if f == BudgetCancelled then Cancelled else Deadline
  }

  function ExecStatusCode(c: Code): (r: ExecFailureCode)
    ensures !SpecialCode(r) && r != Provider
    ensures (r == Cancelled <==> c == CancelledCode) && (r == Deadline <==> c == DeadlineExceeded)
    ensures r == Protocol <==> ProtocolCode(c)
  {
    if c == CancelledCode then Cancelled
    else if c == DeadlineExceeded then Deadline
    else if ProtocolCode(c) then Protocol
    else Transport
  }

  function ExecPossible(target: nat, code: ExecFailureCode, counts: OutputByteCounts): (r: ExecFailure)
    requires !SpecialCode(code)
    ensures r == ExecFailure(target, PossiblyDispatched, TimeoutUnknown, code, counts, None)
  {
    Expect(PossiblyDispatchedFailure(target, code, TimeoutUnknown, counts))
  }

  function CollectionFailed(target: nat, f: CollectionFailure): (r: ExecFailure)
    ensures Coherent(r) && r.dispatchState == PossiblyDispatched && r.cleanupTarget == target && r.counts == f.counts
    ensures r.code == OutputLimitExceeded <==> f.Overflow?
    ensures r.code == MissingTerminalExit <==> f.MissingExit?
    ensures r.code == Protocol <==> f.ProtocolViolation?
    ensures r.timeoutState == TimeoutUnknown && r.outputLimit == if f.Overflow? then Some(f.kind) else None
  {
    match f
    case MissingExit(counts) => Expect(MissingTerminalExitFailure(target, TimeoutUnknown, counts))
    case Overflow(counts, kind) => Expect(OutputLimitExceededFailure(target, TimeoutUnknown, counts, kind))
    case ProtocolViolation(counts) => ExecPossible(target, Protocol, counts)
  }

  function Opening(env: ExecEnv): Ran {
    env.budget.Run(env.start + env.openGap, env.openCost)
  }

  predicate ReachedDispatch(limits: OutputLimits, env: ExecEnv) {
    env.handleOk && WithinProcessCeiling(limits) && env.budget.Check(env.start).None?
  }

  /** The execution call left the adapter: it was started, and the transport did not prove otherwise. */
  predicate MayHaveDispatched(limits: OutputLimits, env: ExecEnv) {
    && ReachedDispatch(limits, env)
    && if Opening(env).Finished? then !env.reply.ExecNotSubmitted? else Opening(env).started
  }

  /** The budget ran out between the check and the call: it never started, and the adapter cannot tell. */
  predicate RefusedAtDispatch(limits: OutputLimits, env: ExecEnv) {
    ReachedDispatch(limits, env) && Opening(env).Stopped? && !Opening(env).started
  }

  /** An input of that kind, for any admissible ceilings: the deadline falls between the check and the call. `Exec` then
      reports a possible dispatch. */
  lemma ExecOverstates(limits: OutputLimits) returns (env: ExecEnv)
    requires WithinProcessCeiling(limits)
    ensures RefusedAtDispatch(limits, env) && !MayHaveDispatched(limits, env)
  {
    env := ExecEnv(true, Budget(10, None), 0, 10, 1, Stream, [], EndOfStream);
  }

  /** The stream was opened. */
  predicate Opened(limits: OutputLimits, env: ExecEnv) {
    MayHaveDispatched(limits, env) && Opening(env).Finished? && env.reply.Stream?
  }

  /** What a stream that does not complete is reported as: its first fault, with the counts up to and including the
      offending chunk; else how it broke off, with the counts so far; else the missing exit. */
  ghost predicate Drained(target: nat, limits: OutputLimits, env: ExecEnv, r: Result<ExecCompleted, ExecFailure>) {
    if !Clean(limits, env.events) then
      exists k :: 0 <= k < |env.events| && FirstFault(limits, env.events, k)
                  && r == Failure(CollectionFailed(target, Fault(limits, env.events[..k], env.events[k])))
    else match env.ending
      case StreamError(code) => r == Failure(ExecPossible(target, ExecStatusCode(code), Counts(env.events)))
      case StreamStopped(failure) => r == Failure(ExecPossible(target, ExecBudgetCode(failure), Counts(env.events)))
      case EndOfStream => Ended(env.events) || r == Failure(CollectionFailed(target, MissingExit(Counts(env.events))))
  }

  /** What a stream that was never opened is reported as, by how far the call got. */
  function NeverOpened(target: nat, limits: OutputLimits, env: ExecEnv): ExecFailure
    requires !Opened(limits, env)
  {
    var untouched := ExecFailure(target, NotDispatched, TimeoutNotObserved, Protocol, NoBytes, None);
    if !(env.handleOk && WithinProcessCeiling(limits)) then untouched
    else if !ReachedDispatch(limits, env) then
      untouched.(code := ExecBudgetCode(env.budget.Check(env.start).value))
    else if Opening(env).Stopped? then ExecPossible(target, ExecBudgetCode(Opening(env).failure), NoBytes)
    else if env.reply.ExecNotSubmitted? then untouched.(code := ExecStatusCode(env.reply.code))
    else ExecPossible(target, ExecStatusCode(env.reply.code), NoBytes)
  }

  /** `exec`: completes exactly when the call was accepted and the stream is clean, ends properly and carries a terminal
      exit; reports NotDispatched only when the command cannot have been dispatched, and exactly then but for a budget
      that ran out between check and call; and every failure it builds is one that `ExecFailure::validated` accepts. */
  method Exec(target: nat, limits: OutputLimits, env: ExecEnv) returns (r: Result<ExecCompleted, ExecFailure>)
    ensures r.Success? <==>
            && Opened(limits, env)
            && env.ending.EndOfStream? && Clean(limits, env.events) && Ended(env.events)
    ensures r.Success? ==>
            r.value == ExecCompleted(env.events[|env.events| - 1].code, OutBytes(env.events), ErrBytes(env.events),
                                     env.events[|env.events| - 1].timeout, NO_EVIDENCE)
    ensures r.Failure? ==> Coherent(r.error) && r.error.cleanupTarget == target
    ensures r.Failure? && r.error.dispatchState == NotDispatched ==> !MayHaveDispatched(limits, env)
    ensures r.Failure? && r.error.dispatchState == PossiblyDispatched ==>
            MayHaveDispatched(limits, env) || RefusedAtDispatch(limits, env)
    ensures RefusedAtDispatch(limits, env) ==>
            !MayHaveDispatched(limits, env) && r.Failure? && r.error.dispatchState == PossiblyDispatched
    ensures Opened(limits, env) ==> Drained(target, limits, env, r)
    ensures !Opened(limits, env) ==> r == Failure(NeverOpened(target, limits, env))
  {
    if !env.handleOk {
      return Failure(Expect(NotDispatchedFailure(target, Protocol)));
    }
    if !WithinProcessCeiling(limits) {
      return Failure(Expect(NotDispatchedFailure(target, Protocol)));
    }
    var refused := env.budget.Check(env.start);
    if refused.Some? {
      return Failure(Expect(NotDispatchedFailure(target, ExecBudgetCode(refused.value))));
    }
    var opening := env.budget.Run(env.start + env.openGap, env.openCost);
    if opening.Stopped? {
      return Failure(ExecPossible(target, ExecBudgetCode(opening.failure), NoBytes));
    }
    match env.reply
    case ExecNotSubmitted(code) =>
      return Failure(Expect(NotDispatchedFailure(target, ExecStatusCode(code))));
    case ExecPossiblySubmitted(code) =>
      return Failure(ExecPossible(target, ExecStatusCode(code), NoBytes));
    case Stream =>
      r := Drain(target, limits, env);
  }

  method Drain(target: nat, limits: OutputLimits, env: ExecEnv) returns (r: Result<ExecCompleted, ExecFailure>)
    requires WithinProcessCeiling(limits)
    ensures r.Success? <==> env.ending.EndOfStream? && Clean(limits, env.events) && Ended(env.events)
    ensures r.Success? ==>
            r.value == ExecCompleted(env.events[|env.events| - 1].code, OutBytes(env.events), ErrBytes(env.events),
                                     env.events[|env.events| - 1].timeout, NO_EVIDENCE)
    ensures r.Failure? ==>
            Coherent(r.error) && r.error.cleanupTarget == target && r.error.dispatchState == PossiblyDispatched
    ensures Drained(target, limits, env, r)
  {
    var events := env.events;
    var collector := new OutputCollector(limits);
    var fault := PushAll(collector, events);
    if fault.Some? {
      return Failure(CollectionFailed(target, fault.value));
    }
    match env.ending
    case StreamError(code) => return Failure(ExecPossible(target, ExecStatusCode(code), collector.counts));
    case StreamStopped(failure) => return Failure(ExecPossible(target, ExecBudgetCode(failure), collector.counts));
    case EndOfStream =>
      var collected := collector.Finish();
      if collected.Failure? {
        return Failure(CollectionFailed(target, collected.error));
      }
      return Success(ExecCompleted(collected.value.exitCode, collected.value.stdout, collected.value.stderr,
                                   collected.value.timeout, NO_EVIDENCE));
  }

  // ---- Readiness and deletion polling.

  datatype Policy = Policy(version: nat, content: nat)

  datatype Phase = PhaseError | PhaseReady | PhaseOther | PhaseUnknownValue

  datatype SandboxStatus = SandboxStatus(phase: Phase, currentPolicyVersion: nat)

  datatype SandboxView = SandboxView(name: nat, objectId: string, status: Option<SandboxStatus>)

  datatype PolicyStatus = Pending | LoadedStatus | OtherStatus | UnknownStatus

  datatype Revision = Revision(version: nat, status: PolicyStatus, loadedAtMs: int, policy: Option<Policy>,
                               policyHash: nat)

  datatype PolicyView = PolicyView(revision: Option<Revision>, activeVersion: nat)

  datatype ReadinessFailureCode =
    | PolicyMismatch | WorkloadError | ReadyTransport | ReadyDeadline | ReadyCancelled | ReadyProtocol

  datatype CleanupFailureCode = CleanupTransport | CleanupDeadline | CleanupCancelled | CleanupProtocol

  /** What the gateway answers to the k-th poll, and how long it takes. */
  datatype Gateway = Gateway(sandbox: nat -> Rpc<Option<SandboxView>>, sandboxCost: nat -> nat,
                             policy: nat -> Rpc<PolicyView>, policyCost: nat -> nat)

  /** The provider state kept since creation, and what the caller expects to find active. */
  datatype Expected = Expected(requestId: nat, sandboxId: string, normalized: Policy, version: nat, hash: Policy -> nat)

  predicate SandboxAttests(e: Expected, reply: Rpc<Option<SandboxView>>) {
    && reply.Reply? && reply.value.Some?
    && reply.value.value.name == e.requestId && reply.value.value.objectId == e.sandboxId
    && reply.value.value.status.Some? && reply.value.value.status.value.phase == PhaseReady
    && reply.value.value.status.value.currentPolicyVersion == e.version == e.normalized.version
    && e.version != 0
  }

  predicate PolicyAttests(e: Expected, reply: Rpc<PolicyView>) {
    && reply.Reply? && reply.value.revision.Some?
    && reply.value.revision.value.version == reply.value.activeVersion == e.version
    && reply.value.revision.value.status == LoadedStatus && reply.value.revision.value.loadedAtMs > 0
    && reply.value.revision.value.policy == Some(e.normalized)
    && reply.value.revision.value.policyHash == e.hash(e.normalized)
  }

  /** The reply is about the sandbox that was created. */
  predicate Ours(e: Expected, reply: Rpc<Option<SandboxView>>) {
    && reply.Reply? && reply.value.Some?
    && reply.value.value.name == e.requestId && reply.value.value.objectId == e.sandboxId
  }

  /** Our sandbox has a status, in this phase. */
  predicate InPhase(e: Expected, reply: Rpc<Option<SandboxView>>, phase: Phase) {
    Ours(e, reply) && reply.value.value.status.Some? && reply.value.value.status.value.phase == phase
  }

  /** The sandbox reply settles nothing: no status yet, still on its way, or ready without an active policy. */
  predicate SandboxSilent(e: Expected, reply: Rpc<Option<SandboxView>>) {
    || (Ours(e, reply) && reply.value.value.status.None?)
    || InPhase(e, reply, PhaseOther)
    || (InPhase(e, reply, PhaseReady) && reply.value.value.status.value.currentPolicyVersion == 0)
  }

  /** The sandbox reply means this failure. */
  predicate SandboxMeans(e: Expected, reply: Rpc<Option<SandboxView>>, code: ReadinessFailureCode) {
    match code
    case WorkloadError => InPhase(e, reply, PhaseError)
    case PolicyMismatch =>
      && InPhase(e, reply, PhaseReady) && reply.value.value.status.value.currentPolicyVersion != 0
      && !(reply.value.value.status.value.currentPolicyVersion == e.version == e.normalized.version)
    case _ =>
      || (reply.Status? && ReadyStatusCode(reply.code) == code)
      || (code == ReadyProtocol && reply.Reply? && (!Ours(e, reply) || InPhase(e, reply, PhaseUnknownValue)))
  }

  /** The policy reply speaks of the expected version, with this status. */
  predicate OfVersion(e: Expected, reply: Rpc<PolicyView>, status: PolicyStatus) {
    && reply.Reply? && reply.value.revision.Some? && reply.value.revision.value.status == status
    && reply.value.revision.value.version == reply.value.activeVersion == e.version
  }

  /** The policy reply settles nothing: not there yet, or still pending. */
  predicate PolicySilent(e: Expected, reply: Rpc<PolicyView>) {
    reply == Status(NotFound) || OfVersion(e, reply, Pending)
  }

  /** The policy reply means this failure. */
  predicate PolicyMeans(e: Expected, reply: Rpc<PolicyView>, code: ReadinessFailureCode) {
    match code
    case WorkloadError => false
    case PolicyMismatch =>
      && reply.Reply? && reply.value.revision.Some?
      && (|| !(reply.value.revision.value.version == reply.value.activeVersion == e.version)
          || OfVersion(e, reply, OtherStatus)
          || (OfVersion(e, reply, LoadedStatus) && !PolicyAttests(e, reply)))
    case _ =>
      || (reply.Status? && reply.code != NotFound && ReadyStatusCode(reply.code) == code)
      || (code == ReadyProtocol && reply.Reply? && (reply.value.revision.None? || OfVersion(e, reply, UnknownStatus)))
  }

  /** Poll `k` settles nothing. */
  predicate Silent(e: Expected, g: Gateway, k: nat) {
    SandboxSilent(e, g.sandbox(k)) || (SandboxAttests(e, g.sandbox(k)) && PolicySilent(e, g.policy(k)))
  }

  /** Poll `k` attests sandbox and policy. */
  predicate Attests(e: Expected, g: Gateway, k: nat) {
    SandboxAttests(e, g.sandbox(k)) && PolicyAttests(e, g.policy(k))
  }

  /** Poll `k` means this failure. */
  predicate Means(e: Expected, g: Gateway, k: nat, code: ReadinessFailureCode) {
    SandboxMeans(e, g.sandbox(k), code) || (SandboxAttests(e, g.sandbox(k)) && PolicyMeans(e, g.policy(k), code))
  }

  function ReadyBudgetCode(f: BudgetFailure): (r: ReadinessFailureCode)
    ensures (r == ReadyCancelled <==> f.BudgetCancelled?) && (r == ReadyDeadline <==> f.BudgetDeadline?)
  {
    if f == BudgetCancelled then ReadyCancelled else ReadyDeadline
  }

  function ReadyStatusCode(c: Code): (r: ReadinessFailureCode)
    ensures (r == ReadyCancelled <==> c == CancelledCode) && (r == ReadyDeadline <==> c == DeadlineExceeded)
    ensures (r == ReadyProtocol <==> ProtocolCode(c)) && r != PolicyMismatch && r != WorkloadError
  {
    if c == CancelledCode then ReadyCancelled
    else if c == DeadlineExceeded then ReadyDeadline
    else if ProtocolCode(c) then ReadyProtocol
    else ReadyTransport
  }

  /** What one poll settles, replies alone: ready, a definite failure, or nothing yet. */
  datatype PollVerdict = Loaded | Refuted(code: ReadinessFailureCode) | Undecided

  function JudgePolicy(e: Expected, reply: Rpc<PolicyView>): (v: PollVerdict)
    ensures v.Loaded? <==> PolicyAttests(e, reply)
    ensures v.Undecided? <==> PolicySilent(e, reply)
    ensures forall code :: v == Refuted(code) <==> PolicyMeans(e, reply, code)
  {
    if reply.Status? then if reply.code == NotFound then Undecided else Refuted(ReadyStatusCode(reply.code))
    else if reply.value.revision.None? then Refuted(ReadyProtocol)
    else
      var revision := reply.value.revision.value;
      if revision.version != e.version || reply.value.activeVersion != e.version then Refuted(PolicyMismatch)
      else match revision.status
        case UnknownStatus => Refuted(ReadyProtocol)
        case Pending => Undecided
        case OtherStatus => Refuted(PolicyMismatch)
        case LoadedStatus =>
          if revision.loadedAtMs <= 0 || revision.policy != Some(e.normalized) ||
             revision.policyHash != e.hash(e.normalized)
          then Refuted(PolicyMismatch) else Loaded
  }

  function Judge(e: Expected, g: Gateway, k: nat): (v: PollVerdict)
    ensures v.Loaded? <==> Attests(e, g, k)
    ensures v.Undecided? <==> Silent(e, g, k)
    ensures forall code :: v == Refuted(code) <==> Means(e, g, k, code)
  {
    match JudgeSandbox(e, g.sandbox(k))
    case Fail(code) => Refuted(code)
    case Again => Undecided
    case Ask(_) => JudgePolicy(e, g.policy(k))
  }

  /** The time the policy question of poll `k` takes; a policy not found yet costs an extra pause. */
  function PolicyCost(g: Gateway, k: nat, interval: nat): nat {
    g.policyCost(k) + if g.policy(k) == Status(NotFound) then interval else 0
  }

  function PollCost(e: Expected, g: Gateway, interval: nat, k: nat): nat {
    g.sandboxCost(k) + if SandboxAttests(e, g.sandbox(k)) then PolicyCost(g, k, interval) else 0
  }

  /** A sequence of polls as its replies make it: which settle anything, with what result, and how long each takes. */
  datatype Polls<!R> = Polls(settled: nat -> bool, result: nat -> R, cost: nat -> nat, interval: nat)

  /** The time from the start until poll `k` begins. */
  function Begins<R>(p: Polls<R>, k: nat): nat {
    if k == 0 then 0 else Begins(p, k - 1) + p.cost(k - 1) + p.interval
  }

  /** Poll `n` is the first to settle anything, and it ends before the deadline. */
  ghost predicate SettlesInTime<R>(p: Polls<R>, allowed: nat, n: nat) {
    (forall k: nat :: k < n ==> !p.settled(k)) && p.settled(n) && Begins(p, n) + p.cost(n) < allowed
  }

  /** Poll `n` is the first to settle anything, and it ends by the deadline. */
  ghost predicate SettlesBy<R>(p: Polls<R>, allowed: nat, n: nat) {
    (forall k: nat :: k < n ==> !p.settled(k)) && p.settled(n) && Begins(p, n) + p.cost(n) <= allowed
  }

  lemma {:induction false} BeginsGrows<R>(p: Polls<R>, m: nat, n: nat)
    requires m < n
    ensures Begins(p, m) + p.cost(m) + p.interval <= Begins(p, n)
  {
    if m < n - 1 {
      BeginsGrows(p, m, n - 1);
    }
  }

  /** Polls are at least an interval apart, which bounds their number. */
  lemma {:induction false} PollsAreSpaced<R>(p: Polls<R>, k: nat)
    ensures k * p.interval <= Begins(p, k)
  {
    if k > 0 {
      PollsAreSpaced(p, k - 1);
      assert k * p.interval == (k - 1) * p.interval + p.interval;
    }
  }

  /** The first poll that settles is the only candidate. */
  lemma {:induction false} FirstToSettle<R>(p: Polls<R>, allowed: nat, polls: nat)
    requires (forall k: nat :: k < polls ==> !p.settled(k)) && p.settled(polls)
    ensures forall n: nat :: SettlesInTime(p, allowed, n) ==> n == polls
  {
  }

  /** A deadline that falls into an unsettled poll leaves nothing that could have settled in time. */
  lemma {:induction false} TooLate<R>(p: Polls<R>, allowed: nat, polls: nat)
    requires (forall k: nat :: k < polls ==> !p.settled(k)) && Begins(p, polls) + p.cost(polls) >= allowed
    ensures forall n: nat :: !SettlesInTime(p, allowed, n)
  {
    forall n: nat
      ensures !SettlesInTime(p, allowed, n)
    {
      if n > polls {
        BeginsGrows(p, polls, n);
      }
    }
  }

  /** `policy_is_loaded`: whether the expected revision is loaded now, with the clock after it. It answers from the
      reply alone unless the budget runs out before it is heard. */
  method PolicyIsLoaded(e: Expected, g: Gateway, k: nat, version: nat, budget: Budget, now: nat, interval: nat)
    returns (r: Result<bool, ReadinessFailureCode>, later: nat, heard: bool)
    requires version == e.version && now <= budget.deadline
    ensures r.Success? ==> later == now + PolicyCost(g, k, interval) <= budget.deadline
    ensures r.Success? ==> JudgePolicy(e, g.policy(k)) == if r.value then Loaded else Undecided
    ensures r.Failure? && heard ==>
            JudgePolicy(e, g.policy(k)) == Refuted(r.error) && now + PolicyCost(g, k, interval) <= budget.deadline
    ensures r.Failure? && !heard ==>
            if budget.cancelAt.Some? then r.error == ReadyCancelled || r.error == ReadyDeadline
            else r.error == ReadyDeadline && now + PolicyCost(g, k, interval) >= budget.deadline
  {
    later := now;
    var ran := budget.Run(now, g.policyCost(k));
    if ran.Stopped? {
      return Failure(ReadyBudgetCode(ran.failure)), later, false;
    }
    later := ran.now;
    var reply := g.policy(k);
    if reply.Status? {
      if reply.code != NotFound {
        return Failure(ReadyStatusCode(reply.code)), later, true;
      }
      var paused := budget.Run(later, interval);
      if paused.Stopped? {
        return Failure(ReadyBudgetCode(paused.failure)), later, false;
      }
      return Success(false), paused.now, true;
    }
    if reply.value.revision.None? {
      return Failure(ReadyProtocol), later, true;
    }
    var revision := reply.value.revision.value;
    if revision.version != version || reply.value.activeVersion != version {
      return Failure(PolicyMismatch), later, true;
    }
    match revision.status
    case UnknownStatus => return Failure(ReadyProtocol), later, true;
    case Pending => return Success(false), later, true;
    case OtherStatus => return Failure(PolicyMismatch), later, true;
    case LoadedStatus =>
      if revision.loadedAtMs <= 0 || revision.policy != Some(e.normalized) ||
         revision.policyHash != e.hash(e.normalized) {
        return Failure(PolicyMismatch), later, true;
      }
      return Success(true), later, true;
  }

  type Readiness = Result<(), ReadinessFailureCode>

  const READY_LATE: Readiness := Failure(ReadyDeadline)

  function Verdict(v: PollVerdict): Readiness {
    match v
    case Loaded => Success(())
    case Refuted(code) => Failure(code)
    case Undecided => Failure(ReadyDeadline)
  }

  /** Every poll before `n` is silent, and poll `n` is not and ends before the deadline. */
  ghost predicate FirstInTime(e: Expected, g: Gateway, interval: nat, allowed: nat, n: nat) {
    && (forall k: nat :: k < n ==> Silent(e, g, k)) && !Silent(e, g, n)
    && Begins(ReadyPolls(e, g, interval), n) + PollCost(e, g, interval, n) < allowed
  }

  /** A poll is silent, attests, or means exactly one failure. */
  lemma PollsAreClassified(e: Expected, g: Gateway, k: nat)
    ensures !(Silent(e, g, k) && Attests(e, g, k))
    ensures Silent(e, g, k) || Attests(e, g, k) <==> !exists code :: Means(e, g, k, code)
    ensures forall code, other :: Means(e, g, k, code) && Means(e, g, k, other) ==> code == other
  {
    var v := Judge(e, g, k);
    if v.Refuted? {
      assert Means(e, g, k, v.code);
    }
  }

  /** What a decided loop says of the gateway's replies. */
  lemma ReadyDecided(e: Expected, g: Gateway, interval: nat, allowed: nat, r: Readiness, polls: nat, n: nat)
    requires Decided(ReadyPolls(e, g, interval), allowed, None, READY_LATE, r, polls)
    requires FirstInTime(e, g, interval, allowed, n)
    ensures polls == n + 1 && (Attests(e, g, n) ==> r == Success(()))
    ensures forall code :: Means(e, g, n, code) ==> r == Failure(code)
  {
    var p := ReadyPolls(e, g, interval);
    forall k: nat | k < n
      ensures !p.settled(k)
    {
      assert Silent(e, g, k);
    }
    assert SettlesInTime(p, allowed, n);
    assert r == Verdict(Judge(e, g, n));
  }

  /** The polls of `wait_ready`, as the gateway's replies make them. */
  function ReadyPolls(e: Expected, g: Gateway, interval: nat): Polls<Readiness> {
    Polls((k: nat) => !Judge(e, g, k).Undecided?, (k: nat) => Verdict(Judge(e, g, k)),
          (k: nat) => PollCost(e, g, interval, k), interval)
  }

  ghost predicate AreReadyPolls(p: Polls<Readiness>, e: Expected, g: Gateway) {
    forall k: nat {:trigger Judge(e, g, k)} ::
      && p.settled(k) == !Judge(e, g, k).Undecided? && p.result(k) == Verdict(Judge(e, g, k))
      && p.cost(k) == PollCost(e, g, p.interval, k)
  }

  /** How one poll ends: settled by its replies, undecided, or cut short by the budget, before or after its call
      started. */
  datatype Polled<+R> = Settled(result: R) | NotYet(now: nat) | CutShort(result: R, started: bool)

  /** The poll kept to the replies, or the budget ran out. */
  ghost predicate Follows<R>(polled: Polled<R>, p: Polls<R>, k: nat, budget: Budget, now: nat) {
    match polled
    case Settled(result) =>
      p.settled(k) && result == p.result(k) && now < budget.deadline && now + p.cost(k) <= budget.deadline
    case NotYet(later) => !p.settled(k) && later == now + p.cost(k) <= budget.deadline && now < budget.deadline
    case CutShort(_, started) =>
      (budget.cancelAt.Some? || now + p.cost(k) >= budget.deadline) && (started ==> now < budget.deadline)
  }

  /** The body of the loop in `wait_ready`, up to its pause. */
  method Poll(e: Expected, g: Gateway, k: nat, budget: Budget, now: nat, interval: nat, ghost p: Polls<Readiness>)
    returns (polled: Polled<Readiness>)
    requires now <= budget.deadline && p.interval == interval && AreReadyPolls(p, e, g)
    ensures Follows(polled, p, k, budget, now)
    ensures polled.CutShort? ==> polled.result.Failure? && (budget.cancelAt.None? ==> polled.result == READY_LATE)
  {
    ghost var judged := Judge(e, g, k);
    var ran := budget.Run(now, g.sandboxCost(k));
    if ran.Stopped? {
      return CutShort(Failure(ReadyBudgetCode(ran.failure)), ran.started);
    }
    match JudgeSandbox(e, g.sandbox(k))
    case Fail(code) => return Settled(Failure(code));
    case Again => return NotYet(ran.now);
    case Ask(version) =>
      var loaded, later, heard := PolicyIsLoaded(e, g, k, version, budget, ran.now, interval);
      match loaded {
        case Success(true) => return Settled(Success(()));
        case Success(false) => return NotYet(later);
        case Failure(code) =>
          return if heard then Settled(Failure(code)) else CutShort(Failure(code), true);
      }
  }

  /** What a polling loop promises about the polls it follows: each starts before the deadline, success only as some
      poll settles it, and without cancellation the first poll that settles anything in time decides, and nothing but
      the deadline if there is none. */
  ghost predicate Decided<T, E>(p: Polls<Result<T, E>>, allowed: nat, cancelAt: Option<nat>, late: Result<T, E>,
                                r: Result<T, E>, polls: nat) {
    && (polls > 0 ==> Begins(p, polls - 1) < allowed)
    && (forall k: nat :: k < polls - 1 ==> !p.settled(k))
    && (r.Success? ==> polls > 0 && p.settled(polls - 1) && r == p.result(polls - 1))
    && (cancelAt.None? ==> forall n: nat :: SettlesInTime(p, allowed, n) ==> polls == n + 1 && r == p.result(n))
    && (cancelAt.None? ==> r == late || (polls > 0 && SettlesBy(p, allowed, polls - 1) && r == p.result(polls - 1)))
  }

  /** Where a polling loop stands: it is about to make poll `polls`, nothing is settled yet, and there is time. */
  ghost predicate Polling<R>(p: Polls<R>, start: nat, allowed: nat, polls: nat, now: nat) {
    && now == start + Begins(p, polls) <= start + allowed && (polls > 0 ==> Begins(p, polls - 1) < allowed)
    && forall k: nat :: k < polls ==> !p.settled(k)
  }

  lemma {:induction false} PollsOn<R>(p: Polls<R>, start: nat, allowed: nat, polls: nat, now: nat, later: nat)
    requires Polling(p, start, allowed, polls, now) && !p.settled(polls) && Begins(p, polls) < allowed
    requires later == now + p.cost(polls) + p.interval <= start + allowed
    ensures Polling(p, start, allowed, polls + 1, later)
  {
  }

  /** The budget ran out at poll `polls`, before or after its call started. */
  lemma {:induction false} DecidedByBudget<T, E>(p: Polls<Result<T, E>>, allowed: nat, cancelAt: Option<nat>,
                                                 late: Result<T, E>, r: Result<T, E>, polls: nat, started: bool)
    requires r.Failure? && (cancelAt.None? ==> r == late) && (forall k: nat :: k < polls ==> !p.settled(k))
    requires (polls > 0 ==> Begins(p, polls - 1) < allowed)
    requires cancelAt.Some? || Begins(p, polls) + p.cost(polls) >= allowed
    requires started ==> Begins(p, polls) < allowed
    ensures Decided(p, allowed, cancelAt, late, r, if started then polls + 1 else polls)
  {
    if cancelAt.None? {
      TooLate(p, allowed, polls);
    }
  }

  /** Poll `polls` settled it. */
  lemma {:induction false} DecidedByPoll<T, E>(p: Polls<Result<T, E>>, allowed: nat, cancelAt: Option<nat>,
                                               late: Result<T, E>, polls: nat)
    requires (forall k: nat :: k < polls ==> !p.settled(k)) && p.settled(polls) && Begins(p, polls) < allowed
    requires Begins(p, polls) + p.cost(polls) <= allowed
    ensures Decided(p, allowed, cancelAt, late, p.result(polls), polls + 1)
  {
    FirstToSettle(p, allowed, polls);
  }

  /** The budget ran out in the pause after the unsettled poll `polls`. */
  lemma {:induction false} DecidedInPause<T, E>(p: Polls<Result<T, E>>, allowed: nat, cancelAt: Option<nat>,
                                                late: Result<T, E>, r: Result<T, E>, polls: nat)
    requires r.Failure? && (cancelAt.None? ==> r == late)
    requires (forall k: nat :: k < polls ==> !p.settled(k)) && !p.settled(polls)
    requires Begins(p, polls) < allowed
    requires cancelAt.Some? || Begins(p, polls) + p.cost(polls) + p.interval >= allowed
    ensures Decided(p, allowed, cancelAt, late, r, polls + 1)
  {
    var next := polls + 1;
    assert Begins(p, next) == Begins(p, polls) + p.cost(polls) + p.interval;
    DecidedByBudget(p, allowed, cancelAt, late, r, next, false);
  }

  /** The polls made so far: a refused check made no call; a call cut short did start while the deadline was ahead. */
  function Counted<R>(polled: Polled<R>, polls: nat): nat {
    if polled.CutShort? && !polled.started then polls else polls + 1
  }

  lemma {:induction false} Concludes<T, E>(p: Polls<Result<T, E>>, start: nat, allowed: nat, cancelAt: Option<nat>,
                                           late: Result<T, E>, polled: Polled<Result<T, E>>, polls: nat)
    requires Follows(polled, p, polls, Budget(start + allowed, cancelAt), start + Begins(p, polls)) && !polled.NotYet?
    requires (forall k: nat :: k < polls ==> !p.settled(k)) && (polls > 0 ==> Begins(p, polls - 1) < allowed)
    requires polled.CutShort? ==> polled.result.Failure? && (cancelAt.None? ==> polled.result == late)
    ensures Decided(p, allowed, cancelAt, late, polled.result, Counted(polled, polls))
  {
    if polled.CutShort? {
      DecidedByBudget(p, allowed, cancelAt, late, polled.result, polls, polled.started);
    } else {
      DecidedByPoll(p, allowed, cancelAt, late, polls);
    }
  }

  /** The loop of `wait_ready`. */
  method PollUntilSettled(e: Expected, g: Gateway, start: nat, allowed: nat, cancelAt: Option<nat>, interval: nat,
                          ghost p: Polls<Readiness>)
    returns (r: Readiness, polls: nat)
    requires interval > 0 && p.interval == interval && AreReadyPolls(p, e, g)
    ensures Decided(p, allowed, cancelAt, READY_LATE, r, polls)
  {
    var budget := Budget(start + allowed, cancelAt);
    var now := start;
    polls := 0;
    while true
      invariant Polling(p, start, allowed, polls, now)
      decreases budget.deadline - now
    {
      var polled := Poll(e, g, polls, budget, now, interval, p);
      if !polled.NotYet? {
        Concludes(p, start, allowed, cancelAt, READY_LATE, polled, polls);
        return polled.result, Counted(polled, polls);
      }
      var paused := budget.Run(polled.now, interval);
      if paused.Stopped? {
        DecidedInPause(p, allowed, cancelAt, READY_LATE, Failure(ReadyBudgetCode(paused.failure)), polls);
        return Failure(ReadyBudgetCode(paused.failure)), polls + 1;
      }
      PollsOn(p, start, allowed, polls, now, paused.now);
      polls, now := polls + 1, paused.now;
    }
  }

  /** `wait_ready`: a caller that expects another policy, or a malformed provider state, is refused before any poll.
      Otherwise, for every gateway behaviour, it stops with at most about deadline / interval polls; it reports Ready
      only after a poll whose sandbox and policy replies attest exactly what was expected; and without cancellation the
      first poll before the deadline that is not silent decides the result: Ready if it attests, and the failure it
      means otherwise; if there is none by the deadline, the result is the deadline. */
  method WaitReady(samePolicy: bool, handle: Option<Expected>, g: Gateway, start: nat, allowed: nat,
                   cancelAt: Option<nat>,
                   interval: nat)
    returns (r: Readiness, polls: nat)
    requires interval > 0
    ensures !samePolicy ==> r == Failure(PolicyMismatch)
    ensures samePolicy && handle.None? ==> r == Failure(ReadyProtocol)
    ensures polls > 0 ==> samePolicy && handle.Some? && (polls - 1) * interval < allowed
    ensures r.Success? ==>
              && polls > 0
              && SandboxAttests(handle.value, g.sandbox(polls - 1)) && PolicyAttests(handle.value, g.policy(polls - 1))
    ensures samePolicy && handle.Some? && cancelAt.None? ==>
              forall n: nat :: FirstInTime(handle.value, g, interval, allowed, n) ==>
                && polls == n + 1 && (Attests(handle.value, g, n) ==> r == Success(()))
                && (forall code :: Means(handle.value, g, n, code) ==> r == Failure(code))
    ensures samePolicy && handle.Some? && cancelAt.None? &&
            (forall n: nat :: !SettlesBy(ReadyPolls(handle.value, g, interval), allowed, n)) ==>
              r == Failure(ReadyDeadline)
  {
    if !samePolicy {
      return Failure(PolicyMismatch), 0;
    }
    if handle.None? {
      return Failure(ReadyProtocol), 0;
    }
    ghost var p := ReadyPolls(handle.value, g, interval);
    r, polls := PollUntilSettled(handle.value, g, start, allowed, cancelAt, interval, p);
    if polls > 0 {
      PollsAreSpaced(p, polls - 1);
    }
    if cancelAt.None? {
      forall n: nat | FirstInTime(handle.value, g, interval, allowed, n)
        ensures polls == n + 1 && (Attests(handle.value, g, n) ==> r == Success(()))
        ensures forall code :: Means(handle.value, g, n, code) ==> r == Failure(code)
      {
        ReadyDecided(handle.value, g, interval, allowed, r, polls, n);
      }
    }
  }

  datatype SandboxVerdict = Fail(code: ReadinessFailureCode) | Ask(version: nat) | Again

  /** One readiness reply: fail closed, ask for the policy of the active version, or poll again. */
  function JudgeSandbox(e: Expected, reply: Rpc<Option<SandboxView>>): (v: SandboxVerdict)
    ensures v.Ask? <==> SandboxAttests(e, reply)
    ensures v.Ask? ==> v.version == e.version
    ensures v.Again? <==> SandboxSilent(e, reply)
    ensures forall code :: v == Fail(code) <==> SandboxMeans(e, reply, code)
  {
    if reply.Status? then Fail(ReadyStatusCode(reply.code))
    else if reply.value.None? then Fail(ReadyProtocol)
    else
      var sandbox := reply.value.value;
      if sandbox.name != e.requestId || sandbox.objectId != e.sandboxId then Fail(ReadyProtocol)
      else if sandbox.status.None? then Again
      else match sandbox.status.value.phase
        case PhaseUnknownValue => Fail(ReadyProtocol)
        case PhaseError => Fail(WorkloadError)
        case PhaseOther => Again
        case PhaseReady =>
          var version := sandbox.status.value.currentPolicyVersion;
          if version == 0 then Again
          else if version != e.version || version != e.normalized.version then Fail(PolicyMismatch)
          else Ask(version)
  }

  function CleanupBudgetCode(f: BudgetFailure): (r: CleanupFailureCode)
    ensures (r == CleanupCancelled <==> f.BudgetCancelled?) && (r == CleanupDeadline <==> f.BudgetDeadline?)
  {
    if f == BudgetCancelled then CleanupCancelled else CleanupDeadline
  }

  function CleanupStatusCode(c: Code): (r: CleanupFailureCode)
    ensures (r == CleanupCancelled <==> c == CancelledCode) && (r == CleanupDeadline <==> c == DeadlineExceeded)
    ensures r == CleanupProtocol <==> ProtocolCode(c)
  {
    if c == CancelledCode then CleanupCancelled
    else if c == DeadlineExceeded then CleanupDeadline
    else if ProtocolCode(c) then CleanupProtocol
    else CleanupTransport
  }

  type Absence = Result<(), CleanupFailureCode>

  const ABSENCE_LATE: Absence := Failure(CleanupDeadline)

  /** What a poll that does not find the sandbox means. */
  function Missed(reply: Rpc<Option<SandboxView>>): Absence {
    if reply == Status(NotFound) then Success(())
    else Failure(if reply.Status? then CleanupStatusCode(reply.code) else CleanupDeadline)
  }

  /** The polls of `wait_deleted`: a reply that finds the sandbox settles nothing. */
  function AbsencePolls(g: Gateway, interval: nat): Polls<Absence> {
    Polls((k: nat) => g.sandbox(k).Status?, (k: nat) => Missed(g.sandbox(k)), g.sandboxCost, interval)
  }

  ghost predicate AreAbsencePolls(p: Polls<Absence>, g: Gateway) {
    forall k: nat {:trigger g.sandbox(k)} ::
      p.settled(k) == g.sandbox(k).Status? && p.result(k) == Missed(g.sandbox(k)) && p.cost(k) == g.sandboxCost(k)
  }

  /** The loop of `wait_deleted`. */
  method PollUntilMissing(g: Gateway, start: nat, allowed: nat, cancelAt: Option<nat>, interval: nat,
                          ghost p: Polls<Absence>)
    returns (r: Absence, polls: nat)
    requires interval > 0 && p.interval == interval && AreAbsencePolls(p, g)
    ensures Decided(p, allowed, cancelAt, ABSENCE_LATE, r, polls)
  {
    var budget := Budget(start + allowed, cancelAt);
    var now := start;
    polls := 0;
    while true
      invariant Polling(p, start, allowed, polls, now)
      decreases budget.deadline - now
    {
      var reply := g.sandbox(polls);
      var ran := budget.Run(now, g.sandboxCost(polls));
      if ran.Stopped? {
        DecidedByBudget(p, allowed, cancelAt, ABSENCE_LATE, Failure(CleanupBudgetCode(ran.failure)), polls,
                        ran.started);
        return Failure(CleanupBudgetCode(ran.failure)), if ran.started then polls + 1 else polls;
      }
      if reply.Status? {
        DecidedByPoll(p, allowed, cancelAt, ABSENCE_LATE, polls);
        return if reply.code == NotFound then Success(()) else Failure(CleanupStatusCode(reply.code)), polls + 1;
      }
      var paused := budget.Run(ran.now, interval);
      if paused.Stopped? {
        DecidedInPause(p, allowed, cancelAt, ABSENCE_LATE, Failure(CleanupBudgetCode(paused.failure)), polls);
        return Failure(CleanupBudgetCode(paused.failure)), polls + 1;
      }
      PollsOn(p, start, allowed, polls, now, paused.now);
      polls, now := polls + 1, paused.now;
    }
  }

  /** `wait_deleted`: succeeds only on a poll answered NotFound, when every earlier poll found the sandbox; stops with
      the same bound on polls; and without cancellation the first miss before the deadline decides the result, or the
      deadline if there is none. */
  method WaitDeleted(g: Gateway, start: nat, allowed: nat, cancelAt: Option<nat>, interval: nat)
    returns (r: Absence, polls: nat)
    requires interval > 0
    ensures polls > 0 ==> (polls - 1) * interval < allowed
    ensures r.Success? ==> polls > 0 && g.sandbox(polls - 1) == Status(NotFound)
    ensures forall k: nat :: k < polls - 1 ==> g.sandbox(k).Reply?
    ensures cancelAt.None? ==> forall n: nat :: SettlesInTime(AbsencePolls(g, interval), allowed, n) ==>
              polls == n + 1 && r == Missed(g.sandbox(n))
    ensures cancelAt.None? && (forall n: nat :: !SettlesBy(AbsencePolls(g, interval), allowed, n)) ==>
              r == Failure(CleanupDeadline)
  {
    r, polls := PollUntilMissing(g, start, allowed, cancelAt, interval, AbsencePolls(g, interval));
    AbsenceDecided(g, interval, allowed, cancelAt, r, polls);
  }

  /** What the decision says of the gateway's replies. */
  lemma AbsenceDecided(g: Gateway, interval: nat, allowed: nat, cancelAt: Option<nat>, r: Absence, polls: nat)
    requires Decided(AbsencePolls(g, interval), allowed, cancelAt, ABSENCE_LATE, r, polls)
    ensures polls > 0 ==> (polls - 1) * interval < allowed
    ensures r.Success? ==> polls > 0 && g.sandbox(polls - 1) == Status(NotFound)
    ensures forall k: nat :: k < polls - 1 ==> g.sandbox(k).Reply?
  {
    var p := AbsencePolls(g, interval);
    if polls > 0 {
      PollsAreSpaced(p, polls - 1);
    }
    forall k: nat | k < polls - 1
      ensures g.sandbox(k).Reply?
    {
      assert !p.settled(k);
    }
  }
}
