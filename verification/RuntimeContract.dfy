/** Values shared by the runtime contract: byte strings, machine-integer arithmetic,
    output ceilings and counts, and execution results and failures. */
module RuntimeContract {

  type Byte = b: int | 0 <= b < 256
  type Bytes = seq<Byte>

  const U64_MAX: nat := 0xffff_ffff_ffff_ffff

  /** `u64::saturating_add`. */
  function SaturatingAdd(a: nat, b: nat): (r: nat)
    ensures r <= a + b
    ensures a + b <= U64_MAX ==> r == a + b
    ensures a + b > U64_MAX ==> r == U64_MAX
  {
    if a + b <= U64_MAX then a + b else U64_MAX
  }

  /** `u64::try_from(len).unwrap_or(u64::MAX)`. */
  function ToU64(n: nat): (r: nat)
    ensures r <= U64_MAX
    ensures n <= U64_MAX ==> r == n
  {
    if n <= U64_MAX then n else U64_MAX
  }

  datatype Option<+T> = None | Some(value: T)

  datatype Result<+T, +E> = Success(value: T) | Failure(error: E)

  datatype DispatchState = NotDispatched | PossiblyDispatched

  datatype ObservedTimeout = NotObserved | Confirmed | Possible

  datatype FailureTimeout = TimeoutNotObserved | TimeoutConfirmed | TimeoutPossible | TimeoutUnknown

  datatype OutputLimitKind = Stdout | Stderr | Combined | Chunk

  datatype OutputLimits = OutputLimits(stdout: nat, stderr: nat, combined: nat, chunk: nat)

  datatype OutputByteCounts = OutputByteCounts(stdout: nat, stderr: nat)

  const NoBytes := OutputByteCounts(0, 0)

  /** Isolation evidence is opaque here: 0 stands for the empty evidence of `ExecCompleted::new`. */
  datatype ExecCompleted = ExecCompleted(exitCode: nat, stdout: Bytes, stderr: Bytes,
                                         timeout: ObservedTimeout, evidence: nat)

  const NO_EVIDENCE: nat := 0

  datatype ExecFailureCode =
    | Transport | Deadline | Cancelled | MissingTerminalExit | OutputLimitExceeded | Protocol | Provider

  datatype ExecFailure = ExecFailure(cleanupTarget: nat, dispatchState: DispatchState, timeoutState: FailureTimeout,
                                     code: ExecFailureCode, counts: OutputByteCounts,
                                     outputLimit: Option<OutputLimitKind>)

  datatype InvalidCombination = InvalidCombination

  predicate SpecialCode(code: ExecFailureCode) {
    code == MissingTerminalExit || code == OutputLimitExceeded
  }

  /** The combinations of evidence an execution failure may carry, stated from the reader's side: a failure
      proven before dispatch carries no evidence of a run, and a ceiling is named exactly by overflow failures. */
  predicate Coherent(f: ExecFailure) {
    if f.dispatchState == NotDispatched then
      f.timeoutState == TimeoutNotObserved && f.counts == NoBytes && f.outputLimit.None? && !SpecialCode(f.code)
    else
      f.timeoutState != TimeoutNotObserved && (f.outputLimit.Some? <==> f.code == OutputLimitExceeded)
  }

  function Validated(f: ExecFailure): Result<ExecFailure, InvalidCombination> {
    var invalid := match f.dispatchState
      case NotDispatched =>
        f.timeoutState != TimeoutNotObserved || f.counts != NoBytes || f.outputLimit.Some? || SpecialCode(f.code)
      case PossiblyDispatched =>
        || f.timeoutState == TimeoutNotObserved
        || (f.code == MissingTerminalExit && f.outputLimit.Some?)
        || (f.code == OutputLimitExceeded && f.outputLimit.None?)
        || (!SpecialCode(f.code) && f.outputLimit.Some?);
    if invalid then Failure(InvalidCombination) else Success(f)
  }

  function NotDispatchedFailure(target: nat, code: ExecFailureCode): (r: Result<ExecFailure, InvalidCombination>)
    ensures r.Success? <==> !SpecialCode(code)
    ensures r.Success? ==>
            Coherent(r.value) && r.value.dispatchState == NotDispatched && r.value.cleanupTarget == target &&
            r.value.code == code
  {
    Validated(ExecFailure(target, NotDispatched, TimeoutNotObserved, code, NoBytes, None))
  }

  function PossiblyDispatchedFailure(target: nat, code: ExecFailureCode, timeout: FailureTimeout,
                                     counts: OutputByteCounts): (r: Result<ExecFailure, InvalidCombination>)
    ensures r.Success? <==> !SpecialCode(code) && timeout != TimeoutNotObserved
    ensures r.Success? ==> Coherent(r.value) && r.value.dispatchState == PossiblyDispatched
                           && r.value.cleanupTarget == target && r.value.counts == counts
                           && r.value.code == code && r.value.timeoutState == timeout
  {
    if SpecialCode(code) then Failure(InvalidCombination)
    else Validated(ExecFailure(target, PossiblyDispatched, timeout, code, counts, None))
  }

  function MissingTerminalExitFailure(target: nat, timeout: FailureTimeout, counts: OutputByteCounts):
    (r: Result<ExecFailure, InvalidCombination>)
    ensures r.Success? <==> timeout != TimeoutNotObserved
    ensures r.Success? ==> Coherent(r.value) && r.value.dispatchState == PossiblyDispatched
                           && r.value.cleanupTarget == target && r.value.counts == counts
                           && r.value.code == MissingTerminalExit && r.value.timeoutState == timeout
  {
    Validated(ExecFailure(target, PossiblyDispatched, timeout, MissingTerminalExit, counts, None))
  }

  function OutputLimitExceededFailure(target: nat, timeout: FailureTimeout, counts: OutputByteCounts,
                                      kind: OutputLimitKind): (r: Result<ExecFailure, InvalidCombination>)
    ensures r.Success? <==> timeout != TimeoutNotObserved
    ensures r.Success? ==> Coherent(r.value) && r.value.dispatchState == PossiblyDispatched
                           && r.value.cleanupTarget == target && r.value.counts == counts
                           && r.value.outputLimit == Some(kind)
                           && r.value.code == OutputLimitExceeded && r.value.timeoutState == timeout
  {
    Validated(ExecFailure(target, PossiblyDispatched, timeout, OutputLimitExceeded, counts, Some(kind)))
  }

  /** `validated` accepts a combination exactly when it is coherent. */
  lemma ValidatedIffCoherent(f: ExecFailure)
    ensures Validated(f).Success? <==> Coherent(f)
    ensures Validated(f).Success? ==> Validated(f).value == f
  {
  }

  /** `expect` on a constructor: callable only where the combination is provably accepted. */
  function Expect<T>(r: Result<T, InvalidCombination>): T
    requires r.Success?
  {
    r.value
  }
}
