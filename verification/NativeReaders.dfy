/** The two bounded output readers of the native provider. Each reader task loops over its pipe and, for
    every chunk, performs two atomic operations on shared counters: it adds to its own counter, then loads
    the other one. A run is any sequentially consistent interleaving of those operations. */
module NativeReaders {
  import opened RuntimeContract

  datatype Stream = Out | Err

  function Kind(who: Stream): OutputLimitKind {
    if who == Out then Stdout else OutputLimitKind.Stderr
  }

  function Other(who: Stream): Stream {
    if who == Out then Stream.Err else Out
  }

  function StreamLimit(limits: OutputLimits, who: Stream): nat {
    if who == Out then limits.stdout else limits.stderr
  }

  datatype ReadResult = ReadResult(bytes: Bytes, overflow: Option<OutputLimitKind>)

  /** The verdict on one chunk, from the reader's own total after its add and the loaded other total. */
  function Judge(limits: OutputLimits, who: Stream, read: nat, own: nat, other: nat): Option<OutputLimitKind> {
    if read > limits.chunk then Some(Chunk)
    else if own > StreamLimit(limits, who) then Some(Kind(who))
    else if SaturatingAdd(own, other) > limits.combined then Some(Combined)
    else None
  }

  /** What a reader holds after judging one more chunk: the first overflow sticks and stops retention. */
  function Absorb(result: ReadResult, chunk: Bytes, verdict: Option<OutputLimitKind>): ReadResult {
    if result.overflow.Some? then result
    else if verdict.Some? then result.(overflow := verdict)
    else result.(bytes := result.bytes + chunk)
  }

  function Flatten(chunks: seq<Bytes>): (r: Bytes) {
    if chunks == [] then [] else Flatten(chunks[..|chunks| - 1]) + chunks[|chunks| - 1]
  }

  lemma FlattenSnoc(chunks: seq<Bytes>, chunk: Bytes)
    ensures Flatten(chunks + [chunk]) == Flatten(chunks) + chunk
  {
    assert (chunks + [chunk])[..|chunks|] == chunks;
  }

  /** What one reader computes from the chunks it read and the other-counter values it loaded. */
  function ReadSpec(limits: OutputLimits, who: Stream, chunks: seq<Bytes>, loads: seq<nat>): ReadResult
    requires |loads| == |chunks|
  {
    if chunks == [] then ReadResult([], None)
    else
      var n := |chunks| - 1;
      Absorb(ReadSpec(limits, who, chunks[..n], loads[..n]), chunks[n],
             Judge(limits, who, |chunks[n]|, |Flatten(chunks)|, loads[n]))
  }

  lemma {:induction false} ReadOneMore(limits: OutputLimits, who: Stream, chunks: seq<Bytes>, loads: seq<nat>, i: nat)
    requires |loads| == |chunks| && i < |chunks|
    ensures Flatten(chunks[..i + 1]) == Flatten(chunks[..i]) + chunks[i]
    ensures ReadSpec(limits, who, chunks[..i + 1], loads[..i + 1]) ==
            Absorb(ReadSpec(limits, who, chunks[..i], loads[..i]), chunks[i],
                   Judge(limits, who, |chunks[i]|, |Flatten(chunks[..i + 1])|, loads[i]))
  {
    assert chunks[..i + 1] == chunks[..i] + [chunks[i]];
    assert chunks[..i + 1][..i] == chunks[..i] && loads[..i + 1][..i] == loads[..i];
    FlattenSnoc(chunks[..i], chunks[i]);
  }

  /** `read_bounded`: one reader's loop, given the values it happens to load from the other counter. */
  method ReadBounded(limits: OutputLimits, who: Stream, chunks: seq<Bytes>, loads: seq<nat>)
    returns (result: ReadResult, ownCount: nat)
    requires |loads| == |chunks|
    ensures ownCount == |Flatten(chunks)|
    ensures result == ReadSpec(limits, who, chunks, loads)
    ensures result.bytes <= Flatten(chunks)
    ensures result.overflow.None? ==> result.bytes == Flatten(chunks)
  {
    result, ownCount := ReadResult([], None), 0;
    var i := 0;
    while i < |chunks|
      invariant 0 <= i <= |chunks|
      invariant ownCount == |Flatten(chunks[..i])|
      invariant result == ReadSpec(limits, who, chunks[..i], loads[..i])
      invariant result.bytes <= Flatten(chunks[..i])
      invariant result.overflow.None? ==> result.bytes == Flatten(chunks[..i])
    {
      var read := |chunks[i]|;
      ReadOneMore(limits, who, chunks, loads, i);
      ownCount := ownCount + read;
      var overflow := Judge(limits, who, read, ownCount, loads[i]);
      if overflow.Some? {
        if result.overflow.None? {
          result := result.(overflow := overflow);
        }
      } else if result.overflow.None? {
        result := result.(bytes := result.bytes + chunks[i]);
      }
      i := i + 1;
    }
    assert chunks[..i] == chunks && loads[..i] == loads;
  }

  /** One reader task: chunks already counted, the loads made for them, and whether the load for the last
      counted chunk is still to come. */
  datatype Reader = Reader(unread: seq<Bytes>, counted: seq<Bytes>, loads: seq<nat>, adding: bool, result: ReadResult)

  datatype Readers = Readers(out: Reader, err: Reader, outCount: nat, errCount: nat)

  function Get(s: Readers, who: Stream): Reader {
    if who == Out then s.out else s.err
  }

  function Count(s: Readers, who: Stream): nat {
    if who == Out then s.outCount else s.errCount
  }

  function Put(s: Readers, who: Stream, reader: Reader, count: nat): Readers {
    if who == Out then s.(out := reader, outCount := count) else s.(err := reader, errCount := count)
  }

  function Start(out: seq<Bytes>, err: seq<Bytes>): Readers {
    Readers(Reader(out, [], [], false, ReadResult([], None)), Reader(err, [], [], false, ReadResult([], None)), 0, 0)
  }

  function Loaded(limits: OutputLimits, who: Stream, r: Reader, own: nat, other: nat): Reader
    requires r.counted != []
  {
    var chunk := r.counted[|r.counted| - 1];
    var verdict := Judge(limits, who, |chunk|, own, other);
    r.(adding := false, loads := r.loads + [other], result := Absorb(r.result, chunk, verdict))
  }

  /** The next atomic operation of one reader: the load that completes a counted chunk, or the add that
      counts the next one. At end of file nothing happens. */
  function Step(limits: OutputLimits, s: Readers, who: Stream): Readers {
    var r := Get(s, who);
    if r.adding && r.counted != [] then
      Put(s, who, Loaded(limits, who, r, Count(s, who), Count(s, Other(who))), Count(s, who))
    else if r.unread != [] then
      Put(s, who, r.(unread := r.unread[1..], counted := r.counted + [r.unread[0]], adding := true),
          Count(s, who) + |r.unread[0]|)
    else s
  }

  function Run(limits: OutputLimits, s: Readers, schedule: seq<Stream>): Readers {
    if schedule == [] then s
    else Step(limits, Run(limits, s, schedule[..|schedule| - 1]), schedule[|schedule| - 1])
  }

  /** The chunks whose both operations are done. */
  function Judged(r: Reader): seq<Bytes> {
    if r.adding && r.counted != [] then r.counted[..|r.counted| - 1] else r.counted
  }

  predicate ReaderOk(limits: OutputLimits, who: Stream, r: Reader, count: nat) {
    && count == |Flatten(r.counted)|
    && (r.adding ==> r.counted != [])
    && |r.loads| == |Judged(r)|
    && r.result == ReadSpec(limits, who, Judged(r), r.loads)
    && r.result.bytes <= Flatten(Judged(r))
    && |r.result.bytes| <= count
    && |r.result.bytes| <= StreamLimit(limits, who)
    && (r.result.overflow.None? ==> r.result.bytes == Flatten(Judged(r)))
  }

  /** The given ceiling is truly exceeded. */
  predicate ExceedsCeiling(limits: OutputLimits, out: seq<Bytes>, err: seq<Bytes>, kind: OutputLimitKind) {
    match kind
    case Chunk =>
      || (exists i :: 0 <= i < |out| && |out[i]| > limits.chunk)
      || (exists i :: 0 <= i < |err| && |err[i]| > limits.chunk)
    case Stdout => |Flatten(out)| > limits.stdout
    case Stderr => |Flatten(err)| > limits.stderr
    case Combined => |Flatten(out)| + |Flatten(err)| > limits.combined
  }

  predicate Exceeds(limits: OutputLimits, out: seq<Bytes>, err: seq<Bytes>) {
    || ExceedsCeiling(limits, out, err, Chunk) || ExceedsCeiling(limits, out, err, Stdout)
    || ExceedsCeiling(limits, out, err, OutputLimitKind.Stderr) || ExceedsCeiling(limits, out, err, Combined)
  }

  /** A raised flag names a ceiling that the counted bytes exceed. */
  predicate Justified(limits: OutputLimits, s: Readers, r: Reader) {
    r.result.overflow.Some? ==> ExceedsCeiling(limits, s.out.counted, s.err.counted, r.result.overflow.value)
  }

  predicate Flagged(s: Readers) {
    s.out.result.overflow.Some? || s.err.result.overflow.Some?
  }

  /** Some reader has raised this flag. A reader raises one flag at most, and keeps it. */
  predicate Raised(s: Readers, kind: OutputLimitKind) {
    s.out.result.overflow == Some(kind) || s.err.result.overflow == Some(kind)
  }

  /** The chunks of `r` without a verdict yet are at most the last counted one; all others satisfy every ceiling
      that their own reader checks, unless it has flagged. */
  predicate Clean(limits: OutputLimits, who: Stream, r: Reader) {
    r.result.overflow.None? ==>
      && (forall i :: 0 <= i < |Judged(r)| ==> |Judged(r)[i]| <= limits.chunk)
      && |Flatten(Judged(r))| <= StreamLimit(limits, who)
  }

  /** A pending load will see an excess of the combined ceiling: it was missed only while an add awaits its load. */
  predicate Inv(limits: OutputLimits, s: Readers) {
    && ReaderOk(limits, Out, s.out, s.outCount) && ReaderOk(limits, Stream.Err, s.err, s.errCount)
    && Clean(limits, Out, s.out) && Clean(limits, Stream.Err, s.err)
    && |s.out.result.bytes| + |s.err.result.bytes| <= limits.combined
    && (!Flagged(s) && !s.out.adding && !s.err.adding ==> s.outCount + s.errCount <= limits.combined)
    && Justified(limits, s, s.out) && Justified(limits, s, s.err)
  }

  /** All bytes the pipes will ever deliver fit the 64-bit counters. */
  predicate Fits(s: Readers) {
    |Flatten(s.out.counted + s.out.unread)| + |Flatten(s.err.counted + s.err.unread)| <= U64_MAX
  }

  lemma {:induction false} FlattenPrefix(a: seq<Bytes>, b: seq<Bytes>)
    ensures |Flatten(a)| <= |Flatten(a + b)|
  {
    if b == [] {
      assert a + b == a;
    } else {
      var n := |b| - 1;
      FlattenPrefix(a, b[..n]);
      assert a + b == (a + b[..n]) + [b[n]];
      FlattenSnoc(a + b[..n], b[n]);
    }
  }

  lemma ExceedsGrows(limits: OutputLimits, out: seq<Bytes>, err: seq<Bytes>, kind: OutputLimitKind, who: Stream,
                     chunk: Bytes)
    requires ExceedsCeiling(limits, out, err, kind)
    ensures who == Out ==> ExceedsCeiling(limits, out + [chunk], err, kind)
    ensures who == Stream.Err ==> ExceedsCeiling(limits, out, err + [chunk], kind)
  {
    FlattenSnoc(out, chunk);
    FlattenSnoc(err, chunk);
    assert forall i :: 0 <= i < |out| ==> (out + [chunk])[i] == out[i];
    assert forall i :: 0 <= i < |err| ==> (err + [chunk])[i] == err[i];
  }

  lemma AddKeeps(limits: OutputLimits, s: Readers, who: Stream)
    requires Inv(limits, s) && !Get(s, who).adding && Get(s, who).unread != []
    ensures Inv(limits, Step(limits, s, who))
  {
    var r := Get(s, who);
    var chunk := r.unread[0];
    FlattenSnoc(r.counted, chunk);
    assert Judged(Get(Step(limits, s, who), who)) == r.counted;
    if s.out.result.overflow.Some? {
      ExceedsGrows(limits, s.out.counted, s.err.counted, s.out.result.overflow.value, who, chunk);
    }
    if s.err.result.overflow.Some? {
      ExceedsGrows(limits, s.out.counted, s.err.counted, s.err.result.overflow.value, who, chunk);
    }
  }

  /** One reader's load: what it keeps, and what a raised or withheld flag says. */
  lemma LoadReader(limits: OutputLimits, who: Stream, r: Reader, count: nat, other: nat)
    requires ReaderOk(limits, who, r, count) && Clean(limits, who, r) && r.adding && count + other <= U64_MAX
    ensures var r' := Loaded(limits, who, r, count, other);
            && ReaderOk(limits, who, r', count) && Clean(limits, who, r')
            && (r'.result.overflow.None? ==> count + other <= limits.combined)
            && (r'.result.bytes == r.result.bytes || |r'.result.bytes| + other <= limits.combined)
            && (r.result.overflow.Some? ==> r'.result.overflow == r.result.overflow)
            && (r'.result.overflow.Some? && r.result.overflow.None? ==>
                  || (r'.result.overflow == Some(Chunk) && |r.counted[|r.counted| - 1]| > limits.chunk)
                  || (r'.result.overflow == Some(Kind(who)) && count > StreamLimit(limits, who))
                  || (r'.result.overflow == Some(Combined) && count + other > limits.combined))
  {
    var n := |r.counted| - 1;
    var chunk := r.counted[n];
    assert r.counted == r.counted[..n] + [chunk];
    FlattenSnoc(r.counted[..n], chunk);
    var r' := Loaded(limits, who, r, count, other);
    assert Judged(r') == r.counted && r'.loads[..n] == r.loads && r'.loads[n] == other;
  }

  lemma LoadKeeps(limits: OutputLimits, s: Readers, who: Stream)
    requires Inv(limits, s) && Fits(s) && Get(s, who).adding
    ensures Inv(limits, Step(limits, s, who))
  {
    FlattenPrefix(s.out.counted, s.out.unread);
    FlattenPrefix(s.err.counted, s.err.unread);
    LoadReader(limits, who, Get(s, who), Count(s, who), Count(s, Other(who)));
    LoadIsJustified(limits, s, who);
  }

  /** A flag raised by the load names a ceiling that the counts exceed; one raised before is kept. */
  lemma LoadIsJustified(limits: OutputLimits, s: Readers, who: Stream)
    requires Inv(limits, s) && Get(s, who).adding && s.outCount + s.errCount <= U64_MAX
    ensures var s' := Step(limits, s, who); Justified(limits, s', s'.out) && Justified(limits, s', s'.err)
  {
    LoadReader(limits, who, Get(s, who), Count(s, who), Count(s, Other(who)));
  }

  lemma StepKeeps(limits: OutputLimits, s: Readers, who: Stream)
    requires Inv(limits, s) && Fits(s)
    ensures Inv(limits, Step(limits, s, who))
  {
    if Get(s, who).adding {
      LoadKeeps(limits, s, who);
    } else if Get(s, who).unread != [] {
      AddKeeps(limits, s, who);
    }
  }

  lemma StepKeepsSources(limits: OutputLimits, s: Readers, who: Stream)
    ensures Sources(Step(limits, s, who)) == Sources(s)
  {
    var r := Get(s, who);
    if r.unread != [] {
      assert r.counted + r.unread == (r.counted + [r.unread[0]]) + r.unread[1..];
    }
  }

  /** The full contents of the two pipes, read and unread. */
  function Sources(s: Readers): (seq<Bytes>, seq<Bytes>) {
    (s.out.counted + s.out.unread, s.err.counted + s.err.unread)
  }

  lemma {:induction false} RunKeeps(limits: OutputLimits, out: seq<Bytes>, err: seq<Bytes>, schedule: seq<Stream>)
    requires |Flatten(out)| + |Flatten(err)| <= U64_MAX
    ensures var s := Run(limits, Start(out, err), schedule);
            Inv(limits, s) && Fits(s) && Sources(s) == (out, err)
  {
    if schedule == [] {
      assert [] + out == out && [] + err == err;
    } else {
      RunKeeps(limits, out, err, schedule[..|schedule| - 1]);
      var s := Run(limits, Start(out, err), schedule[..|schedule| - 1]);
      StepKeeps(limits, s, schedule[|schedule| - 1]);
      StepKeepsSources(limits, s, schedule[|schedule| - 1]);
    }
  }

  /** Both readers reached end of file: nothing unread and no load outstanding. */
  predicate Finished(s: Readers) {
    s.out.unread == [] && s.err.unread == [] && !s.out.adding && !s.err.adding
  }

  /** The operations a reader has yet to perform. */
  function Left(r: Reader): nat {
    2 * |r.unread| + if r.adding && r.counted != [] then 1 else 0
  }

  function Monus(a: nat, b: nat): nat {
    if a <= b then 0 else a - b
  }

  lemma StepLeaves(limits: OutputLimits, s: Readers, who: Stream)
    requires forall w :: Get(s, w).adding ==> Get(s, w).counted != []
    ensures var s' := Step(limits, s, who);
            && Left(Get(s', who)) == Monus(Left(Get(s, who)), 1) && Get(s', Other(who)) == Get(s, Other(who))
            && (forall w :: Get(s', w).adding ==> Get(s', w).counted != [])
  {
  }

  lemma {:induction false} RunLeaves(limits: OutputLimits, out: seq<Bytes>, err: seq<Bytes>, schedule: seq<Stream>)
    ensures var s := Run(limits, Start(out, err), schedule);
            && Left(s.out) == Monus(2 * |out|, multiset(schedule)[Out])
            && Left(s.err) == Monus(2 * |err|, multiset(schedule)[Stream.Err])
            && (forall w :: Get(s, w).adding ==> Get(s, w).counted != [])
  {
    if schedule != [] {
      var n := |schedule| - 1;
      RunLeaves(limits, out, err, schedule[..n]);
      assert schedule == schedule[..n] + [schedule[n]];
      StepLeaves(limits, Run(limits, Start(out, err), schedule[..n]), schedule[n]);
    }
  }

  /** Both readers reach end of file exactly when the schedule gives each its two operations per chunk. */
  lemma FinishedIffScheduled(limits: OutputLimits, out: seq<Bytes>, err: seq<Bytes>, schedule: seq<Stream>)
    ensures Finished(Run(limits, Start(out, err), schedule)) <==>
            multiset(schedule)[Out] >= 2 * |out| && multiset(schedule)[Stream.Err] >= 2 * |err|
  {
    RunLeaves(limits, out, err, schedule);
    var s := Run(limits, Start(out, err), schedule);
    assert Get(s, Out) == s.out && Get(s, Stream.Err) == s.err;
  }

  /** Output ceilings under every interleaving: at the end some reader has flagged an overflow exactly when a
      ceiling was truly exceeded, and without one both results carry exactly the bytes the pipes delivered. */
  lemma CeilingsAreExact(limits: OutputLimits, out: seq<Bytes>, err: seq<Bytes>, schedule: seq<Stream>)
    requires |Flatten(out)| + |Flatten(err)| <= U64_MAX
    requires Finished(Run(limits, Start(out, err), schedule))
    ensures var s := Run(limits, Start(out, err), schedule);
            && (Flagged(s) <==> Exceeds(limits, out, err))
            && (!Flagged(s) ==> s.out.result.bytes == Flatten(out) && s.err.result.bytes == Flatten(err))
            && (forall k :: Raised(s, k) ==> ExceedsCeiling(limits, out, err, k))
            && s.outCount == |Flatten(out)| && s.errCount == |Flatten(err)|
  {
    RunKeeps(limits, out, err, schedule);
    FinishedIsExact(limits, out, err, Run(limits, Start(out, err), schedule));
  }

  lemma FinishedIsExact(limits: OutputLimits, out: seq<Bytes>, err: seq<Bytes>, s: Readers)
    requires Inv(limits, s) && Sources(s) == (out, err) && Finished(s)
    ensures Flagged(s) <==> Exceeds(limits, out, err)
    ensures !Flagged(s) ==> s.out.result.bytes == Flatten(out) && s.err.result.bytes == Flatten(err)
    ensures forall k :: Raised(s, k) ==> ExceedsCeiling(limits, out, err, k)
    ensures s.outCount == |Flatten(out)| && s.errCount == |Flatten(err)|
  {
    assert s.out.counted == out && s.err.counted == err;
    assert Judged(s.out) == out && Judged(s.err) == err;
  }

  /** At every instant of every interleaving the retained bytes respect each stream ceiling and the combined
      one, are a prefix of what was read, and a raised flag is justified by bytes already counted. */
  lemma RetentionIsBounded(limits: OutputLimits, out: seq<Bytes>, err: seq<Bytes>, schedule: seq<Stream>)
    requires |Flatten(out)| + |Flatten(err)| <= U64_MAX
    ensures var s := Run(limits, Start(out, err), schedule);
            && |s.out.result.bytes| <= limits.stdout && |s.err.result.bytes| <= limits.stderr
            && |s.out.result.bytes| + |s.err.result.bytes| <= limits.combined
            && s.out.result.bytes <= Flatten(s.out.counted) && s.err.result.bytes <= Flatten(s.err.counted)
            && s.out.counted <= out && s.err.counted <= err
            && (forall k :: Raised(s, k) ==> ExceedsCeiling(limits, s.out.counted, s.err.counted, k))
  {
    RunKeeps(limits, out, err, schedule);
    var s := Run(limits, Start(out, err), schedule);
    JudgedIsPrefix(s.out);
    JudgedIsPrefix(s.err);
  }

  lemma JudgedIsPrefix(r: Reader)
    ensures Flatten(Judged(r)) <= Flatten(r.counted)
  {
    if r.adding && r.counted != [] {
      FlattenSnoc(Judged(r), r.counted[|r.counted| - 1]);
    }
  }

  /** How the wait on the child ended; an exit may carry no observable code. */
  datatype WaitOutcome =
    | Exited(code: Option<nat>) | Overflow(kind: OutputLimitKind) | CommandTimeout | DeadlineElapsed
    | CancelledByCaller | WaitFailed

  /** The classification that ends the native `exec`, after both readers reached end of file. */
  function Classify(target: nat, outcome: WaitOutcome, out: ReadResult, err: ReadResult, counts: OutputByteCounts,
                    evidence: nat): Result<ExecCompleted, ExecFailure>
  {
    var detected := if outcome.Overflow? then Some(outcome.kind)
                    else if out.overflow.Some? then out.overflow else err.overflow;
    if detected.Some? then
      Failure(Expect(OutputLimitExceededFailure(target, TimeoutUnknown, counts, detected.value)))
    else match outcome
      case Exited(None) => Failure(Expect(MissingTerminalExitFailure(target, TimeoutUnknown, counts)))
      case Exited(Some(code)) => Success(ExecCompleted(code, out.bytes, err.bytes, NotObserved, evidence))
      case CommandTimeout => Success(ExecCompleted(124, out.bytes, err.bytes, Confirmed, evidence))
      case DeadlineElapsed => Failure(Expect(PossiblyDispatchedFailure(target, Deadline, TimeoutUnknown, counts)))
      case CancelledByCaller => Failure(Expect(PossiblyDispatchedFailure(target, Cancelled, TimeoutUnknown, counts)))
      case WaitFailed => Failure(Expect(PossiblyDispatchedFailure(target, Transport, TimeoutUnknown, counts)))
  }

  /** What a wait that ended without an exit is reported as. */
  function CodeOf(outcome: WaitOutcome): ExecFailureCode {
    match outcome
    case DeadlineElapsed => Deadline
    case CancelledByCaller => Cancelled
    case WaitFailed => Transport
    case _ => MissingTerminalExit
  }

  /** The whole native execution, for every interleaving and every way the wait can end: it completes exactly when the
      command exited observably or timed out and no ceiling was truly exceeded; a completed result carries exactly the
      delivered bytes and its exit; an excess is always reported as such, with the true byte counts and a ceiling that
      was truly exceeded, and otherwise a failure names how the wait ended. The overflow that ends the wait is one a
      reader has raised. */
  lemma NativeExecIsExact(limits: OutputLimits, out: seq<Bytes>, err: seq<Bytes>, schedule: seq<Stream>,
                          target: nat, outcome: WaitOutcome, evidence: nat)
    requires |Flatten(out)| + |Flatten(err)| <= U64_MAX
    requires Finished(Run(limits, Start(out, err), schedule))
    requires outcome.Overflow? ==> Raised(Run(limits, Start(out, err), schedule), outcome.kind)
    ensures var s := Run(limits, Start(out, err), schedule);
            var r := Classify(target, outcome, s.out.result, s.err.result, OutputByteCounts(s.outCount, s.errCount),
                              evidence);
            && (r.Success? <==>
                !Exceeds(limits, out, err) && (outcome.CommandTimeout? || (outcome.Exited? && outcome.code.Some?)))
            && (r.Success? ==> r.value.stdout == Flatten(out) && r.value.stderr == Flatten(err))
            && (r.Success? ==>
                  && r.value.evidence == evidence
                  && (if outcome.Exited? then r.value.exitCode == outcome.code.value && r.value.timeout == NotObserved
                      else r.value.exitCode == 124 && r.value.timeout == Confirmed))
            && (r.Failure? && !Exceeds(limits, out, err) ==> r.error.code == CodeOf(outcome))
            && (r.Failure? ==>
                  && Coherent(r.error) && r.error.dispatchState == PossiblyDispatched && r.error.cleanupTarget == target
                  && (r.error.code == OutputLimitExceeded <==> Exceeds(limits, out, err))
                  && (r.error.outputLimit.Some? ==> ExceedsCeiling(limits, out, err, r.error.outputLimit.value))
                  && r.error.counts == OutputByteCounts(|Flatten(out)|, |Flatten(err)|))
  {
    CeilingsAreExact(limits, out, err, schedule);
  }
}
