/** The bounded collector of an execution stream, and its refinement of a declarative account of which event
    sequences complete and which failure the others report. */
module OutputCollection {
  import opened RuntimeContract

  datatype Event = StdoutData(data: Bytes) | StderrData(data: Bytes) | Exit(code: int, timeout: ObservedTimeout)

  datatype CollectionFailure =
    | MissingExit(counts: OutputByteCounts)
    | Overflow(counts: OutputByteCounts, kind: OutputLimitKind)
    | ProtocolViolation(counts: OutputByteCounts)

  datatype CollectedOutput = CollectedOutput(exitCode: nat, stdout: Bytes, stderr: Bytes, timeout: ObservedTimeout)

  const MAX_STDOUT_BYTES := 1024 * 1024
  const MAX_STDERR_BYTES := 1024 * 1024
  const MAX_COMBINED_BYTES := 2 * 1024 * 1024
  const MAX_CHUNK_BYTES := 4 * 1024 * 1024

  predicate WithinProcessCeiling(limits: OutputLimits) {
    && limits.stdout <= MAX_STDOUT_BYTES && limits.stderr <= MAX_STDERR_BYTES
    && limits.combined <= MAX_COMBINED_BYTES && limits.chunk <= MAX_CHUNK_BYTES
  }

  /** The process ceilings are themselves admissible, and nothing above any of them is. */
  lemma CeilingsAreTheLargest(limits: OutputLimits)
    ensures WithinProcessCeiling(OutputLimits(MAX_STDOUT_BYTES, MAX_STDERR_BYTES, MAX_COMBINED_BYTES, MAX_CHUNK_BYTES))
    ensures WithinProcessCeiling(limits) ==>
              && limits.stdout <= MAX_STDOUT_BYTES && limits.stderr <= MAX_STDERR_BYTES
              && limits.combined <= MAX_COMBINED_BYTES && limits.chunk <= MAX_CHUNK_BYTES
  {
  }

  /** Everything a sequence of events says on standard output, in order. */
  function OutBytes(events: seq<Event>): Bytes {
    if events == [] then [] else
      OutBytes(events[..|events| - 1]) + (match events[|events| - 1] case StdoutData(d) => d case _ => [])
  }

  function ErrBytes(events: seq<Event>): Bytes {
    if events == [] then [] else
      ErrBytes(events[..|events| - 1]) + (match events[|events| - 1] case StderrData(d) => d case _ => [])
  }

  /** Byte counts as the 64-bit evidence reports them. */
  function Counts(events: seq<Event>): OutputByteCounts {
    OutputByteCounts(ToU64(|OutBytes(events)|), ToU64(|ErrBytes(events)|))
  }

  /** The event sequences that break no rule: at most one exit, nonnegative and last, and every ceiling kept,
      over unbounded integers. */
  predicate Clean(limits: OutputLimits, events: seq<Event>) {
    && (forall i :: 0 <= i < |events| && events[i].Exit? ==> i == |events| - 1 && events[i].code >= 0)
    && (forall i :: 0 <= i < |events| && !events[i].Exit? ==> |events[i].data| <= limits.chunk)
    && |OutBytes(events)| <= limits.stdout
    && |ErrBytes(events)| <= limits.stderr
    && |OutBytes(events)| + |ErrBytes(events)| <= limits.combined
  }

  predicate Ended(events: seq<Event>) {
    events != [] && events[|events| - 1].Exit?
  }

  /** The failure reported when `e` is the first event to break a rule after the clean `before`; a ceiling is
      named in the order chunk, stream, combined, with counts that include the offending chunk. */
  function Fault(limits: OutputLimits, before: seq<Event>, e: Event): CollectionFailure {
    if Ended(before) || e.Exit? then ProtocolViolation(Counts(before))
    else
      var after := before + [e];
      var kind :=
        if |e.data| > limits.chunk then Chunk
        else if e.StdoutData? && |OutBytes(after)| > limits.stdout then Stdout
        else if e.StderrData? && |ErrBytes(after)| > limits.stderr then Stderr
        else Combined;
      Overflow(Counts(after), kind)
  }

  /** The ceiling is exceeded by a chunk of this size and the counts after it. */
  predicate Over(limits: OutputLimits, chunkBytes: nat, counts: OutputByteCounts, kind: OutputLimitKind) {
    match kind
    case Chunk => chunkBytes > limits.chunk
    case Stdout => counts.stdout > limits.stdout
    case Stderr => counts.stderr > limits.stderr
    case Combined => counts.stdout + counts.stderr > U64_MAX || counts.stdout + counts.stderr > limits.combined
  }

  lemma BytesSnoc(events: seq<Event>, e: Event)
    ensures OutBytes(events + [e]) == OutBytes(events) + (match e case StdoutData(d) => d case _ => [])
    ensures ErrBytes(events + [e]) == ErrBytes(events) + (match e case StderrData(d) => d case _ => [])
  {
    assert (events + [e])[..|events|] == events;
  }

  /** Extending a clean sequence keeps it clean exactly when the new event alone breaks no rule. */
  lemma CleanSnoc(limits: OutputLimits, events: seq<Event>, e: Event)
    requires Clean(limits, events)
    ensures Clean(limits, events + [e]) <==>
            && !Ended(events)
            && (e.Exit? ==> e.code >= 0)
            && (!e.Exit? ==> |e.data| <= limits.chunk)
            && |OutBytes(events + [e])| <= limits.stdout && |ErrBytes(events + [e])| <= limits.stderr
            && |OutBytes(events + [e])| + |ErrBytes(events + [e])| <= limits.combined
  {
    var all := events + [e];
    assert forall i :: 0 <= i < |events| ==> all[i] == events[i];
    assert all[|events|] == e;
    if Ended(events) {
      assert all[|events| - 1].Exit?;
    }
  }

  class OutputCollector {
    const limits: OutputLimits
    var stdout: Bytes
    var stderr: Bytes
    var counts: OutputByteCounts
    var terminal: Option<(nat, ObservedTimeout)>
    ghost var seen: seq<Event>

    ghost predicate Valid()
      reads this
    {
      && WithinProcessCeiling(limits)
      && Clean(limits, seen)
      && stdout == OutBytes(seen) && stderr == ErrBytes(seen) && counts == Counts(seen)
      && (terminal.Some? <==> Ended(seen))
      && (Ended(seen) ==> terminal == Some((seen[|seen| - 1].code, seen[|seen| - 1].timeout)))
    }

    constructor (limits: OutputLimits)
      requires WithinProcessCeiling(limits)
      ensures Valid() && this.limits == limits && seen == []
    {
      this.limits := limits;
      stdout, stderr, counts, terminal, seen := [], [], NoBytes, None, [];
    }

    /** Accepts the event exactly when the sequence so far stays clean, and otherwise reports the fault. */
    method Push(e: Event) returns (r: Result<(), CollectionFailure>)
      requires Valid()
      modifies this
      ensures r.Success? <==> Clean(limits, old(seen) + [e])
      ensures r.Success? ==> Valid() && seen == old(seen) + [e]
      ensures r.Failure? ==> r.error == Fault(limits, old(seen), e)
    {
      CleanSnoc(limits, seen, e);
      if terminal.Some? {
        return Failure(ProtocolViolation(counts));
      }
      match e
      case StdoutData(chunk) => r := PushStdout(chunk);
      case StderrData(chunk) => r := PushStderr(chunk);
      case Exit(code, timeout) =>
        BytesSnoc(seen, e);
        if code < 0 {
          return Failure(ProtocolViolation(counts));
        }
        terminal := Some((code, timeout));
        seen := seen + [e];
        return Success(());
    }

    method PushStdout(chunk: Bytes) returns (r: Result<(), CollectionFailure>)
      requires Valid() && terminal.None?
      modifies this
      ensures r.Success? <==> Clean(limits, old(seen) + [StdoutData(chunk)])
      ensures r.Success? ==> Valid() && seen == old(seen) + [StdoutData(chunk)]
      ensures r.Failure? ==> r.error == Fault(limits, old(seen), StdoutData(chunk))
    {
      CleanSnoc(limits, seen, StdoutData(chunk));
      BytesSnoc(seen, StdoutData(chunk));
      counts := counts.(stdout := SaturatingAdd(counts.stdout, ToU64(|chunk|)));
      r := CheckLimits(ToU64(|chunk|), Stdout);
      if r.Success? {
        stdout := stdout + chunk;
        seen := seen + [StdoutData(chunk)];
      }
    }

    method PushStderr(chunk: Bytes) returns (r: Result<(), CollectionFailure>)
      requires Valid() && terminal.None?
      modifies this
      ensures r.Success? <==> Clean(limits, old(seen) + [StderrData(chunk)])
      ensures r.Success? ==> Valid() && seen == old(seen) + [StderrData(chunk)]
      ensures r.Failure? ==> r.error == Fault(limits, old(seen), StderrData(chunk))
    {
      CleanSnoc(limits, seen, StderrData(chunk));
      BytesSnoc(seen, StderrData(chunk));
      counts := counts.(stderr := SaturatingAdd(counts.stderr, ToU64(|chunk|)));
      r := CheckLimits(ToU64(|chunk|), Stderr);
      if r.Success? {
        stderr := stderr + chunk;
        seen := seen + [StderrData(chunk)];
      }
    }

    /** Fails exactly when some ceiling is exceeded, and names the first one in the order chunk, stream, combined. */
    method CheckLimits(chunkBytes: nat, stream: OutputLimitKind) returns (r: Result<(), CollectionFailure>)
      requires stream == Stdout || stream == Stderr
      ensures r.Success? <==>
              !Over(limits, chunkBytes, counts, Chunk) && !Over(limits, chunkBytes, counts, stream) &&
                  !Over(limits, chunkBytes, counts, Combined)
      ensures r.Failure? ==>
              r.error.Overflow? && r.error.counts == counts && Over(limits, chunkBytes, counts, r.error.kind)
      ensures r.Failure? ==>
              r.error.kind == Chunk || (r.error.kind in {stream, Combined} && !Over(limits, chunkBytes, counts, Chunk))
      ensures r.Failure? && r.error.kind == Combined ==> !Over(limits, chunkBytes, counts, stream)
    {
      if chunkBytes > limits.chunk {
        return Failure(Overflow(counts, Chunk));
      }
      var streamOverflow := match stream
        case Stdout => counts.stdout > limits.stdout
        case Stderr => counts.stderr > limits.stderr
        case _ => false;
      if streamOverflow {
        return Failure(Overflow(counts, stream));
      }
      // `combined_bytes` is a checked addition.
      if counts.stdout + counts.stderr > U64_MAX || counts.stdout + counts.stderr > limits.combined {
        return Failure(Overflow(counts, Combined));
      }
      return Success(());
    }

    method Finish() returns (r: Result<CollectedOutput, CollectionFailure>)
      requires Valid()
      ensures r == if Ended(seen)
                   then Success(CollectedOutput(seen[|seen| - 1].code, OutBytes(seen), ErrBytes(seen),
                                                seen[|seen| - 1].timeout))
                   else Failure(MissingExit(Counts(seen)))
    {
      match terminal
      case None => return Failure(MissingExit(counts));
      case Some((exitCode, timeout)) => return Success(CollectedOutput(exitCode, stdout, stderr, timeout));
    }
  }

  /** The meaning of a whole stream: the first fault, else a missing exit, else the collected output. */
  predicate Outcome(limits: OutputLimits, events: seq<Event>, r: Result<CollectedOutput, CollectionFailure>) {
    if Clean(limits, events) then
      if Ended(events) then
        r == Success(CollectedOutput(events[|events| - 1].code, OutBytes(events), ErrBytes(events),
                                     events[|events| - 1].timeout))
      else
        r == Failure(MissingExit(Counts(events)))
    else
      exists k :: 0 <= k < |events| && FirstFault(limits, events, k) &&
          r == Failure(Fault(limits, events[..k], events[k]))
  }

  predicate FirstFault(limits: OutputLimits, events: seq<Event>, k: nat)
    requires k < |events|
  {
    Clean(limits, events[..k]) && !Clean(limits, events[..k + 1])
  }

  /** Every prefix of a clean sequence is clean, so a first fault is unique. */
  lemma {:induction false} CleanPrefix(limits: OutputLimits, events: seq<Event>, k: nat)
    requires k <= |events| && Clean(limits, events)
    ensures Clean(limits, events[..k])
  {
    if k == |events| {
      assert events[..k] == events;
    } else {
      var n := |events| - 1;
      assert events == events[..n] + [events[n]];
      BytesSnoc(events[..n], events[n]);
      CleanPrefix(limits, events[..n], k);
      assert events[..n][..k] == events[..k];
    }
  }

  lemma FirstFaultIsUnique(limits: OutputLimits, events: seq<Event>, k: nat, m: nat)
    requires k < |events| && m < |events| && FirstFault(limits, events, k) && FirstFault(limits, events, m)
    ensures k == m
  {
    if k < m {
      assert events[..m][..k + 1] == events[..k + 1];
      CleanPrefix(limits, events[..m], k + 1);
    } else if m < k {
      assert events[..k][..m + 1] == events[..m + 1];
      CleanPrefix(limits, events[..k], m + 1);
    }
  }

  /** Pushes a whole stream: the collector takes it all if it is clean, and otherwise stops at the first fault. */
  method PushAll(collector: OutputCollector, events: seq<Event>) returns (fault: Option<CollectionFailure>)
    requires collector.Valid() && collector.seen == []
    modifies collector
    ensures fault.None? <==> Clean(collector.limits, events)
    ensures fault.None? ==> collector.Valid() && collector.seen == events
    ensures fault.Some? ==> exists k :: 0 <= k < |events| && FirstFault(collector.limits, events, k)
                                        && fault.value == Fault(collector.limits, events[..k], events[k])
  {
    for i := 0 to |events|
      invariant collector.Valid() && collector.seen == events[..i]
    {
      assert events[..i + 1] == events[..i] + [events[i]];
      var pushed := collector.Push(events[i]);
      if pushed.Failure? {
        assert FirstFault(collector.limits, events, i);
        if Clean(collector.limits, events) {
          CleanPrefix(collector.limits, events, i + 1);
        }
        return Some(pushed.error);
      }
    }
    assert events[..|events|] == events;
    return None;
  }

  /** The collector run over a whole stream refines the declarative outcome. */
  method Collect(limits: OutputLimits, events: seq<Event>) returns (r: Result<CollectedOutput, CollectionFailure>)
    requires WithinProcessCeiling(limits)
    ensures Outcome(limits, events, r)
    ensures r.Success? <==> Clean(limits, events) && Ended(events)
  {
    var collector := new OutputCollector(limits);
    var fault := PushAll(collector, events);
    if fault.Some? {
      return Failure(fault.value);
    }
    r := collector.Finish();
  }
}
