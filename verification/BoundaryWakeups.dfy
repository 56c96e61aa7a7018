/** No lost wakeup: a cleanup waiter whose entry is back has been, or is about to be, notified. */
module BoundaryWakeups {
  import opened RuntimeContract
  import opened ServiceBoundary

  /** The waiter has looked for its entry in vain and registered before it looked. */
  predicate Looked(s: State, t: TaskId) {
    t in s.tasks && s.tasks[t].Acquiring? && !s.tasks[t].at.TakeNext?
  }

  predicate Notified(s: State, t: TaskId)
    requires Looked(s, t)
  {
    s.tasks[t].epoch != s.epoch
  }

  /** Some handler has put this id back and not yet notified. */
  ghost predicate AboutToNotify(s: State, id: Id) {
    exists u :: u in s.tasks && s.tasks[u] == Notifying(id)
  }

  ghost predicate Awake(s: State) {
    && (forall t :: t in s.tasks && s.tasks[t].Acquiring? ==> s.tasks[t].epoch <= s.epoch)
    && (forall t :: Looked(s, t) && !Notified(s, t) && MayTake(s, s.tasks[t].caller, s.tasks[t].id) ==>
          AboutToNotify(s, s.tasks[t].id))
  }

  /** Nothing new is shelved and nobody who was about to notify is gone. */
  ghost predicate Harmless(s: State, s': State) {
    && s'.epoch == s.epoch
    && (forall id :: id in s'.owned ==> id in s.owned && s'.owned[id] == s.owned[id])
    && (forall u :: u in s.tasks && s.tasks[u].Notifying? ==> u in s'.tasks && s'.tasks[u] == s.tasks[u])
    && (forall t :: t in s'.tasks && s'.tasks[t].Acquiring? ==>
          || (t in s.tasks && s'.tasks[t] == s.tasks[t])
          || (s'.tasks[t].at.TakeNext? && s'.tasks[t].epoch == s.epoch)
          || (t in s.tasks && s.tasks[t].Acquiring? && s'.tasks[t].epoch == s.tasks[t].epoch
              && s'.tasks[t].caller == s.tasks[t].caller && s'.tasks[t].id == s.tasks[t].id
              && (Looked(s, t) || !MayTake(s, s.tasks[t].caller, s.tasks[t].id))))
  }

  lemma HarmlessKeepsAwake(s: State, s': State)
    requires Awake(s) && Harmless(s, s')
    ensures Awake(s')
  {
  }

  lemma NotifyKeepsAwake(s: State, t: TaskId)
    requires Awake(s)
    ensures Awake(NotifyStep(s, t))
  {
  }

  /** Only `put_owned` shelves, and it shelves what its handler holds. */
  lemma ShelvesWhatItHolds(e: Entry, point: Point, reply: Reply, token: Token, attempt: Attempt)
    ensures var a := HandlerStep(e, point, reply, token, attempt);
            a.Some? && a.value.next.Shelve? ==> a.value.next.entry == e
  {
  }

  lemma ApplyKeepsAwake(s: State, t: TaskId, a: Action)
    requires Awake(s) && t in s.tasks && s.tasks[t].Holding? && (a.next.Shelve? ==> a.next.entry == s.tasks[t].entry)
    ensures Awake(Apply(s, t, s.tasks[t].entry.record, a))
  {
    var s' := Apply(s, t, s.tasks[t].entry.record, a);
    if a.next.Shelve? {
      ShelveKeepsAwake(s, t, a, s');
    } else {
      ModestKeepsAwake(s, t, s');
    }
  }

  lemma ResumeKeepsAwake(s: State, t: TaskId, reply: Reply)
    requires Awake(s)
    ensures Awake(ResumeStep(s, t, reply))
  {
    if t in s.tasks && s.tasks[t].Holding? {
      ShelvesWhatItHolds(s.tasks[t].entry, s.tasks[t].point, reply, s.nextToken, s.nextAttempt);
      var a := HandlerStep(s.tasks[t].entry, s.tasks[t].point, reply, s.nextToken, s.nextAttempt);
      if a.Some? {
        ApplyKeepsAwake(s, t, a.value);
      }
    }
  }

  lemma ShelveKeepsAwake(s: State, t: TaskId, a: Action, s': State)
    requires Awake(s) && t in s.tasks && s.tasks[t].Holding? && a.next.Shelve? && a.next.entry == s.tasks[t].entry
    requires s' == Apply(s, t, s.tasks[t].entry.record, a)
    ensures Awake(s')
  {
    var id := s.tasks[t].entry.record.id;
    assert s'.tasks[t] == Notifying(id);
    forall u | Looked(s', u) && !Notified(s', u) && MayTake(s', s'.tasks[u].caller, s'.tasks[u].id)
      ensures AboutToNotify(s', s'.tasks[u].id)
    {
      assert Looked(s, u) && !Notified(s, u);
      if s'.tasks[u].id != id {
        assert MayTake(s, s.tasks[u].caller, s.tasks[u].id);
        var v :| v in s.tasks && s.tasks[v] == Notifying(s.tasks[u].id);
        assert s'.tasks[v] == s.tasks[v];
      }
    }
  }

  /** The step concerns the frame of one task that is not about to notify, shelves nothing, and lets a waiter move on
      from looking only after looking in vain. */
  ghost predicate Modest(s: State, t: TaskId, s': State) {
    s' == s ||
    (&& s'.epoch == s.epoch && (forall id :: id in s'.owned ==> id in s.owned && s'.owned[id] == s.owned[id])
     && OnlyTask(s, t, s') && (t in s.tasks ==> !s.tasks[t].Notifying?)
     && (t in s'.tasks && s'.tasks[t].Acquiring? ==>
           || (s'.tasks[t].at.TakeNext? && s'.tasks[t].epoch == s.epoch)
           || (t in s.tasks && s.tasks[t].Acquiring? && s'.tasks[t] == s.tasks[t].(at := s'.tasks[t].at)
               && (Looked(s, t) || !MayTake(s, s.tasks[t].caller, s.tasks[t].id)))))
  }

  lemma ModestKeepsAwake(s: State, t: TaskId, s': State)
    requires Awake(s) && Modest(s, t, s')
    ensures Awake(s')
  {
    if s' != s {
      HarmlessKeepsAwake(s, s');
    }
  }

  /** The first stretches of handlers that take nothing. */
  lemma RequestsAreModest(s: State, t: TaskId, caller: Caller, id: Id, token: Token, kind: CleanupKind, ok: bool)
    ensures Modest(s, t, CreateCheck(s, t, caller, id, ok)) && Modest(s, t, PrepareCheck(s, t, caller, id, token))
    ensures Modest(s, t, AcquireBegin(s, t, kind, caller, id))
  {
  }

  lemma CommitIsModest(s: State, t: TaskId, caller: Caller, id: Id, token: Token)
    ensures Modest(s, t, CommitToken(s, t, caller, id, token))
  {
  }

  lemma TakeIsModest(s: State, t: TaskId, id: Id, e: Entry, point: Point)
    requires t in s.tasks ==> !s.tasks[t].Notifying?
    ensures Modest(s, t, Take(s, t, id, e, point))
  {
  }

  lemma WaitReadyIsModest(s: State, t: TaskId, caller: Caller, id: Id, token: Token, ok: bool)
    ensures Modest(s, t, WaitReadyTake(s, t, caller, id, token, ok))
  {
    var s' := WaitReadyTake(s, t, caller, id, token, ok);
    if s' != s {
      TakeIsModest(s, t, id, s'.tasks[t].entry, s'.tasks[t].point);
    }
  }

  /** The stretches that take an entry or end. */
  lemma TakesAreModest(s: State, t: TaskId, ok: bool)
    requires t in s.tasks && (s.tasks[t].Committing? || s.tasks[t].Acquiring?)
    ensures Modest(s, t, CommitTake(s, t, ok)) && Modest(s, t, AcquireTake(s, t, ok))
  {
    var f := s.tasks[t];
    if MayTake(s, f.caller, f.id) {
      var e := s.owned[f.id];
      TakeIsModest(s, t, f.id, e, PutBack);
      TakeIsModest(s, t, f.id, e, DeleteRetain);
      TakeIsModest(s, t, f.id, e, WaitDeletedReply);
      if f.Committing? {
        TakeIsModest(s, t, f.id, e.At(ExecPossible), ExecFence(f.prepareToken));
      }
    }
  }

  lemma InsertIsModest(s: State, t: TaskId)
    ensures Modest(s, t, PrepareInsert(s, t))
  {
  }

  /** The stretches of a waiter. */
  lemma WaitsAreModest(s: State, t: TaskId, ok: bool)
    ensures Modest(s, t, AcquireLoad(s, t, ok)) && Modest(s, t, AcquireWake(s, t)) && Modest(s, t, AcquireGiveUp(s, t))
  {
  }

  lemma SameTasksKeepAwake(s: State, s': State)
    requires Awake(s) && s'.tasks == s.tasks && s'.owned == s.owned && s'.epoch == s.epoch
    ensures Awake(s')
  {
  }

  lemma CrashKeepsAwake(s: State)
    ensures Awake(CrashStep(s))
  {
  }

  lemma FrameStepKeepsAwake(s: State, e: Event)
    requires Awake(s)
    requires (e.InsertPrepared? || e.TakeForExec? || e.TakeForCleanup? || e.LoadForCleanup? || e.Wake? || e.GiveUp?)
    ensures Awake(Next(s, e))
  {
    match e {
      case InsertPrepared(t) => InsertIsModest(s, t);
      case TakeForExec(t, expired) =>
        if t in s.tasks && s.tasks[t].Committing? {
          TakesAreModest(s, t, expired);
        }
      case TakeForCleanup(t, expired) =>
        if t in s.tasks && s.tasks[t].Acquiring? {
          TakesAreModest(s, t, expired);
        }
      case LoadForCleanup(t, readable) => WaitsAreModest(s, t, readable);
      case Wake(t) => WaitsAreModest(s, t, true);
      case GiveUp(t) => WaitsAreModest(s, t, true);
    }
    ModestKeepsAwake(s, e.t, Next(s, e));
  }

  lemma RequestKeepsAwake(s: State, e: Event)
    requires Awake(s) && RequestEvent(e)
    ensures Awake(Next(s, e))
  {
    match e {
      case Create(t, caller, id, assetsMatch) => RequestsAreModest(s, t, caller, id, 0, DeleteCall, assetsMatch);
      case WaitReady(t, caller, id, token, policyMatches) => WaitReadyIsModest(s, t, caller, id, token, policyMatches);
      case PrepareExec(t, caller, id, token) => RequestsAreModest(s, t, caller, id, token, DeleteCall, true);
      case CommitExec(t, caller, id, prepareToken) => CommitIsModest(s, t, caller, id, prepareToken);
      case Cleanup(t, kind, caller, id) => RequestsAreModest(s, t, caller, id, 0, kind, true);
    }
    ModestKeepsAwake(s, e.t, Next(s, e));
  }

  lemma SystemMovesNothing(s: State, e: Event)
    requires SystemEvent(e) && !e.Crash?
    ensures Next(s, e).tasks == s.tasks && Next(s, e).owned == s.owned && Next(s, e).epoch == s.epoch
  {
  }

  lemma SystemKeepsAwake(s: State, e: Event)
    requires Awake(s) && SystemEvent(e)
    ensures Awake(Next(s, e))
  {
    if e.Crash? {
      CrashKeepsAwake(s);
    } else {
      SystemMovesNothing(s, e);
      SameTasksKeepAwake(s, Next(s, e));
    }
  }

  lemma StepKeepsAwake(s: State, e: Event)
    requires Awake(s)
    ensures Awake(Next(s, e))
  {
    if RequestEvent(e) {
      RequestKeepsAwake(s, e);
    } else if SystemEvent(e) {
      SystemKeepsAwake(s, e);
    } else if e.Resume? {
      ResumeKeepsAwake(s, e.t, e.reply);
    } else if e.Notify? {
      NotifyKeepsAwake(s, e.t);
    } else {
      FrameStepKeepsAwake(s, e);
    }
  }

  /** No lost wakeup, in every run whatsoever. */
  lemma {:induction false} RunsStayAwake(events: seq<Event>)
    ensures Awake(Run(START, events))
  {
    if events != [] {
      RunsStayAwake(events[..|events| - 1]);
      StepKeepsAwake(Run(START, events[..|events| - 1]), events[|events| - 1]);
    }
  }

  lemma RunTwo(s: State, e: Event, f: Event)
    ensures Run(s, [e, f]) == Next(Next(s, e), f)
  {
    RunSnoc(s, [], e);
    RunSnoc(s, [e], f);
    assert [] + [e] == [e] && [e] + [f] == [e, f];
  }

  lemma RunThree(s: State, e: Event, f: Event, g: Event)
    ensures Run(s, [e, f, g]) == Next(Next(Next(s, e), f), g)
  {
    RunTwo(s, e, f);
    RunSnoc(s, [e, f], g);
    assert [e, f] + [g] == [e, f, g];
  }

  lemma WokenTakes(s: State, t: TaskId)
    requires Suspended(s, t) && s.tasks[t].epoch != s.epoch && MayTake(s, s.tasks[t].caller, s.tasks[t].id)
    ensures Holds(AcquireTake(AcquireWake(s, t), t, false), t, s.owned[s.tasks[t].id].record.id)
  {
  }

  /** The schedule that hands a suspended waiter its entry. */
  lemma Schedule(s: State, t: TaskId) returns (rest: seq<Event>)
    requires Awake(s) && Suspended(s, t) && MayTake(s, s.tasks[t].caller, s.tasks[t].id)
    ensures |rest| <= 3
    ensures forall i :: 0 <= i < |rest| ==> rest[i].Notify? || rest[i] == Wake(t) || rest[i] == TakeForCleanup(t, false)
    ensures Holds(Run(s, rest), t, s.owned[s.tasks[t].id].record.id)
  {
    if s.tasks[t].epoch != s.epoch {
      WokenTakes(s, t);
      RunTwo(s, Wake(t), TakeForCleanup(t, false));
      rest := [Wake(t), TakeForCleanup(t, false)];
    } else {
      assert Looked(s, t);
      var u :| u in s.tasks && s.tasks[u] == Notifying(s.tasks[t].id);
      NotifyThenTake(s, t, u);
      rest := [Notify(u), Wake(t), TakeForCleanup(t, false)];
    }
  }

  lemma NotifyThenTake(s: State, t: TaskId, u: TaskId)
    requires Suspended(s, t) && s.tasks[t].epoch == s.epoch && MayTake(s, s.tasks[t].caller, s.tasks[t].id)
    requires u in s.tasks && s.tasks[u].Notifying?
    ensures Holds(Run(s, [Notify(u), Wake(t), TakeForCleanup(t, false)]), t, s.owned[s.tasks[t].id].record.id)
  {
    NotifiedTakes(s, t, u);
    ThreeSteps(s, t, u);
    RunThree(s, Notify(u), Wake(t), TakeForCleanup(t, false));
  }

  lemma NotifiedTakes(s: State, t: TaskId, u: TaskId)
    requires Suspended(s, t) && s.tasks[t].epoch == s.epoch && MayTake(s, s.tasks[t].caller, s.tasks[t].id)
    requires u in s.tasks && s.tasks[u].Notifying?
    ensures Holds(AcquireTake(AcquireWake(NotifyStep(s, u), t), t, false), t, s.owned[s.tasks[t].id].record.id)
  {
    var s' := NotifyStep(s, u);
    assert s'.tasks[t] == s.tasks[t] && s'.owned == s.owned && s'.epoch == s.epoch + 1;
    WokenTakes(s', t);
  }

  lemma ThreeSteps(s: State, t: TaskId, u: TaskId)
    ensures Next(Next(Next(s, Notify(u)), Wake(t)), TakeForCleanup(t, false)) ==
            AcquireTake(AcquireWake(NotifyStep(s, u), t), t, false)
  {
  }

  /** In every run, a waiter whose entry is back gets it without waiting for its deadline: after at most one pending
      notification, waking up and taking hand it the entry. */
  lemma WaiterGetsItsEntry(events: seq<Event>, t: TaskId) returns (rest: seq<Event>)
    requires Suspended(Run(START, events), t)
    requires MayTake(Run(START, events), Run(START, events).tasks[t].caller, Run(START, events).tasks[t].id)
    ensures |rest| <= 3
    ensures forall i :: 0 <= i < |rest| ==> rest[i].Notify? || rest[i] == Wake(t) || rest[i] == TakeForCleanup(t, false)
    ensures Holds(Run(Run(START, events), rest), t, Run(START, events).owned[Run(START, events).tasks[t].id].record.id)
  {
    RunsStayAwake(events);
    rest := Schedule(Run(START, events), t);
  }

  // ---- Who waits, and for how long.

  /** A cleanup that did not find its entry waits exactly if the store can be read and holds a record of its own caller
      that is not disowned; otherwise it ends. Nothing else changes. */
  lemma WaitsIff(s: State, t: TaskId, kind: CleanupKind, caller: Caller, id: Id, epoch: nat, readable: bool, s': State)
    requires t in s.tasks && s.tasks[t] == Acquiring(kind, caller, id, epoch, LoadNext)
    requires s' == Next(s, LoadForCleanup(t, readable))
    ensures t in s'.tasks <==>
            readable && id in s.store && s.store[id].caller == caller && s.store[id].stage != Unowned
    ensures t in s'.tasks ==> s'.tasks == s.tasks[t := Acquiring(kind, caller, id, epoch, Waiting)]
    ensures t !in s'.tasks ==> s'.tasks == s.tasks - {t}
    ensures s' == s.(tasks := s'.tasks)
  {
  }

  /** What ends the wait of `t`: a wakeup, the end of its patience, or the end of the process. */
  predicate EndsWait(t: TaskId, e: Event) {
    e == Wake(t) || e == GiveUp(t) || e.Crash?
  }

  predicate KeepsWaiting(t: TaskId, events: seq<Event>) {
    forall i :: 0 <= i < |events| ==> !EndsWait(t, events[i])
  }

  lemma RequestLeavesWaiter(s: State, t: TaskId, e: Event)
    requires Suspended(s, t) && RequestEvent(e)
    ensures t in Next(s, e).tasks && Next(s, e).tasks[t] == s.tasks[t]
  {
  }

  lemma StepLeavesWaiter(s: State, t: TaskId, e: Event)
    requires Suspended(s, t) && !EndsWait(t, e)
    ensures t in Next(s, e).tasks && Next(s, e).tasks[t] == s.tasks[t]
  {
    if RequestEvent(e) {
      RequestLeavesWaiter(s, t, e);
    } else if SystemEvent(e) {
      SystemMovesNothing(s, e);
    }
  }

  lemma {:induction false} RunLeavesWaiter(s: State, t: TaskId, events: seq<Event>)
    requires Suspended(s, t) && KeepsWaiting(t, events)
    ensures Suspended(Run(s, events), t) && Run(s, events).tasks[t] == s.tasks[t]
  {
    if events != [] {
      var n := |events| - 1;
      RunLeavesWaiter(s, t, events[..n]);
      StepLeavesWaiter(Run(s, events[..n]), t, events[n]);
    }
  }

  lemma {:induction false} RunAppends(s: State, first: seq<Event>, rest: seq<Event>)
    ensures Run(s, first + rest) == Run(Run(s, first), rest)
  {
    if rest == [] {
      assert first + rest == first;
    } else {
      var n := |rest| - 1;
      RunAppends(s, first, rest[..n]);
      assert (first + rest)[..|first + rest| - 1] == first + rest[..n];
    }
  }

  /** In every run, a cleanup that reads a record of its own caller stays, through whatever happens short of a wakeup,
      the end of its patience or a crash; and whenever its entry is back, it can have it after at most one pending
      notification. */
  lemma StaysUntilServed(events: seq<Event>, t: TaskId, rest: seq<Event>) returns (last: seq<Event>)
    requires var s := Run(START, events);
             && t in s.tasks && s.tasks[t].Acquiring? && s.tasks[t].at == LoadNext && s.tasks[t].id in s.store
             && s.store[s.tasks[t].id].caller == s.tasks[t].caller && s.store[s.tasks[t].id].stage != Unowned
    requires KeepsWaiting(t, rest)
    ensures var f := Run(START, events).tasks[t];
            var s' := Run(START, events + [LoadForCleanup(t, true)] + rest);
            && t in s'.tasks && s'.tasks[t] == f.(at := Waiting)
            && (f.id in s'.owned && s'.owned[f.id].record.caller == f.caller ==>
                  |last| <= 3 && Holds(Run(s', last), t, s'.owned[f.id].record.id))
    ensures forall i :: 0 <= i < |last| ==> last[i].Notify? || last[i] == Wake(t) || last[i] == TakeForCleanup(t, false)
  {
    var s := Run(START, events);
    var f := s.tasks[t];
    var loaded := events + [LoadForCleanup(t, true)];
    RunSnoc(START, events, LoadForCleanup(t, true));
    WaitsIff(s, t, f.kind, f.caller, f.id, f.epoch, true, Run(START, loaded));
    RunLeavesWaiter(Run(START, loaded), t, rest);
    RunAppends(START, loaded, rest);
    last := [];
    if MayTake(Run(START, loaded + rest), f.caller, f.id) {
      last := WaiterGetsItsEntry(loaded + rest, t);
    }
  }

  // ---- A cleanup that arrives while another handler holds its entry.

  /** `t` waits for the runtime with the entry in hand, and `u` waits for the entry. */
  predicate Meet(s: State, t: TaskId, u: TaskId, e: Entry, kind: CleanupKind) {
    && t in s.tasks && s.tasks[t] == Holding(e, ReadyReply) && t != u && s.phase.Serving?
    && u in s.tasks && s.tasks[u] == Acquiring(kind, e.record.caller, e.record.id, s.epoch, Waiting)
  }

  /** The cleanup arrives and does not find the entry that `wait_ready` holds, only its record. */
  lemma Arrives(s: State, t: TaskId, u: TaskId, e: Entry, kind: CleanupKind) returns (events: seq<Event>)
    requires t in s.tasks && s.tasks[t] == Holding(e, ReadyReply) && s.phase.Serving? && e.record.id !in s.owned
    requires e.record.id in s.store && s.store[e.record.id].caller == e.record.caller
    requires s.store[e.record.id].stage != Unowned && u !in s.tasks
    ensures Meet(Run(s, events), t, u, e, kind) && forall i :: 0 <= i < |events| ==> !events[i].Resume?
    ensures Run(s, events).owned == s.owned && Run(s, events).nextToken == s.nextToken
  {
    var id, caller := e.record.id, e.record.caller;
    var s1 := Next(s, Cleanup(u, kind, caller, id));
    assert s1 == s.(tasks := s.tasks[u := Acquiring(kind, caller, id, s.epoch, TakeNext)]);
    var s2 := Next(s1, TakeForCleanup(u, false));
    assert s2 == s.(tasks := s.tasks[u := Acquiring(kind, caller, id, s.epoch, LoadNext)]);
    var s3 := Next(s2, LoadForCleanup(u, true));
    assert s3 == s.(tasks := s.tasks[u := Acquiring(kind, caller, id, s.epoch, Waiting)]);
    events := [Cleanup(u, kind, caller, id), TakeForCleanup(u, false), LoadForCleanup(u, true)];
    RunThree(s, events[0], events[1], events[2]);
  }

  /** `t` has put the entry back and is about to notify, and `u` still waits. */
  predicate PutFor(s: State, t: TaskId, u: TaskId, e: Entry, kind: CleanupKind) {
    && t in s.tasks && s.tasks[t] == Notifying(e.record.id) && t != u
    && u in s.tasks && s.tasks[u] == Acquiring(kind, e.record.caller, e.record.id, s.epoch, Waiting)
    && e.record.id in s.owned && s.owned[e.record.id] == e
  }

  /** `wait_ready` ends with the entry put back ready. */
  lemma ReadyAndPut(s: State, t: TaskId, u: TaskId, e: Entry, kind: CleanupKind) returns (events: seq<Event>, e': Entry)
    requires Meet(s, t, u, e, kind) && e.lifecycle.Created?
    ensures PutFor(Run(s, events), t, u, e', kind)
    ensures events == [Resume(t, RuntimeOk), Resume(t, Wrote), Resume(t, Locked)]
    ensures e'.lifecycle == Ready(e.lifecycle.attempt) && e'.record == e.record.(stage := StageReady)
  {
    var s1 := Next(s, Resume(t, RuntimeOk));
    assert s1 == s.(tasks := s.tasks[t := Holding(e.At(StageReady), ReadyWrite)], nextToken := s.nextToken + 1,
                    nextAttempt := s.nextAttempt + 1);
    e' := Entry(e.record.(stage := StageReady), s1.nextToken, Ready(e.lifecycle.attempt));
    ReadyWritten(s1, t, u, e.At(StageReady), kind, e');
    events := [Resume(t, RuntimeOk), Resume(t, Wrote), Resume(t, Locked)];
    RunThree(s, events[0], events[1], events[2]);
  }

  lemma ReadyWritten(s: State, t: TaskId, u: TaskId, e: Entry, kind: CleanupKind, e': Entry)
    requires t in s.tasks && s.tasks[t] == Holding(e, ReadyWrite) && e.lifecycle.Created? && t != u
    requires u in s.tasks && s.tasks[u] == Acquiring(kind, e.record.caller, e.record.id, s.epoch, Waiting)
    requires e' == Entry(e.record, s.nextToken, Ready(e.lifecycle.attempt))
    ensures PutFor(Next(Next(s, Resume(t, Wrote)), Resume(t, Locked)), t, u, e', kind)
  {
    var s1 := Next(s, Resume(t, Wrote));
    assert s1.tasks == s.tasks[t := Holding(e', PutBack)] && s1.epoch == s.epoch;
  }

  /** From any state in which `wait_ready` holds a created entry: a cleanup by the same caller arrives, waits, and gets
      the entry, ready, once it is put back. */
  lemma CleanupOvertakesReady(s: State, t: TaskId, u: TaskId, e: Entry, kind: CleanupKind) returns (events: seq<Event>)
    requires t in s.tasks && s.tasks[t] == Holding(e, ReadyReply) && s.phase.Serving? && e.record.id !in s.owned
    requires e.record.id in s.store && s.store[e.record.id].caller == e.record.caller
    requires s.store[e.record.id].stage != Unowned && u !in s.tasks && e.lifecycle.Created?
    ensures var s' := Run(s, events);
            && u in s'.tasks && s'.tasks[u].Holding? && e.record.id !in s'.owned
            && s'.tasks[u].point == (if kind == DeleteCall then DeleteRetain else WaitDeletedReply)
            && s'.tasks[u].entry.record == e.record.(stage := StageReady)
            && s'.tasks[u].entry.lifecycle == Ready(e.lifecycle.attempt)
  {
    var arrive := Arrives(s, t, u, e, kind);
    var s1 := Run(s, arrive);
    var ready, e' := ReadyAndPut(s1, t, u, e, kind);
    var s2 := Run(s1, ready);
    HandedOver(s2, t, u, e', kind);
    var hand := [Notify(t), Wake(u), TakeForCleanup(u, false)];
    RunAppends(s, arrive, ready);
    RunAppends(s, arrive + ready, hand);
    events := arrive + ready + hand;
  }

  lemma HandedOver(s: State, t: TaskId, u: TaskId, e: Entry, kind: CleanupKind)
    requires PutFor(s, t, u, e, kind)
    ensures var s' := Run(s, [Notify(t), Wake(u), TakeForCleanup(u, false)]);
            && u in s'.tasks && e.record.id !in s'.owned
            && s'.tasks[u] == Holding(e, if kind == DeleteCall then DeleteRetain else WaitDeletedReply)
  {
    var s1 := NotifyStep(s, t);
    assert s1.tasks == s.tasks - {t} && s1.owned == s.owned && s1.epoch == s.epoch + 1;
    var s2 := AcquireWake(s1, u);
    assert s2 == s1.(tasks := s1.tasks[u := s.tasks[u].(epoch := s1.epoch, at := TakeNext)]);
    ThreeSteps(s, u, t);
    RunThree(s, Notify(t), Wake(u), TakeForCleanup(u, false));
  }

  /** A create of caller 7 for id 5 has passed its check. */
  lemma OpensForSeven() returns (events: seq<Event>, s: State)
    ensures s == Run(START, events)
    ensures s == START.(phase := Serving,
                        tasks := map[1 := Holding(Entry(Record(5, 7, CreatePossible), 0, CleanupOnly), CreateFence)])
  {
    events, s := Then(START, [], START, LoadStore(true));
    events, s := Then(START, events, s, FinishReconcile);
    events, s := Then(START, events, s, Create(1, 7, 5, true));
  }

  lemma SubmittedBySeven() returns (events: seq<Event>, s: State)
    ensures s == Run(START, events) && s.phase.Serving? && s.owned == map[]
    ensures s.tasks == map[1 := Holding(Entry(Record(5, 7, CreatePossible), 0, CleanupOnly), CreateReply(0))]
    ensures s.store == map[5 := Record(5, 7, CreatePossible)] && s.nextToken == 1
  {
    events, s := OpensForSeven();
    events, s := Then(START, events, s, Resume(1, Wrote));
  }

  lemma CreatedInHand(e: Entry) returns (events: seq<Event>, s: State)
    requires e == Entry(Record(5, 7, StageCreated), 1, Created(0))
    ensures s == Run(START, events)
    ensures s.tasks == map[1 := Holding(e, PutBack)] && s.phase.Serving? && s.owned == map[]
    ensures s.store == map[5 := e.record]
  {
    events, s := SubmittedBySeven();
    events, s := Then(START, events, s, Resume(1, CreateOk));
    assert s.tasks == map[1 := Holding(e, CreatedWrite)];
    events, s := Then(START, events, s, Resume(1, Wrote));
  }

  lemma CreatedAtRest(e: Entry) returns (events: seq<Event>, s: State)
    requires e == Entry(Record(5, 7, StageCreated), 1, Created(0))
    ensures s == Run(START, events)
    ensures s.tasks == map[] && s.phase.Serving? && s.owned == map[5 := e] && s.store == map[5 := e.record]
  {
    events, s := CreatedInHand(e);
    events, s := Then(START, events, s, Resume(1, Locked));
    assert s.tasks == map[1 := Notifying(5)] && s.owned == map[5 := e] && s.store == map[5 := e.record];
    events, s := Then(START, events, s, Notify(1));
  }

  lemma ReadyIsAwaited(e: Entry) returns (events: seq<Event>, s: State)
    requires e == Entry(Record(5, 7, StageCreated), 1, Created(0))
    ensures s == Run(START, events)
    ensures s.tasks == map[1 := Holding(e, ReadyReply)] && s.phase.Serving? && s.owned == map[]
    ensures s.store == map[5 := e.record]
  {
    events, s := CreatedAtRest(e);
    events, s := Then(START, events, s, WaitReady(1, 7, 5, 1, true));
  }

  /** A run from the start in which a delete arrives while `wait_ready` holds the entry, and gets it. */
  lemma DeleteOvertakesReady() returns (events: seq<Event>)
    ensures var s := Run(START, events);
            && 2 in s.tasks && 5 !in s.owned && s.tasks[2].Holding? && s.tasks[2].point == DeleteRetain
            && s.tasks[2].entry.record == Record(5, 7, StageReady)
  {
    var s: State;
    var e := Entry(Record(5, 7, StageCreated), 1, Created(0));
    events, s := ReadyIsAwaited(e);
    var rest := CleanupOvertakesReady(s, 1, 2, e, DeleteCall);
    RunAppends(START, events, rest);
    events := events + rest;
  }
}
