/** Exclusive custody of ids under every interleaving, and the shapes that steps of the boundary take. */
module BoundaryCustody {
  import opened RuntimeContract
  import opened ServiceBoundary

  /** The `owned` map files every entry under its id, and only a service that is open holds anything. */
  ghost predicate Keyed(s: State) {
    && (forall id :: id in s.owned ==> s.owned[id].record.id == id)
    && (!s.phase.Serving? ==> s.tasks == map[] && s.owned == map[])
  }

  /** Each id is in at most one place: one handler, or the `owned` map. */
  ghost predicate Custody(s: State) {
    && Keyed(s)
    && (forall t, u, id :: Holds(s, t, id) && Holds(s, u, id) ==> t == u)
    && (forall t, id :: Holds(s, t, id) ==> id !in s.owned)
  }

  predicate BelongsTo(w: World, a: Attempt, record: Record) {
    a in w.attempts && w.attempts[a] == Owner(record.id, record.caller)
  }

  /** What every handler step does to the entry it holds: the id and its caller stay. */
  predicate KeepsIdentity(e: Entry, a: Action) {
    a.next.Release? || (a.next.entry.record.id == e.record.id && a.next.entry.record.caller == e.record.caller)
  }

  lemma HandlerKeepsIdentity(e: Entry, point: Point, reply: Reply, token: Token, attempt: Attempt)
    ensures var a := HandlerStep(e, point, reply, token, attempt); a.Some? ==> KeepsIdentity(e, a.value)
  {
  }

  lemma ResumeKeepsCustody(s: State, t: TaskId, reply: Reply)
    requires Custody(s)
    ensures Custody(ResumeStep(s, t, reply))
  {
    if t in s.tasks && s.tasks[t].Holding? {
      var e, point := s.tasks[t].entry, s.tasks[t].point;
      HandlerKeepsIdentity(e, point, reply, s.nextToken, s.nextAttempt);
      var a := HandlerStep(e, point, reply, s.nextToken, s.nextAttempt);
      if a.Some? {
        assert Holds(s, t, e.record.id);
        var s' := Apply(s, t, e.record, a.value);
        assert forall u, id :: Holds(s', u, id) ==> Holds(s, u, id);
      }
    }
  }

  lemma TakeKeepsCustody(s: State, t: TaskId, id: Id, e: Entry, point: Point)
    requires Custody(s) && s.phase.Serving? && id in s.owned && e.record.id == id
    requires t in s.tasks ==> !s.tasks[t].Holding?
    ensures Custody(Take(s, t, id, e, point))
  {
    var s' := Take(s, t, id, e, point);
    assert forall u, i :: Holds(s', u, i) ==> (u == t && i == id) || Holds(s, u, i);
  }

  /** What a handler holds, if anything. */
  function Grip(s: State, t: TaskId): Option<Frame> {
    if t in s.tasks && s.tasks[t].Holding? then Some(s.tasks[t]) else None
  }

  /** Nothing happened to any entry, record or sandbox. */
  ghost predicate Quiet(s: State, s': State) {
    && s'.owned == s.owned && s'.store == s.store && s'.phase == s.phase
    && s'.world == s.world.(issued := s'.world.issued)
    && s'.nextAttempt == s.nextAttempt && s.nextToken <= s'.nextToken
    && (forall t :: Grip(s', t) == Grip(s, t))
    && (!s.phase.Serving? && s.tasks == map[] ==> s'.tasks == map[])
  }

  /** The events that touch no entry: frames that hold nothing come and go. */
  predicate QuietEvent(e: Event) {
    || e.PrepareExec? || e.CommitExec? || e.Cleanup? || e.InsertPrepared? || e.LoadForCleanup? || e.Wake? || e.GiveUp?
    || e.Notify? || e.BeginDrain?
  }

  lemma ReplaceIsQuiet(s: State, s': State, t: TaskId, f: Frame)
    requires s' == s.(tasks := s.tasks[t := f], prepared := s'.prepared)
    requires !f.Holding? && Grip(s, t).None? && (s.phase.Serving? || t in s.tasks)
    ensures Quiet(s, s')
  {
  }

  lemma EndIsQuiet(s: State, s': State, t: TaskId)
    requires s' ==
             End(s, t).(prepared := s'.prepared, world := s.world.(issued := s'.world.issued),
                        nextToken := s'.nextToken, epoch := s'.epoch)
    requires Grip(s, t).None? && s.nextToken <= s'.nextToken
    ensures Quiet(s, s')
  {
  }

  lemma QuietStep(s: State, e: Event)
    requires QuietEvent(e)
    ensures Quiet(s, Next(s, e))
  {
    match e
    case PrepareExec(t, caller, id, token) => QuietPrepare(s, t, caller, id, token);
    case CommitExec(t, caller, id, prepareToken) => QuietCommit(s, t, caller, id, prepareToken);
    case Cleanup(t, kind, caller, id) => QuietBegin(s, t, kind, caller, id);
    case InsertPrepared(t) => QuietInsert(s, t);
    case LoadForCleanup(t, readable) => QuietLoad(s, t, readable);
    case _ => QuietWait(s, e);
  }

  lemma QuietPrepare(s: State, t: TaskId, caller: Caller, id: Id, token: Token)
    ensures Quiet(s, PrepareCheck(s, t, caller, id, token))
  {
  }

  lemma QuietCommit(s: State, t: TaskId, caller: Caller, id: Id, prepareToken: Token)
    ensures Quiet(s, CommitToken(s, t, caller, id, prepareToken))
  {
  }

  lemma QuietBegin(s: State, t: TaskId, kind: CleanupKind, caller: Caller, id: Id)
    ensures Quiet(s, AcquireBegin(s, t, kind, caller, id))
  {
  }

  lemma QuietInsert(s: State, t: TaskId)
    ensures Quiet(s, PrepareInsert(s, t))
  {
  }

  lemma QuietLoad(s: State, t: TaskId, readable: bool)
    ensures Quiet(s, AcquireLoad(s, t, readable))
  {
  }

  lemma QuietWait(s: State, e: Event)
    requires e.Wake? || e.GiveUp? || e.Notify? || e.BeginDrain?
    ensures Quiet(s, Next(s, e))
  {
  }

  lemma QuietKeepsCustody(s: State, s': State)
    requires Custody(s) && Quiet(s, s')
    ensures Custody(s')
  {
    forall t, id | Holds(s', t, id)
      ensures Holds(s, t, id)
    {
      assert Grip(s', t) == Grip(s, t);
    }
  }

  /** The check in `create` keeps custody exactly when no handler is working on the id. */
  lemma CreateKeepsCustodyIff(s: State, t: TaskId, caller: Caller, id: Id)
    requires Custody(s) && Passes(s, t, id, true)
    ensures Custody(CreateCheck(s, t, caller, id, true)) <==> !InUse(s, id)
  {
    var s' := CreateCheck(s, t, caller, id, true);
    assert Holds(s', t, id);
    assert forall u, i :: u != t ==> (Holds(s', u, i) <==> Holds(s, u, i));
    if InUse(s, id) {
      var u :| Holds(s, u, id);
      assert Holds(s', u, id) && u != t;
    } else {
      assert forall u, i :: Holds(s', u, i) ==> (u == t && i == id) || Holds(s, u, i);
    }
  }

  /** How `take_owned` hands an entry to the handler that asked for it. */
  predicate TakenAs(s: State, t: TaskId, e: Entry, f: Frame) {
    && f.Holding?
    && match f.point
       case PutBack => f.entry == e
       case ReadyReply => f.entry == e && e.lifecycle.Created?
       case WriteThenPut => f.entry == e.At(StageCleanupOnly).(lifecycle := CleanupOnly)
       case ExecFence(k) =>
         && f.entry == e.At(ExecPossible) && e.lifecycle.Ready?
         && t in s.tasks && s.tasks[t] == Committing(e.record.caller, e.record.id, k)
       case DeleteRetain => f.entry == e
       case WaitDeletedReply => f.entry == e
       case _ => false
  }

  /** The event moved one entry from `owned` to one handler, and nothing else. */
  ghost predicate Took(s: State, t: TaskId, s': State) {
    && s.phase.Serving? && Grip(s, t).None? && Grip(s', t).Some?
    && var f := s'.tasks[t];
      && f.entry.record.id in s.owned
      && TakenAs(s, t, s.owned[f.entry.record.id], f)
      && s' == Take(s, t, f.entry.record.id, f.entry, f.point)
  }

  predicate TakeEvent(e: Event) {
    e.WaitReady? || e.TakeForExec? || e.TakeForCleanup?
  }

  lemma TakeStep(s: State, e: Event)
    requires Keyed(s) && TakeEvent(e)
    ensures Quiet(s, Next(s, e)) || Took(s, e.t, Next(s, e))
  {
    match e
    case WaitReady(t, caller, id, token, policyMatches) => WaitReadyStep(s, t, caller, id, token, policyMatches);
    case TakeForExec(t, expired) => TakeForExecStep(s, t, expired);
    case TakeForCleanup(t, expired) => TakeForCleanupStep(s, t, expired);
  }

  lemma WaitReadyStep(s: State, t: TaskId, caller: Caller, id: Id, token: Token, policyMatches: bool)
    requires Keyed(s)
    ensures var s' := WaitReadyTake(s, t, caller, id, token, policyMatches); Quiet(s, s') || Took(s, t, s')
  {
  }

  lemma TakeForExecStep(s: State, t: TaskId, expired: bool)
    requires Keyed(s)
    ensures Quiet(s, CommitTake(s, t, expired)) || Took(s, t, CommitTake(s, t, expired))
  {
    if t in s.tasks && s.tasks[t].Committing? && !MayTake(s, s.tasks[t].caller, s.tasks[t].id) {
      EndIsQuiet(s, End(s, t), t);
    }
  }

  lemma TakeForCleanupStep(s: State, t: TaskId, expired: bool)
    requires Keyed(s)
    ensures Quiet(s, AcquireTake(s, t, expired)) || Took(s, t, AcquireTake(s, t, expired))
  {
    if t in s.tasks && s.tasks[t].Acquiring? && s.tasks[t].at.TakeNext? &&
       !MayTake(s, s.tasks[t].caller, s.tasks[t].id) {
      ReplaceIsQuiet(s, AcquireTake(s, t, expired), t, s.tasks[t].(at := LoadNext));
    }
  }

  lemma StepKeepsCustody(s: State, e: Event)
    requires Custody(s) && Behaved(s, e)
    ensures Custody(Next(s, e))
  {
    var s' := Next(s, e);
    if TakeEvent(e) {
      TakeStep(s, e);
      if Took(s, e.t, s') {
        var f := s'.tasks[e.t];
        TakeKeepsCustody(s, e.t, f.entry.record.id, f.entry, f.point);
      } else {
        QuietKeepsCustody(s, s');
      }
    } else if QuietEvent(e) {
      QuietStep(s, e);
      QuietKeepsCustody(s, s');
    } else if e.Resume? {
      ResumeKeepsCustody(s, e.t, e.reply);
    } else if e.Create? && Passes(s, e.t, e.id, e.assetsMatch) {
      CreateKeepsCustodyIff(s, e.t, e.caller, e.id);
    }
  }
}
