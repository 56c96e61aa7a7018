/** Deletion withdraws: a prepare token that was outstanding when a delete of its id passed is never executed. */
module BoundaryWithdrawal {
  import opened RuntimeContract
  import opened ServiceBoundary
  import opened BoundaryCustody
  import opened BoundaryExecution

  /** The token exists no more: it is neither prepared nor in the hands of a handler, and will not be issued again. */
  ghost predicate Withdrawn(s: State, k: Token) {
    k < s.nextToken && k !in s.prepared && forall t :: Pending(s, t).Some? ==> Pending(s, t).value.0 != k
  }

  /** Whatever was executed in between, it was not under this token. */
  ghost predicate Spared(s: State, s': State, k: Token) {
    Withdrawn(s', k) && (Unspent(s.world, k) ==> Unspent(s'.world, k))
  }

  lemma PassiveSpares(s: State, s': State, k: Token)
    requires Withdrawn(s, k) && Passive(s, s')
    ensures Spared(s, s', k)
  {
  }

  /** A handler can only execute under the token it holds. */
  lemma ProceedsSpares(s: State, t: TaskId, a: Action, s': State, k: Token)
    requires Accounted(s) && Withdrawn(s, k) && Proceeds(s, t, a, s')
    ensures Spared(s, s', k)
  {
    ProceedsKeepsPending(s, t, a, s');
    ProceedsKeepsPrepared(s, t, a, s');
    assert a.happening.Executed? ==> Pending(s, t).Some? && Pending(s, t).value.0 == a.happening.prepareToken;
  }

  lemma ResumeSpares(s: State, t: TaskId, reply: Reply, k: Token)
    requires Accounted(s) && Withdrawn(s, k)
    ensures Spared(s, ResumeStep(s, t, reply), k)
  {
    if Grip(s, t).Some? {
      var e, point := s.tasks[t].entry, s.tasks[t].point;
      HandlerIsLicensed(e, point, reply, s.nextToken, s.nextAttempt);
      var a := HandlerStep(e, point, reply, s.nextToken, s.nextAttempt);
      if a.Some? {
        ProceedsSpares(s, t, a.value, ResumeStep(s, t, reply), k);
      }
    }
  }

  lemma PrepareSpares(s: State, t: TaskId, caller: Caller, id: Id, token: Token, k: Token)
    requires Withdrawn(s, k)
    ensures Spared(s, PrepareCheck(s, t, caller, id, token), k)
  {
    var s' := PrepareCheck(s, t, caller, id, token);
    assert forall u :: Pending(s', u) == Pending(s, u);
  }

  lemma CommitSpares(s: State, t: TaskId, caller: Caller, id: Id, prepareToken: Token, k: Token)
    requires Withdrawn(s, k)
    ensures Spared(s, CommitToken(s, t, caller, id, prepareToken), k)
  {
    var s' := CommitToken(s, t, caller, id, prepareToken);
    assert forall u :: u != t ==> Pending(s', u) == Pending(s, u);
  }

  lemma InsertSpares(s: State, t: TaskId, k: Token)
    requires Withdrawn(s, k)
    ensures Spared(s, PrepareInsert(s, t), k)
  {
    var s' := PrepareInsert(s, t);
    assert forall u :: Pending(s', u).None? || Pending(s', u) == Pending(s, u);
  }

  lemma QuietSpares(s: State, e: Event, k: Token)
    requires Withdrawn(s, k) && QuietEvent(e)
    ensures Spared(s, Next(s, e), k)
  {
    match e
    case PrepareExec(t, caller, id, token) => PrepareSpares(s, t, caller, id, token, k);
    case CommitExec(t, caller, id, prepareToken) => CommitSpares(s, t, caller, id, prepareToken, k);
    case InsertPrepared(t) => InsertSpares(s, t, k);
    case _ => WaitingSpares(s, e, k);
  }

  lemma WaitingSpares(s: State, e: Event, k: Token)
    requires Withdrawn(s, k) && (e.Cleanup? || e.LoadForCleanup? || e.Wake? || e.GiveUp? || e.Notify? || e.BeginDrain?)
    ensures Spared(s, Next(s, e), k)
  {
    WaitingIsPassive(s, e);
    PassiveSpares(s, Next(s, e), k);
  }

  lemma CreateSpares(s: State, t: TaskId, caller: Caller, id: Id, assetsMatch: bool, k: Token)
    requires Withdrawn(s, k)
    ensures Spared(s, CreateCheck(s, t, caller, id, assetsMatch), k)
  {
    PassiveSpares(s, CreateCheck(s, t, caller, id, assetsMatch), k);
  }

  lemma SystemSpares(s: State, e: Event, k: Token)
    requires Keyed(s) && Withdrawn(s, k) && SystemEvent(e) && !QuietEvent(e)
    ensures Spared(s, Next(s, e), k)
  {
    if !e.Crash? {
      SystemKeepsPlaces(s, e);
      assert forall u :: Pending(Next(s, e), u) == Pending(s, u);
    }
  }

  lemma TakeSpares(s: State, e: Event, k: Token)
    requires Keyed(s) && Withdrawn(s, k) && TakeEvent(e)
    ensures Spared(s, Next(s, e), k)
  {
    TakeEventIsPassive(s, e);
    PassiveSpares(s, Next(s, e), k);
  }

  lemma StepSpares(s: State, e: Event, k: Token)
    requires Accounted(s) && Withdrawn(s, k)
    ensures Spared(s, Next(s, e), k)
  {
    if TakeEvent(e) {
      TakeSpares(s, e, k);
    } else if QuietEvent(e) {
      QuietSpares(s, e, k);
    } else {
      match e
      case Resume(t, reply) => ResumeSpares(s, t, reply, k);
      case Create(t, caller, id, assetsMatch) => CreateSpares(s, t, caller, id, assetsMatch, k);
      case _ => SystemSpares(s, e, k);
    }
  }

  lemma {:induction false} RunSpares(s: State, events: seq<Event>, k: Token)
    requires Accounted(s) && Withdrawn(s, k)
    ensures Accounted(Run(s, events)) && Spared(s, Run(s, events), k)
  {
    if events != [] {
      var n := |events| - 1;
      RunSpares(s, events[..n], k);
      StepKeepsAccounted(Run(s, events[..n]), events[n]);
      StepSpares(Run(s, events[..n]), events[n], k);
    }
  }

  /** In every run, the event by which a delete of an id moves on from its entry leaves no preparation of that id and
      every other one as it was; and a token that was outstanding for the id is never executed, neither before nor in
      any continuation, crashes and later sandboxes of the same id included. */
  lemma DeletedTokensNeverRun(events: seq<Event>, t: TaskId, rest: seq<Event>)
    requires var s := Run(START, events); Grip(s, t).Some? && s.tasks[t].point == DeleteRetain
    ensures var s := Run(START, events);
            var s' := Next(s, Resume(t, Locked));
            && (forall k :: k in s'.prepared <==> k in s.prepared && s.prepared[k].id != s.tasks[t].entry.record.id)
            && (forall k :: k in s'.prepared ==> s'.prepared[k] == s.prepared[k])
            && (forall k :: k in s.prepared && s.prepared[k].id == s.tasks[t].entry.record.id ==>
                  Unspent(Run(s', rest).world, k) && k !in Run(s', rest).prepared)
  {
    RunsAreAccounted(events);
    var s := Run(START, events);
    var s' := Next(s, Resume(t, Locked));
    StepKeepsAccounted(s, Resume(t, Locked));
    Withdraws(s, t, s');
    forall k | k in s.prepared && s.prepared[k].id == s.tasks[t].entry.record.id
      ensures Unspent(Run(s', rest).world, k) && k !in Run(s', rest).prepared
    {
      assert Spendable(s.world, k, Owner(s.prepared[k].id, s.prepared[k].caller));
      RunSpares(s', rest, k);
    }
  }

  lemma Withdraws(s: State, t: TaskId, s': State)
    requires Accounted(s) && Grip(s, t).Some? && s.tasks[t].point == DeleteRetain && s' == ResumeStep(s, t, Locked)
    ensures forall k :: k in s'.prepared <==> k in s.prepared && s.prepared[k].id != s.tasks[t].entry.record.id
    ensures forall k :: k in s'.prepared ==> s'.prepared[k] == s.prepared[k]
    ensures forall k :: k in s.prepared && s.prepared[k].id == s.tasks[t].entry.record.id ==> Withdrawn(s', k)
    ensures s'.world.executions == s.world.executions
  {
    assert forall k :: k in s.prepared ==> Spendable(s.world, k, Owner(s.prepared[k].id, s.prepared[k].caller));
    assert forall u :: Pending(s', u).Some? ==> Pending(s', u) == Pending(s, u);
  }

  /** A restart withdraws every token: what was prepared or taken before a crash is never executed after it. */
  lemma CrashedTokensNeverRun(events: seq<Event>, rest: seq<Event>, k: Token)
    requires k in Run(START, events).world.issued && Unspent(Run(START, events).world, k)
    ensures var s' := Run(Next(Run(START, events), Crash), rest);
            Unspent(s'.world, k) && k !in s'.prepared
  {
    RunsAreAccounted(events);
    StepKeepsAccounted(Run(START, events), Crash);
    RunSpares(Next(Run(START, events), Crash), rest, k);
  }
}
