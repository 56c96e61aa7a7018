/** When the service takes work: how it opens, and what draining means. */
module BoundaryAdmission {
  import opened RuntimeContract
  import opened ServiceBoundary
  import opened BoundaryCustody
  import opened BoundaryOrphans
  import opened BoundaryExecution

  // ---- Draining.

  /** A handler that may still submit a create or an execution of its own. */
  predicate MayStart(f: Frame) {
    f.Committing? || (f.Holding? && (f.point.CreateFence? || f.point.ExecFence?))
  }

  /** The service drains and nothing more will be started. */
  ghost predicate Quiescent(s: State) {
    s.draining && forall t :: t in s.tasks ==> !MayStart(s.tasks[t])
  }

  /** Nothing was submitted to the runtime but cleanup and waiting. */
  predicate NothingStarted(s: State, s': State) {
    s'.world.attempts == s.world.attempts && s'.world.executions == s.world.executions
  }

  lemma ResumeStartsNothing(s: State, t: TaskId, reply: Reply)
    requires Quiescent(s)
    ensures Quiescent(ResumeStep(s, t, reply)) && NothingStarted(s, ResumeStep(s, t, reply))
  {
    if Grip(s, t).Some? {
      var e, point := s.tasks[t].entry, s.tasks[t].point;
      HandlerIsLicensed(e, point, reply, s.nextToken, s.nextAttempt);
      SubmitsAtItsFence(e, point, reply, s.nextToken, s.nextAttempt);
      assert !MayStart(s.tasks[t]);
    }
  }

  lemma SubmitsAtItsFence(e: Entry, point: Point, reply: Reply, token: Token, attempt: Attempt)
    ensures var a := HandlerStep(e, point, reply, token, attempt);
            a.Some? && a.value.happening.Submitted? ==> point.CreateFence?
  {
  }

  lemma RequestStartsNothing(s: State, e: Event)
    requires Quiescent(s) && RequestEvent(e)
    ensures Quiescent(Next(s, e)) && NothingStarted(s, Next(s, e))
  {
  }

  lemma FrameStartsNothing(s: State, e: Event)
    requires Quiescent(s) && !RequestEvent(e) && !SystemEvent(e) && !e.Resume?
    ensures Quiescent(Next(s, e)) && NothingStarted(s, Next(s, e))
  {
    assert e.t in s.tasks ==> !MayStart(s.tasks[e.t]);
  }

  lemma SystemStartsNothing(s: State, e: Event)
    requires Quiescent(s) && SystemEvent(e) && !e.Crash?
    ensures Quiescent(Next(s, e)) && NothingStarted(s, Next(s, e))
  {
  }

  /** Once a draining service has no handler left that is about to create or execute, nothing is created or executed
      until the process is replaced, whatever requests arrive. */
  lemma {:induction false} DrainIsFinal(s: State, events: seq<Event>)
    requires Quiescent(s) && CrashFree(events)
    ensures Quiescent(Run(s, events)) && NothingStarted(s, Run(s, events))
  {
    if events != [] {
      var n := |events| - 1;
      var s', e := Run(s, events[..n]), events[n];
      DrainIsFinal(s, events[..n]);
      if RequestEvent(e) {
        RequestStartsNothing(s', e);
      } else if SystemEvent(e) {
        SystemStartsNothing(s', e);
      } else if e.Resume? {
        ResumeStartsNothing(s', e.t, e.reply);
      } else {
        FrameStartsNothing(s', e);
      }
    }
  }

  /** Beginning to drain touches nothing in progress. */
  lemma DrainBegins(s: State)
    ensures Next(s, BeginDrain).draining && Next(s, BeginDrain).(draining := s.draining) == s
  {
  }

  // ---- Opening.

  /** One record: a disowned one is only removed; any other is removed exactly when the runtime confirms that the
      sandbox is gone, and counted as unresolved when it does not; a failing removal closes the service. */
  lemma ReconcileOutcome(s: State, id: Id, gone: bool, r: Reply, s': State)
    requires s.phase.Reconciling? && id in s.phase.todo && id in s.store
    requires r.Removed? || r.RemoveLost? || r.RemoveKept?
    requires s' == Next(s, ReconcileOne(id, gone, r))
    ensures s.store[id].stage == Unowned || gone ==>
              && s'.store == (if r.RemoveLost? then s.store else s.store - {id})
              && s'.phase == if r.Removed? then Reconciling(s.phase.todo - {id}, s.phase.unresolved) else Down
    ensures s.store[id].stage != Unowned && !gone ==>
              s'.store == s.store && s'.phase == Reconciling(s.phase.todo - {id}, s.phase.unresolved + 1)
    ensures Under(s'.world, id) == if s.store[id].stage != Unowned && gone then {} else Under(s.world, id)
    ensures s' == s.(store := s'.store, phase := s'.phase, world := s.world.(mayExist := s'.world.mayExist))
  {
  }

  lemma RequestsKeepPhase(s: State, e: Event)
    requires RequestEvent(e)
    ensures Next(s, e).phase == s.phase
  {
  }

  lemma HandlersKeepPhase(s: State, e: Event)
    requires !RequestEvent(e) && !SystemEvent(e)
    ensures Next(s, e).phase == s.phase
  {
  }

  /** The service opens exactly when every record has had its turn and none is left unresolved. */
  lemma OpensIff(s: State, e: Event)
    requires !s.phase.Serving?
    ensures Next(s, e).phase.Serving? <==>
            e.FinishReconcile? && s.phase.Reconciling? && s.phase.todo == {} && s.phase.unresolved == 0
    ensures e.FinishReconcile? && s.phase.Reconciling? && s.phase.todo == {} && s.phase.unresolved > 0 ==>
              Next(s, e) == s.(phase := Down)
  {
    if RequestEvent(e) {
      RequestsKeepPhase(s, e);
    } else if !SystemEvent(e) {
      HandlersKeepPhase(s, e);
    }
  }

  lemma {:induction false} RunCons(s: State, e: Event, rest: seq<Event>)
    ensures Run(s, [e] + rest) == Run(Next(s, e), rest)
    decreases rest
  {
    if rest == [] {
      assert [e] + rest == [e] && [e][..0] == [];
    } else {
      var n := |rest| - 1;
      RunCons(s, e, rest[..n]);
      assert ([e] + rest)[..n + 1] == [e] + rest[..n];
    }
  }

  /** With a store that works and a runtime that confirms every deletion, the records are worked off. */
  lemma {:induction false} WorksOff(s: State) returns (events: seq<Event>)
    requires s.phase.Reconciling? && s.phase.unresolved == 0 && s.phase.todo <= s.store.Keys
    ensures Run(s, events).phase.Serving? && Run(s, events).draining == s.draining
    decreases if s.phase.Reconciling? then |s.phase.todo| else 0
  {
    if s.phase.todo == {} {
      events := [FinishReconcile] + [];
      RunCons(s, FinishReconcile, []);
    } else {
      var id :| id in s.phase.todo;
      var s' := Next(s, ReconcileOne(id, true, Removed));
      ReconcileOutcome(s, id, true, Removed, s');
      var rest := WorksOff(s');
      RunCons(s, ReconcileOne(id, true, Removed), rest);
      events := [ReconcileOne(id, true, Removed)] + rest;
    }
  }

  /** From every state a closed service can open again. */
  lemma CanOpen(s: State) returns (events: seq<Event>)
    requires s.phase.Down?
    ensures Run(s, events).phase.Serving? && Run(s, events).draining == s.draining
  {
    var s' := Next(s, LoadStore(true));
    var rest := WorksOff(s');
    RunCons(s, LoadStore(true), rest);
    events := [LoadStore(true)] + rest;
  }

  /** A crash forgets the maps, the handlers and the drain; the new process can take work again. */
  lemma Restarts(s: State) returns (events: seq<Event>)
    ensures var s' := Next(s, Crash);
            && s'.owned == map[] && s'.prepared == map[] && s'.tasks == map[] && s'.store == s.store
            && s'.world == s.world
            && Run(s', events).phase.Serving? && !Run(s', events).draining
  {
    events := CanOpen(Next(s, Crash));
  }
}
