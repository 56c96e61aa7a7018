/** No orphaned sandbox: across crashes anywhere and failing store operations, whatever may exist is on record. */
module BoundaryOrphans {
  import opened RuntimeContract
  import opened ServiceBoundary
  import opened BoundaryCustody

  /** The attempts of one id that may have left a sandbox behind. */
  function Under(w: World, id: Id): set<Attempt> {
    set a | a in w.mayExist && a in w.attempts && w.attempts[a].id == id
  }

  /** A sandbox that may exist has a durable record that reconciliation will act on. */
  ghost predicate NoOrphan(s: State) {
    && s.world.mayExist <= s.world.attempts.Keys
    && (forall id :: Under(s.world, id) != {} ==> id in s.store && s.store[id].stage != Unowned)
  }

  /** The points at which the handler knows that nothing exists under its id. */
  predicate KnowsAbsent(point: Point) {
    point.CreateFence? || point.UnownedWrite? || point.UnownedRemove? || point.WaitDeletedRemove?
  }

  predicate PointSound(w: World, e: Entry, point: Point) {
    && (e.record.stage == Unowned ==> point.UnownedWrite? || point.UnownedRemove?)
    && (KnowsAbsent(point) ==> Under(w, e.record.id) == {})
    && (point.CreateReply? ==> Under(w, e.record.id) <= {point.attempt} && BelongsTo(w, point.attempt, e.record))
  }

  /** The id is in somebody's custody. */
  ghost predicate Kept(s: State, id: Id) {
    id in s.owned || InUse(s, id)
  }

  ghost predicate Tended(s: State) {
    && (forall a :: a in s.world.attempts ==> a < s.nextAttempt)
    && (forall id :: id in s.owned ==> s.owned[id].record.stage != Unowned)
    && (forall t :: Grip(s, t).Some? ==> PointSound(s.world, s.tasks[t].entry, s.tasks[t].point))
    && (s.phase.Serving? ==> forall id :: Under(s.world, id) != {} ==> Kept(s, id))
    && (s.phase.Reconciling? && s.phase.unresolved == 0 ==> s.store.Keys <= s.phase.todo)
  }

  /** What a handler step may do with what the handler knows. */
  predicate Careful(e: Entry, point: Point, a: Action) {
    && KeepsIdentity(e, a)
    && (a.store.Put? ==> a.store.record == e.record)
    && (a.store.Erase? ==> point.UnownedRemove? || point.WaitDeletedRemove?)
    && (a.next.Shelve? ==> point.PutBack? && a.next.entry == e)
    && (a.next.Release? ==> KnowsAbsent(point) && a.happening.Nothing?)
    && (a.next.Continue? ==>
          && (a.next.entry.record.stage == Unowned ==> a.next.point.UnownedWrite? || a.next.point.UnownedRemove?)
          && !a.next.point.CreateFence?
          && (a.next.point.CreateReply? ==> point.CreateFence?  && a.happening == Submitted(a.next.point.attempt))
          && (a.next.point.UnownedWrite? ==> point.CreateReply? && a.happening == Refuted(point.attempt))
          && (a.next.point.UnownedRemove? ==> point.UnownedWrite? && a.happening.Nothing?)
          && (a.next.point.WaitDeletedRemove? ==> a.happening.Vanished?))
    && (a.happening.Refuted? ==> point == CreateReply(a.happening.attempt))
    && (a.happening.Submitted? ==> a.store.Put? && a.next == Continue(e, CreateReply(a.happening.attempt)))
  }

  lemma HandlerIsCareful(e: Entry, point: Point, reply: Reply, token: Token, attempt: Attempt)
    requires e.record.stage == Unowned ==> point.UnownedWrite? || point.UnownedRemove?
    ensures var a := HandlerStep(e, point, reply, token, attempt); a.Some? ==> Careful(e, point, a.value)
    ensures var a := HandlerStep(e, point, reply, token, attempt);
            a.Some? && a.value.happening.Submitted? ==> a.value.happening.attempt == attempt
  {
    CreateIsCareful(e, point, reply, token, attempt);
    ReadyExecIsCareful(e, point, reply, token);
  }

  lemma CreateIsCareful(e: Entry, point: Point, reply: Reply, token: Token, attempt: Attempt)
    requires e.record.stage == Unowned ==> point.UnownedWrite? || point.UnownedRemove?
    ensures var a := CreateStep(e, point, reply, token, attempt);
            a.Some? ==>
              Careful(e, point, a.value) && (a.value.happening.Submitted? ==> a.value.happening.attempt == attempt)
  {
  }

  lemma ReadyExecIsCareful(e: Entry, point: Point, reply: Reply, token: Token)
    requires e.record.stage == Unowned ==> point.UnownedWrite? || point.UnownedRemove?
    ensures var a := ReadyExecStep(e, point, reply, token); a.Some? ==> Careful(e, point, a.value)
  {
  }

  ghost predicate Safe(s: State) {
    Custody(s) && NoOrphan(s) && Tended(s)
  }

  lemma QuietKeepsSafe(s: State, s': State)
    requires Safe(s) && Quiet(s, s')
    ensures Safe(s')
  {
    QuietKeepsCustody(s, s');
    SameUnder(s.world, s'.world);
    forall id | Kept(s, id)
      ensures Kept(s', id)
    {
      if id !in s.owned {
        var t :| Holds(s, t, id);
        assert Grip(s', t) == Grip(s, t);
        assert Holds(s', t, id);
      }
    }
    forall t | Grip(s', t).Some?
      ensures PointSound(s'.world, s'.tasks[t].entry, s'.tasks[t].point)
    {
      assert Grip(s', t) == Grip(s, t);
    }
  }

  lemma SameUnder(w: World, w': World)
    requires w'.mayExist == w.mayExist && w'.attempts == w.attempts
    ensures forall id :: Under(w', id) == Under(w, id)
  {
  }

  lemma TookKeepsSafe(s: State, t: TaskId, s': State)
    requires Safe(s) && Took(s, t, s')
    ensures Safe(s')
  {
    var f := s'.tasks[t];
    TakeKeepsCustody(s, t, f.entry.record.id, f.entry, f.point);
    assert Holds(s', t, f.entry.record.id);
    forall id | Kept(s, id)
      ensures Kept(s', id)
    {
      if id !in s.owned {
        var u :| Holds(s, u, id);
        assert Holds(s', u, id);
      }
    }
    forall u | Grip(s', u).Some?
      ensures PointSound(s'.world, s'.tasks[u].entry, s'.tasks[u].point)
    {
      assert u != t ==> Grip(s', u) == Grip(s, u);
    }
  }

  /** The first check of a behaved create: nothing can exist under an id that nobody keeps. */
  lemma CreateKeepsSafe(s: State, t: TaskId, caller: Caller, id: Id, assetsMatch: bool)
    requires Safe(s) && (Passes(s, t, id, assetsMatch) ==> !InUse(s, id))
    ensures Safe(CreateCheck(s, t, caller, id, assetsMatch))
  {
    var s' := CreateCheck(s, t, caller, id, assetsMatch);
    if Passes(s, t, id, assetsMatch) {
      CreateKeepsCustodyIff(s, t, caller, id);
      assert !Kept(s, id);
      forall i | Kept(s, i)
        ensures Kept(s', i)
      {
        if i !in s.owned {
          var u :| Holds(s, u, i);
          assert Holds(s', u, i);
        }
      }
      forall u | Grip(s', u).Some?
        ensures PointSound(s'.world, s'.tasks[u].entry, s'.tasks[u].point)
      {
        assert u != t ==> Grip(s', u) == Grip(s, u);
      }
    }
  }

  lemma CrashKeepsSafe(s: State)
    requires Safe(s)
    ensures Safe(CrashStep(s))
  {
  }

  lemma ReconcileKeepsSafe(s: State, id: Id, gone: bool, reply: Reply)
    requires Safe(s)
    ensures Safe(ReconcileStep(s, id, gone, reply))
  {
    UnderElsewhere(s.world, id);
    ReconcileKeepsNoOrphan(s, id, gone, reply);
  }

  lemma ReconcileKeepsNoOrphan(s: State, id: Id, gone: bool, reply: Reply)
    requires Safe(s)
    ensures NoOrphan(ReconcileStep(s, id, gone, reply))
  {
  }

  lemma UnderElsewhere(w: World, id: Id)
    ensures var w' := w.(mayExist := Elsewhere(w, id));
            Under(w', id) == {} && forall i :: i != id ==> Under(w', i) == Under(w, i)
  {
  }

  /** A careful step of the handler at `t`. */
  ghost predicate Acts(s: State, t: TaskId, a: Action, s': State) {
    && Grip(s, t).Some?
    && Careful(s.tasks[t].entry, s.tasks[t].point, a)
    && (a.happening.Submitted? ==> a.happening.attempt == s.nextAttempt)
    && s' == Apply(s, t, s.tasks[t].entry.record, a)
  }

  lemma OthersHold(s: State, t: TaskId, a: Action, s': State)
    requires Safe(s) && Acts(s, t, a, s')
    ensures forall u :: u != t ==> Grip(s', u) == Grip(s, u)
    ensures forall u :: u != t && Grip(s, u).Some? ==> s.tasks[u].entry.record.id != s.tasks[t].entry.record.id
    ensures Grip(s', t) == if a.next.Continue? then Some(Holding(a.next.entry, a.next.point)) else None
  {
    var id := s.tasks[t].entry.record.id;
    assert Holds(s, t, id);
    forall u | u != t && Grip(s, u).Some?
      ensures s.tasks[u].entry.record.id != id
    {
      assert Holds(s, u, s.tasks[u].entry.record.id);
    }
  }

  lemma UnderApplied(s: State, t: TaskId, a: Action, s': State)
    requires Safe(s) && Acts(s, t, a, s')
    ensures var id := s.tasks[t].entry.record.id;
            && (forall i :: i != id ==> Under(s'.world, i) == Under(s.world, i))
            && (a.happening.Submitted? ==> Under(s'.world, id) == Under(s.world, id) + {a.happening.attempt})
            && (a.happening.Refuted? ==> Under(s'.world, id) == Under(s.world, id) - {a.happening.attempt})
            && (a.happening.Vanished? ==> Under(s'.world, id) == {})
            && (!a.happening.Submitted? && !a.happening.Refuted? && !a.happening.Vanished? ==>
                Under(s'.world, id) == Under(s.world, id))
  {
  }

  lemma ActsKeepsNoOrphan(s: State, t: TaskId, a: Action, s': State)
    requires Safe(s) && Acts(s, t, a, s')
    ensures NoOrphan(s')
  {
  }

  lemma ActsKeepsPoints(s: State, t: TaskId, a: Action, s': State)
    requires Safe(s) && Acts(s, t, a, s')
    ensures forall u :: Grip(s', u).Some? ==> PointSound(s'.world, s'.tasks[u].entry, s'.tasks[u].point)
  {
    OthersHold(s, t, a, s');
    UnderApplied(s, t, a, s');
    forall u | Grip(s', u).Some?
      ensures PointSound(s'.world, s'.tasks[u].entry, s'.tasks[u].point)
    {
      assert u != t ==> Grip(s, u).Some?;
      assert Grip(s, t).Some?;
    }
  }

  lemma ActsKeepsKept(s: State, t: TaskId, a: Action, s': State)
    requires Safe(s) && Acts(s, t, a, s') && s.phase.Serving?
    ensures forall id :: Under(s'.world, id) != {} ==> Kept(s', id)
  {
    OthersHold(s, t, a, s');
    UnderApplied(s, t, a, s');
    assert Grip(s, t).Some?;
    var e := s.tasks[t].entry;
    forall id | Under(s'.world, id) != {}
      ensures Kept(s', id)
    {
      if id == e.record.id {
        assert a.next.Continue? ==> Holds(s', t, id);
      } else {
        assert Kept(s, id);
        if id !in s.owned {
          var u :| Holds(s, u, id);
          assert Grip(s', u) == Grip(s, u);
          assert Holds(s', u, id);
        }
      }
    }
  }

  lemma ResumeKeepsSafe(s: State, t: TaskId, reply: Reply)
    requires Safe(s)
    ensures Safe(ResumeStep(s, t, reply))
  {
    ResumeKeepsCustody(s, t, reply);
    if Grip(s, t).Some? {
      var e, point := s.tasks[t].entry, s.tasks[t].point;
      HandlerIsCareful(e, point, reply, s.nextToken, s.nextAttempt);
      var a := HandlerStep(e, point, reply, s.nextToken, s.nextAttempt);
      if a.Some? {
        var s' := ResumeStep(s, t, reply);
        assert Acts(s, t, a.value, s');
        ActsKeepsNoOrphan(s, t, a.value, s');
        ActsKeepsPoints(s, t, a.value, s');
        ActsKeepsKept(s, t, a.value, s');
      }
    }
  }

  lemma StepKeepsSafe(s: State, e: Event)
    requires Safe(s) && Behaved(s, e)
    ensures Safe(Next(s, e))
  {
    var s' := Next(s, e);
    if TakeEvent(e) {
      TakeStep(s, e);
      if Took(s, e.t, s') {
        TookKeepsSafe(s, e.t, s');
      } else {
        QuietKeepsSafe(s, s');
      }
    } else if QuietEvent(e) {
      QuietStep(s, e);
      QuietKeepsSafe(s, s');
    } else {
      match e
      case Resume(t, reply) => ResumeKeepsSafe(s, t, reply);
      case Create(t, caller, id, assetsMatch) => CreateKeepsSafe(s, t, caller, id, assetsMatch);
      case Crash => CrashKeepsSafe(s);
      case ReconcileOne(id, gone, reply) => ReconcileKeepsSafe(s, id, gone, reply);
      case LoadStore(readable) => LoadKeepsSafe(s, readable);
      case FinishReconcile => FinishKeepsSafe(s);
    }
  }

  lemma MayExistUnder(w: World)
    requires w.mayExist <= w.attempts.Keys
    ensures forall a :: a in w.mayExist ==> a in Under(w, w.attempts[a].id)
  {
  }

  lemma LoadKeepsSafe(s: State, readable: bool)
    requires Safe(s)
    ensures Safe(LoadStep(s, readable))
  {
  }

  /** When the service opens, the store is empty and nothing exists. */
  lemma FinishKeepsSafe(s: State)
    requires Safe(s)
    ensures Safe(FinishStep(s))
    ensures !s.phase.Serving? && FinishStep(s).phase.Serving? ==> s.store == map[] && s.world.mayExist == {}
  {
    if s.phase.Reconciling? && s.phase.todo == {} && s.phase.unresolved == 0 {
      assert s.store.Keys == {};
      MayExistUnder(s.world);
    }
  }

  /** Over every run with crashes anywhere: each id is in one place, and no sandbox that may exist is off the record. */
  lemma {:induction false} RunsAreSafe(events: seq<Event>)
    requires BehavedRun(START, events)
    ensures Safe(Run(START, events))
  {
    if events != [] {
      var n := |events| - 1;
      RunsAreSafe(events[..n]);
      StepKeepsSafe(Run(START, events[..n]), events[n]);
    }
  }

  /** The record of an id, or what may exist under it, changed. */
  predicate Touched(s: State, s': State, id: Id) {
    || (id in s.store) != (id in s'.store)
    || (id in s.store && id in s'.store && s.store[id] != s'.store[id])
    || Under(s.world, id) != Under(s'.world, id)
  }

  lemma ActsTouchesOnlyItsId(s: State, t: TaskId, a: Action, s': State, id: Id)
    requires Safe(s) && Acts(s, t, a, s') && Touched(s, s', id)
    ensures Holds(s, t, id)
  {
  }

  lemma ReconcileTouchesOnlyItsId(s: State, i: Id, gone: bool, reply: Reply, id: Id)
    requires Touched(s, ReconcileStep(s, i, gone, reply), id)
    ensures id == i
  {
  }

  /** In every run, what is durable or may exist under an id changes only by startup reconciliation or by the one
      handler that holds the id, so store and runtime operations on an id never overlap. */
  lemma OnlyTheHolderTouches(events: seq<Event>, e: Event, id: Id)
    requires BehavedRun(START, events) && Touched(Run(START, events), Next(Run(START, events), e), id)
    ensures var s := Run(START, events);
            || (e.ReconcileOne? && e.id == id && !s.phase.Serving?)
            || (e.Resume? && Holds(s, e.t, id) && id !in s.owned && forall u :: Holds(s, u, id) ==> u == e.t)
  {
    RunsAreSafe(events);
    var s := Run(START, events);
    var s' := Next(s, e);
    if e.Resume? {
      if Grip(s, e.t).Some? {
        HandlerIsCareful(s.tasks[e.t].entry, s.tasks[e.t].point, e.reply, s.nextToken, s.nextAttempt);
        var a := HandlerStep(s.tasks[e.t].entry, s.tasks[e.t].point, e.reply, s.nextToken, s.nextAttempt);
        if a.Some? {
          ActsTouchesOnlyItsId(s, e.t, a.value, s', id);
        }
      }
    } else if e.ReconcileOne? {
      ReconcileTouchesOnlyItsId(s, e.id, e.gone, e.reply, id);
    } else {
      OthersTouchNothing(s, e, id);
    }
  }

  lemma OthersTouchNothing(s: State, e: Event, id: Id)
    requires Custody(s) && !e.Resume? && !e.ReconcileOne?
    ensures !Touched(s, Next(s, e), id)
  {
    var s' := Next(s, e);
    if TakeEvent(e) {
      TakeStep(s, e);
    } else if QuietEvent(e) {
      QuietStep(s, e);
    }
    SameUnder(s.world, s'.world);
  }

  lemma OpeningLeavesNothing(s: State, e: Event)
    requires Safe(s) && !s.phase.Serving? && Next(s, e).phase.Serving?
    ensures Next(s, e).store == map[] && Next(s, e).world.mayExist == {}
  {
    OnlyReconciliationServes(s, e);
    FinishKeepsSafe(s);
  }

  /** Whenever startup reconciliation succeeds, the store is empty and no sandbox of an earlier life exists. */
  lemma ReconciliationLeavesNothing(events: seq<Event>, e: Event)
    requires BehavedRun(START, events)
    requires !Run(START, events).phase.Serving? && Next(Run(START, events), e).phase.Serving?
    ensures Next(Run(START, events), e).store == map[] && Next(Run(START, events), e).world.mayExist == {}
  {
    RunsAreSafe(events);
    OpeningLeavesNothing(Run(START, events), e);
  }

  lemma OnlyReconciliationServes(s: State, e: Event)
    requires Custody(s) && !s.phase.Serving? && Next(s, e).phase.Serving?
    ensures e.FinishReconcile?
  {
  }

  /** Two creates for one id pass the check together. */
  lemma BothPass() returns (events: seq<Event>, s: State)
    ensures s == Run(START, events) && CrashFree(events)
    ensures var f := Holding(Entry(Record(5, 7, CreatePossible), 0, CleanupOnly), CreateFence);
            s == START.(phase := Serving, tasks := map[1 := f, 2 := f])
  {
    events, s := [], START;
    events, s := Then(START, events, s, LoadStore(true));
    events, s := Then(START, events, s, FinishReconcile);
    events, s := Then(START, events, s, Create(1, 7, 5, true));
    events, s := Then(START, events, s, Create(2, 7, 5, true));
  }

  lemma FirstSubmits() returns (events: seq<Event>, s: State)
    ensures s == Run(START, events) && CrashFree(events)
    ensures 0 in Under(s.world, 5) && s.nextAttempt == 1
    ensures Grip(s, 2) == Some(Holding(Entry(Record(5, 7, CreatePossible), 0, CleanupOnly), CreateFence))
  {
    events, s := BothPass();
    events, s := Then(START, events, s, Resume(1, Wrote));
    assert 0 in Under(s.world, 5);
  }

  /** The first is created, and the second told that the id is taken. */
  lemma FirstWins() returns (events: seq<Event>, s: State)
    ensures s == Run(START, events) && CrashFree(events)
    ensures 0 in Under(s.world, 5)
    ensures Grip(s, 2) == Some(Holding(Entry(Record(5, 7, Unowned), 0, CleanupOnly), UnownedWrite))
  {
    events, s := FirstSubmits();
    events, s := Then(START, events, s, Resume(2, Wrote));
    assert 0 in Under(s.world, 5);
    events, s := Then(START, events, s, Resume(2, CreateConflict));
    assert 0 in Under(s.world, 5);
  }

  /** Without the promise of callers the property fails: two creates for one id pass the check together, the runtime
      tells the second that the id is taken, and its handler removes the record of the sandbox that exists. */
  lemma ConcurrentCreatesOrphan() returns (events: seq<Event>)
    ensures CrashFree(events)
    ensures !NoOrphan(Run(START, events))
  {
    var s: State;
    events, s := FirstWins();
    events, s := Then(START, events, s, Resume(2, WriteLost));
    assert 0 in Under(s.world, 5) && Grip(s, 2).Some?;
    events, s := Then(START, events, s, Resume(2, Removed));
    assert 0 in Under(s.world, 5);
  }
}
