/** The boundary as the object it is: the operations on its maps that run under one lock, and the loop of startup
    reconciliation, each tied to the steps of the transition system. */
module BoundaryService {
  import opened RuntimeContract
  import opened ServiceBoundary
  import opened BoundaryCustody
  import opened BoundaryOrphans

  datatype ReconciliationReport = ReconciliationReport(removed: nat, unresolved: nat)

  /** What the runtime and the store will answer: which sandboxes are confirmed gone, and how each removal ends. */
  datatype Answers = Answers(absent: set<Id>, removals: map<Id, Reply>) {
    ghost predicate Cover(ids: set<Id>) {
      forall id :: id in ids ==> id in removals && Removing(removals[id]).Some?
    }

    /** The record may go. */
    predicate Confirms(record: Record, id: Id) {
      record.stage == Unowned || id in absent
    }

    ghost predicate ResolveAll(store: map<Id, Record>, except: set<Id>) {
      forall id :: id in store && id !in except ==>
        Confirms(store[id], id) && id in removals && removals[id] == Removed
    }
  }

  /** Records go only when confirmed, and no other changes. */
  ghost predicate OnlyConfirmedGone(before: map<Id, Record>, after: map<Id, Record>, answers: Answers) {
    && (forall id :: id in after ==> id in before && after[id] == before[id])
    && (forall id :: id in before && id !in after ==> answers.Confirms(before[id], id))
  }

  /** What one turn of the loop does to the records and to the phase. */
  predicate Turn(store: map<Id, Record>, id: Id, phase: Phase, answers: Answers, store': map<Id, Record>, next: Phase)
    requires phase.Reconciling? && id in store && id in answers.removals
  {
    if !answers.Confirms(store[id], id) then
      store' == store && next == Reconciling(phase.todo - {id}, phase.unresolved + 1)
    else if answers.removals[id] == Removed then
      store' == store - {id} && next == Reconciling(phase.todo - {id}, phase.unresolved)
    else (store' == store || store' == store - {id}) && next == Down
  }

  /** How far the loop has come: what is gone was confirmed, and nothing is unresolved exactly when every record that
      had its turn was confirmed and removed. */
  ghost predicate Progress(before: map<Id, Record>, store: map<Id, Record>, phase: Phase, removed: nat,
                           answers: Answers)
  {
    && OnlyConfirmedGone(before, store, answers)
    && match phase
       case Down => !answers.ResolveAll(before, {})
       case Reconciling(todo, unresolved) =>
         && todo <= store.Keys && removed + |store| == |before|
         && (unresolved == 0 <==> answers.ResolveAll(before, todo))
       case Serving => false
  }

  lemma TurnProgresses(before: map<Id, Record>, store: map<Id, Record>, phase: Phase, removed: nat, answers: Answers,
                       id: Id, store': map<Id, Record>, next: Phase)
    requires Progress(before, store, phase, removed, answers) && phase.Reconciling? && id in phase.todo
    requires id in answers.removals && Turn(store, id, phase, answers, store', next)
    ensures Progress(before, store', next,
                     if next.Reconciling? && next.unresolved == phase.unresolved then removed + 1 else removed, answers)
  {
    SmallerWithout(store, id);
  }

  lemma SmallerWithout(store: map<Id, Record>, id: Id)
    requires id in store
    ensures |store - {id}| == |store| - 1 && store - {id} != store
  {
  }

  lemma PutThenNotify(s: State, t: TaskId, e: Entry)
    requires t in s.tasks && s.tasks[t] == Holding(e, PutBack)
    ensures NotifyStep(ResumeStep(s, t, Locked), t) ==
            End(s, t).(owned := s.owned[e.record.id := e], epoch := s.epoch + 1,
                       nextToken := s.nextToken + 1, nextAttempt := s.nextAttempt + 1)
  {
    assert s.tasks[t := Notifying(e.record.id)] - {t} == s.tasks - {t};
  }

  class SandboxServiceBoundary {
    var owned: map<Id, Entry>
    var prepared: map<Token, Prepared>
    var store: map<Id, Record>
    var startupReconciled: bool
    var draining: bool
    var epoch: nat
    var nextToken: Token
    ghost var nextAttempt: Attempt
    ghost var world: World

    /** The object as a state of the transition system, given its phase and the handlers suspended in it. */
    ghost function Snapshot(phase: Phase, tasks: map<TaskId, Frame>): (s: State)
      reads this
    {
      State(phase, draining, owned, prepared, tasks, store, epoch, nextToken, nextAttempt, world)
    }

    /** `take_owned`: the entry is removed, compared, and put back if the caller or the token does not fit. */
    method TakeOwned(caller: Caller, id: Id, token: Option<Token>) returns (r: Option<Entry>)
      modifies this`owned
      ensures r.Some? <==>
              id in old(owned) && old(owned)[id].record.caller == caller &&
                  (token.Some? ==> token.value == old(owned)[id].token)
      ensures r.Some? ==> r.value == old(owned)[id] && owned == old(owned) - {id}
      ensures r.None? ==> owned == old(owned)
    {
      if id !in owned {
        return None;
      }
      var entry := owned[id];
      owned := owned - {id};
      if entry.record.caller == caller && (token.Some? ==> token.value == entry.token) {
        return Some(entry);
      }
      owned := owned[id := entry];
      r := None;
      assert owned == old(owned);
    }

    /** `take_owned` for `wait_ready` is the first step of that handler. */
    method WaitReadyTake(t: TaskId, caller: Caller, id: Id, token: Token, policyMatches: bool,
                         ghost tasks: map<TaskId, Frame>)
      returns (f: Option<Frame>)
      requires t !in tasks
      modifies this`owned
      ensures Snapshot(Serving, if f.Some? then tasks[t := f.value] else tasks)
              == ServiceBoundary.WaitReadyTake(old(Snapshot(Serving, tasks)), t, caller, id, token, policyMatches)
    {
      var taken := TakeOwned(caller, id, Some(token));
      if taken.None? {
        return None;
      }
      var e := taken.value;
      if !e.lifecycle.Created? {
        return Some(Holding(e, PutBack));
      }
      if !policyMatches {
        return Some(Holding(e.At(StageCleanupOnly).(lifecycle := CleanupOnly), WriteThenPut));
      }
      f := Some(Holding(e, ReadyReply));
    }

    /** The second half of `prepare_exec`. */
    method InsertPrepared(t: TaskId, f: Frame, ghost tasks: map<TaskId, Frame>) returns (token: Option<Token>)
      requires t in tasks && tasks[t] == f && f.Preparing?
      modifies this`prepared, this`nextToken, this`world
      ensures Snapshot(Serving, tasks - {t}) == PrepareInsert(old(Snapshot(Serving, tasks)), t)
      ensures token.Some? <==> !HasPrepared(old(prepared), f.id)
      ensures token.Some? ==> token.value in prepared && prepared[token.value] == Prepared(f.caller, f.id)
    {
      if exists k :: k in prepared && prepared[k].id == f.id {
        return None;
      }
      token := Some(nextToken);
      prepared := prepared[nextToken := Prepared(f.caller, f.id)];
      world := world.(issued := world.issued[nextToken := Issue(Owner(f.id, f.caller), f.token, f.attempt)]);
      nextToken := nextToken + 1;
    }

    /** `put_owned`: insertion under the lock, then notification of every waiter registered so far. */
    method PutOwned(t: TaskId, e: Entry, ghost tasks: map<TaskId, Frame>)
      requires t in tasks && tasks[t] == Holding(e, PutBack)
      modifies this`owned, this`epoch, this`nextToken, this`nextAttempt
      ensures Snapshot(Serving, tasks - {t}) ==
              NotifyStep(ResumeStep(old(Snapshot(Serving, tasks)), t, Locked), t)
    {
      PutThenNotify(Snapshot(Serving, tasks), t, e);
      owned := owned[e.record.id := e];
      nextToken, nextAttempt := nextToken + 1, nextAttempt + 1;
      epoch := epoch + 1;
    }

    /** `DurableStore::remove`, with the reply the store gives: a failure may come before or after the effect. */
    method Remove(id: Id, reply: Reply) returns (ok: bool)
      requires Removing(reply).Some?
      modifies this`store
      ensures ok <==> reply == Removed
      ensures store == StoreAfter(old(store), id, Removing(reply).value)
    {
      ok := reply == Removed;
      if reply != RemoveLost {
        store := store - {id};
      }
    }

    /** The runtime's delete and wait: success means that nothing is left under the id. */
    method DeleteAndWait(id: Id, gone: bool) returns (ok: bool)
      modifies this`world
      ensures ok == gone && world == if gone then old(world).(mayExist := Elsewhere(old(world), id)) else old(world)
    {
      ok := gone;
      if gone {
        world := world.(mayExist := Elsewhere(world, id));
      }
    }

    /** One turn of the loop: exactly the reconciliation step of the transition system. */
    method ReconcileRecord(id: Id, phase: Phase, answers: Answers) returns (next: Phase)
      requires phase.Reconciling? && id in phase.todo && id in store && answers.Cover({id})
      modifies this`store, this`world
      ensures Snapshot(next, map[]) ==
              ReconcileStep(old(Snapshot(phase, map[])), id, id in answers.absent, answers.removals[id])
      ensures Turn(old(store), id, phase, answers, store, next)
      ensures Safe(old(Snapshot(phase, map[]))) ==> Safe(Snapshot(next, map[]))
    {
      ghost var before := Snapshot(phase, map[]);
      if Safe(before) {
        ReconcileKeepsSafe(before, id, id in answers.absent, answers.removals[id]);
      }
      if store[id].stage != Unowned {
        var absent := DeleteAndWait(id, id in answers.absent);
        if !absent {
          return Reconciling(phase.todo - {id}, phase.unresolved + 1);
        }
      }
      var ok := Remove(id, answers.removals[id]);
      next := if ok then Reconciling(phase.todo - {id}, phase.unresolved) else Down;
    }

    /** The loop over the records as loaded; it counts what it removes and stops at the first store failure. */
    method ReconcileAll(loaded: Phase, answers: Answers) returns (phase: Phase, removed: nat)
      requires loaded == Reconciling(store.Keys, 0) && Safe(Snapshot(loaded, map[])) && answers.Cover(store.Keys)
      modifies this`store, this`world
      ensures Safe(Snapshot(phase, map[]))
      ensures phase.Down? || (phase.Reconciling? && phase.todo == {} && removed + |store| == |old(store)|)
      ensures phase == Reconciling({}, 0) <==> answers.ResolveAll(old(store), {})
      ensures OnlyConfirmedGone(old(store), store, answers)
    {
      phase, removed := loaded, 0;
      while phase.Reconciling? && phase.todo != {}
        invariant Safe(Snapshot(phase, map[])) && Progress(old(store), store, phase, removed, answers)
        decreases if phase.Reconciling? then |phase.todo| + 1 else 0
      {
        var id :| id in phase.todo;
        ghost var before := store;
        var next := ReconcileRecord(id, phase, answers);
        TurnProgresses(old(store), before, phase, removed, answers, id, store, next);
        if next.Reconciling? && next.unresolved == phase.unresolved {
          removed := removed + 1;
        }
        phase := next;
      }
    }

    /** `reconcile_startup`: it succeeds exactly when the directory can be read, every owned sandbox is confirmed gone
        and every record is removed; then nothing of an earlier life exists any more. Failure of any kind leaves the
        service closed, every sandbox that may exist on record, and every record not confirmed in place. */
    method ReconcileStartup(readable: bool, answers: Answers) returns (report: Option<ReconciliationReport>)
      requires Safe(Snapshot(Down, map[])) && answers.Cover(store.Keys)
      modifies this`store, this`world, this`startupReconciled
      ensures report.Some? <==> readable && answers.ResolveAll(old(store), {})
      ensures startupReconciled <==> report.Some?
      ensures Safe(Snapshot(if report.Some? then Serving else Down, map[]))
      ensures report.Some? ==>
              store == map[] && world.mayExist == {} && report.value == ReconciliationReport(|old(store)|, 0)
      ensures OnlyConfirmedGone(old(store), store, answers)
    {
      startupReconciled := false;
      if !readable {
        return None;
      }
      LoadKeepsSafe(Snapshot(Down, map[]), true);
      var phase, removed := ReconcileAll(Reconciling(store.Keys, 0), answers);
      if phase.Down? {
        return None;
      }
      FinishKeepsSafe(Snapshot(phase, map[]));
      if phase.unresolved == 0 {
        startupReconciled := true;
        report := Some(ReconciliationReport(removed, 0));
      } else {
        report := None;
      }
    }
  }
}
