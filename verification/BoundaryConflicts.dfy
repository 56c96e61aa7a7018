/** What a create for an id in use can cost: the promise of callers is exactly what keeps every sandbox on record. */
module BoundaryConflicts {
  import opened RuntimeContract
  import opened ServiceBoundary
  import opened BoundaryCustody
  import opened BoundaryOrphans
  import opened BoundaryLives

  /** A newcomer is about to fence its create at `t` while `u` still works on the same id. */
  predicate Clash(s: State, t: TaskId, n: Entry, u: TaskId, e: Entry, point: Point) {
    && t != u && n.record.id == e.record.id
    && t in s.tasks && s.tasks[t] == Holding(n, CreateFence)
    && u in s.tasks && s.tasks[u] == Holding(e, point)
  }

  /** The holder's next reply is chosen; the newcomer stays where it is. */
  lemma Moves(s0: State, events: seq<Event>, s: State, t: TaskId, n: Entry, u: TaskId, e: Entry, point: Point,
              reply: Reply, e': Entry, point': Point)
    returns (events': seq<Event>, s': State)
    requires Leads(s0, events, s) && Clash(s, t, n, u, e, point) && e'.record.id == e.record.id
    requires var a := HandlerStep(e, point, reply, s.nextToken, s.nextAttempt);
             a.Some? && a.value.next == Continue(e', point')
    ensures Leads(s0, events', s') && Clash(s', t, n, u, e', point')
  {
    events', s' := Goes(s0, events, s, Resume(u, reply));
  }

  predicate Erases(point: Point) {
    point.UnownedRemove? || point.WaitDeletedRemove?
  }

  lemma SubmitAlone(s: State, t: TaskId, n: Entry, u: TaskId, e: Entry, point: Point)
    requires AcceptsWork(s) && Clash(s, t, n, u, e, point)
    ensures var s' := ResumeStep(s, t, Wrote);
            AcceptsWork(s') && Grip(s', u) == Some(Holding(e, point)) && s.nextAttempt in Under(s'.world, e.record.id)
  {
  }

  lemma EraseAlone(s: State, u: TaskId, e: Entry, point: Point, a: Attempt)
    requires AcceptsWork(s) && Grip(s, u) == Some(Holding(e, point)) && Erases(point)
    requires a in Under(s.world, e.record.id)
    ensures var s' := ResumeStep(s, u, Removed); AcceptsWork(s') && !NoOrphan(s')
  {
    var s' := ResumeStep(s, u, Removed);
    assert s'.world == s.world && e.record.id !in s'.store;
  }

  /** The newcomer submits, and the holder then erases the record it believes to be its own. */
  lemma LosesRecord(s0: State, events: seq<Event>, s: State, t: TaskId, n: Entry, u: TaskId, e: Entry, point: Point)
    returns (rest: seq<Event>)
    requires Leads(s0, events, s) && Clash(s, t, n, u, e, point) && Erases(point)
    ensures Calm(rest) && !NoOrphan(Run(s0, rest))
  {
    var s': State;
    SubmitAlone(s, t, n, u, e, point);
    rest, s' := Goes(s0, events, s, Resume(t, Wrote));
    EraseAlone(s', u, e, point, s.nextAttempt);
    rest, s' := Goes(s0, rest, s', Resume(u, Removed));
  }

  /** A create in flight that comes to nothing ends by removing its record. */
  lemma FromCreate(s0: State, events: seq<Event>, s: State, t: TaskId, n: Entry, u: TaskId, e: Entry, point: Point)
    returns (rest: seq<Event>)
    requires Leads(s0, events, s) && Clash(s, t, n, u, e, point)
    requires point.CreateFence? || point.CreateReply? || point.UnownedWrite?
    ensures Calm(rest) && !NoOrphan(Run(s0, rest))
    decreases if point.CreateFence? then 2 else if point.CreateReply? then 1 else 0
  {
    var events', s';
    match point
    case CreateFence =>
      events', s' := Moves(s0, events, s, t, n, u, e, point, Wrote, e, CreateReply(s.nextAttempt));
      rest := FromCreate(s0, events', s', t, n, u, e, CreateReply(s.nextAttempt));
    case CreateReply(_) =>
      events', s' := Moves(s0, events, s, t, n, u, e, point, CreateNever, e.At(Unowned), UnownedWrite);
      rest := FromCreate(s0, events', s', t, n, u, e.At(Unowned), UnownedWrite);
    case UnownedWrite =>
      events', s' := Moves(s0, events, s, t, n, u, e, point, Wrote, e, UnownedRemove);
      rest := LosesRecord(s0, events', s', t, n, u, e, UnownedRemove);
  }

  /** A `wait_deleted` that finds nothing goes on to remove the record. */
  lemma FromWait(s0: State, events: seq<Event>, s: State, t: TaskId, n: Entry, u: TaskId, e: Entry)
    returns (rest: seq<Event>)
    requires Leads(s0, events, s) && Clash(s, t, n, u, e, WaitDeletedReply)
    ensures Calm(rest) && !NoOrphan(Run(s0, rest))
  {
    var events', s' := Moves(s0, events, s, t, n, u, e, WaitDeletedReply, RuntimeOk, e, WaitDeletedRemove);
    rest := LosesRecord(s0, events', s', t, n, u, e, WaitDeletedRemove);
  }

  lemma PutAside(s: State, t: TaskId, n: Entry, u: TaskId, e: Entry)
    requires AcceptsWork(s) && Clash(s, t, n, u, e, PutBack)
    ensures var s1 := ResumeStep(s, u, Locked); var s2 := NotifyStep(s1, u);
            && AcceptsWork(s1) && AcceptsWork(s2)
            && s2.tasks == s.tasks - {u} && s2.owned == s.owned[e.record.id := e]
  {
    assert s.tasks[u := Notifying(e.record.id)] - {u} == s.tasks - {u};
  }

  lemma TakeAside(s: State, t: TaskId, n: Entry, u: TaskId, e: Entry)
    requires AcceptsWork(s) && u !in s.tasks && e.record.id in s.owned && s.owned[e.record.id] == e
    requires t in s.tasks && s.tasks[t] == Holding(n, CreateFence) && n.record.id == e.record.id
    ensures var s1 := AcquireBegin(s, u, WaitDeletedCall, e.record.caller, e.record.id);
            var s2 := AcquireTake(s1, u, false);
            AcceptsWork(s1) && AcceptsWork(s2) && Clash(s2, t, n, u, e, WaitDeletedReply)
  {
  }

  /** A `wait_deleted` takes the entry that was put back. */
  lemma FromShelf(s0: State, events: seq<Event>, s: State, t: TaskId, n: Entry, u: TaskId, e: Entry)
    returns (rest: seq<Event>)
    requires Leads(s0, events, s) && u !in s.tasks && e.record.id in s.owned && s.owned[e.record.id] == e
    requires t in s.tasks && s.tasks[t] == Holding(n, CreateFence) && n.record.id == e.record.id
    ensures Calm(rest) && !NoOrphan(Run(s0, rest))
  {
    TakeAside(s, t, n, u, e);
    var events', s' := Goes(s0, events, s, Cleanup(u, WaitDeletedCall, e.record.caller, e.record.id));
    events', s' := Goes(s0, events', s', TakeForCleanup(u, false));
    rest := FromWait(s0, events', s', t, n, u, e);
  }

  /** An entry that is put back can be taken by a `wait_deleted`, whatever the newcomer has passed. */
  lemma FromPutBack(s0: State, events: seq<Event>, s: State, t: TaskId, n: Entry, u: TaskId, e: Entry)
    returns (rest: seq<Event>)
    requires Leads(s0, events, s) && Clash(s, t, n, u, e, PutBack)
    ensures Calm(rest) && !NoOrphan(Run(s0, rest))
  {
    var events', s';
    PutAside(s, t, n, u, e);
    events', s' := Goes(s0, events, s, Resume(u, Locked));
    events', s' := Goes(s0, events', s', Notify(u));
    rest := FromShelf(s0, events', s', t, n, u, e);
  }

  /** One reply with which a handler at this point goes towards putting its entry back, and where that leads. */
  function Homeward(e: Entry, point: Point): (Reply, Entry, Point) {
    match point
    case CreatedWrite => (Wrote, e, PutBack)
    case WriteThenPut => (Wrote, e, PutBack)
    case ReadyReply => (RuntimeFailed, e.At(StageCleanupOnly).(lifecycle := CleanupOnly), WriteThenPut)
    case ReadyWrite => (WriteLost, e.(lifecycle := CleanupOnly), PutBack)
    case ExecFence(_) => (WriteLost, e, PutBack)
    case ExecReply => (RuntimeOk, e.At(StageCleanupOnly), WriteThenPut)
    case DeleteRetain => (Locked, e.At(DeletePending), DeleteFence)
    case DeleteFence => (WriteLost, e, PutBack)
    case DeleteReply => (RuntimeOk, e.(lifecycle := CleanupOnly), PutBack)
    case _ => (Locked, e, point)
  }

  predicate GoesHome(point: Point) {
    || point.CreatedWrite? || point.WriteThenPut? || point.ReadyReply? || point.ReadyWrite? || point.ExecFence?
    || point.ExecReply? || point.DeleteRetain? || point.DeleteFence? || point.DeleteReply?
  }

  lemma HomewardIsAStep(e: Entry, point: Point, token: Token, attempt: Attempt)
    requires GoesHome(point)
    ensures var (reply, e', point') := Homeward(e, point); var a := HandlerStep(e, point, reply, token, attempt);
            a.Some? && a.value.next == Continue(e', point') && e'.record.id == e.record.id
  {
  }

  /** Every handler that has neither created nor waited for deletion puts its entry back within two replies. */
  lemma FromHandler(s0: State, events: seq<Event>, s: State, t: TaskId, n: Entry, u: TaskId, e: Entry, point: Point)
    returns (rest: seq<Event>)
    requires Leads(s0, events, s) && Clash(s, t, n, u, e, point) && (GoesHome(point) || point.PutBack?)
    ensures Calm(rest) && !NoOrphan(Run(s0, rest))
    decreases if point.PutBack? then 0 else if Homeward(e, point).2.PutBack? then 1 else 2
  {
    if point.PutBack? {
      rest := FromPutBack(s0, events, s, t, n, u, e);
    } else {
      var (reply, e', point') := Homeward(e, point);
      HomewardIsAStep(e, point, s.nextToken, s.nextAttempt);
      var events', s' := Moves(s0, events, s, t, n, u, e, point, reply, e', point');
      rest := FromHandler(s0, events', s', t, n, u, e', point');
    }
  }

  /** From any state, a create that passes for an id in use can be followed by calm events that leave a sandbox which
      may exist without its record. */
  lemma ConflictIsFatal(s: State, t: TaskId, caller: Caller, id: Id) returns (rest: seq<Event>)
    requires Passes(s, t, id, true) && InUse(s, id)
    ensures Calm(rest) && !NoOrphan(Run(CreateCheck(s, t, caller, id, true), rest))
  {
    var s' := CreateCheck(s, t, caller, id, true);
    var u :| Holds(s, u, id);
    var n, e, point := s'.tasks[t].entry, s.tasks[u].entry, s.tasks[u].point;
    assert Clash(s', t, n, u, e, point);
    if Erases(point) {
      rest := LosesRecord(s', [], s', t, n, u, e, point);
    } else if point.WaitDeletedReply? {
      rest := FromWait(s', [], s', t, n, u, e);
    } else if point.CreateFence? || point.CreateReply? || point.UnownedWrite? {
      rest := FromCreate(s', [], s', t, n, u, e, point);
    } else {
      rest := FromHandler(s', [], s', t, n, u, e, point);
    }
  }

  lemma {:induction false} CreateFreeKeepsSafe(s: State, events: seq<Event>)
    requires Safe(s) && CreateFree(events)
    ensures Safe(Run(s, events))
  {
    if events != [] {
      var n := |events| - 1;
      CreateFreeKeepsSafe(s, events[..n]);
      StepKeepsSafe(Run(s, events[..n]), events[n]);
    }
  }

  /** After any behaved run, a create that passes keeps every sandbox on record in all continuations without another
      create, crashes and drain included, if and only if no handler is working on its id. */
  lemma NoOrphanIsExact(events: seq<Event>, t: TaskId, caller: Caller, id: Id)
    requires BehavedRun(START, events) && Passes(Run(START, events), t, id, true)
    ensures !InUse(Run(START, events), id) <==>
            forall rest :: CreateFree(rest) ==>
              NoOrphan(Run(CreateCheck(Run(START, events), t, caller, id, true), rest))
  {
    RunsAreSafe(events);
    var s := Run(START, events);
    var s' := CreateCheck(s, t, caller, id, true);
    if InUse(s, id) {
      var rest := ConflictIsFatal(s, t, caller, id);
      assert CreateFree(rest) && !NoOrphan(Run(s', rest));
    } else {
      CreateKeepsSafe(s, t, caller, id, true);
      forall rest | CreateFree(rest)
        ensures NoOrphan(Run(s', rest))
      {
        CreateFreeKeepsSafe(s', rest);
      }
    }
  }
}
