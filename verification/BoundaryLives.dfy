/** Lives of a sandbox, step by step, whatever else goes on around them: what the theorems speak about does happen, and
    an imprudent create can always be followed by an execution under another sandbox's token. */
module BoundaryLives {
  import opened RuntimeContract
  import opened ServiceBoundary
  import opened BoundaryCustody
  import opened BoundaryOrphans
  import opened BoundaryExecution
  import opened BoundaryTokens

  /** Nobody creates, crashes or drains along the way. */
  predicate Calm(events: seq<Event>) {
    forall i :: 0 <= i < |events| ==> !events[i].Create? && !events[i].Crash? && !events[i].BeginDrain?
  }

  /** The calm events lead from one state to the other, and the service still takes work. */
  ghost predicate Leads(s0: State, events: seq<Event>, s: State) {
    s == Run(s0, events) && Calm(events) && AcceptsWork(s)
  }

  /** Only this task and this id were concerned, and no token or execution. */
  ghost predicate Around(s0: State, t: TaskId, id: Id, s: State) {
    && OnlyTask(s0, t, s)
    && (forall i :: i != id ==> (i in s0.owned <==> i in s.owned) && (i in s0.owned ==> s.owned[i] == s0.owned[i]))
    && s.prepared == s0.prepared && s.world.issued == s0.world.issued && s.world.executions == s0.world.executions
  }

  predicate Busy(s: State, t: TaskId, e: Entry, point: Point) {
    t in s.tasks && s.tasks[t] == Holding(e, point) && e.record.id !in s.owned
  }

  predicate Resting(s: State, t: TaskId, e: Entry) {
    t !in s.tasks && e.record.id in s.owned && s.owned[e.record.id] == e
  }

  lemma Goes(s0: State, events: seq<Event>, s: State, e: Event) returns (events': seq<Event>, s': State)
    requires Leads(s0, events, s) && !e.Create? && !e.Crash? && !e.BeginDrain? && AcceptsWork(Next(s, e))
    ensures Leads(s0, events', s') && s' == Next(s, e)
  {
    events', s' := Then(s0, events, s, e);
  }

  lemma ResumeAlone(s: State, t: TaskId, e: Entry, point: Point, reply: Reply, e': Entry, point': Point, h: Happening)
    requires Busy(s, t, e, point) && e'.record.id == e.record.id
    requires h.Nothing? || h.Submitted? || h.MadeReady?
    requires var a := HandlerStep(e, point, reply, s.nextToken, s.nextAttempt);
             a.Some? && a.value.next == Continue(e', point') && a.value.happening == h
    ensures var s' := ResumeStep(s, t, reply);
            Busy(s', t, e', point') && Around(s, t, e.record.id, s') && s'.phase == s.phase && s'.draining == s.draining
  {
  }

  lemma Resumes(s0: State, events: seq<Event>, s: State, t: TaskId, e: Entry, point: Point, reply: Reply,
                e': Entry, point': Point, h: Happening)
    returns (events': seq<Event>, s': State)
    requires Leads(s0, events, s) && Busy(s, t, e, point) && e'.record.id == e.record.id
    requires h.Nothing? || h.Submitted? || h.MadeReady?
    requires var a := HandlerStep(e, point, reply, s.nextToken, s.nextAttempt);
             a.Some? && a.value.next == Continue(e', point') && a.value.happening == h
    ensures Leads(s0, events', s') && Busy(s', t, e', point') && Around(s, t, e.record.id, s')
  {
    ResumeAlone(s, t, e, point, reply, e', point', h);
    events', s' := Goes(s0, events, s, Resume(t, reply));
  }

  lemma PutAlone(s: State, t: TaskId, e: Entry)
    requires Busy(s, t, e, PutBack)
    ensures var s' := NotifyStep(ResumeStep(s, t, Locked), t);
            Resting(s', t, e) && Around(s, t, e.record.id, s') && s'.phase == s.phase && s'.draining == s.draining
  {
  }

  lemma Puts(s0: State, events: seq<Event>, s: State, t: TaskId, e: Entry) returns (events': seq<Event>, s': State)
    requires Leads(s0, events, s) && Busy(s, t, e, PutBack)
    ensures Leads(s0, events', s') && Resting(s', t, e) && Around(s, t, e.record.id, s')
  {
    PutAlone(s, t, e);
    events', s' := Goes(s0, events, s, Resume(t, Locked));
    events', s' := Goes(s0, events', s', Notify(t));
  }

  lemma AroundTwice(s: State, t: TaskId, id: Id, s': State, s'': State)
    requires Around(s, t, id, s') && Around(s', t, id, s'')
    ensures Around(s, t, id, s'')
  {
  }

  /** A create past its check, undisturbed, ends with a Created entry at rest. */
  lemma Creates(s: State, t: TaskId, e: Entry) returns (events: seq<Event>, s': State, e': Entry)
    requires AcceptsWork(s) && Busy(s, t, e, CreateFence)
    ensures Leads(s, events, s') && Resting(s', t, e') && Around(s, t, e.record.id, s')
    ensures OwnerOf(e'.record) == OwnerOf(e.record) && e'.lifecycle == Created(s.nextAttempt)
  {
    var id, n := e.record.id, s.nextAttempt;
    events, s' := Resumes(s, [], s, t, e, CreateFence, Wrote, e, CreateReply(n), Submitted(n));
    e' := Entry(e.record.(stage := StageCreated), s'.nextToken, Created(n));
    var before := s';
    events, s' := Resumes(s, events, s', t, e, CreateReply(n), CreateOk, e', CreatedWrite, Nothing);
    AroundTwice(s, t, id, before, s');
    before := s';
    events, s' := Resumes(s, events, s', t, e', CreatedWrite, Wrote, e', PutBack, Nothing);
    AroundTwice(s, t, id, before, s');
    before := s';
    events, s' := Puts(s, events, s', t, e');
    AroundTwice(s, t, id, before, s');
  }

  lemma WaitReadyAlone(s: State, t: TaskId, e: Entry)
    requires AcceptsWork(s) && Resting(s, t, e) && e.lifecycle.Created?
    ensures var s' := WaitReadyTake(s, t, e.record.caller, e.record.id, e.token, true);
            Busy(s', t, e, ReadyReply) && Around(s, t, e.record.id, s') && AcceptsWork(s')
  {
  }

  /** `wait_ready`, undisturbed, rotates the token and ends with a Ready entry at rest. */
  lemma Readies(s0: State, events: seq<Event>, s: State, t: TaskId, e: Entry)
    returns (events': seq<Event>, s': State, e': Entry)
    requires Leads(s0, events, s) && Resting(s, t, e) && e.lifecycle.Created?
    ensures Leads(s0, events', s') && Resting(s', t, e') && Around(s, t, e.record.id, s')
    ensures OwnerOf(e'.record) == OwnerOf(e.record) && e'.lifecycle == Ready(e.lifecycle.attempt)
  {
    var id := e.record.id;
    WaitReadyAlone(s, t, e);
    events', s' := Goes(s0, events, s, WaitReady(t, e.record.caller, id, e.token, true));
    var before := s';
    events', s' := Resumes(s0, events', s', t, e, ReadyReply, RuntimeOk, e.At(StageReady), ReadyWrite, Nothing);
    AroundTwice(s, t, id, before, s');
    var token := s'.nextToken;
    e' := e.At(StageReady).(token := token, lifecycle := Ready(e.lifecycle.attempt));
    before := s';
    events', s' := Resumes(s0, events', s', t, e.At(StageReady), ReadyWrite, Wrote, e', PutBack,
                           MadeReady(e.lifecycle.attempt, token));
    AroundTwice(s, t, id, before, s');
    before := s';
    events', s' := Puts(s0, events', s', t, e');
    AroundTwice(s, t, id, before, s');
  }

  /** From a create past its check to a ready sandbox. */
  lemma ComesToLife(s: State, t: TaskId, e: Entry) returns (events: seq<Event>, s': State, e': Entry)
    requires AcceptsWork(s) && Busy(s, t, e, CreateFence)
    ensures Leads(s, events, s') && Resting(s', t, e') && Around(s, t, e.record.id, s')
    ensures OwnerOf(e'.record) == OwnerOf(e.record) && e'.lifecycle == Ready(s.nextAttempt)
  {
    events, s', e' := Creates(s, t, e);
    var before := s';
    events, s', e' := Readies(s, events, s', t, e');
    AroundTwice(s, t, e.record.id, before, s');
  }

  // ---- Executing with a token.

  /** The last execution is of this sandbox with this token. */
  predicate RanWith(s: State, s': State, a: Attempt, k: Token) {
    var n := |s.world.executions|;
    && |s'.world.executions| == n + 1 && s'.world.executions[n].attempt == a && s'.world.executions[n].prepareToken == k
    && s'.world.issued == s.world.issued
  }

  /** A handler that has taken the token executes whatever sandbox of its owner is ready. */
  lemma TakesAndRuns(s0: State, events: seq<Event>, s: State, u: TaskId, e: Entry, k: Token)
    returns (events': seq<Event>, s': State)
    requires Leads(s0, events, s) && u in s.tasks && s.tasks[u] == Committing(e.record.caller, e.record.id, k)
    requires e.record.id in s.owned && s.owned[e.record.id] == e && e.lifecycle.Ready?
    ensures Leads(s0, events', s') && RanWith(s, s', e.lifecycle.attempt, k)
  {
    events', s' := Goes(s0, events, s, TakeForExec(u, false));
    assert Grip(s', u) == Some(Holding(e.At(ExecPossible), ExecFence(k))) && s'.world == s.world;
    events', s' := Executes(s0, events', s', u, e.At(ExecPossible), k);
  }

  lemma Executes(s0: State, events: seq<Event>, s: State, u: TaskId, e: Entry, k: Token)
    returns (events': seq<Event>, s': State)
    requires Leads(s0, events, s) && Grip(s, u) == Some(Holding(e, ExecFence(k))) && e.lifecycle.Ready?
    ensures Leads(s0, events', s') && RanWith(s, s', e.lifecycle.attempt, k)
  {
    events', s' := Goes(s0, events, s, Resume(u, Wrote));
  }

  /** A prepared token executes whatever sandbox of its owner is ready. */
  lemma CommitsAndRuns(s0: State, events: seq<Event>, s: State, t: TaskId, e: Entry, k: Token)
    returns (events': seq<Event>, s': State)
    requires Leads(s0, events, s) && Resting(s, t, e) && e.lifecycle.Ready?
    requires k in s.prepared && s.prepared[k] == Prepared(e.record.caller, e.record.id)
    ensures Leads(s0, events', s') && RanWith(s, s', e.lifecycle.attempt, k)
  {
    events', s' := Goes(s0, events, s, CommitExec(t, e.record.caller, e.record.id, k));
    assert s'.tasks[t] == Committing(e.record.caller, e.record.id, k) && s'.owned == s.owned && s'.world == s.world;
    events', s' := TakesAndRuns(s0, events', s', t, e, k);
  }

  // ---- An imprudent create can be followed by an execution under another sandbox's token.

  /** The token was issued for an earlier sandbox than the one it has now run. */
  lemma StaleRun(s: State, s': State, a: Attempt, k: Token)
    requires RanWith(s, s', a, k) && k in s.world.issued && s.world.issued[k].attempt != a
    ensures !TokensFit(s'.world)
  {
    var x := s'.world.executions[|s.world.executions|];
    assert s'.world.issued[x.prepareToken].attempt != x.attempt;
  }

  lemma PreparedIsFatal(s: State, t: TaskId, e: Entry, k: Token) returns (rest: seq<Event>)
    requires AcceptsWork(s) && Busy(s, t, e, CreateFence)
    requires k in s.prepared && s.prepared[k] == Prepared(e.record.caller, e.record.id)
    requires k in s.world.issued && s.world.issued[k].attempt < s.nextAttempt
    ensures Calm(rest) && !TokensFit(Run(s, rest).world)
  {
    var ready, ran: State;
    var e': Entry;
    rest, ready, e' := ComesToLife(s, t, e);
    rest, ran := CommitsAndRuns(s, rest, ready, t, e', k);
    StaleRun(ready, ran, s.nextAttempt, k);
  }

  lemma TakenIsFatal(s: State, t: TaskId, e: Entry, u: TaskId, k: Token) returns (rest: seq<Event>)
    requires AcceptsWork(s) && Busy(s, t, e, CreateFence)
    requires u != t && u in s.tasks && s.tasks[u] == Committing(e.record.caller, e.record.id, k)
    requires k in s.world.issued && s.world.issued[k].attempt < s.nextAttempt
    ensures Calm(rest) && !TokensFit(Run(s, rest).world)
  {
    var ready, ran: State;
    var e': Entry;
    rest, ready, e' := ComesToLife(s, t, e);
    rest, ran := TakesAndRuns(s, rest, ready, u, e', k);
    StaleRun(ready, ran, s.nextAttempt, k);
  }

  /** A prepared execution of another caller is out of the way once anybody spends its token in vain. */
  lemma ClearsTheWay(s0: State, events: seq<Event>, s: State, t: TaskId, e: Entry)
    returns (events': seq<Event>, s': State)
    requires Leads(s0, events, s) && Resting(s, t, e) && OnePerId(s.prepared)
    requires forall k :: k in s.prepared ==> s.prepared[k] != Prepared(e.record.caller, e.record.id)
    ensures Leads(s0, events', s') && Resting(s', t, e) && !HasPrepared(s'.prepared, e.record.id)
    ensures s'.tasks == s.tasks && s'.world == s.world
  {
    events', s' := events, s;
    if k :| k in s.prepared && s.prepared[k].id == e.record.id {
      events', s' := Goes(s0, events, s, CommitExec(t, e.record.caller, e.record.id, k));
      assert s' == s.(prepared := s.prepared - {k});
    }
  }

  /** The preparation that was under way is inserted. */
  lemma Inserts(s0: State, events: seq<Event>, s: State, u: TaskId) returns (events': seq<Event>, s': State, k: Token)
    requires Leads(s0, events, s) && u in s.tasks && s.tasks[u].Preparing? && !HasPrepared(s.prepared, s.tasks[u].id)
    ensures Leads(s0, events', s') && k in s'.prepared && s'.prepared[k] == Prepared(s.tasks[u].caller, s.tasks[u].id)
    ensures k in s'.world.issued && s'.world.issued[k].attempt == s.tasks[u].attempt
    ensures s'.owned == s.owned && s'.tasks == s.tasks - {u} && s'.world.executions == s.world.executions
  {
    k := s.nextToken;
    events', s' := Goes(s0, events, s, InsertPrepared(u));
  }

  lemma InsertedIsFatal(s: State, t: TaskId, e: Entry, u: TaskId) returns (rest: seq<Event>)
    requires AcceptsWork(s) && Busy(s, t, e, CreateFence) && OnePerId(s.prepared)
    requires forall k :: k in s.prepared ==> s.prepared[k] != Prepared(e.record.caller, e.record.id)
    requires u in s.tasks && s.tasks[u].Preparing? && Intent(s.tasks[u]).owner == OwnerOf(e.record)
    requires s.tasks[u].attempt < s.nextAttempt
    ensures Calm(rest) && !TokensFit(Run(s, rest).world)
  {
    var s', ran: State;
    var e': Entry;
    var k: Token;
    rest, s', e' := ComesToLife(s, t, e);
    rest, s' := ClearsTheWay(s, rest, s', t, e');
    rest, s', k := Inserts(s, rest, s', u);
    rest, ran := CommitsAndRuns(s, rest, s', t, e', k);
    StaleRun(s', ran, s.nextAttempt, k);
  }

  /** Whatever of its caller's preparations is under way, a create that passes can be followed by calm events that
      execute the new sandbox under the token of an earlier one. */
  lemma ImprudenceIsFatal(s: State, t: TaskId, caller: Caller, id: Id) returns (rest: seq<Event>)
    requires Accounted(s) && Passes(s, t, id, true) && !InUse(s, id) && Outstanding(s, Owner(id, caller))
    ensures Calm(rest) && !TokensFit(Run(CreateCheck(s, t, caller, id, true), rest).world)
  {
    var s' := CreateCheck(s, t, caller, id, true);
    var e := s'.tasks[t].entry;
    if k :| k in s.prepared && s.prepared[k] == Prepared(caller, id) {
      IssuedEarlier(s, k);
      rest := PreparedIsFatal(s', t, e, k);
    } else if u :| Pending(s, u).Some? && Pending(s, u).value.1 == Owner(id, caller) {
      assert !Holds(s, u, id);
      IssuedEarlier(s, Pending(s, u).value.0);
      rest := TakenIsFatal(s', t, e, u, Pending(s, u).value.0);
    } else {
      var u :| u in s.tasks && s.tasks[u].Preparing? && Intent(s.tasks[u]).owner == Owner(id, caller);
      assert IssueSound(s.world, Intent(s.tasks[u]));
      rest := InsertedIsFatal(s', t, e, u);
    }
  }

  lemma IssuedEarlier(s: State, k: Token)
    requires Accounted(s) && (k in s.prepared || exists u :: Pending(s, u).Some? && Pending(s, u).value.0 == k)
    ensures k in s.world.issued && s.world.issued[k].attempt < s.nextAttempt
  {
    assert k in s.prepared ==> Spendable(s.world, k, Owner(s.prepared[k].id, s.prepared[k].caller));
  }

  // ---- Prudence is exactly what it takes.

  lemma {:induction false} CreateFreeKeepsMatched(s: State, events: seq<Event>)
    requires Matched(s) && CreateFree(events)
    ensures Matched(Run(s, events))
  {
    if events != [] {
      var n := |events| - 1;
      CreateFreeKeepsMatched(s, events[..n]);
      StepKeepsMatched(Run(s, events[..n]), events[n]);
    }
  }

  /** After a prudent run, and for an id that nobody works on, a create keeps tokens and sandboxes together in every
      continuation without another create if and only if its caller has no preparation of the id under way. */
  lemma PrudenceIsExact(events: seq<Event>, t: TaskId, caller: Caller, id: Id)
    requires PrudentRun(START, events) && Passes(Run(START, events), t, id, true) && !InUse(Run(START, events), id)
    ensures !Outstanding(Run(START, events), Owner(id, caller)) <==>
            forall rest :: CreateFree(rest) ==>
              TokensFit(Run(CreateCheck(Run(START, events), t, caller, id, true), rest).world)
  {
    RunsAreMatched(events);
    var s := Run(START, events);
    var s' := CreateCheck(s, t, caller, id, true);
    if Outstanding(s, Owner(id, caller)) {
      var rest := ImprudenceIsFatal(s, t, caller, id);
      assert CreateFree(rest) && !TokensFit(Run(s', rest).world);
    } else {
      StepKeepsMatched(s, Create(t, caller, id, true));
      forall rest | CreateFree(rest)
        ensures TokensFit(Run(s', rest).world)
      {
        CreateFreeKeepsMatched(s', rest);
      }
    }
  }

  // ---- Concrete runs.

  lemma {:induction false} CalmExtends(s0: State, first: seq<Event>, rest: seq<Event>)
    requires BehavedRun(s0, first) && CrashFree(first) && Calm(rest)
    ensures BehavedRun(s0, first + rest) && CrashFree(first + rest)
    ensures Run(s0, first + rest) == Run(Run(s0, first), rest)
  {
    if rest == [] {
      assert first + rest == first;
    } else {
      var n := |rest| - 1;
      CalmExtends(s0, first, rest[..n]);
      var events, _ := Then(s0, first + rest[..n], Run(s0, first + rest[..n]), rest[n]);
      assert events == first + rest;
    }
  }

  /** The service opens and takes a create of caller 7 for id 5. */
  lemma Opens() returns (events: seq<Event>, s: State, e: Entry)
    ensures BehavedRun(START, events) && CrashFree(events) && s == Run(START, events)
    ensures s == START.(phase := Serving, tasks := map[1 := Holding(e, CreateFence)])
    ensures e == Entry(Record(5, 7, CreatePossible), 0, CleanupOnly)
  {
    events, s := Then(START, [], START, LoadStore(true));
    events, s := Then(START, events, s, FinishReconcile);
    events, s := Then(START, events, s, Create(1, 7, 5, true));
    e := Entry(Record(5, 7, CreatePossible), 0, CleanupOnly);
  }

  /** The sandbox comes to life, and a preparation for it passes its check. */
  lemma Prepares(s: State, e: Entry) returns (rest: seq<Event>, s': State, e': Entry)
    requires AcceptsWork(s) && s.tasks == map[1 := Holding(e, CreateFence)] && Busy(s, 1, e, CreateFence)
    requires s.prepared == map[]
    ensures Leads(s, rest, s') && Resting(s', 1, e') && e'.lifecycle == Ready(s.nextAttempt)
    ensures OwnerOf(e'.record) == OwnerOf(e.record) && s'.prepared == map[] && s'.world.executions == s.world.executions
    ensures s'.tasks == map[2 := Preparing(e.record.caller, e.record.id, e'.token, s.nextAttempt)]
  {
    rest, s', e' := ComesToLife(s, 1, e);
    assert s'.tasks == map[];
    rest, s' := Goes(s, rest, s', PrepareExec(2, e'.record.caller, e'.record.id, e'.token));
  }

  /** Some behaved run without a crash executes: create, wait until ready, prepare, commit. */
  lemma ExecutionHappens() returns (events: seq<Event>)
    ensures BehavedRun(START, events) && CrashFree(events) && |Run(START, events).world.executions| == 1
  {
    var s, s': State;
    var e: Entry;
    var k: Token;
    var rest: seq<Event>;
    events, s, e := Opens();
    rest, s', e := Prepares(s, e);
    rest, s', k := Inserts(s, rest, s', 2);
    rest, s' := CommitsAndRuns(s, rest, s', 1, e, k);
    CalmExtends(START, events, rest);
    events := events + rest;
  }

  /** `wait_deleted`, undisturbed: the sandbox, its record and its entry are gone. */
  lemma Deletes(s0: State, events: seq<Event>, s: State, t: TaskId, e: Entry)
    returns (events': seq<Event>, s': State)
    requires Leads(s0, events, s) && Resting(s, t, e)
    ensures Leads(s0, events', s') && t !in s'.tasks && e.record.id !in s'.owned && OnlyTask(s, t, s')
  {
    events', s' := Goes(s0, events, s, Cleanup(t, WaitDeletedCall, e.record.caller, e.record.id));
    assert s'.tasks[t] == Acquiring(WaitDeletedCall, e.record.caller, e.record.id, s.epoch, TakeNext);
    events', s' := Goes(s0, events', s', TakeForCleanup(t, false));
    assert Busy(s', t, e, WaitDeletedReply) && OnlyTask(s, t, s');
    events', s' := Vanishes(s0, events', s', t, e);
  }

  lemma Vanishes(s0: State, events: seq<Event>, s: State, t: TaskId, e: Entry)
    returns (events': seq<Event>, s': State)
    requires Leads(s0, events, s) && Busy(s, t, e, WaitDeletedReply)
    ensures Leads(s0, events', s') && t !in s'.tasks && e.record.id !in s'.owned && OnlyTask(s, t, s')
  {
    VanishAlone(s, t, e);
    events', s' := Goes(s0, events, s, Resume(t, RuntimeOk));
    RemoveAlone(s', t, e);
    events', s' := Goes(s0, events', s', Resume(t, Removed));
  }

  lemma VanishAlone(s: State, t: TaskId, e: Entry)
    requires AcceptsWork(s) && Busy(s, t, e, WaitDeletedReply)
    ensures var s' := ResumeStep(s, t, RuntimeOk);
            Busy(s', t, e, WaitDeletedRemove) && OnlyTask(s, t, s') && AcceptsWork(s')
  {
  }

  lemma RemoveAlone(s: State, t: TaskId, e: Entry)
    requires AcceptsWork(s) && Busy(s, t, e, WaitDeletedRemove)
    ensures var s' := ResumeStep(s, t, Removed);
            t !in s'.tasks && e.record.id !in s'.owned && OnlyTask(s, t, s') && AcceptsWork(s')
  {
  }

  /** A preparation outlives its sandbox: checked before the deletion, and not yet inserted after it. */
  lemma Outlives() returns (events: seq<Event>, s: State)
    ensures BehavedRun(START, events) && CrashFree(events) && s == Run(START, events)
    ensures Passes(s, 1, 5, true) && !InUse(s, 5) && Outstanding(s, Owner(5, 7))
  {
    var s1, s2: State;
    var e: Entry;
    var rest: seq<Event>;
    events, s1, e := Opens();
    rest, s2, e := Prepares(s1, e);
    rest, s := Deletes(s1, rest, s2, 1, e);
    assert s.tasks[2] == s2.tasks[2];
    CalmExtends(START, events, rest);
    events := events + rest;
  }

  /** Without prudence a token may run another sandbox than the one it was issued for: prepared under the first sandbox
      of an id, inserted after its deletion, and committed under the second, all by one caller, behaved and without a
      crash. */
  lemma StaleTokenRuns() returns (events: seq<Event>)
    ensures BehavedRun(START, events) && CrashFree(events) && !TokensFit(Run(START, events).world)
  {
    var s, s': State;
    events, s := Outlives();
    RunsAreAccounted(events);
    var rest := ImprudenceIsFatal(s, 1, 7, 5);
    events, s' := Then(START, events, s, Create(1, 7, 5, true));
    CalmExtends(START, events, rest);
    events := events + rest;
  }
}
