/** What each handler does, from its first stretch to its last, for every reply it can get. The outcomes are told over
    the maps, the store and the world, for any state around the handler; what others do in between is the subject of the
    invariants over all runs. */
module BoundaryHandlers {
  import opened RuntimeContract
  import opened ServiceBoundary
  import opened BoundaryCustody
  import opened BoundaryOrphans

  /** Everything that concerns one task and one id: the task's frame, the entry in `owned`, the durable record, the
      attempts that may have left a sandbox, the prepared executions, and all executions. */
  datatype View = View(frame: Option<Frame>, entry: Option<Entry>, record: Option<Record>, may: set<Attempt>,
                       prepared: map<Token, Prepared>, executions: seq<Execution>)

  function Find<K, V>(m: map<K, V>, k: K): Option<V> {
    if k in m then Some(m[k]) else None
  }

  function Look(s: State, t: TaskId, id: Id): View {
    View(Find(s.tasks, t), Find(s.owned, id), Find(s.store, id), Under(s.world, id), s.prepared, s.world.executions)
  }

  /** Nothing but this task and this id was concerned. */
  ghost predicate Apart(s: State, t: TaskId, id: Id, s': State) {
    && OnlyTask(s, t, s') && s'.phase == s.phase && s'.draining == s.draining && s'.epoch == s.epoch
    && (forall i :: i != id ==> Find(s'.owned, i) == Find(s.owned, i) && Find(s'.store, i) == Find(s.store, i))
  }

  /** Attempts are numbered in order. */
  ghost predicate Numbered(s: State) {
    forall a :: a in s.world.attempts ==> a < s.nextAttempt
  }

  /** The view after an action of the handler at `t`, which works on `record`. */
  function LookAfter(v: View, record: Record, a: Action): View {
    var stored := match a.store case Leave => v.record case Put(r) => Some(r) case Erase => None;
    View(match a.next
         case Continue(e, point) => Some(Holding(e, point))
         case Shelve(e) => Some(Notifying(e.record.id))
         case Release => None,
         if a.next.Shelve? then Some(a.next.entry) else v.entry,
         stored,
         match a.happening
         case Submitted(x) => v.may + {x}
         case Refuted(x) => v.may - {x}
         case Vanished => {}
         case _ => v.may,
         if a.happening.Purged? then Without(v.prepared, record.id) else v.prepared,
         if a.happening.Executed?
         then v.executions +
              [Execution(a.happening.attempt, Owner(record.id, record.caller), a.happening.prepareToken, stored)]
         else v.executions)
  }

  lemma AppliedView(s: State, t: TaskId, record: Record, a: Action)
    requires t in s.tasks && Numbered(s)
    requires a.happening.Refuted? ==> BelongsTo(s.world, a.happening.attempt, record)
    requires a.happening.Submitted? ==> a.happening.attempt == s.nextAttempt
    ensures Look(Apply(s, t, record, a), t, record.id) == LookAfter(Look(s, t, record.id), record, a)
  {
  }

  lemma AppliedApart(s: State, t: TaskId, record: Record, a: Action)
    requires t in s.tasks && (a.happening.Submitted? ==> a.happening.attempt == s.nextAttempt)
    ensures Apart(s, t, record.id, Apply(s, t, record, a))
    ensures Numbered(s) ==> Numbered(Apply(s, t, record, a))
    ensures a.happening.Submitted? ==> BelongsTo(Apply(s, t, record, a).world, a.happening.attempt, record)
    ensures forall x :: a.happening.Nothing? && BelongsTo(s.world, x, record) ==>
              BelongsTo(Apply(s, t, record, a).world, x, record)
  {
  }

  /** The handler at `t` is where the view says. */
  ghost predicate Stands(s: State, t: TaskId, e: Entry, point: Point) {
    && t in s.tasks && s.tasks[t] == Holding(e, point) && Numbered(s)
    && (point.CreateReply? ==> BelongsTo(s.world, point.attempt, e.record))
  }

  /** The replies a handler gets, one after the other. */
  datatype Replies = Then(first: Reply, rest: Replies) | Done

  /** The state after the handler at `t` got these replies. */
  function Answered(s: State, t: TaskId, replies: Replies): State
    decreases replies
  {
    match replies
    case Done => s
    case Then(reply, rest) => Answered(Next(s, Resume(t, reply)), t, rest)
  }

  /** Whatever the replies, a handler concerns its own id only. */
  lemma {:induction false} AnsweredApart(s: State, t: TaskId, id: Id, replies: Replies)
    requires Grip(s, t).Some? ==> Holds(s, t, id)
    ensures Apart(s, t, id, Answered(s, t, replies))
    decreases replies
  {
    if replies.Then? {
      var s1 := Next(s, Resume(t, replies.first));
      if Grip(s, t).Some? {
        var e, point := s.tasks[t].entry, s.tasks[t].point;
        var a := HandlerStep(e, point, replies.first, s.nextToken, s.nextAttempt);
        if a.Some? {
          HandlerKeepsIdentity(e, point, replies.first, s.nextToken, s.nextAttempt);
          SubmitsWhereItStands(e, point, replies.first, s.nextToken, s.nextAttempt);
          AppliedApart(s, t, e.record, a.value);
        }
      }
      AnsweredApart(s1, t, id, replies.rest);
      ApartTwice(s, t, id, s1, Answered(s1, t, replies.rest));
    }
  }

  lemma ApartTwice(s: State, t: TaskId, id: Id, s': State, s'': State)
    requires Apart(s, t, id, s') && Apart(s', t, id, s'')
    ensures Apart(s, t, id, s'')
  {
  }

  /** One reply to a handler, which answers it with the action. */
  lemma Replied(s: State, t: TaskId, e: Entry, point: Point, reply: Reply, a: Action) returns (s': State)
    requires Stands(s, t, e, point) && HandlerStep(e, point, reply, s.nextToken, s.nextAttempt) == Some(a)
    ensures s' == Next(s, Resume(t, reply)) && s'.nextToken == s.nextToken + 1 && s'.nextAttempt == s.nextAttempt + 1
    ensures Look(s', t, e.record.id) == LookAfter(Look(s, t, e.record.id), e.record, a)
    ensures a.next.Continue? ==> Stands(s', t, a.next.entry, a.next.point)
  {
    s' := Next(s, Resume(t, reply));
    SubmitsWhereItStands(e, point, reply, s.nextToken, s.nextAttempt);
    AppliedView(s, t, e.record, a);
    AppliedApart(s, t, e.record, a);
  }

  /** A view with the counters. */
  datatype Watch = Watch(view: View, token: Token, attempt: Attempt)

  /** One reply, from the view alone. */
  function Tell(m: Watch, reply: Reply): Watch {
    if m.view.frame.None? || !m.view.frame.value.Holding? then m
    else
      var e := m.view.frame.value.entry;
      match HandlerStep(e, m.view.frame.value.point, reply, m.token, m.attempt)
      case None => m
      case Some(a) => Watch(LookAfter(m.view, e.record, a), m.token + 1, m.attempt + 1)
  }

  function Told(m: Watch, replies: Replies): Watch
    decreases replies
  {
    match replies
    case Done => m
    case Then(reply, rest) => Told(Tell(m, reply), rest)
  }

  lemma TellOne(m: Watch, e: Entry, point: Point, reply: Reply, a: Action) returns (m': Watch)
    requires m.view.frame == Some(Holding(e, point)) && HandlerStep(e, point, reply, m.token, m.attempt) == Some(a)
    ensures m' == Tell(m, reply) == Watch(LookAfter(m.view, e.record, a), m.token + 1, m.attempt + 1)
  {
    m' := Tell(m, reply);
  }

  /** The last reply before the entry is put back. */
  lemma TellLast(m: Watch, e: Entry, point: Point, reply: Reply, a: Action)
    requires m.view.frame == Some(Holding(e, point)) && HandlerStep(e, point, reply, m.token, m.attempt) == Some(a)
    requires a.next.Continue? && a.next.point == PutBack
    ensures Told(m, Then(reply, Then(Locked, Done))).view ==
            LookAfter(m.view, e.record, a)
            .(frame := Some(Notifying(a.next.entry.record.id)), entry := Some(a.next.entry))
  {
    var m1 := TellOne(m, e, point, reply, a);
    var m2 := TellOne(m1, a.next.entry, PutBack, Locked, Action(Shelve(a.next.entry), Leave, Nothing));
    assert Told(m1, Then(Locked, Done)) == m2;
  }

  /** The handler at `t`, if it holds anything, holds the entry of this id. */
  ghost predicate Steady(s: State, t: TaskId, id: Id) {
    Grip(s, t).Some? ==> Stands(s, t, s.tasks[t].entry, s.tasks[t].point) && s.tasks[t].entry.record.id == id
  }

  function Watching(s: State, t: TaskId, id: Id): Watch {
    Watch(Look(s, t, id), s.nextToken, s.nextAttempt)
  }

  /** What the replies do to a task and its id depends on nothing else. */
  lemma {:induction false} AnsweredIsTold(s: State, t: TaskId, id: Id, replies: Replies)
    requires Steady(s, t, id)
    ensures Watching(Answered(s, t, replies), t, id) == Told(Watching(s, t, id), replies)
    decreases replies
  {
    if replies.Then? {
      var s' := Next(s, Resume(t, replies.first));
      if Grip(s, t).Some? {
        var e, point := s.tasks[t].entry, s.tasks[t].point;
        var a := HandlerStep(e, point, replies.first, s.nextToken, s.nextAttempt);
        if a.Some? {
          HandlerKeepsIdentity(e, point, replies.first, s.nextToken, s.nextAttempt);
          s' := Replied(s, t, e, point, replies.first, a.value);
        }
      }
      AnsweredIsTold(s', t, id, replies.rest);
    }
  }

  /** Creation is submitted and refuted where the handler stands. */
  lemma SubmitsWhereItStands(e: Entry, point: Point, reply: Reply, token: Token, attempt: Attempt)
    requires HandlerStep(e, point, reply, token, attempt).Some?
    ensures var a := HandlerStep(e, point, reply, token, attempt).value;
            && (a.happening.Refuted? ==> point == CreateReply(a.happening.attempt))
            && (a.happening.Submitted? ==> a.happening.attempt == attempt)
            && (a.next.Continue? && a.next.point.CreateReply? ==>
                  a.happening == Submitted(a.next.point.attempt) && a.next.entry == e)
  {
  }

  predicate WriteReply(w: Reply) {
    w.Wrote? || w.WriteLost? || w.WriteKept?
  }

  predicate RemoveReply(r: Reply) {
    r.Removed? || r.RemoveLost? || r.RemoveKept?
  }

  predicate RuntimeReply(r: Reply) {
    r.RuntimeOk? || r.RuntimeFailed?
  }

  /** What a write leaves in the store. */
  function Written(w: Reply, was: Option<Record>, record: Record): Option<Record> {
    if w.WriteLost? then was else Some(record)
  }

  // ---- Which requests are taken up.

  /** The service is open and not draining, and the request is new. */
  predicate Admits(s: State, t: TaskId) {
    s.phase.Serving? && !s.draining && t !in s.tasks
  }

  /** A request of this caller with this token finds its entry. */
  predicate Finds(s: State, caller: Caller, id: Id, token: Token) {
    id in s.owned && s.owned[id].record.caller == caller && s.owned[id].token == token
  }

  /** New work is taken up exactly by a service that is open and not draining; a request not taken up changes
      nothing. */
  lemma CreateTakenUpIff(s: State, t: TaskId, caller: Caller, id: Id, ok: bool)
    ensures Next(s, Create(t, caller, id, ok)) != s <==> Admits(s, t) && ok && id !in s.owned
  {
  }

  lemma PrepareTakenUpIff(s: State, t: TaskId, caller: Caller, id: Id, token: Token)
    ensures Next(s, PrepareExec(t, caller, id, token)) != s <==>
            Admits(s, t) && Finds(s, caller, id, token) && s.owned[id].lifecycle.Ready?
  {
  }

  lemma CommitTakenUpIff(s: State, t: TaskId, caller: Caller, id: Id, k: Token)
    ensures Next(s, CommitExec(t, caller, id, k)) != s <==> Admits(s, t) && k in s.prepared
  {
    var s' := Next(s, CommitExec(t, caller, id, k));
    assert k in s'.prepared ==> s' == s;
  }

  /** Waiting and cleanup are taken up by a draining service too. */
  lemma WaitingTakenUpIff(s: State, t: TaskId, caller: Caller, id: Id, token: Token, ok: bool, kind: CleanupKind)
    ensures Next(s, WaitReady(t, caller, id, token, ok)) != s <==>
            s.phase.Serving? && t !in s.tasks && Finds(s, caller, id, token)
    ensures Next(s, Cleanup(t, kind, caller, id)) ==
            if s.phase.Serving? && t !in s.tasks
            then s.(tasks := s.tasks[t := Acquiring(kind, caller, id, s.epoch, TakeNext)]) else s
  {
  }

  // ---- create.

  /** What the theorems below ask of the state: true in every run, by RunsAreAccounted. */
  ghost predicate Sane(s: State) {
    Keyed(s) && Numbered(s)
  }

  /** The entry a create is about to make. */
  function Nascent(id: Id, caller: Caller): Entry {
    Entry(Record(id, caller, CreatePossible), 0, CleanupOnly)
  }

  /** The first stretch of a create that is taken up. */
  lemma CreateBegins(s: State, t: TaskId, caller: Caller, id: Id, s': State)
    requires Admits(s, t) && id !in s.owned && Sane(s) && s' == Next(s, Create(t, caller, id, true))
    ensures Steady(s', t, id) && Apart(s, t, id, s')
    ensures Watching(s', t, id) ==
            Watching(s, t, id).(view := Look(s, t, id).(frame := Some(Holding(Nascent(id, caller), CreateFence))))
  {
  }

  /** Without its first record, nothing is submitted: only that record may have been left behind. */
  lemma CreateWithoutFence(m: Watch, id: Id, caller: Caller, w: Reply)
    requires m.view.frame == Some(Holding(Nascent(id, caller), CreateFence)) && (w.WriteLost? || w.WriteKept?)
    ensures Told(m, Then(w, Done)).view ==
            m.view.(frame := None, record := Written(w, m.view.record, Record(id, caller, CreatePossible)))
  {
    var e := Nascent(id, caller);
    var m1 := TellOne(m, e, CreateFence, w, Action(Release, if w.WriteLost? then Leave else Put(e.record), Nothing));
  }

  lemma SubmittedFirst(m: Watch, id: Id, caller: Caller) returns (m1: Watch)
    requires m.view.frame == Some(Holding(Nascent(id, caller), CreateFence))
    ensures m1 == Tell(m, Wrote) && m1.token == m.token + 1 && m1.attempt == m.attempt + 1
    ensures m1.view == m.view.(frame := Some(Holding(Nascent(id, caller), CreateReply(m.attempt))),
                               record := Some(Record(id, caller, CreatePossible)), may := m.view.may + {m.attempt})
  {
    var e := Nascent(id, caller);
    m1 := TellOne(m, e, CreateFence, Wrote,
                  Action(Continue(e, CreateReply(m.attempt)), Put(e.record), Submitted(m.attempt)));
  }

  /** A create that succeeds: one attempt may exist, and the entry gives access to it if the record could be
      advanced, under a fresh token. */
  lemma CreateSucceeds(m: Watch, id: Id, caller: Caller, w: Reply)
    requires m.view.frame == Some(Holding(Nascent(id, caller), CreateFence)) && WriteReply(w)
    ensures var r := Record(id, caller, StageCreated);
            Told(m, Then(Wrote, Then(CreateOk, Then(w, Then(Locked, Done))))).view
            == m.view.(frame := Some(Notifying(id)), may := m.view.may + {m.attempt},
                       entry := Some(Entry(r, m.token + 1, if w.Wrote? then Created(m.attempt) else CleanupOnly)),
                       record := Written(w, Some(Record(id, caller, CreatePossible)), r))
  {
    var m1 := SubmittedFirst(m, id, caller);
    var e1 := Entry(Record(id, caller, StageCreated), m.token + 1, Created(m.attempt));
    var e2 := if w.Wrote? then e1 else e1.(lifecycle := CleanupOnly);
    var m2 := TellOne(m1, Nascent(id, caller), CreateReply(m.attempt), CreateOk,
                      Action(Continue(e1, CreatedWrite), Leave, Nothing));
    TellLast(m2, e1, CreatedWrite, w,
             Action(Continue(e2, PutBack), if w.WriteLost? then Leave else Put(e1.record), Nothing));
    assert Told(m1, Then(CreateOk, Then(w, Then(Locked, Done)))) == Told(m2, Then(w, Then(Locked, Done)));
  }

  /** A create whose outcome is unknown leaves an entry that is good for cleanup only. */
  lemma CreateUncertain(m: Watch, id: Id, caller: Caller, w: Reply)
    requires m.view.frame == Some(Holding(Nascent(id, caller), CreateFence)) && WriteReply(w)
    ensures var r := Record(id, caller, StageCleanupOnly);
            Told(m, Then(Wrote, Then(CreateMaybe, Then(w, Then(Locked, Done))))).view
            == m.view.(frame := Some(Notifying(id)), may := m.view.may + {m.attempt},
                       entry := Some(Entry(r, m.token + 1, CleanupOnly)),
                       record := Written(w, Some(Record(id, caller, CreatePossible)), r))
  {
    var m1 := SubmittedFirst(m, id, caller);
    var e1 := Entry(Record(id, caller, StageCleanupOnly), m.token + 1, CleanupOnly);
    var m2 := TellOne(m1, Nascent(id, caller), CreateReply(m.attempt), CreateMaybe,
                      Action(Continue(e1, WriteThenPut), Leave, Nothing));
    TellLast(m2, e1, WriteThenPut, w,
             Action(Continue(e1, PutBack), if w.WriteLost? then Leave else Put(e1.record), Nothing));
    assert Told(m1, Then(CreateMaybe, Then(w, Then(Locked, Done)))) == Told(m2, Then(w, Then(Locked, Done)));
  }

  /** A create that certainly made nothing, or met a foreign sandbox, disowns the id: no entry, nothing more that may
      exist, and no record unless the removal left it, marked as unowned if it could be. */
  lemma CreateRefuted(m: Watch, id: Id, caller: Caller, c: Reply, w: Reply, r: Reply)
    requires m.view.frame == Some(Holding(Nascent(id, caller), CreateFence)) && m.attempt !in m.view.may
    requires (c.CreateNever? || c.CreateConflict?) && WriteReply(w) && RemoveReply(r)
    ensures var left := Written(w, Some(Record(id, caller, CreatePossible)), Record(id, caller, Unowned));
            Told(m, Then(Wrote, Then(c, Then(w, Then(r, Done))))).view
            == m.view.(frame := None, record := if r.RemoveLost? then left else None)
  {
    var m1 := SubmittedFirst(m, id, caller);
    var e := Nascent(id, caller).At(Unowned);
    var m2 := TellOne(m1, Nascent(id, caller), CreateReply(m.attempt), c,
                      Action(Continue(e, UnownedWrite), Leave, Refuted(m.attempt)));
    var m3 := TellOne(m2, e, UnownedWrite, w,
                      Action(Continue(e, UnownedRemove), if w.WriteLost? then Leave else Put(e.record), Nothing));
    var m4 := TellOne(m3, e, UnownedRemove, r, Action(Release, if r.RemoveLost? then Leave else Erase, Nothing));
    assert Told(m3, Then(r, Done)) == m4;
    assert Told(m2, Then(w, Then(r, Done))) == m4;
  }

  // ---- wait_ready.

  /** The entry leaves `owned` for the handler, and nothing else moves. */
  lemma TakenOut(s: State, t: TaskId, id: Id, e: Entry, point: Point)
    requires Sane(s) && e.record.id == id && !point.CreateReply?
    ensures var s' := Take(s, t, id, e, point);
            && Steady(s', t, id) && Apart(s, t, id, s')
            && Watching(s', t, id) == Watching(s, t, id).(view := Look(s, t, id)
                 .(frame := Some(Holding(e, point)), entry := None))
  {
  }

  /** The first stretch of a wait that is taken up takes the entry out, and decides by its lifecycle and the policy the
      caller expects. */
  lemma WaitReadyBegins(s: State, t: TaskId, caller: Caller, id: Id, token: Token, ok: bool, s': State)
    requires s.phase.Serving? && t !in s.tasks && Finds(s, caller, id, token) && Sane(s)
    requires s' == Next(s, WaitReady(t, caller, id, token, ok))
    ensures Steady(s', t, id) && Apart(s, t, id, s')
    ensures var e := s.owned[id];
            var f := if !e.lifecycle.Created? then Holding(e, PutBack)
                     else if ok then Holding(e, ReadyReply)
                     else Holding(Entry(e.record.(stage := StageCleanupOnly), token, CleanupOnly), WriteThenPut);
            Watching(s', t, id) == Watching(s, t, id).(view := Look(s, t, id).(frame := Some(f), entry := None))
  {
    var e := s.owned[id];
    TakenOut(s, t, id, e, if e.lifecycle.Created? then ReadyReply else PutBack);
    TakenOut(s, t, id, Entry(e.record.(stage := StageCleanupOnly), token, CleanupOnly), WriteThenPut);
  }

  /** An entry that was only looked at goes back as it was. */
  lemma PutBackUnchanged(m: Watch, e: Entry)
    requires m.view.frame == Some(Holding(e, PutBack))
    ensures Told(m, Then(Locked, Done)).view ==
            m.view.(frame := Some(Notifying(e.record.id)), entry := Some(e))
  {
    var m1 := TellOne(m, e, PutBack, Locked, Action(Shelve(e), Leave, Nothing));
  }

  /** After a best-effort write the entry goes back whatever became of the write. */
  lemma WrittenAndPutBack(m: Watch, e: Entry, w: Reply)
    requires m.view.frame == Some(Holding(e, WriteThenPut)) && WriteReply(w)
    ensures Told(m, Then(w, Then(Locked, Done))).view ==
            m.view.(frame := Some(Notifying(e.record.id)), entry := Some(e),
                    record := Written(w, m.view.record, e.record))
  {
    TellLast(m, e, WriteThenPut, w,
             Action(Continue(e, PutBack), if w.WriteLost? then Leave else Put(e.record), Nothing));
  }

  /** A sandbox that became ready: with the record advanced, the entry is ready under a fresh token; without, it is good
      for cleanup only, under the token it had. */
  lemma BecomesReady(m: Watch, e: Entry, w: Reply)
    requires m.view.frame == Some(Holding(e, ReadyReply)) && e.lifecycle.Created? && WriteReply(w)
    ensures var r := e.record.(stage := StageReady);
            Told(m, Then(RuntimeOk, Then(w, Then(Locked, Done)))).view
            == m.view.(frame := Some(Notifying(e.record.id)), record := Written(w, m.view.record, r),
                       entry := Some(if w.Wrote? then Entry(r, m.token + 1, Ready(e.lifecycle.attempt))
                                     else Entry(r, e.token, CleanupOnly)))
  {
    var e1 := e.At(StageReady);
    var m1 := TellOne(m, e, ReadyReply, RuntimeOk, Action(Continue(e1, ReadyWrite), Leave, Nothing));
    if w.Wrote? {
      var e2 := e1.(token := m.token + 1, lifecycle := Ready(e.lifecycle.attempt));
      TellLast(m1, e1, ReadyWrite, w,
               Action(Continue(e2, PutBack), Put(e1.record), MadeReady(e.lifecycle.attempt, m.token + 1)));
    } else {
      TellLast(m1, e1, ReadyWrite, w,
               Action(Continue(e1.(lifecycle := CleanupOnly), PutBack),
                      if w.WriteLost? then Leave else Put(e1.record), Nothing));
    }
  }

  /** A sandbox that did not become ready is good for cleanup only. */
  lemma NeverReady(m: Watch, e: Entry, w: Reply)
    requires m.view.frame == Some(Holding(e, ReadyReply)) && WriteReply(w)
    ensures var r := e.record.(stage := StageCleanupOnly);
            Told(m, Then(RuntimeFailed, Then(w, Then(Locked, Done)))).view
            == m.view.(frame := Some(Notifying(e.record.id)), record := Written(w, m.view.record, r),
                       entry := Some(Entry(r, e.token, CleanupOnly)))
  {
    var e1 := e.At(StageCleanupOnly).(lifecycle := CleanupOnly);
    var m1 := TellOne(m, e, ReadyReply, RuntimeFailed, Action(Continue(e1, WriteThenPut), Leave, Nothing));
    WrittenAndPutBack(m1, e1, w);
  }

  // ---- prepare_exec and commit_exec.

  /** A preparation that is taken up issues a fresh token for its id and caller exactly if none is outstanding for the
      id, and touches nothing else. */
  lemma PrepareIssues(s: State, t: TaskId, caller: Caller, id: Id, token: Token, s': State)
    requires Admits(s, t) && Finds(s, caller, id, token) && s.owned[id].lifecycle.Ready?
    requires s' == Next(Next(s, PrepareExec(t, caller, id, token)), InsertPrepared(t))
    ensures (exists k :: k in s.prepared && s.prepared[k].id == id) ==> s' == s
    ensures (forall k :: k in s.prepared ==> s.prepared[k].id != id) ==>
              && s'.prepared == s.prepared[s.nextToken := Prepared(caller, id)]
              && s'.tasks == s.tasks && s'.owned == s.owned && s'.store == s.store
              && s'.world.executions == s.world.executions
  {
    var s1 := Next(s, PrepareExec(t, caller, id, token));
    assert s1.tasks - {t} == s.tasks;
    if k :| k in s.prepared && s.prepared[k].id == id {
      assert HasPrepared(s1.prepared, id);
    }
  }

  /** A commit that is taken up spends its token, fitting or not, and goes on exactly if it fits. */
  lemma CommitSpends(s: State, t: TaskId, caller: Caller, id: Id, k: Token, s': State)
    requires Admits(s, t) && k in s.prepared && s' == Next(s, CommitExec(t, caller, id, k))
    ensures s'.prepared == s.prepared - {k} && s'.owned == s.owned && s'.store == s.store && s'.world == s.world
    ensures s'.tasks == if s.prepared[k] == Prepared(caller, id) then s.tasks[t := Committing(caller, id, k)]
                        else s.tasks
  {
  }

  /** The commit takes the entry of its caller, if there is one, and goes on exactly if it is ready and the preparation
      has not expired. */
  lemma CommitTakes(s: State, t: TaskId, caller: Caller, id: Id, k: Token, expired: bool, s': State)
    requires t in s.tasks && s.tasks[t] == Committing(caller, id, k) && Sane(s)
    requires s' == Next(s, TakeForExec(t, expired))
    ensures Steady(s', t, id) && Apart(s, t, id, s')
    ensures id in s.owned && s.owned[id].record.caller == caller ==>
              var e := s.owned[id];
              var f := if e.lifecycle.Ready? && !expired
                       then Holding(Entry(Record(id, caller, ExecPossible), e.token, e.lifecycle), ExecFence(k))
                       else Holding(e, PutBack);
              Watching(s', t, id) == Watching(s, t, id).(view := Look(s, t, id).(frame := Some(f), entry := None))
    ensures !(id in s.owned && s.owned[id].record.caller == caller) ==>
              Watching(s', t, id) == Watching(s, t, id).(view := Look(s, t, id).(frame := None))
  {
    if id in s.owned && s.owned[id].record.caller == caller {
      var e := s.owned[id];
      TakenOut(s, t, id, e, PutBack);
      TakenOut(s, t, id, Entry(Record(id, caller, ExecPossible), e.token, e.lifecycle), ExecFence(k));
    }
  }

  /** Without the durable mark nothing is executed, and the entry goes back ready. */
  lemma ExecWithoutFence(m: Watch, e: Entry, k: Token, w: Reply)
    requires m.view.frame == Some(Holding(e, ExecFence(k))) && (w.WriteLost? || w.WriteKept?)
    ensures Told(m, Then(w, Then(Locked, Done))).view ==
            m.view.(frame := Some(Notifying(e.record.id)), entry := Some(e),
                    record := Written(w, m.view.record, e.record))
  {
    TellLast(m, e, ExecFence(k), w,
             Action(Continue(e, PutBack), if w.WriteLost? then Leave else Put(e.record), Nothing));
  }

  /** With the durable mark the sandbox is executed once, under this token, and the entry is good for cleanup only,
      whatever exec and the last write answer. */
  lemma ExecHappens(m: Watch, e: Entry, k: Token, r: Reply, w: Reply)
    requires m.view.frame == Some(Holding(e, ExecFence(k))) && e.lifecycle.Ready? && RuntimeReply(r) && WriteReply(w)
    ensures var last := e.record.(stage := StageCleanupOnly);
            Told(m, Then(Wrote, Then(r, Then(w, Then(Locked, Done))))).view
            == m.view.(frame := Some(Notifying(e.record.id)), record := Written(w, Some(e.record), last),
                       entry := Some(Entry(last, e.token, CleanupOnly)),
                       executions := m.view.executions +
                         [Execution(e.lifecycle.attempt, Owner(e.record.id, e.record.caller), k, Some(e.record))])
  {
    var e1 := e.(lifecycle := CleanupOnly);
    var m1 := TellOne(m, e, ExecFence(k), Wrote,
                      Action(Continue(e1, ExecReply), Put(e.record), Executed(e.lifecycle.attempt, k)));
    var e2 := e1.At(StageCleanupOnly);
    var m2 := TellOne(m1, e1, ExecReply, r, Action(Continue(e2, WriteThenPut), Leave, Nothing));
    WrittenAndPutBack(m2, e2, w);
    assert Told(m1, Then(r, Then(w, Then(Locked, Done)))) == Told(m2, Then(w, Then(Locked, Done)));
  }

  // ---- delete and wait_deleted.

  /** A cleanup, when it looks, takes the entry of its caller if it is there, and otherwise goes on to the store. */
  lemma CleanupTakes(s: State, t: TaskId, kind: CleanupKind, caller: Caller, id: Id, epoch: nat, expired: bool,
                     s': State)
    requires t in s.tasks && s.tasks[t] == Acquiring(kind, caller, id, epoch, TakeNext) && Sane(s)
    requires s' == Next(s, TakeForCleanup(t, expired))
    ensures Steady(s', t, id) && Apart(s, t, id, s')
    ensures id in s.owned && s.owned[id].record.caller == caller ==>
              var point := if kind == DeleteCall then DeleteRetain
                           else if expired then PutBack else WaitDeletedReply;
              Watching(s', t, id) == Watching(s, t, id).(view := Look(s, t, id)
                .(frame := Some(Holding(s.owned[id], point)), entry := None))
    ensures !(id in s.owned && s.owned[id].record.caller == caller) ==>
              Watching(s', t, id) == Watching(s, t, id).(view := Look(s, t, id)
                .(frame := Some(Acquiring(kind, caller, id, epoch, LoadNext))))
  {
    if id in s.owned && s.owned[id].record.caller == caller {
      TakenOut(s, t, id, s.owned[id],
               if kind == DeleteCall then DeleteRetain else if expired then PutBack else WaitDeletedReply);
    }
  }

  /** Exactly the preparations of other ids. */
  ghost predicate WithdrawnFor(id: Id, before: map<Token, Prepared>, after: map<Token, Prepared>) {
    && (forall k :: k in after <==> k in before && before[k].id != id)
    && (forall k :: k in after ==> after[k] == before[k])
  }

  lemma Withdraws(m: Watch, e: Entry) returns (m1: Watch)
    requires m.view.frame == Some(Holding(e, DeleteRetain))
    ensures m1 == Tell(m, Locked) && WithdrawnFor(e.record.id, m.view.prepared, m1.view.prepared)
    ensures m1.view == m.view.(frame := Some(Holding(e.At(DeletePending), DeleteFence)), prepared := m1.view.prepared)
  {
    m1 := TellOne(m, e, DeleteRetain, Locked, Action(Continue(e.At(DeletePending), DeleteFence), Leave, Purged));
  }

  /** A delete: the preparations of the id are withdrawn, the intention is durable, and the entry is good for cleanup
      only, whatever the runtime answers; what may exist is left to wait_deleted. */
  lemma Deleted(m: Watch, e: Entry, r: Reply)
    requires m.view.frame == Some(Holding(e, DeleteRetain)) && RuntimeReply(r)
    ensures var pending := e.record.(stage := DeletePending);
            var v := Told(m, Then(Locked, Then(Wrote, Then(r, Then(Locked, Done))))).view;
            && WithdrawnFor(e.record.id, m.view.prepared, v.prepared)
            && v == m.view.(frame := Some(Notifying(e.record.id)), record := Some(pending), prepared := v.prepared,
                            entry := Some(Entry(pending, e.token, CleanupOnly)))
  {
    var m1 := Withdraws(m, e);
    var e1 := e.At(DeletePending);
    var m2 := TellOne(m1, e1, DeleteFence, Wrote, Action(Continue(e1, DeleteReply), Put(e1.record), Nothing));
    TellLast(m2, e1, DeleteReply, r, Action(Continue(e1.(lifecycle := CleanupOnly), PutBack), Leave, Nothing));
    assert Told(m1, Then(Wrote, Then(r, Then(Locked, Done)))) == Told(m2, Then(r, Then(Locked, Done)));
  }

  /** A delete that could not make its intention durable, or had no time left after it, puts the entry back with the
      access it had; the preparations are gone all the same. */
  lemma DeleteDeferred(m: Watch, e: Entry, w: Reply)
    requires m.view.frame == Some(Holding(e, DeleteRetain)) && (w.WriteLost? || w.WriteKept? || w.WroteLate?)
    ensures var pending := e.record.(stage := DeletePending);
            var v := Told(m, Then(Locked, Then(w, Then(Locked, Done)))).view;
            && WithdrawnFor(e.record.id, m.view.prepared, v.prepared)
            && v == m.view.(frame := Some(Notifying(e.record.id)), record := Written(w, m.view.record, pending),
                            prepared := v.prepared, entry := Some(Entry(pending, e.token, e.lifecycle)))
  {
    var m1 := Withdraws(m, e);
    var e1 := e.At(DeletePending);
    TellLast(m1, e1, DeleteFence, w,
             Action(Continue(e1, PutBack), if w.WriteLost? then Leave else Put(e1.record), Nothing));
  }

  /** Confirmed absence: nothing may exist, and with the record removed the id is free again. */
  lemma ConfirmedAbsent(m: Watch, e: Entry)
    requires m.view.frame == Some(Holding(e, WaitDeletedReply))
    ensures Told(m, Then(RuntimeOk, Then(Removed, Done))).view == m.view.(frame := None, record := None, may := {})
  {
    var m1 := TellOne(m, e, WaitDeletedReply, RuntimeOk, Action(Continue(e, WaitDeletedRemove), Leave, Vanished));
    var m2 := TellOne(m1, e, WaitDeletedRemove, Removed, Action(Release, Erase, Nothing));
    assert Told(m1, Then(Removed, Done)) == m2;
  }

  /** A removal that failed puts the entry back as it was, though nothing may exist any more. */
  lemma AbsentButKept(m: Watch, e: Entry, r: Reply)
    requires m.view.frame == Some(Holding(e, WaitDeletedReply)) && (r.RemoveLost? || r.RemoveKept?)
    ensures Told(m, Then(RuntimeOk, Then(r, Then(Locked, Done)))).view ==
            m.view.(frame := Some(Notifying(e.record.id)), entry := Some(e), may := {},
                    record := if r.RemoveKept? then None else m.view.record)
  {
    var m1 := TellOne(m, e, WaitDeletedReply, RuntimeOk, Action(Continue(e, WaitDeletedRemove), Leave, Vanished));
    TellLast(m1, e, WaitDeletedRemove, r,
             Action(Continue(e, PutBack), if r.RemoveKept? then Erase else Leave, Nothing));
  }

  /** Absence not confirmed: the entry goes back, good for cleanup only, and what may exist stays on record. */
  lemma NotConfirmed(m: Watch, e: Entry)
    requires m.view.frame == Some(Holding(e, WaitDeletedReply))
    ensures Told(m, Then(RuntimeFailed, Then(Locked, Done))).view ==
            m.view.(frame := Some(Notifying(e.record.id)), entry := Some(e.(lifecycle := CleanupOnly)))
  {
    TellLast(m, e, WaitDeletedReply, RuntimeFailed,
             Action(Continue(e.(lifecycle := CleanupOnly), PutBack), Leave, Nothing));
  }

  // ---- In company.

  lemma FrameStays(s: State, t: TaskId, e: Event)
    requires Grip(s, t).Some? && !e.Crash? && !(e.Resume? && e.t == t) && Keyed(s)
    ensures Grip(Next(s, e), t) == Grip(s, t)
  {
    if TakeEvent(e) {
      TakeStep(s, e);
    } else if QuietEvent(e) {
      QuietStep(s, e);
    }
  }

  /** In every run, what others do between two replies leaves a handler's frame, its entry, its record and what may
      exist under its id as they were, so that interleaving changes none of the outcomes above but the fresh numbers. */
  lemma OthersLeaveItAlone(events: seq<Event>, e: Event, t: TaskId, id: Id)
    requires BehavedRun(START, events) && Behaved(Run(START, events), e) && Holds(Run(START, events), t, id)
    requires !e.Crash? && !(e.Resume? && e.t == t)
    ensures var v, v' := Look(Run(START, events), t, id), Look(Next(Run(START, events), e), t, id);
            v'.frame == v.frame && v'.entry == v.entry == None && v'.record == v.record && v'.may == v.may
  {
    RunsAreSafe(events);
    var s := Run(START, events);
    FrameStays(s, t, e);
    StepKeepsCustody(s, e);
    assert Holds(Next(s, e), t, id);
    if Touched(s, Next(s, e), id) {
      OnlyTheHolderTouches(events, e, id);
    }
  }
}
