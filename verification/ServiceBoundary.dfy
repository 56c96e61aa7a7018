/** The sandbox service boundary as a transition system. Handlers interleave at every await, so a handler is a frame
    that says what it holds and where it will resume, and one event is one stretch between two awaits. The environment
    chooses every reply: the store may fail before or after its effect, the runtime answers truthfully. */
module ServiceBoundary {
  import opened RuntimeContract

  type Id(==) = nat
  type Caller(==) = nat
  type Token(==) = nat
  type TaskId(==) = nat

  /** One submission of create to the runtime; it stands for the sandbox that submission may have made. */
  type Attempt(==) = nat

  datatype Stage =
    | CreatePossible | StageCreated | StageReady | ExecPossible | StageCleanupOnly | DeletePending | Unowned

  datatype Record = Record(id: Id, caller: Caller, stage: Stage)

  datatype Lifecycle = Created(attempt: Attempt) | Ready(attempt: Attempt) | CleanupOnly

  datatype Entry = Entry(record: Record, token: Token, lifecycle: Lifecycle) {
    function At(stage: Stage): Entry {
      this.(record := record.(stage := stage))
    }
  }

  datatype Prepared = Prepared(caller: Caller, id: Id)

  datatype CleanupKind = DeleteCall | WaitDeletedCall

  /** Where a handler that holds an entry resumes. A create in flight holds the entry it is about to make. */
  datatype Point =
    | CreateFence
    | CreateReply(attempt: Attempt)
    | CreatedWrite
    | WriteThenPut
    | UnownedWrite
    | UnownedRemove
    | PutBack
    | ReadyReply
    | ReadyWrite
    | ExecFence(prepareToken: Token)
    | ExecReply
    | DeleteRetain
    | DeleteFence
    | DeleteReply
    | WaitDeletedReply
    | WaitDeletedRemove

  datatype AcquirePoint = TakeNext | LoadNext | Waiting

  datatype Frame =
    | Holding(entry: Entry, point: Point)
    | Preparing(caller: Caller, id: Id, token: Token, attempt: Attempt)
    | Committing(caller: Caller, id: Id, prepareToken: Token)
    | Acquiring(kind: CleanupKind, caller: Caller, id: Id, epoch: nat, at: AcquirePoint)
    | Notifying(shelved: Id)

  /** `Lost`: the operation failed without effect. `Kept`: it took effect and then failed. */
  datatype Reply =
    | Wrote | WroteLate | WriteLost | WriteKept
    | Removed | RemoveLost | RemoveKept
    | CreateOk | CreateMaybe | CreateNever | CreateConflict
    | RuntimeOk | RuntimeFailed
    | Locked

  datatype Owner = Owner(id: Id, caller: Caller)

  datatype Issue = Issue(owner: Owner, lifecycleToken: Token, attempt: Attempt)

  /** `durable` is what the store held for the id when exec was called. */
  datatype Execution = Execution(attempt: Attempt, owner: Owner, prepareToken: Token, durable: Option<Record>)

  /** What has really happened, across restarts. */
  datatype World = World(mayExist: set<Attempt>, attempts: map<Attempt, Owner>, readied: map<Token, Attempt>,
                         issued: map<Token, Issue>, executions: seq<Execution>)

  datatype Phase = Down | Reconciling(todo: set<Id>, unresolved: nat) | Serving

  datatype State = State(phase: Phase, draining: bool, owned: map<Id, Entry>, prepared: map<Token, Prepared>,
                         tasks: map<TaskId, Frame>, store: map<Id, Record>, epoch: nat, nextToken: Token,
                         nextAttempt: Attempt, world: World)

  const START := State(Down, false, map[], map[], map[], map[], 0, 0, 0, World({}, map[], map[], map[], []))

  // ---- A handler that holds an entry.

  datatype Disposition = Continue(entry: Entry, point: Point) | Shelve(entry: Entry) | Release

  datatype StoreOp = Leave | Put(record: Record) | Erase

  datatype Happening =
    | Nothing
    | Submitted(attempt: Attempt)
    | Refuted(attempt: Attempt)
    | Vanished
    | MadeReady(attempt: Attempt, token: Token)
    | Executed(attempt: Attempt, prepareToken: Token)
    | Purged

  datatype Action = Action(next: Disposition, store: StoreOp, happening: Happening)

  function Writing(reply: Reply, record: Record): Option<StoreOp> {
    match reply
    case Wrote => Some(Put(record))
    case WriteKept => Some(Put(record))
    case WriteLost => Some(Leave)
    case _ => None
  }

  function Removing(reply: Reply): Option<StoreOp> {
    match reply
    case Removed => Some(Erase)
    case RemoveKept => Some(Erase)
    case RemoveLost => Some(Leave)
    case _ => None
  }

  /** A best-effort write: its outcome changes nothing about what the handler does next. */
  function AfterWrite(reply: Reply, e: Entry, next: Disposition): Option<Action> {
    match Writing(reply, e.record)
    case None => None
    case Some(op) => Some(Action(next, op, Nothing))
  }

  function Silent(next: Disposition): Option<Action> {
    Some(Action(next, Leave, Nothing))
  }

  /** `create`, from the first write on. */
  function CreateStep(e: Entry, point: Point, reply: Reply, token: Token, attempt: Attempt): Option<Action> {
    match point
    case CreateFence =>
      if reply == Wrote then Some(Action(Continue(e, CreateReply(attempt)), Put(e.record), Submitted(attempt)))
      else AfterWrite(reply, e, Release)
    case CreateReply(a) =>
      (match reply
       case CreateOk => Silent(Continue(Entry(e.record.(stage := StageCreated), token, Created(a)), CreatedWrite))
       case CreateMaybe => Silent(Continue(Entry(e.record.(stage := StageCleanupOnly), token, CleanupOnly),
                                           WriteThenPut))
       case CreateNever => Some(Action(Continue(e.At(Unowned), UnownedWrite), Leave, Refuted(a)))
       case CreateConflict => Some(Action(Continue(e.At(Unowned), UnownedWrite), Leave, Refuted(a)))
       case _ => None)
    case CreatedWrite => AfterWrite(reply, e,
                                    Continue(if reply == Wrote then e else e.(lifecycle := CleanupOnly), PutBack))
    case UnownedWrite => AfterWrite(reply, e, Continue(e, UnownedRemove))
    case UnownedRemove =>
      (match Removing(reply)
       case None => None
       case Some(op) => Some(Action(Release, op, Nothing)))
    case _ => None
  }

  /** `wait_ready` and `commit_exec`, once the entry is taken. */
  function ReadyExecStep(e: Entry, point: Point, reply: Reply, token: Token): Option<Action> {
    match point
    case ReadyReply =>
      if reply == RuntimeOk then Silent(Continue(e.At(StageReady), ReadyWrite))
      else if reply == RuntimeFailed
      then Silent(Continue(e.At(StageCleanupOnly).(lifecycle := CleanupOnly), WriteThenPut))
      else None
    case ReadyWrite =>
      if reply == Wrote && e.lifecycle.Created? then
        Some(Action(Continue(e.(token := token, lifecycle := Ready(e.lifecycle.attempt)), PutBack), Put(e.record),
                    MadeReady(e.lifecycle.attempt, token)))
      else AfterWrite(reply, e, Continue(e.(lifecycle := CleanupOnly), PutBack))
    case ExecFence(prepareToken) =>
      if reply == Wrote && e.lifecycle.Ready? then
        Some(Action(Continue(e.(lifecycle := CleanupOnly), ExecReply), Put(e.record),
                    Executed(e.lifecycle.attempt, prepareToken)))
      else AfterWrite(reply, e, Continue(e, PutBack))
    case ExecReply =>
      if reply == RuntimeOk || reply == RuntimeFailed then Silent(Continue(e.At(StageCleanupOnly), WriteThenPut))
      else None
    case _ => None
  }

  /** `delete` and `wait_deleted`, once the entry is acquired. */
  function CleanupStep(e: Entry, point: Point, reply: Reply): Option<Action> {
    match point
    case DeleteRetain =>
      if reply == Locked then Some(Action(Continue(e.At(DeletePending), DeleteFence), Leave, Purged)) else None
    case DeleteFence =>
      if reply == Wrote then Some(Action(Continue(e, DeleteReply), Put(e.record), Nothing))
      else if reply == WroteLate then Some(Action(Continue(e, PutBack), Put(e.record), Nothing))
      else AfterWrite(reply, e, Continue(e, PutBack))
    case DeleteReply =>
      if reply == RuntimeOk || reply == RuntimeFailed then Silent(Continue(e.(lifecycle := CleanupOnly), PutBack))
      else None
    case WaitDeletedReply =>
      if reply == RuntimeOk then Some(Action(Continue(e, WaitDeletedRemove), Leave, Vanished))
      else if reply == RuntimeFailed then Silent(Continue(e.(lifecycle := CleanupOnly), PutBack))
      else None
    case WaitDeletedRemove =>
      (match Removing(reply)
       case None => None
       case Some(op) => Some(Action(if reply == Removed then Release else Continue(e, PutBack), op, Nothing)))
    case _ => None
  }

  function HandlerStep(e: Entry, point: Point, reply: Reply, token: Token, attempt: Attempt): Option<Action> {
    match point
    case WriteThenPut => AfterWrite(reply, e, Continue(e, PutBack))
    case PutBack => if reply == Locked then Silent(Shelve(e)) else None
    case CreateFence => CreateStep(e, point, reply, token, attempt)
    case CreateReply(_) => CreateStep(e, point, reply, token, attempt)
    case CreatedWrite => CreateStep(e, point, reply, token, attempt)
    case UnownedWrite => CreateStep(e, point, reply, token, attempt)
    case UnownedRemove => CreateStep(e, point, reply, token, attempt)
    case ReadyReply => ReadyExecStep(e, point, reply, token)
    case ReadyWrite => ReadyExecStep(e, point, reply, token)
    case ExecFence(_) => ReadyExecStep(e, point, reply, token)
    case ExecReply => ReadyExecStep(e, point, reply, token)
    case _ => CleanupStep(e, point, reply)
  }

  // ---- The effect of an action on the shared state.

  function StoreAfter(store: map<Id, Record>, id: Id, op: StoreOp): map<Id, Record> {
    match op
    case Leave => store
    case Put(record) => store[id := record]
    case Erase => store - {id}
  }

  function WorldAfter(w: World, store: map<Id, Record>, record: Record, h: Happening): World {
    match h
    case Submitted(a) => w.(mayExist := w.mayExist + {a}, attempts := w.attempts[a := Owner(record.id, record.caller)])
    case Refuted(a) => w.(mayExist := w.mayExist - {a})
    case Vanished => w.(mayExist := Elsewhere(w, record.id))
    case MadeReady(a, token) => w.(readied := w.readied[token := a])
    case Executed(a, prepareToken) =>
      var durable := if record.id in store then Some(store[record.id]) else None;
      w.(executions := w.executions + [Execution(a, Owner(record.id, record.caller), prepareToken, durable)])
    case _ => w
  }

  /** The attempts that may exist under other ids. */
  function Elsewhere(w: World, id: Id): set<Attempt> {
    set a | a in w.mayExist && !(a in w.attempts && w.attempts[a].id == id)
  }

  function Without(prepared: map<Token, Prepared>, id: Id): map<Token, Prepared> {
    map k | k in prepared && prepared[k].id != id :: prepared[k]
  }

  function TasksAfter(tasks: map<TaskId, Frame>, t: TaskId, next: Disposition): map<TaskId, Frame> {
    match next
    case Continue(e, point) => tasks[t := Holding(e, point)]
    case Shelve(e) => tasks[t := Notifying(e.record.id)]
    case Release => tasks - {t}
  }

  function Apply(s: State, t: TaskId, record: Record, a: Action): State {
    var store := StoreAfter(s.store, record.id, a.store);
    s.(tasks := TasksAfter(s.tasks, t, a.next),
       owned := if a.next.Shelve? then s.owned[record.id := a.next.entry] else s.owned,
       prepared := if a.happening.Purged? then Without(s.prepared, record.id) else s.prepared,
       store := store,
       world := WorldAfter(s.world, store, record, a.happening),
       nextToken := s.nextToken + 1, nextAttempt := s.nextAttempt + 1)
  }

  // ---- Events.

  datatype Event =
    | Create(t: TaskId, caller: Caller, id: Id, assetsMatch: bool)
    | WaitReady(t: TaskId, caller: Caller, id: Id, token: Token, policyMatches: bool)
    | PrepareExec(t: TaskId, caller: Caller, id: Id, token: Token)
    | CommitExec(t: TaskId, caller: Caller, id: Id, prepareToken: Token)
    | Cleanup(t: TaskId, kind: CleanupKind, caller: Caller, id: Id)
    | Resume(t: TaskId, reply: Reply)
    | InsertPrepared(t: TaskId)
    | TakeForExec(t: TaskId, expired: bool)
    | TakeForCleanup(t: TaskId, expired: bool)
    | LoadForCleanup(t: TaskId, readable: bool)
    | Wake(t: TaskId)
    | GiveUp(t: TaskId)
    | Notify(t: TaskId)
    | BeginDrain
    | Crash
    | LoadStore(readable: bool)
    | ReconcileOne(id: Id, gone: bool, reply: Reply)
    | FinishReconcile

  predicate AcceptsWork(s: State) {
    s.phase.Serving? && !s.draining
  }

  /** The entry `take_owned` would hand over. */
  predicate MayTake(s: State, caller: Caller, id: Id) {
    id in s.owned && s.owned[id].record.caller == caller
  }

  function Take(s: State, t: TaskId, id: Id, e: Entry, point: Point): State {
    s.(owned := s.owned - {id}, tasks := s.tasks[t := Holding(e, point)])
  }

  function End(s: State, t: TaskId): State {
    s.(tasks := s.tasks - {t})
  }

  /** The checks of `create`; the only one on the id looks at `owned`. */
  predicate Passes(s: State, t: TaskId, id: Id, assetsMatch: bool) {
    AcceptsWork(s) && t !in s.tasks && assetsMatch && id !in s.owned
  }

  /** `create` up to its first write. */
  function CreateCheck(s: State, t: TaskId, caller: Caller, id: Id, assetsMatch: bool): State {
    if !Passes(s, t, id, assetsMatch) then s
    else s.(tasks := s.tasks[t := Holding(Entry(Record(id, caller, CreatePossible), 0, CleanupOnly), CreateFence)])
  }

  function WaitReadyTake(s: State, t: TaskId, caller: Caller, id: Id, token: Token, policyMatches: bool): State {
    if !s.phase.Serving? || t in s.tasks || !MayTake(s, caller, id) || s.owned[id].token != token then s
    else
      var e := s.owned[id];
      if !e.lifecycle.Created? then Take(s, t, id, e, PutBack)
      else if !policyMatches then Take(s, t, id, e.At(StageCleanupOnly).(lifecycle := CleanupOnly), WriteThenPut)
      else Take(s, t, id, e, ReadyReply)
  }

  function PrepareCheck(s: State, t: TaskId, caller: Caller, id: Id, token: Token): State {
    if AcceptsWork(s) && t !in s.tasks && MayTake(s, caller, id) && s.owned[id].token == token &&
       s.owned[id].lifecycle.Ready?
    then s.(tasks := s.tasks[t := Preparing(caller, id, token, s.owned[id].lifecycle.attempt)])
    else s
  }

  predicate HasPrepared(prepared: map<Token, Prepared>, id: Id) {
    exists k :: k in prepared && prepared[k].id == id
  }

  function PrepareInsert(s: State, t: TaskId): State {
    if t !in s.tasks || !s.tasks[t].Preparing? then s
    else
      var f := s.tasks[t];
      if HasPrepared(s.prepared, f.id) then End(s, t)
      else Issuing(End(s, t), Prepared(f.caller, f.id), Issue(Owner(f.id, f.caller), f.token, f.attempt))
  }

  /** A fresh prepare token is issued. */
  function Issuing(s: State, o: Prepared, i: Issue): State {
    s.(prepared := s.prepared[s.nextToken := o], world := s.world.(issued := s.world.issued[s.nextToken := i]),
       nextToken := s.nextToken + 1)
  }

  /** `commit_exec` up to its first take: the token is spent whether or not it fits. */
  function CommitToken(s: State, t: TaskId, caller: Caller, id: Id, prepareToken: Token): State {
    if !AcceptsWork(s) || t in s.tasks || prepareToken !in s.prepared then s
    else
      var spent := s.(prepared := s.prepared - {prepareToken});
      if s.prepared[prepareToken] != Prepared(caller, id) then spent
      else spent.(tasks := s.tasks[t := Committing(caller, id, prepareToken)])
  }

  function CommitTake(s: State, t: TaskId, expired: bool): State {
    if t !in s.tasks || !s.tasks[t].Committing? then s
    else
      var f := s.tasks[t];
      if !MayTake(s, f.caller, f.id) then End(s, t)
      else
        var e := s.owned[f.id];
        if !e.lifecycle.Ready? || expired then Take(s, t, f.id, e, PutBack)
        else Take(s, t, f.id, e.At(ExecPossible), ExecFence(f.prepareToken))
  }

  /** One turn of the loop in `acquire_for_cleanup` starts by registering for the next notification. */
  function AcquireBegin(s: State, t: TaskId, kind: CleanupKind, caller: Caller, id: Id): State {
    if !s.phase.Serving? || t in s.tasks then s
    else s.(tasks := s.tasks[t := Acquiring(kind, caller, id, s.epoch, TakeNext)])
  }

  function AcquireTake(s: State, t: TaskId, expired: bool): State {
    if t !in s.tasks || !s.tasks[t].Acquiring? || !s.tasks[t].at.TakeNext? then s
    else
      var f := s.tasks[t];
      if !MayTake(s, f.caller, f.id) then s.(tasks := s.tasks[t := f.(at := LoadNext)])
      else if f.kind.DeleteCall? then Take(s, t, f.id, s.owned[f.id], DeleteRetain)
      else Take(s, t, f.id, s.owned[f.id], if expired then PutBack else WaitDeletedReply)
  }

  function AcquireLoad(s: State, t: TaskId, readable: bool): State {
    if t !in s.tasks || !s.tasks[t].Acquiring? || !s.tasks[t].at.LoadNext? then s
    else
      var f := s.tasks[t];
      if readable && f.id in s.store && s.store[f.id].caller == f.caller && s.store[f.id].stage != Unowned
      then s.(tasks := s.tasks[t := f.(at := Waiting)])
      else End(s, t)
  }

  predicate Suspended(s: State, t: TaskId) {
    t in s.tasks && s.tasks[t].Acquiring? && s.tasks[t].at.Waiting?
  }

  function AcquireWake(s: State, t: TaskId): State {
    if Suspended(s, t) && s.tasks[t].epoch != s.epoch
    then s.(tasks := s.tasks[t := s.tasks[t].(epoch := s.epoch, at := TakeNext)])
    else s
  }

  function AcquireGiveUp(s: State, t: TaskId): State {
    if Suspended(s, t) then End(s, t) else s
  }

  function NotifyStep(s: State, t: TaskId): State {
    if t in s.tasks && s.tasks[t].Notifying? then End(s, t).(epoch := s.epoch + 1) else s
  }

  function ResumeStep(s: State, t: TaskId, reply: Reply): State {
    if t !in s.tasks || !s.tasks[t].Holding? then s
    else match HandlerStep(s.tasks[t].entry, s.tasks[t].point, reply, s.nextToken, s.nextAttempt)
      case None => s
      case Some(a) => Apply(s, t, s.tasks[t].entry.record, a)
  }

  /** Only the directory survives, and the world. */
  function CrashStep(s: State): State {
    s.(phase := Down, draining := false, owned := map[], prepared := map[], tasks := map[])
  }

  /** `reconcile_startup` begins with every record; a directory that cannot be read ends the process. */
  function LoadStep(s: State, readable: bool): State {
    if s.phase.Down? && readable then s.(phase := Reconciling(s.store.Keys, 0)) else s
  }

  /** The service opens only if nothing is left unresolved. */
  function FinishStep(s: State): State {
    if !s.phase.Reconciling? || s.phase.todo != {} then s
    else s.(phase := if s.phase.unresolved == 0 then Serving else Down)
  }

  /** `reconcile_startup`, one record at a time; any store failure ends the process. */
  function ReconcileStep(s: State, id: Id, gone: bool, reply: Reply): State {
    if !s.phase.Reconciling? || id !in s.phase.todo || id !in s.store || Removing(reply).None? then s
    else
      var rest := s.phase.(todo := s.phase.todo - {id});
      var removed :=
          s.(store := StoreAfter(s.store, id, Removing(reply).value), phase := if reply == Removed then rest else Down);
      if s.store[id].stage == Unowned then removed
      else if gone then removed.(world := s.world.(mayExist := Elsewhere(s.world, id)))
      else s.(phase := rest.(unresolved := s.phase.unresolved + 1))
  }

  function Next(s: State, e: Event): State {
    match e
    case Create(t, caller, id, assetsMatch) => CreateCheck(s, t, caller, id, assetsMatch)
    case WaitReady(t, caller, id, token, policyMatches) => WaitReadyTake(s, t, caller, id, token, policyMatches)
    case PrepareExec(t, caller, id, token) => PrepareCheck(s, t, caller, id, token)
    case CommitExec(t, caller, id, prepareToken) => CommitToken(s, t, caller, id, prepareToken)
    case Cleanup(t, kind, caller, id) => AcquireBegin(s, t, kind, caller, id)
    case Resume(t, reply) => ResumeStep(s, t, reply)
    case InsertPrepared(t) => PrepareInsert(s, t)
    case TakeForExec(t, expired) => CommitTake(s, t, expired)
    case TakeForCleanup(t, expired) => AcquireTake(s, t, expired)
    case LoadForCleanup(t, readable) => AcquireLoad(s, t, readable)
    case Wake(t) => AcquireWake(s, t)
    case GiveUp(t) => AcquireGiveUp(s, t)
    case Notify(t) => NotifyStep(s, t)
    case BeginDrain => s.(draining := true)
    case Crash => CrashStep(s)
    case LoadStore(readable) => LoadStep(s, readable)
    case ReconcileOne(id, gone, reply) => ReconcileStep(s, id, gone, reply)
    case FinishReconcile => FinishStep(s)
  }

  function Run(s: State, events: seq<Event>): State {
    if events == [] then s else Next(Run(s, events[..|events| - 1]), events[|events| - 1])
  }

  /** The steps from one state to the other concern one task only. */
  ghost predicate OnlyTask(s: State, t: TaskId, s': State) {
    forall u :: u != t ==> (u in s.tasks <==> u in s'.tasks) && (u in s.tasks ==> s'.tasks[u] == s.tasks[u])
  }

  /** The arrivals of requests. */
  predicate RequestEvent(e: Event) {
    e.Create? || e.WaitReady? || e.PrepareExec? || e.CommitExec? || e.Cleanup?
  }

  /** The life of the process around its handlers. */
  predicate SystemEvent(e: Event) {
    e.BeginDrain? || e.Crash? || e.LoadStore? || e.ReconcileOne? || e.FinishReconcile?
  }

  /** Some handler holds the entry of this id. */
  predicate Holds(s: State, t: TaskId, id: Id) {
    t in s.tasks && s.tasks[t].Holding? && s.tasks[t].entry.record.id == id
  }

  ghost predicate InUse(s: State, id: Id) {
    exists t :: Holds(s, t, id)
  }

  /** What the boundary asks of its callers: no create passes for an id that a handler is still working on. */
  ghost predicate Behaved(s: State, e: Event) {
    e.Create? && Passes(s, e.t, e.id, e.assetsMatch) ==> !InUse(s, e.id)
  }

  ghost predicate BehavedRun(s: State, events: seq<Event>) {
    events == [] ||
    var n := |events| - 1;
    BehavedRun(s, events[..n]) && Behaved(Run(s, events[..n]), events[n])
  }

  predicate CreateFree(events: seq<Event>) {
    forall i :: 0 <= i < |events| ==> !events[i].Create?
  }

  predicate CrashFree(events: seq<Event>) {
    forall i :: 0 <= i < |events| ==> !events[i].Crash?
  }

  lemma RunSnoc(s: State, events: seq<Event>, e: Event)
    ensures Run(s, events + [e]) == Next(Run(s, events), e)
  {
    assert (events + [e])[..|events|] == events;
  }

  /** One more event of a run, with what it carries over. */
  lemma Then(s0: State, events: seq<Event>, s: State, e: Event) returns (events': seq<Event>, s': State)
    requires s == Run(s0, events)
    ensures events' == events + [e] && s' == Next(s, e) == Run(s0, events')
    ensures BehavedRun(s0, events) && Behaved(s, e) ==> BehavedRun(s0, events')
    ensures CrashFree(events) && !e.Crash? ==> CrashFree(events')
  {
    events', s' := events + [e], Next(s, e);
    assert events'[..|events|] == events;
  }
}
