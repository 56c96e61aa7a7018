/** Execution custody: who may execute what, with which token, how often, and what was durable before. */
module BoundaryExecution {
  import opened RuntimeContract
  import opened ServiceBoundary
  import opened BoundaryCustody

  function OwnerOf(record: Record): Owner {
    Owner(record.id, record.caller)
  }

  predicate Unexecuted(w: World, a: Attempt) {
    forall i :: 0 <= i < |w.executions| ==> w.executions[i].attempt != a
  }

  predicate Unspent(w: World, k: Token) {
    forall i :: 0 <= i < |w.executions| ==> w.executions[i].prepareToken != k
  }

  /** The issue names a token that `wait_ready` rotated in for that very sandbox, of that very owner. */
  predicate IssueSound(w: World, i: Issue) {
    && i.lifecycleToken in w.readied && w.readied[i.lifecycleToken] == i.attempt
    && i.attempt in w.attempts && w.attempts[i.attempt] == i.owner
  }

  /** An execution: of a sandbox its caller created, with a token issued to that caller for that id while it was ready,
      after the record of possible execution was durable. */
  predicate ExecutionSound(w: World, x: Execution) {
    && x.attempt in w.attempts && w.attempts[x.attempt] == x.owner
    && x.prepareToken in w.issued && w.issued[x.prepareToken].owner == x.owner
    && IssueSound(w, w.issued[x.prepareToken])
    && x.durable == Some(Record(x.owner.id, x.owner.caller, ExecPossible))
  }

  /** Every sandbox is executed at most once, and every prepare token is used at most once. */
  ghost predicate Executions(w: World) {
    && (forall i :: 0 <= i < |w.executions| ==> ExecutionSound(w, w.executions[i]))
    && (forall i, j :: 0 <= i < j < |w.executions| ==>
          w.executions[i].attempt != w.executions[j].attempt &&
              w.executions[i].prepareToken != w.executions[j].prepareToken)
  }

  /** An entry that gives access to a sandbox belongs to the caller who created it, and nothing ran there yet. */
  predicate EntrySound(w: World, e: Entry) {
    match e.lifecycle
    case Created(a) => BelongsTo(w, a, e.record) && Unexecuted(w, a)
    case Ready(a) => BelongsTo(w, a, e.record) && Unexecuted(w, a) && e.token in w.readied && w.readied[e.token] == a
    case CleanupOnly => true
  }

  predicate GripSound(w: World, f: Frame)
    requires f.Holding?
  {
    && EntrySound(w, f.entry)
    && (f.point.CreateFence? || f.point.CreateReply? ==> f.entry.lifecycle.CleanupOnly?)
    && (f.point.CreateReply? ==> BelongsTo(w, f.point.attempt, f.entry.record) && Unexecuted(w, f.point.attempt))
    && (f.point.ExecFence? ==> f.entry.record.stage == ExecPossible)
  }

  ghost predicate Entries(s: State) {
    && (forall id :: id in s.owned ==> EntrySound(s.world, s.owned[id]))
    && (forall t :: Grip(s, t).Some? ==> GripSound(s.world, s.tasks[t]))
  }

  /** The prepare token a handler has taken and may still use. */
  function Pending(s: State, t: TaskId): Option<(Token, Owner)> {
    if t !in s.tasks then None
    else match s.tasks[t]
      case Committing(caller, id, k) => Some((k, Owner(id, caller)))
      case Holding(e, ExecFence(k)) => Some((k, OwnerOf(e.record)))
      case _ => None
  }

  function Intent(f: Frame): Issue
    requires f.Preparing?
  {
    Issue(Owner(f.id, f.caller), f.token, f.attempt)
  }

  predicate Spendable(w: World, k: Token, o: Owner) {
    Unspent(w, k) && k in w.issued && w.issued[k].owner == o
  }

  ghost predicate OnePerId(prepared: map<Token, Prepared>) {
    forall k, l :: k in prepared && l in prepared && prepared[k].id == prepared[l].id ==> k == l
  }

  ghost predicate Tokens(s: State) {
    && (forall k :: k in s.world.issued ==> k < s.nextToken && IssueSound(s.world, s.world.issued[k]))
    && (forall k :: k in s.world.readied ==> k < s.nextToken)
    && (forall k :: k in s.prepared ==> Spendable(s.world, k, Owner(s.prepared[k].id, s.prepared[k].caller)))
    && (forall t :: Pending(s, t).Some? ==>
          Spendable(s.world, Pending(s, t).value.0, Pending(s, t).value.1) && Pending(s, t).value.0 !in s.prepared)
    && (forall t, u :: Pending(s, t).Some? && Pending(s, u).Some? && t != u ==>
        Pending(s, t).value.0 != Pending(s, u).value.0)
    && (forall t :: t in s.tasks && s.tasks[t].Preparing? ==> IssueSound(s.world, Intent(s.tasks[t])))
    && OnePerId(s.prepared)
  }

  /** The sandbox an entry gives access to. */
  function EntryAccess(e: Entry): Option<Attempt> {
    if e.lifecycle.CleanupOnly? then None else Some(e.lifecycle.attempt)
  }

  /** The sandbox a handler has access to, or waits to hear about. */
  function Access(f: Frame): Option<Attempt>
    requires f.Holding?
  {
    if f.point.CreateReply? then Some(f.point.attempt) else EntryAccess(f.entry)
  }

  predicate Grants(s: State, t: TaskId, a: Attempt) {
    Grip(s, t).Some? && Access(s.tasks[t]) == Some(a)
  }

  predicate Shelved(s: State, id: Id, a: Attempt) {
    id in s.owned && EntryAccess(s.owned[id]) == Some(a)
  }

  /** Access is never duplicated: a sandbox is in at most one place, whatever callers do. */
  ghost predicate Linear(s: State) {
    && (forall t, u, a :: Grants(s, t, a) && Grants(s, u, a) ==> t == u)
    && (forall id, jd, a :: Shelved(s, id, a) && Shelved(s, jd, a) ==> id == jd)
    && (forall t, id, a :: Grants(s, t, a) ==> !Shelved(s, id, a))
  }

  ghost predicate Accounted(s: State) {
    && Keyed(s) && (forall a :: a in s.world.attempts ==> a < s.nextAttempt)
    && Linear(s) && Executions(s.world) && Entries(s) && Tokens(s)
  }

  // ---- Steps that leave the ledger alone.

  /** No token was issued, spent or handed on; handlers may have dropped theirs. */
  ghost predicate Passive(s: State, s': State) {
    && s'.world == s.world && s.nextToken <= s'.nextToken && s'.prepared == s.prepared
    && (forall t :: Pending(s', t).None? || Pending(s', t) == Pending(s, t))
    && (forall t :: t in s'.tasks && s'.tasks[t].Preparing? ==> t in s.tasks && s.tasks[t] == s'.tasks[t])
  }

  lemma PassiveKeepsTokens(s: State, s': State)
    requires Tokens(s) && Passive(s, s')
    ensures Tokens(s')
  {
  }

  lemma QuietKeepsEntries(s: State, s': State)
    requires Entries(s) && Quiet(s, s')
    ensures Entries(s')
  {
  }

  lemma TookKeepsEntries(s: State, t: TaskId, s': State)
    requires Entries(s) && Took(s, t, s')
    ensures Entries(s')
  {
  }

  lemma QuietKeepsLinear(s: State, s': State)
    requires Linear(s) && Quiet(s, s')
    ensures Linear(s')
  {
    assert forall t, a :: Grants(s', t, a) ==> Grip(s', t) == Grip(s, t) && Grants(s, t, a);
    assert forall id, a :: Shelved(s', id, a) ==> Shelved(s, id, a);
  }

  lemma TookKeepsLinear(s: State, t: TaskId, s': State)
    requires Linear(s) && Took(s, t, s')
    ensures Linear(s')
  {
    var id := s'.tasks[t].entry.record.id;
    assert forall u, a :: Grants(s', u, a) && u != t ==> Grip(s', u) == Grip(s, u) && Grants(s, u, a);
    assert forall a :: Grants(s', t, a) ==> Shelved(s, id, a);
    assert forall i, a :: Shelved(s', i, a) ==> i != id && Shelved(s, i, a);
  }

  lemma TookIsPassive(s: State, t: TaskId, s': State)
    requires Took(s, t, s')
    ensures Passive(s, s')
  {
  }

  lemma TakeEventIsPassive(s: State, e: Event)
    requires Keyed(s) && TakeEvent(e)
    ensures Passive(s, Next(s, e))
  {
    TakeStep(s, e);
    if Took(s, e.t, Next(s, e)) {
      TookIsPassive(s, e.t, Next(s, e));
    } else if e.TakeForExec? {
      DroppedTakeIsPassive(s, e.t, e.expired);
    } else if e.TakeForCleanup? {
      DelayedTakeIsPassive(s, e.t, e.expired);
    }
  }

  lemma DroppedTakeIsPassive(s: State, t: TaskId, expired: bool)
    requires Quiet(s, CommitTake(s, t, expired))
    ensures Passive(s, CommitTake(s, t, expired))
  {
  }

  lemma DelayedTakeIsPassive(s: State, t: TaskId, expired: bool)
    requires Quiet(s, AcquireTake(s, t, expired))
    ensures Passive(s, AcquireTake(s, t, expired))
  {
  }

  /** One frame that deals with no prepare token comes or goes. */
  lemma FrameChangeIsPassive(s: State, t: TaskId, s': State)
    requires s'.world == s.world && s'.prepared == s.prepared && s'.nextToken == s.nextToken
    requires OnlyTask(s, t, s') && (t in s'.tasks ==> s'.tasks[t].Acquiring?)
    ensures Passive(s, s')
  {
  }

  /** The quiet events that deal with no prepare token. */
  lemma WaitingIsPassive(s: State, e: Event)
    requires e.Cleanup? || e.LoadForCleanup? || e.Wake? || e.GiveUp? || e.Notify? || e.BeginDrain?
    ensures Passive(s, Next(s, e))
  {
    var s' := Next(s, e);
    if s' != s && !e.BeginDrain? {
      FrameChangeIsPassive(s, e.t, s');
    }
  }

  // ---- The life of a prepare token.

  lemma PrepareKeepsTokens(s: State, t: TaskId, caller: Caller, id: Id, token: Token)
    requires Tokens(s) && Entries(s) && Keyed(s)
    ensures Tokens(PrepareCheck(s, t, caller, id, token))
  {
    var s' := PrepareCheck(s, t, caller, id, token);
    assert forall u :: Pending(s', u) == Pending(s, u);
  }

  /** Withdrawing prepared tokens is always safe. */
  lemma WithdrawKeepsTokens(s: State, prepared: map<Token, Prepared>)
    requires Tokens(s) && forall k :: k in prepared ==> k in s.prepared && prepared[k] == s.prepared[k]
    ensures Tokens(s.(prepared := prepared))
  {
    var s' := s.(prepared := prepared);
    assert forall u :: Pending(s', u) == Pending(s, u);
  }

  /** A withdrawn token may be handed to one handler. */
  lemma HandOverKeepsTokens(s: State, t: TaskId, caller: Caller, id: Id, k: Token)
    requires Tokens(s) && t !in s.tasks && k !in s.prepared && Spendable(s.world, k, Owner(id, caller))
    requires forall u :: Pending(s, u).Some? ==> Pending(s, u).value.0 != k
    ensures Tokens(s.(tasks := s.tasks[t := Committing(caller, id, k)]))
  {
    var s' := s.(tasks := s.tasks[t := Committing(caller, id, k)]);
    assert forall u :: u != t ==> Pending(s', u) == Pending(s, u);
  }

  lemma CommitKeepsTokens(s: State, t: TaskId, caller: Caller, id: Id, prepareToken: Token)
    requires Tokens(s)
    ensures Tokens(CommitToken(s, t, caller, id, prepareToken))
  {
    if AcceptsWork(s) && t !in s.tasks && prepareToken in s.prepared {
      var spent := s.(prepared := s.prepared - {prepareToken});
      WithdrawKeepsTokens(s, s.prepared - {prepareToken});
      if s.prepared[prepareToken] == Prepared(caller, id) {
        assert forall u :: Pending(spent, u) == Pending(s, u);
        HandOverKeepsTokens(spent, t, caller, id, prepareToken);
      }
    }
  }

  /** A new issue leaves every earlier judgement as it was. */
  lemma IssueKeepsJudgements(w: World, k: Token, i: Issue)
    requires k !in w.issued
    ensures var w' := w.(issued := w.issued[k := i]);
            && (Executions(w) ==> Executions(w'))
            && (forall l, o :: Spendable(w, l, o) ==> Spendable(w', l, o))
  {
  }

  lemma FreshIsUnspent(w: World, k: Token)
    requires Executions(w) && k !in w.issued
    ensures Unspent(w, k)
  {
  }

  lemma IssueKeepsTokens(s: State, o: Prepared, i: Issue)
    requires Tokens(s) && Executions(s.world) && IssueSound(s.world, i) && i.owner == Owner(o.id, o.caller)
    requires !HasPrepared(s.prepared, o.id)
    ensures Tokens(Issuing(s, o, i)) && Executions(Issuing(s, o, i).world)
  {
    var k := s.nextToken;
    var s' := Issuing(s, o, i);
    IssueKeepsJudgements(s.world, k, i);
    FreshIsUnspent(s.world, k);
    assert forall u :: Pending(s', u) == Pending(s, u);
    assert forall j :: IssueSound(s.world, j) ==> IssueSound(s'.world, j);
    OnePerIdInsert(s.prepared, k, o);
  }

  lemma OnePerIdInsert(prepared: map<Token, Prepared>, k: Token, o: Prepared)
    requires OnePerId(prepared) && !HasPrepared(prepared, o.id)
    ensures OnePerId(prepared[k := o])
  {
  }

  lemma InsertKeepsTokens(s: State, t: TaskId)
    requires Tokens(s) && Executions(s.world)
    ensures Tokens(PrepareInsert(s, t)) && Executions(PrepareInsert(s, t).world)
  {
    if t in s.tasks && s.tasks[t].Preparing? {
      var f := s.tasks[t];
      FrameChangeIsPassive(s, t, End(s, t));
      PassiveKeepsTokens(s, End(s, t));
      if !HasPrepared(s.prepared, f.id) {
        IssueKeepsTokens(End(s, t), Prepared(f.caller, f.id), Intent(f));
      }
    }
  }

  // ---- A handler that holds an entry.

  /** Access to a sandbox is gained only by creating it, rotated only by making it ready, and used up by executing. */
  predicate Licensed(e: Entry, point: Point, a: Action, token: Token, attempt: Attempt) {
    && KeepsIdentity(e, a) && (a.next.Shelve? ==> a.next.entry == e && !point.CreateReply? && a.happening.Nothing?)
    && (a.next.Continue? ==>
          && !a.next.point.ExecFence? && !a.next.point.CreateFence?
          && (a.next.point.CreateReply? ==>
                point.CreateFence? && a.next.entry == e && a.happening == Submitted(a.next.point.attempt)))
    && (!a.next.Release? ==>
          var l := a.next.entry.lifecycle;
          || l.CleanupOnly?
          || (l == e.lifecycle && a.next.entry.token == e.token && !a.happening.Executed? && !a.happening.MadeReady?)
          || (point.CreateReply? && l == Created(point.attempt) && a.happening.Nothing?)
          || (e.lifecycle.Created? && l == Ready(e.lifecycle.attempt) && a.next.entry.token == token
              && a.happening == MadeReady(e.lifecycle.attempt, token)))
    && (a.happening.Executed? ==>
          && point == ExecFence(a.happening.prepareToken) && e.lifecycle == Ready(a.happening.attempt)
          && a.store == Put(e.record) && a.next.Continue? && a.next.entry.lifecycle.CleanupOnly?)
    && (a.happening.MadeReady? ==> a.happening.token == token)
    && (a.happening.Submitted? ==> a.happening.attempt == attempt)
  }

  lemma CreateIsLicensed(e: Entry, point: Point, reply: Reply, token: Token, attempt: Attempt)
    ensures var a := CreateStep(e, point, reply, token, attempt);
            a.Some? ==> Licensed(e, point, a.value, token, attempt)
  {
  }

  lemma ReadyExecIsLicensed(e: Entry, point: Point, reply: Reply, token: Token, attempt: Attempt)
    ensures var a := ReadyExecStep(e, point, reply, token); a.Some? ==> Licensed(e, point, a.value, token, attempt)
  {
  }

  lemma HandlerIsLicensed(e: Entry, point: Point, reply: Reply, token: Token, attempt: Attempt)
    ensures var a := HandlerStep(e, point, reply, token, attempt);
            a.Some? ==> Licensed(e, point, a.value, token, attempt)
  {
    CreateIsLicensed(e, point, reply, token, attempt);
    ReadyExecIsLicensed(e, point, reply, token, attempt);
  }

  /** A licensed step of the handler at `t`. */
  ghost predicate Proceeds(s: State, t: TaskId, a: Action, s': State) {
    && Grip(s, t).Some?
    && Licensed(s.tasks[t].entry, s.tasks[t].point, a, s.nextToken, s.nextAttempt)
    && s' == Apply(s, t, s.tasks[t].entry.record, a)
  }

  lemma OthersStay(s: State, t: TaskId, a: Action, s': State)
    requires Proceeds(s, t, a, s')
    ensures forall u :: u != t ==> Grip(s', u) == Grip(s, u)
    ensures Grip(s', t) == if a.next.Continue? then Some(Holding(a.next.entry, a.next.point)) else None
  {
  }

  /** A step keeps the access its handler has, gives it up, or starts waiting to hear about a new attempt. */
  lemma AccessMoves(s: State, t: TaskId, a: Action, s': State)
    requires Accounted(s) && Proceeds(s, t, a, s')
    ensures a.next.Continue? ==>
              var x := Access(Holding(a.next.entry, a.next.point));
              x.None? || x == Access(s.tasks[t]) ||
                  (x == Some(s.nextAttempt) && a.happening == Submitted(s.nextAttempt))
    ensures a.next.Shelve? ==> EntryAccess(a.next.entry).None? || EntryAccess(a.next.entry) == Access(s.tasks[t])
  {
    assert Grip(s, t).Some?;
  }

  /** Nobody has access to a sandbox not yet submitted. */
  lemma AccessIsBorn(s: State)
    requires Accounted(s)
    ensures forall t :: !Grants(s, t, s.nextAttempt)
    ensures forall id :: !Shelved(s, id, s.nextAttempt)
  {
    forall t
      ensures !Grants(s, t, s.nextAttempt)
    {
      assert Grip(s, t).Some? ==> GripSound(s.world, s.tasks[t]);
    }
  }

  lemma ProceedsKeepsLinear(s: State, t: TaskId, a: Action, s': State)
    requires Accounted(s) && Proceeds(s, t, a, s')
    ensures Linear(s')
  {
    OthersStay(s, t, a, s');
    AccessMoves(s, t, a, s');
    AccessIsBorn(s);
    assert forall u, x :: Grants(s', u, x) && u != t ==> Grants(s, u, x);
    assert forall x :: Grants(s', t, x) ==> Grants(s, t, x) || x == s.nextAttempt;
    assert forall i, x :: Shelved(s', i, x) ==>
           Shelved(s, i, x) || (a.next.Shelve? && Grants(s, t, x) && i == s.tasks[t].entry.record.id);
  }

  /** A happening neither unmakes an owner, a rotation or an issue, nor touches another sandbox. */
  predicate Gentle(w: World, h: Happening) {
    && (h.Submitted? ==> h.attempt !in w.attempts)
    && (h.MadeReady? ==> h.token !in w.readied)
  }

  lemma HappeningKeepsEntry(w: World, store: map<Id, Record>, record: Record, h: Happening, e: Entry)
    requires EntrySound(w, e) && Gentle(w, h)
    requires h.Executed? && !e.lifecycle.CleanupOnly? ==> e.lifecycle.attempt != h.attempt
    ensures EntrySound(WorldAfter(w, store, record, h), e)
  {
  }

  lemma HappeningKeepsGrip(w: World, store: map<Id, Record>, record: Record, h: Happening, f: Frame)
    requires f.Holding? && GripSound(w, f) && Gentle(w, h)
    requires h.Executed? && !f.entry.lifecycle.CleanupOnly? ==> f.entry.lifecycle.attempt != h.attempt
    requires h.Executed? && f.point.CreateReply? ==> f.point.attempt != h.attempt
    ensures GripSound(WorldAfter(w, store, record, h), f)
  {
  }

  lemma ProceedsKeepsOwned(s: State, t: TaskId, a: Action, s': State)
    requires Accounted(s) && Proceeds(s, t, a, s')
    ensures forall id :: id in s'.owned ==> EntrySound(s'.world, s'.owned[id])
  {
    assert Grip(s, t).Some?;
    var e := s.tasks[t].entry;
    assert a.happening.Executed? ==> Grants(s, t, a.happening.attempt);
    forall id | id in s'.owned
      ensures EntrySound(s'.world, s'.owned[id])
    {
      if !a.next.Shelve? || id != e.record.id {
        assert a.happening.Executed? ==> !Shelved(s, id, a.happening.attempt);
        HappeningKeepsEntry(s.world, s'.store, e.record, a.happening, s.owned[id]);
      }
    }
  }

  lemma NextGripIsSound(s: State, t: TaskId, a: Action, s': State)
    requires Accounted(s) && Proceeds(s, t, a, s') && a.next.Continue?
    ensures GripSound(s'.world, Holding(a.next.entry, a.next.point))
  {
  }

  lemma ProceedsKeepsGrips(s: State, t: TaskId, a: Action, s': State)
    requires Accounted(s) && Proceeds(s, t, a, s')
    ensures forall u :: Grip(s', u).Some? ==> GripSound(s'.world, s'.tasks[u])
  {
    OthersStay(s, t, a, s');
    assert Grip(s, t).Some?;
    assert a.happening.Executed? ==> Grants(s, t, a.happening.attempt);
    forall u | Grip(s', u).Some?
      ensures GripSound(s'.world, s'.tasks[u])
    {
      if u == t {
        NextGripIsSound(s, t, a, s');
      } else {
        assert Grip(s', u) == Grip(s, u);
        assert a.happening.Executed? ==> !Grants(s, u, a.happening.attempt);
        HappeningKeepsGrip(s.world, s'.store, s.tasks[t].entry.record, a.happening, s.tasks[u]);
      }
    }
  }

  lemma ProceedsKeepsExecutions(s: State, t: TaskId, a: Action, s': State)
    requires Accounted(s) && Proceeds(s, t, a, s')
    ensures Executions(s'.world)
  {
    assert Grip(s, t).Some?;
    var e, point := s.tasks[t].entry, s.tasks[t].point;
    assert forall x :: ExecutionSound(s.world, x) ==> ExecutionSound(s'.world, x);
    if a.happening.Executed? {
      assert Pending(s, t) == Some((point.prepareToken, OwnerOf(e.record)));
      assert Spendable(s.world, point.prepareToken, OwnerOf(e.record));
    }
  }

  /** What a happening leaves of the tokens: everything, except that executing spends one. */
  lemma HappeningKeepsSpendable(w: World, store: map<Id, Record>, record: Record, h: Happening, k: Token, o: Owner)
    requires Spendable(w, k, o) && (h.Executed? ==> h.prepareToken != k)
    ensures Spendable(WorldAfter(w, store, record, h), k, o)
  {
  }

  lemma ProceedsKeepsPending(s: State, t: TaskId, a: Action, s': State)
    requires Accounted(s) && Proceeds(s, t, a, s')
    ensures forall u :: Pending(s', u).Some? ==> u != t && Pending(s', u) == Pending(s, u)
    ensures forall u :: Pending(s', u).Some? ==> Spendable(s'.world, Pending(s', u).value.0, Pending(s', u).value.1)
  {
    assert Grip(s, t).Some?;
    var record := s.tasks[t].entry.record;
    forall u | Pending(s', u).Some?
      ensures u != t && Pending(s', u) == Pending(s, u)
      ensures Spendable(s'.world, Pending(s', u).value.0, Pending(s', u).value.1)
    {
      assert a.happening.Executed? ==> Pending(s, t).Some? && Pending(s, t).value.0 == a.happening.prepareToken;
      HappeningKeepsSpendable(s.world, s'.store, record, a.happening, Pending(s, u).value.0, Pending(s, u).value.1);
    }
  }

  lemma ProceedsKeepsPrepared(s: State, t: TaskId, a: Action, s': State)
    requires Accounted(s) && Proceeds(s, t, a, s')
    ensures forall k :: k in s'.prepared ==> k in s.prepared && s'.prepared[k] == s.prepared[k]
    ensures forall k :: k in s'.prepared ==> Spendable(s'.world, k, Owner(s'.prepared[k].id, s'.prepared[k].caller))
  {
    assert Grip(s, t).Some?;
    assert a.happening.Executed? ==> Pending(s, t).Some? && Pending(s, t).value.0 == a.happening.prepareToken;
    forall k | k in s'.prepared
      ensures Spendable(s'.world, k, Owner(s'.prepared[k].id, s'.prepared[k].caller))
    {
      HappeningKeepsSpendable(s.world, s'.store, s.tasks[t].entry.record, a.happening, k,
                              Owner(s.prepared[k].id, s.prepared[k].caller));
    }
  }

  lemma ProceedsKeepsTokens(s: State, t: TaskId, a: Action, s': State)
    requires Accounted(s) && Proceeds(s, t, a, s')
    ensures Tokens(s')
  {
    ProceedsKeepsPending(s, t, a, s');
    ProceedsKeepsPrepared(s, t, a, s');
    assert Grip(s, t).Some?;
    assert Gentle(s.world, a.happening);
    assert forall i :: IssueSound(s.world, i) ==> IssueSound(s'.world, i);
    assert forall u :: u in s'.tasks && s'.tasks[u].Preparing? ==> u in s.tasks && s.tasks[u] == s'.tasks[u];
  }

  lemma ResumeKeepsAccounted(s: State, t: TaskId, reply: Reply)
    requires Accounted(s)
    ensures Accounted(ResumeStep(s, t, reply))
  {
    if Grip(s, t).Some? {
      var e, point := s.tasks[t].entry, s.tasks[t].point;
      HandlerIsLicensed(e, point, reply, s.nextToken, s.nextAttempt);
      var a := HandlerStep(e, point, reply, s.nextToken, s.nextAttempt);
      if a.Some? {
        var s' := ResumeStep(s, t, reply);
        ProceedsKeepsAccounted(s, t, a.value, s');
      }
    }
  }

  lemma ProceedsKeepsAccounted(s: State, t: TaskId, a: Action, s': State)
    requires Accounted(s) && Proceeds(s, t, a, s')
    ensures Accounted(s')
  {
    ProceedsKeepsBasics(s, t, a, s');
    ProceedsKeepsLinear(s, t, a, s');
    ProceedsKeepsOwned(s, t, a, s');
    ProceedsKeepsGrips(s, t, a, s');
    ProceedsKeepsExecutions(s, t, a, s');
    ProceedsKeepsTokens(s, t, a, s');
  }

  lemma ProceedsKeepsBasics(s: State, t: TaskId, a: Action, s': State)
    requires Accounted(s) && Proceeds(s, t, a, s')
    ensures Keyed(s') && forall x :: x in s'.world.attempts ==> x < s'.nextAttempt
  {
    assert Grip(s, t).Some?;
  }

  // ---- Every run.

  lemma CreateKeepsAccounted(s: State, t: TaskId, caller: Caller, id: Id, assetsMatch: bool)
    requires Accounted(s)
    ensures Accounted(CreateCheck(s, t, caller, id, assetsMatch))
  {
    var s' := CreateCheck(s, t, caller, id, assetsMatch);
    if s' != s {
      forall u | Grip(s', u).Some?
        ensures GripSound(s'.world, s'.tasks[u])
      {
        assert u != t ==> Grip(s', u) == Grip(s, u);
      }
      assert forall u, a :: Grants(s', u, a) ==> Grants(s, u, a);
      assert forall i, a :: Shelved(s', i, a) ==> Shelved(s, i, a);
      PassiveKeepsTokens(s, s');
    }
  }

  lemma CrashKeepsAccounted(s: State)
    requires Accounted(s)
    ensures Accounted(CrashStep(s))
  {
  }

  /** Startup and reconciliation: records and sandboxes go, the ledger stays. */
  lemma SameLedger(s: State, s': State)
    requires Accounted(s) && Keyed(s')
    requires s' == s.(phase := s'.phase, store := s'.store, world := s.world.(mayExist := s'.world.mayExist))
    ensures Accounted(s')
  {
    assert forall x :: ExecutionSound(s.world, x) ==> ExecutionSound(s'.world, x);
    assert forall u :: Pending(s', u) == Pending(s, u);
    assert forall u :: Grip(s', u) == Grip(s, u);
    assert forall i :: IssueSound(s.world, i) ==> IssueSound(s'.world, i);
    assert forall k, o :: Spendable(s.world, k, o) ==> Spendable(s'.world, k, o);
    assert forall u, a :: Grants(s', u, a) ==> Grants(s, u, a);
    assert forall i, a :: Shelved(s', i, a) ==> Shelved(s, i, a);
  }

  lemma QuietKeepsAccounted(s: State, e: Event)
    requires Accounted(s) && QuietEvent(e)
    ensures Accounted(Next(s, e))
  {
    QuietStep(s, e);
    QuietKeepsEntries(s, Next(s, e));
    QuietKeepsLinear(s, Next(s, e));
    QuietKeepsLedger(s, e);
  }

  lemma QuietKeepsLedger(s: State, e: Event)
    requires Accounted(s) && QuietEvent(e)
    ensures Tokens(Next(s, e)) && Executions(Next(s, e).world)
  {
    match e
    case PrepareExec(t, caller, id, token) => PrepareKeepsTokens(s, t, caller, id, token);
    case CommitExec(t, caller, id, prepareToken) => CommitKeepsTokens(s, t, caller, id, prepareToken);
    case InsertPrepared(t) => InsertKeepsTokens(s, t);
    case _ => WaitingKeepsLedger(s, e);
  }

  lemma WaitingKeepsLedger(s: State, e: Event)
    requires Accounted(s) && (e.Cleanup? || e.LoadForCleanup? || e.Wake? || e.GiveUp? || e.Notify? || e.BeginDrain?)
    ensures Tokens(Next(s, e)) && Executions(Next(s, e).world)
  {
    WaitingIsPassive(s, e);
    PassiveKeepsTokens(s, Next(s, e));
  }

  lemma TakeKeepsAccounted(s: State, e: Event)
    requires Accounted(s) && TakeEvent(e)
    ensures Accounted(Next(s, e))
  {
    var s' := Next(s, e);
    TakeEventIsPassive(s, e);
    PassiveKeepsTokens(s, s');
    TakeStep(s, e);
    if Took(s, e.t, s') {
      TookKeepsEntries(s, e.t, s');
      TookKeepsLinear(s, e.t, s');
    } else {
      QuietKeepsEntries(s, s');
      QuietKeepsLinear(s, s');
    }
  }

  lemma StepKeepsAccounted(s: State, e: Event)
    requires Accounted(s)
    ensures Accounted(Next(s, e))
  {
    if TakeEvent(e) {
      TakeKeepsAccounted(s, e);
    } else if QuietEvent(e) {
      QuietKeepsAccounted(s, e);
    } else {
      match e
      case Resume(t, reply) => ResumeKeepsAccounted(s, t, reply);
      case Create(t, caller, id, assetsMatch) => CreateKeepsAccounted(s, t, caller, id, assetsMatch);
      case _ => SystemKeepsAccounted(s, e);
    }
  }

  lemma SystemKeepsAccounted(s: State, e: Event)
    requires Accounted(s) && SystemEvent(e) && !QuietEvent(e)
    ensures Accounted(Next(s, e))
  {
    if e.Crash? {
      CrashKeepsAccounted(s);
    } else {
      SystemKeepsPlaces(s, e);
      SameLedger(s, Next(s, e));
    }
  }

  /** Startup and reconciliation touch neither handlers nor entries. */
  lemma SystemKeepsPlaces(s: State, e: Event)
    requires Keyed(s) && SystemEvent(e) && !QuietEvent(e) && !e.Crash?
    ensures var s' := Next(s, e);
            && s' == s.(phase := s'.phase, store := s'.store, world := s.world.(mayExist := s'.world.mayExist))
            && Keyed(s')
  {
  }

  /** Execution custody over every run whatsoever: each execution is sound, each sandbox runs at most once, each prepare
      token is used at most once, each id has at most one prepared execution outstanding, and access to a sandbox is in
      one place only. */
  lemma {:induction false} RunsAreAccounted(events: seq<Event>)
    ensures Accounted(Run(START, events))
  {
    if events != [] {
      var n := |events| - 1;
      RunsAreAccounted(events[..n]);
      StepKeepsAccounted(Run(START, events[..n]), events[n]);
    }
  }
}
