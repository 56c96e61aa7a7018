/** Which sandbox a prepare token is for: exactly when the token that runs a sandbox was issued for that sandbox. */
module BoundaryTokens {
  import opened RuntimeContract
  import opened ServiceBoundary
  import opened BoundaryCustody
  import opened BoundaryOrphans
  import opened BoundaryExecution

  /** Some preparation of this caller for this id is under way: being inserted, prepared, or taken to be committed. */
  ghost predicate Outstanding(s: State, o: Owner) {
    || (exists t :: t in s.tasks && s.tasks[t].Preparing? && Intent(s.tasks[t]).owner == o)
    || (exists k :: k in s.prepared && s.prepared[k] == Prepared(o.caller, o.id))
    || (exists t :: Pending(s, t).Some? && Pending(s, t).value.1 == o)
  }

  /** The handler neither is about to create another sandbox nor has access to another one. */
  predicate Fits(f: Frame, a: Attempt)
    requires f.Holding?
  {
    !f.point.CreateFence? && !f.point.CreateReply? && (Access(f).Some? ==> Access(f) == Some(a))
  }

  predicate HoldsFor(s: State, t: TaskId, o: Owner) {
    Grip(s, t).Some? && OwnerOf(s.tasks[t].entry.record) == o
  }

  predicate ShelvedFor(s: State, o: Owner, a: Attempt) {
    Shelved(s, o.id, a) && OwnerOf(s.owned[o.id].record) == o
  }

  /** No sandbox of this owner but this one stands, or is about to stand. */
  ghost predicate Sole(s: State, o: Owner, a: Attempt) {
    && (forall b :: ShelvedFor(s, o, b) ==> b == a)
    && (forall t :: HoldsFor(s, t, o) ==> Fits(s.tasks[t], a))
  }

  /** Every outstanding preparation names the sandbox that stands for its owner. */
  ghost predicate Named(s: State) {
    && (forall t :: t in s.tasks && s.tasks[t].Preparing? ==> Sole(s, Intent(s.tasks[t]).owner, s.tasks[t].attempt))
    && (forall k :: k in s.prepared && k in s.world.issued ==>
          Sole(s, Owner(s.prepared[k].id, s.prepared[k].caller), s.world.issued[k].attempt))
    && (forall t :: Pending(s, t).Some? && Pending(s, t).value.0 in s.world.issued ==>
          Sole(s, Pending(s, t).value.1, s.world.issued[Pending(s, t).value.0].attempt))
  }

  /** Every execution so far was of the sandbox its token was issued for. */
  ghost predicate TokensFit(w: World) {
    forall i :: 0 <= i < |w.executions| ==>
      w.executions[i].prepareToken in w.issued &&
          w.issued[w.executions[i].prepareToken].attempt == w.executions[i].attempt
  }

  ghost predicate Matched(s: State) {
    Safe(s) && Accounted(s) && Named(s) && TokensFit(s.world)
  }

  /** What a caller can check before it creates: nobody works on the id, and no preparation of its own for it is under
      way. Only creates that pass matter. */
  ghost predicate Prudent(s: State, e: Event) {
    e.Create? && Passes(s, e.t, e.id, e.assetsMatch) ==> !InUse(s, e.id) && !Outstanding(s, Owner(e.id, e.caller))
  }

  ghost predicate PrudentRun(s: State, events: seq<Event>) {
    events == [] ||
    var n := |events| - 1;
    PrudentRun(s, events[..n]) && Prudent(Run(s, events[..n]), events[n])
  }

  /** A create that passes keeps every outstanding preparation named exactly when its caller has none for the id. */
  lemma CreateKeepsNamedIff(s: State, t: TaskId, caller: Caller, id: Id)
    requires Accounted(s) && Named(s) && Passes(s, t, id, true)
    ensures Named(CreateCheck(s, t, caller, id, true)) <==> !Outstanding(s, Owner(id, caller))
  {
    var s' := CreateCheck(s, t, caller, id, true);
    var o := Owner(id, caller);
    assert HoldsFor(s', t, o) && s'.tasks[t].point.CreateFence?;
    assert forall a :: !Sole(s', o, a);
    assert forall u :: Pending(s', u) == Pending(s, u);
    if Outstanding(s, o) {
      assert forall u :: u in s.tasks ==> s'.tasks[u] == s.tasks[u];
    } else {
      CreateKeepsSole(s, t, caller, id);
    }
  }

  lemma CreateKeepsSole(s: State, t: TaskId, caller: Caller, id: Id)
    requires Passes(s, t, id, true)
    ensures forall o, a :: o != Owner(id, caller) && Sole(s, o, a) ==> Sole(CreateCheck(s, t, caller, id, true), o, a)
  {
    var s' := CreateCheck(s, t, caller, id, true);
    assert forall u, o :: o != Owner(id, caller) && HoldsFor(s', u, o) ==>
             HoldsFor(s, u, o) && s'.tasks[u] == s.tasks[u];
    assert forall o, b :: ShelvedFor(s', o, b) ==> ShelvedFor(s, o, b);
  }

  /** Steps that move no entry move no name. */
  lemma QuietKeepsSole(s: State, s': State)
    requires Quiet(s, s')
    ensures forall o, a :: Sole(s, o, a) ==> Sole(s', o, a)
  {
    assert forall u, o :: HoldsFor(s', u, o) ==>
             Grip(s', u) == Grip(s, u) && HoldsFor(s, u, o) && s'.tasks[u] == s.tasks[u];
    assert forall o, b :: ShelvedFor(s', o, b) ==> ShelvedFor(s, o, b);
  }

  lemma TookKeepsSole(s: State, t: TaskId, s': State)
    requires Took(s, t, s') && Keyed(s)
    ensures forall o, a :: Sole(s, o, a) ==> Sole(s', o, a)
  {
    var f := s'.tasks[t];
    forall o, a | Sole(s, o, a)
      ensures Sole(s', o, a)
    {
      assert forall u :: u != t && HoldsFor(s', u, o) ==> Grip(s', u) == Grip(s, u) && HoldsFor(s, u, o);
      assert Access(f).Some? ==> ShelvedFor(s, OwnerOf(f.entry.record), Access(f).value);
      assert forall b :: ShelvedFor(s', o, b) ==> ShelvedFor(s, o, b);
    }
  }

  lemma ProceedsKeepsSole(s: State, t: TaskId, a: Action, s': State)
    requires Accounted(s) && Proceeds(s, t, a, s')
    ensures forall o, x :: Sole(s, o, x) ==> Sole(s', o, x)
  {
    OthersStay(s, t, a, s');
    AccessMoves(s, t, a, s');
    var own := OwnerOf(s.tasks[t].entry.record);
    assert HoldsFor(s, t, own);
    forall o, x | Sole(s, o, x)
      ensures Sole(s', o, x)
    {
      assert forall u :: u != t && HoldsFor(s', u, o) ==> Grip(s', u) == Grip(s, u) && HoldsFor(s, u, o);
      assert o == own ==> Fits(s.tasks[t], x);
      assert forall b: Attempt :: ShelvedFor(s', o, b) ==>
               ShelvedFor(s, o, b) || (o == own && Access(s.tasks[t]) == Some(b));
    }
  }

  /** Passive steps drop preparations at most. */
  lemma PassiveKeepsNamed(s: State, s': State)
    requires Named(s) && Passive(s, s') && forall o, a :: Sole(s, o, a) ==> Sole(s', o, a)
    ensures Named(s')
  {
  }

  lemma NobodyElseHolds(s: State, id: Id)
    requires Custody(s) && id in s.owned
    ensures forall t, o :: HoldsFor(s, t, o) ==> o.id != id
  {
    assert forall t, o :: HoldsFor(s, t, o) ==> Holds(s, t, o.id);
  }

  lemma PrepareKeepsNamed(s: State, t: TaskId, caller: Caller, id: Id, token: Token)
    requires Custody(s) && Named(s)
    ensures Named(PrepareCheck(s, t, caller, id, token))
  {
    var s' := PrepareCheck(s, t, caller, id, token);
    if s' != s {
      QuietPrepare(s, t, caller, id, token);
      QuietKeepsSole(s, s');
      assert forall u :: Pending(s', u) == Pending(s, u);
      NobodyElseHolds(s, id);
      assert Sole(s, Owner(id, caller), s.owned[id].lifecycle.attempt);
    }
  }

  lemma CommitKeepsNamed(s: State, t: TaskId, caller: Caller, id: Id, prepareToken: Token)
    requires Named(s)
    ensures Named(CommitToken(s, t, caller, id, prepareToken))
  {
    var s' := CommitToken(s, t, caller, id, prepareToken);
    QuietCommit(s, t, caller, id, prepareToken);
    QuietKeepsSole(s, s');
    assert forall u :: u != t ==> Pending(s', u) == Pending(s, u);
  }

  lemma InsertKeepsNamed(s: State, t: TaskId)
    requires Accounted(s) && Named(s)
    ensures Named(PrepareInsert(s, t))
  {
    if t in s.tasks && s.tasks[t].Preparing? {
      var f := s.tasks[t];
      var ended := End(s, t);
      EndKeepsNamed(s, t);
      if !HasPrepared(s.prepared, f.id) {
        IssueKeepsNamed(ended, Prepared(f.caller, f.id), Intent(f));
      }
    }
  }

  lemma EndKeepsNamed(s: State, t: TaskId)
    requires Named(s) && Tokens(s) && Grip(s, t).None?
    ensures Named(End(s, t)) && Tokens(End(s, t)) && forall o, a :: Sole(s, o, a) ==> Sole(End(s, t), o, a)
  {
    FrameChangeIsPassive(s, t, End(s, t));
    PassiveKeepsTokens(s, End(s, t));
    EndIsQuiet(s, End(s, t), t);
    QuietKeepsSole(s, End(s, t));
    PassiveKeepsNamed(s, End(s, t));
  }

  lemma IssueKeepsNamed(s: State, o: Prepared, i: Issue)
    requires Named(s) && Tokens(s) && Sole(s, Owner(o.id, o.caller), i.attempt)
    ensures Named(Issuing(s, o, i))
  {
    var s' := Issuing(s, o, i);
    assert forall u :: Pending(s', u) == Pending(s, u);
    SamePlacesKeepSole(s, s');
  }

  lemma SamePlacesKeepSole(s: State, s': State)
    requires s'.tasks == s.tasks && s'.owned == s.owned
    ensures forall o, a :: Sole(s, o, a) ==> Sole(s', o, a)
  {
    forall o, a | Sole(s, o, a)
      ensures Sole(s', o, a)
    {
      assert forall u :: HoldsFor(s', u, o) ==> HoldsFor(s, u, o);
      assert forall b :: ShelvedFor(s', o, b) ==> ShelvedFor(s, o, b);
    }
  }

  lemma ProceedsKeepsNamed(s: State, t: TaskId, a: Action, s': State)
    requires Accounted(s) && Named(s) && Proceeds(s, t, a, s')
    ensures Named(s')
  {
    ProceedsKeepsSole(s, t, a, s');
    ProceedsKeepsPending(s, t, a, s');
    ProceedsKeepsPrepared(s, t, a, s');
    assert s'.world.issued == s.world.issued;
    assert forall u :: u in s'.tasks && s'.tasks[u].Preparing? ==> u in s.tasks && s.tasks[u] == s'.tasks[u];
  }

  /** The execution itself: the handler's own pending token names the sandbox it holds. */
  lemma ProceedsKeepsTokensFit(s: State, t: TaskId, a: Action, s': State)
    requires Matched(s) && Proceeds(s, t, a, s')
    ensures TokensFit(s'.world)
  {
    var f := s.tasks[t];
    if a.happening.Executed? {
      assert Pending(s, t) == Some((a.happening.prepareToken, OwnerOf(f.entry.record)));
      assert Spendable(s.world, a.happening.prepareToken, OwnerOf(f.entry.record));
      assert HoldsFor(s, t, OwnerOf(f.entry.record));
      assert Sole(s, OwnerOf(f.entry.record), s.world.issued[a.happening.prepareToken].attempt);
    }
  }

  lemma ResumeKeepsMatched(s: State, t: TaskId, reply: Reply)
    requires Matched(s)
    ensures Named(ResumeStep(s, t, reply)) && TokensFit(ResumeStep(s, t, reply).world)
  {
    if Grip(s, t).Some? {
      var e, point := s.tasks[t].entry, s.tasks[t].point;
      HandlerIsLicensed(e, point, reply, s.nextToken, s.nextAttempt);
      var a := HandlerStep(e, point, reply, s.nextToken, s.nextAttempt);
      if a.Some? {
        ProceedsKeepsNamed(s, t, a.value, ResumeStep(s, t, reply));
        ProceedsKeepsTokensFit(s, t, a.value, ResumeStep(s, t, reply));
      }
    }
  }

  lemma TakeKeepsMatched(s: State, e: Event)
    requires Matched(s) && TakeEvent(e)
    ensures Named(Next(s, e)) && TokensFit(Next(s, e).world)
  {
    var s' := Next(s, e);
    TakeEventIsPassive(s, e);
    TakeStep(s, e);
    if Took(s, e.t, s') {
      TookKeepsSole(s, e.t, s');
    } else {
      QuietKeepsSole(s, s');
    }
    PassiveKeepsNamed(s, s');
  }

  lemma WaitingKeepsMatched(s: State, e: Event)
    requires Matched(s) && (e.Cleanup? || e.LoadForCleanup? || e.Wake? || e.GiveUp? || e.Notify? || e.BeginDrain?)
    ensures Named(Next(s, e)) && TokensFit(Next(s, e).world)
  {
    WaitingIsPassive(s, e);
    QuietStep(s, e);
    QuietKeepsSole(s, Next(s, e));
    PassiveKeepsNamed(s, Next(s, e));
  }

  lemma QuietKeepsMatched(s: State, e: Event)
    requires Matched(s) && QuietEvent(e)
    ensures Named(Next(s, e)) && TokensFit(Next(s, e).world)
  {
    match e
    case PrepareExec(t, caller, id, token) => PrepareKeepsNamed(s, t, caller, id, token);
    case CommitExec(t, caller, id, prepareToken) => CommitKeepsNamed(s, t, caller, id, prepareToken);
    case InsertPrepared(t) =>
      InsertKeepsNamed(s, t);
      InsertKeepsTokensFit(s, t);
    case _ => WaitingKeepsMatched(s, e);
  }

  lemma InsertKeepsTokensFit(s: State, t: TaskId)
    requires Accounted(s) && TokensFit(s.world)
    ensures TokensFit(PrepareInsert(s, t).world)
  {
    assert forall k :: k in s.world.issued ==> k < s.nextToken;
  }

  /** With nothing in progress there is nothing to name. */
  lemma IdleKeepsMatched(s: State, s': State)
    requires Matched(s) && s'.tasks == map[] && s'.owned == map[]
    requires s'.world == s.world.(mayExist := s'.world.mayExist)
    ensures Named(s') && TokensFit(s'.world)
  {
  }

  lemma SamePlacesKeepMatched(s: State, s': State)
    requires Matched(s) && s'.tasks == s.tasks && s'.owned == s.owned && s'.prepared == s.prepared
    requires s'.world == s.world.(mayExist := s'.world.mayExist)
    ensures Named(s') && TokensFit(s'.world)
  {
    assert forall u :: Pending(s', u) == Pending(s, u);
    SamePlacesKeepSole(s, s');
  }

  lemma CreateKeepsMatched(s: State, t: TaskId, caller: Caller, id: Id, assetsMatch: bool)
    requires Matched(s) && (Passes(s, t, id, assetsMatch) ==> !Outstanding(s, Owner(id, caller)))
    ensures Named(CreateCheck(s, t, caller, id, assetsMatch))
    ensures TokensFit(CreateCheck(s, t, caller, id, assetsMatch).world)
  {
    if Passes(s, t, id, assetsMatch) {
      CreateKeepsNamedIff(s, t, caller, id);
    }
  }

  lemma StepKeepsMatched(s: State, e: Event)
    requires Matched(s) && Prudent(s, e)
    ensures Matched(Next(s, e))
  {
    StepKeepsSafe(s, e);
    StepKeepsAccounted(s, e);
    StepKeepsNamed(s, e);
  }

  lemma StepKeepsNamed(s: State, e: Event)
    requires Matched(s) && Prudent(s, e)
    ensures Named(Next(s, e)) && TokensFit(Next(s, e).world)
  {
    if TakeEvent(e) {
      TakeKeepsMatched(s, e);
    } else if QuietEvent(e) {
      QuietKeepsMatched(s, e);
    } else {
      match e
      case Resume(t, reply) => ResumeKeepsMatched(s, t, reply);
      case Create(t, caller, id, assetsMatch) => CreateKeepsMatched(s, t, caller, id, assetsMatch);
      case _ => SystemKeepsMatched(s, e);
    }
  }

  lemma SystemKeepsMatched(s: State, e: Event)
    requires Matched(s) && SystemEvent(e) && !QuietEvent(e)
    ensures Named(Next(s, e)) && TokensFit(Next(s, e).world)
  {
    if e.Crash? {
      IdleKeepsMatched(s, CrashStep(s));
    } else {
      SystemKeepsPlaces(s, e);
      SamePlacesKeepMatched(s, Next(s, e));
    }
  }

  lemma {:induction false} RunsAreMatched(events: seq<Event>)
    requires PrudentRun(START, events)
    ensures Matched(Run(START, events))
  {
    if events != [] {
      var n := |events| - 1;
      RunsAreMatched(events[..n]);
      StepKeepsMatched(Run(START, events[..n]), events[n]);
    }
  }

  /** If no create passes while its id is being worked on or prepared for its caller, every execution is of the very
      sandbox its prepare token was issued for, also when ids are created again after their deletion. */
  lemma TokenNamesItsSandbox(events: seq<Event>, i: nat)
    requires PrudentRun(START, events) && i < |Run(START, events).world.executions|
    ensures var w := Run(START, events).world; var x := w.executions[i];
            x.prepareToken in w.issued && w.issued[x.prepareToken].attempt == x.attempt
  {
    RunsAreMatched(events);
  }
}
