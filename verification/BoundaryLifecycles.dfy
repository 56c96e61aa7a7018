/** Lifecycles only advance, sandbox by sandbox, in every run. */
module BoundaryLifecycles {
  import opened RuntimeContract
  import opened ServiceBoundary
  import opened BoundaryCustody
  import opened BoundaryExecution

  /** Some place holds an entry with this lifecycle. */
  ghost predicate Stands(s: State, l: Lifecycle) {
    || (exists id :: id in s.owned && s.owned[id].lifecycle == l)
    || (exists t :: Grip(s, t).Some? && s.tasks[t].entry.lifecycle == l)
  }

  ghost predicate AwaitsReply(s: State, a: Attempt) {
    exists t :: Grip(s, t).Some? && s.tasks[t].point == CreateReply(a)
  }

  /** How far a sandbox has come: not submitted, awaiting the create reply, Created, Ready, or out of reach for good. */
  ghost function Rank(s: State, a: Attempt): nat {
    if a !in s.world.attempts then 0
    else if AwaitsReply(s, a) then 1
    else if Stands(s, Created(a)) then 2
    else if Stands(s, Ready(a)) then 3
    else 4
  }

  /** Where each lifecycle can come from. */
  ghost predicate OnlyAdvances(s: State, s': State) {
    && (forall a :: a in s.world.attempts ==> a in s'.world.attempts)
    && (forall a :: AwaitsReply(s', a) ==> AwaitsReply(s, a) || a == s.nextAttempt)
    && (forall a :: Stands(s', Created(a)) ==> Stands(s, Created(a)) || AwaitsReply(s, a))
    && (forall a :: Stands(s', Ready(a)) ==> Stands(s, Ready(a)) || Stands(s, Created(a)))
  }

  /** A sandbox is at one point of its life at a time. */
  lemma OnePoint(s: State, a: Attempt)
    requires Accounted(s)
    ensures !(Stands(s, Created(a)) && Stands(s, Ready(a)))
    ensures AwaitsReply(s, a) ==> !Stands(s, Created(a)) && !Stands(s, Ready(a))
  {
    assert forall id :: id in s.owned && s.owned[id].lifecycle == Created(a) ==> Shelved(s, id, a);
    assert forall id :: id in s.owned && s.owned[id].lifecycle == Ready(a) ==> Shelved(s, id, a);
    assert forall t :: Grip(s, t).Some? && s.tasks[t].entry.lifecycle == Created(a) ==>
           GripSound(s.world, s.tasks[t]) && Grants(s, t, a);
    assert forall t :: Grip(s, t).Some? && s.tasks[t].entry.lifecycle == Ready(a) ==>
           GripSound(s.world, s.tasks[t]) && Grants(s, t, a);
    assert forall t :: Grip(s, t).Some? && s.tasks[t].point == CreateReply(a) ==> Grants(s, t, a);
  }

  lemma AdvancingRaisesRank(s: State, s': State, a: Attempt)
    requires Accounted(s) && OnlyAdvances(s, s')
    ensures Rank(s, a) <= Rank(s', a)
  {
    OnePoint(s, a);
  }

  lemma QuietOnlyAdvances(s: State, s': State)
    requires Quiet(s, s')
    ensures OnlyAdvances(s, s')
  {
  }

  lemma TookOnlyAdvances(s: State, t: TaskId, s': State)
    requires Took(s, t, s')
    ensures OnlyAdvances(s, s')
  {
  }

  lemma CreateOnlyAdvances(s: State, t: TaskId, caller: Caller, id: Id, assetsMatch: bool)
    ensures OnlyAdvances(s, CreateCheck(s, t, caller, id, assetsMatch))
  {
  }

  lemma ProceedsOnlyAdvances(s: State, t: TaskId, a: Action, s': State)
    requires Proceeds(s, t, a, s')
    ensures OnlyAdvances(s, s')
  {
    OthersStay(s, t, a, s');
    assert Grip(s, t).Some?;
    assert Stands(s, s.tasks[t].entry.lifecycle);
    assert forall x :: a.next.Continue? && a.next.point == CreateReply(x) ==> x == s.nextAttempt;
    forall l | Stands(s', l) && !l.CleanupOnly?
      ensures Stands(s, l) || (l.Created? && AwaitsReply(s, l.attempt)) || (l.Ready? && Stands(s, Created(l.attempt)))
    {
      if u :| Grip(s', u).Some? && s'.tasks[u].entry.lifecycle == l {
        assert u != t ==> Grip(s, u) == Grip(s', u);
      }
    }
  }

  lemma ResumeOnlyAdvances(s: State, t: TaskId, reply: Reply)
    ensures OnlyAdvances(s, ResumeStep(s, t, reply))
  {
    if Grip(s, t).Some? {
      var e, point := s.tasks[t].entry, s.tasks[t].point;
      HandlerIsLicensed(e, point, reply, s.nextToken, s.nextAttempt);
      var a := HandlerStep(e, point, reply, s.nextToken, s.nextAttempt);
      if a.Some? {
        ProceedsOnlyAdvances(s, t, a.value, ResumeStep(s, t, reply));
      }
    }
  }

  lemma StepOnlyAdvances(s: State, e: Event)
    requires Keyed(s)
    ensures OnlyAdvances(s, Next(s, e))
  {
    var s' := Next(s, e);
    if TakeEvent(e) {
      TakeStep(s, e);
      if Took(s, e.t, s') {
        TookOnlyAdvances(s, e.t, s');
      } else {
        QuietOnlyAdvances(s, s');
      }
    } else if QuietEvent(e) {
      QuietStep(s, e);
      QuietOnlyAdvances(s, s');
    } else if e.Resume? {
      ResumeOnlyAdvances(s, e.t, e.reply);
    } else if e.Create? {
      CreateOnlyAdvances(s, e.t, e.caller, e.id, e.assetsMatch);
    }
  }

  /** In every run, no event ever moves any sandbox back. */
  lemma LifecyclesOnlyAdvance(events: seq<Event>, e: Event, a: Attempt)
    ensures Rank(Run(START, events), a) <= Rank(Next(Run(START, events), e), a)
  {
    RunsAreAccounted(events);
    StepOnlyAdvances(Run(START, events), e);
    AdvancingRaisesRank(Run(START, events), Next(Run(START, events), e), a);
  }
}
