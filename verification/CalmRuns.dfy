/**
 Runs in which the operator retries only while no attempt is being judged, and when board and artifacts agree.
 */
module CalmRuns {
  import opened Basics
  import B = TaskBoard
  import opened Evidence
  import opened Agreement

  /** The operator retries only when no attempt is being judged; otherwise it may do anything at any time. */
  ghost predicate Calm(w: World, e: Event) {
    && (e == Outside(B.Retry) ==> forall i | 0 <= i < |w.attempts| :: !Judging(w.attempts[i].stage))
    && Entitled(w, e)
  }

  ghost predicate CalmRun(w: World, events: seq<Event>)
    decreases |events|
  {
    |events| > 0 ==>
      && (Enabled(w, events[0]) ==> Calm(w, events[0]))
      && CalmRun(if Enabled(w, events[0]) then Step(w, events[0]) else w, events[1..])
  }

  /** The attempt owns the row in force, and the copy it may still write back. */
  ghost predicate Owns(w: World, a: Attempt) {
    && OwnsRow(a, Current(w))
    && (a.stage in {Claimed, Working} ==> a.slot == |w.replaced|)
    && (Judging(a.stage) && a.copy.Held? ==> OwnsRow(a, a.copy.row))
  }

  /** The attempt has lost the task, and has nothing to write. */
  ghost predicate Stale(w: World, a: Attempt) {
    !Judging(a.stage) && w.task.claimedBy != Some(a.agent)
  }

  ghost predicate CalmInv(w: World) {
    && (forall i | 0 <= i < |w.attempts| && w.attempts[i].stage != Done :: Owns(w, w.attempts[i]) || Stale(w, w.attempts[i]))
    && Founded(w)
    && (w.task.status == B.Pending ==> w.task.claimedBy == None)
  }

  /** The owner moved on; the others have no claim. */
  lemma {:induction false} OwnerMoved(w: World, next: World, k: nat, a: Attempt)
    requires OwnInv(w) && CalmInv(w) && k < |w.attempts| && w.attempts[k].stage != Done && Owns(w, w.attempts[k])
    requires next.attempts == w.attempts[k := a] && a.agent == w.attempts[k].agent
    requires next.task.claimedBy in {None, Some(a.agent)}
    requires a.stage != Done ==> Owns(next, a) || Stale(next, a)
    requires next.task.status == B.Pending ==> next.task.claimedBy == None
    requires Founded(next)
    ensures CalmInv(next)
  {
    forall i | 0 <= i < |next.attempts| && next.attempts[i].stage != Done && i != k ensures Stale(next, next.attempts[i]) {
      assert w.attempts[i].agent != w.attempts[k].agent;
      assert Owns(w, w.attempts[i]) || Stale(w, w.attempts[i]);
    }
  }

  /** A stale attempt moved on: it leaves the row, or calls for a repair. */
  lemma {:induction false} StaleMoved(w: World, next: World, k: nat, a: Attempt)
    requires CalmInv(w) && k < |w.attempts| && w.attempts[k].stage != Done && Stale(w, w.attempts[k])
    requires next.attempts == w.attempts[k := a] && a.agent == w.attempts[k].agent && (a.stage == Done || Stale(next, a))
    requires next.replaced == w.replaced && next.produced == w.produced && a.won == w.attempts[k].won
    requires w.attempts[k].won ==> a.ids == w.attempts[k].ids
    requires next.task == w.task || next.task == w.task.(status := B.RepairRequired)
    ensures CalmInv(next)
  {
    if next.task.status == B.Succeeded {
      var i :| 0 <= i < |w.attempts| && w.attempts[i].won && w.produced == IdSet(w.attempts[i].ids);
      assert next.attempts[i].won;
    }
  }

  lemma {:induction false} CalmStarts(w: World, k: nat, admitted: bool)
    requires Inv(w) && OwnInv(w) && CalmInv(w) && k < |w.attempts| && w.attempts[k].stage == Claimed
    ensures CalmInv(AfterStart(w, k, admitted))
  {
    var next := AfterStart(w, k, admitted);
    if Stale(w, w.attempts[k]) { StaleMoved(w, next, k, next.attempts[k]); }
    else { OwnerMoved(w, next, k, next.attempts[k]); }
  }

  lemma {:induction false} CalmPlans(w: World, k: nat)
    requires Inv(w) && OwnInv(w) && CalmInv(w) && k < |w.attempts| && w.attempts[k].stage == Working
    requires w.task.claimedBy == Some(w.attempts[k].agent)
    ensures CalmInv(AfterPlan(w, k))
  {
    var next := AfterPlan(w, k);
    OwnerMoved(w, next, k, next.attempts[k]);
  }

  lemma {:induction false} CalmProduces(w: World, k: nat, ids: seq<ArtifactId>)
    requires Inv(w) && OwnInv(w) && CalmInv(w) && k < |w.attempts| && w.attempts[k].stage == Working && IdSet(ids) !! w.marks.Keys
    ensures CalmInv(AfterProduce(w, k, ids))
  {
    var next := AfterProduce(w, k, ids);
    assert AttemptOk(w.attempts[k], w.marks);
    if Stale(w, w.attempts[k]) { StaleMoved(w, next, k, next.attempts[k]); }
    else { OwnerProduces(w, k, ids); }
  }

  lemma {:induction false} OwnerProduces(w: World, k: nat, ids: seq<ArtifactId>)
    requires OwnInv(w) && CalmInv(w) && k < |w.attempts| && w.attempts[k].stage == Working && Owns(w, w.attempts[k])
    ensures CalmInv(AfterProduce(w, k, ids))
  {
    var next := AfterProduce(w, k, ids);
    OwnerMoved(w, next, k, next.attempts[k]);
  }

  lemma {:induction false} CalmTakesUp(w: World, k: nat)
    requires Inv(w) && OwnInv(w) && CalmInv(w) && k < |w.attempts| && w.attempts[k].stage == Produced
    ensures CalmInv(AfterStartVerify(w, k))
  {
    var next := AfterStartVerify(w, k);
    OwnerMoved(w, next, k, next.attempts[k]);
  }

  lemma {:induction false} CalmReads(w: World, k: nat)
    requires Inv(w) && OwnInv(w) && CalmInv(w) && k < |w.attempts| && w.attempts[k].stage in {Verifying, Refused, Conflicted, Ousted}
    ensures CalmInv(AfterRead(w, k))
  {
    var next := AfterRead(w, k);
    if Stale(w, w.attempts[k]) { StaleMoved(w, next, k, next.attempts[k]); }
    else { OwnerMoved(w, next, k, next.attempts[k]); }
  }

  lemma {:induction false} CalmWrites(w: World, k: nat)
    requires Inv(w) && OwnInv(w) && CalmInv(w) && k < |w.attempts| && w.attempts[k].stage in {Verifying, Refused, Conflicted} && w.attempts[k].copy.Held?
    ensures CalmInv(AfterWriteBack(w, k))
  {
    var next := AfterWriteBack(w, k);
    OwnerMoved(w, next, k, next.attempts[k]);
  }

  lemma {:induction false} CalmDecides(w: World, k: nat, pass: bool)
    requires Inv(w) && OwnInv(w) && CalmInv(w) && k < |w.attempts| && w.attempts[k].stage == Verifying && (pass ==> !w.attempts[k].copy.Held?)
    ensures CalmInv(AfterVerdict(w, k, pass))
  {
    var next := AfterVerdict(w, k, pass);
    OwnerMoved(w, next, k, next.attempts[k]);
  }

  lemma {:induction false} CalmIsHooked(w: World, k: nat, allow: bool)
    requires Inv(w) && OwnInv(w) && CalmInv(w) && k < |w.attempts| && w.attempts[k].stage == Passed
    ensures CalmInv(AfterHook(w, k, allow))
  {
    var next := AfterHook(w, k, allow);
    OwnerMoved(w, next, k, next.attempts[k]);
  }

  lemma {:induction false} CalmMerges(w: World, k: nat, conflict: bool)
    requires Inv(w) && OwnInv(w) && CalmInv(w) && k < |w.attempts| && w.attempts[k].stage == Approved
    ensures CalmInv(AfterMerge(w, k, conflict))
  {
    var next := AfterMerge(w, k, conflict);
    OwnerMoved(w, next, k, next.attempts[k]);
  }

  lemma {:induction false} CalmMarks(w: World, k: nat, found: bool)
    requires Inv(w) && OwnInv(w) && CalmInv(w) && k < |w.attempts| && w.attempts[k].stage.Marking? && w.attempts[k].stage.marked < |w.attempts[k].ids|
    ensures CalmInv(AfterMark(w, k, found))
  {
    var next := AfterMark(w, k, found);
    OwnerMoved(w, next, k, next.attempts[k]);
  }

  lemma {:induction false} CalmCommits(w: World, k: nat)
    requires Inv(w) && OwnInv(w) && CalmInv(w) && k < |w.attempts| && w.attempts[k].stage.Marking? && w.attempts[k].stage.marked >= |w.attempts[k].ids|
    ensures CalmInv(AfterCommit(w, k))
  {
    var next := AfterCommit(w, k);
    OwnerMoved(w, next, k, next.attempts[k]);
  }

  lemma {:induction false} CalmSendsBack(w: World, k: nat)
    requires Inv(w) && OwnInv(w) && CalmInv(w) && k < |w.attempts| && w.attempts[k].stage == Returning
    ensures CalmInv(AfterSendBack(w, k))
  {
    var next := AfterSendBack(w, k);
    if Stale(w, w.attempts[k]) { StaleMoved(w, next, k, next.attempts[k]); }
    else { OwnerMoved(w, next, k, next.attempts[k]); }
  }

  lemma {:induction false} CalmWithdraws(w: World, k: nat)
    requires Inv(w) && OwnInv(w) && CalmInv(w) && k < |w.attempts| && w.attempts[k].stage == Ousted && w.attempts[k].copy.Held?
    ensures CalmInv(AfterWithdraw(w, k))
  {
    var next := AfterWithdraw(w, k);
    if Stale(w, w.attempts[k]) { StaleMoved(w, next, k, next.attempts[k]); }
    else { OwnerMoved(w, next, k, next.attempts[k]); }
  }

  lemma {:induction false} CalmFails(w: World, k: nat, report: B.Event)
    requires Inv(w) && OwnInv(w) && CalmInv(w) && k < |w.attempts| && CanRaise(w.attempts[k]) && report.Fail? && report.agent == w.attempts[k].agent
    ensures CalmInv(AfterFail(w, k, report))
  {
    var next := AfterFail(w, k, report);
    if Stale(w, w.attempts[k]) { StaleMoved(w, next, k, next.attempts[k]); }
    else { OwnerMoved(w, next, k, next.attempts[k]); }
  }

  lemma {:induction false} CalmReleases(w: World, k: nat)
    requires Inv(w) && OwnInv(w) && CalmInv(w) && k < |w.attempts| && w.attempts[k].stage == Working
    ensures CalmInv(AfterRelease(w, k))
  {
    var next := AfterRelease(w, k);
    if Stale(w, w.attempts[k]) { StaleMoved(w, next, k, next.attempts[k]); }
    else { OwnerMoved(w, next, k, next.attempts[k]); }
  }

  lemma {:induction false} CalmWaits(w: World, k: nat)
    requires Inv(w) && OwnInv(w) && CalmInv(w) && k < |w.attempts| && w.attempts[k].stage == Working
    requires w.task.claimedBy == Some(w.attempts[k].agent)
    ensures CalmInv(AfterPermission(w, k))
  {
    var next := AfterPermission(w, k);
    OwnerMoved(w, next, k, next.attempts[k]);
  }

  lemma {:induction false} CalmRetires(w: World, k: nat)
    requires Inv(w) && OwnInv(w) && CalmInv(w) && k < |w.attempts| && w.attempts[k].stage == Closing
    ensures CalmInv(At(w, k, Done))
  {
    var next := At(w, k, Done);
    if Stale(w, w.attempts[k]) {
      StaleMoved(w, next, k, next.attempts[k]);
    } else {
      if next.task.status == B.Succeeded {
        var i :| 0 <= i < |w.attempts| && w.attempts[i].won && w.produced == IdSet(w.attempts[i].ids);
        assert next.attempts[i].won && next.produced == IdSet(next.attempts[i].ids);
      }
      OwnerMoved(w, next, k, next.attempts[k]);
    }
  }

  lemma {:induction false} CalmClaims(w: World, agent: AgentId)
    requires CalmInv(w) && Enabled(w, Claim(agent))
    ensures CalmInv(AfterClaim(w, agent))
  {
    var next := AfterClaim(w, agent);
    if B.Guarded(w.task, B.Claim(agent)) {
      forall i | 0 <= i < |w.attempts| && w.attempts[i].stage != Done
        ensures next.attempts[i] == w.attempts[i] && Stale(next, w.attempts[i])
      {
        assert Owns(w, w.attempts[i]) || Stale(w, w.attempts[i]);
      }
    }
  }

  lemma {:induction false} CalmOutside(w: World, o: B.Event)
    requires CalmInv(w) && Enabled(w, Outside(o)) && Calm(w, Outside(o))
    ensures CalmInv(Tell(w, o))
  {
    var next := Tell(w, o);
    forall i | 0 <= i < |w.attempts| && w.attempts[i].stage != Done
      ensures Owns(next, w.attempts[i]) || Stale(next, w.attempts[i])
    {
      assert Owns(w, w.attempts[i]) || Stale(w, w.attempts[i]);
    }
  }

  lemma {:induction false} CalmStepKeeps(w: World, e: Event)
    requires Inv(w) && OwnInv(w) && CalmInv(w) && Enabled(w, e) && Calm(w, e)
    ensures CalmInv(Step(w, e))
  {
    match e
    case Claim(agent) => CalmClaims(w, agent);
    case Outside(o) => CalmOutside(w, o);
    case Start(k, admitted) => CalmStarts(w, k, admitted);
    case SubmitPlan(k) => CalmPlans(w, k);
    case Produce(k, ids) => CalmProduces(w, k, ids);
    case StartVerify(k) => CalmTakesUp(w, k);
    case Read(k) => CalmReads(w, k);
    case WriteBack(k) => CalmWrites(w, k);
    case Verdict(k, pass) => CalmDecides(w, k, pass);
    case Hook(k, allow) => CalmIsHooked(w, k, allow);
    case Merge(k, conflict) => CalmMerges(w, k, conflict);
    case MarkNext(k, found) => CalmMarks(w, k, found);
    case Commit(k) => CalmCommits(w, k);
    case SendBack(k) => CalmSendsBack(w, k);
    case Withdraw(k) => CalmWithdraws(w, k);
    case Fail(k, retryable, rateLimited, retryAt) => CalmFails(w, k, B.Fail(w.attempts[k].agent, retryable, rateLimited, retryAt));
    case Release(k) => CalmReleases(w, k);
    case AwaitPermission(k) => CalmWaits(w, k);
    case Retire(k) => CalmRetires(w, k);
  }

  // ----- Whole runs -----

  lemma {:induction false} CalmPlayKeeps(w: World, events: seq<Event>)
    requires Inv(w) && OwnInv(w) && CalmInv(w) && CalmRun(w, events)
    ensures Inv(Play(w, events)) && CalmInv(Play(w, events))
    decreases |events|
  {
    if |events| > 0 {
      if Enabled(w, events[0]) {
        StepKeeps(w, events[0]);
        OwnStepKeeps(w, events[0]);
        CalmStepKeeps(w, events[0]);
      }
      CalmPlayKeeps(if Enabled(w, events[0]) then Step(w, events[0]) else w, events[1..]);
    }
  }

  /** Over every calm run a succeeded task records verified artifacts only. */
  lemma {:induction false} CalmRunsAreSound(t: B.Task, events: seq<Event>)
    requires t.status == B.Pending && t.claimedBy == None && CalmRun(Initial(t), events)
    ensures Sound(Play(Initial(t), events))
  {
    CalmPlayKeeps(Initial(t), events);
    FoundedIsSound(Play(Initial(t), events));
  }

  /** In a calm run success comes from VERIFYING, by the attempt whose artifacts the board records: no copy that
      is written back has succeeded. */
  lemma {:induction false} CalmSuccess(w: World, e: Event)
    requires Inv(w) && OwnInv(w) && CalmInv(w) && Enabled(w, e) && w.task.status != B.Succeeded
    ensures Step(w, e).task.status == B.Succeeded <==> Commits(w, e) && w.task.status == B.Verifying
    ensures Commits(w, e) ==> w.produced == IdSet(w.attempts[e.k].ids)
  {
    SucceedsExactly(w, e);
    if e.Commit? || e.WriteBack? { JudgingOwns(w, e.k); }
  }

  /** An attempt that is being judged owns the row, and no copy it holds has succeeded. */
  lemma {:induction false} JudgingOwns(w: World, k: nat)
    requires Inv(w) && CalmInv(w) && k < |w.attempts| && Judging(w.attempts[k].stage)
    ensures Owns(w, w.attempts[k]) && !HoldsSuccess(w.attempts[k])
    ensures w.attempts[k].stage.Marking? ==> w.task.status != B.Produced
  {
    assert Owns(w, w.attempts[k]) || Stale(w, w.attempts[k]);
    assert AttemptOk(w.attempts[k], w.marks);
  }

  lemma {:induction false} CalmRests(w: World)
    requires CalmInv(w)
    ensures Resting(w)
  {
    forall i | 0 <= i < |w.attempts| && w.attempts[i].stage != Done && w.task.status == B.Succeeded
      ensures (w.attempts[i].stage == Closing && w.attempts[i].won) || Stale(w, w.attempts[i])
    {
      assert Owns(w, w.attempts[i]) || Stale(w, w.attempts[i]);
    }
  }

  lemma {:induction false} CalmKept(w: World, e: Event)
    requires Inv(w) && OwnInv(w) && CalmInv(w) && Kept(w) && Enabled(w, e) && Calm(w, e)
    ensures !Undoes(w, e) ==> Kept(Step(w, e))
  {
    CalmRests(w);
    if w.task.status != B.Succeeded { CalmSuccess(w, e); }
    KeptStays(w, e);
  }

  /** From a calm state board and artifacts agree throughout a calm run if and only if no step takes a success back. */
  lemma {:induction false} CalmPlayAgrees(w: World, events: seq<Event>)
    requires Inv(w) && OwnInv(w) && CalmInv(w) && Kept(w) && CalmRun(w, events)
    ensures AgreesThroughout(w, events) <==> !Undone(w, events)
    decreases |events|
  {
    KeptAgrees(w);
    if |events| > 0 {
      var e, next := events[0], if Enabled(w, events[0]) then Step(w, events[0]) else w;
      if Enabled(w, e) && Undoes(w, e) {
        UndoBreaks(w, e);
      } else {
        if Enabled(w, e) {
          StepKeeps(w, e);
          OwnStepKeeps(w, e);
          CalmStepKeeps(w, e);
          CalmKept(w, e);
        }
        CalmPlayAgrees(next, events[1..]);
      }
    }
  }

  /** Over every run from a fresh task in which the operator retries only while no attempt is being judged. */
  lemma {:induction false} CalmRunsAgree(t: B.Task, events: seq<Event>)
    requires t.status == B.Pending && t.claimedBy == None && CalmRun(Initial(t), events)
    ensures AgreesThroughout(Initial(t), events) <==> !Undone(Initial(t), events)
  {
    CalmPlayAgrees(Initial(t), events);
  }
}
